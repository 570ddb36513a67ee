/**
 The six fused undocumented operations do what their two documented halves do, one after
 the other, on the same resolved address (src/InstructionImpl.h).
 */
module FusedOperations {
  import opened Registers
  import opened Memory
  import opened Bus
  import opened Stack
  import opened Addressing
  import opened Instructions
  import opened BusTraffic

  predicate Fused(op: ModifyOp) {
    op in {SLO, RLA, SRE, RRA, DCP, ISC}
  }

  /** The read-modify-write half. */
  function FirstHalf(op: ModifyOp): ModifyOp
    requires Fused(op)
  {
    match op
    case SLO => ASL
    case RLA => ROL
    case SRE => LSR
    case RRA => ROR
    case DCP => DEC
    case ISC => INC
  }

  /** The half that combines the stored result with A. */
  function SecondHalf(op: ModifyOp): LoadOp
    requires Fused(op)
  {
    match op
    case SLO => ORA
    case RLA => AND
    case SRE => EOR
    case RRA => ADC
    case DCP => CMP
    case ISC => SBC
  }

  lemma SameResult(op: ModifyOp, sr: Status, orig: Byte)
    requires Fused(op)
    ensures Modified(op, sr, orig) == Modified(FirstHalf(op), sr, orig)
  {
  }

  /** The flags the first half would have set on its own are overwritten by the second. */
  lemma FlagsOverwritten(op: ModifyOp, r: Regs, orig: Byte, v: Byte)
    requires Fused(op)
    ensures Accumulated(op, r.(sr := ModifiedStatus(op, r.sr, orig)), v)
         == LoadEffect(SecondHalf(op), r.(sr := ModifiedStatus(FirstHalf(op), r.sr, orig)), v)
  {
    hide Modified, And, Or, Xor;
  }

  /**
   Registers, flags and RAM after a fused operation are those after its first half
   followed by its second half applied to the byte now at the resolved address: carry
   threaded through, in binary and in decimal, whatever the addressing mode.
   */
  lemma FusedIsBothHalves(op: ModifyOp, mode: Mode, cycles: int, st: State)
    requires Fused(op) && mode.Addresses() && st.bus.device.Ram?
    ensures var f := FetchOperand(mode, st);
            var ad := Target(mode, f.st.r, f.st.bus, f.operand);
            var first := ExecuteModify(FirstHalf(op), mode, cycles, st).st;
            var fused := ExecuteModify(op, mode, cycles, st).st;
            && fused.bus == first.bus
            && first.bus.device.Ram?
            && fused.r == LoadEffect(SecondHalf(op), first.r, Peek(first.bus.device.image, ad))
  {
    hide Reads, FetchOperand, Pointer, StoreApproach, OperandCells, Target, Modified, ModifiedStatus, LoadEffect, Peek, Poke;
    hide Accumulated, FirstHalf, SecondHalf, BusState.Value;
    var f := FetchOperand(mode, st);
    var ad := Target(mode, f.st.r, f.st.bus, f.operand);
    var ready := StoreApproach(mode, f.st.r, f.st.bus, f.operand);
    var orig := ready.Value(ad);
    FetchReads(mode, st);
    ReadsDevice(st.bus, f.st.bus, OperandCells(mode, st.r.pc));
    SameResult(op, f.st.r.sr, orig);
    var v := Modified(op, f.st.r.sr, orig);
    FlagsOverwritten(op, f.st.r, orig, v);
    NothingAccumulated(op, f.st.r.(sr := ModifiedStatus(FirstHalf(op), f.st.r.sr, orig)), v);
    StaysRam(mode, f.st, f.operand);
    PokeTwice(ready.device.image, ad, orig, v);
  }

  lemma StaysRam(mode: Mode, st: State, operand: Word)
    ensures StoreApproach(mode, st.r, st.bus, operand).device == st.bus.device
  {
  }

  lemma NothingAccumulated(op: ModifyOp, r: Regs, v: Byte)
    requires Fused(op)
    ensures Accumulated(FirstHalf(op), r, v) == r
  {
  }
}
