/**
 Which instructions can change the interrupt mask, B and the unused bit: everything else
 about a run of instructions that the interrupt protocol rests on.
 */
module StatusBits {
  import opened Registers
  import opened Bus
  import opened Stack
  import opened Arithmetic
  import opened Addressing
  import opened Instructions
  import opened OpcodeTable
  import opened Processor

  /** I, B and bit 5 agree. */
  predicate SameMask(s: Status, t: Status) {
    s.i == t.i && s.b == t.b && s.u == t.u
  }

  /** CLI, SEI, PLP, RTI and BRK: the only instructions that write I. */
  predicate WritesMask(op: Op) {
    op in {OnRegisters(CLI), OnRegisters(SEI), Control(PLP), Control(RTI), Control(BRK)}
  }

  lemma LoadMask(op: LoadOp, mode: Mode, cycles: int, st: State)
    ensures SameMask(st.r.sr, ExecuteLoad(op, mode, cycles, st).st.r.sr)
  {
    hide And, Or, Xor, RawSum, RawDifference, LowFixed, LowRestored, HighFixed, HighRestored, LoadOperand;
    hide BusState.Value, BusState.Read;
  }

  lemma ModifyMask(op: ModifyOp, mode: Mode, cycles: int, st: State)
    ensures SameMask(st.r.sr, ExecuteModify(op, mode, cycles, st).st.r.sr)
  {
    hide StoreApproach, Target, LoadOperand, Modified, ModifiedStatus, Accumulated, WriteTwice, BusState.Value;
    var f := FetchOperand(mode, st);
    var orig := if mode.Addresses()
      then StoreApproach(mode, f.st.r, f.st.bus, f.operand).Value(Target(mode, f.st.r, f.st.bus, f.operand))
      else LoadOperand(mode, f.st.r, f.st.bus, f.operand).v;
    var v := Modified(op, f.st.r.sr, orig);
    ModificationMask(op, f.st.r, orig, v);
    ModificationMask(op, f.st.r.(a := v), orig, v);
  }

  lemma ModificationMask(op: ModifyOp, r: Regs, orig: Byte, v: Byte)
    ensures SameMask(r.sr, Accumulated(op, r.(sr := ModifiedStatus(op, r.sr, orig)), v).sr)
  {
    hide And, Or, Xor, RawSum, RawDifference, LowFixed, LowRestored, HighFixed, HighRestored, Modified;
  }

  lemma StoreMask(op: StoreOp, mode: Mode, cycles: int, st: State)
    ensures SameMask(st.r.sr, ExecuteStore(op, mode, cycles, st).st.r.sr)
  {
    hide StoreApproach, Target, StoreValue, FetchOperand;
    FetchStatus(mode, st);
  }

  lemma BranchMask(op: BranchOp, mode: Mode, cycles: int, st: State)
    ensures SameMask(st.r.sr, ExecuteBranch(op, mode, cycles, st).st.r.sr)
  {
    hide LoadOperand, BranchTaken, BranchTarget, FetchOperand, Page;
    FetchStatus(mode, st);
  }

  lemma UnstableMask(op: UnstableOp, mode: Mode, cycles: int, st: State)
    requires mode.MayCross()
    ensures SameMask(st.r.sr, ExecuteUnstable(op, mode, cycles, st).st.r.sr)
  {
    hide Pointer, Effective, UnstableSource, FetchOperand, And;
    FetchStatus(mode, st);
  }

  lemma RegisterMask(op: RegisterOp, r: Regs)
    ensures op != CLI && op != SEI ==> SameMask(r.sr, RegisterEffect(op, r).sr)
    ensures op == CLI ==> RegisterEffect(op, r).sr == r.sr.(i := 0)
    ensures op == SEI ==> RegisterEffect(op, r).sr == r.sr.(i := 1)
  {
  }

  lemma FetchStatus(mode: Mode, st: State)
    ensures FetchOperand(mode, st).st.r.sr == st.r.sr
  {
  }

  lemma ControlMask(op: ControlOp, mode: Mode, st: State)
    requires JumpAllowed(op, mode)
    ensures var sr := ControlEffect(op, mode, st).r.sr;
            && (!WritesMask(Control(op)) ==> SameMask(st.r.sr, sr))
            && (op.BRK? ==> sr == st.r.sr.(i := 1))
            && (op.PLP? || op.RTI? ==> sr.Normal())
  {
    hide BusState.Value, BusState.PairValue, Unpack, Status.Packed;
  }

  lemma ExecuteMask(op: Op, mode: Mode, cycles: int, st: State)
    requires Allowed(op, mode)
    ensures var sr := Execute(op, mode, cycles, st).st.r.sr;
            && (!WritesMask(op) ==> SameMask(st.r.sr, sr))
            && (op == OnRegisters(CLI) ==> sr == st.r.sr.(i := 0))
            && (op == OnRegisters(SEI) || op == Control(BRK) ==> sr == st.r.sr.(i := 1))
            && (op == Control(PLP) || op == Control(RTI) ==> sr.Normal())
  {
    hide ExecuteLoad, ExecuteModify, ExecuteStore, ExecuteBranch, ExecuteUnstable, ControlEffect, RegisterEffect;
    match op {
      case Loading(l) => LoadMask(l, mode, cycles, st);
      case Storing(s) => StoreMask(s, mode, cycles, st);
      case Modifying(m) => ModifyMask(m, mode, cycles, st);
      case Branching(b) => BranchMask(b, mode, cycles, st);
      case OnRegisters(r) => RegisterMask(r, st.r);
      case Unstable(u) => UnstableMask(u, mode, cycles, st);
      case Control(c) => ControlMask(c, mode, st);
    }
  }

  lemma TableMaskWriters(code: Byte)
    ensures Decode(code).op == OnRegisters(CLI) <==> code == 0x58
    ensures Decode(code).op == OnRegisters(SEI) <==> code == 0x78
    ensures Decode(code).op == Control(PLP) <==> code == 0x28
    ensures Decode(code).op == Control(RTI) <==> code == 0x40
    ensures Decode(code).op == Control(BRK) <==> code == 0x00
  {
  }

  /** What executing an opcode does to I, B and bit 5. */
  lemma InstructionMask(st: State, code: Byte)
    ensures var sr := RunInstruction(st, code).st.r.sr;
            && (code !in {0x58, 0x78, 0x28, 0x40, 0x00} ==> SameMask(st.r.sr, sr))
            && (code == 0x58 ==> sr == st.r.sr.(i := 0))
            && (code == 0x78 || code == 0x00 ==> sr == st.r.sr.(i := 1))
            && (code == 0x28 || code == 0x40 ==> sr.Normal())
  {
    hide Decode, Execute, Allowed, BusState.Read;
    TableAllowed(code);
    TableMaskWriters(code);
    var e := Decode(code);
    ExecuteMask(e.op, e.mode, e.cycles, AfterFetch(st));
  }

  lemma StepNormal(m: Machine)
    requires m.st.r.sr.Normal()
    ensures Step(m).st.r.sr.Normal()
  {
    hide RunInstruction, Status.Packed, BusState.Value, BusState.PairValue;
    InstructionMask(m.st, m.NextCode());
  }

  lemma {:induction false} NormalOnEveryRun(m: Machine, events: seq<Event>)
    requires m.st.r.sr.Normal()
    ensures Run(m, events).st.r.sr.Normal()
    decreases events
  {
    hide Step;
    if events != [] {
      StepNormal(m);
      NormalOnEveryRun(Apply(m, events[0]), events[1..]);
    }
  }

  /** Reachable from reset, on any bus and after any events: B is clear and bit 5 set. */
  lemma NormalFromReset(bus: BusState, before: bool, events: seq<Event>)
    ensures Run(Reset(bus, before), events).st.r.sr.Normal()
  {
    hide Run;
    assert Reset(bus, before).st.r.sr.Normal();
    NormalOnEveryRun(Reset(bus, before), events);
  }
}
