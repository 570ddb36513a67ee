/**
 Calls and saves (src/InstructionImpl.h): what JSR, PHA and PHP leave on the stack, and
 what RTS, PLA and PLP make of it.
 */
module Subroutines {
  import opened Registers
  import opened Memory
  import opened Bus
  import opened Stack
  import opened Addressing
  import opened Instructions
  import opened OpcodeTable
  import opened Processor

  lemma PushWordRegs(st: State, w: Word)
    ensures Push16(st, w).r == st.r.(sp := Low(st.r.sp - 2))
  {
    hide BusState.Write;
  }

  lemma PopWordRegs(st: State)
    ensures Pop16(st).st.r == st.r.(sp := Low(st.r.sp + 2))
  {
    hide BusState.Read, BusState.Value;
  }

  lemma FetchKeepsRam(st: State, live: seq<Byte>)
    requires OnRam(st, live)
    ensures OnRam(AfterFetch(st), live) && AfterFetch(st).bus.device == st.bus.device
    ensures AfterFetch(st).r.sp == st.r.sp
  {
  }

  function Call(st: State): State {
    RunInstruction(st, 0x20).st
  }

  function ReturnFromCall(st: State): State {
    RunInstruction(st, 0x60).st
  }

  /** What JSR leaves on the stack: the address of its own last byte. */
  function CallFrame(pc: Word): seq<Byte> {
    var last := Wrap(pc + 2);
    [Low(last), High(last)]
  }

  // What the instructions are made of, from the state after their opcode fetch.

  lemma JsrIs(st: State)
    ensures var f := FetchOperand(AbsConst, AfterFetch(st));
            var p := Push16(f.st, Wrap(f.st.r.pc - 1));
            Call(st) == p.(r := p.r.(pc := f.operand))
  {
    hide FetchOperand, AfterFetch, Push16;
    assert Decode(0x20).op == Control(JSR) && Decode(0x20).mode == AbsConst;
  }

  lemma RtsIs(st: State)
    ensures var p := Pop16(AfterFetch(st));
            ReturnFromCall(st) == p.st.(r := p.st.r.(pc := Wrap(p.v + 1)))
  {
    hide AfterFetch, Pop16;
    assert Decode(0x60).op == Control(RTS);
  }

  lemma PhpIs(st: State)
    ensures RunInstruction(st, 0x08).st == Push8(AfterFetch(st), st.r.sr.BreakCopy().Packed())
  {
    hide Push8, Status.BreakCopy, Status.Packed;
    assert Decode(0x08).op == Control(PHP);
  }

  lemma PlpIs(st: State)
    ensures var p := Pop8(AfterFetch(st));
            RunInstruction(st, 0x28).st == p.st.(r := p.st.r.(sr := Pulled(p.v)))
  {
    hide Pop8, AfterFetch, Pulled;
    assert Decode(0x28).op == Control(PLP);
  }

  lemma PhaIs(st: State)
    ensures RunInstruction(st, 0x48).st == Push8(AfterFetch(st), st.r.a)
  {
    hide Push8;
    assert Decode(0x48).op == Control(PHA);
  }

  lemma PlaIs(st: State)
    ensures var p := Pop8(AfterFetch(st));
            RunInstruction(st, 0x68).st == p.st.(r := p.st.r.(a := p.v, sr := p.st.r.sr.WithNZ(p.v)))
  {
    hide Pop8, AfterFetch, Status.WithNZ;
    assert Decode(0x68).op == Control(PLA);
  }

  /** Which registers the pieces of these instructions touch. */
  lemma TouchedRegisters(st: State, v: Byte)
    ensures Push8(st, v).r == st.r.(sp := Low(st.r.sp - 1))
    ensures Pop8(st).st.r == st.r.(sp := Low(st.r.sp + 1))
    ensures AfterFetch(st).r == st.r.(pc := Wrap(st.r.pc + 1))
  {
  }

  lemma CallPushesFrame(st: State, live: seq<Byte>)
    requires OnRam(st, live) && |live| < 0xff
    ensures var st1 := Call(st);
            && OnRam(st1, CallFrame(st.r.pc) + live)
            && SameOutside(st.bus.device.image, st1.bus.device.image)
            && st1.r.sp == Low(st.r.sp - 2) && st1.r.sr == st.r.sr
            && st1.r.pc == Join(Peek(st.bus.device.image, Wrap(st.r.pc + 1)), Peek(st.bus.device.image, Wrap(st.r.pc + 2)))
  {
    hide Holds, SameOutside, Peek, Push16, Call;
    JsrIs(st);
    var st0 := AfterFetch(st);
    FetchKeepsRam(st, live);
    var f := FetchOperand(AbsConst, st0);
    assert OnRam(f.st, live) && f.st.bus.device == st.bus.device;
    PushWordHolds(f.st, live, Wrap(f.st.r.pc - 1));
    PushWordRegs(f.st, Wrap(f.st.r.pc - 1));
    CallAddresses(st.r.pc);
  }

  lemma CallAddresses(pc: Word)
    ensures Wrap(Wrap(Wrap(pc + 1) + 2) - 1) == Wrap(pc + 2)
    ensures Wrap(Wrap(pc + 1) + 1) == Wrap(pc + 2)
    ensures Wrap(Wrap(pc + 2) + 1) == Wrap(pc + 3)
  {
  }

  lemma ReturnPullsCall(st: State, pc: Word, live: seq<Byte>)
    requires OnRam(st, CallFrame(pc) + live)
    ensures var st1 := ReturnFromCall(st);
            && st1.r == st.r.(pc := Wrap(pc + 3), sp := Low(st.r.sp + 2))
            && OnRam(st1, live) && st1.bus.device == st.bus.device
  {
    hide Holds, Pop16, BusState.Value, AfterFetch, ReturnFromCall, Wrap;
    RtsIs(st);
    var all := CallFrame(pc) + live;
    FetchKeepsRam(st, all);
    TouchedRegisters(st, 0);
    PopWordHolds(AfterFetch(st), all);
    PopWordRegs(AfterFetch(st));
    assert all[2..] == live && all[0] == CallFrame(pc)[0] && all[1] == CallFrame(pc)[1];
    JoinSplit(Wrap(pc + 2), 0, 0);
    CallAddresses(pc);
  }

  // ----- Saves -----

  /** A register kept on the stack: A by PHA and PLA, the status by PHP and PLP. */
  datatype Saving = SaveA | SaveFlags {
    function PushCode(): Byte {
      if SaveA? then 0x48 else 0x08
    }

    function PullCode(): Byte {
      if SaveA? then 0x68 else 0x28
    }

    /** The byte that is pushed. */
    function Kept(r: Regs): Byte {
      if SaveA? then r.a else r.sr.BreakCopy().Packed()
    }

    /** The registers once a byte has been pulled. */
    function Pulling(r: Regs, v: Byte): Regs {
      if SaveA? then r.(a := v, sr := r.sr.WithNZ(v)) else r.(sr := Pulled(v))
    }
  }

  function PushSaved(what: Saving, st: State): State {
    RunInstruction(st, what.PushCode()).st
  }

  function PullSaved(what: Saving, st: State): State {
    RunInstruction(st, what.PullCode()).st
  }

  /** PHA and PHP push one byte and change no register but PC and SP. */
  lemma PushSavedHolds(what: Saving, st: State, live: seq<Byte>)
    requires OnRam(st, live) && |live| < 0x100
    ensures var st1 := PushSaved(what, st);
            && OnRam(st1, [what.Kept(st.r)] + live)
            && SameOutside(st.bus.device.image, st1.bus.device.image)
            && st1.r == st.r.(pc := Wrap(st.r.pc + 1), sp := Low(st.r.sp - 1))
  {
    hide Holds, SameOutside, BusState.Value, RunInstruction, AfterFetch, Pop8, Push8, Status.Packed, Status.BreakCopy;
    PhpIs(st);
    PhaIs(st);
    FetchKeepsRam(st, live);
    PushHolds(AfterFetch(st), live, what.Kept(st.r));
    TouchedRegisters(st, 0);
    TouchedRegisters(AfterFetch(st), what.Kept(st.r));
  }

  /** PLA and PLP pull the top byte, whoever pushed it, and change no memory. */
  lemma PullSavedHolds(what: Saving, st: State, v: Byte, live: seq<Byte>)
    requires OnRam(st, [v] + live)
    ensures var st1 := PullSaved(what, st);
            && OnRam(st1, live) && st1.bus.device == st.bus.device
            && st1.r == what.Pulling(st.r, v).(pc := Wrap(st.r.pc + 1), sp := Low(st.r.sp + 1))
            && (st.r.sr.Normal() ==> st1.r.sr.Normal())
  {
    hide Holds, BusState.Value, RunInstruction, AfterFetch, Pop8, Push8, Unpack;
    PlpIs(st);
    PlaIs(st);
    FetchKeepsRam(st, [v] + live);
    PopHolds(AfterFetch(st), [v] + live);
    TouchedRegisters(st, 0);
    TouchedRegisters(AfterFetch(st), 0);
    assert ([v] + live)[1..] == live;
  }

  /** PHP then PLP restores the whole status, and the stack, exactly when the status is normal. */
  lemma StatusSaved(st: State, live: seq<Byte>)
    requires OnRam(st, live) && |live| < 0x100
    ensures var st2 := PullSaved(SaveFlags, PushSaved(SaveFlags, st));
            && (st2.r.sr == st.r.sr <==> st.r.sr.Normal())
            && st2.r.sp == st.r.sp && OnRam(st2, live)
  {
    hide Holds, SameOutside, PushSaved, PullSaved, Status.Packed, Pulled;
    var st1 := PushSaved(SaveFlags, st);
    PushSavedHolds(SaveFlags, st, live);
    PullSavedHolds(SaveFlags, st1, SaveFlags.Kept(st.r), live);
    PulledStatus(st.r.sr, st.r.sr.BreakCopy());
    assert Low(Low(st.r.sp - 1) + 1) == st.r.sp;
  }

  /** PHA then PLA restores A, whatever it was changed to between, and sets N and Z from it. */
  lemma AccumulatorSaved(st: State, a: Byte, live: seq<Byte>)
    requires OnRam(st, live) && |live| < 0x100
    ensures var st1 := PushSaved(SaveA, st);
            var st2 := PullSaved(SaveA, st1.(r := st1.r.(a := a)));
            && st2.r.a == st.r.a && st2.r.sr == st.r.sr.WithNZ(st.r.a)
            && st2.r.sp == st.r.sp && OnRam(st2, live)
  {
    hide SameOutside, PushSaved, PullSaved;
    var st1 := PushSaved(SaveA, st);
    PushSavedHolds(SaveA, st, live);
    PullSavedHolds(SaveA, st1.(r := st1.r.(a := a)), st.r.a, live);
    assert Low(Low(st.r.sp - 1) + 1) == st.r.sp;
  }
}
