/**
 The listing follows the machine: on a straight-line run the processor fetches its
 instructions at exactly the addresses at which the disassembler starts its lines.
 */
module StraightLine {
  import opened Registers
  import opened Memory
  import opened Bus
  import opened Stack
  import opened Arithmetic
  import opened Addressing
  import opened Instructions
  import opened OpcodeTable
  import opened Processor
  import opened AccessBudget
  import opened BusHistory
  import opened Disassembler

  /** The instruction leaves PC just past its operand: no jump, return, trap or taken branch, and no KIL. */
  predicate Sequential(op: Op, sr: Status) {
    match op
    case Branching(b) => !BranchTaken(b, sr)
    case OnRegisters(r) => !r.KIL?
    case Control(c) => c in {NOP, PHA, PHP, PLA, PLP}
    case _ => true
  }

  lemma LoadEffectPc(op: LoadOp, r: Regs, v: Byte)
    ensures LoadEffect(op, r, v).pc == r.pc
  {
    hide And, Or, Xor, RawSum, RawDifference, LowFixed, LowRestored, HighFixed, HighRestored, Cmp;
  }

  lemma AccumulatedPc(op: ModifyOp, r: Regs, v: Byte)
    ensures Accumulated(op, r, v).pc == r.pc
  {
    hide And, Or, Xor, RawSum, RawDifference, LowFixed, LowRestored, HighFixed, HighRestored, Cmp;
  }

  lemma ModifyPc(op: ModifyOp, mode: Mode, cycles: int, st: State)
    ensures ExecuteModify(op, mode, cycles, st).st.r.pc == FetchOperand(mode, st).st.r.pc
  {
    hide FetchOperand, StoreApproach, Target, LoadOperand, Modified, ModifiedStatus, Accumulated, WriteTwice, BusState.Value;
    var f := FetchOperand(mode, st);
    var orig := if mode.Addresses()
      then StoreApproach(mode, f.st.r, f.st.bus, f.operand).Value(Target(mode, f.st.r, f.st.bus, f.operand))
      else LoadOperand(mode, f.st.r, f.st.bus, f.operand).v;
    var v := Modified(op, f.st.r.sr, orig);
    var r := f.st.r.(sr := ModifiedStatus(op, f.st.r.sr, orig));
    AccumulatedPc(op, r, v);
    AccumulatedPc(op, r.(a := v), v);
  }

  lemma FetchPc(mode: Mode, st: State)
    ensures var f := FetchOperand(mode, st).st; f.r == st.r.(pc := Wrap(st.r.pc + mode.OperandLength()))
  {
    hide BusState.Value, BusState.PairValue;
    if mode.OperandLength() == 0 {
      assert st.r.(pc := st.r.pc) == st.r;
    }
  }

  lemma ExecutePc(op: Op, mode: Mode, cycles: int, st: State)
    requires Allowed(op, mode) && Priced(op, mode, cycles) && Sequential(op, st.r.sr)
    ensures Execute(op, mode, cycles, st).st.r.pc == Wrap(st.r.pc + mode.OperandLength())
  {
    hide FetchOperand, LoadOperand, LoadEffect, StoreApproach, StoreValue, Target, ExecuteModify, Pointer, UnstableSource;
    hide BranchTaken, BranchTarget, Push8, EnterHandler, ReturnFromInterrupt, Effective, And, Needed, Slack;
    hide Unpack, Status.Packed, BusState.Value, BusState.Read, BusState.Write;
    FetchPc(mode, st);
    var f := FetchOperand(mode, st);
    match op {
      case Loading(l) => LoadEffectPc(l, f.st.r, LoadOperand(mode, f.st.r, f.st.bus, f.operand).v);
      case Modifying(m) => ModifyPc(m, mode, cycles, st);
      case Control(c) => ControlPc(c, mode, st);
      case Storing(_) | Branching(_) | OnRegisters(_) | Unstable(_) =>
    }
  }

  lemma ControlPc(c: ControlOp, mode: Mode, st: State)
    requires c in {NOP, PHA, PHP, PLA, PLP} && (c.NOP? || mode.NullMode?)
    ensures JumpAllowed(c, mode)
    ensures ControlEffect(c, mode, st).r.pc == Wrap(st.r.pc + mode.OperandLength())
  {
    hide Unpack, Status.Packed, BusState.Value, BusState.Read, BusState.Write;
  }

  /** A boundary at which a sequential instruction is about to run. */
  predicate StraightAt(m: Machine) {
    m.Choice().TakeInstruction? && Sequential(Decode(m.NextCode()).op, m.st.r.sr)
  }

  /** The step advances PC by what the bit fields of the opcode say. */
  lemma StepPc(m: Machine)
    requires StraightAt(m)
    ensures Step(m).st.r.pc == Wrap(m.st.r.pc + 1 + FormatOf(m.NextCode()).Size())
  {
    hide Decode, Execute, Allowed, Priced, Sequential, FormatOf, BusState.Value;
    var code := m.NextCode();
    var e := Decode(code);
    TableAllowed(code);
    TablePriced(code);
    FieldsAgreeWithTable(code);
    ExecutePc(e.op, e.mode, e.cycles, AfterFetch(m.st));
    assert Wrap(Wrap(m.st.r.pc + 1) + e.mode.OperandLength()) == Wrap(m.st.r.pc + 1 + e.mode.OperandLength());
  }

  // ----- Runs -----

  /** Every boundary of the run is straight. */
  predicate Straight(m: Machine, events: seq<Event>)
    decreases events
  {
    events != [] ==>
      && (events[0].Boundary? ==> StraightAt(m))
      && Straight(Apply(m, events[0]), events[1..])
  }

  /** The addresses at which the run fetches instructions, in order. */
  function Visited(m: Machine, events: seq<Event>): seq<Word>
    decreases events
  {
    if events == [] then []
    else (if events[0].Boundary? then [m.st.r.pc] else []) + Visited(Apply(m, events[0]), events[1..])
  }

  /** The addresses of the first lines of a listing. */
  function Walk(image: Image, pc: Word, lines: nat): seq<Word>
    decreases lines
  {
    if lines == 0 then [] else [pc] + Walk(image, NextLine(image, pc), lines - 1)
  }

  function Boundaries(events: seq<Event>): nat {
    if events == [] then 0 else (if events[0].Boundary? then 1 else 0) + Boundaries(events[1..])
  }

  /**
   Listing the memory as it is before a straight-line run visits exactly the addresses the
   processor will fetch from, however long the run and wherever it wraps, provided the run
   stores nothing into the opcode bytes listed. Interrupt lines may move freely.
   */
  lemma ListingFollowsRun(m: Machine, events: seq<Event>)
    requires m.st.bus.device.Ram?
    requires Straight(m, events)
    requires var image := m.st.bus.device.image;
             Spares(|image|, Since(m.st.bus, Run(m, events).st.bus), Walk(image, m.st.r.pc, Boundaries(events)))
    ensures Visited(m, events) == Walk(m.st.bus.device.image, m.st.r.pc, Boundaries(events))
  {
    FollowsFrom(m.st.bus.device.image, m, events);
  }

  lemma {:induction false} FollowsFrom(listed: Image, m: Machine, events: seq<Event>)
    requires m.st.bus.device.Ram? && |m.st.bus.device.image| == |listed|
    requires Straight(m, events)
    requires var cells := Walk(listed, m.st.r.pc, Boundaries(events));
             && SameCells(listed, m.st.bus.device.image, cells)
             && Spares(|listed|, Since(m.st.bus, Run(m, events).st.bus), cells)
    ensures Visited(m, events) == Walk(listed, m.st.r.pc, Boundaries(events))
    decreases events
  {
    hide Step, StraightAt, Logged, NextLine, SameCells, Spares, Since;
    if events != [] {
      var next, rest := Apply(m, events[0]), events[1..];
      var cells := Walk(listed, m.st.r.pc, Boundaries(events));
      var restCells := if events[0].Boundary? then cells[1..] else cells;
      StepLogged(m);
      LoggedNothing(m.st.bus);
      MemoryIsReplay(next, rest);
      CellsSurvive(m.st.bus, next.st.bus, Run(next, rest).st.bus, cells);
      if events[0].Boundary? {
        FirstCell(listed, m.st.bus.device.image, cells);
        NextAgrees(listed, m);
      }
      assert restCells == Walk(listed, next.st.r.pc, Boundaries(rest));
      LaterCells(listed, m.st.bus.device.image, next.st.bus.device.image, Since(next.st.bus, Run(next, rest).st.bus),
                 cells, restCells);
      FollowsFrom(listed, next, rest);
    }
  }

  lemma FirstCell(listed: Image, image: Image, cells: seq<Word>)
    requires SameCells(listed, image, cells) && cells != []
    ensures Peek(listed, cells[0]) == Peek(image, cells[0])
  {
  }

  /** What holds of a walk holds of its tail. */
  lemma LaterCells(listed: Image, image: Image, image': Image, log: seq<Access>, cells: seq<Word>, rest: seq<Word>)
    requires rest == cells || (cells != [] && rest == cells[1..])
    requires SameCells(listed, image, cells) && SameCells(image, image', cells) && Spares(|listed|, log, cells)
    ensures SameCells(listed, image', rest) && Spares(|listed|, log, rest)
  {
    hide Slot, Peek;
    var d := |cells| - |rest|;
    assert forall j :: 0 <= j < |rest| ==> rest[j] == cells[j + d];
  }

  lemma NextAgrees(listed: Image, m: Machine)
    requires StraightAt(m) && m.st.bus.device.Ram?
    requires Peek(listed, m.st.r.pc) == Peek(m.st.bus.device.image, m.st.r.pc)
    ensures Step(m).st.r.pc == NextLine(listed, m.st.r.pc)
  {
    hide Step, StraightAt, FormatOf;
    StepPc(m);
  }
}
