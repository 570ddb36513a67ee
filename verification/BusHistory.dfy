/**
 The log tells the whole story of the memory: over every run, interrupts included, RAM
 holds exactly what the logged stores left in it, and a device that is not RAM is only
 ever spoken to through the log.
 */
module BusHistory {
  import opened Registers
  import opened Memory
  import opened Bus
  import opened Stack
  import opened Addressing
  import opened Instructions
  import opened OpcodeTable
  import opened Processor

  /** The contents after a sequence of accesses. */
  function Replay(image: Image, log: seq<Access>): (r: Image)
    ensures |r| == |image|
  {
    if log == [] then image
    else
      var before := Replay(image, log[..|log| - 1]);
      match log[|log| - 1]
      case Load(_, _) => before
      case Store(ad, v) => Poke(before, ad, v)
  }

  /** `b` follows from `a` by the accesses that its log has more. */
  ghost predicate Logged(a: BusState, b: BusState) {
    && a.log <= b.log
    && match a.device
       case Ram(image) => b.device == Ram(Replay(image, b.log[|a.log|..]))
       case _ => b.device == a.device
  }

  lemma LoggedNothing(a: BusState)
    ensures Logged(a, a)
  {
    assert a.log[|a.log|..] == [];
  }

  lemma LoggedRead(a: BusState, b: BusState, ad: Word)
    requires Logged(a, b)
    ensures Logged(a, b.Read(ad))
  {
    hide BusState.Value;
    var c := b.Read(ad);
    assert c.log[|a.log|..] == b.log[|a.log|..] + [Load(ad, b.Value(ad))];
    assert c.log[|a.log|..][..|c.log| - |a.log| - 1] == b.log[|a.log|..];
  }

  lemma LoggedPair(a: BusState, b: BusState, lo: Word, hi: Word)
    requires Logged(a, b)
    ensures Logged(a, b.ReadPair(lo, hi))
  {
    hide Logged, BusState.Read;
    LoggedRead(a, b, lo);
    LoggedRead(a, b.Read(lo), hi);
  }

  lemma LoggedWrite(a: BusState, b: BusState, ad: Word, v: Byte)
    requires Logged(a, b)
    ensures Logged(a, b.Write(ad, v))
  {
    hide Poke;
    var c := b.Write(ad, v);
    assert c.log[|a.log|..] == b.log[|a.log|..] + [Store(ad, v)];
    assert c.log[|a.log|..][..|c.log| - |a.log| - 1] == b.log[|a.log|..];
  }

  lemma {:induction false} ReplayAppend(image: Image, x: seq<Access>, y: seq<Access>)
    ensures Replay(image, x + y) == Replay(Replay(image, x), y)
  {
    hide Poke;
    if y == [] {
      assert x + y == x;
    } else {
      ReplayAppend(image, x, y[..|y| - 1]);
      assert (x + y)[..|x + y| - 1] == x + y[..|y| - 1];
    }
  }

  lemma LoggedThen(a: BusState, b: BusState, c: BusState)
    requires Logged(a, b) && Logged(b, c)
    ensures Logged(a, c)
  {
    hide Replay;
    assert c.log[|a.log|..] == b.log[|a.log|..] + c.log[|b.log|..];
    if a.device.Ram? {
      ReplayAppend(a.device.image, b.log[|a.log|..], c.log[|b.log|..]);
    }
  }

  // ----- The pieces of an instruction -----

  lemma LoggedFetch(a: BusState, mode: Mode, st: State)
    requires Logged(a, st.bus)
    ensures Logged(a, FetchOperand(mode, st).st.bus)
  {
    hide Logged, BusState.Value, BusState.PairValue, BusState.ReadPair, BusState.Read;
    LoggedRead(a, st.bus, st.r.pc);
    LoggedPair(a, st.bus, st.r.pc, Wrap(st.r.pc + 1));
  }

  lemma LoggedPointer(a: BusState, mode: Mode, r: Regs, bus: BusState, operand: Word)
    requires Logged(a, bus)
    ensures Logged(a, Pointer(mode, r, bus, operand).bus)
  {
    hide Logged, BusState.Value, BusState.PairValue, BusState.ReadPair;
    var zp: Word := PointerCell(mode, r, operand);
    LoggedPair(a, bus, zp, Low(zp + 1));
  }

  lemma LoggedApproaches(a: BusState, mode: Mode, r: Regs, bus: BusState, operand: Word)
    requires Logged(a, bus)
    ensures Logged(a, Approach(mode, r, bus, operand))
    ensures Logged(a, StoreApproach(mode, r, bus, operand))
  {
    hide Logged, Pointer, Crosses, DummyAddress, BusState.Read;
    var p := Pointer(mode, r, bus, operand);
    LoggedPointer(a, mode, r, bus, operand);
    LoggedRead(a, p.bus, DummyAddress(mode, r, p.base));
  }

  lemma LoggedLoad(a: BusState, mode: Mode, r: Regs, bus: BusState, operand: Word)
    requires Logged(a, bus)
    ensures Logged(a, LoadOperand(mode, r, bus, operand).bus)
  {
    hide Logged, Approach, Target, Crosses, Pointer, BusState.Value, BusState.Read;
    LoggedApproaches(a, mode, r, bus, operand);
    LoggedRead(a, Approach(mode, r, bus, operand), Target(mode, r, bus, operand));
    LoggedRead(a, bus, operand);
  }

  lemma LoggedPush8(a: BusState, st: State, v: Byte)
    requires Logged(a, st.bus)
    ensures Logged(a, Push8(st, v).bus)
  {
    hide Logged, BusState.Write;
    LoggedWrite(a, st.bus, 0x100 + st.r.sp, v);
  }

  lemma LoggedPush16(a: BusState, st: State, v: Word)
    requires Logged(a, st.bus)
    ensures Logged(a, Push16(st, v).bus)
  {
    hide Logged, Push8;
    LoggedPush8(a, st, High(v));
    LoggedPush8(a, Push8(st, High(v)), Low(v));
  }

  lemma LoggedPop8(a: BusState, st: State)
    requires Logged(a, st.bus)
    ensures Logged(a, Pop8(st).st.bus)
  {
    hide Logged, BusState.Read, BusState.Value;
    LoggedRead(a, st.bus, 0x100 + Low(st.r.sp + 1));
  }

  lemma LoggedPop16(a: BusState, st: State)
    requires Logged(a, st.bus)
    ensures Logged(a, Pop16(st).st.bus)
  {
    hide Logged, Pop8;
    LoggedPop8(a, st);
    LoggedPop8(a, Pop8(st).st);
  }

  lemma LoggedEntry(a: BusState, st: State, ret: Word, status: Byte, vector: Word)
    requires Logged(a, st.bus)
    ensures Logged(a, EnterHandler(st, ret, status, vector).bus)
  {
    hide Logged, Push8, Push16, BusState.ReadPair, BusState.PairValue;
    LoggedPush16(a, st, ret);
    LoggedPush8(a, Push16(st, ret), status);
    LoggedPair(a, Push8(Push16(st, ret), status).bus, vector, Wrap(vector + 1));
  }

  // ----- Instructions -----

  lemma ControlLogged(a: BusState, op: ControlOp, mode: Mode, st: State)
    requires JumpAllowed(op, mode) && Logged(a, st.bus)
    ensures Logged(a, ControlEffect(op, mode, st).bus)
  {
    hide Logged, Push8, Push16, Pop8, Pop16, EnterHandler, FetchOperand, BusState.ReadPair, BusState.PairValue;
    hide Unpack, Status.Packed;
    match op {
      case BRK => LoggedEntry(a, st, Wrap(st.r.pc + 1), st.r.sr.BreakCopy().Packed(), 0xFFFE);
      case PHA => LoggedPush8(a, st, st.r.a);
      case PHP => LoggedPush8(a, st, st.r.sr.BreakCopy().Packed());
      case PLA | PLP => LoggedPop8(a, st);
      case RTI =>
        LoggedPop8(a, st);
        var s := Pop8(st);
        LoggedPop16(a, s.st.(r := s.st.r.(sr := Pulled(s.v))));
      case RTS => LoggedPop16(a, st);
      case NOP => LoggedFetch(a, mode, st);
      case JMP =>
        LoggedFetch(a, mode, st);
        var f := FetchOperand(mode, st);
        LoggedPair(a, f.st.bus, f.operand, Uncarried(f.operand, 1));
      case JSR =>
        LoggedFetch(a, mode, st);
        var f := FetchOperand(mode, st);
        LoggedPush16(a, f.st, Wrap(f.st.r.pc - 1));
    }
  }

  lemma ModifyLogged(a: BusState, op: ModifyOp, mode: Mode, cycles: int, st: State)
    requires Logged(a, st.bus)
    ensures Logged(a, ExecuteModify(op, mode, cycles, st).st.bus)
  {
    hide Logged, FetchOperand, StoreApproach, Target, LoadOperand, Modified, ModifiedStatus, Accumulated;
    hide BusState.Value, BusState.Read, BusState.Write;
    LoggedFetch(a, mode, st);
    var f := FetchOperand(mode, st);
    LoggedLoad(a, mode, f.st.r, f.st.bus, f.operand);
    LoggedApproaches(a, mode, f.st.r, f.st.bus, f.operand);
    var ready := StoreApproach(mode, f.st.r, f.st.bus, f.operand);
    var ad := Target(mode, f.st.r, f.st.bus, f.operand);
    LoggedRead(a, ready, ad);
    LoggedWrite(a, ready.Read(ad), ad, ready.Value(ad));
    LoggedWrite(a, ready.Read(ad).Write(ad, ready.Value(ad)), ad, Modified(op, f.st.r.sr, ready.Value(ad)));
  }

  lemma StoreLogged(a: BusState, op: StoreOp, mode: Mode, cycles: int, st: State)
    requires Logged(a, st.bus)
    ensures Logged(a, ExecuteStore(op, mode, cycles, st).st.bus)
  {
    hide Logged, FetchOperand, StoreApproach, Target, StoreValue, BusState.Write;
    LoggedFetch(a, mode, st);
    var f := FetchOperand(mode, st);
    LoggedApproaches(a, mode, f.st.r, f.st.bus, f.operand);
    LoggedWrite(a, StoreApproach(mode, f.st.r, f.st.bus, f.operand),
                Target(mode, f.st.r, f.st.bus, f.operand), StoreValue(op, f.st.r));
  }

  lemma UnstableLogged(a: BusState, op: UnstableOp, mode: Mode, cycles: int, st: State)
    requires Logged(a, st.bus) && mode.MayCross()
    ensures Logged(a, ExecuteUnstable(op, mode, cycles, st).st.bus)
  {
    hide Logged, FetchOperand, Pointer, UnstableSource, Effective, And, BusState.Write;
    LoggedFetch(a, mode, st);
    var f := FetchOperand(mode, st);
    var src := UnstableSource(op, f.st.r);
    var r := if op.TAS? then f.st.r.(sp := src) else f.st.r;
    LoggedPointer(a, mode, r, f.st.bus, f.operand);
    var p := Pointer(mode, r, f.st.bus, f.operand);
    LoggedWrite(a, p.bus, Effective(mode, r, p.base), And(src, Low(High(p.base) + 1)));
  }

  lemma ExecuteLogged(a: BusState, op: Op, mode: Mode, cycles: int, st: State)
    requires Allowed(op, mode) && Logged(a, st.bus)
    ensures Logged(a, Execute(op, mode, cycles, st).st.bus)
  {
    hide Logged, ExecuteStore, ExecuteModify, ExecuteUnstable, ControlEffect, RegisterEffect;
    hide FetchOperand, LoadOperand, LoadEffect, BranchTaken, BranchTarget;
    var f := FetchOperand(mode, st);
    LoggedFetch(a, mode, st);
    LoggedLoad(a, mode, f.st.r, f.st.bus, f.operand);
    match op {
      case Storing(s) => StoreLogged(a, s, mode, cycles, st);
      case Modifying(m) => ModifyLogged(a, m, mode, cycles, st);
      case Unstable(u) => UnstableLogged(a, u, mode, cycles, st);
      case Control(c) => ControlLogged(a, c, mode, st);
      case Loading(_) | Branching(_) | OnRegisters(_) =>
    }
  }

  lemma StepLogged(m: Machine)
    ensures Logged(m.st.bus, Step(m).st.bus)
  {
    hide Logged, Decode, Execute, Allowed, EnterHandler, Status.Packed, BusState.Value, BusState.Read;
    LoggedNothing(m.st.bus);
    LoggedEntry(m.st.bus, m.st, m.st.r.pc, m.st.r.sr.PlainCopy().Packed(), 0xFFFA);
    LoggedEntry(m.st.bus, m.st, m.st.r.pc, m.st.r.sr.PlainCopy().Packed(), 0xFFFE);
    var code := m.NextCode();
    TableAllowed(code);
    LoggedRead(m.st.bus, m.st.bus, m.st.r.pc);
    ExecuteLogged(m.st.bus, Decode(code).op, Decode(code).mode, Decode(code).cycles, AfterFetch(m.st));
  }

  /** After any events the memory is the initial one with the logged stores replayed, in order. */
  lemma {:induction false} MemoryIsReplay(m: Machine, events: seq<Event>)
    ensures Logged(m.st.bus, Run(m, events).st.bus)
    decreases events
  {
    hide Logged, Step;
    LoggedNothing(m.st.bus);
    if events != [] {
      var next := Apply(m, events[0]);
      StepLogged(m);
      MemoryIsReplay(next, events[1..]);
      LoggedThen(m.st.bus, next.st.bus, Run(m, events).st.bus);
    }
  }

  /** A cell that no access stores to keeps its byte. */
  lemma {:induction false} UnstoredCell(image: Image, log: seq<Access>, ad: Word)
    requires forall i :: 0 <= i < |log| && log[i].Store? ==> Slot(|image|, log[i].ad) != Slot(|image|, ad)
    ensures Peek(Replay(image, log), ad) == Peek(image, ad)
  {
    hide Slot;
    if log != [] {
      var rest := log[..|log| - 1];
      assert forall i :: 0 <= i < |rest| ==> rest[i] == log[i];
      UnstoredCell(image, rest, ad);
    }
  }

  // ----- Cells that a run spares -----

  /** The accesses the second state has seen since the first. */
  function Since(a: BusState, b: BusState): seq<Access> {
    if |a.log| <= |b.log| then b.log[|a.log|..] else []
  }

  /** No access stores into any of the cells. */
  predicate Spares(size: nat, log: seq<Access>, cells: seq<Word>)
    requires size > 0
  {
    forall i, j :: 0 <= i < |log| && log[i].Store? && 0 <= j < |cells| ==> Slot(size, log[i].ad) != Slot(size, cells[j])
  }

  predicate SameCells(image: Image, image': Image, cells: seq<Word>) {
    forall j :: 0 <= j < |cells| ==> Peek(image, cells[j]) == Peek(image', cells[j])
  }

  /** What a step stores is part of what the whole run stores. */
  lemma CellsSurvive(a: BusState, b: BusState, end: BusState, cells: seq<Word>)
    requires a.device.Ram? && Logged(a, b) && Logged(b, end)
    requires Spares(|a.device.image|, Since(a, end), cells)
    ensures b.device.Ram? && |b.device.image| == |a.device.image|
    ensures SameCells(a.device.image, b.device.image, cells)
    ensures Spares(|b.device.image|, Since(b, end), cells)
  {
    var image, now, all := a.device.image, b.log[|a.log|..], end.log[|a.log|..];
    assert forall i :: 0 <= i < |now| ==> now[i] == all[i];
    forall j | 0 <= j < |cells|
      ensures Peek(image, cells[j]) == Peek(b.device.image, cells[j])
    {
      UnstoredCell(image, now, cells[j]);
    }
    var later := end.log[|b.log|..];
    assert forall i :: 0 <= i < |later| ==> later[i] == all[i + |now|];
  }
}
