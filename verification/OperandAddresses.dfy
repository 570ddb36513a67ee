/**
 Where an instruction goes on the bus, in plain arithmetic on its operand bytes, its
 pointer bytes and X and Y (src/parameters.h): for each of the eight modes that reach
 memory the complete list of addresses, and which of the accesses are reads.
 */
module OperandAddresses {
  import opened Registers
  import opened Bus
  import opened BusHistory
  import opened Stack
  import opened Addressing
  import opened Instructions
  import opened OpcodeTable
  import opened Processor
  import opened BusTraffic

  // ----- The reference -----

  /** How an operation uses its operand cell. */
  datatype Use = Reading | Writing | Updating | Blind {
    /** Accesses to the operand cell. */
    function Times(): nat {
      if Updating? then 3 else 1
    }

    /** How many of them, at the end, are writes. */
    function Writes(): nat {
      match this
      case Reading => 0
      case Writing | Blind => 1
      case Updating => 2
    }

    /** Whether the cycle that adds the index shows on the bus when the address has no carry to wait for. */
    predicate AlwaysDrives() {
      Writing? || Updating?
    }
  }

  function Twice(use: Use, ad: Word): seq<Word> {
    if use.Updating? then [ad, ad, ad] else [ad]
  }

  /** An address indexed in its low byte first: the unfinished one is short of the carry. */
  function Indexed(use: Use, base: Word, index: Byte): seq<Word> {
    var ad := (base + index) % 0x1_0000;
    var carries := base % 0x100 + index >= 0x100;
    (if use.Blind? then []
     else if carries then [(base + index - 0x100) % 0x1_0000]
     else if use.AlwaysDrives() then [ad]
     else [])
    + Twice(use, ad)
  }

  /** In the zero page the index never carries out, and the un-indexed address is always driven. */
  function InZeroPage(use: Use, op: Byte, index: Byte): seq<Word> {
    [op] + Twice(use, (op + index) % 0x100)
  }

  /**
   Everything an instruction at `pc` puts on the bus: opcode, operand bytes, pointer bytes,
   the unfinished address, the operand cell. `w` is the operand and `ptr` the pointer, low
   byte first.
   */
  function Cells(use: Use, mode: Mode, pc: Word, x: Byte, y: Byte, w: Word, ptr: Word): seq<Word> {
    var pc1, pc2 := (pc + 1) % 0x1_0000, (pc + 2) % 0x1_0000;
    var op := w % 0x100;
    match mode
    case ZeroPage => [pc, pc1] + Twice(use, op)
    case ZeroPageX => [pc, pc1] + InZeroPage(use, op, x)
    case ZeroPageY => [pc, pc1] + InZeroPage(use, op, y)
    case Absolute => [pc, pc1, pc2] + Twice(use, w)
    case AbsoluteX => [pc, pc1, pc2] + Indexed(use, w, x)
    case AbsoluteY => [pc, pc1, pc2] + Indexed(use, w, y)
    case IndirectX => [pc, pc1, (op + x) % 0x100, (op + x + 1) % 0x100] + Twice(use, ptr)
    case IndirectY => [pc, pc1, op, (op + 1) % 0x100] + Indexed(use, ptr, y)
    case _ => []
  }

  /** The operand as the log has it. */
  function OperandIn(mode: Mode, d: seq<Access>): Word
    requires |d| >= 3
  {
    if mode.Absolute? || mode.AbsoluteX? || mode.AbsoluteY? then d[1].val + 0x100 * d[2].val else d[1].val
  }

  /** The pointer as the log has it, in the two indirect modes. */
  function PointerIn(d: seq<Access>): Word {
    if |d| >= 4 then d[2].val + 0x100 * d[3].val else 0
  }

  /** These addresses in this order, all reads but the last ones. */
  ghost predicate Goes(d: seq<Access>, cells: seq<Word>, writes: nat) {
    && |d| == |cells|
    && (forall i :: 0 <= i < |d| ==> d[i].ad == cells[i])
    && (forall i :: 0 <= i < |d| ==> (d[i].Store? <==> i >= |d| - writes))
  }

  predicate UsesMemory(op: Op, mode: Mode) {
    mode.Addresses() && (op.Loading? || op.Storing? || op.Modifying? || op.Unstable?)
  }

  function UseOf(op: Op): Use {
    if op.Loading? then Reading else if op.Storing? then Writing else if op.Modifying? then Updating else Blind
  }

  // ----- What the log shows of operand and pointer -----

  lemma FetchSeen(mode: Mode, st: State)
    ensures var f := FetchOperand(mode, st);
            var log, n := f.st.bus.log, |st.bus.log|;
            && st.bus.log <= log && |log| == n + mode.OperandLength()
            && (mode.OperandLength() == 1 ==> f.operand == log[n].val)
            && (mode.OperandLength() == 2 ==> f.operand == log[n].val + 0x100 * log[n + 1].val)
            && f.st.r == st.r.(pc := f.st.r.pc)
  {
    hide BusState.Value;
  }

  lemma PointerSeen(mode: Mode, r: Regs, bus: BusState, operand: Word)
    ensures var p := Pointer(mode, r, bus, operand);
            var log, n := p.bus.log, |bus.log|;
            && bus.log <= log
            && (if mode.HasPointer() then |log| == n + 2 && p.base == log[n].val + 0x100 * log[n + 1].val
                else p.base == operand)
  {
    hide BusState.Value;
  }

  function Driven(use: Use, mode: Mode, r: Regs, base: Word): bool {
    match use
    case Reading => mode.ZeroPageIndexed() || Crosses(mode, r, base)
    case Blind => false
    case _ => mode.HasDummy()
  }

  lemma CarryMeans(base: Word, index: Byte)
    ensures Page(Wrap(base + index)) != Page(base) <==> base % 0x100 + index >= 0x100
    ensures Wrap(base + index) == (base + index) % 0x1_0000
    ensures Wrap(base + index - 0x100) == (base + index - 0x100) % 0x1_0000
  {
  }

  lemma SameIndexed(use: Use, mode: Mode, r: Regs, base: Word)
    requires mode.MayCross()
    ensures DummyCells(mode, r, base, Driven(use, mode, r, base)) + Twice(use, Effective(mode, r, base))
         == Indexed(use, base, if mode.AbsoluteX? then r.x else r.y)
  {
    hide Page, Wrap, Uncarried;
    CarryMeans(base, mode.Index(r));
    UnfinishedAddress(base, mode.Index(r));
  }

  lemma SameInZeroPage(use: Use, mode: Mode, r: Regs, w: Byte)
    requires mode.ZeroPageIndexed() && !use.Blind?
    ensures DummyCells(mode, r, w, Driven(use, mode, r, w)) + Twice(use, Effective(mode, r, w))
         == InZeroPage(use, w, if mode.ZeroPageX? then r.x else r.y)
  {
  }

  lemma SamePlain(use: Use, mode: Mode, r: Regs, base: Word)
    requires mode.ZeroPage? || mode.Absolute? || mode.IndirectX?
    ensures DummyCells(mode, r, base, Driven(use, mode, r, base)) + Twice(use, Effective(mode, r, base)) == Twice(use, base)
  {
    assert Wrap(base + 0) == base;
  }

  lemma NextAddresses(pc: Word)
    ensures Wrap(pc + 1) == (pc + 1) % 0x1_0000 && Wrap(Wrap(pc + 1) + 1) == (pc + 2) % 0x1_0000
  {
  }

  lemma SamePointer(op: Byte, x: Byte)
    ensures Low(Low(op + x) + 1) == (op + x + 1) % 0x100 && Low(op) == op
  {
  }

  /** The addresses in terms of the modes' own functions are those of the reference. */
  lemma SameCells(use: Use, mode: Mode, pc: Word, r: Regs, w: Word, ptr: Word)
    requires mode.Addresses() && (use.Blind? ==> mode.MayCross())
    requires mode.OperandLength() == 1 ==> w < 0x100
    ensures var base := if mode.HasPointer() then ptr else w;
            [pc] + (OperandCells(mode, Wrap(pc + 1)) + (PointerCells(mode, r, w)
            + (DummyCells(mode, r, base, Driven(use, mode, r, base)) + Twice(use, Effective(mode, r, base)))))
            == Cells(use, mode, pc, r.x, r.y, w, ptr)
  {
    hide DummyCells, Driven, Effective, Wrap, Indexed, Twice;
    var base := if mode.HasPointer() then ptr else w;
    NextAddresses(pc);
    if mode.MayCross() {
      SameIndexed(use, mode, r, base);
    } else if mode.ZeroPageIndexed() {
      SameInZeroPage(use, mode, r, w);
    } else {
      SamePlain(use, mode, r, base);
    }
    if mode.OperandLength() == 1 {
      SamePointer(w, r.x);
    }
  }

  // ----- Executions -----

  /** The opcode fetch, further reads, and then the accesses listed. */
  lemma Gathered(a: BusState, pc: Word, ready: BusState, end: BusState, x: seq<Word>, tail: seq<Access>, t: seq<Word>, writes: nat)
    requires Reads(a.Read(pc), ready, x) && end.log == ready.log + tail
    requires |t| == |tail| && writes <= |tail|
    requires forall i :: 0 <= i < |tail| ==> tail[i].ad == t[i] && (tail[i].Store? <==> i >= |tail| - writes)
    ensures a.log <= end.log && Goes(Since(a, end), [pc] + (x + t), writes)
  {
    hide BusState.Value;
    var d, cells := Since(a, end), [pc] + (x + t);
    var n, k := |a.log|, 1 + |x|;
    assert |d| == |cells|;
    forall i | 0 <= i < |d|
      ensures d[i].ad == cells[i] && (d[i].Store? <==> i >= |d| - writes)
    {
      if i == 0 {
        assert d[0] == ready.log[n] == a.Read(pc).log[n];
      } else if i < k {
        assert d[i] == ready.log[n + i] && cells[i] == x[i - 1];
      } else {
        assert d[i] == tail[i - k] && cells[i] == t[i - k];
      }
    }
  }

  /** Operand and pointer stay readable in the log however it goes on. */
  lemma Seen(mode: Mode, st: State, end: BusState)
    requires mode.Addresses()
    requires var f := FetchOperand(mode, AfterFetch(st));
             Pointer(mode, f.st.r, f.st.bus, f.operand).bus.log < end.log
    ensures var d := Since(st.bus, end);
            var f := FetchOperand(mode, AfterFetch(st));
            && |d| >= 3 && OperandIn(mode, d) == f.operand
            && (mode.OperandLength() == 1 ==> f.operand < 0x100)
            && Pointer(mode, f.st.r, f.st.bus, f.operand).base == if mode.HasPointer() then PointerIn(d) else f.operand
  {
    hide FetchOperand, Pointer, BusState.Value;
    var st0 := AfterFetch(st);
    var f := FetchOperand(mode, st0);
    var p := Pointer(mode, f.st.r, f.st.bus, f.operand);
    FetchSeen(mode, st0);
    PointerSeen(mode, f.st.r, f.st.bus, f.operand);
    var d, n := Since(st.bus, end), |st.bus.log|;
    assert f.st.bus.log <= p.bus.log;
    assert forall i :: 0 <= i < |f.st.bus.log| - n ==> d[i] == f.st.bus.log[n + i];
    assert forall i :: 0 <= i < |p.bus.log| - n ==> d[i] == p.bus.log[n + i];
  }

  /** What remains once the traffic is known: to write it in the reference's terms. */
  lemma InPlainTerms(use: Use, mode: Mode, st: State, end: BusState)
    requires mode.Addresses() && (use.Blind? ==> mode.MayCross())
    requires var f := FetchOperand(mode, AfterFetch(st));
             var p := Pointer(mode, f.st.r, f.st.bus, f.operand);
             && p.bus.log < end.log
             && Goes(Since(st.bus, end),
                     [st.r.pc] + (OperandCells(mode, Wrap(st.r.pc + 1)) + (PointerCells(mode, f.st.r, f.operand)
                     + (DummyCells(mode, f.st.r, p.base, Driven(use, mode, f.st.r, p.base))
                        + Twice(use, Effective(mode, f.st.r, p.base))))), use.Writes())
    ensures var d := Since(st.bus, end);
            && |d| >= 3
            && Goes(d, Cells(use, mode, st.r.pc, st.r.x, st.r.y, OperandIn(mode, d), PointerIn(d)), use.Writes())
  {
    hide FetchOperand, Pointer, Goes, DummyCells, Driven, Effective, Twice, Cells, OperandIn, PointerIn, BusState.Value, Since;
    Seen(mode, st, end);
    var d := Since(st.bus, end);
    var f := FetchOperand(mode, AfterFetch(st));
    FetchSeen(mode, AfterFetch(st));
    SameCells(use, mode, st.r.pc, f.st.r, f.operand, PointerIn(d));
    SameIndexes(use, mode, st.r.pc, f.st.r, st.r, f.operand, PointerIn(d));
  }

  lemma SameIndexes(use: Use, mode: Mode, pc: Word, r: Regs, r': Regs, w: Word, ptr: Word)
    requires r.x == r'.x && r.y == r'.y
    ensures Cells(use, mode, pc, r.x, r.y, w, ptr) == Cells(use, mode, pc, r'.x, r'.y, w, ptr)
  {
  }

  /** The reference holds of this execution. */
  ghost predicate InstructionGoesAs(use: Use, mode: Mode, st: State, end: BusState) {
    var d := Since(st.bus, end);
    && st.bus.log <= end.log && |d| >= 3
    && Goes(d, Cells(use, mode, st.r.pc, st.r.x, st.r.y, OperandIn(mode, d), PointerIn(d)), use.Writes())
  }

  lemma LoadGoes(op: LoadOp, mode: Mode, cycles: int, st: State)
    requires mode.Addresses()
    ensures InstructionGoesAs(Reading, mode, st, ExecuteLoad(op, mode, cycles, AfterFetch(st)).st.bus)
  {
    hide Reads, Goes, FetchOperand, Pointer, LoadEffect, DummyCells, Effective, Crosses, PointerCells, OperandCells, Cells, BusState.Value, Since;
    var st0 := AfterFetch(st);
    var end := ExecuteLoad(op, mode, cycles, st0).st.bus;
    var f := FetchOperand(mode, st0);
    var p := Pointer(mode, f.st.r, f.st.bus, f.operand);
    LoadTraffic(op, mode, cycles, st0);
    var o, q := OperandCells(mode, st0.r.pc), PointerCells(mode, f.st.r, f.operand);
    var u, t := DummyCells(mode, f.st.r, p.base, Driven(Reading, mode, f.st.r, p.base)), [Effective(mode, f.st.r, p.base)];
    assert o + (q + u + t) == o + (q + (u + t));
    assert end.log == end.log + [];
    Gathered(st.bus, st.r.pc, end, end, o + (q + (u + t)), [], [], 0);
    assert o + (q + (u + t)) + [] == o + (q + (u + t));
    InPlainTerms(Reading, mode, st, end);
  }

  lemma StoreGoes(op: StoreOp, mode: Mode, cycles: int, st: State)
    requires mode.Addresses()
    ensures InstructionGoesAs(Writing, mode, st, ExecuteStore(op, mode, cycles, AfterFetch(st)).st.bus)
  {
    hide Reads, Goes, FetchOperand, Pointer, DummyCells, Effective, PointerCells, OperandCells, Cells, BusState.Value, Since;
    hide StoreValue;
    var st0 := AfterFetch(st);
    var end := ExecuteStore(op, mode, cycles, st0).st.bus;
    var f := FetchOperand(mode, st0);
    var p := Pointer(mode, f.st.r, f.st.bus, f.operand);
    var ready := StoreApproach(mode, f.st.r, f.st.bus, f.operand);
    StoreTraffic(op, mode, cycles, st0);
    var o, q := OperandCells(mode, st0.r.pc), PointerCells(mode, f.st.r, f.operand);
    var u, ad := DummyCells(mode, f.st.r, p.base, Driven(Writing, mode, f.st.r, p.base)), Effective(mode, f.st.r, p.base);
    Gathered(st.bus, st.r.pc, ready, end, o + (q + u), [Store(ad, StoreValue(op, st0.r))], [ad], 1);
    assert o + (q + u) + [ad] == o + (q + (u + [ad]));
    InPlainTerms(Writing, mode, st, end);
  }

  lemma ModifyGoes(op: ModifyOp, mode: Mode, cycles: int, st: State)
    requires mode.Addresses()
    ensures InstructionGoesAs(Updating, mode, st, ExecuteModify(op, mode, cycles, AfterFetch(st)).st.bus)
  {
    hide Reads, Goes, FetchOperand, Pointer, DummyCells, Effective, PointerCells, OperandCells, Cells, BusState.Value, Since;
    hide Modified, ModifiedStatus, Accumulated;
    var st0 := AfterFetch(st);
    var end := ExecuteModify(op, mode, cycles, st0).st.bus;
    var f := FetchOperand(mode, st0);
    var p := Pointer(mode, f.st.r, f.st.bus, f.operand);
    var ready := StoreApproach(mode, f.st.r, f.st.bus, f.operand);
    ModifyTraffic(op, mode, cycles, st0);
    var o, q := OperandCells(mode, st0.r.pc), PointerCells(mode, f.st.r, f.operand);
    var u, ad := DummyCells(mode, f.st.r, p.base, Driven(Updating, mode, f.st.r, p.base)), Effective(mode, f.st.r, p.base);
    var orig := ready.Value(ad);
    Gathered(st.bus, st.r.pc, ready, end, o + (q + u),
             [Load(ad, orig), Store(ad, orig), Store(ad, Modified(op, st0.r.sr, orig))], [ad, ad, ad], 2);
    assert o + (q + u) + [ad, ad, ad] == o + (q + (u + [ad, ad, ad]));
    InPlainTerms(Updating, mode, st, end);
  }

  lemma UnstableGoes(op: UnstableOp, mode: Mode, cycles: int, st: State)
    requires mode.MayCross()
    ensures InstructionGoesAs(Blind, mode, st, ExecuteUnstable(op, mode, cycles, AfterFetch(st)).st.bus)
  {
    hide Reads, Goes, FetchOperand, DummyCells, Effective, PointerCells, OperandCells, Cells, BusState.Value, Since, And;
    hide UnstableSource;
    var st0 := AfterFetch(st);
    var end := ExecuteUnstable(op, mode, cycles, st0).st.bus;
    var f := FetchOperand(mode, st0);
    var src := UnstableSource(op, f.st.r);
    var r := if op.TAS? then f.st.r.(sp := src) else f.st.r;
    SamePlaces(mode, r, f.st.r, f.st.bus, f.operand);
    hide Pointer;
    var p := Pointer(mode, f.st.r, f.st.bus, f.operand);
    var o, q := OperandCells(mode, st0.r.pc), PointerCells(mode, f.st.r, f.operand);
    FetchReads(mode, st0);
    PointerReads(mode, f.st.r, f.st.bus, f.operand);
    ReadsThen(st0.bus, f.st.bus, p.bus, o, q);
    var ad, v := Effective(mode, f.st.r, p.base), And(src, Low(High(p.base) + 1));
    Gathered(st.bus, st.r.pc, p.bus, end, o + q, [Store(ad, v)], [ad], 1);
    assert DummyCells(mode, f.st.r, p.base, Driven(Blind, mode, f.st.r, p.base)) == [] by {
      assert !Driven(Blind, mode, f.st.r, p.base);
      NoDummy(mode, f.st.r, p.base);
    }
    assert o + q + [ad] == o + (q + ([] + [ad]));
    InPlainTerms(Blind, mode, st, end);
  }

  lemma NoDummy(mode: Mode, r: Regs, base: Word)
    ensures DummyCells(mode, r, base, false) == []
  {
  }

  /** TAS changes SP only, which no address depends on. */
  lemma SamePlaces(mode: Mode, r: Regs, r': Regs, bus: BusState, operand: Word)
    requires r == r'.(sp := r.sp)
    ensures Pointer(mode, r, bus, operand) == Pointer(mode, r', bus, operand)
    ensures forall base :: Effective(mode, r, base) == Effective(mode, r', base)
  {
  }

  /**
   For every opcode that reaches memory, every register state and every bus: the accesses of
   the instruction are those of the reference, in order and kind, the operand and pointer
   being what the log itself shows was read.
   */
  lemma InstructionGoes(st: State, code: Byte)
    requires UsesMemory(Decode(code).op, Decode(code).mode)
    ensures var e := Decode(code);
            var end := RunInstruction(st, code).st.bus;
            var d := Since(st.bus, end);
            && st.bus.log <= end.log && |d| >= 3
            && Goes(d, Cells(UseOf(e.op), e.mode, st.r.pc, st.r.x, st.r.y, OperandIn(e.mode, d), PointerIn(d)),
                    UseOf(e.op).Writes())
  {
    hide Decode, ExecuteLoad, ExecuteStore, ExecuteModify, ExecuteUnstable, Cells, Goes, AfterFetch;
    TableAllowed(code);
    var e := Decode(code);
    match e.op {
      case Loading(l) => LoadGoes(l, e.mode, e.cycles, st);
      case Storing(s) => StoreGoes(s, e.mode, e.cycles, st);
      case Modifying(m) => ModifyGoes(m, e.mode, e.cycles, st);
      case Unstable(u) => UnstableGoes(u, e.mode, e.cycles, st);
      case Branching(_) | OnRegisters(_) | Control(_) => assert false;
    }
  }
}
