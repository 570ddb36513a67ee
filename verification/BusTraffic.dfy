/**
 Exactly what an instruction puts on the bus after its opcode fetch, address by address:
 operand bytes, pointer bytes once each, the unfinished address when there is one, the
 operand itself. On a device this traffic is the instruction's visible behaviour; against
 RAM the extra accesses leave no trace.
 */
module BusTraffic {
  import opened Registers
  import opened Memory
  import opened Bus
  import opened Stack
  import opened Addressing
  import opened Instructions

  /** Between the two states the bus saw these reads, in this order, and nothing else. */
  ghost predicate Reads(before: BusState, after: BusState, cells: seq<Word>) {
    && |after.log| == |before.log| + |cells|
    && before.log <= after.log
    && after.device == before.device
    && forall i :: |before.log| <= i < |after.log| ==> after.log[i].Load? && after.log[i].ad == cells[i - |before.log|]
  }

  lemma ReadsNothing(bus: BusState)
    ensures Reads(bus, bus, [])
  {
  }

  lemma ReadsOne(bus: BusState, ad: Word)
    ensures Reads(bus, bus.Read(ad), [ad])
  {
    hide BusState.Value;
  }

  lemma ReadsThen(a: BusState, b: BusState, c: BusState, x: seq<Word>, y: seq<Word>)
    requires Reads(a, b, x) && Reads(b, c, y)
    ensures Reads(a, c, x + y)
  {
    forall i | |a.log| <= i < |c.log|
      ensures c.log[i].Load? && c.log[i].ad == (x + y)[i - |a.log|]
    {
      if i < |b.log| {
        assert c.log[i] == b.log[i];
      }
    }
  }

  lemma ReadsPair(bus: BusState, lo: Word, hi: Word)
    ensures Reads(bus, bus.ReadPair(lo, hi), [lo, hi])
  {
    hide BusState.Value;
    ReadsOne(bus, lo);
    ReadsOne(bus.Read(lo), hi);
    ReadsThen(bus, bus.Read(lo), bus.Read(lo).Read(hi), [lo], [hi]);
  }

  function OperandCells(mode: Mode, pc: Word): seq<Word> {
    match mode.OperandLength()
    case 0 => []
    case 1 => [pc]
    case _ => [pc, Wrap(pc + 1)]
  }

  lemma FetchReads(mode: Mode, st: State)
    ensures var f := FetchOperand(mode, st);
            Reads(st.bus, f.st.bus, OperandCells(mode, st.r.pc)) && f.st.r == st.r.(pc := Wrap(st.r.pc + mode.OperandLength()))
  {
    hide BusState.Value, BusState.PairValue, BusState.ReadPair, BusState.Read, Reads;
    ReadsNothing(st.bus);
    ReadsOne(st.bus, st.r.pc);
    ReadsPair(st.bus, st.r.pc, Wrap(st.r.pc + 1));
    assert mode.OperandLength() == 0 ==> Wrap(st.r.pc + 0) == st.r.pc;
  }

  /** The two pointer bytes of an indirect mode. */
  function PointerCells(mode: Mode, r: Regs, operand: Word): seq<Word> {
    var zp := PointerCell(mode, r, operand);
    if mode.HasPointer() then [zp, Low(zp + 1)] else []
  }

  lemma PointerReads(mode: Mode, r: Regs, bus: BusState, operand: Word)
    ensures Reads(bus, Pointer(mode, r, bus, operand).bus, PointerCells(mode, r, operand))
  {
    hide BusState.Value, BusState.PairValue, BusState.ReadPair, Reads;
    ReadsNothing(bus);
    var zp: Word := PointerCell(mode, r, operand);
    ReadsPair(bus, zp, Low(zp + 1));
  }

  function DummyCells(mode: Mode, r: Regs, base: Word, driven: bool): seq<Word> {
    if driven then [DummyAddress(mode, r, base)] else []
  }

  lemma DriveReads(mode: Mode, r: Regs, bus: BusState, base: Word, driven: bool)
    ensures Reads(bus, if driven then bus.Read(DummyAddress(mode, r, base)) else bus, DummyCells(mode, r, base, driven))
  {
    hide BusState.Value, DummyAddress, BusState.Read, Reads;
    ReadsNothing(bus);
    ReadsOne(bus, DummyAddress(mode, r, base));
  }

  /** The unfinished address: the effective one short of the carry, or the effective one itself. */
  lemma UnfinishedAddress(base: Word, index: Byte)
    ensures Uncarried(base, index)
         == if Page(Wrap(base + index)) != Page(base) then Wrap(base + index - 0x100) else Wrap(base + index)
  {
  }

  // ----- Loads -----

  /** Everything a load reads, in order. */
  function LoadCells(mode: Mode, r: Regs, operand: Word, base: Word): seq<Word> {
    PointerCells(mode, r, operand)
    + DummyCells(mode, r, base, mode.ZeroPageIndexed() || Crosses(mode, r, base))
    + [Effective(mode, r, base)]
  }

  lemma LoadOperandReads(mode: Mode, r: Regs, bus: BusState, operand: Word)
    requires mode.Addresses()
    ensures var base := Pointer(mode, r, bus, operand).base;
            Reads(bus, LoadOperand(mode, r, bus, operand).bus, LoadCells(mode, r, operand, base))
  {
    hide BusState.Value, BusState.Read, Reads, Pointer, Effective, DummyAddress, PointerCells, Crosses;
    var p := Pointer(mode, r, bus, operand);
    var driven := mode.ZeroPageIndexed() || Crosses(mode, r, p.base);
    var ready := Approach(mode, r, bus, operand);
    PointerReads(mode, r, bus, operand);
    DriveReads(mode, r, p.bus, p.base, driven);
    ReadsThen(bus, p.bus, ready, PointerCells(mode, r, operand), DummyCells(mode, r, p.base, driven));
    ReadsOne(ready, Effective(mode, r, p.base));
    ReadsThen(bus, ready, ready.Read(Effective(mode, r, p.base)),
              PointerCells(mode, r, operand) + DummyCells(mode, r, p.base, driven), [Effective(mode, r, p.base)]);
  }

  /**
   A load from memory, on any bus: operand bytes, each pointer byte once, the unfinished
   address when the mode indexes the zero page or the index carries, then the operand.
   */
  lemma LoadTraffic(op: LoadOp, mode: Mode, cycles: int, st: State)
    requires mode.Addresses()
    ensures var f := FetchOperand(mode, st);
            var base := Pointer(mode, f.st.r, f.st.bus, f.operand).base;
            Reads(st.bus, ExecuteLoad(op, mode, cycles, st).st.bus,
                  OperandCells(mode, st.r.pc) + LoadCells(mode, f.st.r, f.operand, base))
  {
    hide Reads, FetchOperand, LoadOperand, LoadEffect, LoadCells, Pointer, OperandCells;
    var f := FetchOperand(mode, st);
    FetchReads(mode, st);
    LoadOperandReads(mode, f.st.r, f.st.bus, f.operand);
    var base := Pointer(mode, f.st.r, f.st.bus, f.operand).base;
    ReadsThen(st.bus, f.st.bus, LoadOperand(mode, f.st.r, f.st.bus, f.operand).bus,
              OperandCells(mode, st.r.pc), LoadCells(mode, f.st.r, f.operand, base));
  }

  /**
   For abs,X, abs,Y and (zp),Y: one extra read exactly when the page-cross cycle is
   charged, at the effective address minus $100.
   */
  lemma CrossingIsOneRead(op: LoadOp, mode: Mode, cycles: int, st: State)
    requires mode.MayCross() && op.ChargesCrossing()
    ensures var f := FetchOperand(mode, st);
            var r := f.st.r;
            var base := Pointer(mode, r, f.st.bus, f.operand).base;
            var ad := Effective(mode, r, base);
            var crossed := ExecuteLoad(op, mode, cycles, st).cycles == cycles + 1;
            && (!crossed ==> ExecuteLoad(op, mode, cycles, st).cycles == cycles)
            && LoadCells(mode, r, f.operand, base)
               == PointerCells(mode, r, f.operand) + (if crossed then [Wrap(ad - 0x100), ad] else [ad])
  {
    hide FetchOperand, Pointer, LoadEffect, PointerCells, Uncarried;
    hide BusState.Value, BusState.Read, Wrap, Page;
    var f := FetchOperand(mode, st);
    var base := Pointer(mode, f.st.r, f.st.bus, f.operand).base;
    UnfinishedAddress(base, mode.Index(f.st.r));
    CarryOut(base, mode.Index(f.st.r));
  }

  lemma CarryOut(base: Word, index: Byte)
    ensures Wrap(Wrap(base + index) - 0x100) == Wrap(base + index - 0x100)
  {
  }

  // ----- Stores and read-modify-write -----

  /** What leads up to a store, or to the read of a read-modify-write: the unfinished address always. */
  function ApproachCells(mode: Mode, r: Regs, operand: Word, base: Word): seq<Word> {
    PointerCells(mode, r, operand) + DummyCells(mode, r, base, mode.HasDummy())
  }

  lemma StoreApproachReads(mode: Mode, r: Regs, bus: BusState, operand: Word)
    ensures Reads(bus, StoreApproach(mode, r, bus, operand),
                  ApproachCells(mode, r, operand, Pointer(mode, r, bus, operand).base))
  {
    hide BusState.Value, BusState.Read, Reads, Pointer, DummyAddress, PointerCells;
    var p := Pointer(mode, r, bus, operand);
    PointerReads(mode, r, bus, operand);
    DriveReads(mode, r, p.bus, p.base, mode.HasDummy());
    ReadsThen(bus, p.bus, StoreApproach(mode, r, bus, operand), PointerCells(mode, r, operand),
              DummyCells(mode, r, p.base, mode.HasDummy()));
  }

  lemma FetchAndApproach(mode: Mode, st: State)
    ensures var f := FetchOperand(mode, st);
            Reads(st.bus, StoreApproach(mode, f.st.r, f.st.bus, f.operand),
                  OperandCells(mode, st.r.pc)
                  + ApproachCells(mode, f.st.r, f.operand, Pointer(mode, f.st.r, f.st.bus, f.operand).base))
  {
    hide Reads, FetchOperand, StoreApproach, ApproachCells, Pointer, OperandCells;
    var f := FetchOperand(mode, st);
    FetchReads(mode, st);
    StoreApproachReads(mode, f.st.r, f.st.bus, f.operand);
    ReadsThen(st.bus, f.st.bus, StoreApproach(mode, f.st.r, f.st.bus, f.operand), OperandCells(mode, st.r.pc),
              ApproachCells(mode, f.st.r, f.operand, Pointer(mode, f.st.r, f.st.bus, f.operand).base));
  }

  /** A store: those reads, then one write of the register at the effective address; registers keep their values. */
  lemma StoreTraffic(op: StoreOp, mode: Mode, cycles: int, st: State)
    requires mode.Addresses()
    ensures var f := FetchOperand(mode, st);
            var base := Pointer(mode, f.st.r, f.st.bus, f.operand).base;
            var ready := StoreApproach(mode, f.st.r, f.st.bus, f.operand);
            var done := ExecuteStore(op, mode, cycles, st);
            && Reads(st.bus, ready, OperandCells(mode, st.r.pc) + ApproachCells(mode, f.st.r, f.operand, base))
            && done.st.bus.log == ready.log + [Store(Effective(mode, f.st.r, base), StoreValue(op, st.r))]
            && done.st.r == st.r.(pc := done.st.r.pc)
  {
    hide Reads, FetchOperand, Pointer, StoreApproach, ApproachCells, Effective, OperandCells;
    FetchReads(mode, st);
    FetchAndApproach(mode, st);
  }

  /**
   A read-modify-write on any bus, even one whose answers change or whose target is its
   own pointer: after the reads that lead up to it, a read of the effective address and
   two consecutive writes to it, the first of the byte just read.
   */
  lemma ModifyTraffic(op: ModifyOp, mode: Mode, cycles: int, st: State)
    requires mode.Addresses()
    ensures var f := FetchOperand(mode, st);
            var base := Pointer(mode, f.st.r, f.st.bus, f.operand).base;
            var ad := Effective(mode, f.st.r, base);
            var ready := StoreApproach(mode, f.st.r, f.st.bus, f.operand);
            var orig := ready.Value(ad);
            && Reads(st.bus, ready, OperandCells(mode, st.r.pc) + ApproachCells(mode, f.st.r, f.operand, base))
            && ExecuteModify(op, mode, cycles, st).st.bus.log
               == ready.log + [Load(ad, orig), Store(ad, orig), Store(ad, Modified(op, st.r.sr, orig))]
  {
    hide Reads, FetchOperand, Pointer, StoreApproach, ApproachCells, Effective, OperandCells, Modified, ModifiedStatus, Accumulated;
    hide BusState.Value;
    FetchReads(mode, st);
    FetchAndApproach(mode, st);
  }

  lemma PokeTwice(m: Image, ad: Word, orig: Byte, v: Byte)
    ensures Poke(Poke(m, ad, orig), ad, v) == Poke(m, ad, v)
    ensures Peek(Poke(m, ad, v), ad) == v
  {
  }

  /** On RAM the first write is invisible: memory ends as after the single write of the result. */
  lemma ModifyOnRam(op: ModifyOp, mode: Mode, cycles: int, st: State)
    requires mode.Addresses() && st.bus.device.Ram?
    ensures var f := FetchOperand(mode, st);
            var m := st.bus.device.image;
            var ad := Target(mode, f.st.r, f.st.bus, f.operand);
            ExecuteModify(op, mode, cycles, st).st.bus.device == Device.Ram(Poke(m, ad, Modified(op, st.r.sr, Peek(m, ad))))
  {
    hide Reads, FetchOperand, Pointer, StoreApproach, ApproachCells, OperandCells, Target, Modified, ModifiedStatus, Accumulated;
    hide Poke, Peek;
    FetchReads(mode, st);
    FetchAndApproach(mode, st);
    var f := FetchOperand(mode, st);
    var m := st.bus.device.image;
    var ad := Target(mode, f.st.r, f.st.bus, f.operand);
    var ready := StoreApproach(mode, f.st.r, f.st.bus, f.operand);
    ReadsDevice(st.bus, ready, OperandCells(mode, st.r.pc) + ApproachCells(mode, f.st.r, f.operand, Pointer(mode, f.st.r, f.st.bus, f.operand).base));
    PokeTwice(m, ad, ready.Value(ad), Modified(op, f.st.r.sr, ready.Value(ad)));
  }

  lemma ReadsDevice(a: BusState, b: BusState, cells: seq<Word>)
    requires Reads(a, b, cells)
    ensures b.device == a.device
  {
  }

  /** In accumulator mode nothing reaches the bus and A takes the result. */
  lemma ModifyAccumulator(op: ModifyOp, cycles: int, st: State)
    requires op in {ASL, LSR, ROL, ROR}
    ensures var done := ExecuteModify(op, Accumulator, cycles, st);
            done.st.bus == st.bus && done.st.r.a == Modified(op, st.r.sr, st.r.a)
  {
    hide Modified;
  }
}
