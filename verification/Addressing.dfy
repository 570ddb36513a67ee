/**
 Addressing modes (src/parameters.h). The functions describe what each kind of
 instruction does to the bus through a mode, resolving the address once; the class
 `Params` is the object an instruction asks several times over, with the flags that
 remember what has already been put on the bus.
 */
module Addressing {
  import opened Registers
  import opened Bus
  import opened Stack

  datatype Mode =
    | NullMode | Accumulator | Immediate | ZeroPage | ZeroPageX | ZeroPageY | Relative
    | AbsConst | Absolute | AbsoluteX | AbsoluteY | Indirect | IndirectX | IndirectY
  {
    /** Bytes that follow the opcode. */
    function OperandLength(): nat {
      match this
      case NullMode | Accumulator => 0
      case AbsConst | Absolute | AbsoluteX | AbsoluteY | Indirect => 2
      case _ => 1
    }

    /** The mode designates a memory cell that 8-bit accesses reach. */
    predicate Addresses() {
      ZeroPage? || ZeroPageX? || ZeroPageY? || Absolute? || AbsoluteX? || AbsoluteY? || IndirectX? || IndirectY?
    }

    predicate ZeroPageIndexed() {
      ZeroPageX? || ZeroPageY?
    }

    /** Adding the index may carry into the high byte. */
    predicate MayCross() {
      AbsoluteX? || AbsoluteY? || IndirectY?
    }

    /** The mode has a cycle in which an unfinished address is driven. */
    predicate HasDummy() {
      ZeroPageIndexed() || MayCross()
    }

    predicate HasPointer() {
      IndirectX? || IndirectY?
    }

    function Index(r: Regs): Byte {
      match this
      case ZeroPageX | AbsoluteX => r.x
      case ZeroPageY | AbsoluteY | IndirectY => r.y
      case _ => 0
    }
  }

  datatype Fetched = Fetched(st: State, operand: Word)

  /** Consume the operand bytes. */
  function FetchOperand(mode: Mode, st: State): Fetched {
    var pc := st.r.pc;
    var r := st.r.(pc := Wrap(pc + mode.OperandLength()));
    match mode.OperandLength()
    case 0 => Fetched(st, 0)
    case 1 => Fetched(State(r, st.bus.Read(pc)), st.bus.Value(pc))
    case _ => Fetched(State(r, st.bus.ReadPair(pc, Wrap(pc + 1))), st.bus.PairValue(pc, Wrap(pc + 1)))
  }

  datatype Pointed = Pointed(bus: BusState, base: Word)

  /** The zero-page cell the pointer's low byte is read from. */
  function PointerCell(mode: Mode, r: Regs, operand: Word): Byte {
    if mode.IndirectX? then Low(operand + r.x) else Low(operand)
  }

  /** The address before indexing; the two indirect modes read it from the zero page. */
  function Pointer(mode: Mode, r: Regs, bus: BusState, operand: Word): Pointed {
    if mode.HasPointer() then
      var zp := PointerCell(mode, r, operand);
      Pointed(bus.ReadPair(zp, Low(zp + 1)), bus.PairValue(zp, Low(zp + 1)))
    else
      Pointed(bus, operand)
  }

  /** The address an access reaches. Zero-page indexing wraps within the page. */
  function Effective(mode: Mode, r: Regs, base: Word): Word {
    if mode.ZeroPageIndexed() then Low(base + mode.Index(r)) else Wrap(base + mode.Index(r))
  }

  predicate Crosses(mode: Mode, r: Regs, base: Word) {
    mode.MayCross() && Page(Effective(mode, r, base)) != Page(base)
  }

  /** The unfinished address: un-indexed in the zero page, without the carry elsewhere. */
  function DummyAddress(mode: Mode, r: Regs, base: Word): Word {
    if mode.ZeroPageIndexed() then base else Uncarried(base, mode.Index(r))
  }

  /** What an 8-bit load yields in the modes that do not reach memory. */
  function RegisterOperand(mode: Mode, r: Regs, operand: Word): Byte {
    match mode
    case NullMode => 0
    case Accumulator => r.a
    case _ => Low(operand)
  }

  // ----- The objects instructions use -----

  /** What a `Params` object remembers: the pointer, if it has been read, and the dummy read. */
  datatype Memo = Memo(resolved: bool, base: Word, dummyDone: bool)

  /** The address before indexing, read from the bus only when it is not yet known. */
  function Recalled(mode: Mode, r: Regs, bus: BusState, operand: Word, memo: Memo): Pointed {
    if memo.resolved then Pointed(bus, memo.base) else Pointer(mode, r, bus, operand)
  }

  /** After asking for the dummy read. */
  function Dummied(mode: Mode, r: Regs, bus: BusState, operand: Word, memo: Memo): BusState {
    if !mode.HasDummy() || memo.dummyDone then bus
    else
      var p := Recalled(mode, r, bus, operand, memo);
      p.bus.Read(DummyAddress(mode, r, p.base))
  }

  /** The bus just before the final read of an 8-bit load. */
  function BeforeLoad(mode: Mode, r: Regs, bus: BusState, operand: Word, memo: Memo): BusState {
    var p := Recalled(mode, r, bus, operand, memo);
    if !memo.dummyDone && (mode.ZeroPageIndexed() || Crosses(mode, r, p.base))
    then p.bus.Read(DummyAddress(mode, r, p.base))
    else p.bus
  }

  class Params {
    const mode: Mode
    var data: Word
    var crossed: bool
    var dummyDone: bool
    var resolved: bool      // the pointer of (zp,X)
    var addr: Word
    var baseResolved: bool  // the pointer of (zp),Y
    var base: Word

    constructor (mode: Mode)
      ensures this.mode == mode && !crossed && Fresh()
      ensures data == 0
    {
      this.mode := mode;
      data, crossed, dummyDone := 0, false, false;
      resolved, addr, baseResolved, base := false, 0, false, 0;
    }

    /** Nothing has been resolved yet. */
    ghost predicate Fresh()
      reads this
    {
      !dummyDone && !resolved && !baseResolved
    }

    ghost function View(): Memo
      reads this
    {
      match mode
      case IndirectX => Memo(resolved, addr, dummyDone)
      case IndirectY => Memo(baseResolved, base, dummyDone)
      case _ => Memo(false, 0, dummyDone)
    }

    /** Zero-page operands are one byte. */
    ghost predicate Valid()
      reads this
    {
      mode.OperandLength() < 2 ==> data < 0x100
    }

    method FetchByte(regs: RegisterFile, bus: SystemBus) returns (b: Byte)
      requires bus.Valid()
      modifies regs`pc, bus
      ensures b == old(bus.View()).Value(old(regs.pc)) && bus.View() == old(bus.View()).Read(old(regs.pc))
      ensures regs.pc == Wrap(old(regs.pc) + 1)
    {
      b := bus.Read(regs.pc);
      regs.pc := Wrap(regs.pc + 1);
    }

    method FetchWord(regs: RegisterFile, bus: SystemBus) returns (w: Word)
      requires bus.Valid()
      modifies regs`pc, bus
      ensures w == old(bus.View()).PairValue(old(regs.pc), Wrap(old(regs.pc) + 1))
      ensures bus.View() == old(bus.View()).ReadPair(old(regs.pc), Wrap(old(regs.pc) + 1))
      ensures regs.pc == Wrap(old(regs.pc) + 2)
    {
      w := bus.ReadWord(regs.pc, Wrap(regs.pc + 1));
      regs.pc := Wrap(regs.pc + 2);
    }

    method Init(regs: RegisterFile, bus: SystemBus)
      requires bus.Valid() && data == 0
      modifies this`data, regs`pc, bus
      ensures Valid()
      ensures Fetched(State(regs.View(), bus.View()), data) == FetchOperand(mode, old(State(regs.View(), bus.View())))
    {
      if mode.OperandLength() == 1 {
        data := FetchByte(regs, bus);
      } else if mode.OperandLength() == 2 {
        data := FetchWord(regs, bus);
      }
    }

    /** The address before indexing, fetched at most once. */
    method Base(regs: RegisterFile, bus: SystemBus) returns (ptr: Word)
      requires bus.Valid() && Valid()
      requires mode.MayCross()
      modifies this`baseResolved, this`base, bus
      ensures Pointed(bus.View(), ptr) == Recalled(mode, regs.View(), old(bus.View()), data, old(View()))
      ensures View() == if mode.HasPointer() then Memo(true, ptr, old(dummyDone)) else old(View())
    {
      if mode.IndirectY? {
        if !baseResolved {
          base := bus.ReadWord(data, Low(data + 1));
          baseResolved := true;
        }
        ptr := base;
      } else {
        ptr := data;
      }
    }

    /** The effective address of the modes whose index may carry. */
    method IndexedAddr(regs: RegisterFile, bus: SystemBus) returns (ad: Word)
      requires bus.Valid() && Valid()
      requires mode.MayCross()
      modifies this`crossed, this`baseResolved, this`base, bus
      ensures var p := Recalled(mode, regs.View(), old(bus.View()), data, old(View()));
              && bus.View() == p.bus
              && ad == Effective(mode, regs.View(), p.base)
              && crossed == Crosses(mode, regs.View(), p.base)
              && View() == if mode.HasPointer() then Memo(true, p.base, old(dummyDone)) else old(View())
    {
      var ptr := Base(regs, bus);
      ad := Wrap(ptr + (if mode.AbsoluteX? then regs.x else regs.y));
      crossed := Page(ad) != Page(ptr);
    }

    /** The effective address of (zp,X), its pointer fetched at most once. */
    method PointedAddr(regs: RegisterFile, bus: SystemBus) returns (ad: Word)
      requires bus.Valid() && Valid()
      requires mode.IndirectX?
      modifies this`resolved, this`addr, bus
      ensures Pointed(bus.View(), ad) == Recalled(mode, regs.View(), old(bus.View()), data, old(View()))
      ensures View() == Memo(true, ad, old(dummyDone))
    {
      if !resolved {
        var zp: Word := Low(data + regs.x);
        addr := bus.ReadWord(zp, Low(zp + 1));
        resolved := true;
      }
      ad := addr;
    }

    /** The effective address, noting whether the index carried. */
    method Addr(regs: RegisterFile, bus: SystemBus) returns (ad: Word)
      requires bus.Valid() && Valid()
      requires mode.Addresses()
      modifies this`crossed, this`resolved, this`addr, this`baseResolved, this`base, bus
      ensures var p := Recalled(mode, regs.View(), old(bus.View()), data, old(View()));
              && bus.View() == p.bus
              && ad == Effective(mode, regs.View(), p.base)
              && crossed == (if mode.MayCross() then Crosses(mode, regs.View(), p.base) else old(crossed))
              && View() == if mode.HasPointer() then Memo(true, p.base, old(dummyDone)) else old(View())
    {
      if mode.MayCross() {
        ad := IndexedAddr(regs, bus);
      } else if mode.IndirectX? {
        ad := PointedAddr(regs, bus);
      } else if mode.ZeroPageIndexed() {
        ad := Low(data + (if mode.ZeroPageX? then regs.x else regs.y));
      } else {
        ad := data;
      }
    }

    /** The read made before the address is finished; at most one per instruction. */
    method DummyRead(regs: RegisterFile, bus: SystemBus)
      requires bus.Valid() && Valid()
      modifies this`dummyDone, this`baseResolved, this`base, bus
      ensures bus.View() == Dummied(mode, regs.View(), old(bus.View()), data, old(View()))
      ensures var memo := old(View());
              View() == if !mode.HasDummy() || memo.dummyDone then memo
                        else if mode.HasPointer() then Memo(true, Recalled(mode, regs.View(), old(bus.View()), data, memo).base, true)
                        else memo.(dummyDone := true)
    {
      if !mode.HasDummy() || dummyDone {
        return;
      }
      dummyDone := true;
      if mode.ZeroPageIndexed() {
        var _ := bus.Read(data);
      } else {
        var ptr := Base(regs, bus);
        var _ := bus.Read(Uncarried(ptr, if mode.AbsoluteX? then regs.x else regs.y));
      }
    }

    /** An 8-bit load of a memory operand. */
    method Load(regs: RegisterFile, bus: SystemBus) returns (v: Byte)
      requires bus.Valid() && Valid()
      requires mode.Addresses()
      modifies this`crossed, this`dummyDone, this`resolved, this`addr, this`baseResolved, this`base, bus
      ensures var p := Recalled(mode, regs.View(), old(bus.View()), data, old(View()));
              var ready := BeforeLoad(mode, regs.View(), old(bus.View()), data, old(View()));
              var ad := Effective(mode, regs.View(), p.base);
              && bus.View() == ready.Read(ad) && v == ready.Value(ad)
              && crossed == (if mode.MayCross() then Crosses(mode, regs.View(), p.base) else old(crossed))
              && View().resolved == mode.HasPointer() && (mode.HasPointer() ==> View().base == p.base)
    {
      if mode.ZeroPageIndexed() {
        DummyRead(regs, bus);
      }
      var ad := Addr(regs, bus);
      if mode.MayCross() && crossed {
        DummyRead(regs, bus);
      }
      v := bus.Read(ad);
    }

    method Get8bit(regs: RegisterFile, bus: SystemBus) returns (v: Byte)
      requires bus.Valid() && Valid()
      modifies this`crossed, this`dummyDone, this`resolved, this`addr, this`baseResolved, this`base, bus
      ensures mode.Addresses() ==>
                var p := Recalled(mode, regs.View(), old(bus.View()), data, old(View()));
                var ready := BeforeLoad(mode, regs.View(), old(bus.View()), data, old(View()));
                var ad := Effective(mode, regs.View(), p.base);
                && bus.View() == ready.Read(ad) && v == ready.Value(ad)
                && crossed == (if mode.MayCross() then Crosses(mode, regs.View(), p.base) else old(crossed))
                && View().resolved == mode.HasPointer() && (mode.HasPointer() ==> View().base == p.base)
      ensures !mode.Addresses() ==> crossed == old(crossed) && View() == old(View())
      ensures mode.Indirect? ==> v == old(bus.View()).Value(data) && bus.View() == old(bus.View()).Read(data)
      ensures !mode.Addresses() && !mode.Indirect? ==> bus.View() == old(bus.View()) && v == RegisterOperand(mode, regs.View(), data)
    {
      if mode.Addresses() {
        v := Load(regs, bus);
      } else if mode.Indirect? {
        v := bus.Read(data);
      } else {
        v := if mode.NullMode? then 0 else if mode.Accumulator? then regs.a else Low(data);
      }
    }

    /** Only JMP and JSR ask for 16 bits: the operand itself, or through a pointer that wraps in its page. */
    method Get16bit(regs: RegisterFile, bus: SystemBus) returns (v: Word)
      requires bus.Valid()
      requires mode.AbsConst? || mode.Indirect?
      modifies bus
      ensures mode.AbsConst? ==> v == data && bus.View() == old(bus.View())
      ensures mode.Indirect? ==>
                var hi := Uncarried(data, 1);
                v == old(bus.View()).PairValue(data, hi) && bus.View() == old(bus.View()).ReadPair(data, hi)
    {
      if mode.AbsConst? {
        v := data;
      } else {
        v := bus.ReadWord(data, Uncarried(data, 1));
      }
    }

    method Set8bit(regs: RegisterFile, bus: SystemBus, v: Byte)
      requires bus.Valid() && Valid()
      modifies this`crossed, this`resolved, this`addr, this`baseResolved, this`base, regs`a, bus.Footprint()
      ensures mode.Addresses() ==>
                var p := Recalled(mode, old(regs.View()), old(bus.View()), data, old(View()));
                && bus.View() == p.bus.Write(Effective(mode, old(regs.View()), p.base), v)
                && View() == if mode.HasPointer() then Memo(true, p.base, old(dummyDone)) else old(View())
      ensures !mode.Addresses() ==> bus.View() == old(bus.View()) && View() == old(View())
      ensures regs.a == if mode.Accumulator? then v else old(regs.a)
    {
      if mode.Accumulator? {
        regs.a := v;
      } else if mode.Addresses() {
        var ad := Addr(regs, bus);
        bus.Write(ad, v);
      }
    }
  }
}
