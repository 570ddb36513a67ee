/**
 The instructions (src/InstructionImpl.h), as operation times addressing mode. `Execute`
 is the specification, on values; the methods drive the register file and the bus in the
 source's order and are proved equal to it. A memory operand is resolved once in the
 specification; that the methods also resolve it only once is what their proof shows.
 */
module Instructions {
  import opened Registers
  import opened Bus
  import opened Stack
  import opened Arithmetic
  import opened Addressing

  /** Operations that read one byte and update registers; NOPR is the NOP that performs its read. */
  datatype LoadOp =
    | ADC | AND | BIT | CMP | CPX | CPY | EOR | LDA | LDX | LDY | ORA | SBC
    | NOPR | LAX | ANC | ALR | ARR | SBX | LAS | XAA
  {
    /** The cost includes the page-crossing penalty. */
    predicate ChargesCrossing() {
      !(BIT? || CPX? || CPY? || ANC? || ALR? || ARR? || SBX? || XAA?)
    }
  }

  datatype StoreOp = STA | STX | STY | SAX

  /** Read-modify-write; the last six are fused with an operation on A. */
  datatype ModifyOp = ASL | LSR | ROL | ROR | INC | DEC | SLO | RLA | SRE | RRA | DCP | ISC

  datatype BranchOp = BCC | BCS | BEQ | BMI | BNE | BPL | BVC | BVS

  /** Operations on registers and flags alone; KIL rewinds PC onto itself. */
  datatype RegisterOp =
    | CLC | CLD | CLI | CLV | SEC | SED | SEI | DEX | DEY | INX | INY | TAX | TAY | TSX | TXA | TXS | TYA | KIL

  /** The unstable stores (SHx_Impl in the source). */
  datatype UnstableOp = SHA | SHX | SHY | TAS

  datatype ControlOp = BRK | JMP | JSR | NOP | PHA | PHP | PLA | PLP | RTI | RTS

  datatype Op =
    | Loading(l: LoadOp) | Storing(s: StoreOp) | Modifying(m: ModifyOp) | Branching(b: BranchOp)
    | OnRegisters(r: RegisterOp) | Unstable(u: UnstableOp) | Control(c: ControlOp)

  datatype Executed = Executed(st: State, cycles: int)

  // ----- Loads -----

  datatype Loaded = Loaded(bus: BusState, v: Byte, crossed: bool)

  /** What is on the bus before the final read: pointer, then the unfinished address if there is one. */
  function Approach(mode: Mode, r: Regs, bus: BusState, operand: Word): BusState {
    var p := Pointer(mode, r, bus, operand);
    if mode.ZeroPageIndexed() || Crosses(mode, r, p.base) then p.bus.Read(DummyAddress(mode, r, p.base)) else p.bus
  }

  function Target(mode: Mode, r: Regs, bus: BusState, operand: Word): Word {
    Effective(mode, r, Pointer(mode, r, bus, operand).base)
  }

  function LoadOperand(mode: Mode, r: Regs, bus: BusState, operand: Word): Loaded {
    if mode.Addresses() then
      var ready := Approach(mode, r, bus, operand);
      var ad := Target(mode, r, bus, operand);
      Loaded(ready.Read(ad), ready.Value(ad), Crosses(mode, r, Pointer(mode, r, bus, operand).base))
    else if mode.Indirect? then
      Loaded(bus.Read(operand), bus.Value(operand), false)
    else
      Loaded(bus, RegisterOperand(mode, r, operand), false)
  }

  function AndA(r: Regs, v: Byte): Regs {
    var a := And(r.a, v);
    r.(a := a, sr := r.sr.WithNZ(a))
  }

  function OrA(r: Regs, v: Byte): Regs {
    var a := Or(r.a, v);
    r.(a := a, sr := r.sr.WithNZ(a))
  }

  function XorA(r: Regs, v: Byte): Regs {
    var a := Xor(r.a, v);
    r.(a := a, sr := r.sr.WithNZ(a))
  }

  function TestBits(sr: Status, a: Byte, v: Byte): Status {
    sr.(v := v / 0x40 % 2, n := Sign(v), z := ZeroBit(And(v, a)))
  }

  function RotatedRight(v: Byte, c: Bit): Byte {
    v / 2 + 0x80 * c
  }

  function RotatedLeft(v: Byte, c: Bit): Byte {
    Low(2 * v) + c
  }

  /** ARR: C is bit 6 of the result, V is bit 6 XOR bit 5. */
  function ArrStatus(sr: Status, a: Byte): Status {
    sr.WithNZ(a).(c := a / 0x40 % 2, v := (a / 0x40 + a / 0x20) % 2)
  }

  function LoadEffect(op: LoadOp, r: Regs, v: Byte): Regs
  {
    match op
    case ADC => Adc(r, v)
    case SBC => Sbc(r, v)
    case AND => AndA(r, v)
    case ORA => OrA(r, v)
    case EOR => XorA(r, v)
    case BIT => r.(sr := TestBits(r.sr, r.a, v))
    case CMP => r.(sr := Cmp(r.sr, r.a, v))
    case CPX => r.(sr := Cmp(r.sr, r.x, v))
    case CPY => r.(sr := Cmp(r.sr, r.y, v))
    case LDA => r.(a := v, sr := r.sr.WithNZ(v))
    case LDX => r.(x := v, sr := r.sr.WithNZ(v))
    case LDY => r.(y := v, sr := r.sr.WithNZ(v))
    case NOPR => r
    case LAX => r.(a := v, x := v, sr := r.sr.WithNZ(v))
    case ANC => var t := AndA(r, v); t.(sr := t.sr.(c := Sign(t.a)))
    case ALR =>
      var t: Byte := And(r.a, v);
      r.(a := Half(t), sr := r.sr.WithNZ(Half(t)).(c := Parity(t)))
    case ARR =>
      var a := RotatedRight(And(r.a, v), r.sr.c);
      r.(a := a, sr := ArrStatus(r.sr, a))
    case SBX =>
      var lhs := And(r.a, r.x);
      r.(x := Low(lhs - v), sr := r.sr.WithNZ(Low(lhs - v)).(c := if lhs >= v then 1 else 0))
    case LAS =>
      var t := And(v, r.sp);
      r.(a := t, x := t, sp := t, sr := r.sr.WithNZ(t))
    case XAA =>
      var a := And(And(Or(r.a, 0xEE), r.x), v);
      r.(a := a, sr := r.sr.WithNZ(a))
  }

  function ExecuteLoad(op: LoadOp, mode: Mode, cycles: int, st: State): Executed
  {
    var f := FetchOperand(mode, st);
    var l := LoadOperand(mode, f.st.r, f.st.bus, f.operand);
    Executed(State(LoadEffect(op, f.st.r, l.v), l.bus),
             cycles + if op.ChargesCrossing() && l.crossed then 1 else 0)
  }

  // ----- Stores -----

  function StoreValue(op: StoreOp, r: Regs): Byte
  {
    match op
    case STA => r.a
    case STX => r.x
    case STY => r.y
    case SAX => And(r.a, r.x)
  }

  /** A store always drives the unfinished address of an indexed mode. */
  function StoreApproach(mode: Mode, r: Regs, bus: BusState, operand: Word): BusState {
    var p := Pointer(mode, r, bus, operand);
    if mode.HasDummy() then p.bus.Read(DummyAddress(mode, r, p.base)) else p.bus
  }

  function ExecuteStore(op: StoreOp, mode: Mode, cycles: int, st: State): Executed
  {
    var f := FetchOperand(mode, st);
    var r, bus := f.st.r, f.st.bus;
    var v := StoreValue(op, r);
    if mode.Addresses() then
      Executed(State(r, StoreApproach(mode, r, bus, f.operand).Write(Target(mode, r, bus, f.operand), v)), cycles)
    else
      Executed(State(if mode.Accumulator? then r.(a := v) else r, bus), cycles)
  }

  // ----- Read-modify-write -----

  /** The byte that replaces the original. */
  function Modified(op: ModifyOp, sr: Status, orig: Byte): Byte
  {
    match op
    case ASL | SLO => Low(2 * orig)
    case LSR | SRE => Half(orig)
    case ROL | RLA => RotatedLeft(orig, sr.c)
    case ROR | RRA => RotatedRight(orig, sr.c)
    case INC | ISC => Low(orig + 1)
    case DEC | DCP => Low(orig - 1)
  }

  /** The flags that follow from the modification itself. */
  function ModifiedStatus(op: ModifyOp, sr: Status, orig: Byte): Status
  {
    match op
    case ASL | ROL => sr.(c := Sign(orig)).WithNZ(Modified(op, sr, orig))
    case LSR | ROR => sr.(c := Parity(orig)).WithNZ(Modified(op, sr, orig))
    case SLO | RLA => sr.(c := Sign(orig))
    case SRE | RRA => sr.(c := Parity(orig))
    case INC | DEC => sr.WithNZ(Modified(op, sr, orig))
    case ISC | DCP => sr
  }

  /** What the fused operations do with A once the result is stored. */
  function Accumulated(op: ModifyOp, r: Regs, v: Byte): Regs
  {
    match op
    case SLO => OrA(r, v)
    case RLA => AndA(r, v)
    case SRE => XorA(r, v)
    case RRA => Adc(r, v)
    case DCP => r.(sr := Cmp(r.sr, r.a, v))
    case ISC => Sbc(r, v)
    case _ => r
  }

  /** Both writes of a read-modify-write, the unmodified byte first. */
  function WriteTwice(bus: BusState, ad: Word, orig: Byte, v: Byte): BusState {
    bus.Write(ad, orig).Write(ad, v)
  }

  function ExecuteModify(op: ModifyOp, mode: Mode, cycles: int, st: State): Executed
  {
    var f := FetchOperand(mode, st);
    var r, bus := f.st.r, f.st.bus;
    if mode.Addresses() then
      var ready := StoreApproach(mode, r, bus, f.operand);
      var ad := Target(mode, r, bus, f.operand);
      var orig := ready.Value(ad);
      var v := Modified(op, r.sr, orig);
      Executed(State(Accumulated(op, r.(sr := ModifiedStatus(op, r.sr, orig)), v),
                     WriteTwice(ready.Read(ad), ad, orig, v)), cycles)
    else
      var l := LoadOperand(mode, r, bus, f.operand);
      var v := Modified(op, r.sr, l.v);
      var r1 := r.(sr := ModifiedStatus(op, r.sr, l.v));
      Executed(State(Accumulated(op, if mode.Accumulator? then r1.(a := v) else r1, v), l.bus), cycles)
  }

  // ----- Branches -----

  predicate BranchTaken(op: BranchOp, sr: Status)
  {
    match op
    case BCC => sr.c == 0
    case BCS => sr.c == 1
    case BNE => sr.z == 0
    case BEQ => sr.z == 1
    case BPL => sr.n == 0
    case BMI => sr.n == 1
    case BVC => sr.v == 0
    case BVS => sr.v == 1
  }

  /** The target of a branch: the displacement is signed and counts from the next instruction. */
  function BranchTarget(pc: Word, displacement: Byte): Word {
    Wrap(pc + if displacement >= 0x80 then displacement - 0x100 else displacement)
  }

  function ExecuteBranch(op: BranchOp, mode: Mode, cycles: int, st: State): Executed
  {
    var f := FetchOperand(mode, st);
    var l := LoadOperand(mode, f.st.r, f.st.bus, f.operand);
    var st1 := State(f.st.r, l.bus);
    if !BranchTaken(op, st1.r.sr) then Executed(st1, cycles)
    else
      var target := BranchTarget(st1.r.pc, l.v);
      Executed(st1.(r := st1.r.(pc := target)),
               cycles + if Page(st1.r.pc) != Page(target) then 2 else 1)
  }

  // ----- Registers and flags -----

  function RegisterEffect(op: RegisterOp, r: Regs): Regs
  {
    match op
    case CLC => r.(sr := r.sr.(c := 0))
    case CLD => r.(sr := r.sr.(d := 0))
    case CLI => r.(sr := r.sr.(i := 0))
    case CLV => r.(sr := r.sr.(v := 0))
    case SEC => r.(sr := r.sr.(c := 1))
    case SED => r.(sr := r.sr.(d := 1))
    case SEI => r.(sr := r.sr.(i := 1))
    case DEX => r.(x := Low(r.x - 1), sr := r.sr.WithNZ(Low(r.x - 1)))
    case DEY => r.(y := Low(r.y - 1), sr := r.sr.WithNZ(Low(r.y - 1)))
    case INX => r.(x := Low(r.x + 1), sr := r.sr.WithNZ(Low(r.x + 1)))
    case INY => r.(y := Low(r.y + 1), sr := r.sr.WithNZ(Low(r.y + 1)))
    case TAX => r.(x := r.a, sr := r.sr.WithNZ(r.a))
    case TAY => r.(y := r.a, sr := r.sr.WithNZ(r.a))
    case TSX => r.(x := r.sp, sr := r.sr.WithNZ(r.sp))
    case TXA => r.(a := r.x, sr := r.sr.WithNZ(r.x))
    case TYA => r.(a := r.y, sr := r.sr.WithNZ(r.y))
    case TXS => r.(sp := r.x)
    case KIL => r.(pc := Wrap(r.pc - 1))
  }

  // ----- Unstable stores -----

  function UnstableSource(op: UnstableOp, r: Regs): Byte
  {
    match op
    case SHX => r.x
    case SHY => r.y
    case SHA | TAS => And(r.a, r.x)
  }

  /** Stores the source ANDed with the high byte of the un-indexed address plus one; no unfinished read. */
  function ExecuteUnstable(op: UnstableOp, mode: Mode, cycles: int, st: State): Executed
    requires mode.MayCross()
  {
    var f := FetchOperand(mode, st);
    var r0 := f.st.r;
    var src := UnstableSource(op, r0);
    var r := if op.TAS? then r0.(sp := src) else r0;
    var p := Pointer(mode, r, f.st.bus, f.operand);
    Executed(State(r, p.bus.Write(Effective(mode, r, p.base), And(src, Low(High(p.base) + 1)))), cycles)
  }

  // ----- Control flow and the stack -----

  /** The pushes of BRK and of a hardware interrupt, which differ in the status byte and return address. */
  function EnterHandler(st: State, ret: Word, status: Byte, vector: Word): State {
    var st1 := Push8(Push16(st, ret), status);
    var bus := st1.bus;
    State(st1.r.(sr := st1.r.sr.(i := 1), pc := bus.PairValue(vector, Wrap(vector + 1))),
          bus.ReadPair(vector, Wrap(vector + 1)))
  }

  function ReturnFromInterrupt(st: State): State {
    var s := Pop8(st);
    var p := Pop16(s.st.(r := s.st.r.(sr := Pulled(s.v))));
    p.st.(r := p.st.r.(pc := p.v))
  }

  function ControlEffect(op: ControlOp, mode: Mode, st: State): State
    requires JumpAllowed(op, mode)
  {
    match op
    case BRK => EnterHandler(st, Wrap(st.r.pc + 1), st.r.sr.BreakCopy().Packed(), 0xFFFE)
    case PHA => Push8(st, st.r.a)
    case PHP => Push8(st, st.r.sr.BreakCopy().Packed())
    case PLA =>
      var p := Pop8(st);
      p.st.(r := p.st.r.(a := p.v, sr := p.st.r.sr.WithNZ(p.v)))
    case PLP =>
      var p := Pop8(st);
      p.st.(r := p.st.r.(sr := Pulled(p.v)))
    case RTI => ReturnFromInterrupt(st)
    case RTS =>
      var p := Pop16(st);
      p.st.(r := p.st.r.(pc := Wrap(p.v + 1)))
    case NOP => FetchOperand(mode, st).st
    case JMP =>
      var f := FetchOperand(mode, st);
      if mode.AbsConst? then f.st.(r := f.st.r.(pc := f.operand))
      else
        var hi := Uncarried(f.operand, 1);
        State(f.st.r.(pc := f.st.bus.PairValue(f.operand, hi)), f.st.bus.ReadPair(f.operand, hi))
    case JSR =>
      var f := FetchOperand(mode, st);
      var p := Push16(f.st, Wrap(f.st.r.pc - 1));
      p.(r := p.r.(pc := f.operand))
  }

  // ----- Any instruction -----

  /** The modes a jump can be given. */
  predicate JumpAllowed(op: ControlOp, mode: Mode) {
    && (op == JMP ==> mode.AbsConst? || mode.Indirect?)
    && (op == JSR ==> mode.AbsConst?)
  }

  /** The modes an operation can be given. */
  predicate Allowed(op: Op, mode: Mode) {
    match op
    case Unstable(_) => mode.MayCross()
    case Modifying(_) => !mode.Indirect?
    case Control(c) => JumpAllowed(c, mode)
    case _ => true
  }

  function Execute(op: Op, mode: Mode, cycles: int, st: State): Executed
    requires Allowed(op, mode)
  {
    match op
    case Loading(l) => ExecuteLoad(l, mode, cycles, st)
    case Storing(s) => ExecuteStore(s, mode, cycles, st)
    case Modifying(m) => ExecuteModify(m, mode, cycles, st)
    case Branching(b) => ExecuteBranch(b, mode, cycles, st)
    case OnRegisters(r) => Executed(st.(r := RegisterEffect(r, st.r)), cycles)
    case Unstable(u) => ExecuteUnstable(u, mode, cycles, st)
    case Control(c) => Executed(ControlEffect(c, mode, st), cycles)
  }

  // ----- The methods -----

  method ApplyLoad(op: LoadOp, regs: RegisterFile, v: Byte)
    modifies regs
    ensures regs.View() == LoadEffect(op, old(regs.View()), v)
  {
    hide Adc, Sbc, Cmp, And, Or, Xor;
    match op {
      case ADC => AdcCore(regs, v);
      case SBC => SbcCore(regs, v);
      case AND =>
        regs.a := And(regs.a, v);
        regs.SetNZ(regs.a);
      case ORA =>
        regs.a := Or(regs.a, v);
        regs.SetNZ(regs.a);
      case EOR =>
        regs.a := Xor(regs.a, v);
        regs.SetNZ(regs.a);
      case CMP => CmpCore(regs, regs.a, v);
      case CPX => CmpCore(regs, regs.x, v);
      case CPY => CmpCore(regs, regs.y, v);
      case LDA =>
        regs.a := v;
        regs.SetNZ(regs.a);
      case LDX =>
        regs.x := v;
        regs.SetNZ(regs.x);
      case LDY =>
        regs.y := v;
        regs.SetNZ(regs.y);
      case NOPR =>
      case BIT | LAX | ANC | ALR | ARR | SBX | LAS | XAA => ApplyRareLoad(op, regs, v);
    }
  }

  method ApplyRareLoad(op: LoadOp, regs: RegisterFile, v: Byte)
    requires op in {BIT, LAX, ANC, ALR, ARR, SBX, LAS, XAA}
    modifies regs
    ensures regs.View() == LoadEffect(op, old(regs.View()), v)
  {
    match op {
      case BIT =>
        regs.sr := regs.sr.(v := v / 0x40 % 2);
        regs.sr := regs.sr.(n := Sign(v));
        regs.sr := regs.sr.(z := ZeroBit(And(v, regs.a)));
      case LAX =>
        regs.x := v;
        regs.a := v;
        regs.SetNZ(regs.a);
      case ANC =>
        regs.a := And(regs.a, v);
        regs.SetNZ(regs.a);
        regs.sr := regs.sr.(c := Sign(regs.a));
      case ALR =>
        var t: Byte := And(regs.a, v);
        regs.sr := regs.sr.(c := Parity(t));
        regs.a := Half(t);
        regs.SetNZ(regs.a);
      case ARR =>
        regs.a := RotatedRight(And(regs.a, v), regs.sr.c);
        regs.SetNZ(regs.a);
        regs.sr := regs.sr.(c := regs.a / 0x40 % 2);
        regs.sr := regs.sr.(v := (regs.a / 0x40 + regs.a / 0x20) % 2);
      case SBX =>
        var lhs := And(regs.a, regs.x);
        regs.sr := regs.sr.(c := if lhs >= v then 1 else 0);
        regs.x := Low(lhs - v);
        regs.SetNZ(regs.x);
      case LAS =>
        var t := And(v, regs.sp);
        regs.sp, regs.x, regs.a := t, t, t;
        regs.SetNZ(t);
      case XAA =>
        regs.a := And(And(Or(regs.a, 0xEE), regs.x), v);
        regs.SetNZ(regs.a);
    }
  }

  method LoadInstruction(op: LoadOp, mode: Mode, cycles: int, regs: RegisterFile, bus: SystemBus) returns (charged: int)
    requires bus.Valid()
    modifies regs, bus.Footprint()
    ensures Executed(State(regs.View(), bus.View()), charged)
         == ExecuteLoad(op, mode, cycles, old(State(regs.View(), bus.View())))
  {
    hide LoadEffect, FetchOperand, PointerCell, Effective, DummyAddress, Page, RegisterOperand;
    hide SystemBus.View, BusState.Read, BusState.Write, BusState.Value, BusState.ReadPair, BusState.PairValue;
    var params := new Params(mode);
    params.Init(regs, bus);
    var v := params.Get8bit(regs, bus);
    ApplyLoad(op, regs, v);
    charged := cycles + if op.ChargesCrossing() && params.crossed then 1 else 0;
  }

  method StoreInstruction(op: StoreOp, mode: Mode, cycles: int, regs: RegisterFile, bus: SystemBus) returns (charged: int)
    requires bus.Valid()
    modifies regs, bus.Footprint()
    ensures Executed(State(regs.View(), bus.View()), charged)
         == ExecuteStore(op, mode, cycles, old(State(regs.View(), bus.View())))
  {
    hide StoreValue, FetchOperand, PointerCell, Effective, DummyAddress, Page;
    hide SystemBus.View, BusState.Read, BusState.Write, BusState.Value, BusState.ReadPair, BusState.PairValue;
    var params := new Params(mode);
    params.Init(regs, bus);
    // A store always spends the indexing cycle.
    params.DummyRead(regs, bus);
    params.Set8bit(regs, bus, StoreValue(op, regs.View()));
    charged := cycles;
  }

  /** Both stores of a read-modify-write; in accumulator mode they land on A. */
  method RmwStore(params: Params, regs: RegisterFile, bus: SystemBus, orig: Byte, v: Byte)
    requires bus.Valid() && params.Valid()
    requires params.mode.Addresses() ==> params.View().resolved == params.mode.HasPointer()
    modifies params`crossed, params`resolved, params`addr, params`baseResolved, params`base, regs`a, bus.Footprint()
    ensures params.mode.Addresses() ==>
              var base := if params.mode.HasPointer() then old(params.View()).base else params.data;
              bus.View() == WriteTwice(old(bus.View()), Effective(params.mode, old(regs.View()), base), orig, v)
    ensures !params.mode.Addresses() ==> bus.View() == old(bus.View())
    ensures regs.a == if params.mode.Accumulator? then v else old(regs.a)
  {
    params.Set8bit(regs, bus, orig);
    params.Set8bit(regs, bus, v);
  }

  method Accumulate(op: ModifyOp, regs: RegisterFile, v: Byte)
    modifies regs
    ensures regs.View() == Accumulated(op, old(regs.View()), v)
  {
    match op {
      case SLO =>
        regs.a := Or(regs.a, v);
        regs.SetNZ(regs.a);
      case RLA =>
        regs.a := And(regs.a, v);
        regs.SetNZ(regs.a);
      case SRE =>
        regs.a := Xor(regs.a, v);
        regs.SetNZ(regs.a);
      case RRA => AdcCore(regs, v);
      case DCP => CmpCore(regs, regs.a, v);
      case ISC => SbcCore(regs, v);
      case _ =>
    }
  }

  /** The dummy read and the load of a read-modify-write; the address stays known for the stores. */
  method LoadOriginal(params: Params, regs: RegisterFile, bus: SystemBus) returns (orig: Byte)
    requires bus.Valid() && params.Valid() && params.Fresh() && !params.mode.Indirect?
    modifies params`crossed, params`dummyDone, params`resolved, params`addr, params`baseResolved, params`base, bus
    ensures params.Valid()
    ensures params.mode.Addresses() ==>
              var ready := StoreApproach(params.mode, regs.View(), old(bus.View()), params.data);
              var ad := Target(params.mode, regs.View(), old(bus.View()), params.data);
              && orig == ready.Value(ad) && bus.View() == ready.Read(ad)
              && params.View().resolved == params.mode.HasPointer()
              && ad == Effective(params.mode, regs.View(), if params.mode.HasPointer() then params.View().base else params.data)
    ensures !params.mode.Addresses() ==>
              orig == RegisterOperand(params.mode, regs.View(), params.data) && bus.View() == old(bus.View())
  {
    hide PointerCell, DummyAddress, Page, Low, Wrap;
    hide SystemBus.View, BusState.Read, BusState.Write, BusState.Value, BusState.ReadPair, BusState.PairValue;
    params.DummyRead(regs, bus);
    orig := params.Get8bit(regs, bus);
  }

  /** Flags, both stores, and what the fused operations do with A. */
  method StoreModified(op: ModifyOp, params: Params, regs: RegisterFile, bus: SystemBus, orig: Byte)
    requires bus.Valid() && params.Valid()
    requires params.mode.Addresses() ==> params.View().resolved == params.mode.HasPointer()
    modifies params`crossed, params`resolved, params`addr, params`baseResolved, params`base, regs, bus.Footprint()
    ensures var r := old(regs.View());
            var v := Modified(op, r.sr, orig);
            var r1 := r.(sr := ModifiedStatus(op, r.sr, orig));
            regs.View() == Accumulated(op, if params.mode.Accumulator? then r1.(a := v) else r1, v)
    ensures params.mode.Addresses() ==>
              var base := if params.mode.HasPointer() then old(params.View()).base else params.data;
              bus.View() == WriteTwice(old(bus.View()), Effective(params.mode, old(regs.View()), base), orig,
                                       Modified(op, old(regs.View()).sr, orig))
    ensures !params.mode.Addresses() ==> bus.View() == old(bus.View())
  {
    hide Modified, ModifiedStatus, Accumulated, WriteTwice, Low, Wrap, Params.View, SystemBus.View;
    var v := Modified(op, regs.sr, orig);
    regs.sr := ModifiedStatus(op, regs.sr, orig);
    RmwStore(params, regs, bus, orig, v);
    Accumulate(op, regs, v);
  }

  method ModifyInstruction(op: ModifyOp, mode: Mode, cycles: int, regs: RegisterFile, bus: SystemBus) returns (charged: int)
    requires bus.Valid() && !mode.Indirect?
    modifies regs, bus.Footprint()
    ensures Executed(State(regs.View(), bus.View()), charged)
         == ExecuteModify(op, mode, cycles, old(State(regs.View(), bus.View())))
  {
    hide Modified, ModifiedStatus, Accumulated, WriteTwice, FetchOperand, Target, StoreApproach, Effective;
    hide Params.View, SystemBus.View, BusState.Read, BusState.Write, BusState.Value;
    var params := new Params(mode);
    params.Init(regs, bus);
    var orig := LoadOriginal(params, regs, bus);
    StoreModified(op, params, regs, bus, orig);
    charged := cycles;
  }

  method BranchInstruction(op: BranchOp, mode: Mode, cycles: int, regs: RegisterFile, bus: SystemBus) returns (charged: int)
    requires bus.Valid()
    modifies regs, bus.Footprint()
    ensures Executed(State(regs.View(), bus.View()), charged)
         == ExecuteBranch(op, mode, cycles, old(State(regs.View(), bus.View())))
  {
    hide BranchTaken, FetchOperand, PointerCell, Effective, DummyAddress, Page, BranchTarget;
    hide SystemBus.View, BusState.Read, BusState.Write, BusState.Value, BusState.ReadPair, BusState.PairValue;
    var params := new Params(mode);
    params.Init(regs, bus);
    var v := params.Get8bit(regs, bus);
    if BranchTaken(op, regs.sr) {
      var extra := Jump(regs, v);
      charged := cycles + extra;
    } else {
      charged := cycles;
    }
  }

  /** Take the branch: one more cycle, and another when the target is in a different page. */
  method Jump(regs: RegisterFile, v: Byte) returns (extra: int)
    modifies regs`pc
    ensures regs.pc == BranchTarget(old(regs.pc), v)
    ensures extra == if Page(old(regs.pc)) != Page(regs.pc) then 2 else 1
  {
    var displacement: int := v;
    if v >= 0x80 {
      displacement := displacement - 0x100; // sign-extend
    }
    var target := Wrap(displacement + regs.pc);
    extra := 1;
    if Page(regs.pc) != Page(target) {
      extra := extra + 1;
    }
    regs.pc := target;
  }

  method RegisterInstruction(op: RegisterOp, cycles: int, regs: RegisterFile) returns (charged: int)
    modifies regs
    ensures regs.View() == RegisterEffect(op, old(regs.View())) && charged == cycles
  {
    charged := cycles;
    match op {
      case CLC => regs.sr := regs.sr.(c := 0);
      case CLD => regs.sr := regs.sr.(d := 0);
      case CLI => regs.sr := regs.sr.(i := 0);
      case CLV => regs.sr := regs.sr.(v := 0);
      case SEC => regs.sr := regs.sr.(c := 1);
      case SED => regs.sr := regs.sr.(d := 1);
      case SEI => regs.sr := regs.sr.(i := 1);
      case DEX =>
        regs.x := Low(regs.x - 1);
        regs.SetNZ(regs.x);
      case DEY =>
        regs.y := Low(regs.y - 1);
        regs.SetNZ(regs.y);
      case INX =>
        regs.x := Low(regs.x + 1);
        regs.SetNZ(regs.x);
      case INY =>
        regs.y := Low(regs.y + 1);
        regs.SetNZ(regs.y);
      case TAX =>
        regs.x := regs.a;
        regs.SetNZ(regs.x);
      case TAY =>
        regs.y := regs.a;
        regs.SetNZ(regs.y);
      case TSX =>
        regs.x := regs.sp;
        regs.SetNZ(regs.x);
      case TXA =>
        regs.a := regs.x;
        regs.SetNZ(regs.a);
      case TYA =>
        regs.a := regs.y;
        regs.SetNZ(regs.a);
      case TXS =>
        regs.sp := regs.x;
      case KIL =>
        regs.pc := Wrap(regs.pc - 1);
    }
  }

  /** The register value to store; TAS also moves it to the stack pointer. */
  method TakeSource(op: UnstableOp, regs: RegisterFile) returns (src: Byte)
    modifies regs`sp
    ensures src == UnstableSource(op, old(regs.View()))
    ensures regs.sp == if op.TAS? then src else old(regs.sp)
  {
    match op {
      case SHX => src := regs.x;
      case SHY => src := regs.y;
      case SHA | TAS => src := And(regs.a, regs.x);
    }
    if op.TAS? {
      regs.sp := And(regs.a, regs.x);
    }
  }

  method UnstableInstruction(op: UnstableOp, mode: Mode, cycles: int, regs: RegisterFile, bus: SystemBus) returns (charged: int)
    requires bus.Valid() && mode.MayCross()
    modifies regs, bus.Footprint()
    ensures Executed(State(regs.View(), bus.View()), charged)
         == ExecuteUnstable(op, mode, cycles, old(State(regs.View(), bus.View())))
  {
    hide FetchOperand, PointerCell, UnstableSource, Effective, Low, High;
    hide SystemBus.View, BusState.Read, BusState.Write, BusState.Value, BusState.ReadPair, BusState.PairValue;
    var params := new Params(mode);
    params.Init(regs, bus);
    var src := TakeSource(op, regs);
    var base := params.Base(regs, bus);
    params.Set8bit(regs, bus, And(src, Low(High(base) + 1)));
    charged := cycles;
  }

  method EnterThrough(regs: RegisterFile, bus: SystemBus, ret: Word, status: Byte, vector: Word)
    requires bus.Valid()
    modifies regs, bus.Footprint()
    ensures State(regs.View(), bus.View()) == EnterHandler(old(State(regs.View(), bus.View())), ret, status, vector)
  {
    PushWord(regs, bus, ret);
    PushByte(regs, bus, status);
    regs.sr := regs.sr.(i := 1);
    regs.pc := bus.ReadWord(vector, Wrap(vector + 1));
  }

  method StackInstruction(op: ControlOp, regs: RegisterFile, bus: SystemBus)
    requires bus.Valid() && op in {PHA, PHP, PLA, PLP, RTI, RTS}
    modifies regs, bus.Footprint()
    ensures State(regs.View(), bus.View()) == ControlEffect(op, NullMode, old(State(regs.View(), bus.View())))
  {
    hide SystemBus.View, Push8, Pop8, Pop16, Unpack, Status.Packed, EnterHandler, FetchOperand;
    match op {
      case PHA => PushByte(regs, bus, regs.a);
      case PHP => PushByte(regs, bus, regs.sr.BreakCopy().Packed());
      case PLA =>
        regs.a := PullByte(regs, bus);
        regs.SetNZ(regs.a);
      case PLP =>
        var p := PullByte(regs, bus);
        regs.sr := Pulled(p);
      case RTI =>
        var p := PullByte(regs, bus);
        regs.sr := Pulled(p);
        regs.pc := PullWord(regs, bus);
      case RTS =>
        var ret: int := PullWord(regs, bus);
        regs.pc := Wrap(ret + 1);
    }
  }

  method JumpInstruction(op: ControlOp, mode: Mode, regs: RegisterFile, bus: SystemBus)
    requires bus.Valid() && op in {NOP, JMP, JSR} && JumpAllowed(op, mode)
    modifies regs, bus.Footprint()
    ensures State(regs.View(), bus.View()) == ControlEffect(op, mode, old(State(regs.View(), bus.View())))
  {
    hide FetchOperand, Push16, EnterHandler, Uncarried;
    hide SystemBus.View, BusState.Read, BusState.Write, BusState.Value, BusState.ReadPair, BusState.PairValue;
    var params := new Params(mode);
    params.Init(regs, bus);
    if op.JMP? {
      regs.pc := params.Get16bit(regs, bus);
    } else if op.JSR? {
      var ad := params.Get16bit(regs, bus);
      PushWord(regs, bus, Wrap(regs.pc - 1));
      regs.pc := ad;
    }
  }

  method ControlInstruction(op: ControlOp, mode: Mode, cycles: int, regs: RegisterFile, bus: SystemBus) returns (charged: int)
    requires bus.Valid() && JumpAllowed(op, mode)
    modifies regs, bus.Footprint()
    ensures State(regs.View(), bus.View()) == ControlEffect(op, mode, old(State(regs.View(), bus.View())))
    ensures charged == cycles
  {
    hide SystemBus.View, Push8, Push16, Pop8, Pop16, Unpack, EnterHandler, FetchOperand, Status.Packed;
    charged := cycles;
    match op {
      case BRK => EnterThrough(regs, bus, Wrap(regs.pc + 1), regs.sr.BreakCopy().Packed(), 0xFFFE);
      case PHA | PHP | PLA | PLP | RTI | RTS => StackInstruction(op, regs, bus);
      case NOP | JMP | JSR => JumpInstruction(op, mode, regs, bus);
    }
  }

  method ExecuteInstruction(op: Op, mode: Mode, cycles: int, regs: RegisterFile, bus: SystemBus) returns (charged: int)
    requires bus.Valid() && Allowed(op, mode)
    modifies regs, bus.Footprint()
    ensures Executed(State(regs.View(), bus.View()), charged)
         == Execute(op, mode, cycles, old(State(regs.View(), bus.View())))
  {
    hide SystemBus.View, ExecuteLoad, ExecuteStore, ExecuteModify, ExecuteBranch, RegisterEffect, ExecuteUnstable, ControlEffect;
    match op {
      case Loading(l) => charged := LoadInstruction(l, mode, cycles, regs, bus);
      case Storing(s) => charged := StoreInstruction(s, mode, cycles, regs, bus);
      case Modifying(m) => charged := ModifyInstruction(m, mode, cycles, regs, bus);
      case Branching(b) => charged := BranchInstruction(b, mode, cycles, regs, bus);
      case OnRegisters(r) => charged := RegisterInstruction(r, cycles, regs);
      case Unstable(u) => charged := UnstableInstruction(u, mode, cycles, regs, bus);
      case Control(c) => charged := ControlInstruction(c, mode, cycles, regs, bus);
    }
  }
}
