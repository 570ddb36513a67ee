/**
 A programmer's reference of the instruction set: what each operation leaves in the
 registers and flags, in plain arithmetic and bit by bit, written without the functions
 that the execution of instructions is built from.
 */
module InstructionReference {
  import opened Registers
  import opened Instructions
  import opened BitwiseMeaning
  import opened MultiByte

  // ----- Bits and flags -----

  /** Z and N of a result; the other flags stay. */
  function Signs(s: Status, v: Byte): Status {
    s.(z := if v == 0 then 1 else 0, n := if v >= 0x80 then 1 else 0)
  }

  function Flag(b: bool): Bit {
    if b then 1 else 0
  }

  predicate Conjunction(a: Byte, x: Byte, y: Byte) {
    forall k :: 0 <= k < 8 ==> (BitAt(a, k) == 1 <==> BitAt(x, k) == 1 && BitAt(y, k) == 1)
  }

  predicate Disjunction(a: Byte, x: Byte, y: Byte) {
    forall k :: 0 <= k < 8 ==> (BitAt(a, k) == 1 <==> BitAt(x, k) == 1 || BitAt(y, k) == 1)
  }

  predicate Difference(a: Byte, x: Byte, y: Byte) {
    forall k :: 0 <= k < 8 ==> (BitAt(a, k) == 1 <==> BitAt(x, k) != BitAt(y, k))
  }

  /** No bit is set in both. */
  predicate Disjoint(x: Byte, y: Byte) {
    forall k :: 0 <= k < 8 ==> BitAt(x, k) == 0 || BitAt(y, k) == 0
  }

  /** The registers compared with PC left aside. */
  predicate Leaves(r': Regs, r: Regs) {
    r' == r.(pc := r'.pc)
  }

  // ----- Addition and subtraction -----

  predicate DecimalOn(r: Regs) {
    r.sr.d == 1 && !r.decimalDisabled
  }

  /** The 9-bit sum with carry, V when the signed sum is out of range. */
  predicate BinarySum(r: Regs, v: Byte, r': Regs) {
    var total := r.a + v + r.sr.c;
    var signed := Signed(r.a) + Signed(v) + r.sr.c;
    && r'.a == total % 0x100
    && Leaves(r', r.(a := r'.a, sr := Signs(r.sr, r'.a).(c := Flag(total >= 0x100), v := Flag(signed < -128 || signed > 127))))
  }

  predicate BinaryDifference(r: Regs, v: Byte, r': Regs) {
    var total := r.a - v - (1 - r.sr.c);
    var signed := Signed(r.a) - Signed(v) - (1 - r.sr.c);
    && r'.a == total % 0x100
    && Leaves(r', r.(a := r'.a, sr := Signs(r.sr, r'.a).(c := Flag(total >= 0), v := Flag(signed < -128 || signed > 127))))
  }

  /** In decimal Z is that of the binary sum, N and V see the sum once its low digit is corrected. */
  predicate DecimalSum(r: Regs, v: Byte, r': Regs) {
    var total := r.a + v + r.sr.c;
    var half := if r.a % 0x10 + v % 0x10 + r.sr.c > 9 then total + 6 else total;
    var full := if half > 0x99 then half + 0x60 else half;
    var n := half / 0x80 % 2;
    && Leaves(r', r.(a := full % 0x100,
                     sr := r.sr.(z := Flag(total % 0x100 == 0), n := n, c := Flag(full > 0x99),
                                 v := Flag(r.a / 0x80 == v / 0x80 && r.a / 0x80 != n))))
    && (IsBcd(r.a) && IsBcd(v) ==> IsBcd(r'.a) && Bcd(r'.a) + 100 * r'.sr.c == Bcd(r.a) + Bcd(v) + r.sr.c)
  }

  /** In decimal every flag but C is that of the binary difference. */
  predicate DecimalDifference(r: Regs, v: Byte, r': Regs) {
    var total := r.a - v - (1 - r.sr.c);
    var signed := Signed(r.a) - Signed(v) - (1 - r.sr.c);
    var half := if r.a % 0x10 - (1 - r.sr.c) < v % 0x10 then total - 6 else total;
    var full := if half % 0x1_0000 > 0x99 then half % 0x1_0000 - 0x60 else half % 0x1_0000;
    && Leaves(r', r.(a := full % 0x100,
                     sr := Signs(r.sr, total % 0x100).(c := Flag(full < 0x100), v := Flag(signed < -128 || signed > 127))))
    && (IsBcd(r.a) && IsBcd(v) ==> IsBcd(r'.a) && Bcd(r'.a) == Bcd(r.a) - Bcd(v) - (1 - r.sr.c) + 100 * (1 - r'.sr.c))
  }

  /** C is the unsigned order, Z equality, N bit 7 of the difference. */
  function Compared(s: Status, reg: Byte, v: Byte): Status {
    s.(c := Flag(reg >= v), z := Flag(reg == v), n := Flag((reg - v) % 0x100 >= 0x80))
  }

  // ----- Loads -----

  /** The registers after an operation has been given the byte `v`. */
  predicate LoadResult(op: LoadOp, r: Regs, v: Byte, r': Regs) {
    match op
    case LDA => Leaves(r', r.(a := v, sr := Signs(r.sr, v)))
    case LDX => Leaves(r', r.(x := v, sr := Signs(r.sr, v)))
    case LDY => Leaves(r', r.(y := v, sr := Signs(r.sr, v)))
    case LAX => Leaves(r', r.(a := v, x := v, sr := Signs(r.sr, v)))
    case AND => Conjunction(r'.a, r.a, v) && Leaves(r', r.(a := r'.a, sr := Signs(r.sr, r'.a)))
    case ORA => Disjunction(r'.a, r.a, v) && Leaves(r', r.(a := r'.a, sr := Signs(r.sr, r'.a)))
    case EOR => Difference(r'.a, r.a, v) && Leaves(r', r.(a := r'.a, sr := Signs(r.sr, r'.a)))
    case ADC => if DecimalOn(r) then DecimalSum(r, v, r') else BinarySum(r, v, r')
    case SBC => if DecimalOn(r) then DecimalDifference(r, v, r') else BinaryDifference(r, v, r')
    case CMP => Leaves(r', r.(sr := Compared(r.sr, r.a, v)))
    case CPX => Leaves(r', r.(sr := Compared(r.sr, r.x, v)))
    case CPY => Leaves(r', r.(sr := Compared(r.sr, r.y, v)))
    case BIT =>
      Leaves(r', r.(sr := r.sr.(z := Flag(Disjoint(v, r.a)), n := Flag(v >= 0x80), v := Flag(v % 0x80 >= 0x40))))
    case NOPR => Leaves(r', r)
    case ANC => Conjunction(r'.a, r.a, v) && Leaves(r', r.(a := r'.a, sr := Signs(r.sr, r'.a).(c := Flag(r'.a >= 0x80))))
    case ALR =>
      var t := And(r.a, v);
      Leaves(r', r.(a := t / 2, sr := Signs(r.sr, t / 2).(c := t % 2)))
    case ARR =>
      var a := And(r.a, v) / 2 + 0x80 * r.sr.c;
      Leaves(r', r.(a := a, sr := Signs(r.sr, a).(c := a / 0x40 % 2, v := Flag(a / 0x40 % 2 != a / 0x20 % 2))))
    case SBX =>
      var t := And(r.a, r.x);
      Leaves(r', r.(x := (t - v) % 0x100, sr := Signs(r.sr, (t - v) % 0x100).(c := Flag(t >= v))))
    case LAS =>
      var t := And(v, r.sp);
      Leaves(r', r.(a := t, x := t, sp := t, sr := Signs(r.sr, t)))
    case XAA =>
      var a := And(And(Or(r.a, 0xEE), r.x), v);
      Leaves(r', r.(a := a, sr := Signs(r.sr, a)))
  }

  // ----- Stores and read-modify-write -----

  predicate Stored(op: StoreOp, r: Regs, v: Byte) {
    match op
    case STA => v == r.a
    case STX => v == r.x
    case STY => v == r.y
    case SAX => Conjunction(v, r.a, r.x)
  }

  /** The byte put back. */
  function NewByte(op: ModifyOp, c: Bit, orig: Byte): Byte {
    match op
    case ASL | SLO => 2 * orig % 0x100
    case ROL | RLA => (2 * orig + c) % 0x100
    case LSR | SRE => orig / 2
    case ROR | RRA => orig / 2 + 0x80 * c
    case INC | ISC => (orig + 1) % 0x100
    case DEC | DCP => (orig + 0xff) % 0x100
  }

  /** The bit a shift or rotate pushes out; counting leaves carry alone. */
  function NewCarry(op: ModifyOp, c: Bit, orig: Byte): Bit {
    match op
    case ASL | SLO | ROL | RLA => Flag(orig >= 0x80)
    case LSR | SRE | ROR | RRA => orig % 2
    case INC | ISC | DEC | DCP => c
  }

  /** The registers after the byte `orig` has become `v`; the fused operations go on with A. */
  predicate ModifyResult(op: ModifyOp, r: Regs, orig: Byte, v: Byte, r': Regs) {
    v == NewByte(op, r.sr.c, orig) && Finish(op, r.(sr := r.sr.(c := NewCarry(op, r.sr.c, orig))), v, r')
  }

  predicate Finish(op: ModifyOp, r: Regs, v: Byte, r': Regs) {
    match op
    case ASL | LSR | ROL | ROR | INC | DEC => Leaves(r', r.(sr := Signs(r.sr, v)))
    case SLO => LoadResult(ORA, r, v, r')
    case RLA => LoadResult(AND, r, v, r')
    case SRE => LoadResult(EOR, r, v, r')
    case RRA => LoadResult(ADC, r, v, r')
    case DCP => LoadResult(CMP, r, v, r')
    case ISC => LoadResult(SBC, r, v, r')
  }

  // ----- Registers and flags -----

  predicate RegisterResult(op: RegisterOp, r: Regs, r': Regs) {
    match op
    case CLC => Leaves(r', r.(sr := r.sr.(c := 0)))
    case SEC => Leaves(r', r.(sr := r.sr.(c := 1)))
    case CLD => Leaves(r', r.(sr := r.sr.(d := 0)))
    case SED => Leaves(r', r.(sr := r.sr.(d := 1)))
    case CLI => Leaves(r', r.(sr := r.sr.(i := 0)))
    case SEI => Leaves(r', r.(sr := r.sr.(i := 1)))
    case CLV => Leaves(r', r.(sr := r.sr.(v := 0)))
    case INX => Leaves(r', r.(x := (r.x + 1) % 0x100, sr := Signs(r.sr, (r.x + 1) % 0x100)))
    case INY => Leaves(r', r.(y := (r.y + 1) % 0x100, sr := Signs(r.sr, (r.y + 1) % 0x100)))
    case DEX => Leaves(r', r.(x := (r.x + 0xff) % 0x100, sr := Signs(r.sr, (r.x + 0xff) % 0x100)))
    case DEY => Leaves(r', r.(y := (r.y + 0xff) % 0x100, sr := Signs(r.sr, (r.y + 0xff) % 0x100)))
    case TAX => Leaves(r', r.(x := r.a, sr := Signs(r.sr, r.a)))
    case TAY => Leaves(r', r.(y := r.a, sr := Signs(r.sr, r.a)))
    case TXA => Leaves(r', r.(a := r.x, sr := Signs(r.sr, r.x)))
    case TYA => Leaves(r', r.(a := r.y, sr := Signs(r.sr, r.y)))
    case TSX => Leaves(r', r.(x := r.sp, sr := Signs(r.sr, r.sp)))
    case TXS => Leaves(r', r.(sp := r.x))
    case KIL => Leaves(r', r)
  }

  // ----- Branches -----

  /** The flag a branch opcode looks at, by its two top bits. */
  function BranchFlag(code: Byte, s: Status): Bit {
    match code / 0x40
    case 0 => s.n
    case 1 => s.v
    case 2 => s.c
    case _ => s.z
  }

  /** A displacement counts in two's complement from the next instruction. */
  function Displaced(next: Word, displacement: Byte): Word {
    (next + displacement - if displacement >= 0x80 then 0x100 else 0) % 0x1_0000
  }

  // ----- The stack and the status byte -----

  /** The status byte, N in bit 7 down to C in bit 0. */
  function StatusByte(s: Status): Byte {
    0x80 * s.n + 0x40 * s.v + 0x20 * s.u + 0x10 * s.b + 8 * s.d + 4 * s.i + 2 * s.z + s.c
  }

  /** What is pushed: bit 5 always set, B telling an instruction from a hardware interrupt. */
  function PushedStatus(s: Status, b: Bit): Byte {
    StatusByte(s.(u := 1, b := b))
  }

  /** What a pulled byte makes of the status: B does not exist, bit 5 reads as set. */
  function PulledStatus(v: Byte): Status {
    Status(v / 0x80 % 2, v / 0x40 % 2, 1, 0, v / 8 % 2, v / 4 % 2, v / 2 % 2, v % 2)
  }

  /** The cell `k` places above the stack pointer. */
  function Above(sp: Byte, k: int): Word {
    0x100 + (sp + k) % 0x100
  }

  function JoinBytes(lo: Byte, hi: Byte): Word {
    lo + 0x100 * hi
  }
}
