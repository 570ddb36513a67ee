/**
 The disassembler (src/unasm.cpp): addressing modes reconstructed from the aaabbbcc bit
 fields of the opcode, operands printed in hexadecimal, branch displacements in signed
 decimal.
 */
module Disassembler {
  import opened Registers
  import opened Memory
  import opened Bus
  import opened Addressing
  import opened OpcodeTable
  import opened Mnemonics

  /** How the operand is written; the comma of an index is followed by a space in two of the four columns. */
  datatype Format =
    | Bare | LetterA | Immediate8 | Relative8 | Pointer16 | PointerX | PointerY
    | Zero | ZeroIndexed(index: Register, spaced: bool)
    | Wide | WideIndexed(index: Register, spaced: bool)
  {
    /** Operand bytes. */
    function Size(): nat {
      match this
      case Bare | LetterA => 0
      case Pointer16 | Wide | WideIndexed(_, _) => 2
      case _ => 1
    }

    /** The addressing mode the format stands for; jumps write their target as an absolute operand. */
    function Mode(): Mode {
      match this
      case Bare => NullMode
      case LetterA => Accumulator
      case Immediate8 => Immediate
      case Relative8 => Relative
      case Pointer16 => Indirect
      case PointerX => IndirectX
      case PointerY => IndirectY
      case Zero => ZeroPage
      case ZeroIndexed(r, _) => if r.X? then ZeroPageX else ZeroPageY
      case Wide => Absolute
      case WideIndexed(r, _) => if r.X? then AbsoluteX else AbsoluteY
    }
  }

  /** The nested switch over the fields of the opcode. */
  function FormatOf(code: Byte): Format {
    Layout(code / 0x20, code / 4 % 8, code % 4)
  }

  function Layout(a: nat, b: nat, c: nat): Format {
    var late := if a == 4 || a == 5 then Y else X;
    match c
    case 0 =>
      (match b
       case 0 => if a == 1 then Wide else if a < 4 then Bare else Immediate8
       case 1 => Zero
       case 2 => Bare
       case 3 => if a == 3 then Pointer16 else Wide
       case 4 => Relative8
       case 5 => ZeroIndexed(X, true)
       case 6 => Bare
       case _ => WideIndexed(X, true))
    case 1 =>
      (match b
       case 0 => PointerX
       case 1 => Zero
       case 2 => Immediate8
       case 3 => Wide
       case 4 => PointerY
       case 5 => ZeroIndexed(X, true)
       case 6 => WideIndexed(Y, true)
       case _ => WideIndexed(X, true))
    case 2 =>
      (match b
       case 0 => if a < 4 then Bare else Immediate8
       case 1 => Zero
       case 2 => if a < 4 then LetterA else Bare
       case 3 => Wide
       case 4 => Bare
       case 5 => ZeroIndexed(late, false)
       case 6 => Bare
       case _ => WideIndexed(late, false))
    case _ =>
      (match b
       case 0 => PointerX
       case 1 => Zero
       case 2 => Immediate8
       case 3 => Wide
       case 4 => PointerY
       case 5 => ZeroIndexed(late, false)
       case 6 => WideIndexed(Y, false)
       case _ => WideIndexed(late, false))
  }

  // ----- Text -----

  function HexDigit(d: nat): (c: char)
    requires d < 16
    ensures c == "0123456789abcdef"[d]
  {
    if d < 10 then '0' + d as char else 'a' + (d - 10) as char
  }

  function Hex2(b: Byte): string {
    [HexDigit(b / 0x10), HexDigit(b % 0x10)]
  }

  function Hex4(w: Word): string {
    Hex2(High(w)) + Hex2(Low(w))
  }

  function Decimal(n: nat): string {
    if n < 10 then ['0' + n as char] else Decimal(n / 10) + ['0' + (n % 10) as char]
  }

  /** A byte read as two's complement, printed with its sign. */
  function SignedDecimal(b: Byte): string {
    if b >= 0x80 then "-" + Decimal(0x100 - b) else Decimal(b)
  }

  function IndexText(index: Register, spaced: bool): string {
    (if spaced then ", " else ",") + index.Letter()
  }

  function OperandText(f: Format, lo: Byte, hi: Byte): string {
    match f
    case Bare => ""
    case LetterA => "A"
    case Immediate8 => "#$" + Hex2(lo)
    case Relative8 => SignedDecimal(lo)
    case Pointer16 => "($" + Hex4(Join(lo, hi)) + ")"
    case PointerX => "($" + Hex2(lo) + ",X)"
    case PointerY => "($" + Hex2(lo) + "),Y"
    case Zero => "$" + Hex2(lo)
    case ZeroIndexed(r, spaced) => "$" + Hex2(lo) + IndexText(r, spaced)
    case Wide => "$" + Hex4(Join(lo, hi))
    case WideIndexed(r, spaced) => "$" + Hex4(Join(lo, hi)) + IndexText(r, spaced)
  }

  /** One line of a listing; the operand bytes a format does not use are ignored. */
  function Line(code: Byte, lo: Byte, hi: Byte): string {
    var f := FormatOf(code);
    NameOf(code) + if f.Bare? then "" else " " + OperandText(f, lo, hi)
  }

  // ----- The method -----

  /** Operand bytes at `at`, low byte first; the second one is 0 when there is only one. */
  method TakeOperand(size: nat, bus: SystemBus, regs: RegisterFile) returns (lo: Byte, hi: Byte)
    requires bus.Valid() && size <= 2
    modifies bus, regs`pc
    ensures regs.pc == Wrap(old(regs.pc) + size)
    ensures size >= 1 ==> lo == old(bus.View()).Value(old(regs.pc))
    ensures size == 2 ==> hi == old(bus.View()).Read(old(regs.pc)).Value(Wrap(old(regs.pc) + 1))
    ensures bus.View() == match size
                          case 0 => old(bus.View())
                          case 1 => old(bus.View()).Read(old(regs.pc))
                          case _ => old(bus.View()).ReadPair(old(regs.pc), Wrap(old(regs.pc) + 1))
  {
    lo, hi := 0, 0;
    if size >= 1 {
      lo := bus.Read(regs.pc);
      if size == 2 {
        hi := bus.Read(Wrap(regs.pc + 1));
      }
    }
    regs.pc := Wrap(regs.pc + size);
  }

  /** The listing line for the instruction at an address. */
  function LineAt(image: Image, pc: Word): string {
    Line(Peek(image, pc), Peek(image, Wrap(pc + 1)), Peek(image, Wrap(pc + 2)))
  }

  /** The address after it. */
  function NextLine(image: Image, pc: Word): Word {
    Wrap(pc + 1 + FormatOf(Peek(image, pc)).Size())
  }

  /** What disassembling at an address reads: the opcode, then the operand bytes of its format. */
  function AfterLine(bus: BusState, pc: Word): BusState {
    var fetched := bus.Read(pc);
    match FormatOf(bus.Value(pc)).Size()
    case 0 => fetched
    case 1 => fetched.Read(Wrap(pc + 1))
    case _ => fetched.ReadPair(Wrap(pc + 1), Wrap(pc + 2))
  }

  /** The line those reads make, whatever device answers them. */
  function LineOn(bus: BusState, pc: Word): string {
    var fetched := bus.Read(pc);
    Line(bus.Value(pc), fetched.Value(Wrap(pc + 1)), fetched.Read(Wrap(pc + 1)).Value(Wrap(pc + 2)))
  }

  /** Disassemble at PC and advance PC past the instruction. */
  method UnasmLine(bus: SystemBus, regs: RegisterFile) returns (text: string)
    requires bus.Valid()
    modifies bus, regs`pc
    ensures text == LineOn(old(bus.View()), old(regs.pc))
    ensures bus.View() == AfterLine(old(bus.View()), old(regs.pc))
    ensures regs.pc == Wrap(old(regs.pc) + 1 + FormatOf(old(bus.View()).Value(old(regs.pc))).Size())
  {
    hide NameOf, FormatOf, OperandText, Peek, Wrap;
    ghost var fetched := bus.View().Read(regs.pc);
    var start: int := regs.pc;
    var at: int := start + 1;
    var code := bus.Read(regs.pc);
    regs.pc := Wrap(at);
    text := NameOf(code);
    var f := FormatOf(code);
    var lo, hi := TakeOperand(f.Size(), bus, regs);
    if !f.Bare? {
      text := text + " " + OperandText(f, lo, hi);
    }
    WrapTwice(at, 1);
    WrapTwice(at, f.Size());
    UnusedOperands(f, lo, hi, fetched.Value(Wrap(at)), fetched.Read(Wrap(at)).Value(Wrap(at + 1)));
  }

  /** On RAM the line and the next address are those of a listing, and the memory stays. */
  lemma LineOnRam(bus: BusState, pc: Word)
    requires bus.device.Ram?
    ensures LineOn(bus, pc) == LineAt(bus.device.image, pc)
    ensures Wrap(pc + 1 + FormatOf(bus.Value(pc)).Size()) == NextLine(bus.device.image, pc)
    ensures AfterLine(bus, pc).device == bus.device
  {
    hide FormatOf, Line, Peek;
  }

  lemma WrapTwice(n: int, k: int)
    ensures Wrap(Wrap(n) + k) == Wrap(n + k)
  {
  }

  /** Only as many operand bytes as the format has can matter to the text. */
  lemma UnusedOperands(f: Format, lo: Byte, hi: Byte, lo': Byte, hi': Byte)
    requires (f.Size() >= 1 ==> lo == lo') && (f.Size() == 2 ==> hi == hi')
    ensures OperandText(f, lo, hi) == OperandText(f, lo', hi')
  {
  }

  /** Indexed operands are written with a space after the comma in the first two of the four columns. */
  lemma SpacedColumns(code: Byte)
    ensures var f := FormatOf(code); (f.ZeroIndexed? || f.WideIndexed?) ==> (f.spaced <==> code % 4 < 2)
  {
  }

  // ----- Agreement with the processor -----

  /** Absolute jumps use their operand as the value itself. */
  function Normalised(mode: Mode): Mode {
    if mode.AbsConst? then Absolute else mode
  }

  /** The fields of an opcode in row `row` of the matrix. */
  lemma Fields(code: Byte, row: nat, b: nat, c: nat)
    requires code == 0x10 * row + 4 * b + c && b < 4 && c < 4
    ensures code / 0x10 == row && code % 0x10 == 4 * b + c
    ensures FormatOf(code) == Layout(row / 2, 4 * (row % 2) + b, c)
  {
    hide Layout;
    assert code / 4 == 4 * row + b;
  }

  /** For all 256 opcodes the bit fields decode to the addressing mode of the processor's table. */
  lemma FieldsAgreeWithTable(code: Byte)
    ensures FormatOf(code).Mode() == Normalised(Decode(code).mode)
    ensures FormatOf(code).Size() == Decode(code).mode.OperandLength()
  {
    Agreement(code, code / 0x10, code / 4 % 4, code % 4);
    hide FormatOf, Decode;
    SameLength(FormatOf(code));
  }

  lemma Agreement(code: Byte, row: nat, b: nat, c: nat)
    requires code == 0x10 * row + 4 * b + c && b < 4 && c < 4
    ensures FormatOf(code).Mode() == Normalised(Decode(code).mode)
  {
    hide Layout, FormatOf, Format.Mode, Normalised, Row0, Row1, Row2, Row3, Row4, Row5, Row6, Row7, Row8, Row9, RowA, RowB, RowC, RowD, RowE, RowF;
    Fields(code, row, b, c);
    match row
    case 0x0 => Row0Agrees(b, c);
    case 0x1 => Row1Agrees(b, c);
    case 0x2 => Row2Agrees(b, c);
    case 0x3 => Row3Agrees(b, c);
    case 0x4 => Row4Agrees(b, c);
    case 0x5 => Row5Agrees(b, c);
    case 0x6 => Row6Agrees(b, c);
    case 0x7 => Row7Agrees(b, c);
    case 0x8 => Row8Agrees(b, c);
    case 0x9 => Row9Agrees(b, c);
    case 0xA => RowAAgrees(b, c);
    case 0xB => RowBAgrees(b, c);
    case 0xC => RowCAgrees(b, c);
    case 0xD => RowDAgrees(b, c);
    case 0xE => RowEAgrees(b, c);
    case _   => RowFAgrees(b, c);
  }

  lemma SameLength(f: Format)
    ensures f.Mode().OperandLength() == f.Size()
    ensures !f.Mode().AbsConst?
  {
  }

  lemma Row0Agrees(b: nat, c: nat)
    requires b < 4 && c < 4
    ensures Layout(0, b, c).Mode() == Normalised(Row0(4 * b + c).mode)
  {
  }

  lemma Row1Agrees(b: nat, c: nat)
    requires b < 4 && c < 4
    ensures Layout(0, 4 + b, c).Mode() == Normalised(Row1(4 * b + c).mode)
  {
  }

  lemma Row2Agrees(b: nat, c: nat)
    requires b < 4 && c < 4
    ensures Layout(1, b, c).Mode() == Normalised(Row2(4 * b + c).mode)
  {
  }

  lemma Row3Agrees(b: nat, c: nat)
    requires b < 4 && c < 4
    ensures Layout(1, 4 + b, c).Mode() == Normalised(Row3(4 * b + c).mode)
  {
  }

  lemma Row4Agrees(b: nat, c: nat)
    requires b < 4 && c < 4
    ensures Layout(2, b, c).Mode() == Normalised(Row4(4 * b + c).mode)
  {
  }

  lemma Row5Agrees(b: nat, c: nat)
    requires b < 4 && c < 4
    ensures Layout(2, 4 + b, c).Mode() == Normalised(Row5(4 * b + c).mode)
  {
  }

  lemma Row6Agrees(b: nat, c: nat)
    requires b < 4 && c < 4
    ensures Layout(3, b, c).Mode() == Normalised(Row6(4 * b + c).mode)
  {
  }

  lemma Row7Agrees(b: nat, c: nat)
    requires b < 4 && c < 4
    ensures Layout(3, 4 + b, c).Mode() == Normalised(Row7(4 * b + c).mode)
  {
  }

  lemma Row8Agrees(b: nat, c: nat)
    requires b < 4 && c < 4
    ensures Layout(4, b, c).Mode() == Normalised(Row8(4 * b + c).mode)
  {
  }

  lemma Row9Agrees(b: nat, c: nat)
    requires b < 4 && c < 4
    ensures Layout(4, 4 + b, c).Mode() == Normalised(Row9(4 * b + c).mode)
  {
  }

  lemma RowAAgrees(b: nat, c: nat)
    requires b < 4 && c < 4
    ensures Layout(5, b, c).Mode() == Normalised(RowA(4 * b + c).mode)
  {
  }

  lemma RowBAgrees(b: nat, c: nat)
    requires b < 4 && c < 4
    ensures Layout(5, 4 + b, c).Mode() == Normalised(RowB(4 * b + c).mode)
  {
  }

  lemma RowCAgrees(b: nat, c: nat)
    requires b < 4 && c < 4
    ensures Layout(6, b, c).Mode() == Normalised(RowC(4 * b + c).mode)
  {
  }

  lemma RowDAgrees(b: nat, c: nat)
    requires b < 4 && c < 4
    ensures Layout(6, 4 + b, c).Mode() == Normalised(RowD(4 * b + c).mode)
  {
  }

  lemma RowEAgrees(b: nat, c: nat)
    requires b < 4 && c < 4
    ensures Layout(7, b, c).Mode() == Normalised(RowE(4 * b + c).mode)
  {
  }

  lemma RowFAgrees(b: nat, c: nat)
    requires b < 4 && c < 4
    ensures Layout(7, 4 + b, c).Mode() == Normalised(RowF(4 * b + c).mode)
  {
  }
}
