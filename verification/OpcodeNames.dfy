/**
 The opcode matrix against the disassembler's table of names (src/Processor.cpp,
 src/unasm.cpp): two tables written independently, which have to agree on what each of the
 256 opcodes does.
 */
module OpcodeNames {
  import opened Registers
  import opened Instructions
  import opened OpcodeTable
  import opened Mnemonics
  import opened Disassembler

  function NameOfLoad(op: LoadOp): string {
    match op
    case ADC => "ADC"
    case AND => "AND"
    case BIT => "BIT"
    case CMP => "CMP"
    case CPX => "CPX"
    case CPY => "CPY"
    case EOR => "EOR"
    case LDA => "LDA"
    case LDX => "LDX"
    case LDY => "LDY"
    case ORA => "ORA"
    case SBC => "SBC"
    case NOPR => "NOP"
    case LAX => "LAX"
    case ANC => "ANC"
    case ALR => "ALR"
    case ARR => "ARR"
    case SBX => "SBX"
    case LAS => "LAS"
    case XAA => "XAA"
  }

  function NameOfStore(op: StoreOp): string {
    match op
    case STA => "STA"
    case STX => "STX"
    case STY => "STY"
    case SAX => "SAX"
  }

  function NameOfModify(op: ModifyOp): string {
    match op
    case ASL => "ASL"
    case LSR => "LSR"
    case ROL => "ROL"
    case ROR => "ROR"
    case INC => "INC"
    case DEC => "DEC"
    case SLO => "SLO"
    case RLA => "RLA"
    case SRE => "SRE"
    case RRA => "RRA"
    case DCP => "DCP"
    case ISC => "ISC"
  }

  function NameOfBranch(op: BranchOp): string {
    match op
    case BCC => "BCC"
    case BCS => "BCS"
    case BEQ => "BEQ"
    case BMI => "BMI"
    case BNE => "BNE"
    case BPL => "BPL"
    case BVC => "BVC"
    case BVS => "BVS"
  }

  function NameOfRegister(op: RegisterOp): string {
    match op
    case CLC => "CLC"
    case CLD => "CLD"
    case CLI => "CLI"
    case CLV => "CLV"
    case SEC => "SEC"
    case SED => "SED"
    case SEI => "SEI"
    case DEX => "DEX"
    case DEY => "DEY"
    case INX => "INX"
    case INY => "INY"
    case TAX => "TAX"
    case TAY => "TAY"
    case TSX => "TSX"
    case TXA => "TXA"
    case TXS => "TXS"
    case TYA => "TYA"
    case KIL => "KIL"
  }

  function NameOfUnstable(op: UnstableOp): string {
    match op
    case SHA => "SHA"
    case SHX => "SHX"
    case SHY => "SHY"
    case TAS => "TAS"
  }

  function NameOfControl(op: ControlOp): string {
    match op
    case BRK => "BRK"
    case JMP => "JMP"
    case JSR => "JSR"
    case NOP => "NOP"
    case PHA => "PHA"
    case PHP => "PHP"
    case PLA => "PLA"
    case PLP => "PLP"
    case RTI => "RTI"
    case RTS => "RTS"
  }

  function NameOfOp(op: Op): string {
    match op
    case Loading(l) => NameOfLoad(l)
    case Storing(s) => NameOfStore(s)
    case Modifying(m) => NameOfModify(m)
    case Branching(b) => NameOfBranch(b)
    case OnRegisters(r) => NameOfRegister(r)
    case Unstable(u) => NameOfUnstable(u)
    case Control(c) => NameOfControl(c)
  }

  /** The operation goes by the listed name; the matrix gives $AB the immediate form of LAX, which listings call LXA. */
  predicate GoesBy(name: string, op: Op, code: int) {
    name == if code == 0xAB then "LXA" else NameOfOp(op)
  }

  /** For all 256 opcodes the processor performs the operation the disassembler names. */
  lemma TablesAgree(code: Byte)
    ensures NameOf(code) == if code == 0xAB then "LXA" else NameOfOp(Decode(code).op)
    ensures code == 0xAB ==> Decode(code).op == Loading(LAX)
  {
    SplitCode(code, code / 0x10, code / 4 % 4, code % 4);
  }

  lemma SplitCode(code: Byte, row: nat, b: nat, c: nat)
    requires code == 0x10 * row + 4 * b + c && b < 4 && c < 4
    ensures GoesBy(NameOf(code), Decode(code).op, code)
    ensures code == 0xAB ==> Decode(code).op == Loading(LAX)
  {
    hide GoesBy, NameOfOp, FormatOf, NameRow0, NameRow1, NameRow2, NameRow3, NameRow4, NameRow5, NameRow6, NameRow7, NameRow8, NameRow9, NameRowA, NameRowB, NameRowC, NameRowD, NameRowE, NameRowF;
    hide Row0, Row1, Row2, Row3, Row4, Row5, Row6, Row7, Row8, Row9, RowB, RowC, RowD, RowE, RowF;
    Fields(code, row, b, c);
    match row
    case 0x0 => NamesAgree0(4 * b + c);
    case 0x1 => NamesAgree1(4 * b + c);
    case 0x2 => NamesAgree2(4 * b + c);
    case 0x3 => NamesAgree3(4 * b + c);
    case 0x4 => NamesAgree4(4 * b + c);
    case 0x5 => NamesAgree5(4 * b + c);
    case 0x6 => NamesAgree6(4 * b + c);
    case 0x7 => NamesAgree7(4 * b + c);
    case 0x8 => NamesAgree8(4 * b + c);
    case 0x9 => NamesAgree9(4 * b + c);
    case 0xA => NamesAgreeA(4 * b + c);
    case 0xB => NamesAgreeB(4 * b + c);
    case 0xC => NamesAgreeC(4 * b + c);
    case 0xD => NamesAgreeD(4 * b + c);
    case 0xE => NamesAgreeE(4 * b + c);
    case _   => NamesAgreeF(4 * b + c);
  }

  lemma NamesAgree0(column: nat)
    requires column < 0x10
    ensures GoesBy(NameRow0(column), Row0(column).op, 0x00 + column)
  {
  }

  lemma NamesAgree1(column: nat)
    requires column < 0x10
    ensures GoesBy(NameRow1(column), Row1(column).op, 0x10 + column)
  {
  }

  lemma NamesAgree2(column: nat)
    requires column < 0x10
    ensures GoesBy(NameRow2(column), Row2(column).op, 0x20 + column)
  {
  }

  lemma NamesAgree3(column: nat)
    requires column < 0x10
    ensures GoesBy(NameRow3(column), Row3(column).op, 0x30 + column)
  {
  }

  lemma NamesAgree4(column: nat)
    requires column < 0x10
    ensures GoesBy(NameRow4(column), Row4(column).op, 0x40 + column)
  {
  }

  lemma NamesAgree5(column: nat)
    requires column < 0x10
    ensures GoesBy(NameRow5(column), Row5(column).op, 0x50 + column)
  {
  }

  lemma NamesAgree6(column: nat)
    requires column < 0x10
    ensures GoesBy(NameRow6(column), Row6(column).op, 0x60 + column)
  {
  }

  lemma NamesAgree7(column: nat)
    requires column < 0x10
    ensures GoesBy(NameRow7(column), Row7(column).op, 0x70 + column)
  {
  }

  lemma NamesAgree8(column: nat)
    requires column < 0x10
    ensures GoesBy(NameRow8(column), Row8(column).op, 0x80 + column)
  {
  }

  lemma NamesAgree9(column: nat)
    requires column < 0x10
    ensures GoesBy(NameRow9(column), Row9(column).op, 0x90 + column)
  {
  }

  lemma NamesAgreeA(column: nat)
    requires column < 0x10
    ensures GoesBy(NameRowA(column), RowA(column).op, 0xA0 + column)
  {
  }

  lemma NamesAgreeB(column: nat)
    requires column < 0x10
    ensures GoesBy(NameRowB(column), RowB(column).op, 0xB0 + column)
  {
  }

  lemma NamesAgreeC(column: nat)
    requires column < 0x10
    ensures GoesBy(NameRowC(column), RowC(column).op, 0xC0 + column)
  {
  }

  lemma NamesAgreeD(column: nat)
    requires column < 0x10
    ensures GoesBy(NameRowD(column), RowD(column).op, 0xD0 + column)
  {
  }

  lemma NamesAgreeE(column: nat)
    requires column < 0x10
    ensures GoesBy(NameRowE(column), RowE(column).op, 0xE0 + column)
  {
  }

  lemma NamesAgreeF(column: nat)
    requires column < 0x10
    ensures GoesBy(NameRowF(column), RowF(column).op, 0xF0 + column)
  {
  }
}
