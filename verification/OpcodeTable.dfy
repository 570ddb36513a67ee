/**
 The opcode matrix (src/Processor.cpp), sixteen rows of sixteen: operation, addressing
 mode and base cost of all 256 opcodes.
 */
module OpcodeTable {
  import opened Registers
  import opened Addressing
  import opened Instructions

  datatype Opcode = Opcode(op: Op, mode: Mode, cycles: nat)

  function Decode(code: Byte): Opcode {
    match code / 0x10
    case 0x0 => Row0(code % 0x10)
    case 0x1 => Row1(code % 0x10)
    case 0x2 => Row2(code % 0x10)
    case 0x3 => Row3(code % 0x10)
    case 0x4 => Row4(code % 0x10)
    case 0x5 => Row5(code % 0x10)
    case 0x6 => Row6(code % 0x10)
    case 0x7 => Row7(code % 0x10)
    case 0x8 => Row8(code % 0x10)
    case 0x9 => Row9(code % 0x10)
    case 0xA => RowA(code % 0x10)
    case 0xB => RowB(code % 0x10)
    case 0xC => RowC(code % 0x10)
    case 0xD => RowD(code % 0x10)
    case 0xE => RowE(code % 0x10)
    case _   => RowF(code % 0x10)
  }

  function Row0(column: Byte): Opcode {
    match column
    case 0x0 => Opcode(Control(BRK), NullMode, 7)
    case 0x1 => Opcode(Loading(ORA), IndirectX, 6)
    case 0x2 => Opcode(OnRegisters(KIL), NullMode, 3)
    case 0x3 => Opcode(Modifying(SLO), IndirectX, 8)
    case 0x4 => Opcode(Loading(NOPR), ZeroPage, 3)
    case 0x5 => Opcode(Loading(ORA), ZeroPage, 3)
    case 0x6 => Opcode(Modifying(ASL), ZeroPage, 5)
    case 0x7 => Opcode(Modifying(SLO), ZeroPage, 5)
    case 0x8 => Opcode(Control(PHP), NullMode, 3)
    case 0x9 => Opcode(Loading(ORA), Immediate, 2)
    case 0xA => Opcode(Modifying(ASL), Accumulator, 2)
    case 0xB => Opcode(Loading(ANC), Immediate, 2)
    case 0xC => Opcode(Loading(NOPR), Absolute, 4)
    case 0xD => Opcode(Loading(ORA), Absolute, 4)
    case 0xE => Opcode(Modifying(ASL), Absolute, 6)
    case _   => Opcode(Modifying(SLO), Absolute, 6)
  }

  function Row1(column: Byte): Opcode {
    match column
    case 0x0 => Opcode(Branching(BPL), Relative, 2)
    case 0x1 => Opcode(Loading(ORA), IndirectY, 5)
    case 0x2 => Opcode(OnRegisters(KIL), NullMode, 3)
    case 0x3 => Opcode(Modifying(SLO), IndirectY, 8)
    case 0x4 => Opcode(Loading(NOPR), ZeroPageX, 4)
    case 0x5 => Opcode(Loading(ORA), ZeroPageX, 4)
    case 0x6 => Opcode(Modifying(ASL), ZeroPageX, 6)
    case 0x7 => Opcode(Modifying(SLO), ZeroPageX, 6)
    case 0x8 => Opcode(OnRegisters(CLC), NullMode, 2)
    case 0x9 => Opcode(Loading(ORA), AbsoluteY, 4)
    case 0xA => Opcode(Control(NOP), NullMode, 2)
    case 0xB => Opcode(Modifying(SLO), AbsoluteY, 7)
    case 0xC => Opcode(Loading(NOPR), AbsoluteX, 4)
    case 0xD => Opcode(Loading(ORA), AbsoluteX, 4)
    case 0xE => Opcode(Modifying(ASL), AbsoluteX, 7)
    case _   => Opcode(Modifying(SLO), AbsoluteX, 7)
  }

  function Row2(column: Byte): Opcode {
    match column
    case 0x0 => Opcode(Control(JSR), AbsConst, 6)
    case 0x1 => Opcode(Loading(AND), IndirectX, 6)
    case 0x2 => Opcode(OnRegisters(KIL), NullMode, 3)
    case 0x3 => Opcode(Modifying(RLA), IndirectX, 8)
    case 0x4 => Opcode(Loading(BIT), ZeroPage, 3)
    case 0x5 => Opcode(Loading(AND), ZeroPage, 3)
    case 0x6 => Opcode(Modifying(ROL), ZeroPage, 5)
    case 0x7 => Opcode(Modifying(RLA), ZeroPage, 5)
    case 0x8 => Opcode(Control(PLP), NullMode, 4)
    case 0x9 => Opcode(Loading(AND), Immediate, 2)
    case 0xA => Opcode(Modifying(ROL), Accumulator, 2)
    case 0xB => Opcode(Loading(ANC), Immediate, 2)
    case 0xC => Opcode(Loading(BIT), Absolute, 4)
    case 0xD => Opcode(Loading(AND), Absolute, 4)
    case 0xE => Opcode(Modifying(ROL), Absolute, 6)
    case _   => Opcode(Modifying(RLA), Absolute, 6)
  }

  function Row3(column: Byte): Opcode {
    match column
    case 0x0 => Opcode(Branching(BMI), Relative, 2)
    case 0x1 => Opcode(Loading(AND), IndirectY, 5)
    case 0x2 => Opcode(OnRegisters(KIL), NullMode, 3)
    case 0x3 => Opcode(Modifying(RLA), IndirectY, 8)
    case 0x4 => Opcode(Loading(NOPR), ZeroPageX, 4)
    case 0x5 => Opcode(Loading(AND), ZeroPageX, 4)
    case 0x6 => Opcode(Modifying(ROL), ZeroPageX, 6)
    case 0x7 => Opcode(Modifying(RLA), ZeroPageX, 6)
    case 0x8 => Opcode(OnRegisters(SEC), NullMode, 2)
    case 0x9 => Opcode(Loading(AND), AbsoluteY, 4)
    case 0xA => Opcode(Control(NOP), NullMode, 2)
    case 0xB => Opcode(Modifying(RLA), AbsoluteY, 7)
    case 0xC => Opcode(Loading(NOPR), AbsoluteX, 4)
    case 0xD => Opcode(Loading(AND), AbsoluteX, 4)
    case 0xE => Opcode(Modifying(ROL), AbsoluteX, 7)
    case _   => Opcode(Modifying(RLA), AbsoluteX, 7)
  }

  function Row4(column: Byte): Opcode {
    match column
    case 0x0 => Opcode(Control(RTI), NullMode, 6)
    case 0x1 => Opcode(Loading(EOR), IndirectX, 6)
    case 0x2 => Opcode(OnRegisters(KIL), NullMode, 3)
    case 0x3 => Opcode(Modifying(SRE), IndirectX, 8)
    case 0x4 => Opcode(Loading(NOPR), ZeroPage, 3)
    case 0x5 => Opcode(Loading(EOR), ZeroPage, 3)
    case 0x6 => Opcode(Modifying(LSR), ZeroPage, 5)
    case 0x7 => Opcode(Modifying(SRE), ZeroPage, 5)
    case 0x8 => Opcode(Control(PHA), NullMode, 3)
    case 0x9 => Opcode(Loading(EOR), Immediate, 2)
    case 0xA => Opcode(Modifying(LSR), Accumulator, 2)
    case 0xB => Opcode(Loading(ALR), Immediate, 2)
    case 0xC => Opcode(Control(JMP), AbsConst, 3)
    case 0xD => Opcode(Loading(EOR), Absolute, 4)
    case 0xE => Opcode(Modifying(LSR), Absolute, 6)
    case _   => Opcode(Modifying(SRE), Absolute, 6)
  }

  function Row5(column: Byte): Opcode {
    match column
    case 0x0 => Opcode(Branching(BVC), Relative, 2)
    case 0x1 => Opcode(Loading(EOR), IndirectY, 5)
    case 0x2 => Opcode(OnRegisters(KIL), NullMode, 3)
    case 0x3 => Opcode(Modifying(SRE), IndirectY, 8)
    case 0x4 => Opcode(Loading(NOPR), ZeroPageX, 4)
    case 0x5 => Opcode(Loading(EOR), ZeroPageX, 4)
    case 0x6 => Opcode(Modifying(LSR), ZeroPageX, 6)
    case 0x7 => Opcode(Modifying(SRE), ZeroPageX, 6)
    case 0x8 => Opcode(OnRegisters(CLI), NullMode, 2)
    case 0x9 => Opcode(Loading(EOR), AbsoluteY, 4)
    case 0xA => Opcode(Control(NOP), NullMode, 2)
    case 0xB => Opcode(Modifying(SRE), AbsoluteY, 7)
    case 0xC => Opcode(Loading(NOPR), AbsoluteX, 4)
    case 0xD => Opcode(Loading(EOR), AbsoluteX, 4)
    case 0xE => Opcode(Modifying(LSR), AbsoluteX, 7)
    case _   => Opcode(Modifying(SRE), AbsoluteX, 7)
  }

  function Row6(column: Byte): Opcode {
    match column
    case 0x0 => Opcode(Control(RTS), NullMode, 6)
    case 0x1 => Opcode(Loading(ADC), IndirectX, 6)
    case 0x2 => Opcode(OnRegisters(KIL), NullMode, 3)
    case 0x3 => Opcode(Modifying(RRA), IndirectX, 8)
    case 0x4 => Opcode(Loading(NOPR), ZeroPage, 3)
    case 0x5 => Opcode(Loading(ADC), ZeroPage, 3)
    case 0x6 => Opcode(Modifying(ROR), ZeroPage, 5)
    case 0x7 => Opcode(Modifying(RRA), ZeroPage, 5)
    case 0x8 => Opcode(Control(PLA), NullMode, 4)
    case 0x9 => Opcode(Loading(ADC), Immediate, 2)
    case 0xA => Opcode(Modifying(ROR), Accumulator, 2)
    case 0xB => Opcode(Loading(ARR), Immediate, 2)
    case 0xC => Opcode(Control(JMP), Indirect, 5)
    case 0xD => Opcode(Loading(ADC), Absolute, 4)
    case 0xE => Opcode(Modifying(ROR), Absolute, 6)
    case _   => Opcode(Modifying(RRA), Absolute, 6)
  }

  function Row7(column: Byte): Opcode {
    match column
    case 0x0 => Opcode(Branching(BVS), Relative, 2)
    case 0x1 => Opcode(Loading(ADC), IndirectY, 5)
    case 0x2 => Opcode(OnRegisters(KIL), NullMode, 3)
    case 0x3 => Opcode(Modifying(RRA), IndirectY, 8)
    case 0x4 => Opcode(Loading(NOPR), ZeroPageX, 4)
    case 0x5 => Opcode(Loading(ADC), ZeroPageX, 4)
    case 0x6 => Opcode(Modifying(ROR), ZeroPageX, 6)
    case 0x7 => Opcode(Modifying(RRA), ZeroPageX, 6)
    case 0x8 => Opcode(OnRegisters(SEI), NullMode, 2)
    case 0x9 => Opcode(Loading(ADC), AbsoluteY, 4)
    case 0xA => Opcode(Control(NOP), NullMode, 2)
    case 0xB => Opcode(Modifying(RRA), AbsoluteY, 7)
    case 0xC => Opcode(Loading(NOPR), AbsoluteX, 4)
    case 0xD => Opcode(Loading(ADC), AbsoluteX, 4)
    case 0xE => Opcode(Modifying(ROR), AbsoluteX, 7)
    case _   => Opcode(Modifying(RRA), AbsoluteX, 7)
  }

  function Row8(column: Byte): Opcode {
    match column
    case 0x0 => Opcode(Control(NOP), Immediate, 2)
    case 0x1 => Opcode(Storing(STA), IndirectX, 6)
    case 0x2 => Opcode(Control(NOP), Immediate, 2)
    case 0x3 => Opcode(Storing(SAX), IndirectX, 6)
    case 0x4 => Opcode(Storing(STY), ZeroPage, 3)
    case 0x5 => Opcode(Storing(STA), ZeroPage, 3)
    case 0x6 => Opcode(Storing(STX), ZeroPage, 3)
    case 0x7 => Opcode(Storing(SAX), ZeroPage, 3)
    case 0x8 => Opcode(OnRegisters(DEY), NullMode, 2)
    case 0x9 => Opcode(Control(NOP), Immediate, 2)
    case 0xA => Opcode(OnRegisters(TXA), NullMode, 2)
    case 0xB => Opcode(Loading(XAA), Immediate, 2)
    case 0xC => Opcode(Storing(STY), Absolute, 4)
    case 0xD => Opcode(Storing(STA), Absolute, 4)
    case 0xE => Opcode(Storing(STX), Absolute, 4)
    case _   => Opcode(Storing(SAX), Absolute, 4)
  }

  function Row9(column: Byte): Opcode {
    match column
    case 0x0 => Opcode(Branching(BCC), Relative, 2)
    case 0x1 => Opcode(Storing(STA), IndirectY, 6)
    case 0x2 => Opcode(OnRegisters(KIL), NullMode, 3)
    case 0x3 => Opcode(Unstable(SHA), IndirectY, 6)
    case 0x4 => Opcode(Storing(STY), ZeroPageX, 4)
    case 0x5 => Opcode(Storing(STA), ZeroPageX, 4)
    case 0x6 => Opcode(Storing(STX), ZeroPageY, 4)
    case 0x7 => Opcode(Storing(SAX), ZeroPageY, 4)
    case 0x8 => Opcode(OnRegisters(TYA), NullMode, 2)
    case 0x9 => Opcode(Storing(STA), AbsoluteY, 5)
    case 0xA => Opcode(OnRegisters(TXS), NullMode, 2)
    case 0xB => Opcode(Unstable(TAS), AbsoluteY, 5)
    case 0xC => Opcode(Unstable(SHY), AbsoluteX, 5)
    case 0xD => Opcode(Storing(STA), AbsoluteX, 5)
    case 0xE => Opcode(Unstable(SHX), AbsoluteY, 5)
    case _   => Opcode(Unstable(SHA), AbsoluteY, 5)
  }

  function RowA(column: Byte): Opcode {
    match column
    case 0x0 => Opcode(Loading(LDY), Immediate, 2)
    case 0x1 => Opcode(Loading(LDA), IndirectX, 6)
    case 0x2 => Opcode(Loading(LDX), Immediate, 2)
    case 0x3 => Opcode(Loading(LAX), IndirectX, 6)
    case 0x4 => Opcode(Loading(LDY), ZeroPage, 3)
    case 0x5 => Opcode(Loading(LDA), ZeroPage, 3)
    case 0x6 => Opcode(Loading(LDX), ZeroPage, 3)
    case 0x7 => Opcode(Loading(LAX), ZeroPage, 3)
    case 0x8 => Opcode(OnRegisters(TAY), NullMode, 2)
    case 0x9 => Opcode(Loading(LDA), Immediate, 2)
    case 0xA => Opcode(OnRegisters(TAX), NullMode, 2)
    case 0xB => Opcode(Loading(LAX), Immediate, 2)
    case 0xC => Opcode(Loading(LDY), Absolute, 4)
    case 0xD => Opcode(Loading(LDA), Absolute, 4)
    case 0xE => Opcode(Loading(LDX), Absolute, 4)
    case _   => Opcode(Loading(LAX), Absolute, 4)
  }

  function RowB(column: Byte): Opcode {
    match column
    case 0x0 => Opcode(Branching(BCS), Relative, 2)
    case 0x1 => Opcode(Loading(LDA), IndirectY, 5)
    case 0x2 => Opcode(OnRegisters(KIL), NullMode, 3)
    case 0x3 => Opcode(Loading(LAX), IndirectY, 5)
    case 0x4 => Opcode(Loading(LDY), ZeroPageX, 4)
    case 0x5 => Opcode(Loading(LDA), ZeroPageX, 4)
    case 0x6 => Opcode(Loading(LDX), ZeroPageY, 4)
    case 0x7 => Opcode(Loading(LAX), ZeroPageY, 4)
    case 0x8 => Opcode(OnRegisters(CLV), NullMode, 2)
    case 0x9 => Opcode(Loading(LDA), AbsoluteY, 4)
    case 0xA => Opcode(OnRegisters(TSX), NullMode, 2)
    case 0xB => Opcode(Loading(LAS), AbsoluteY, 4)
    case 0xC => Opcode(Loading(LDY), AbsoluteX, 4)
    case 0xD => Opcode(Loading(LDA), AbsoluteX, 4)
    case 0xE => Opcode(Loading(LDX), AbsoluteY, 4)
    case _   => Opcode(Loading(LAX), AbsoluteY, 4)
  }

  function RowC(column: Byte): Opcode {
    match column
    case 0x0 => Opcode(Loading(CPY), Immediate, 2)
    case 0x1 => Opcode(Loading(CMP), IndirectX, 6)
    case 0x2 => Opcode(Control(NOP), Immediate, 2)
    case 0x3 => Opcode(Modifying(DCP), IndirectX, 8)
    case 0x4 => Opcode(Loading(CPY), ZeroPage, 3)
    case 0x5 => Opcode(Loading(CMP), ZeroPage, 3)
    case 0x6 => Opcode(Modifying(DEC), ZeroPage, 5)
    case 0x7 => Opcode(Modifying(DCP), ZeroPage, 5)
    case 0x8 => Opcode(OnRegisters(INY), NullMode, 2)
    case 0x9 => Opcode(Loading(CMP), Immediate, 2)
    case 0xA => Opcode(OnRegisters(DEX), NullMode, 2)
    case 0xB => Opcode(Loading(SBX), Immediate, 2)
    case 0xC => Opcode(Loading(CPY), Absolute, 4)
    case 0xD => Opcode(Loading(CMP), Absolute, 4)
    case 0xE => Opcode(Modifying(DEC), Absolute, 6)
    case _   => Opcode(Modifying(DCP), Absolute, 6)
  }

  function RowD(column: Byte): Opcode {
    match column
    case 0x0 => Opcode(Branching(BNE), Relative, 2)
    case 0x1 => Opcode(Loading(CMP), IndirectY, 5)
    case 0x2 => Opcode(OnRegisters(KIL), NullMode, 3)
    case 0x3 => Opcode(Modifying(DCP), IndirectY, 8)
    case 0x4 => Opcode(Loading(NOPR), ZeroPageX, 4)
    case 0x5 => Opcode(Loading(CMP), ZeroPageX, 4)
    case 0x6 => Opcode(Modifying(DEC), ZeroPageX, 6)
    case 0x7 => Opcode(Modifying(DCP), ZeroPageX, 6)
    case 0x8 => Opcode(OnRegisters(CLD), NullMode, 2)
    case 0x9 => Opcode(Loading(CMP), AbsoluteY, 4)
    case 0xA => Opcode(Control(NOP), NullMode, 2)
    case 0xB => Opcode(Modifying(DCP), AbsoluteY, 7)
    case 0xC => Opcode(Loading(NOPR), AbsoluteX, 4)
    case 0xD => Opcode(Loading(CMP), AbsoluteX, 4)
    case 0xE => Opcode(Modifying(DEC), AbsoluteX, 7)
    case _   => Opcode(Modifying(DCP), AbsoluteX, 7)
  }

  function RowE(column: Byte): Opcode {
    match column
    case 0x0 => Opcode(Loading(CPX), Immediate, 2)
    case 0x1 => Opcode(Loading(SBC), IndirectX, 6)
    case 0x2 => Opcode(Control(NOP), Immediate, 2)
    case 0x3 => Opcode(Modifying(ISC), IndirectX, 8)
    case 0x4 => Opcode(Loading(CPX), ZeroPage, 3)
    case 0x5 => Opcode(Loading(SBC), ZeroPage, 3)
    case 0x6 => Opcode(Modifying(INC), ZeroPage, 5)
    case 0x7 => Opcode(Modifying(ISC), ZeroPage, 5)
    case 0x8 => Opcode(OnRegisters(INX), NullMode, 2)
    case 0x9 => Opcode(Loading(SBC), Immediate, 2)
    case 0xA => Opcode(Control(NOP), NullMode, 2)
    case 0xB => Opcode(Loading(SBC), Immediate, 2)
    case 0xC => Opcode(Loading(CPX), Absolute, 4)
    case 0xD => Opcode(Loading(SBC), Absolute, 4)
    case 0xE => Opcode(Modifying(INC), Absolute, 6)
    case _   => Opcode(Modifying(ISC), Absolute, 6)
  }

  function RowF(column: Byte): Opcode {
    match column
    case 0x0 => Opcode(Branching(BEQ), Relative, 2)
    case 0x1 => Opcode(Loading(SBC), IndirectY, 5)
    case 0x2 => Opcode(OnRegisters(KIL), NullMode, 3)
    case 0x3 => Opcode(Modifying(ISC), IndirectY, 8)
    case 0x4 => Opcode(Loading(NOPR), ZeroPageX, 4)
    case 0x5 => Opcode(Loading(SBC), ZeroPageX, 4)
    case 0x6 => Opcode(Modifying(INC), ZeroPageX, 6)
    case 0x7 => Opcode(Modifying(ISC), ZeroPageX, 6)
    case 0x8 => Opcode(OnRegisters(SED), NullMode, 2)
    case 0x9 => Opcode(Loading(SBC), AbsoluteY, 4)
    case 0xA => Opcode(Control(NOP), NullMode, 2)
    case 0xB => Opcode(Modifying(ISC), AbsoluteY, 7)
    case 0xC => Opcode(Loading(NOPR), AbsoluteX, 4)
    case 0xD => Opcode(Loading(SBC), AbsoluteX, 4)
    case 0xE => Opcode(Modifying(INC), AbsoluteX, 7)
    case _   => Opcode(Modifying(ISC), AbsoluteX, 7)
  }
}
