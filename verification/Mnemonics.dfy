/**
 The vocabulary of assembly text: index registers, and the names of all 256 opcodes as the
 disassembler's table lists them (src/unasm.cpp).
 */
module Mnemonics {
  import opened Registers

  datatype Register = X | Y {
    function Letter(): string {
      if X? then "X" else "Y"
    }
  }

  function NameOf(code: Byte): string {
    match code / 0x10
    case 0x0 => NameRow0(code % 0x10)
    case 0x1 => NameRow1(code % 0x10)
    case 0x2 => NameRow2(code % 0x10)
    case 0x3 => NameRow3(code % 0x10)
    case 0x4 => NameRow4(code % 0x10)
    case 0x5 => NameRow5(code % 0x10)
    case 0x6 => NameRow6(code % 0x10)
    case 0x7 => NameRow7(code % 0x10)
    case 0x8 => NameRow8(code % 0x10)
    case 0x9 => NameRow9(code % 0x10)
    case 0xA => NameRowA(code % 0x10)
    case 0xB => NameRowB(code % 0x10)
    case 0xC => NameRowC(code % 0x10)
    case 0xD => NameRowD(code % 0x10)
    case 0xE => NameRowE(code % 0x10)
    case _   => NameRowF(code % 0x10)
  }

  function NameRow0(column: nat): string {
    match column
    case 0x0 => "BRK"
    case 0x1 => "ORA"
    case 0x2 => "KIL"
    case 0x3 => "SLO"
    case 0x4 => "NOP"
    case 0x5 => "ORA"
    case 0x6 => "ASL"
    case 0x7 => "SLO"
    case 0x8 => "PHP"
    case 0x9 => "ORA"
    case 0xA => "ASL"
    case 0xB => "ANC"
    case 0xC => "NOP"
    case 0xD => "ORA"
    case 0xE => "ASL"
    case _   => "SLO"
  }

  function NameRow1(column: nat): string {
    match column
    case 0x0 => "BPL"
    case 0x1 => "ORA"
    case 0x2 => "KIL"
    case 0x3 => "SLO"
    case 0x4 => "NOP"
    case 0x5 => "ORA"
    case 0x6 => "ASL"
    case 0x7 => "SLO"
    case 0x8 => "CLC"
    case 0x9 => "ORA"
    case 0xA => "NOP"
    case 0xB => "SLO"
    case 0xC => "NOP"
    case 0xD => "ORA"
    case 0xE => "ASL"
    case _   => "SLO"
  }

  function NameRow2(column: nat): string {
    match column
    case 0x0 => "JSR"
    case 0x1 => "AND"
    case 0x2 => "KIL"
    case 0x3 => "RLA"
    case 0x4 => "BIT"
    case 0x5 => "AND"
    case 0x6 => "ROL"
    case 0x7 => "RLA"
    case 0x8 => "PLP"
    case 0x9 => "AND"
    case 0xA => "ROL"
    case 0xB => "ANC"
    case 0xC => "BIT"
    case 0xD => "AND"
    case 0xE => "ROL"
    case _   => "RLA"
  }

  function NameRow3(column: nat): string {
    match column
    case 0x0 => "BMI"
    case 0x1 => "AND"
    case 0x2 => "KIL"
    case 0x3 => "RLA"
    case 0x4 => "NOP"
    case 0x5 => "AND"
    case 0x6 => "ROL"
    case 0x7 => "RLA"
    case 0x8 => "SEC"
    case 0x9 => "AND"
    case 0xA => "NOP"
    case 0xB => "RLA"
    case 0xC => "NOP"
    case 0xD => "AND"
    case 0xE => "ROL"
    case _   => "RLA"
  }

  function NameRow4(column: nat): string {
    match column
    case 0x0 => "RTI"
    case 0x1 => "EOR"
    case 0x2 => "KIL"
    case 0x3 => "SRE"
    case 0x4 => "NOP"
    case 0x5 => "EOR"
    case 0x6 => "LSR"
    case 0x7 => "SRE"
    case 0x8 => "PHA"
    case 0x9 => "EOR"
    case 0xA => "LSR"
    case 0xB => "ALR"
    case 0xC => "JMP"
    case 0xD => "EOR"
    case 0xE => "LSR"
    case _   => "SRE"
  }

  function NameRow5(column: nat): string {
    match column
    case 0x0 => "BVC"
    case 0x1 => "EOR"
    case 0x2 => "KIL"
    case 0x3 => "SRE"
    case 0x4 => "NOP"
    case 0x5 => "EOR"
    case 0x6 => "LSR"
    case 0x7 => "SRE"
    case 0x8 => "CLI"
    case 0x9 => "EOR"
    case 0xA => "NOP"
    case 0xB => "SRE"
    case 0xC => "NOP"
    case 0xD => "EOR"
    case 0xE => "LSR"
    case _   => "SRE"
  }

  function NameRow6(column: nat): string {
    match column
    case 0x0 => "RTS"
    case 0x1 => "ADC"
    case 0x2 => "KIL"
    case 0x3 => "RRA"
    case 0x4 => "NOP"
    case 0x5 => "ADC"
    case 0x6 => "ROR"
    case 0x7 => "RRA"
    case 0x8 => "PLA"
    case 0x9 => "ADC"
    case 0xA => "ROR"
    case 0xB => "ARR"
    case 0xC => "JMP"
    case 0xD => "ADC"
    case 0xE => "ROR"
    case _   => "RRA"
  }

  function NameRow7(column: nat): string {
    match column
    case 0x0 => "BVS"
    case 0x1 => "ADC"
    case 0x2 => "KIL"
    case 0x3 => "RRA"
    case 0x4 => "NOP"
    case 0x5 => "ADC"
    case 0x6 => "ROR"
    case 0x7 => "RRA"
    case 0x8 => "SEI"
    case 0x9 => "ADC"
    case 0xA => "NOP"
    case 0xB => "RRA"
    case 0xC => "NOP"
    case 0xD => "ADC"
    case 0xE => "ROR"
    case _   => "RRA"
  }

  function NameRow8(column: nat): string {
    match column
    case 0x0 => "NOP"
    case 0x1 => "STA"
    case 0x2 => "NOP"
    case 0x3 => "SAX"
    case 0x4 => "STY"
    case 0x5 => "STA"
    case 0x6 => "STX"
    case 0x7 => "SAX"
    case 0x8 => "DEY"
    case 0x9 => "NOP"
    case 0xA => "TXA"
    case 0xB => "XAA"
    case 0xC => "STY"
    case 0xD => "STA"
    case 0xE => "STX"
    case _   => "SAX"
  }

  function NameRow9(column: nat): string {
    match column
    case 0x0 => "BCC"
    case 0x1 => "STA"
    case 0x2 => "KIL"
    case 0x3 => "SHA"
    case 0x4 => "STY"
    case 0x5 => "STA"
    case 0x6 => "STX"
    case 0x7 => "SAX"
    case 0x8 => "TYA"
    case 0x9 => "STA"
    case 0xA => "TXS"
    case 0xB => "TAS"
    case 0xC => "SHY"
    case 0xD => "STA"
    case 0xE => "SHX"
    case _   => "SHA"
  }

  function NameRowA(column: nat): string {
    match column
    case 0x0 => "LDY"
    case 0x1 => "LDA"
    case 0x2 => "LDX"
    case 0x3 => "LAX"
    case 0x4 => "LDY"
    case 0x5 => "LDA"
    case 0x6 => "LDX"
    case 0x7 => "LAX"
    case 0x8 => "TAY"
    case 0x9 => "LDA"
    case 0xA => "TAX"
    case 0xB => "LXA"
    case 0xC => "LDY"
    case 0xD => "LDA"
    case 0xE => "LDX"
    case _   => "LAX"
  }

  function NameRowB(column: nat): string {
    match column
    case 0x0 => "BCS"
    case 0x1 => "LDA"
    case 0x2 => "KIL"
    case 0x3 => "LAX"
    case 0x4 => "LDY"
    case 0x5 => "LDA"
    case 0x6 => "LDX"
    case 0x7 => "LAX"
    case 0x8 => "CLV"
    case 0x9 => "LDA"
    case 0xA => "TSX"
    case 0xB => "LAS"
    case 0xC => "LDY"
    case 0xD => "LDA"
    case 0xE => "LDX"
    case _   => "LAX"
  }

  function NameRowC(column: nat): string {
    match column
    case 0x0 => "CPY"
    case 0x1 => "CMP"
    case 0x2 => "NOP"
    case 0x3 => "DCP"
    case 0x4 => "CPY"
    case 0x5 => "CMP"
    case 0x6 => "DEC"
    case 0x7 => "DCP"
    case 0x8 => "INY"
    case 0x9 => "CMP"
    case 0xA => "DEX"
    case 0xB => "SBX"
    case 0xC => "CPY"
    case 0xD => "CMP"
    case 0xE => "DEC"
    case _   => "DCP"
  }

  function NameRowD(column: nat): string {
    match column
    case 0x0 => "BNE"
    case 0x1 => "CMP"
    case 0x2 => "KIL"
    case 0x3 => "DCP"
    case 0x4 => "NOP"
    case 0x5 => "CMP"
    case 0x6 => "DEC"
    case 0x7 => "DCP"
    case 0x8 => "CLD"
    case 0x9 => "CMP"
    case 0xA => "NOP"
    case 0xB => "DCP"
    case 0xC => "NOP"
    case 0xD => "CMP"
    case 0xE => "DEC"
    case _   => "DCP"
  }

  function NameRowE(column: nat): string {
    match column
    case 0x0 => "CPX"
    case 0x1 => "SBC"
    case 0x2 => "NOP"
    case 0x3 => "ISC"
    case 0x4 => "CPX"
    case 0x5 => "SBC"
    case 0x6 => "INC"
    case 0x7 => "ISC"
    case 0x8 => "INX"
    case 0x9 => "SBC"
    case 0xA => "NOP"
    case 0xB => "SBC"
    case 0xC => "CPX"
    case 0xD => "SBC"
    case 0xE => "INC"
    case _   => "ISC"
  }

  function NameRowF(column: nat): string {
    match column
    case 0x0 => "BEQ"
    case 0x1 => "SBC"
    case 0x2 => "KIL"
    case 0x3 => "ISC"
    case 0x4 => "NOP"
    case 0x5 => "SBC"
    case 0x6 => "INC"
    case 0x7 => "ISC"
    case 0x8 => "SED"
    case 0x9 => "SBC"
    case 0xA => "NOP"
    case 0xB => "ISC"
    case 0xC => "NOP"
    case 0xD => "SBC"
    case 0xE => "INC"
    case _   => "ISC"
  }
}
