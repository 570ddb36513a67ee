/**
 The assembler (src/Asm.cpp): operand classification, the instruction mapper, emission,
 and the loop over the lines that fills a 64 KB image.
 */
module Assembler {
  import opened Registers
  import opened Mnemonics
  import opened Scanner

  datatype Form =
    | Absolute | AbsoluteX | AbsoluteY | Accumulator | Immediate | Implied | Indirect | IndirectX | IndirectY
    | Relative | ZeroPage | ZeroPageX | ZeroPageY | Unknown
  {
    /** Operand bytes that are emitted. */
    function Params(): nat {
      match this
      case Accumulator | Implied | Unknown => 0
      case Absolute | AbsoluteX | AbsoluteY | Indirect => 2
      case _ => 1
    }
  }

  /** The addressing type that the captures select; the width of a hexadecimal operand tells zero page from absolute. */
  function Classify(c: Captures): Form {
    var inner, outer := c.tail.inner, c.tail.outer;
    var zp := |c.hex| == 3;
    var wide := |c.hex| == 5;
    var noVal := |c.hex| == 0;
    var noIdx := inner.NoIndex? && outer.NoIndex?;
    var noRel := |c.tail.rel| == 0;
    if c.opar != c.tail.cpar then Unknown
    else if c.opar then
      if c.imm || c.tail.rega || !noRel then Unknown
      else if wide && noIdx then Indirect
      else if zp && inner == By(X) && outer.NoIndex? then IndirectX
      else if zp && inner.NoIndex? && outer == By(Y) then IndirectY
      else Unknown
    else if c.imm then
      if zp && noIdx && noRel && !c.tail.rega then Immediate else Unknown
    else if c.tail.rega then
      if noVal && noIdx && noRel then Accumulator else Unknown
    else if !noRel then
      if noVal && noIdx then Relative else Unknown
    else if noVal && noIdx then Implied
    else if outer.NoIndex? then
      if wide then
        if inner.NoIndex? then Absolute else if inner == By(X) then AbsoluteX else AbsoluteY
      else if zp then
        if inner.NoIndex? then ZeroPage else if inner == By(X) then ZeroPageX else ZeroPageY
      else Unknown
    else Unknown
  }

  // ----- Values -----

  function DigitValue(c: char): nat
    requires HexDigits.Has(c)
  {
    if '0' <= c <= '9' then (c - '0') as int
    else if 'a' <= c <= 'f' then 10 + (c - 'a') as int
    else 10 + (c - 'A') as int
  }

  function HexValue(s: string): nat
    requires AllIn(s, HexDigits)
  {
    if s == [] then 0 else 0x10 * HexValue(s[..|s| - 1]) + DigitValue(s[|s| - 1])
  }

  function DecimalValue(s: string): nat
    requires AllIn(s, Digits)
  {
    if s == [] then 0 else 10 * DecimalValue(s[..|s| - 1]) + (s[|s| - 1] - '0') as int
  }

  function SignedValue(s: string): int
    requires IsSigned(s)
  {
    if s != "" && s[0] == '-' then 0 - DecimalValue(s[1..])
    else if s != "" && s[0] == '+' then DecimalValue(s[1..])
    else DecimalValue(s)
  }

  function Value(c: Captures): int
    requires IsHex(c.hex) && IsSigned(c.tail.rel)
  {
    if c.hex != "" then HexValue(c.hex[1..]) else if c.tail.rel != "" then SignedValue(c.tail.rel) else 0
  }

  /** What the groups capture can be converted. */
  lemma CapturesConvert(s: string)
    requires Captured(s).Some?
    ensures IsHex(Captured(s).value.hex) && IsSigned(Captured(s).value.tail.rel)
  {
  }

  // ----- The instruction mapper -----

  function UpperChar(c: char): char {
    if 'a' <= c <= 'z' then 'A' + (c - 'a') else c
  }

  function Upper(s: string): (r: string)
    ensures |r| == |s|
    ensures forall k :: 0 <= k < |s| ==> r[k] == UpperChar(s[k])
  {
    if s == "" then "" else [UpperChar(s[0])] + Upper(s[1..])
  }

  /** The opcodes of a mnemonic, one per addressing type; -1 where there is none. */
  datatype Slots = Slots(
    absolute: int, absoluteX: int, absoluteY: int, accumulator: int, immediate: int, implied: int, indirect: int,
    indirectX: int, indirectY: int, relative: int, zeroPage: int, zeroPageX: int, zeroPageY: int)
  {
    function Get(form: Form): int {
      match form
      case Absolute => absolute
      case AbsoluteX => absoluteX
      case AbsoluteY => absoluteY
      case Accumulator => accumulator
      case Immediate => immediate
      case Implied => implied
      case Indirect => indirect
      case IndirectX => indirectX
      case IndirectY => indirectY
      case Relative => relative
      case ZeroPage => zeroPage
      case ZeroPageX => zeroPageX
      case ZeroPageY => zeroPageY
      case Unknown => -1
    }
  }

  const NO_SLOTS := Slots(-1, -1, -1, -1, -1, -1, -1, -1, -1, -1, -1, -1, -1)

  /** The opcodes mapped to a name; columns as in `Slots`. */
  function Mapper(name: string): Slots {
    if |name| != 3 then NO_SLOTS
    else
      match name[0]
      case 'A' => StartingA(name[1], name[2])
      case 'B' => StartingB(name[1], name[2])
      case 'C' => StartingC(name[1], name[2])
      case 'D' => StartingD(name[1], name[2])
      case 'E' => StartingE(name[1], name[2])
      case 'I' => StartingI(name[1], name[2])
      case 'J' => StartingJ(name[1], name[2])
      case 'L' => StartingL(name[1], name[2])
      case 'N' => StartingN(name[1], name[2])
      case 'O' => StartingO(name[1], name[2])
      case 'P' => StartingP(name[1], name[2])
      case 'R' => StartingR(name[1], name[2])
      case 'S' => StartingS(name[1], name[2])
      case 'T' => StartingT(name[1], name[2])
      case _ => NO_SLOTS
  }

  function StartingA(c1: char, c2: char): Slots {
    if c1 == 'D' && c2 == 'C' then
      Slots(0x6D, 0x7D, 0x79,   -1, 0x69,   -1,   -1, 0x61, 0x71,   -1, 0x65, 0x75,   -1)
    else if c1 == 'N' && c2 == 'D' then
      Slots(0x2D, 0x3D, 0x39,   -1, 0x29,   -1,   -1, 0x21, 0x31,   -1, 0x25, 0x35,   -1)
    else if c1 == 'S' && c2 == 'L' then
      Slots(0x0E, 0x1E,   -1, 0x0A,   -1,   -1,   -1,   -1,   -1,   -1, 0x06, 0x16,   -1)
    else NO_SLOTS
  }

  function StartingB(c1: char, c2: char): Slots {
    if c1 == 'C' && c2 == 'C' then
      Slots(  -1,   -1,   -1,   -1,   -1,   -1,   -1,   -1,   -1, 0x90,   -1,   -1,   -1)
    else if c1 == 'C' && c2 == 'S' then
      Slots(  -1,   -1,   -1,   -1,   -1,   -1,   -1,   -1,   -1, 0xB0,   -1,   -1,   -1)
    else if c1 == 'E' && c2 == 'Q' then
      Slots(  -1,   -1,   -1,   -1,   -1,   -1,   -1,   -1,   -1, 0xF0,   -1,   -1,   -1)
    else if c1 == 'I' && c2 == 'T' then
      Slots(0x2C,   -1,   -1,   -1,   -1,   -1,   -1,   -1,   -1,   -1, 0x24,   -1,   -1)
    else if c1 == 'M' && c2 == 'I' then
      Slots(  -1,   -1,   -1,   -1,   -1,   -1,   -1,   -1,   -1, 0x30,   -1,   -1,   -1)
    else if c1 == 'N' && c2 == 'E' then
      Slots(  -1,   -1,   -1,   -1,   -1,   -1,   -1,   -1,   -1, 0xD0,   -1,   -1,   -1)
    else if c1 == 'P' && c2 == 'L' then
      Slots(  -1,   -1,   -1,   -1,   -1,   -1,   -1,   -1,   -1, 0x10,   -1,   -1,   -1)
    else if c1 == 'R' && c2 == 'K' then
      Slots(  -1,   -1,   -1,   -1,   -1, 0x00,   -1,   -1,   -1,   -1,   -1,   -1,   -1)
    else if c1 == 'V' && c2 == 'C' then
      Slots(  -1,   -1,   -1,   -1,   -1,   -1,   -1,   -1,   -1, 0x50,   -1,   -1,   -1)
    else if c1 == 'V' && c2 == 'S' then
      Slots(  -1,   -1,   -1,   -1,   -1,   -1,   -1,   -1,   -1, 0x70,   -1,   -1,   -1)
    else NO_SLOTS
  }

  function StartingC(c1: char, c2: char): Slots {
    if c1 == 'L' && c2 == 'C' then
      Slots(  -1,   -1,   -1,   -1,   -1, 0x18,   -1,   -1,   -1,   -1,   -1,   -1,   -1)
    else if c1 == 'L' && c2 == 'D' then
      Slots(  -1,   -1,   -1,   -1,   -1, 0xD8,   -1,   -1,   -1,   -1,   -1,   -1,   -1)
    else if c1 == 'L' && c2 == 'I' then
      Slots(  -1,   -1,   -1,   -1,   -1, 0x58,   -1,   -1,   -1,   -1,   -1,   -1,   -1)
    else if c1 == 'L' && c2 == 'V' then
      Slots(  -1,   -1,   -1,   -1,   -1, 0xB8,   -1,   -1,   -1,   -1,   -1,   -1,   -1)
    else if c1 == 'M' && c2 == 'P' then
      Slots(0xCD, 0xDD, 0xD9,   -1, 0xC9,   -1,   -1, 0xC1, 0xD1,   -1, 0xC5, 0xD5,   -1)
    else if c1 == 'P' && c2 == 'X' then
      Slots(0xEC,   -1,   -1,   -1, 0xE0,   -1,   -1,   -1,   -1,   -1, 0xE4,   -1,   -1)
    else if c1 == 'P' && c2 == 'Y' then
      Slots(0xCC,   -1,   -1,   -1, 0xC0,   -1,   -1,   -1,   -1,   -1, 0xC4,   -1,   -1)
    else NO_SLOTS
  }

  function StartingD(c1: char, c2: char): Slots {
    if c1 == 'E' && c2 == 'C' then
      Slots(0xCE, 0xDE,   -1,   -1,   -1,   -1,   -1,   -1,   -1,   -1, 0xC6, 0xD6,   -1)
    else if c1 == 'E' && c2 == 'X' then
      Slots(  -1,   -1,   -1,   -1,   -1, 0xCA,   -1,   -1,   -1,   -1,   -1,   -1,   -1)
    else if c1 == 'E' && c2 == 'Y' then
      Slots(  -1,   -1,   -1,   -1,   -1, 0x88,   -1,   -1,   -1,   -1,   -1,   -1,   -1)
    else NO_SLOTS
  }

  function StartingE(c1: char, c2: char): Slots {
    if c1 == 'O' && c2 == 'R' then
      Slots(0x4D, 0x5D, 0x59,   -1, 0x49,   -1,   -1, 0x41, 0x51,   -1, 0x45, 0x55,   -1)
    else NO_SLOTS
  }

  function StartingI(c1: char, c2: char): Slots {
    if c1 == 'N' && c2 == 'C' then
      Slots(0xEE, 0xFE,   -1,   -1,   -1,   -1,   -1,   -1,   -1,   -1, 0xE6, 0xF6,   -1)
    else if c1 == 'N' && c2 == 'X' then
      Slots(  -1,   -1,   -1,   -1,   -1, 0xE8,   -1,   -1,   -1,   -1,   -1,   -1,   -1)
    else if c1 == 'N' && c2 == 'Y' then
      Slots(  -1,   -1,   -1,   -1,   -1, 0xC8,   -1,   -1,   -1,   -1,   -1,   -1,   -1)
    else NO_SLOTS
  }

  function StartingJ(c1: char, c2: char): Slots {
    if c1 == 'M' && c2 == 'P' then
      Slots(0x4C,   -1,   -1,   -1,   -1,   -1, 0x6C,   -1,   -1,   -1,   -1,   -1,   -1)
    else if c1 == 'S' && c2 == 'R' then
      Slots(0x20,   -1,   -1,   -1,   -1,   -1,   -1,   -1,   -1,   -1,   -1,   -1,   -1)
    else NO_SLOTS
  }

  function StartingL(c1: char, c2: char): Slots {
    if c1 == 'D' && c2 == 'A' then
      Slots(0xAD, 0xBD, 0xB9,   -1, 0xA9,   -1,   -1, 0xA1, 0xB1,   -1, 0xA5, 0xB5,   -1)
    else if c1 == 'D' && c2 == 'X' then
      Slots(0xAE,   -1, 0xBE,   -1, 0xA2,   -1,   -1,   -1,   -1,   -1, 0xA6,   -1, 0xB6)
    else if c1 == 'D' && c2 == 'Y' then
      Slots(0xAC, 0xBC,   -1,   -1, 0xA0,   -1,   -1,   -1,   -1,   -1, 0xA4, 0xB4,   -1)
    else if c1 == 'S' && c2 == 'R' then
      Slots(0x4E, 0x5E,   -1, 0x4A,   -1,   -1,   -1,   -1,   -1,   -1, 0x46, 0x56,   -1)
    else NO_SLOTS
  }

  function StartingN(c1: char, c2: char): Slots {
    if c1 == 'O' && c2 == 'P' then
      Slots(  -1,   -1,   -1,   -1,   -1, 0xEA,   -1,   -1,   -1,   -1,   -1,   -1,   -1)
    else NO_SLOTS
  }

  function StartingO(c1: char, c2: char): Slots {
    if c1 == 'R' && c2 == 'A' then
      Slots(0x0D, 0x1D, 0x19,   -1, 0x09,   -1,   -1, 0x01, 0x11,   -1, 0x05, 0x15,   -1)
    else NO_SLOTS
  }

  function StartingP(c1: char, c2: char): Slots {
    if c1 == 'H' && c2 == 'A' then
      Slots(  -1,   -1,   -1,   -1,   -1, 0x48,   -1,   -1,   -1,   -1,   -1,   -1,   -1)
    else if c1 == 'H' && c2 == 'P' then
      Slots(  -1,   -1,   -1,   -1,   -1, 0x08,   -1,   -1,   -1,   -1,   -1,   -1,   -1)
    else if c1 == 'L' && c2 == 'A' then
      Slots(  -1,   -1,   -1,   -1,   -1, 0x68,   -1,   -1,   -1,   -1,   -1,   -1,   -1)
    else if c1 == 'L' && c2 == 'P' then
      Slots(  -1,   -1,   -1,   -1,   -1, 0x28,   -1,   -1,   -1,   -1,   -1,   -1,   -1)
    else NO_SLOTS
  }

  function StartingR(c1: char, c2: char): Slots {
    if c1 == 'O' && c2 == 'L' then
      Slots(0x2E, 0x3E,   -1, 0x2A,   -1,   -1,   -1,   -1,   -1,   -1, 0x26, 0x36,   -1)
    else if c1 == 'O' && c2 == 'R' then
      Slots(0x6E, 0x7E,   -1, 0x6A,   -1,   -1,   -1,   -1,   -1,   -1, 0x66, 0x76,   -1)
    else if c1 == 'T' && c2 == 'I' then
      Slots(  -1,   -1,   -1,   -1,   -1, 0x40,   -1,   -1,   -1,   -1,   -1,   -1,   -1)
    else if c1 == 'T' && c2 == 'S' then
      Slots(  -1,   -1,   -1,   -1,   -1, 0x60,   -1,   -1,   -1,   -1,   -1,   -1,   -1)
    else NO_SLOTS
  }

  function StartingS(c1: char, c2: char): Slots {
    if c1 == 'B' && c2 == 'C' then
      Slots(0xED, 0xFD, 0xF9,   -1, 0xE9,   -1,   -1, 0xE1, 0xF1,   -1, 0xE5, 0xF5,   -1)
    else if c1 == 'E' && c2 == 'C' then
      Slots(  -1,   -1,   -1,   -1,   -1, 0x38,   -1,   -1,   -1,   -1,   -1,   -1,   -1)
    else if c1 == 'E' && c2 == 'D' then
      Slots(  -1,   -1,   -1,   -1,   -1, 0xF8,   -1,   -1,   -1,   -1,   -1,   -1,   -1)
    else if c1 == 'E' && c2 == 'I' then
      Slots(  -1,   -1,   -1,   -1,   -1, 0x78,   -1,   -1,   -1,   -1,   -1,   -1,   -1)
    else if c1 == 'T' && c2 == 'A' then
      Slots(0x8D, 0x9D, 0x99,   -1,   -1,   -1,   -1, 0x81, 0x91,   -1, 0x85, 0x95,   -1)
    else if c1 == 'T' && c2 == 'X' then
      Slots(0x8E,   -1,   -1,   -1,   -1,   -1,   -1,   -1,   -1,   -1, 0x86,   -1, 0x96)
    else if c1 == 'T' && c2 == 'Y' then
      Slots(0x8C,   -1,   -1,   -1,   -1,   -1,   -1,   -1,   -1,   -1, 0x84, 0x94,   -1)
    else NO_SLOTS
  }

  function StartingT(c1: char, c2: char): Slots {
    if c1 == 'A' && c2 == 'X' then
      Slots(  -1,   -1,   -1,   -1,   -1, 0xAA,   -1,   -1,   -1,   -1,   -1,   -1,   -1)
    else if c1 == 'A' && c2 == 'Y' then
      Slots(  -1,   -1,   -1,   -1,   -1, 0xA8,   -1,   -1,   -1,   -1,   -1,   -1,   -1)
    else if c1 == 'S' && c2 == 'X' then
      Slots(  -1,   -1,   -1,   -1,   -1, 0xBA,   -1,   -1,   -1,   -1,   -1,   -1,   -1)
    else if c1 == 'X' && c2 == 'A' then
      Slots(  -1,   -1,   -1,   -1,   -1, 0x8A,   -1,   -1,   -1,   -1,   -1,   -1,   -1)
    else if c1 == 'X' && c2 == 'S' then
      Slots(  -1,   -1,   -1,   -1,   -1, 0x9A,   -1,   -1,   -1,   -1,   -1,   -1,   -1)
    else if c1 == 'Y' && c2 == 'A' then
      Slots(  -1,   -1,   -1,   -1,   -1, 0x98,   -1,   -1,   -1,   -1,   -1,   -1,   -1)
    else NO_SLOTS
  }

  /** The opcode mapped to a name and an addressing type. */
  function Encode(name: string, form: Form): Option<Byte> {
    var code := Mapper(name).Get(form);
    if 0 <= code < 0x100 then Some(code) else None
  }

  // ----- Lines -----

  datatype Parsed = Blank | Bad | Emits(bytes: seq<Byte>)

  function OperandBytes(params: nat, val: int): seq<Byte> {
    if params == 0 then [] else if params == 1 then [Low(val)] else [Low(val), Low(val / 0x100)]
  }

  function AssembleTrimmed(s: string): Parsed {
    if s == "" || s[0] == ';' then Blank
    else
      match Captured(s)
      case None => Bad
      case Some(c) =>
        CapturesConvert(s);
        match Encode(Upper(c.name), Classify(c))
        case None => Bad
        case Some(code) => Emits([code] + OperandBytes(Classify(c).Params(), Value(c)))
  }

  function AssembleLine(line: string): Parsed {
    AssembleTrimmed(LeftTrimmed(line))
  }

  // ----- The image -----

  type Image64K = s: seq<Byte> | |s| == 0x1_0000 witness seq(0x1_0000, _ => 0)

  datatype Outcome = Assembled(image: Image64K) | SyntaxError(line: nat)

  /** Filled with $FF, the reset vector pointing at the code. */
  function Prepared(base: Word): Image64K {
    var filled: seq<Byte> := seq(0x1_0000, _ => 0xff);
    filled[0xfffc := Low(base)][0xfffd := High(base)]
  }

  /** Bytes written upwards from an address, wrapping. */
  function Lay(image: Image64K, pc: Word, bytes: seq<Byte>): Image64K
    decreases |bytes|
  {
    if bytes == [] then image else Lay(image[pc := bytes[0]], Wrap(pc + 1), bytes[1..])
  }

  function AssembleFrom(lines: seq<string>, done: nat, image: Image64K, pc: Word): Outcome
    requires done <= |lines|
    decreases |lines| - done
  {
    if done == |lines| then Assembled(image)
    else
      match AssembleLine(lines[done])
      case Blank => AssembleFrom(lines, done + 1, image, pc)
      case Bad => SyntaxError(done + 1)
      case Emits(bytes) => AssembleFrom(lines, done + 1, Lay(image, pc, bytes), Wrap(pc + |bytes|))
  }

  function Assemble(base: Word, lines: seq<string>): Outcome {
    AssembleFrom(lines, 0, Prepared(base), base)
  }

  /** An assembly fails exactly when some line does not assemble, and reports the first such line. */
  lemma FirstError(base: Word, lines: seq<string>)
    ensures Assemble(base, lines).SyntaxError? <==> exists k :: 0 <= k < |lines| && AssembleLine(lines[k]).Bad?
    ensures forall n: nat :: Assemble(base, lines) == SyntaxError(n) <==>
              1 <= n <= |lines| && AssembleLine(lines[n - 1]).Bad? && forall k :: 0 <= k < n - 1 ==> !AssembleLine(lines[k]).Bad?
  {
    hide AssembleLine, Lay, Prepared;
    FirstErrorFrom(lines, 0, Prepared(base), base);
  }

  lemma {:induction false} FirstErrorFrom(lines: seq<string>, done: nat, image: Image64K, pc: Word)
    requires done <= |lines|
    requires forall k :: 0 <= k < done ==> !AssembleLine(lines[k]).Bad?
    ensures var out := AssembleFrom(lines, done, image, pc);
            if out.SyntaxError? then
              && 1 <= out.line <= |lines| && AssembleLine(lines[out.line - 1]).Bad?
              && forall k :: 0 <= k < out.line - 1 ==> !AssembleLine(lines[k]).Bad?
            else
              forall k :: 0 <= k < |lines| ==> !AssembleLine(lines[k]).Bad?
    decreases |lines| - done
  {
    hide AssembleLine, Lay;
    if done < |lines| {
      match AssembleLine(lines[done]) {
        case Blank => FirstErrorFrom(lines, done + 1, image, pc);
        case Bad =>
        case Emits(bytes) => FirstErrorFrom(lines, done + 1, Lay(image, pc, bytes), Wrap(pc + |bytes|));
      }
    }
  }

  // ----- Where the bytes end up -----

  /** The image with bytes put in place from an address on. */
  function Replaced(image: Image64K, pc: nat, bytes: seq<Byte>): seq<Byte>
    requires pc + |bytes| <= 0x1_0000
  {
    image[..pc] + bytes + image[pc + |bytes|..]
  }

  lemma ReplacedFirst(image: Image64K, pc: Word, bytes: seq<Byte>)
    requires bytes != [] && pc + |bytes| <= 0x1_0000
    ensures Replaced(image[pc := bytes[0]], pc + 1, bytes[1..]) == Replaced(image, pc, bytes)
  {
    var next := image[pc := bytes[0]];
    assert next[..pc + 1] == image[..pc] + [bytes[0]];
    assert next[pc + |bytes|..] == image[pc + |bytes|..];
    assert bytes == [bytes[0]] + bytes[1..];
    assert image[..pc] + [bytes[0]] + bytes[1..] == image[..pc] + bytes;
  }

  /** Below the top of memory the bytes lie side by side and disturb nothing else. */
  lemma {:induction false} LayFlat(image: Image64K, pc: Word, bytes: seq<Byte>)
    requires pc + |bytes| <= 0x1_0000
    ensures Lay(image, pc, bytes) == image[..pc] + bytes + image[pc + |bytes|..]
    decreases |bytes|
  {
    if bytes == [] {
      assert image[..pc] + [] + image[pc..] == image;
    } else {
      ReplacedFirst(image, pc, bytes);
      if |bytes| == 1 {
        assert bytes[1..] == [];
        assert Replaced(image[pc := bytes[0]], pc + 1, []) == image[pc := bytes[0]];
      } else {
        LayFlat(image[pc := bytes[0]], Wrap(pc + 1), bytes[1..]);
      }
    }
  }

  lemma {:induction false} LayThen(image: Image64K, pc: Word, x: seq<Byte>, y: seq<Byte>)
    ensures Lay(Lay(image, pc, x), Wrap(pc + |x|), y) == Lay(image, pc, x + y)
    decreases |x|
  {
    if x == [] {
      assert x + y == y;
    } else {
      LayThen(image[pc := x[0]], Wrap(pc + 1), x[1..], y);
      assert (x + y)[1..] == x[1..] + y;
      assert Wrap(Wrap(pc + 1) + |x| - 1) == Wrap(pc + |x|);
    }
  }

  /** The bytes of a program, line after line. */
  function Emitted(lines: seq<string>): seq<Byte> {
    if lines == [] then []
    else (match AssembleLine(lines[0]) case Emits(bytes) => bytes case _ => []) + Emitted(lines[1..])
  }

  /** A program without errors is its bytes laid at the base, after the reset vector, which they may overwrite. */
  lemma LaidAtBase(base: Word, lines: seq<string>)
    requires forall k :: 0 <= k < |lines| ==> !AssembleLine(lines[k]).Bad?
    ensures Assemble(base, lines) == Assembled(Lay(Prepared(base), base, Emitted(lines)))
  {
    hide AssembleLine, Lay, Prepared;
    assert lines[0..] == lines;
    LaidFrom(lines, 0, Prepared(base), base);
  }

  lemma {:induction false} LaidFrom(lines: seq<string>, done: nat, image: Image64K, pc: Word)
    requires done <= |lines|
    requires forall k :: done <= k < |lines| ==> !AssembleLine(lines[k]).Bad?
    ensures AssembleFrom(lines, done, image, pc) == Assembled(Lay(image, pc, Emitted(lines[done..])))
    decreases |lines| - done
  {
    hide AssembleLine;
    if done == |lines| {
      assert lines[done..] == [];
    } else {
      assert lines[done..][1..] == lines[done + 1..];
      match AssembleLine(lines[done]) {
        case Blank =>
          LaidFrom(lines, done + 1, image, pc);
          assert [] + Emitted(lines[done + 1..]) == Emitted(lines[done + 1..]);
        case Emits(bytes) =>
          LaidFrom(lines, done + 1, Lay(image, pc, bytes), Wrap(pc + |bytes|));
          LayThen(image, pc, bytes, Emitted(lines[done + 1..]));
        case Bad => assert false;
      }
    }
  }

  class Asm {
    const base: Word

    constructor (base: Word)
      ensures this.base == base
    {
      this.base := base;
    }

    /** One byte at the program counter, which wraps. */
    method EmitByte(r: array<Byte>, pc: Word, v: Byte) returns (next: Word)
      requires r.Length == 0x1_0000
      modifies r
      ensures r[..] == Lay(old(r[..]), pc, [v]) && next == Wrap(pc + 1)
    {
      r[pc] := v;
      next := Wrap(pc + 1);
    }

    /** The opcode and its operand, low byte first. */
    method Emit(r: array<Byte>, pc: Word, code: Byte, params: nat, val: int) returns (next: Word)
      requires r.Length == 0x1_0000 && params <= 2
      modifies r
      ensures var bytes := [code] + OperandBytes(params, val);
              r[..] == Lay(old(r[..]), pc, bytes) && next == Wrap(pc + |bytes|)
    {
      next := EmitByte(r, pc, code);
      if params >= 1 {
        next := EmitByte(r, next, Low(val));
      }
      if params == 2 {
        next := EmitByte(r, next, Low(val / 0x100));
      }
    }

    method Compile(lines: seq<string>) returns (out: Outcome)
      ensures out == Assemble(base, lines)
    {
      hide Captured, Classify, Encode, Lay, Value, Upper;
      var pc := base;
      var r := new Byte[0x1_0000](_ => 0xff);
      r[0xfffc] := Low(base);
      r[0xfffd] := High(base);
      assert r[..] == Prepared(base);
      var done := 0;
      while done < |lines|
        invariant done <= |lines| && r.Length == 0x1_0000 && fresh(r)
        invariant AssembleFrom(lines, done, r[..], pc) == Assemble(base, lines)
      {
        var s := LeftTrimmed(lines[done]);
        if s != "" && s[0] != ';' {
          var captured := Captured(s);
          if captured.None? {
            return SyntaxError(done + 1);
          }
          CapturesConvert(s);
          var form := Classify(captured.value);
          var found := Encode(Upper(captured.value.name), form);
          if found.None? {
            return SyntaxError(done + 1);
          }
          pc := Emit(r, pc, found.value, form.Params(), Value(captured.value));
        }
        done := done + 1;
      }
      out := Assembled(r[..]);
    }
  }
}
