/**
 Disassembling and assembling again (src/unasm.cpp, src/Asm.cpp): the text of a documented
 instruction assembles to the bytes it came from, and so does the listing of a program.
 */
module RoundTrip {
  import opened Registers
  import opened Memory
  import opened Mnemonics
  import opened Disassembler
  import opened Scanner
  import Assembler

  // ----- Names -----

  predicate Capitals(name: string) {
    |name| == 3 && forall k :: 0 <= k < 3 ==> 'A' <= name[k] <= 'Z'
  }

  lemma CapitalsStay(name: string)
    requires Capitals(name)
    ensures Assembler.Upper(name) == name
  {
  }

  // ----- Numbers -----

  lemma HexDigitValue(d: nat)
    requires d < 0x10
    ensures HexDigits.Has(HexDigit(d)) && Assembler.DigitValue(HexDigit(d)) == d
  {
  }

  lemma HexPair(b: Byte)
    ensures |Hex2(b)| == 2 && AllIn(Hex2(b), HexDigits) && Assembler.HexValue(Hex2(b)) == b
  {
    var s := Hex2(b);
    HexDigitValue(b / 0x10);
    HexDigitValue(b % 0x10);
    assert s[..1] == [HexDigit(b / 0x10)] && s[..1][..0] == [];
    assert Assembler.HexValue(s[..1]) == b / 0x10;
  }

  lemma HexQuad(w: Word)
    ensures |Hex4(w)| == 4 && AllIn(Hex4(w), HexDigits) && Assembler.HexValue(Hex4(w)) == w
  {
    var s := Hex4(w);
    HexPair(High(w));
    HexPair(Low(w));
    assert s[..2] == Hex2(High(w));
    HexDigitValue(Low(w) / 0x10);
    HexDigitValue(Low(w) % 0x10);
    assert s[..3][..2] == s[..2];
    assert Assembler.HexValue(s[..3]) == 0x10 * High(w) + Low(w) / 0x10;
    assert s[..4] == s;
  }

  lemma {:induction false} DecimalPrints(n: nat)
    ensures Decimal(n) != "" && AllIn(Decimal(n), Digits) && Assembler.DecimalValue(Decimal(n)) == n
  {
    var s := Decimal(n);
    if n >= 10 {
      DecimalPrints(n / 10);
      assert s[..|s| - 1] == Decimal(n / 10);
    } else {
      assert s[..0] == "";
    }
  }

  /** A signed decimal reads back as the byte. */
  lemma SignedPrints(b: Byte)
    ensures var s := SignedDecimal(b); s != "" && IsSigned(s) && Low(Assembler.SignedValue(s)) == b
    ensures var s := SignedDecimal(b); forall k :: 0 <= k < |s| ==> Digits.Has(s[k]) || (k == 0 && s[k] == '-' && |s| > 1)
  {
    var s := SignedDecimal(b);
    if b >= 0x80 {
      DecimalPrints(0x100 - b);
      assert s[1..] == Decimal(0x100 - b);
    } else {
      DecimalPrints(b);
    }
  }

  // ----- Operands -----

  function Prefix(f: Format): string {
    match f
    case Pointer16 | PointerX | PointerY => "("
    case Immediate8 => "#"
    case _ => ""
  }

  function HexText(f: Format, lo: Byte, hi: Byte): string {
    match f
    case Bare | LetterA | Relative8 => ""
    case Pointer16 | Wide | WideIndexed(_, _) => "$" + Hex4(Join(lo, hi))
    case _ => "$" + Hex2(lo)
  }

  function Suffix(f: Format, lo: Byte): string {
    match f
    case LetterA => "A"
    case Relative8 => SignedDecimal(lo)
    case Pointer16 => ")"
    case PointerX => ",X)"
    case PointerY => "),Y"
    case ZeroIndexed(r, spaced) => IndexText(r, spaced)
    case WideIndexed(r, spaced) => IndexText(r, spaced)
    case _ => ""
  }

  lemma Regrouped(digits: string, tail: string)
    ensures "($" + digits + tail == "(" + ("$" + digits) + tail
    ensures "#$" + digits == "#" + ("$" + digits) + ""
    ensures "$" + digits + tail == "" + ("$" + digits) + tail
    ensures "$" + digits == "" + ("$" + digits) + ""
    ensures tail == "" + "" + tail
  {
    assert "($" == "(" + "$" && "#$" == "#" + "$";
  }

  lemma OperandParts(f: Format, lo: Byte, hi: Byte)
    ensures OperandText(f, lo, hi) == Prefix(f) + HexText(f, lo, hi) + Suffix(f, lo)
  {
    hide Hex2, Hex4, SignedDecimal, IndexText;
    Regrouped(Hex2(lo), Suffix(f, lo));
    Regrouped(Hex4(Join(lo, hi)), Suffix(f, lo));
  }

  /** The groups that the tail of an operand captures. */
  function TailOf(f: Format, lo: Byte): Tail {
    match f
    case LetterA => Tail(NoIndex, false, NoIndex, "", true)
    case Relative8 => Tail(NoIndex, false, NoIndex, SignedDecimal(lo), false)
    case Pointer16 => Tail(NoIndex, true, NoIndex, "", false)
    case PointerX => Tail(By(X), true, NoIndex, "", false)
    case PointerY => Tail(NoIndex, true, By(Y), "", false)
    case ZeroIndexed(r, _) => Tail(By(r), false, NoIndex, "", false)
    case WideIndexed(r, _) => Tail(By(r), false, NoIndex, "", false)
    case _ => Tail(NoIndex, false, NoIndex, "", false)
  }

  /** Decimal digits, perhaps after a minus sign. */
  predicate Displacement(t: string) {
    && t != "" && (t[0] == '-' ==> |t| > 1)
    && forall k :: 0 <= k < |t| ==> Digits.Has(t[k]) || (k == 0 && t[k] == '-')
  }

  lemma SignedDisplacement(b: Byte)
    ensures Displacement(SignedDecimal(b))
  {
    SignedPrints(b);
  }

  lemma SignedEnds(s: string, h: nat)
    requires h < |s| && Displacement(s[h..])
    ensures SignedEnd(s, h) == |s|
    ensures s[h] != ',' && s[h] != ')' && !Spaces.Has(s[h])
  {
    var t := s[h..];
    forall k | h <= k < |s|
      ensures Digits.Has(s[k]) || (k == h && s[k] == '-')
    {
      assert s[k] == t[k - h];
    }
    RunIs(s, if s[h] == '-' then h + 1 else h, Digits, |s|);
  }

  lemma ScanDisplacement(s: string, h: nat, b: Byte)
    requires h <= |s| && s[h..] == SignedDecimal(b)
    ensures ScanTail(s, h) == Some(TailOf(Relative8, b))
  {
    hide SignedDecimal, ScanIndex, SignedEnd, Finished;
    SignedDisplacement(b);
    SignedEnds(s, h);
    ScanNoIndex(s, h);
    ScanEnd(s, |s|);
    assert s[h..|s|] == s[h..];
  }

  lemma ScanNoIndex(s: string, i: nat)
    requires i <= |s| && (i < |s| ==> s[i] != ',' && !Spaces.Has(s[i]))
    ensures ScanIndex(s, i) == Indexed(NoIndex, i)
  {
  }

  lemma ScanByIndex(s: string, i: nat, r: Register, spaced: bool)
    requires i < |s| && s[i] == ','
    requires var k := if spaced then i + 2 else i + 1;
             k < |s| && s[k] == r.Letter()[0] && (spaced ==> s[i + 1] == ' ')
    ensures ScanIndex(s, i) == Indexed(By(r), if spaced then i + 3 else i + 2)
  {
    var k := if spaced then i + 2 else i + 1;
    RunIs(s, i, Spaces, i);
    RunIs(s, i + 1, Spaces, k);
  }

  /** The part of a tail after the indexes and parenthesis. */
  lemma ScanEnd(s: string, i: nat)
    requires i == |s|
    ensures SignedEnd(s, i) == i && Finished(s, i)
  {
  }

  lemma ScanSuffix(s: string, h: nat, f: Format, lo: Byte)
    requires h <= |s| && s[h..] == Suffix(f, lo)
    ensures ScanTail(s, h) == Some(TailOf(f, lo))
  {
    hide SignedDecimal, ScanIndex, SignedEnd, Finished;
    var t := Suffix(f, lo);
    ScanEnd(s, |s|);
    match f {
      case Relative8 => ScanDisplacement(s, h, lo);
      case LetterA =>
        assert s[h] == t[0];
        ScanLetterA(s, h);
      case Pointer16 =>
        assert s[h] == t[0];
        ScanNoIndex(s, h);
        ScanNoIndex(s, h + 1);
      case PointerX =>
        assert s[h] == t[0] && s[h + 1] == t[1] && s[h + 2] == t[2];
        ScanByIndex(s, h, X, false);
        ScanNoIndex(s, h + 3);
      case PointerY =>
        assert s[h] == t[0] && s[h + 1] == t[1] && s[h + 2] == t[2];
        ScanNoIndex(s, h);
        ScanByIndex(s, h + 1, Y, false);
      case ZeroIndexed(r, spaced) =>
        ScanIndexed(s, h, r, spaced);
      case WideIndexed(r, spaced) =>
        ScanIndexed(s, h, r, spaced);
      case Bare | Immediate8 | Zero | Wide =>
        ScanNoIndex(s, h);
    }
  }

  lemma ScanLetterA(s: string, h: nat)
    requires |s| == h + 1 && s[h] == 'A'
    ensures ScanTail(s, h) == Some(TailOf(LetterA, 0))
  {
    ScanNoIndex(s, h);
  }

  lemma ScanIndexed(s: string, h: nat, r: Register, spaced: bool)
    requires h <= |s| && s[h..] == IndexText(r, spaced)
    ensures ScanTail(s, h) == Some(Tail(By(r), false, NoIndex, "", false))
  {
    hide ScanIndex, SignedEnd, Finished;
    var t := IndexText(r, spaced);
    assert forall k :: 0 <= k < |t| ==> s[h + k] == t[k];
    ScanByIndex(s, h, r, spaced);
    ScanNoIndex(s, |s|);
    ScanEnd(s, |s|);
  }

  // ----- Opcodes -----

  /** The addressing type that a format reads back as. */
  function FormOf(f: Format): Assembler.Form {
    match f
    case Bare => Assembler.Implied
    case LetterA => Assembler.Accumulator
    case Immediate8 => Assembler.Immediate
    case Relative8 => Assembler.Relative
    case Pointer16 => Assembler.Indirect
    case PointerX => Assembler.IndirectX
    case PointerY => Assembler.IndirectY
    case Zero => Assembler.ZeroPage
    case ZeroIndexed(r, _) => if r.X? then Assembler.ZeroPageX else Assembler.ZeroPageY
    case Wide => Assembler.Absolute
    case WideIndexed(r, _) => if r.X? then Assembler.AbsoluteX else Assembler.AbsoluteY
  }

  /** The 151 documented opcodes, by their bit fields (src/Opcode.h). */
  predicate Documented(code: Byte) {
    Official(code / 0x20, code / 4 % 8, code % 4)
  }

  predicate Official(a: nat, b: nat, c: nat) {
    match c
    case 0 =>
      (match b
       case 0 => a != 4
       case 1 => a == 1 || a >= 4
       case 3 => a != 0
       case 5 => a == 4 || a == 5
       case 7 => a == 5
       case _ => true)
    case 1 => !(a == 4 && b == 2)
    case 2 =>
      (match b
       case 0 => a == 5
       case 4 => false
       case 6 => a == 4 || a == 5
       case 7 => a != 4
       case _ => true)
    case _ => false
  }

  /** The text names its own opcode. */
  predicate NamesItself(name: string, f: Format, code: int) {
    Assembler.Encode(name, FormOf(f)) == Some(code)
  }

  lemma OpcodeReadsBack(code: Byte)
    ensures Capitals(NameOf(code))
    ensures NamesItself(NameOf(code), FormatOf(code), code) <==> Documented(code)
  {
    ReadsBack(code, code / 0x10, code / 4 % 4, code % 4);
  }

  lemma ReadsBack(code: Byte, row: nat, b: nat, c: nat)
    requires code == 0x10 * row + 4 * b + c && b < 4 && c < 4
    ensures Capitals(NameOf(code))
    ensures NamesItself(NameOf(code), FormatOf(code), code) <==> Documented(code)
  {
    hide Layout, FormatOf, Official, Capitals, NamesItself;
    hide NameRow0, NameRow1, NameRow2, NameRow3, NameRow4, NameRow5, NameRow6, NameRow7, NameRow8, NameRow9, NameRowA, NameRowB, NameRowC, NameRowD, NameRowE, NameRowF;
    Fields(code, row, b, c);
    assert code / 0x20 == row / 2 && code / 4 % 8 == 4 * (row % 2) + b && code % 4 == c by {
      assert code / 4 == 4 * row + b;
    }
    match row
    case 0x0 => ReadsBack0(b, c);
    case 0x1 => ReadsBack1(b, c);
    case 0x2 => ReadsBack2(b, c);
    case 0x3 => ReadsBack3(b, c);
    case 0x4 => ReadsBack4(b, c);
    case 0x5 => ReadsBack5(b, c);
    case 0x6 => ReadsBack6(b, c);
    case 0x7 => ReadsBack7(b, c);
    case 0x8 => ReadsBack8(b, c);
    case 0x9 => ReadsBack9(b, c);
    case 0xA => ReadsBackA(b, c);
    case 0xB => ReadsBackB(b, c);
    case 0xC => ReadsBackC(b, c);
    case 0xD => ReadsBackD(b, c);
    case 0xE => ReadsBackE(b, c);
    case _   => ReadsBackF(b, c);
  }

  lemma ReadsBack0(b: nat, c: nat)
    requires b < 4 && c < 4
    ensures Capitals(NameRow0(4 * b + c))
    ensures NamesItself(NameRow0(4 * b + c), Layout(0, b, c), 0x00 + 4 * b + c) <==> Official(0, b, c)
  {
  }

  lemma ReadsBack1(b: nat, c: nat)
    requires b < 4 && c < 4
    ensures Capitals(NameRow1(4 * b + c))
    ensures NamesItself(NameRow1(4 * b + c), Layout(0, 4 + b, c), 0x10 + 4 * b + c) <==> Official(0, 4 + b, c)
  {
  }

  lemma ReadsBack2(b: nat, c: nat)
    requires b < 4 && c < 4
    ensures Capitals(NameRow2(4 * b + c))
    ensures NamesItself(NameRow2(4 * b + c), Layout(1, b, c), 0x20 + 4 * b + c) <==> Official(1, b, c)
  {
  }

  lemma ReadsBack3(b: nat, c: nat)
    requires b < 4 && c < 4
    ensures Capitals(NameRow3(4 * b + c))
    ensures NamesItself(NameRow3(4 * b + c), Layout(1, 4 + b, c), 0x30 + 4 * b + c) <==> Official(1, 4 + b, c)
  {
  }

  lemma ReadsBack4(b: nat, c: nat)
    requires b < 4 && c < 4
    ensures Capitals(NameRow4(4 * b + c))
    ensures NamesItself(NameRow4(4 * b + c), Layout(2, b, c), 0x40 + 4 * b + c) <==> Official(2, b, c)
  {
  }

  lemma ReadsBack5(b: nat, c: nat)
    requires b < 4 && c < 4
    ensures Capitals(NameRow5(4 * b + c))
    ensures NamesItself(NameRow5(4 * b + c), Layout(2, 4 + b, c), 0x50 + 4 * b + c) <==> Official(2, 4 + b, c)
  {
  }

  lemma ReadsBack6(b: nat, c: nat)
    requires b < 4 && c < 4
    ensures Capitals(NameRow6(4 * b + c))
    ensures NamesItself(NameRow6(4 * b + c), Layout(3, b, c), 0x60 + 4 * b + c) <==> Official(3, b, c)
  {
  }

  lemma ReadsBack7(b: nat, c: nat)
    requires b < 4 && c < 4
    ensures Capitals(NameRow7(4 * b + c))
    ensures NamesItself(NameRow7(4 * b + c), Layout(3, 4 + b, c), 0x70 + 4 * b + c) <==> Official(3, 4 + b, c)
  {
  }

  lemma ReadsBack8(b: nat, c: nat)
    requires b < 4 && c < 4
    ensures Capitals(NameRow8(4 * b + c))
    ensures NamesItself(NameRow8(4 * b + c), Layout(4, b, c), 0x80 + 4 * b + c) <==> Official(4, b, c)
  {
  }

  lemma ReadsBack9(b: nat, c: nat)
    requires b < 4 && c < 4
    ensures Capitals(NameRow9(4 * b + c))
    ensures NamesItself(NameRow9(4 * b + c), Layout(4, 4 + b, c), 0x90 + 4 * b + c) <==> Official(4, 4 + b, c)
  {
  }

  lemma ReadsBackA(b: nat, c: nat)
    requires b < 4 && c < 4
    ensures Capitals(NameRowA(4 * b + c))
    ensures NamesItself(NameRowA(4 * b + c), Layout(5, b, c), 0xA0 + 4 * b + c) <==> Official(5, b, c)
  {
  }

  lemma ReadsBackB(b: nat, c: nat)
    requires b < 4 && c < 4
    ensures Capitals(NameRowB(4 * b + c))
    ensures NamesItself(NameRowB(4 * b + c), Layout(5, 4 + b, c), 0xB0 + 4 * b + c) <==> Official(5, 4 + b, c)
  {
  }

  lemma ReadsBackC(b: nat, c: nat)
    requires b < 4 && c < 4
    ensures Capitals(NameRowC(4 * b + c))
    ensures NamesItself(NameRowC(4 * b + c), Layout(6, b, c), 0xC0 + 4 * b + c) <==> Official(6, b, c)
  {
  }

  lemma ReadsBackD(b: nat, c: nat)
    requires b < 4 && c < 4
    ensures Capitals(NameRowD(4 * b + c))
    ensures NamesItself(NameRowD(4 * b + c), Layout(6, 4 + b, c), 0xD0 + 4 * b + c) <==> Official(6, 4 + b, c)
  {
  }

  lemma ReadsBackE(b: nat, c: nat)
    requires b < 4 && c < 4
    ensures Capitals(NameRowE(4 * b + c))
    ensures NamesItself(NameRowE(4 * b + c), Layout(7, b, c), 0xE0 + 4 * b + c) <==> Official(7, b, c)
  {
  }

  lemma ReadsBackF(b: nat, c: nat)
    requires b < 4 && c < 4
    ensures Capitals(NameRowF(4 * b + c))
    ensures NamesItself(NameRowF(4 * b + c), Layout(7, 4 + b, c), 0xF0 + 4 * b + c) <==> Official(7, 4 + b, c)
  {
  }

  // ----- Lines -----

  /** What a hexadecimal operand looks like. */
  lemma HexTextShape(f: Format, lo: Byte, hi: Byte)
    ensures var t := HexText(f, lo, hi);
            && (t != "" ==> t[0] == '$' && AllIn(t[1..], HexDigits))
            && |t| == (if f.Bare? || f.LetterA? || f.Relative8? then 0 else 1 + 2 * f.Size())
            && (t != "" ==> Assembler.HexValue(t[1..]) == if f.Size() == 2 then Join(lo, hi) else lo)
  {
    hide Hex2, Hex4, Assembler.HexValue;
    HexPair(lo);
    HexQuad(Join(lo, hi));
    assert ("$" + Hex2(lo))[1..] == Hex2(lo);
    assert ("$" + Hex4(Join(lo, hi)))[1..] == Hex4(Join(lo, hi));
  }

  /** No operand starts like the group before it. */
  lemma SuffixStart(f: Format, lo: Byte)
    ensures var t := Suffix(f, lo);
            && (f.LetterA? || f.Relative8? ==> t != "" && t[0] !in " $(#" && !Spaces.Has(t[0]))
            && (!f.LetterA? && !f.Relative8? && t != "" ==> !HexDigits.Has(t[0]))
  {
    if f.Relative8? {
      SignedPrints(lo);
    }
  }

  /** The captures of a listing line. */
  function CapturesOf(name: string, f: Format, lo: Byte, hi: Byte): Captures {
    Captures(name, Prefix(f) == "(", Prefix(f) == "#", HexText(f, lo, hi), TailOf(f, lo))
  }

  lemma ScanName(s: string, name: string, rest: string)
    requires Capitals(name) && s == name + rest
    requires rest == "" || (|rest| > 1 && rest[0] == ' ' && !Spaces.Has(rest[1]))
    ensures s[..3] == name && s[3..] == rest
    ensures RunEnd(s, 0, Letters) == 3
    ensures RunEnd(s, 3, Spaces) == if rest == "" then 3 else 4
  {
    assert s[0] == name[0] && s[1] == name[1] && s[2] == name[2];
    RunIs(s, 0, Letters, 3);
    if rest != "" {
      assert s[3] == rest[0] && s[4] == rest[1];
      RunIs(s, 3, Spaces, 4);
    }
  }

  lemma ScanLine(s: string, name: string, f: Format, lo: Byte, hi: Byte)
    requires Capitals(name)
    requires s == name + if f.Bare? then "" else " " + OperandText(f, lo, hi)
    ensures Captured(s) == Some(CapturesOf(name, f, lo, hi))
  {
    hide ScanTail, HexText, TailOf, HexEnd, OperandText, RunEnd;
    if f.Bare? {
      ScanName(s, name, "");
      HexEnds(s, 3, "");
      ScanBare(s, f, lo, hi);
      assert s[3..3] == "";
    } else {
      var operand := OperandText(f, lo, hi);
      OperandStart(f, lo, hi);
      ScanName(s, name, " " + operand);
      assert s[4..] == s[3..][1..] == operand;
      assert s[3] == s[3..][0];
      ScanOperand(s, f, lo, hi);
    }
  }

  /** No operand starts with a space. */
  lemma OperandStart(f: Format, lo: Byte, hi: Byte)
    requires !f.Bare?
    ensures var t := OperandText(f, lo, hi); t != "" && !Spaces.Has(t[0])
  {
    hide OperandText, HexText, Suffix;
    OperandParts(f, lo, hi);
    HexTextShape(f, lo, hi);
    SuffixStart(f, lo);
  }

  lemma ScanBare(s: string, f: Format, lo: Byte, hi: Byte)
    requires |s| == 3 && f.Bare?
    ensures ScanTail(s, 3) == Some(TailOf(f, lo)) && HexText(f, lo, hi) == ""
  {
    ScanSuffix(s, 3, f, lo);
  }

  /** Three parts of a text, side by side. */
  lemma Parts(s: string, i: nat, x: string, y: string, z: string)
    requires i <= |s| && s[i..] == x + y + z
    ensures i + |x| + |y| + |z| == |s|
    ensures s[i..i + |x|] == x && s[i + |x|..i + |x| + |y|] == y && s[i + |x| + |y|..] == z
  {
    var t := s[i..];
    assert s[i..i + |x|] == t[..|x|] == x;
    assert s[i + |x|..i + |x| + |y|] == t[|x|..|x| + |y|] == y;
    assert s[i + |x| + |y|..] == t[|x| + |y|..] == z;
  }

  /** A dollar sign, digits, and then no digit. */
  lemma HexEnds(s: string, q: nat, hex: string)
    requires q + |hex| <= |s| && s[q..q + |hex|] == hex
    requires if hex == "" then q == |s| || s[q] != '$' else |hex| > 1 && hex[0] == '$' && AllIn(hex[1..], HexDigits)
    requires hex != "" && q + |hex| < |s| ==> !HexDigits.Has(s[q + |hex|])
    ensures HexEnd(s, q) == q + |hex|
  {
    if hex != "" {
      var h := q + |hex|;
      assert s[q] == hex[0];
      forall k | q + 1 <= k < h
        ensures HexDigits.Has(s[k])
      {
        assert s[k] == hex[1..][k - q - 1];
      }
      RunIs(s, q + 1, HexDigits, h);
    }
  }

  /** The scan from the operand on. */
  lemma ScanOperand(s: string, f: Format, lo: Byte, hi: Byte)
    requires |s| >= 4 && s[3] == ' ' && s[4..] == OperandText(f, lo, hi) && !f.Bare?
    ensures |s| > 4 && !Spaces.Has(s[4])
    ensures var p := After(s, 4, '(');
            var q := After(s, p, '#');
            var h := q + |HexText(f, lo, hi)|;
            && (p > 4 <==> Prefix(f) == "(") && (q > p <==> Prefix(f) == "#") && q == 4 + |Prefix(f)|
            && HexEnd(s, q) == h <= |s| && s[q..h] == HexText(f, lo, hi)
            && ScanTail(s, h) == Some(TailOf(f, lo))
  {
    hide OperandText, HexText, Suffix, TailOf, ScanTail, HexEnd;
    var head, hex, tail := Prefix(f), HexText(f, lo, hi), Suffix(f, lo);
    OperandParts(f, lo, hi);
    HexTextShape(f, lo, hi);
    SuffixStart(f, lo);
    var q := 4 + |head|;
    var h := q + |hex|;
    Parts(s, 4, head, hex, tail);
    assert head != "" ==> s[4] == s[4..q][0];
    assert hex != "" ==> s[q] == s[q..h][0];
    assert tail != "" ==> s[h] == s[h..][0];
    HexEnds(s, q, hex);
    ScanSuffix(s, h, f, lo);
  }

  lemma ClassifyLine(name: string, f: Format, lo: Byte, hi: Byte)
    ensures Assembler.Classify(CapturesOf(name, f, lo, hi)) == FormOf(f)
  {
    hide HexText, SignedDecimal;
    HexTextShape(f, lo, hi);
    SignedPrints(lo);
  }

  /** The bytes of an instruction; the operand bytes its format does not use are ignored. */
  function Encoding(code: Byte, lo: Byte, hi: Byte): seq<Byte> {
    [code] + [lo, hi][..FormatOf(code).Size()]
  }

  lemma OperandBytesBack(lo: Byte, hi: Byte, v: int)
    ensures Assembler.OperandBytes(0, v) == [lo, hi][..0]
    ensures Low(v) == lo ==> Assembler.OperandBytes(1, v) == [lo, hi][..1]
    ensures v == Join(lo, hi) ==> Assembler.OperandBytes(2, v) == [lo, hi][..2]
  {
    JoinSplit(Join(lo, hi), lo, hi);
  }

  lemma OperandReadsBack(name: string, f: Format, lo: Byte, hi: Byte)
    ensures var c := CapturesOf(name, f, lo, hi);
            && IsHex(c.hex) && IsSigned(c.tail.rel)
            && Assembler.OperandBytes(FormOf(f).Params(), Assembler.Value(c)) == [lo, hi][..f.Size()]
  {
    hide HexText, SignedDecimal, Assembler.HexValue, Assembler.SignedValue, Assembler.OperandBytes;
    HexTextShape(f, lo, hi);
    SignedPrints(lo);
    OperandBytesBack(lo, hi, Assembler.Value(CapturesOf(name, f, lo, hi)));
  }

  /**
   The text of an instruction assembles to exactly its bytes if and only if the opcode is
   documented. Undocumented names are not in the mapper, and the undocumented variants of
   NOP and SBC print text that is refused or means another opcode of the same length.
   */
  lemma LineReadsBack(code: Byte, lo: Byte, hi: Byte)
    ensures Assembler.AssembleLine(Line(code, lo, hi)) == Assembler.Emits(Encoding(code, lo, hi)) <==> Documented(code)
    ensures match Assembler.AssembleLine(Line(code, lo, hi))
            case Blank => false
            case Bad => !Documented(code)
            case Emits(bytes) => |bytes| == 1 + FormatOf(code).Size() && (bytes[0] == code <==> Documented(code))
  {
    hide NameOf, FormatOf, OperandText, HexText, TailOf, Documented, Captured, Assembler.Encode, Assembler.Classify;
    hide Assembler.Value, Assembler.OperandBytes;
    var s, name, f := Line(code, lo, hi), NameOf(code), FormatOf(code);
    OpcodeReadsBack(code);
    assert s[0] == name[0];
    RunIs(s, 0, Spaces, 0);
    assert s[0..] == s;
    ScanLine(s, name, f, lo, hi);
    ClassifyLine(name, f, lo, hi);
    CapitalsStay(name);
    OperandReadsBack(name, f, lo, hi);
    assert Encoding(code, lo, hi)[0] == code;
  }

  // ----- Programs -----

  /** The first lines of a listing. */
  function Listing(image: Image, pc: Word, lines: nat): seq<string>
    decreases lines
  {
    if lines == 0 then [] else [LineAt(image, pc)] + Listing(image, NextLine(image, pc), lines - 1)
  }

  /** Bytes that those lines cover. */
  function Extent(image: Image, pc: Word, lines: nat): nat
    decreases lines
  {
    if lines == 0 then 0
    else 1 + FormatOf(Peek(image, pc)).Size() + Extent(image, NextLine(image, pc), lines - 1)
  }

  /** Every instruction listed is documented. */
  predicate AllDocumented(image: Image, pc: Word, lines: nat)
    decreases lines
  {
    lines > 0 ==> Documented(Peek(image, pc)) && AllDocumented(image, NextLine(image, pc), lines - 1)
  }

  /** The byte so many places after an address. */
  function Cell(image: Image, pc: Word, k: nat): Byte {
    Peek(image, Wrap(pc + k))
  }

  /** The bytes of memory from an address on. */
  function Bytes(image: Image, pc: Word, n: nat): seq<Byte> {
    seq(n, (k: nat) => Cell(image, pc, k))
  }

  lemma EncodingInPlace(image: Image, pc: Word)
    ensures var code := Peek(image, pc);
            Encoding(code, Peek(image, Wrap(pc + 1)), Peek(image, Wrap(pc + 2))) == Bytes(image, pc, 1 + FormatOf(code).Size())
  {
    hide FormatOf, Peek;
  }

  lemma CellThen(image: Image, pc: Word, m: nat, k: nat)
    ensures Cell(image, Wrap(pc + m), k) == Cell(image, pc, m + k)
  {
    hide Peek;
    assert Wrap(Wrap(pc + m) + k) == Wrap(pc + (m + k));
  }

  lemma BytesThen(image: Image, pc: Word, m: nat, n: nat)
    ensures Bytes(image, pc, m) + Bytes(image, Wrap(pc + m), n) == Bytes(image, pc, m + n)
  {
    hide Cell;
    forall k {:trigger Cell(image, Wrap(pc + m), k)} | 0 <= k < n
      ensures Cell(image, Wrap(pc + m), k) == Cell(image, pc, m + k)
    {
      CellThen(image, pc, m, k);
    }
  }

  predicate NoErrors(lines: seq<string>) {
    forall k :: 0 <= k < |lines| ==> !Assembler.AssembleLine(lines[k]).Bad?
  }

  lemma NoErrorsThen(line: string, rest: seq<string>)
    ensures NoErrors([line] + rest) <==> !Assembler.AssembleLine(line).Bad? && NoErrors(rest)
  {
    var lines := [line] + rest;
    assert lines[0] == line;
    assert forall k :: 0 <= k < |rest| ==> lines[k + 1] == rest[k];
  }

  /** Equal concatenations with equally long first parts. */
  lemma SplitEqual<T>(a: seq<T>, b: seq<T>, a': seq<T>, b': seq<T>)
    requires |a| == |a'|
    ensures a + b == a' + b' <==> a == a' && b == b'
  {
    assert (a + b)[..|a|] == a && (a + b)[|a|..] == b;
    assert (a' + b')[..|a|] == a' && (a' + b')[|a|..] == b';
  }

  /** What a listing emits is what it lists exactly when every instruction is documented. */
  lemma {:induction false} ListingEmits(image: Image, pc: Word, lines: nat)
    ensures var listing := Listing(image, pc, lines);
            var bytes := Bytes(image, pc, Extent(image, pc, lines));
            && (AllDocumented(image, pc, lines) ==> NoErrors(listing))
            && (NoErrors(listing) ==> (Assembler.Emitted(listing) == bytes <==> AllDocumented(image, pc, lines)))
            && (NoErrors(listing) ==> |Assembler.Emitted(listing)| == |bytes|)
    decreases lines
  {
    hide FormatOf, Peek, Encoding, Assembler.AssembleLine, Line, Documented;
    if lines > 0 {
      hide Bytes, NoErrors;
      var code, lo, hi := Peek(image, pc), Peek(image, Wrap(pc + 1)), Peek(image, Wrap(pc + 2));
      var next, size := NextLine(image, pc), 1 + FormatOf(code).Size();
      var rest, extent := Listing(image, next, lines - 1), Extent(image, next, lines - 1);
      var listing := Listing(image, pc, lines);
      ListingEmits(image, next, lines - 1);
      LineReadsBack(code, lo, hi);
      EncodingInPlace(image, pc);
      BytesThen(image, pc, size, extent);
      NoErrorsThen(LineAt(image, pc), rest);
      assert listing[0] == LineAt(image, pc) && listing[1..] == rest;
      match Assembler.AssembleLine(listing[0]) {
        case Emits(bytes) =>
          SplitEqual(bytes, Assembler.Emitted(rest), Bytes(image, pc, size), Bytes(image, next, extent));
          BytesLength(image, pc, size);
          BytesLength(image, next, extent);
        case Bad =>
        case Blank => assert false;
      }
    }
  }

  lemma BytesLength(image: Image, pc: Word, n: nat)
    ensures |Bytes(image, pc, n)| == n
  {
  }

  /** Memory from `base` on, copied into an otherwise prepared image. */
  predicate Holds(r: Assembler.Image64K, image: Image, base: Word, n: nat) {
    && (forall ad :: 0 <= ad < 0x1_0000 && base <= ad < base + n ==> r[ad] == Peek(image, ad))
    && Join(r[0xfffc], r[0xfffd]) == base
    && forall ad :: 0 <= ad < 0x1_0000 && !(base <= ad < base + n) && ad != 0xfffc && ad != 0xfffd ==> r[ad] == 0xff
  }

  lemma LaidByte(start: Assembler.Image64K, base: Word, bytes: seq<Byte>, ad: Word)
    requires base + |bytes| <= 0x1_0000
    ensures Assembler.Lay(start, base, bytes)[ad] == if base <= ad < base + |bytes| then bytes[ad - base] else start[ad]
  {
    hide Assembler.Lay;
    Assembler.LayFlat(start, base, bytes);
  }

  lemma LaidHolds(image: Image, base: Word, bytes: seq<Byte>)
    requires base + |bytes| <= 0xfffc
    ensures Holds(Assembler.Lay(Assembler.Prepared(base), base, bytes), image, base, |bytes|)
            <==> bytes == Bytes(image, base, |bytes|)
  {
    hide Assembler.Lay, Assembler.Prepared, Holds, Bytes;
    var r := Assembler.Lay(Assembler.Prepared(base), base, bytes);
    if Holds(r, image, base, |bytes|) {
      HeldBytes(image, base, bytes);
    }
    if bytes == Bytes(image, base, |bytes|) {
      BytesHeld(image, base, bytes);
    }
  }

  lemma HeldBytes(image: Image, base: Word, bytes: seq<Byte>)
    requires base + |bytes| <= 0xfffc
    requires Holds(Assembler.Lay(Assembler.Prepared(base), base, bytes), image, base, |bytes|)
    ensures bytes == Bytes(image, base, |bytes|)
  {
    hide Peek, Assembler.Lay, Assembler.Prepared;
    forall k | 0 <= k < |bytes|
      ensures bytes[k] == Cell(image, base, k)
    {
      LaidByte(Assembler.Prepared(base), base, bytes, base + k);
    }
  }

  lemma BytesHeld(image: Image, base: Word, bytes: seq<Byte>)
    requires base + |bytes| <= 0xfffc
    requires bytes == Bytes(image, base, |bytes|)
    ensures Holds(Assembler.Lay(Assembler.Prepared(base), base, bytes), image, base, |bytes|)
  {
    hide Peek, Assembler.Lay, Assembler.Prepared, Bytes;
    var start, n := Assembler.Prepared(base), |bytes|;
    var r := Assembler.Lay(start, base, bytes);
    PreparedBytes(base);
    forall ad | 0 <= ad < 0x1_0000
      ensures r[ad] == if base <= ad < base + n then Peek(image, ad) else start[ad]
    {
      LaidByte(start, base, bytes, ad);
      if base <= ad < base + n {
        ByteAt(image, base, n, ad);
      }
    }
  }

  lemma ByteAt(image: Image, base: Word, n: nat, ad: Word)
    requires base <= ad < base + n
    ensures |Bytes(image, base, n)| == n && Bytes(image, base, n)[ad - base] == Peek(image, ad)
  {
    hide Peek;
    assert Bytes(image, base, n)[ad - base] == Cell(image, base, ad - base);
  }

  lemma PreparedBytes(base: Word)
    ensures var start := Assembler.Prepared(base);
            && Join(start[0xfffc], start[0xfffd]) == base
            && forall ad :: 0 <= ad < 0x1_0000 && ad != 0xfffc && ad != 0xfffd ==> start[ad] == 0xff
  {
    JoinSplit(base, 0, 0);
  }

  /**
   Listing a program and assembling the listing at the same base gives the program back,
   byte for byte, in an image that is $FF elsewhere except for the reset vector, if and
   only if every instruction is documented. The memory may be of any size; the code must
   end below the vector.
   */
  lemma ProgramReadsBack(image: Image, base: Word, lines: nat)
    requires base + Extent(image, base, lines) <= 0xfffc
    ensures var out := Assembler.Assemble(base, Listing(image, base, lines));
            out.Assembled? && Holds(out.image, image, base, Extent(image, base, lines))
            <==> AllDocumented(image, base, lines)
  {
    hide Peek, Extent, Listing, AllDocumented, Assembler.Lay, Assembler.Assemble, Assembler.AssembleLine, Holds, Bytes;
    var listing, n := Listing(image, base, lines), Extent(image, base, lines);
    ListingEmits(image, base, lines);
    Assembler.FirstError(base, listing);
    BytesLength(image, base, n);
    if NoErrors(listing) {
      Assembler.LaidAtBase(base, listing);
      LaidHolds(image, base, Assembler.Emitted(listing));
    }
  }
}
