/**
 What the assembler makes of source text in general (src/Asm.cpp): letter case never
 matters, which lines are passed over, and which operand shapes select which form.
 */
module SourceText {
  import opened Mnemonics
  import opened Scanner
  import opened Disassembler
  import opened RoundTrip
  import Assembler

  // ----- Letter case -----

  predicate SameLetter(c: char, d: char) {
    c == d
    || ('a' <= c <= 'z' && d as int == c as int - 32)
    || ('a' <= d <= 'z' && c as int == d as int - 32)
  }

  /** The texts differ at most in letter case. */
  predicate SameText(s: string, t: string) {
    |s| == |t| && forall k :: 0 <= k < |s| ==> SameLetter(s[k], t[k])
  }

  lemma SameClass(c: char, d: char, cls: CharClass)
    requires SameLetter(c, d)
    ensures cls.Has(c) == cls.Has(d)
  {
  }

  lemma SameRun(s: string, t: string, i: nat, cls: CharClass)
    requires SameText(s, t) && i <= |s|
    ensures RunEnd(s, i, cls) == RunEnd(t, i, cls)
  {
    hide SameLetter, CharClass.Has;
    var j := RunEnd(s, i, cls);
    forall k | i <= k < |s|
      ensures cls.Has(t[k]) == cls.Has(s[k])
    {
      SameClass(s[k], t[k], cls);
    }
    RunIs(t, i, cls, j);
  }

  /** A character that is no letter is the same in both. */
  lemma SameMark(s: string, t: string, i: nat, c: char)
    requires SameText(s, t) && !Letters.Has(c)
    ensures At(s, i, c) == At(t, i, c)
  {
    if i < |s| {
      SameClass(s[i], t[i], Letters);
    }
  }

  lemma SameEither(s: string, t: string, i: nat, lower: char, upper: char)
    requires SameText(s, t) && 'a' <= lower <= 'z' && upper as int == lower as int - 32
    ensures (At(s, i, lower) || At(s, i, upper)) == (At(t, i, lower) || At(t, i, upper))
  {
  }

  lemma SameIndexed(s: string, t: string, i: nat)
    requires SameText(s, t) && i <= |s|
    ensures ScanIndex(s, i) == ScanIndex(t, i)
  {
    hide SameText;
    assert |s| == |t| by { SameLengths(s, t); }
    SameRun(s, t, i, Spaces);
    var comma := RunEnd(s, i, Spaces);
    SameMark(s, t, comma, ',');
    if At(s, comma, ',') {
      SameRun(s, t, comma + 1, Spaces);
      var k := RunEnd(s, comma + 1, Spaces);
      SameEither(s, t, k, 'x', 'X');
      SameEither(s, t, k, 'y', 'Y');
    }
  }

  lemma SameLengths(s: string, t: string)
    requires SameText(s, t)
    ensures |s| == |t|
  {
  }

  lemma SameHexEnd(s: string, t: string, i: nat)
    requires SameText(s, t) && i <= |s|
    ensures HexEnd(s, i) == HexEnd(t, i)
  {
    hide SameText;
    SameLengths(s, t);
    SameMark(s, t, i, '$');
    if At(s, i, '$') {
      SameRun(s, t, i + 1, HexDigits);
    }
  }

  lemma SameSignedEnd(s: string, t: string, i: nat)
    requires SameText(s, t) && i <= |s|
    ensures SignedEnd(s, i) == SignedEnd(t, i)
  {
    hide SameText;
    SameLengths(s, t);
    SameMark(s, t, i, '+');
    SameMark(s, t, i, '-');
    SameRun(s, t, if At(s, i, '+') || At(s, i, '-') then i + 1 else i, Digits);
  }

  lemma SameFinish(s: string, t: string, i: nat)
    requires SameText(s, t) && i <= |s|
    ensures Finished(s, i) == Finished(t, i)
  {
    SameRun(s, t, i, Spaces);
    SameMark(s, t, RunEnd(s, i, Spaces), ';');
    forall k | 0 <= k < |s|
      ensures (s[k] == '\n') == (t[k] == '\n') && (s[k] == '\r') == (t[k] == '\r')
    {
      SameMark(s, t, k, '\n');
      SameMark(s, t, k, '\r');
    }
  }

  /** A displacement has no letters, so it is the same text. */
  lemma SameDisplacement(s: string, t: string, i: nat, j: nat)
    requires SameText(s, t) && i <= j <= |s| && IsSigned(s[i..j])
    ensures s[i..j] == t[i..j]
  {
    forall k | i <= k < j
      ensures s[k] == t[k]
    {
      var u := s[i..j];
      assert u[k - i] == s[k];
      if u[0] == '-' || u[0] == '+' {
        if k > i {
          assert u[1..][k - i - 1] == s[k];
        }
      }
      assert Digits.Has(s[k]) || s[k] == '-' || s[k] == '+';
    }
  }

  lemma SameScanTail(s: string, t: string, h: nat)
    requires SameText(s, t) && h <= |s|
    ensures ScanTail(s, h) == ScanTail(t, h)
  {
    hide SameText, ScanIndex, SignedEnd, Finished, RunEnd;
    SameLengths(s, t);
    SameIndexed(s, t, h);
    var x := ScanIndex(s, h);
    SameMark(s, t, x.next, ')');
    var y := After(s, x.next, ')');
    SameIndexed(s, t, y);
    var z := ScanIndex(s, y);
    SameSignedEnd(s, t, z.next);
    var r := SignedEnd(s, z.next);
    SameEither(s, t, r, 'a', 'A');
    SameFinish(s, t, if At(s, r, 'a') || At(s, r, 'A') then r + 1 else r);
    SameDisplacement(s, t, z.next, r);
  }

  lemma SameSlice(s: string, t: string, i: nat, j: nat)
    requires SameText(s, t) && i <= j <= |s|
    ensures SameText(s[i..j], t[i..j])
  {
  }

  /** What is captured differs only in the case of the name and of the hexadecimal digits. */
  lemma SameCaptured(s: string, t: string)
    requires SameText(s, t)
    ensures Captured(s).Some? == Captured(t).Some?
    ensures Captured(s).Some? ==>
              var c, d := Captured(s).value, Captured(t).value;
              && SameText(c.name, d.name) && SameText(c.hex, d.hex)
              && c.opar == d.opar && c.imm == d.imm && c.tail == d.tail
  {
    hide SameText, ScanTail, HexEnd, RunEnd;
    SameLengths(s, t);
    SameRun(s, t, 0, Letters);
    var a := RunEnd(s, 0, Letters);
    SameRun(s, t, a, Spaces);
    var b := RunEnd(s, a, Spaces);
    SameMark(s, t, b, '(');
    var p := After(s, b, '(');
    SameMark(s, t, p, '#');
    var q := After(s, p, '#');
    SameHexEnd(s, t, q);
    SameScanTail(s, t, HexEnd(s, q));
    SameSlice(s, t, 0, a);
    SameSlice(s, t, q, HexEnd(s, q));
    assert s[..a] == s[0..a] && t[..a] == t[0..a];
  }

  lemma {:induction false} SameUpper(s: string, t: string)
    requires SameText(s, t)
    ensures Assembler.Upper(s) == Assembler.Upper(t)
  {
    forall k | 0 <= k < |s|
      ensures Assembler.UpperChar(s[k]) == Assembler.UpperChar(t[k])
    {
      assert SameLetter(s[k], t[k]);
    }
    assert forall k :: 0 <= k < |s| ==> Assembler.Upper(s)[k] == Assembler.Upper(t)[k];
  }

  lemma SameDigit(c: char, d: char)
    requires SameLetter(c, d) && HexDigits.Has(c) && HexDigits.Has(d)
    ensures Assembler.DigitValue(c) == Assembler.DigitValue(d)
  {
  }

  lemma {:induction false} SameHexValue(s: string, t: string)
    requires SameText(s, t) && AllIn(s, HexDigits) && AllIn(t, HexDigits)
    ensures Assembler.HexValue(s) == Assembler.HexValue(t)
    decreases |s|
  {
    hide SameLetter, CharClass.Has;
    if s != "" {
      SameHexValue(s[..|s| - 1], t[..|t| - 1]);
      SameDigit(s[|s| - 1], t[|t| - 1]);
    }
  }

  lemma SameValue(c: Captures, d: Captures)
    requires SameText(c.hex, d.hex) && c.tail == d.tail
    requires IsHex(c.hex) && IsSigned(c.tail.rel) && IsHex(d.hex)
    ensures Assembler.Value(c) == Assembler.Value(d)
  {
    if c.hex != "" {
      SameSlice(c.hex, d.hex, 1, |c.hex|);
      SameHexValue(c.hex[1..], d.hex[1..]);
    }
  }

  /** Lines that differ only in letter case assemble alike. */
  lemma CaseNeverMatters(s: string, t: string)
    requires SameText(s, t)
    ensures Assembler.AssembleLine(s) == Assembler.AssembleLine(t)
  {
    hide SameText, Captured, RunEnd, Assembler.Encode, Assembler.Value, Assembler.OperandBytes, Assembler.Upper;
    SameLengths(s, t);
    SameRun(s, t, 0, Spaces);
    var e := RunEnd(s, 0, Spaces);
    SameSlice(s, t, e, |s|);
    var u, v := LeftTrimmed(s), LeftTrimmed(t);
    assert u == s[e..|s|] && v == t[e..|s|];
    SameLengths(u, v);
    SameMark(u, v, 0, ';');
    SameCaptured(u, v);
    if Captured(u).Some? {
      var c, d := Captured(u).value, Captured(v).value;
      Assembler.CapturesConvert(u);
      Assembler.CapturesConvert(v);
      SameUpper(c.name, d.name);
      SameLengths(c.hex, d.hex);
      SameValue(c, d);
    }
  }

  // ----- Lines passed over -----

  /** Spaces up to a place where the line ends or a semicolon stands. */
  predicate NothingBefore(s: string, i: nat) {
    i <= |s| && (forall k :: 0 <= k < i ==> Spaces.Has(s[k])) && (i == |s| || s[i] == ';')
  }

  /** A line is passed over exactly when nothing but spaces stands before its end or its first semicolon. */
  lemma BlankExactly(s: string)
    ensures Assembler.AssembleLine(s).Blank? <==> exists i: nat :: NothingBefore(s, i)
  {
    hide Captured, Assembler.Encode, Assembler.Value, Assembler.Classify, CharClass.Has;
    var e := RunEnd(s, 0, Spaces);
    var t := LeftTrimmed(s);
    assert t != "" ==> t[0] == s[e];
    if Assembler.AssembleLine(s).Blank? {
      assert NothingBefore(s, e);
    }
    forall i: nat | NothingBefore(s, i)
      ensures Assembler.AssembleLine(s).Blank?
    {
      MarkIsNoSpace();
      RunIs(s, 0, Spaces, i);
    }
  }

  lemma MarkIsNoSpace()
    ensures !Spaces.Has(';')
  {
  }

  // ----- Operand shapes -----

  /** The captures have the shape in which the disassembler writes a format, whatever the bytes. */
  predicate Shaped(c: Captures, f: Format) {
    && c.opar == c.tail.cpar == (f.Pointer16? || f.PointerX? || f.PointerY?)
    && c.imm == f.Immediate8?
    && |c.hex| == (if f.Bare? || f.LetterA? || f.Relative8? then 0 else if f.Size() == 2 then 5 else 3)
    && c.tail.inner == (match f
                        case PointerX => By(X)
                        case ZeroIndexed(r, _) => By(r)
                        case WideIndexed(r, _) => By(r)
                        case _ => NoIndex)
    && c.tail.outer == (if f.PointerY? then By(Y) else NoIndex)
    && (c.tail.rel != "") == f.Relative8?
    && c.tail.rega == f.LetterA?
  }

  /** A form is selected exactly by the operand shape of a format that stands for it; every other shape is refused. */
  lemma ClassifiedExactly(c: Captures, form: Assembler.Form)
    requires form != Assembler.Unknown
    ensures Assembler.Classify(c) == form <==> exists f: Format :: FormOf(f) == form && Shaped(c, f)
  {
    if Assembler.Classify(c) == form {
      var f := FormatFor(form);
      assert FormOf(f) == form && Shaped(c, f);
    }
    forall f: Format | FormOf(f) == form && Shaped(c, f)
      ensures Assembler.Classify(c) == form
    {
      ShapeSelects(c, f);
    }
  }

  function FormatFor(form: Assembler.Form): Format
    requires form != Assembler.Unknown
  {
    match form
    case Absolute => Wide
    case AbsoluteX => WideIndexed(X, true)
    case AbsoluteY => WideIndexed(Y, true)
    case Accumulator => LetterA
    case Immediate => Immediate8
    case Implied => Bare
    case Indirect => Pointer16
    case IndirectX => PointerX
    case IndirectY => PointerY
    case Relative => Relative8
    case ZeroPage => Zero
    case ZeroPageX => ZeroIndexed(X, true)
    case ZeroPageY => ZeroIndexed(Y, true)
  }

  lemma ShapeSelects(c: Captures, f: Format)
    requires Shaped(c, f)
    ensures Assembler.Classify(c) == FormOf(f)
  {
  }

  /** Zeros in front of a decimal number change nothing. */
  lemma {:induction false} LeadingZero(s: string)
    requires AllIn(s, Digits)
    ensures AllIn("0" + s, Digits) && Assembler.DecimalValue("0" + s) == Assembler.DecimalValue(s)
    decreases |s|
  {
    var t := "0" + s;
    if s == "" {
      assert t[..0] == "";
    } else {
      LeadingZero(s[..|s| - 1]);
      assert t[..|t| - 1] == "0" + s[..|s| - 1];
    }
  }

  /** The k zeros and the digits of n. */
  function Padded(k: nat, n: nat): string {
    if k == 0 then Decimal(n) else "0" + Padded(k - 1, n)
  }

  lemma {:induction false} PaddedValue(k: nat, n: nat)
    ensures var s := Padded(k, n); s != "" && AllIn(s, Digits) && Assembler.DecimalValue(s) == n
  {
    if k == 0 {
      DecimalPrints(n);
    } else {
      PaddedValue(k - 1, n);
      LeadingZero(Padded(k - 1, n));
    }
  }

  /** A displacement denotes the number it spells, however many zeros it has in front, with either sign or none. */
  lemma DisplacementSpelled(c: Captures, k: nat, n: nat)
    requires c.hex == "" && c.tail.rel in {Padded(k, n), "+" + Padded(k, n), "-" + Padded(k, n)}
    ensures IsSigned(c.tail.rel)
    ensures Assembler.Value(c) == if c.tail.rel[0] == '-' then 0 - n else n
  {
    hide Padded, Assembler.DecimalValue;
    PaddedValue(k, n);
    var s := Padded(k, n);
    assert Digits.Has(s[0]);
    assert ("+" + s)[1..] == s && ("-" + s)[1..] == s;
  }
}
