/**
 The operand grammar of the assembler (src/Asm.cpp), as a recogniser that goes through the
 capture groups of its regular expression left to right, each group taking as much as it
 can.
 */
module Scanner {
  import opened Mnemonics

  datatype Option<T> = None | Some(value: T)

  datatype CharClass = Spaces | Letters | Digits | HexDigits {
    predicate Has(c: char) {
      match this
      case Spaces => c == ' ' || '\t' <= c <= '\r'
      case Letters => 'a' <= c <= 'z' || 'A' <= c <= 'Z'
      case Digits => '0' <= c <= '9'
      case HexDigits => '0' <= c <= '9' || 'a' <= c <= 'f' || 'A' <= c <= 'F'
    }
  }

  /** Where the longest stretch of a class starting at `i` ends. */
  function RunEnd(s: string, i: nat, cls: CharClass): (j: nat)
    requires i <= |s|
    ensures i <= j <= |s|
    ensures forall k :: i <= k < j ==> cls.Has(s[k])
    ensures j < |s| ==> !cls.Has(s[j])
    decreases |s| - i
  {
    if i < |s| && cls.Has(s[i]) then RunEnd(s, i + 1, cls) else i
  }

  lemma RunIs(s: string, i: nat, cls: CharClass, j: nat)
    requires i <= j <= |s|
    requires forall k :: i <= k < j ==> cls.Has(s[k])
    requires j < |s| ==> !cls.Has(s[j])
    ensures RunEnd(s, i, cls) == j
  {
  }

  predicate AllIn(s: string, cls: CharClass) {
    forall k :: 0 <= k < |s| ==> cls.Has(s[k])
  }

  /** An optional sign and decimal digits. */
  predicate IsSigned(s: string) {
    if s != "" && (s[0] == '-' || s[0] == '+') then AllIn(s[1..], Digits) else AllIn(s, Digits)
  }

  /** Empty, or a dollar sign and hexadecimal digits. */
  predicate IsHex(s: string) {
    s != "" ==> AllIn(s[1..], HexDigits)
  }

  predicate At(s: string, i: nat, c: char) {
    i < |s| && s[i] == c
  }

  /** Past the character, if it is there. */
  function After(s: string, i: nat, c: char): nat {
    if At(s, i, c) then i + 1 else i
  }

  /** Past a dollar sign and one or more hexadecimal digits. */
  function HexEnd(s: string, i: nat): (j: nat)
    requires i <= |s|
    ensures i <= j <= |s| && IsHex(s[i..j])
  {
    if At(s, i, '$') then
      var j := RunEnd(s, i + 1, HexDigits);
      if j > i + 1 then j else i
    else i
  }

  datatype Index = NoIndex | By(r: Register)

  datatype Indexed = Indexed(index: Index, next: nat)

  /** A comma and an index register, with spaces before either. */
  function ScanIndex(s: string, i: nat): (x: Indexed)
    requires i <= |s|
    ensures i <= x.next <= |s|
  {
    var comma := RunEnd(s, i, Spaces);
    if !At(s, comma, ',') then Indexed(NoIndex, i)
    else
      var k := RunEnd(s, comma + 1, Spaces);
      if At(s, k, 'x') || At(s, k, 'X') then Indexed(By(X), k + 1)
      else if At(s, k, 'y') || At(s, k, 'Y') then Indexed(By(Y), k + 1)
      else Indexed(NoIndex, i)
  }

  /** Past an optional sign and one or more decimal digits. */
  function SignedEnd(s: string, i: nat): (j: nat)
    requires i <= |s|
    ensures i <= j <= |s| && IsSigned(s[i..j])
  {
    var first := if At(s, i, '+') || At(s, i, '-') then i + 1 else i;
    var j := RunEnd(s, first, Digits);
    if j > first then j else i
  }

  /** Nothing but spaces and a comment. */
  predicate Finished(s: string, i: nat)
    requires i <= |s|
  {
    var j := RunEnd(s, i, Spaces);
    j == |s| || (s[j] == ';' && forall k :: j <= k < |s| ==> s[k] != '\n' && s[k] != '\r')
  }

  /** What follows the hexadecimal operand: index inside and outside the parentheses, displacement, A. */
  datatype Tail = Tail(inner: Index, cpar: bool, outer: Index, rel: string, rega: bool)

  function ScanTail(s: string, h: nat): Option<Tail>
    requires h <= |s|
  {
    var x := ScanIndex(s, h);
    var y := After(s, x.next, ')');
    var z := ScanIndex(s, y);
    var r := SignedEnd(s, z.next);
    var e := if At(s, r, 'a') || At(s, r, 'A') then r + 1 else r;
    if Finished(s, e) then Some(Tail(x.index, y > x.next, z.index, s[z.next..r], e > r)) else None
  }

  /** The capture groups of a line. `hex` keeps its dollar sign. */
  datatype Captures = Captures(name: string, opar: bool, imm: bool, hex: string, tail: Tail)

  function Captured(s: string): Option<Captures> {
    var a := RunEnd(s, 0, Letters);
    var b := RunEnd(s, a, Spaces);
    if a == 0 || (b == a && a < |s|) then None
    else
      var p := After(s, b, '(');
      var q := After(s, p, '#');
      var h := HexEnd(s, q);
      match ScanTail(s, h)
      case None => None
      case Some(tail) => Some(Captures(s[..a], p > b, q > p, s[q..h], tail))
  }

  function LeftTrimmed(s: string): string {
    s[RunEnd(s, 0, Spaces)..]
  }
}
