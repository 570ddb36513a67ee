/**
 The regular expression of the assembler (src/Asm.cpp) as a relation between a line and the
 places where its groups end, and the scanner as its leftmost-longest member: whenever any
 way of matching exists the scanner's is one, and it is the one a backtracking search that
 tries the longest choice first reaches first.
 */
module OperandGrammar {
  import opened Mnemonics
  import opened Scanner

  // ----- What each group may match -----

  predicate IsRun(s: string, i: nat, j: nat, cls: CharClass) {
    i <= j <= |s| && forall k :: i <= k < j ==> cls.Has(s[k])
  }

  /** Nothing, or the one character. */
  predicate MayBe(s: string, i: nat, j: nat, c: char) {
    j == i || (At(s, i, c) && j == i + 1)
  }

  predicate MayBeHex(s: string, i: nat, j: nat) {
    j == i || (At(s, i, '$') && i + 1 < j && IsRun(s, i + 1, j, HexDigits))
  }

  predicate IsIndexLetter(c: char) {
    c == 'x' || c == 'X' || c == 'y' || c == 'Y'
  }

  ghost predicate IsIndex(s: string, i: nat, j: nat) {
    exists u: nat, v: nat :: IsIndexAt(s, i, u, v) && j == v + 1
  }

  /** Spaces up to a comma at `u`, spaces up to the letter at `v`. */
  predicate IsIndexAt(s: string, i: nat, u: nat, v: nat) {
    IsRun(s, i, u, Spaces) && At(s, u, ',') && IsRun(s, u + 1, v, Spaces) && v < |s| && IsIndexLetter(s[v])
  }

  ghost predicate MayBeIndex(s: string, i: nat, j: nat) {
    j == i || IsIndex(s, i, j)
  }

  /** Opens an operand: parenthesis, immediate or hexadecimal. */
  predicate IsOpener(c: char) {
    c == '(' || c == '#' || c == '$'
  }

  predicate IsSign(s: string, i: nat) {
    At(s, i, '+') || At(s, i, '-')
  }

  predicate MayBeSigned(s: string, i: nat, j: nat) {
    j == i || (i < j && IsRun(s, i, j, Digits)) || (IsSign(s, i) && i + 1 < j && IsRun(s, i + 1, j, Digits))
  }

  predicate MayBeA(s: string, i: nat, j: nat) {
    MayBe(s, i, j, 'a') || MayBe(s, i, j, 'A')
  }

  /** Spaces up to some place, then the end or a comment. */
  ghost predicate Rest(s: string, i: nat) {
    exists j: nat :: IsRun(s, i, j, Spaces) && EndOrComment(s, j)
  }

  predicate EndOrComment(s: string, j: nat) {
    j == |s| || (At(s, j, ';') && forall k :: j <= k < |s| ==> s[k] != '\n' && s[k] != '\r')
  }

  /** Where the groups end in a line whose leading spaces are trimmed: name, spaces, '(', '#', hex, inner index, ')', outer index, displacement, A. */
  datatype Ends = Ends(name: nat, gap: nat, opar: nat, imm: nat, hex: nat, inner: nat, cpar: nat, outer: nat, rel: nat, rega: nat)

  ghost predicate Matches(s: string, e: Ends) {
    && 0 < e.name && IsRun(s, 0, e.name, Letters)
    && ((e.name < e.gap && IsRun(s, e.name, e.gap, Spaces)) || e.name == e.gap == |s|)
    && MayBe(s, e.gap, e.opar, '(')
    && MayBe(s, e.opar, e.imm, '#')
    && MayBeHex(s, e.imm, e.hex)
    && MatchesTail(s, e)
  }

  ghost predicate MatchesTail(s: string, e: Ends) {
    && MayBeIndex(s, e.hex, e.inner)
    && MayBe(s, e.inner, e.cpar, ')')
    && MayBeIndex(s, e.cpar, e.outer)
    && MayBeSigned(s, e.outer, e.rel)
    && MayBeA(s, e.rel, e.rega)
    && Rest(s, e.rega)
  }

  // ----- The scanner's choice -----

  function AfterA(s: string, i: nat): nat {
    if At(s, i, 'a') || At(s, i, 'A') then i + 1 else i
  }

  function Longest(s: string): Ends {
    var name := RunEnd(s, 0, Letters);
    var gap := RunEnd(s, name, Spaces);
    var opar := After(s, gap, '(');
    var imm := After(s, opar, '#');
    var hex := HexEnd(s, imm);
    var inner := ScanIndex(s, hex).next;
    var cpar := After(s, inner, ')');
    var outer := ScanIndex(s, cpar).next;
    var rel := SignedEnd(s, outer);
    Ends(name, gap, opar, imm, hex, inner, cpar, outer, rel, AfterA(s, rel))
  }

  // ----- Each group alone: the scanner's choice is one, and no other is longer -----

  lemma HexChoice(s: string, i: nat, j: nat)
    requires i <= |s|
    ensures MayBeHex(s, i, HexEnd(s, i))
    ensures MayBeHex(s, i, j) ==> j <= HexEnd(s, i)
  {
    if At(s, i, '$') && i + 1 < j && IsRun(s, i + 1, j, HexDigits) {
      RunAtLeast(s, i + 1, j, HexDigits);
    }
  }

  lemma RunAtLeast(s: string, i: nat, j: nat, cls: CharClass)
    requires IsRun(s, i, j, cls)
    ensures j <= RunEnd(s, i, cls)
  {
  }

  lemma RunThen(s: string, i: nat, j: nat, cls: CharClass)
    requires IsRun(s, i, j, cls)
    ensures RunEnd(s, i, cls) == RunEnd(s, j, cls)
  {
    var e := RunEnd(s, j, cls);
    RunIs(s, i, cls, e);
  }

  /** An index can be matched in one way only. */
  lemma IndexChoice(s: string, i: nat, j: nat)
    requires i <= |s|
    ensures MayBeIndex(s, i, ScanIndex(s, i).next)
    ensures IsIndex(s, i, j) ==> j == ScanIndex(s, i).next
  {
    var comma := RunEnd(s, i, Spaces);
    if At(s, comma, ',') {
      var k := RunEnd(s, comma + 1, Spaces);
      assert k < |s| && IsIndexLetter(s[k]) ==> IsIndexAt(s, i, comma, k);
    }
    if IsIndex(s, i, j) {
      var u: nat, v: nat :| IsIndexAt(s, i, u, v) && j == v + 1;
      RunIs(s, i, Spaces, u);
      RunIs(s, u + 1, Spaces, v);
    }
  }

  lemma SignedChoice(s: string, i: nat, j: nat)
    requires i <= |s|
    ensures MayBeSigned(s, i, SignedEnd(s, i))
    ensures MayBeSigned(s, i, j) ==> j <= SignedEnd(s, i)
  {
    if i < j && IsRun(s, i, j, Digits) {
      assert Digits.Has(s[i]);
      RunAtLeast(s, i, j, Digits);
    }
    if IsSign(s, i) && i + 1 < j && IsRun(s, i + 1, j, Digits) {
      RunAtLeast(s, i + 1, j, Digits);
    }
  }

  lemma RestChoice(s: string, i: nat)
    requires i <= |s|
    ensures Rest(s, i) <==> Finished(s, i)
  {
    var e := RunEnd(s, i, Spaces);
    assert IsRun(s, i, e, Spaces);
    if Rest(s, i) {
      var j: nat :| IsRun(s, i, j, Spaces) && EndOrComment(s, j);
      RunIs(s, i, Spaces, j);
    } else if Finished(s, i) {
      assert EndOrComment(s, e);
    }
  }

  // ----- From the end backwards: if some choice can be completed, so can the scanner's -----

  predicate FromRel(s: string, i: nat) {
    i <= |s| && Finished(s, AfterA(s, SignedEnd(s, i)))
  }

  predicate FromOuter(s: string, i: nat) {
    i <= |s| && FromRel(s, ScanIndex(s, i).next)
  }

  predicate FromCpar(s: string, i: nat) {
    FromOuter(s, After(s, i, ')'))
  }

  predicate FromInner(s: string, i: nat) {
    i <= |s| && FromCpar(s, ScanIndex(s, i).next)
  }

  predicate FromHex(s: string, i: nat) {
    i <= |s| && FromInner(s, HexEnd(s, i))
  }

  predicate FromGap(s: string, i: nat) {
    FromHex(s, After(s, After(s, i, '('), '#'))
  }

  /** What can stand where only the displacement and the comment are left. */
  lemma RelStart(s: string, i: nat)
    requires FromRel(s, i)
    ensures i == |s| || Digits.Has(s[i]) || IsSign(s, i) || s[i] == 'a' || s[i] == 'A' || s[i] == ';' || Spaces.Has(s[i])
    ensures i < |s| && Spaces.Has(s[i]) ==> !At(s, RunEnd(s, i, Spaces), ',')
  {
  }

  lemma RelGreedy(s: string, i: nat, rel: nat, rega: nat)
    requires i <= |s| && MayBeSigned(s, i, rel) && MayBeA(s, rel, rega) && rega <= |s| && Finished(s, rega)
    ensures FromRel(s, i)
  {
    SignedChoice(s, i, rel);
  }

  lemma OuterGreedy(s: string, i: nat, j: nat)
    requires i <= |s| && MayBeIndex(s, i, j) && FromRel(s, j)
    ensures FromOuter(s, i)
  {
    IndexChoice(s, i, j);
    if j == i {
      RelStart(s, i);
    }
  }

  lemma CparGreedy(s: string, i: nat, j: nat)
    requires i <= |s| && MayBe(s, i, j, ')') && FromOuter(s, j)
    ensures FromCpar(s, i)
  {
    if At(s, i, ')') && j == i {
      RelStart(s, i);
    }
  }

  lemma InnerGreedy(s: string, i: nat, j: nat)
    requires i <= |s| && MayBeIndex(s, i, j) && FromCpar(s, j)
    ensures FromInner(s, i)
  {
    IndexChoice(s, i, j);
    var next := ScanIndex(s, i).next;
    if j == i && next != i {
      assert FromRel(s, next);
      RelStart(s, next);
      OuterGreedy(s, next, next);
    }
  }

  /** Where no group can start, only the comment is left. */
  lemma NothingStarts(s: string, i: nat)
    requires FromInner(s, i) && ScanIndex(s, i).index.NoIndex?
    requires i < |s| && s[i] != ')' && !Digits.Has(s[i]) && !IsSign(s, i) && s[i] != 'a' && s[i] != 'A'
    ensures Finished(s, i)
  {
  }

  /** An opening character that was passed over stops every later group. */
  lemma Blocked(s: string, i: nat)
    requires i < |s| && IsOpener(s[i])
    ensures !FromInner(s, i)
  {
    if FromInner(s, i) {
      NothingStarts(s, i);
    }
  }

  lemma FinishedIsEnough(s: string, i: nat)
    requires i <= |s| && Finished(s, i)
    ensures FromInner(s, i)
  {
  }

  lemma HexGreedy(s: string, i: nat, j: nat)
    requires i <= |s| && MayBeHex(s, i, j) && FromInner(s, j)
    ensures FromHex(s, i)
  {
    hide FromInner, Finished;
    HexChoice(s, i, j);
    var h := HexEnd(s, i);
    if i < |s| && s[i] == '$' {
      Blocked(s, i);
    }
    if j < h && j != i {
      HexLeft(s, j, h);
      FinishedIsEnough(s, h);
    }
  }

  /** What later groups could take of the digits is all of them. */
  lemma HexLeft(s: string, j: nat, h: nat)
    requires j < h <= |s| && IsRun(s, j, h, HexDigits) && (h < |s| ==> !HexDigits.Has(s[h]))
    requires FromInner(s, j)
    ensures Finished(s, h)
  {
    assert HexDigits.Has(s[j]);
    var e := AfterA(s, SignedEnd(s, j));
    assert IsRun(s, j, e, HexDigits);
    RunIs(s, j, HexDigits, h);
    RunAtLeast(s, j, e, HexDigits);
    assert e < h ==> HexDigits.Has(s[e]);
  }

  lemma ImmGreedy(s: string, i: nat, j: nat)
    requires i <= |s| && MayBe(s, i, j, '#') && FromHex(s, j)
    ensures FromHex(s, After(s, i, '#'))
  {
    hide FromInner;
    if At(s, i, '#') {
      Blocked(s, i);
    }
  }

  lemma OparGreedy(s: string, i: nat, j: nat)
    requires i <= |s| && MayBe(s, i, j, '(') && FromHex(s, After(s, j, '#'))
    ensures FromGap(s, i)
  {
    hide FromInner;
    if At(s, i, '(') {
      Blocked(s, i);
    }
  }

  /** Where no opening character stands, the first groups are empty. */
  lemma PlainStart(s: string, i: nat)
    requires i <= |s| && (i < |s| ==> !IsOpener(s[i]))
    ensures FromGap(s, i) <==> FromInner(s, i)
  {
    hide FromInner;
  }

  /** Skipping the spaces first makes no difference to an index. */
  lemma IndexSkips(s: string, i: nat)
    requires i <= |s|
    ensures var k := RunEnd(s, i, Spaces);
            FromInner(s, i) && !ScanIndex(s, i).index.NoIndex? ==> At(s, k, ',') && FromInner(s, k)
  {
    hide FromCpar;
    var k := RunEnd(s, i, Spaces);
    RunIs(s, k, Spaces, k);
  }

  lemma SkipFinished(s: string, i: nat)
    requires i <= |s| && Finished(s, i)
    ensures var k := RunEnd(s, i, Spaces); FromInner(s, k) && (k < |s| ==> s[k] == ';')
  {
    var k := RunEnd(s, i, Spaces);
    RunIs(s, k, Spaces, k);
    FinishedIsEnough(s, k);
  }

  /** A gap that stopped short can go on to the end of the spaces. */
  lemma SkipSpaces(s: string, i: nat)
    requires i < |s| && Spaces.Has(s[i]) && FromInner(s, i)
    ensures var k := RunEnd(s, i, Spaces); FromInner(s, k) && (k < |s| ==> !IsOpener(s[k]))
  {
    hide RunEnd, ScanIndex, FromInner, Finished;
    IndexSkips(s, i);
    if ScanIndex(s, i).index.NoIndex? {
      NothingStarts(s, i);
      SkipFinished(s, i);
    }
  }

  lemma GapGreedy(s: string, name: nat, gap: nat)
    requires name < gap && IsRun(s, name, gap, Spaces) && FromGap(s, gap)
    ensures FromGap(s, RunEnd(s, name, Spaces))
  {
    hide RunEnd, FromGap, FromInner;
    RunThen(s, name, gap, Spaces);
    var k := RunEnd(s, gap, Spaces);
    if gap < k {
      PlainStart(s, gap);
      SkipSpaces(s, gap);
      PlainStart(s, k);
    }
  }

  // ----- The whole expression -----

  lemma TailGreedy(s: string, e: Ends)
    requires e.hex <= |s| && MatchesTail(s, e)
    ensures FromInner(s, e.hex)
  {
    TailBounds(s, e);
    RestChoice(s, e.rega);
    RelGreedy(s, e.outer, e.rel, e.rega);
    OuterGreedy(s, e.cpar, e.outer);
    CparGreedy(s, e.inner, e.cpar);
    InnerGreedy(s, e.hex, e.inner);
  }

  lemma TailBounds(s: string, e: Ends)
    requires e.hex <= |s| && MatchesTail(s, e)
    ensures e.hex <= e.inner <= e.cpar <= e.outer <= e.rel <= e.rega <= |s|
  {
  }

  lemma LongestTail(s: string)
    requires FromInner(s, Longest(s).hex)
    ensures MatchesTail(s, Longest(s))
  {
    var e := Longest(s);
    IndexChoice(s, e.hex, e.inner);
    IndexChoice(s, e.cpar, e.outer);
    SignedChoice(s, e.outer, e.rel);
    RestChoice(s, e.rega);
  }

  lemma HeadGreedy(s: string, e: Ends)
    requires Matches(s, e)
    ensures FromGap(s, e.gap)
  {
    hide MatchesTail, FromInner, FromHex, FromGap;
    HexChoice(s, e.imm, e.hex);
    TailGreedy(s, e);
    HexGreedy(s, e.imm, e.hex);
    ImmGreedy(s, e.opar, e.imm);
    OparGreedy(s, e.gap, e.opar);
  }

  lemma NameAndGap(s: string, e: Ends)
    requires 0 < e.name && IsRun(s, 0, e.name, Letters) && FromGap(s, e.gap)
    requires (e.name < e.gap && IsRun(s, e.name, e.gap, Spaces)) || e.name == e.gap == |s|
    ensures var g := Longest(s);
            g.name == e.name && FromGap(s, g.gap) && (g.name < g.gap || g.name == g.gap == |s|)
  {
    hide FromGap, HexEnd, ScanIndex, SignedEnd;
    RunIs(s, 0, Letters, e.name);
    if e.name < e.gap {
      GapGreedy(s, e.name, e.gap);
      RunAtLeast(s, e.name, e.gap, Spaces);
    }
  }

  lemma LongestHead(s: string)
    requires FromGap(s, Longest(s).gap)
    ensures var g := Longest(s);
            && IsRun(s, 0, g.name, Letters) && IsRun(s, g.name, g.gap, Spaces)
            && MayBe(s, g.gap, g.opar, '(') && MayBe(s, g.opar, g.imm, '#') && MayBeHex(s, g.imm, g.hex)
            && g.hex <= |s| && FromInner(s, g.hex)
  {
    hide FromInner, HexEnd, ScanIndex, SignedEnd, MayBeHex;
    HexChoice(s, Longest(s).imm, 0);
  }

  /** If the expression matches in any way, it matches the way the scanner goes. */
  lemma LongestMatches(s: string, e: Ends)
    requires Matches(s, e)
    ensures Matches(s, Longest(s))
  {
    hide MatchesTail, Longest;
    HeadGreedy(s, e);
    NameAndGap(s, e);
    LongestHead(s);
    LongestTail(s);
  }

  /** At the first group where another match differs, the scanner's choice is the longer one. */
  predicate NoneBefore(e: Ends, g: Ends) {
    e.name < g.name || (e.name == g.name && (
    e.gap < g.gap || (e.gap == g.gap && (
    e.opar < g.opar || (e.opar == g.opar && (
    e.imm < g.imm || (e.imm == g.imm && (
    e.hex < g.hex || (e.hex == g.hex && (
    e.inner < g.inner || (e.inner == g.inner && (
    e.cpar < g.cpar || (e.cpar == g.cpar && (
    e.outer < g.outer || (e.outer == g.outer && (
    e.rel < g.rel || (e.rel == g.rel &&
    e.rega <= g.rega)))))))))))))))))
  }

  lemma RunIsExactly(s: string, e: Ends)
    requires Matches(s, e)
    ensures RunEnd(s, 0, Letters) == e.name && e.gap <= RunEnd(s, e.name, Spaces)
  {
    hide MatchesTail, MayBeHex;
    RunIs(s, 0, Letters, e.name);
    if e.name < e.gap {
      RunAtLeast(s, e.name, e.gap, Spaces);
    }
  }

  lemma LongestIsFirst(s: string, e: Ends)
    requires Matches(s, e)
    ensures NoneBefore(e, Longest(s))
  {
    hide RunEnd, HexEnd, ScanIndex, SignedEnd, IsIndex, MayBeHex, MayBeSigned, IsRun, Rest;
    RunIsExactly(s, e);
    HexChoice(s, e.imm, e.hex);
    TailBounds(s, e);
    IndexChoice(s, e.hex, e.inner);
    IndexChoice(s, e.cpar, e.outer);
    SignedChoice(s, e.outer, e.rel);
  }

  /** The register an index names. */
  function IndexOf(s: string, i: nat, j: nat): Index
    requires i <= j <= |s|
  {
    if j == i then NoIndex else if s[j - 1] == 'x' || s[j - 1] == 'X' then By(X) else By(Y)
  }

  /** What the groups of a match capture. */
  function CapturesAt(s: string, e: Ends): Captures
    requires 0 < e.name <= e.gap <= e.opar <= e.imm <= e.hex <= e.inner <= e.cpar <= e.outer <= e.rel <= e.rega <= |s|
  {
    Captures(s[..e.name], e.gap < e.opar, e.opar < e.imm, s[e.imm..e.hex],
             Tail(IndexOf(s, e.hex, e.inner), e.inner < e.cpar, IndexOf(s, e.cpar, e.outer), s[e.outer..e.rel], e.rel < e.rega))
  }

  lemma MatchBounds(s: string, e: Ends)
    requires Matches(s, e)
    ensures 0 < e.name <= e.gap <= e.opar <= e.imm <= e.hex <= e.inner <= e.cpar <= e.outer <= e.rel <= e.rega <= |s|
  {
    TailBounds(s, e);
  }

  lemma IndexScanned(s: string, i: nat)
    requires i <= |s|
    ensures ScanIndex(s, i).index == IndexOf(s, i, ScanIndex(s, i).next)
  {
  }

  /**
   The scanner accepts a line exactly when the regular expression matches it in some way,
   and captures what the groups of the first match in backtracking order capture.
   */
  lemma ScannerIsTheExpression(s: string)
    ensures Captured(s).Some? <==> exists e :: Matches(s, e)
    ensures Captured(s).Some? ==> Matches(s, Longest(s))
    ensures forall e :: Matches(s, e) ==> NoneBefore(e, Longest(s))
    ensures Captured(s).Some? ==> (MatchBounds(s, Longest(s)); Captured(s) == Some(CapturesAt(s, Longest(s))))
  {
    forall e | Matches(s, e)
      ensures Matches(s, Longest(s)) && NoneBefore(e, Longest(s))
    {
      LongestMatches(s, e);
      LongestIsFirst(s, e);
    }
    CapturedIsLongest(s);
  }

  lemma TailScanned(s: string)
    ensures var e := Longest(s);
            var tail := ScanTail(s, e.hex);
            && (tail.Some? <==> FromInner(s, e.hex))
            && (tail.Some? ==>
                  && e.hex <= e.inner <= e.cpar <= e.outer <= e.rel <= e.rega <= |s|
                  && tail.value == Tail(IndexOf(s, e.hex, e.inner), e.inner < e.cpar, IndexOf(s, e.cpar, e.outer),
                                        s[e.outer..e.rel], e.rel < e.rega))
  {
    var e := Longest(s);
    hide ScanIndex, SignedEnd, Finished, IndexOf;
    IndexScanned(s, e.hex);
    IndexScanned(s, e.cpar);
  }

  lemma CapturedIsLongest(s: string)
    ensures Captured(s).Some? <==> Matches(s, Longest(s))
    ensures Captured(s).Some? ==> (MatchBounds(s, Longest(s)); Captured(s) == Some(CapturesAt(s, Longest(s))))
  {
    hide ScanTail, MatchesTail, FromInner, IndexOf, MayBeHex, HexEnd, ScanIndex, SignedEnd;
    var g := Longest(s);
    TailScanned(s);
    if Matches(s, g) {
      TailGreedy(s, g);
    }
    if Captured(s).Some? {
      LongestHead(s);
      LongestTail(s);
      MatchBounds(s, g);
    }
  }
}
