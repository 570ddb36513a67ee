/**
 The converse of the round trip (src/Asm.cpp, src/unasm.cpp): whatever source text
 assembles, the bytes it gives are documented instructions, and disassembling them gives
 text that assembles to the same bytes again.
 */
module SourceRoundTrip {
  import opened Registers
  import opened Memory
  import opened Mnemonics
  import opened Disassembler
  import opened Scanner
  import opened RoundTrip
  import Assembler

  // ----- The mapper -----

  /** The name and form are those the disassembler gives a documented opcode. */
  predicate Names(code: Byte, name: string, form: Assembler.Form) {
    Documented(code) && NameOf(code) == name && FormOf(FormatOf(code)) == form
  }

  /** The mapper holds an opcode for a name and a form exactly when the disassembler gives it that name and form. */
  lemma MapperInverts(name: string, form: Assembler.Form, code: Byte)
    ensures Assembler.Encode(name, form) == Some(code) <==> Names(code, name, form)
  {
    if Names(code, name, form) {
      OpcodeReadsBack(code);
    }
    if Assembler.Encode(name, form) == Some(code) {
      MapsBack(name, form, code);
    }
  }

  lemma MapsBack(name: string, form: Assembler.Form, code: Byte)
    requires Assembler.Encode(name, form) == Some(code)
    ensures Names(code, name, form)
  {
    hide Names, Assembler.StartingA, Assembler.StartingB, Assembler.StartingC, Assembler.StartingD, Assembler.StartingE, Assembler.StartingI, Assembler.StartingJ, Assembler.StartingL, Assembler.StartingN, Assembler.StartingO, Assembler.StartingP, Assembler.StartingR, Assembler.StartingS, Assembler.StartingT;
    assert |name| == 3;
    var c1, c2 := name[1], name[2];
    assert name == [name[0], c1, c2];
    match name[0]
    case 'A' =>
      if c2 == 'C' {
        MapsBackAxC(c1, form);
      } else {
        MapsBackA(c1, c2, form);
      }
    case 'B' =>
      if c1 < 'N' {
        MapsBackBCToBM(c1, c2, form);
      } else {
        MapsBackBNToBV(c1, c2, form);
      }
    case 'C' =>
      if c1 == 'M' {
        MapsBackCMx(c2, form);
      } else {
        MapsBackC(c1, c2, form);
      }
    case 'D' => MapsBackD(c1, c2, form);
    case 'E' => MapsBackE(c1, c2, form);
    case 'I' => MapsBackI(c1, c2, form);
    case 'J' => MapsBackJ(c1, c2, form);
    case 'L' =>
      if c2 == 'A' {
        MapsBackLxA(c1, form);
      } else {
        MapsBackL(c1, c2, form);
      }
    case 'N' => MapsBackN(c1, c2, form);
    case 'O' => MapsBackO(c1, c2, form);
    case 'P' => MapsBackP(c1, c2, form);
    case 'R' => MapsBackR(c1, c2, form);
    case 'S' =>
      if c1 == 'T' {
        MapsBackSTx(c2, form);
      } else if c1 == 'B' {
        MapsBackSBx(c2, form);
      } else {
        MapsBackS(c1, c2, form);
      }
    case 'T' => MapsBackT(c1, c2, form);
    case _ =>
  }

  lemma MapsBackAxC(c1: char, form: Assembler.Form)
    requires 0 <= Assembler.StartingA(c1, 'C').Get(form) < 0x100
    ensures Names(Assembler.StartingA(c1, 'C').Get(form), ['A', c1, 'C'], form)
  {
  }

  lemma MapsBackA(c1: char, c2: char, form: Assembler.Form)
    requires c2 != 'C'
    requires 0 <= Assembler.StartingA(c1, c2).Get(form) < 0x100
    ensures Names(Assembler.StartingA(c1, c2).Get(form), ['A', c1, c2], form)
  {
  }

  lemma MapsBackBCToBM(c1: char, c2: char, form: Assembler.Form)
    requires c1 < 'N'
    requires 0 <= Assembler.StartingB(c1, c2).Get(form) < 0x100
    ensures Names(Assembler.StartingB(c1, c2).Get(form), ['B', c1, c2], form)
  {
  }

  lemma MapsBackBNToBV(c1: char, c2: char, form: Assembler.Form)
    requires c1 >= 'N'
    requires 0 <= Assembler.StartingB(c1, c2).Get(form) < 0x100
    ensures Names(Assembler.StartingB(c1, c2).Get(form), ['B', c1, c2], form)
  {
  }

  lemma MapsBackCMx(c2: char, form: Assembler.Form)
    requires 0 <= Assembler.StartingC('M', c2).Get(form) < 0x100
    ensures Names(Assembler.StartingC('M', c2).Get(form), ['C', 'M', c2], form)
  {
  }

  lemma MapsBackC(c1: char, c2: char, form: Assembler.Form)
    requires c1 != 'M'
    requires 0 <= Assembler.StartingC(c1, c2).Get(form) < 0x100
    ensures Names(Assembler.StartingC(c1, c2).Get(form), ['C', c1, c2], form)
  {
  }

  lemma MapsBackD(c1: char, c2: char, form: Assembler.Form)
    requires 0 <= Assembler.StartingD(c1, c2).Get(form) < 0x100
    ensures Names(Assembler.StartingD(c1, c2).Get(form), ['D', c1, c2], form)
  {
  }

  lemma MapsBackE(c1: char, c2: char, form: Assembler.Form)
    requires 0 <= Assembler.StartingE(c1, c2).Get(form) < 0x100
    ensures Names(Assembler.StartingE(c1, c2).Get(form), ['E', c1, c2], form)
  {
  }

  lemma MapsBackI(c1: char, c2: char, form: Assembler.Form)
    requires 0 <= Assembler.StartingI(c1, c2).Get(form) < 0x100
    ensures Names(Assembler.StartingI(c1, c2).Get(form), ['I', c1, c2], form)
  {
  }

  lemma MapsBackJ(c1: char, c2: char, form: Assembler.Form)
    requires 0 <= Assembler.StartingJ(c1, c2).Get(form) < 0x100
    ensures Names(Assembler.StartingJ(c1, c2).Get(form), ['J', c1, c2], form)
  {
  }

  lemma MapsBackLxA(c1: char, form: Assembler.Form)
    requires 0 <= Assembler.StartingL(c1, 'A').Get(form) < 0x100
    ensures Names(Assembler.StartingL(c1, 'A').Get(form), ['L', c1, 'A'], form)
  {
  }

  lemma MapsBackL(c1: char, c2: char, form: Assembler.Form)
    requires c2 != 'A'
    requires 0 <= Assembler.StartingL(c1, c2).Get(form) < 0x100
    ensures Names(Assembler.StartingL(c1, c2).Get(form), ['L', c1, c2], form)
  {
  }

  lemma MapsBackN(c1: char, c2: char, form: Assembler.Form)
    requires 0 <= Assembler.StartingN(c1, c2).Get(form) < 0x100
    ensures Names(Assembler.StartingN(c1, c2).Get(form), ['N', c1, c2], form)
  {
  }

  lemma MapsBackO(c1: char, c2: char, form: Assembler.Form)
    requires 0 <= Assembler.StartingO(c1, c2).Get(form) < 0x100
    ensures Names(Assembler.StartingO(c1, c2).Get(form), ['O', c1, c2], form)
  {
  }

  lemma MapsBackP(c1: char, c2: char, form: Assembler.Form)
    requires 0 <= Assembler.StartingP(c1, c2).Get(form) < 0x100
    ensures Names(Assembler.StartingP(c1, c2).Get(form), ['P', c1, c2], form)
  {
  }

  lemma MapsBackR(c1: char, c2: char, form: Assembler.Form)
    requires 0 <= Assembler.StartingR(c1, c2).Get(form) < 0x100
    ensures Names(Assembler.StartingR(c1, c2).Get(form), ['R', c1, c2], form)
  {
  }

  lemma MapsBackSTx(c2: char, form: Assembler.Form)
    requires 0 <= Assembler.StartingS('T', c2).Get(form) < 0x100
    ensures Names(Assembler.StartingS('T', c2).Get(form), ['S', 'T', c2], form)
  {
  }

  lemma MapsBackSBx(c2: char, form: Assembler.Form)
    requires 0 <= Assembler.StartingS('B', c2).Get(form) < 0x100
    ensures Names(Assembler.StartingS('B', c2).Get(form), ['S', 'B', c2], form)
  {
  }

  lemma MapsBackS(c1: char, c2: char, form: Assembler.Form)
    requires c1 != 'T' && c1 != 'B'
    requires 0 <= Assembler.StartingS(c1, c2).Get(form) < 0x100
    ensures Names(Assembler.StartingS(c1, c2).Get(form), ['S', c1, c2], form)
  {
  }

  lemma MapsBackT(c1: char, c2: char, form: Assembler.Form)
    requires 0 <= Assembler.StartingT(c1, c2).Get(form) < 0x100
    ensures Names(Assembler.StartingT(c1, c2).Get(form), ['T', c1, c2], form)
  {
  }

  // ----- Lines -----

  /** The k-th byte, 0 past the end. */
  function ByteOr0(bytes: seq<Byte>, k: nat): Byte {
    if k < |bytes| then bytes[k] else 0
  }

  lemma EmittedForm(f: Format, code: Byte, val: int)
    requires FormatOf(code) == f
    ensures var bytes := [code] + Assembler.OperandBytes(FormOf(f).Params(), val);
            |bytes| == 1 + f.Size() && Encoding(code, ByteOr0(bytes, 1), ByteOr0(bytes, 2)) == bytes
  {
    hide FormatOf;
  }

  /**
   Whatever line assembles, in any spelling, spacing or case: its bytes are one documented
   instruction, and the line the disassembler prints for them assembles to them again.
   */
  lemma LineIsInstruction(s: string)
    requires Assembler.AssembleLine(s).Emits?
    ensures var bytes := Assembler.AssembleLine(s).bytes;
            && bytes != [] && Documented(bytes[0])
            && |bytes| == 1 + FormatOf(bytes[0]).Size()
            && Encoding(bytes[0], ByteOr0(bytes, 1), ByteOr0(bytes, 2)) == bytes
            && Assembler.AssembleLine(Line(bytes[0], ByteOr0(bytes, 1), ByteOr0(bytes, 2))) == Assembler.Emits(bytes)
  {
    hide FormatOf, NameOf, Documented, Line, Captured, Assembler.Encode, Assembler.Classify, Assembler.Value;
    hide Assembler.OperandBytes, Assembler.Upper, LeftTrimmed, Encoding;
    var c := Captured(LeftTrimmed(s)).value;
    CapturesConvert(LeftTrimmed(s));
    var form := Assembler.Classify(c);
    var code := Assembler.Encode(Assembler.Upper(c.name), form).value;
    MapperInverts(Assembler.Upper(c.name), form, code);
    EmittedForm(FormatOf(code), code, Assembler.Value(c));
    var bytes := Assembler.AssembleLine(s).bytes;
    LineReadsBack(code, ByteOr0(bytes, 1), ByteOr0(bytes, 2));
  }

  lemma CapturesConvert(s: string)
    requires Captured(s).Some?
    ensures IsHex(Captured(s).value.hex) && IsSigned(Captured(s).value.tail.rel)
  {
    Assembler.CapturesConvert(s);
  }

  // ----- Programs -----

  /** Lines that are not blank. */
  function Instructions(lines: seq<string>): nat {
    if lines == [] then 0 else (if Assembler.AssembleLine(lines[0]).Emits? then 1 else 0) + Instructions(lines[1..])
  }

  /** Where the bytes of a program lie in memory, its listing covers exactly them. */
  lemma {:induction false} ListingCovers(image: Image, pc: Word, lines: seq<string>)
    requires NoErrors(lines)
    requires Bytes(image, pc, |Assembler.Emitted(lines)|) == Assembler.Emitted(lines)
    ensures Extent(image, pc, Instructions(lines)) == |Assembler.Emitted(lines)|
    ensures AllDocumented(image, pc, Instructions(lines))
    decreases lines
  {
    hide FormatOf, Documented, Assembler.AssembleLine, Line, Peek, Encoding;
    if lines != [] {
      var rest := Assembler.Emitted(lines[1..]);
      assert forall k :: 0 <= k < |lines[1..]| ==> lines[1..][k] == lines[k + 1];
      match Assembler.AssembleLine(lines[0]) {
        case Emits(bytes) =>
          LineIsInstruction(lines[0]);
          BytesThen(image, pc, |bytes|, |rest|);
          BytesLength(image, pc, |bytes|);
          BytesLength(image, Wrap(pc + |bytes|), |rest|);
          SplitEqual(bytes, rest, Bytes(image, pc, |bytes|), Bytes(image, Wrap(pc + |bytes|), |rest|));
          assert Bytes(image, pc, |bytes|)[0] == Cell(image, pc, 0);
          assert Wrap(pc + 0) == pc;
          ListingCovers(image, Wrap(pc + |bytes|), lines[1..]);
        case Blank =>
          assert [] + rest == rest;
          ListingCovers(image, pc, lines[1..]);
        case Bad => assert false;
      }
    }
  }

  /**
   Any source text that assembles below the reset vector, disassembled from the image and
   assembled again, gives the same image.
   */
  lemma SourceReadsBack(base: Word, lines: seq<string>)
    requires Assembler.Assemble(base, lines).Assembled?
    requires base + |Assembler.Emitted(lines)| <= 0xfffc
    ensures var r := Assembler.Assemble(base, lines).image;
            Assembler.Assemble(base, Listing(r, base, Instructions(lines))) == Assembler.Assembled(r)
  {
    hide Assembler.Lay, Assembler.Assemble, Assembler.AssembleLine, Assembler.Prepared, Bytes, Extent, Listing, AllDocumented;
    var bytes := Assembler.Emitted(lines);
    Assembler.FirstError(base, lines);
    Assembler.LaidAtBase(base, lines);
    var r := Assembler.Assemble(base, lines).image;
    LaidBytes(base, bytes);
    ListingCovers(r, base, lines);
    var listing := Listing(r, base, Instructions(lines));
    ListingEmits(r, base, Instructions(lines));
    Assembler.LaidAtBase(base, listing);
  }

  lemma CellOf(r: Assembler.Image64K, base: Word, k: nat)
    requires base + k < 0x1_0000
    ensures Cell(r, base, k) == r[base + k]
  {
  }

  lemma LaidBytes(base: Word, bytes: seq<Byte>)
    requires base + |bytes| <= 0xfffc
    ensures Bytes(Assembler.Lay(Assembler.Prepared(base), base, bytes), base, |bytes|) == bytes
  {
    hide Assembler.Lay, Assembler.Prepared, Cell;
    var r := Assembler.Lay(Assembler.Prepared(base), base, bytes);
    forall k | 0 <= k < |bytes|
      ensures Cell(r, base, k) == bytes[k]
    {
      LaidByte(Assembler.Prepared(base), base, bytes, base + k);
      CellOf(r, base, k);
    }
  }
}
