/**
 Shifts and rotates (src/InstructionImpl.h) as arithmetic: each instruction moves one bit
 through carry, so that chains over n bytes double and halve n-byte numbers and undo
 each other.
 */
module Shifts {
  import opened Registers
  import opened Instructions
  import opened MultiByte

  /** One instruction on a byte: the result, and the flags it leaves. */
  datatype Shifted = Shifted(v: Byte, sr: Status)

  function Shift(op: ModifyOp, sr: Status, v: Byte): Shifted {
    Shifted(Modified(op, sr, v), ModifiedStatus(op, sr, v))
  }

  /** Left shifts double, right shifts halve; nothing is lost as long as carry is counted. */
  lemma ShiftMeaning(sr: Status, v: Byte)
    ensures var s := Shift(ASL, sr, v); s.v + 0x100 * s.sr.c == 2 * v
    ensures var s := Shift(ROL, sr, v); s.v + 0x100 * s.sr.c == 2 * v + sr.c
    ensures var s := Shift(LSR, sr, v); 2 * s.v + s.sr.c == v
    ensures var s := Shift(ROR, sr, v); 2 * s.v + s.sr.c == v + 0x100 * sr.c
  {
  }

  /** A rotate and its opposite restore the byte and carry. */
  lemma RotatesUndo(sr: Status, v: Byte)
    ensures var s := Shift(ROL, sr, v); var t := Shift(ROR, s.sr, s.v); t.v == v && t.sr.c == sr.c
    ensures var s := Shift(ROR, sr, v); var t := Shift(ROL, s.sr, s.v); t.v == v && t.sr.c == sr.c
  {
    hide Modified, ModifiedStatus;
    ShiftMeaning(sr, v);
    var l, r := Shift(ROL, sr, v), Shift(ROR, sr, v);
    ShiftMeaning(l.sr, l.v);
    ShiftMeaning(r.sr, r.v);
  }

  /** INC and DEC undo each other, round the wrap as well. */
  lemma StepsUndo(sr: Status, v: Byte)
    ensures Modified(DEC, sr, Modified(INC, sr, v)) == v
    ensures Modified(INC, sr, Modified(DEC, sr, v)) == v
  {
  }

  datatype ShiftedBytes = ShiftedBytes(out: Bytes, sr: Status)

  /** ROL applied to the bytes of a number from the lowest up. */
  function RotateLeftChain(sr: Status, xs: Bytes): (t: ShiftedBytes)
    ensures |t.out| == |xs|
    decreases xs
  {
    if xs == [] then ShiftedBytes([], sr)
    else
      var s := Shift(ROL, sr, xs[0]);
      var rest := RotateLeftChain(s.sr, xs[1..]);
      ShiftedBytes([s.v] + rest.out, rest.sr)
  }

  /** ROR applied to the bytes of a number from the highest down. */
  function RotateRightChain(sr: Status, xs: Bytes): (t: ShiftedBytes)
    ensures |t.out| == |xs|
    decreases xs
  {
    if xs == [] then ShiftedBytes([], sr)
    else
      var upper := RotateRightChain(sr, xs[1..]);
      var s := Shift(ROR, upper.sr, xs[0]);
      ShiftedBytes([s.v] + upper.out, s.sr)
  }

  /** n-byte doubling, carry in at the bottom and out at the top. */
  lemma {:induction false} RotateLeftDoubles(sr: Status, xs: Bytes)
    ensures var t := RotateLeftChain(sr, xs);
            Value(t.out) + t.sr.c * Power(0x100, |xs|) == 2 * Value(xs) + sr.c
    decreases xs
  {
    hide Modified, ModifiedStatus;
    if xs != [] {
      var s := Shift(ROL, sr, xs[0]);
      var rest := RotateLeftChain(s.sr, xs[1..]);
      ShiftMeaning(sr, xs[0]);
      RotateLeftDoubles(s.sr, xs[1..]);
      ValueCons(s.v, rest.out);
      MultiByte.Accumulate(0x100, s.v, Value(rest.out), 2 * xs[0] + sr.c, 2 * Value(xs[1..]), s.sr.c, rest.sr.c, Power(0x100, |xs| - 1));
    }
  }

  /** n-byte halving, carry in at the top and out at the bottom. */
  lemma {:induction false} RotateRightHalves(sr: Status, xs: Bytes)
    ensures var t := RotateRightChain(sr, xs);
            2 * Value(t.out) + t.sr.c == Value(xs) + sr.c * Power(0x100, |xs|)
    decreases xs
  {
    hide Modified, ModifiedStatus;
    if xs != [] {
      var upper := RotateRightChain(sr, xs[1..]);
      var s := Shift(ROR, upper.sr, xs[0]);
      RotateRightHalves(sr, xs[1..]);
      ShiftMeaning(upper.sr, xs[0]);
      ValueCons(s.v, upper.out);
      Scaled(sr.c, Power(0x100, |xs| - 1));
    }
  }

  lemma Scaled(c: Bit, p: nat)
    ensures 0x100 * (c * p) == c * (0x100 * p)
  {
  }

  /** Rotating a number left and then right, whatever its length, gives it and the carry back. */
  lemma {:induction false} ChainsUndo(sr: Status, xs: Bytes)
    ensures var l := RotateLeftChain(sr, xs);
            var back := RotateRightChain(l.sr, l.out);
            back.out == xs && back.sr.c == sr.c
    decreases xs
  {
    hide Modified, ModifiedStatus;
    if xs != [] {
      var s := Shift(ROL, sr, xs[0]);
      var rest := RotateLeftChain(s.sr, xs[1..]);
      ChainsUndo(s.sr, xs[1..]);
      assert ([s.v] + rest.out)[1..] == rest.out;
      var upper := RotateRightChain(rest.sr, rest.out);
      SameCarrySameRotate(s.sr, upper.sr, s.v);
      RotatesUndo(sr, xs[0]);
    }
  }

  /** A rotate depends on no flag but carry. */
  lemma SameCarrySameRotate(s: Status, t: Status, v: Byte)
    requires s.c == t.c
    ensures Shift(ROR, s, v).v == Shift(ROR, t, v).v && Shift(ROR, s, v).sr.c == Shift(ROR, t, v).sr.c
  {
  }
}
