/**
 The bitwise operations on bytes, bit by bit: what AND, OR and EOR compute as numbers is
 what they mean on each of the eight bits.
 */
module BitwiseMeaning {
  import opened Registers

  /** Bit k of a number. */
  function BitAt(x: nat, k: nat): Bit {
    if k == 0 then x % 2 else BitAt(x / 2, k - 1)
  }

  function Pow2(w: nat): (p: nat)
    ensures p > 0
  {
    if w == 0 then 1 else 2 * Pow2(w - 1)
  }

  lemma {:induction false} AndBits(x: nat, y: nat, k: nat)
    ensures BitAt(And(x, y), k) == if BitAt(x, k) == 1 && BitAt(y, k) == 1 then 1 else 0
    decreases k
  {
    if x == 0 || y == 0 {
      ZeroBits(k);
    } else {
      var h := And(x / 2, y / 2);
      assert And(x, y) / 2 == h;
      if k > 0 {
        AndBits(x / 2, y / 2, k - 1);
      }
    }
  }

  lemma {:induction false} ZeroBits(k: nat)
    ensures BitAt(0, k) == 0
  {
    if k > 0 {
      ZeroBits(k - 1);
    }
  }

  /** Within w bits, subtracting from all ones flips every bit. */
  lemma {:induction false} ComplementBits(w: nat, x: nat, k: nat)
    requires x < Pow2(w) && k < w
    ensures BitAt(Pow2(w) - 1 - x, k) == 1 - BitAt(x, k)
    decreases k
  {
    assert (Pow2(w) - 1 - x) / 2 == Pow2(w - 1) - 1 - x / 2;
    if k > 0 {
      ComplementBits(w - 1, x / 2, k - 1);
    }
  }

  /** The two halves of an exclusive or never meet in a bit, so they add without carries. */
  lemma {:induction false} DifferenceBits(w: nat, x: nat, y: nat, k: nat)
    requires x < Pow2(w) && y < Pow2(w) && k < w
    ensures var m := Pow2(w) - 1;
            BitAt(And(x, m - y) + And(m - x, y), k) == if BitAt(x, k) != BitAt(y, k) then 1 else 0
    decreases k
  {
    hide And;
    DifferenceStep(Pow2(w) - 1, Pow2(w - 1) - 1, x, y);
    if k > 0 {
      DifferenceBits(w - 1, x / 2, y / 2, k - 1);
    }
  }

  lemma DifferenceStep(m: nat, m': nat, x: nat, y: nat)
    requires m == 2 * m' + 1 && x <= m && y <= m
    ensures x / 2 <= m' && y / 2 <= m'
    ensures var u := And(x, m - y) + And(m - x, y);
            && u / 2 == And(x / 2, m' - y / 2) + And(m' - x / 2, y / 2)
            && u % 2 == if x % 2 != y % 2 then 1 else 0
  {
    hide And;
    Complement(m, m', x);
    Complement(m, m', y);
    var g, h := And(x / 2, m' - y / 2), And(m' - x / 2, y / 2);
    var b: Bit := if x % 2 == 1 && y % 2 == 0 then 1 else 0;
    var c: Bit := if x % 2 == 0 && y % 2 == 1 then 1 else 0;
    AndStep(x, m - y);
    AndStep(m - x, y);
    assert And(x, m - y) == 2 * g + b && And(m - x, y) == 2 * h + c;
    NoCarry(g, h, b, c);
  }

  lemma Complement(m: nat, m': nat, x: nat)
    requires m == 2 * m' + 1 && x <= m
    ensures x / 2 <= m' && (m - x) / 2 == m' - x / 2 && (m - x) % 2 == 1 - x % 2
  {
  }

  lemma NoCarry(g: nat, h: nat, b: Bit, c: Bit)
    requires b + c <= 1
    ensures (2 * g + b + (2 * h + c)) / 2 == g + h && (2 * g + b + (2 * h + c)) % 2 == b + c
  {
  }

  lemma AndStep(x: nat, y: nat)
    ensures And(x, y) == 2 * And(x / 2, y / 2) + (if x % 2 == 1 && y % 2 == 1 then 1 else 0)
  {
  }

  lemma EightBits()
    ensures Pow2(8) == 0x100
  {
    assert Pow2(4) == 16;
    assert Pow2(6) == 64;
  }

  /** AND, OR and EOR on every bit of a byte. */
  lemma BytewiseMeaning(x: Byte, y: Byte, k: nat)
    requires k < 8
    ensures BitAt(And(x, y), k) == if BitAt(x, k) == 1 && BitAt(y, k) == 1 then 1 else 0
    ensures BitAt(Or(x, y), k) == if BitAt(x, k) == 1 || BitAt(y, k) == 1 then 1 else 0
    ensures BitAt(Xor(x, y), k) == if BitAt(x, k) != BitAt(y, k) then 1 else 0
  {
    hide And, BitAt, Pow2;
    EightBits();
    AndBits(x, y, k);
    ComplementBits(8, x, k);
    ComplementBits(8, y, k);
    AndBits(0xff - x, 0xff - y, k);
    ComplementBits(8, And(0xff - x, 0xff - y), k);
    DifferenceBits(8, x, y, k);
  }

  lemma {:induction false} SomeBit(w: nat, x: nat) returns (k: nat)
    requires 0 < x < Pow2(w)
    ensures k < w && BitAt(x, k) == 1
    decreases w
  {
    if x % 2 == 1 {
      k := 0;
    } else {
      k := SomeBit(w - 1, x / 2);
      k := k + 1;
    }
  }

  /** Two bytes have a bit in common exactly when their conjunction is not zero. */
  lemma CommonBit(x: Byte, y: Byte) returns (k: nat)
    requires And(x, y) != 0
    ensures k < 8 && BitAt(x, k) == 1 && BitAt(y, k) == 1
  {
    EightBits();
    k := SomeBit(8, And(x, y));
    AndBits(x, y, k);
  }

  lemma NoCommonBit(x: Byte, y: Byte, k: nat)
    requires And(x, y) == 0
    ensures BitAt(x, k) == 0 || BitAt(y, k) == 0
  {
    AndBits(x, y, k);
    ZeroBits(k);
  }
}
