/**
 What the 8-bit cores compute as numbers, and what they compute when a program chains
 them over n-byte operands, low byte first, with the carry flag between the bytes.
 */
module MultiByte {
  import opened Registers
  import opened Arithmetic

  function Signed(b: Byte): int {
    if b >= 0x80 then b - 0x100 else b
  }

  predicate IsBcd(b: Byte) {
    b % 0x10 <= 9 && b / 0x10 <= 9
  }

  /** The number a packed-BCD byte denotes. */
  function Bcd(b: Byte): nat {
    10 * (b / 0x10) + b % 0x10
  }

  // ----- One byte -----

  /** One binary addition: the 9-bit sum, V as signed overflow, the mode left alone. */
  lemma AddMeaning(r: Regs, v: Byte)
    requires !Decimal(r)
    ensures Adc(r, v).a + 0x100 * Adc(r, v).sr.c == r.a + v + r.sr.c
    ensures (Adc(r, v).sr.v == 1) == !(-128 <= Signed(r.a) + Signed(v) + r.sr.c < 128)
    ensures !Decimal(Adc(r, v))
  {
  }

  /** One binary subtraction: C is the absence of a borrow, V signed overflow. */
  lemma SubtractMeaning(r: Regs, v: Byte)
    requires !Decimal(r)
    ensures Sbc(r, v).a == r.a - v - (1 - r.sr.c) + 0x100 * (1 - Sbc(r, v).sr.c)
    ensures (Sbc(r, v).sr.v == 1) == !(-128 <= Signed(r.a) - Signed(v) - (1 - r.sr.c) < 128)
    ensures !Decimal(Sbc(r, v))
  {
    SubtractIsAddComplement(r, v);
    AddMeaning(r, 0xff - v);
    assert Signed(0xff - v) == -1 - Signed(v);
  }

  /** Sixteen h plus d, with both digits decimal, is the byte whose digits are h and d. */
  lemma DigitsOf(n: nat, h: nat, d: nat)
    requires n == 0x10 * h + d && h <= 9 && d <= 9
    ensures n < 0x100 && IsBcd(n) && Bcd(n) == 10 * h + d
  {
  }

  /** The half-corrected sum, by its digits: the high one may still exceed nine. */
  lemma LowFixedDigits(a: Byte, v: Byte, c: Bit, h: nat, d: nat)
    requires IsBcd(a) && IsBcd(v)
    requires 10 * h + d == Bcd(a) + Bcd(v) + c && d <= 9
    ensures LowFixed(a, v, c) == 0x10 * h + d
  {
    assert a == 0x10 * (a / 0x10) + a % 0x10;
    assert v == 0x10 * (v / 0x10) + v % 0x10;
  }

  lemma HighFixedDigits(low: Word, h: nat, d: nat)
    requires low == 0x10 * h + d && h <= 19 && d <= 9
    ensures var h1 := if h > 9 then h - 10 else h;
            Low(HighFixed(low)) == 0x10 * h1 + d && (HighFixed(low) > 0x99) == (h > 9)
  {
  }

  /** One decimal addition of packed-BCD operands. */
  lemma AddDecimalMeaning(r: Regs, v: Byte)
    requires Decimal(r) && IsBcd(r.a) && IsBcd(v)
    ensures IsBcd(Adc(r, v).a)
    ensures Bcd(Adc(r, v).a) + 100 * Adc(r, v).sr.c == Bcd(r.a) + Bcd(v) + r.sr.c
    ensures Decimal(Adc(r, v))
  {
    var total := Bcd(r.a) + Bcd(v) + r.sr.c;
    var h, d := total / 10, total % 10;
    LowFixedDigits(r.a, v, r.sr.c, h, d);
    HighFixedDigits(LowFixed(r.a, v, r.sr.c), h, d);
    var h1 := if h > 9 then h - 10 else h;
    DigitsOf(0x10 * h1 + d, h1, d);
  }

  /** The half-corrected difference, as an integer that may be negative. */
  lemma LowRestoredDigits(a: Byte, v: Byte, c: Bit, h: int, d: nat)
    requires IsBcd(a) && IsBcd(v)
    requires 10 * h + d == Bcd(a) - Bcd(v) - (1 - c) && d <= 9
    ensures LowRestored(a, v, c) == Wrap(0x10 * h + d)
  {
    var n := a - v - (1 - c);
    WrapLess(n);
    BorrowDigits(a / 0x10, a % 0x10, v / 0x10, v % 0x10, 1 - c, h, d);
    assert a == 0x10 * (a / 0x10) + a % 0x10;
    assert v == 0x10 * (v / 0x10) + v % 0x10;
  }

  lemma WrapLess(n: int)
    ensures Wrap(Wrap(n) - 6) == Wrap(n - 6)
  {
  }

  /** The low digit of a difference borrows ten, which is six less than sixteen. */
  lemma BorrowDigits(ah: int, al: int, vh: int, vl: int, borrow: Bit, h: int, d: int)
    requires 0 <= al <= 9 && 0 <= vl <= 9 && 0 <= d <= 9
    requires 10 * h + d == 10 * ah + al - (10 * vh + vl) - borrow
    ensures 0x10 * h + d == 0x10 * ah + al - (0x10 * vh + vl) - borrow - (if al - borrow < vl then 6 else 0)
  {
  }

  lemma HighRestoredDigits(low: Word, h: int, d: nat)
    requires low == Wrap(0x10 * h + d) && -10 <= h <= 9 && d <= 9
    ensures var h1 := if h < 0 then h + 10 else h;
            Low(HighRestored(low)) == 0x10 * h1 + d && (HighRestored(low) < 0x100) == (h >= 0)
  {
    if h < 0 {
      assert low == 0x10 * h + d + 0x1_0000;
    }
  }

  /** One decimal subtraction of packed-BCD operands. */
  lemma SubtractDecimalMeaning(r: Regs, v: Byte)
    requires Decimal(r) && IsBcd(r.a) && IsBcd(v)
    ensures IsBcd(Sbc(r, v).a)
    ensures Bcd(Sbc(r, v).a) == Bcd(r.a) - Bcd(v) - (1 - r.sr.c) + 100 * (1 - Sbc(r, v).sr.c)
    ensures Decimal(Sbc(r, v))
  {
    var total := Bcd(r.a) - Bcd(v) - (1 - r.sr.c);
    var h, d := total / 10, total % 10;
    LowRestoredDigits(r.a, v, r.sr.c, h, d);
    HighRestoredDigits(LowRestored(r.a, v, r.sr.c), h, d);
    var h1 := if h < 0 then h + 10 else h;
    DigitsOf(0x10 * h1 + d, h1, d);
  }

  // ----- Chains -----

  type Bytes = seq<Byte>

  function Power(base: nat, n: nat): (p: nat)
    ensures base > 0 ==> p > 0
  {
    if n == 0 then 1 else base * Power(base, n - 1)
  }

  function Value(xs: Bytes): nat {
    if xs == [] then 0 else xs[0] + 0x100 * Value(xs[1..])
  }

  /** Two's complement: the last byte carries the sign. */
  function SignedValue(xs: Bytes): int
    requires xs != []
  {
    if |xs| == 1 then Signed(xs[0]) else xs[0] + 0x100 * SignedValue(xs[1..])
  }

  predicate AllBcd(xs: Bytes) {
    forall x :: x in xs ==> IsBcd(x)
  }

  function BcdValue(xs: Bytes): nat {
    if xs == [] then 0 else Bcd(xs[0]) + 100 * BcdValue(xs[1..])
  }

  /** The result bytes and the registers after the last step. */
  datatype Chained = Chained(out: Bytes, r: Regs)

  /** Load a byte of the first operand, ADC the matching byte of the second, store, repeat. */
  function AddChain(r: Regs, xs: Bytes, ys: Bytes): (t: Chained)
    requires |xs| == |ys|
    ensures |t.out| == |xs|
    decreases xs
  {
    if xs == [] then Chained([], r)
    else
      var r1 := Adc(r.(a := xs[0]), ys[0]);
      var rest := AddChain(r1, xs[1..], ys[1..]);
      Chained([r1.a] + rest.out, rest.r)
  }

  function SubtractChain(r: Regs, xs: Bytes, ys: Bytes): (t: Chained)
    requires |xs| == |ys|
    ensures |t.out| == |xs|
    decreases xs
  {
    if xs == [] then Chained([], r)
    else
      var r1 := Sbc(r.(a := xs[0]), ys[0]);
      var rest := SubtractChain(r1, xs[1..], ys[1..]);
      Chained([r1.a] + rest.out, rest.r)
  }

  /** One step of a sum: the low byte, the carry into the rest, and the rest. */
  lemma Accumulate(base: nat, low: int, rest: int, total: int, total': int, c: int, k: int, p: int)
    requires low + base * c == total && rest + k * p == total' + c
    ensures low + base * rest + k * (base * p) == total + base * total'
  {
    assert k * (base * p) == base * (k * p);
  }

  lemma ValueCons(b: Byte, rest: Bytes)
    ensures Value([b] + rest) == b + 0x100 * Value(rest)
    ensures BcdValue([b] + rest) == Bcd(b) + 100 * BcdValue(rest)
    ensures IsBcd(b) && AllBcd(rest) ==> AllBcd([b] + rest)
  {
    assert ([b] + rest)[1..] == rest;
  }

  /** The n-byte binary sum, with C as its carry out: everything is accounted for. */
  lemma {:induction false} AddChainValue(r: Regs, xs: Bytes, ys: Bytes)
    requires |xs| == |ys| && !Decimal(r)
    ensures var t := AddChain(r, xs, ys);
            Value(t.out) + t.r.sr.c * Power(0x100, |xs|) == Value(xs) + Value(ys) + r.sr.c
    decreases xs
  {
    if xs != [] {
      var r0 := r.(a := xs[0]);
      var r1 := Adc(r0, ys[0]);
      AddMeaning(r0, ys[0]);
      AddChainValue(r1, xs[1..], ys[1..]);
      var rest := AddChain(r1, xs[1..], ys[1..]);
      ValueCons(r1.a, rest.out);
      Accumulate(0x100, r1.a, Value(rest.out), xs[0] + ys[0] + r.sr.c, Value(xs[1..]) + Value(ys[1..]),
                 r1.sr.c, rest.r.sr.c, Power(0x100, |xs| - 1));
    }
  }

  /** V after the last byte says whether the signed n-byte sum is out of range. */
  lemma {:induction false} AddChainOverflow(r: Regs, xs: Bytes, ys: Bytes)
    requires |xs| == |ys| > 0 && !Decimal(r)
    ensures var half := 0x80 * Power(0x100, |xs| - 1);
            (AddChain(r, xs, ys).r.sr.v == 1) == !(-half <= SignedValue(xs) + SignedValue(ys) + r.sr.c < half)
    decreases xs
  {
    hide Adc;
    var r0 := r.(a := xs[0]);
    var r1 := Adc(r0, ys[0]);
    AddMeaning(r0, ys[0]);
    if |xs| == 1 {
      assert AddChain(r1, xs[1..], ys[1..]).r == r1;
    } else {
      AddChainOverflow(r1, xs[1..], ys[1..]);
    }
  }

  /** The n-byte binary difference, with C as the absence of a borrow. */
  lemma {:induction false} SubtractChainValue(r: Regs, xs: Bytes, ys: Bytes)
    requires |xs| == |ys| && !Decimal(r)
    ensures var t := SubtractChain(r, xs, ys);
            Value(t.out) + (t.r.sr.c - 1) * Power(0x100, |xs|) == Value(xs) - Value(ys) - (1 - r.sr.c)
    decreases xs
  {
    if xs != [] {
      var r0 := r.(a := xs[0]);
      var r1 := Sbc(r0, ys[0]);
      SubtractMeaning(r0, ys[0]);
      SubtractChainValue(r1, xs[1..], ys[1..]);
      var rest := SubtractChain(r1, xs[1..], ys[1..]);
      ValueCons(r1.a, rest.out);
      Accumulate(0x100, r1.a, Value(rest.out), xs[0] - ys[0] - (1 - r.sr.c), Value(xs[1..]) - Value(ys[1..]),
                 r1.sr.c - 1, rest.r.sr.c - 1, Power(0x100, |xs| - 1));
    }
  }

  lemma {:induction false} SubtractChainOverflow(r: Regs, xs: Bytes, ys: Bytes)
    requires |xs| == |ys| > 0 && !Decimal(r)
    ensures var half := 0x80 * Power(0x100, |xs| - 1);
            (SubtractChain(r, xs, ys).r.sr.v == 1)
            == !(-half <= SignedValue(xs) - SignedValue(ys) - (1 - r.sr.c) < half)
    decreases xs
  {
    hide Sbc;
    var r0 := r.(a := xs[0]);
    var r1 := Sbc(r0, ys[0]);
    SubtractMeaning(r0, ys[0]);
    if |xs| == 1 {
      assert SubtractChain(r1, xs[1..], ys[1..]).r == r1;
    } else {
      SubtractChainOverflow(r1, xs[1..], ys[1..]);
    }
  }

  /** The n-byte packed-BCD sum is the decimal sum mod 100^n, with C as its carry out. */
  lemma {:induction false} AddChainDecimal(r: Regs, xs: Bytes, ys: Bytes)
    requires |xs| == |ys| && Decimal(r) && AllBcd(xs) && AllBcd(ys)
    ensures var t := AddChain(r, xs, ys);
            && AllBcd(t.out)
            && BcdValue(t.out) + t.r.sr.c * Power(100, |xs|) == BcdValue(xs) + BcdValue(ys) + r.sr.c
            && Decimal(t.r)
    decreases xs
  {
    if xs != [] {
      var r0 := r.(a := xs[0]);
      var r1 := Adc(r0, ys[0]);
      AddDecimalMeaning(r0, ys[0]);
      AddChainDecimal(r1, xs[1..], ys[1..]);
      var rest := AddChain(r1, xs[1..], ys[1..]);
      ValueCons(r1.a, rest.out);
      Accumulate(100, Bcd(r1.a), BcdValue(rest.out), Bcd(xs[0]) + Bcd(ys[0]) + r.sr.c,
                 BcdValue(xs[1..]) + BcdValue(ys[1..]), r1.sr.c, rest.r.sr.c, Power(100, |xs| - 1));
    }
  }

  lemma {:induction false} SubtractChainDecimal(r: Regs, xs: Bytes, ys: Bytes)
    requires |xs| == |ys| && Decimal(r) && AllBcd(xs) && AllBcd(ys)
    ensures var t := SubtractChain(r, xs, ys);
            && AllBcd(t.out)
            && BcdValue(t.out) + (t.r.sr.c - 1) * Power(100, |xs|) == BcdValue(xs) - BcdValue(ys) - (1 - r.sr.c)
            && Decimal(t.r)
    decreases xs
  {
    if xs != [] {
      var r0 := r.(a := xs[0]);
      var r1 := Sbc(r0, ys[0]);
      SubtractDecimalMeaning(r0, ys[0]);
      SubtractChainDecimal(r1, xs[1..], ys[1..]);
      var rest := SubtractChain(r1, xs[1..], ys[1..]);
      ValueCons(r1.a, rest.out);
      Accumulate(100, Bcd(r1.a), BcdValue(rest.out), Bcd(xs[0]) - Bcd(ys[0]) - (1 - r.sr.c),
                 BcdValue(xs[1..]) - BcdValue(ys[1..]), r1.sr.c - 1, rest.r.sr.c - 1, Power(100, |xs| - 1));
    }
  }

  lemma {:induction false} BcdValueUnique(xs: Bytes, ys: Bytes)
    requires |xs| == |ys| && AllBcd(xs) && AllBcd(ys) && BcdValue(xs) == BcdValue(ys)
    ensures xs == ys
    decreases xs
  {
    if xs != [] {
      assert IsBcd(xs[0]) && IsBcd(ys[0]);
      LowestDigits(Bcd(xs[0]), BcdValue(xs[1..]), Bcd(ys[0]), BcdValue(ys[1..]));
      BcdByteUnique(xs[0], ys[0]);
      BcdValueUnique(xs[1..], ys[1..]);
      assert xs == [xs[0]] + xs[1..] && ys == [ys[0]] + ys[1..];
    }
  }

  lemma LowestDigits(m: nat, m': nat, n: nat, n': nat)
    requires m < 100 && n < 100 && m + 100 * m' == n + 100 * n'
    ensures m == n && m' == n'
  {
  }

  lemma BcdByteUnique(a: Byte, b: Byte)
    requires IsBcd(a) && IsBcd(b) && Bcd(a) == Bcd(b)
    ensures a == b
  {
    assert a == 0x10 * (a / 0x10) + a % 0x10;
    assert b == 0x10 * (b / 0x10) + b % 0x10;
  }

  lemma {:induction false} BcdBound(xs: Bytes)
    requires AllBcd(xs)
    ensures BcdValue(xs) < Power(100, |xs|)
  {
    if xs != [] {
      BcdBound(xs[1..]);
      assert IsBcd(xs[0]);
    }
  }

  lemma {:induction false} ValueBound(xs: Bytes)
    ensures Value(xs) < Power(0x100, |xs|)
    decreases xs
  {
    if xs != [] {
      ValueBound(xs[1..]);
    }
  }

  lemma CarryOut(out: nat, c: Bit, p: nat, total: int)
    requires out < p && out + c * p == total
    ensures (c == 1) == (total >= p)
  {
    assert c == 0 || c == 1;
  }

  lemma BorrowOut(out: nat, c: Bit, p: nat, total: int)
    requires out < p && out + (c - 1) * p == total
    ensures (c == 1) == (total >= 0)
  {
    assert c == 0 || c == 1;
  }

  /** C after a binary chain is the carry out of the n-byte sum. */
  lemma AddChainCarry(r: Regs, xs: Bytes, ys: Bytes)
    requires |xs| == |ys| && !Decimal(r)
    ensures (AddChain(r, xs, ys).r.sr.c == 1) == (Value(xs) + Value(ys) + r.sr.c >= Power(0x100, |xs|))
  {
    hide AddChain, Value, Power;
    var t := AddChain(r, xs, ys);
    AddChainValue(r, xs, ys);
    ValueBound(t.out);
    CarryOut(Value(t.out), t.r.sr.c, Power(0x100, |xs|), Value(xs) + Value(ys) + r.sr.c);
  }

  /** C after a binary subtraction chain is the absence of a borrow. */
  lemma SubtractChainBorrow(r: Regs, xs: Bytes, ys: Bytes)
    requires |xs| == |ys| && !Decimal(r)
    ensures (SubtractChain(r, xs, ys).r.sr.c == 1) == (Value(xs) >= Value(ys) + (1 - r.sr.c))
  {
    hide SubtractChain, Value, Power;
    var t := SubtractChain(r, xs, ys);
    SubtractChainValue(r, xs, ys);
    ValueBound(t.out);
    BorrowOut(Value(t.out), t.r.sr.c, Power(0x100, |xs|), Value(xs) - Value(ys) - (1 - r.sr.c));
  }

  /** In decimal, C says whether the sum reaches 100^n. */
  lemma AddChainDecimalCarry(r: Regs, xs: Bytes, ys: Bytes)
    requires |xs| == |ys| && Decimal(r) && AllBcd(xs) && AllBcd(ys)
    ensures (AddChain(r, xs, ys).r.sr.c == 1) == (BcdValue(xs) + BcdValue(ys) + r.sr.c >= Power(100, |xs|))
  {
    hide AddChain, BcdValue, Power, AllBcd;
    var t := AddChain(r, xs, ys);
    AddChainDecimal(r, xs, ys);
    BcdBound(t.out);
    CarryOut(BcdValue(t.out), t.r.sr.c, Power(100, |xs|), BcdValue(xs) + BcdValue(ys) + r.sr.c);
  }

  /** In decimal, C after a subtraction is the absence of a borrow. */
  lemma SubtractChainDecimalBorrow(r: Regs, xs: Bytes, ys: Bytes)
    requires |xs| == |ys| && Decimal(r) && AllBcd(xs) && AllBcd(ys)
    ensures (SubtractChain(r, xs, ys).r.sr.c == 1) == (BcdValue(xs) >= BcdValue(ys) + (1 - r.sr.c))
  {
    hide SubtractChain, BcdValue, Power, AllBcd;
    var t := SubtractChain(r, xs, ys);
    SubtractChainDecimal(r, xs, ys);
    BcdBound(t.out);
    BorrowOut(BcdValue(t.out), t.r.sr.c, Power(100, |xs|), BcdValue(xs) - BcdValue(ys) - (1 - r.sr.c));
  }

  // ----- There and back -----

  lemma BcdBelow100(b: Byte)
    requires IsBcd(b)
    ensures Bcd(b) < 100
  {
  }

  lemma AddStepBack(r: Regs, s: Regs, a: Byte, v: Byte)
    requires !Decimal(r) && !Decimal(s)
    requires s.sr.c == 1 - r.sr.c
    ensures var there := Adc(r.(a := a), v);
            var back := Sbc(s.(a := there.a), v);
            back.a == a && back.sr.c == 1 - there.sr.c && !Decimal(there) && !Decimal(back)
  {
    hide Adc, Sbc;
    var there := Adc(r.(a := a), v);
    var back := Sbc(s.(a := there.a), v);
    AddMeaning(r.(a := a), v);
    SubtractMeaning(s.(a := there.a), v);
  }

  lemma SubtractStepBack(r: Regs, s: Regs, a: Byte, v: Byte)
    requires !Decimal(r) && !Decimal(s)
    requires s.sr.c == 1 - r.sr.c
    ensures var there := Sbc(s.(a := a), v);
            var back := Adc(r.(a := there.a), v);
            back.a == a && back.sr.c == 1 - there.sr.c && !Decimal(there) && !Decimal(back)
  {
    hide Adc, Sbc;
    var there := Sbc(s.(a := a), v);
    var back := Adc(r.(a := there.a), v);
    SubtractMeaning(s.(a := a), v);
    AddMeaning(r.(a := there.a), v);
  }

  lemma DecimalAddStepBack(r: Regs, s: Regs, a: Byte, v: Byte)
    requires Decimal(r) && Decimal(s) && IsBcd(a) && IsBcd(v)
    requires s.sr.c == 1 - r.sr.c
    ensures var there := Adc(r.(a := a), v);
            var back := Sbc(s.(a := there.a), v);
            back.a == a && back.sr.c == 1 - there.sr.c && IsBcd(there.a) && Decimal(there) && Decimal(back)
  {
    hide Adc, Sbc, IsBcd, Bcd;
    var there := Adc(r.(a := a), v);
    var back := Sbc(s.(a := there.a), v);
    AddDecimalMeaning(r.(a := a), v);
    SubtractDecimalMeaning(s.(a := there.a), v);
    BcdBelow100(a);
    BcdBelow100(back.a);
    BcdByteUnique(back.a, a);
  }

  lemma DecimalSubtractStepBack(r: Regs, s: Regs, a: Byte, v: Byte)
    requires Decimal(r) && Decimal(s) && IsBcd(a) && IsBcd(v)
    requires s.sr.c == 1 - r.sr.c
    ensures var there := Sbc(s.(a := a), v);
            var back := Adc(r.(a := there.a), v);
            back.a == a && back.sr.c == 1 - there.sr.c && IsBcd(there.a) && Decimal(there) && Decimal(back)
  {
    hide Adc, Sbc, IsBcd, Bcd;
    var there := Sbc(s.(a := a), v);
    var back := Adc(r.(a := there.a), v);
    SubtractDecimalMeaning(s.(a := a), v);
    AddDecimalMeaning(r.(a := there.a), v);
    BcdBelow100(a);
    BcdBelow100(back.a);
    BcdByteUnique(back.a, a);
  }

  /** Subtracting what was added gives the first operand back, when the carries in complement each other. */
  lemma {:induction false} AddThenSubtract(r: Regs, s: Regs, xs: Bytes, ys: Bytes)
    requires |xs| == |ys| && !Decimal(r) && !Decimal(s)
    requires s.sr.c == 1 - r.sr.c
    ensures SubtractChain(s, AddChain(r, xs, ys).out, ys).out == xs
    decreases xs
  {
    hide Adc, Sbc, Decimal;
    if xs != [] {
      var there := Adc(r.(a := xs[0]), ys[0]);
      var back := Sbc(s.(a := there.a), ys[0]);
      AddStepBack(r, s, xs[0], ys[0]);
      AddThenSubtract(there, back, xs[1..], ys[1..]);
      var rest := AddChain(there, xs[1..], ys[1..]).out;
      assert ([there.a] + rest)[1..] == rest;
    }
  }

  /** Adding back what was subtracted gives the first operand back. */
  lemma {:induction false} SubtractThenAdd(r: Regs, s: Regs, xs: Bytes, ys: Bytes)
    requires |xs| == |ys| && !Decimal(r) && !Decimal(s)
    requires s.sr.c == 1 - r.sr.c
    ensures AddChain(r, SubtractChain(s, xs, ys).out, ys).out == xs
    decreases xs
  {
    hide Adc, Sbc, Decimal;
    if xs != [] {
      var there := Sbc(s.(a := xs[0]), ys[0]);
      var back := Adc(r.(a := there.a), ys[0]);
      SubtractStepBack(r, s, xs[0], ys[0]);
      SubtractThenAdd(back, there, xs[1..], ys[1..]);
      var rest := SubtractChain(there, xs[1..], ys[1..]).out;
      assert ([there.a] + rest)[1..] == rest;
    }
  }

  /** The same for packed BCD. */
  lemma {:induction false} DecimalAddThenSubtract(r: Regs, s: Regs, xs: Bytes, ys: Bytes)
    requires |xs| == |ys| && Decimal(r) && Decimal(s) && AllBcd(xs) && AllBcd(ys)
    requires s.sr.c == 1 - r.sr.c
    ensures SubtractChain(s, AddChain(r, xs, ys).out, ys).out == xs
    decreases xs
  {
    hide Adc, Sbc, Decimal, IsBcd;
    if xs != [] {
      var there := Adc(r.(a := xs[0]), ys[0]);
      var back := Sbc(s.(a := there.a), ys[0]);
      DecimalAddStepBack(r, s, xs[0], ys[0]);
      DecimalAddThenSubtract(there, back, xs[1..], ys[1..]);
      var rest := AddChain(there, xs[1..], ys[1..]).out;
      assert ([there.a] + rest)[1..] == rest;
    }
  }

  /** And the other way round. */
  lemma {:induction false} DecimalSubtractThenAdd(r: Regs, s: Regs, xs: Bytes, ys: Bytes)
    requires |xs| == |ys| && Decimal(r) && Decimal(s) && AllBcd(xs) && AllBcd(ys)
    requires s.sr.c == 1 - r.sr.c
    ensures AddChain(r, SubtractChain(s, xs, ys).out, ys).out == xs
    decreases xs
  {
    hide Adc, Sbc, Decimal, IsBcd;
    if xs != [] {
      var there := Sbc(s.(a := xs[0]), ys[0]);
      var back := Adc(r.(a := there.a), ys[0]);
      DecimalSubtractStepBack(r, s, xs[0], ys[0]);
      DecimalSubtractThenAdd(back, there, xs[1..], ys[1..]);
      var rest := SubtractChain(there, xs[1..], ys[1..]).out;
      assert ([there.a] + rest)[1..] == rest;
    }
  }
}
