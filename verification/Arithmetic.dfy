/**
 The add, subtract and compare cores shared by the documented instructions and the
 fused undocumented ones (src/InstructionImpl.h). Results live in a 16-bit register,
 so a negative difference wraps.
 */
module Arithmetic {
  import opened Registers

  predicate Decimal(r: Regs) {
    !r.decimalDisabled && r.sr.d == 1
  }

  /** 1 when the value is above the limit. */
  function AboveBit(n: int, limit: int): Bit {
    if n > limit then 1 else 0
  }

  /** 1 when a difference did not wrap below zero. */
  function NoBorrowBit(w: Word): Bit {
    if w < 0x100 then 1 else 0
  }

  /** Bit 7 of ~(a ^ v) & (a ^ w). */
  function SumOverflow(a: Byte, v: Byte, w: Word): Bit {
    if Sign(a) == Sign(v) && Sign(a) != Sign(w) then 1 else 0
  }

  /** Bit 7 of (a ^ v) & (a ^ w). */
  function DifferenceOverflow(a: Byte, v: Byte, w: Word): Bit {
    if Sign(a) != Sign(v) && Sign(a) != Sign(w) then 1 else 0
  }

  /** A + value + carry, before any decimal correction. */
  function RawSum(a: Byte, v: Byte, c: Bit): Word {
    a + v + c
  }

  /** The sum after the low-digit correction. */
  function LowFixed(a: Byte, v: Byte, c: Bit): Word {
    if a % 0x10 + v % 0x10 + c > 9 then RawSum(a, v, c) + 6 else RawSum(a, v, c)
  }

  /** The sum after both corrections. */
  function HighFixed(low: Word): Word {
    if low > 0x99 then Wrap(low + 96) else low
  }

  /** A - value - borrow. */
  function RawDifference(a: Byte, v: Byte, c: Bit): Word {
    Wrap(a - v - (1 - c))
  }

  function LowRestored(a: Byte, v: Byte, c: Bit): Word {
    if a % 0x10 - (1 - c) < v % 0x10 then Wrap(RawDifference(a, v, c) - 6) else RawDifference(a, v, c)
  }

  function HighRestored(low: Word): Word {
    if low > 0x99 then low - 0x60 else low
  }

  function AdcBinary(r: Regs, v: Byte): Regs {
    var res := RawSum(r.a, v, r.sr.c);
    r.(a := Low(res),
       sr := r.sr.(z := ZeroBit(res), v := SumOverflow(r.a, v, res), c := AboveBit(res, 0xff), n := Sign(res)))
  }

  /** Z comes from the uncorrected sum, N and V from the half-corrected one, C from the final one. */
  function AdcDecimal(r: Regs, v: Byte): Regs {
    var low := LowFixed(r.a, v, r.sr.c);
    var sum := HighFixed(low);
    r.(a := Low(sum),
       sr := r.sr.(z := ZeroBit(RawSum(r.a, v, r.sr.c)), n := Sign(low), v := SumOverflow(r.a, v, low),
                   c := AboveBit(sum, 0x99)))
  }

  function Adc(r: Regs, v: Byte): Regs {
    if Decimal(r) then AdcDecimal(r, v) else AdcBinary(r, v)
  }

  /** V, N and Z come from the binary difference in either mode, A and C from the final one. */
  function WithDifference(r: Regs, v: Byte, raw: Word, out: Word): Regs {
    r.(a := Low(out),
       sr := r.sr.(v := DifferenceOverflow(r.a, v, raw), n := Sign(raw), z := ZeroBit(raw), c := NoBorrowBit(out)))
  }

  function Sbc(r: Regs, v: Byte): Regs {
    var raw := RawDifference(r.a, v, r.sr.c);
    WithDifference(r, v, raw, if Decimal(r) then HighRestored(LowRestored(r.a, v, r.sr.c)) else raw)
  }

  function Cmp(sr: Status, reg: Byte, v: Byte): Status {
    var d := Wrap(reg - v);
    sr.(c := NoBorrowBit(d), z := if d == 0 then 1 else 0, n := Sign(d))
  }

  method AdcCore(regs: RegisterFile, v: Byte)
    modifies regs
    ensures regs.View() == Adc(old(regs.View()), v)
  {
    var a := regs.a;
    var res: int := RawSum(a, v, regs.sr.c);
    regs.sr := regs.sr.(z := ZeroBit(res));
    if !regs.decimalDisabled && regs.sr.d == 1 {
      if a % 0x10 + v % 0x10 + regs.sr.c > 9 {
        res := res + 6;
      }
      regs.sr := regs.sr.(n := Sign(res));
      regs.sr := regs.sr.(v := SumOverflow(a, v, res));
      if res > 0x99 {
        res := Wrap(res + 96);
      }
      regs.sr := regs.sr.(c := AboveBit(res, 0x99));
    } else {
      regs.sr := regs.sr.(v := SumOverflow(a, v, res));
      regs.sr := regs.sr.(c := AboveBit(res, 0xff));
      regs.sr := regs.sr.(n := Sign(res));
    }
    regs.a := Low(res);
  }

  method SbcCore(regs: RegisterFile, v: Byte)
    modifies regs
    ensures regs.View() == Sbc(old(regs.View()), v)
  {
    var a := regs.a;
    var res: int := RawDifference(a, v, regs.sr.c);
    regs.sr := regs.sr.(v := DifferenceOverflow(a, v, res));
    regs.sr := regs.sr.(n := Sign(res));
    regs.sr := regs.sr.(z := ZeroBit(res));
    if !regs.decimalDisabled && regs.sr.d == 1 {
      if a % 0x10 - (1 - regs.sr.c) < v % 0x10 {
        res := Wrap(res - 6);
      }
      if res > 0x99 {
        res := res - 0x60;
      }
    }
    regs.a := Low(res);
    regs.sr := regs.sr.(c := NoBorrowBit(res));
  }

  method CmpCore(regs: RegisterFile, reg: Byte, v: Byte)
    modifies regs`sr
    ensures regs.sr == Cmp(old(regs.sr), reg, v)
  {
    var d := Wrap(reg - v);
    regs.sr := regs.sr.(c := NoBorrowBit(d));
    regs.sr := regs.sr.(z := if d == 0 then 1 else 0);
    regs.sr := regs.sr.(n := Sign(d));
  }

  /** C, Z and N after a compare are the unsigned order, equality, and bit 7 of the 8-bit difference. */
  lemma CompareMeaning(sr: Status, reg: Byte, v: Byte)
    ensures (Cmp(sr, reg, v).c == 1) == (reg >= v)
    ensures (Cmp(sr, reg, v).z == 1) == (reg == v)
    ensures Cmp(sr, reg, v).n == Sign(Low(reg - v))
  {
  }

  lemma WrapSum(a: Byte, v: Byte, c: Bit)
    ensures RawSum(a, 0xff - v, c) == a - v - (1 - c) + 0x100
    ensures RawDifference(a, v, c) == if RawSum(a, 0xff - v, c) >= 0x100 then a - v - (1 - c) else a - v - (1 - c) + 0x1_0000
  {
  }

  lemma SameLowByte(sum: Word, dif: Word)
    requires sum < 0x200 && dif == if sum >= 0x100 then sum - 0x100 else sum + 0xff00
    ensures Low(sum) == Low(dif) && Sign(sum) == Sign(dif) && ZeroBit(sum) == ZeroBit(dif)
    ensures AboveBit(sum, 0xff) == NoBorrowBit(dif)
  {
  }

  /** Binary subtraction is addition of the complement, every flag included. */
  lemma SubtractIsAddComplement(r: Regs, v: Byte)
    requires !Decimal(r)
    ensures Sbc(r, v) == Adc(r, 0xff - v)
  {
    WrapSum(r.a, v, r.sr.c);
    SameLowByte(RawSum(r.a, 0xff - v, r.sr.c), RawDifference(r.a, v, r.sr.c));
    assert Sign(0xff - v) == 1 - Sign(v);
  }
}
