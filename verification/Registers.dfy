/**
 The architectural state of the CPU (include/6502cc/emu_base.h): the 8- and 16-bit
 widths with their wrap-around, the status bits, and the register file both as a value
 and as the object that instructions update in place.
 */
module Registers {

  type Byte = x: int | 0 <= x < 0x100
  type Word = x: int | 0 <= x < 0x1_0000

  /** Conversion to `uint8`. */
  function Low(n: int): Byte {
    n % 0x100
  }

  /** Conversion to `uint16`. */
  function Wrap(n: int): Word {
    n % 0x1_0000
  }

  function High(w: Word): Byte {
    w / 0x100
  }

  /** The 16-bit value read low byte first. */
  function Join(lo: Byte, hi: Byte): Word {
    lo + 0x100 * hi
  }

  /** The page an address lies in. */
  function Page(w: Word): Byte {
    w / 0x100
  }

  /** The address with the index added to its low byte only. */
  function Uncarried(base: Word, index: Byte): Word {
    Page(base) * 0x100 + Low(base + index)
  }

  lemma JoinSplit(w: Word, lo: Byte, hi: Byte)
    ensures Join(Low(w), High(w)) == w
    ensures Low(Join(lo, hi)) == lo && High(Join(lo, hi)) == hi
  {
  }

  // ----- Bitwise operations on bytes -----

  function And(x: nat, y: nat): (r: nat)
    ensures r <= x && r <= y
  {
    if x == 0 || y == 0 then 0
    else 2 * And(x / 2, y / 2) + (if x % 2 == 1 && y % 2 == 1 then 1 else 0)
  }

  function Or(x: Byte, y: Byte): Byte {
    0xff - And(0xff - x, 0xff - y)
  }

  function Xor(x: Byte, y: Byte): Byte {
    And(x, 0xff - y) + And(0xff - x, y)
  }

  // ----- The status register -----

  type Bit = b: int | b == 0 || b == 1

  /** Bit 7 of a value. */
  function Sign(n: int): Bit {
    n / 0x80 % 2
  }

  /** 1 when the low byte of the value is zero. */
  function ZeroBit(n: int): Bit {
    if n % 0x100 == 0 then 1 else 0
  }

  /** The bits of the status byte, N in bit 7 down to C in bit 0; u is the unused bit 5. */
  datatype Status = Status(n: Bit, v: Bit, u: Bit, b: Bit, d: Bit, i: Bit, z: Bit, c: Bit) {
    function Packed(): Byte {
      0x80 * n + 0x40 * v + 0x20 * u + 0x10 * b + 0x08 * d + 0x04 * i + 0x02 * z + c
    }

    /** N and Z from a result byte. */
    function WithNZ(r: Byte): Status {
      this.(z := ZeroBit(r), n := Sign(r))
    }

    /** What PHP and BRK push: B and bit 5 set. */
    function BreakCopy(): Status {
      this.(b := 1, u := 1)
    }

    /** What an interrupt pushes, and what PLP and RTI make of a popped byte: B clear, bit 5 set. */
    function PlainCopy(): Status {
      this.(b := 0, u := 1)
    }

    /** B is never stored and bit 5 always is. */
    predicate Normal() {
      b == 0 && u == 1
    }
  }

  function Half(n: nat): nat {
    n / 2
  }

  function Parity(n: nat): Bit {
    n % 2
  }

  /** The status register that holds the given byte: bit k is the parity of the byte shifted right k times. */
  function Unpack(x: Byte): Status {
    var x1 := Half(x);
    var x2 := Half(x1);
    var x3 := Half(x2);
    var x4 := Half(x3);
    var x5 := Half(x4);
    var x6 := Half(x5);
    var x7 := Half(x6);
    Status(Parity(x7), Parity(x6), Parity(x5), Parity(x4), Parity(x3), Parity(x2), Parity(x1), Parity(x))
  }

  /** A byte and its eight status bits determine each other. */
  lemma PackUnpack(x: Byte, s: Status)
    ensures Unpack(x).Packed() == x
    ensures Unpack(s.Packed()) == s
  {
    UnpackPacked(s, s.Packed());
    PackedUnpack(x);
  }

  lemma Shifted(x: nat, h: nat, b: Bit)
    requires x == 2 * h + b
    ensures Half(x) == h && Parity(x) == b
  {
  }

  lemma PackedUnpack(x: Byte)
    ensures Unpack(x).Packed() == x
  {
    var x1 := Half(x);
    var x2 := Half(x1);
    var x3 := Half(x2);
    var x4 := Half(x3);
    var x5 := Half(x4);
    var x6 := Half(x5);
    var x7 := Half(x6);
    assert x < 0x100 && x1 < 0x80 && x2 < 0x40 && x3 < 0x20 && x4 < 0x10 && x5 < 8 && x6 < 4 && x7 < 2;
    assert x7 == Parity(x7);
    assert x6 == 2 * x7 + Parity(x6);
    assert x5 == 2 * x6 + Parity(x5);
    assert x4 == 2 * x5 + Parity(x4);
    assert x3 == 2 * x4 + Parity(x3);
    assert x2 == 2 * x3 + Parity(x2);
    assert x1 == 2 * x2 + Parity(x1);
    assert x == 2 * x1 + Parity(x);
  }

  lemma UnpackPacked(s: Status, x: Byte)
    requires x == s.Packed()
    ensures Unpack(x) == s
  {
    var x7: nat := s.n;
    var x6 := 2 * x7 + s.v;
    var x5 := 2 * x6 + s.u;
    var x4 := 2 * x5 + s.b;
    var x3 := 2 * x4 + s.d;
    var x2 := 2 * x3 + s.i;
    var x1 := 2 * x2 + s.z;
    Shifted(x, x1, s.c);
    Shifted(x1, x2, s.z);
    Shifted(x2, x3, s.i);
    Shifted(x3, x4, s.d);
    Shifted(x4, x5, s.b);
    Shifted(x5, x6, s.u);
    Shifted(x6, x7, s.v);
    Shifted(x7, 0, s.n);
  }

  /** What PLP and RTI make of a popped byte. */
  function Pulled(x: Byte): Status {
    Unpack(x).PlainCopy()
  }

  /** A status survives being pushed and pulled, whichever way, exactly when it is normal. */
  lemma PulledStatus(s: Status, t: Status)
    requires t == s.BreakCopy() || t == s.PlainCopy()
    ensures (Pulled(t.Packed()) == s) == s.Normal()
  {
    var x := t.Packed();
    UnpackPacked(t, x);
    assert t.PlainCopy() == s.PlainCopy();
  }

  /** The registers as a value. */
  datatype Regs = Regs(a: Byte, x: Byte, y: Byte, sr: Status, sp: Byte, pc: Word, decimalDisabled: bool)

  /** The `Registers` object every instruction is handed. */
  class RegisterFile {
    var a: Byte
    var x: Byte
    var y: Byte
    var sr: Status
    var sp: Byte
    var pc: Word
    var decimalDisabled: bool

    constructor ()
      ensures View() == Regs(0, 0, 0, Unpack(0), 0, 0, false)
    {
      a, x, y, sr, sp, pc, decimalDisabled := 0, 0, 0, Unpack(0), 0, 0, false;
    }

    /** Zero every field. */
    method Clear()
      modifies this
      ensures View() == Regs(0, 0, 0, Unpack(0), 0, 0, false)
    {
      a, x, y, sr, sp, pc, decimalDisabled := 0, 0, 0, Unpack(0), 0, 0, false;
    }

    function View(): Regs
      reads this
    {
      Regs(a, x, y, sr, sp, pc, decimalDisabled)
    }

    method SetNZ(r: Byte)
      modifies this`sr
      ensures sr == old(sr).WithNZ(r)
    {
      sr := sr.(z := ZeroBit(r));
      sr := sr.(n := Sign(r));
    }
  }
}
