/**
 RAM in 256-byte pages (src/Memory.cpp): addresses beyond the allocated size wrap,
 bulk transfers are clamped.
 */
module Memory {
  import opened Registers

  /** What a block of RAM holds: at least one page. */
  type Image = s: seq<Byte> | |s| > 0 && |s| % 256 == 0 witness seq(0x100, _ => 0)

  /** Where a 16-bit address lands in a block of the given size. */
  function Slot(size: nat, ad: Word): (i: nat)
    requires size > 0
    ensures i < size
  {
    ad % size
  }

  /** The same, with the common in-range case tested first. */
  function Reduced(n: nat, size: nat): (i: nat)
    requires size > 0
    ensures i == n % size
  {
    if n < size then n else n % size
  }

  function Peek(image: Image, ad: Word): Byte {
    image[Slot(|image|, ad)]
  }

  function Poke(image: Image, ad: Word, v: Byte): Image {
    image[Slot(|image|, ad) := v]
  }

  /** Bytes that a clamped transfer of `length` bytes at `offset` really moves. */
  function Clamped(size: nat, length: int, offset: Word): (n: nat)
    ensures n > 0 ==> offset + n <= size && n <= length
  {
    if length <= 0 || offset >= size then 0
    else if length > size - offset then size - offset
    else length
  }

  class Ram {
    const bytes: array<Byte>

    /** A page count of 0 is treated as 1; the buffer starts zeroed. */
    constructor (pages: Word)
      ensures Valid() && fresh(bytes)
      ensures bytes.Length == (if pages == 0 then 256 else pages * 256)
      ensures forall i :: 0 <= i < bytes.Length ==> bytes[i] == 0
    {
      var n: nat := if pages == 0 then 1 else pages;
      bytes := new Byte[n * 256](_ => 0);
    }

    ghost predicate Valid() {
      bytes.Length > 0 && bytes.Length % 256 == 0
    }

    function Contents(): Image
      requires Valid()
      reads this, bytes
    {
      bytes[..]
    }

    function CheckAddress(ad: Word): nat
      requires Valid()
      ensures CheckAddress(ad) == Slot(bytes.Length, ad)
    {
      Reduced(ad, bytes.Length)
    }

    method Read(ad: Word) returns (v: Byte)
      requires Valid()
      ensures v == Peek(Contents(), ad)
    {
      v := bytes[CheckAddress(ad)];
    }

    method Write(ad: Word, v: Byte)
      requires Valid()
      modifies bytes
      ensures Contents() == Poke(old(Contents()), ad, v)
    {
      bytes[CheckAddress(ad)] := v;
    }

    /** Bulk load. The source buffer must hold the bytes that fit; a null one is ignored. */
    method Load(src: array?<Byte>, length: int, offset: Word)
      requires Valid()
      requires src != null ==> src != bytes && Clamped(bytes.Length, length, offset) <= src.Length
      modifies bytes
      ensures src == null ==> Contents() == old(Contents())
      ensures src != null ==>
                var n := Clamped(bytes.Length, length, offset);
                if n == 0 then Contents() == old(Contents())
                else Contents() == old(Contents())[..offset] + src[..n] + old(Contents())[offset + n..]
    {
      if src == null || length <= 0 || offset >= bytes.Length {
        return;
      }
      var n := length;
      var at := offset;
      if n > bytes.Length - at {
        n := bytes.Length - at;
      }
      forall i | 0 <= i < n {
        bytes[at + i] := src[i];
      }
      assert Contents() == old(Contents())[..at] + src[..n] + old(Contents())[at + n..];
    }

    /** Bulk read; bytes of the destination past the clamped length keep their value. */
    method Dump(dst: array?<Byte>, length: int, offset: Word)
      requires Valid()
      requires dst != null ==> dst != bytes && Clamped(bytes.Length, length, offset) <= dst.Length
      modifies dst
      ensures dst != null ==>
                var n := Clamped(bytes.Length, length, offset);
                if n == 0 then dst[..] == old(dst[..])
                else dst[..] == Contents()[offset..offset + n] + old(dst[..])[n..]
    {
      if dst == null || length <= 0 || offset >= bytes.Length {
        return;
      }
      var n := length;
      var at := offset;
      if n > bytes.Length - at {
        n := bytes.Length - at;
      }
      forall i | 0 <= i < n {
        dst[i] := bytes[at + i];
      }
    }
  }

  /** Loading a buffer and reading it back returns the part of it that fits. */
  method LoadThenDump(ram: Ram, src: array<Byte>, dst: array<Byte>, offset: Word)
    requires ram.Valid() && src != ram.bytes && dst != ram.bytes && src != dst
    requires dst.Length == src.Length
    modifies ram.bytes, dst
    ensures var n := Clamped(ram.bytes.Length, src.Length, offset);
            n <= src.Length && dst[..] == old(src[..])[..n] + old(dst[..])[n..]
  {
    ram.Load(src, src.Length, offset);
    ram.Dump(dst, src.Length, offset);
  }
}
