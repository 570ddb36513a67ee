/**
 Where every read and write of the processor goes (src/emu_bus.cpp,
 include/6502cc/emu_bus.h). The bus keeps a log of every access, in order. What answers a read is one of: the
 connected RAM, nothing (reads return 0), or a device that may answer anything at all as
 a function of the address and of everything that has happened on the bus before.
 */
module Bus {
  import opened Registers
  import opened Memory

  datatype Access = Load(ad: Word, val: Byte) | Store(ad: Word, val: Byte)

  type Answer = (seq<Access>, Word) -> Byte

  datatype Device = Ram(image: Image) | Open | Custom(answer: Answer)

  datatype BusState = BusState(device: Device, log: seq<Access>) {
    /** The value a read of `ad` would return now. */
    function Value(ad: Word): Byte {
      match device
      case Ram(image) => Peek(image, ad)
      case Open => 0
      case Custom(answer) => answer(log, ad)
    }

    function Read(ad: Word): BusState {
      this.(log := log + [Load(ad, Value(ad))])
    }

    function Write(ad: Word, v: Byte): BusState {
      BusState(if device.Ram? then Ram(Poke(device.image, ad, v)) else device, log + [Store(ad, v)])
    }

    /** Two reads in a row, low byte first. */
    function ReadPair(lo: Word, hi: Word): BusState {
      Read(lo).Read(hi)
    }

    function PairValue(lo: Word, hi: Word): Word {
      Join(Value(lo), Read(lo).Value(hi))
    }
  }

  class SystemBus {
    const mem: Memory.Ram?
    const isCustom: bool
    const answer: Answer
    var log: seq<Access>

    constructor Connected(mem: Memory.Ram)
      requires mem.Valid()
      ensures Valid() && this.mem == mem && !isCustom
      ensures View() == BusState(Device.Ram(mem.Contents()), [])
    {
      this.mem, isCustom, log := mem, false, [];
      answer := (_, _) => 0;
    }

    constructor Unconnected()
      ensures Valid() && mem == null
      ensures View() == BusState(Open, [])
    {
      mem, isCustom, log := null, false, [];
      answer := (_, _) => 0;
    }

    /** A bus that decodes addresses itself. */
    constructor Decoding(answer: Answer)
      ensures Valid() && mem == null
      ensures View() == BusState(Custom(answer), [])
    {
      mem, isCustom, log := null, true, [];
      this.answer := answer;
    }

    ghost predicate Valid() {
      (mem != null ==> mem.Valid()) && (isCustom ==> mem == null)
    }

    ghost function Footprint(): set<object> {
      {this} + (if mem == null then {} else {mem.bytes})
    }

    ghost function View(): BusState
      requires Valid()
      reads Footprint(), mem
    {
      BusState(
        if mem != null then Device.Ram(mem.Contents()) else if isCustom then Custom(answer) else Open,
        log)
    }

    method Read(ad: Word) returns (v: Byte)
      requires Valid()
      modifies this
      ensures v == old(View()).Value(ad)
      ensures View() == old(View()).Read(ad)
      ensures mem != null ==> v == mem.Contents()[ad % mem.bytes.Length]
      ensures mem == null && !isCustom ==> v == 0
      ensures log == old(log) + [Load(ad, v)]
    {
      if mem != null {
        v := mem.Read(ad);
      } else if isCustom {
        v := answer(log, ad);
      } else {
        v := 0;
      }
      log := log + [Load(ad, v)];
    }

    /** A 16-bit fetch: the low byte first. */
    method ReadWord(lo: Word, hi: Word) returns (w: Word)
      requires Valid()
      modifies this
      ensures w == old(View()).PairValue(lo, hi)
      ensures View() == old(View()).ReadPair(lo, hi)
    {
      var low := Read(lo);
      var high := Read(hi);
      w := Join(low, high);
    }

    method Write(ad: Word, v: Byte)
      requires Valid()
      modifies Footprint()
      ensures View() == old(View()).Write(ad, v)
      ensures mem != null ==> mem.Contents() == old(mem.Contents())[ad % mem.bytes.Length := v]
      ensures log == old(log) + [Store(ad, v)]
    {
      if mem != null {
        mem.Write(ad, v);
      }
      log := log + [Store(ad, v)];
    }
  }
}
