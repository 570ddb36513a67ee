/**
 The push and pull helpers (src/Memory.cpp): a descending stack in page 1 whose pointer
 is a byte, so it is a ring of 256 cells. Lemmas relate the ring to an ordinary
 unbounded stack of bytes.
 */
module Stack {
  import opened Registers
  import opened Memory
  import opened Bus

  /** Everything an instruction can change. */
  datatype State = State(r: Regs, bus: BusState)

  datatype Pulled8 = Pulled8(st: State, v: Byte)
  datatype Pulled16 = Pulled16(st: State, v: Word)

  function Cell(sp: Byte): Word {
    0x0100 + sp
  }

  function Push8(st: State, v: Byte): State {
    State(st.r.(sp := Low(st.r.sp - 1)), st.bus.Write(Cell(st.r.sp), v))
  }

  function Push16(st: State, v: Word): State {
    Push8(Push8(st, High(v)), Low(v))
  }

  function Pop8(st: State): Pulled8 {
    var sp := Low(st.r.sp + 1);
    Pulled8(State(st.r.(sp := sp), st.bus.Read(Cell(sp))), st.bus.Value(Cell(sp)))
  }

  function Pop16(st: State): Pulled16 {
    var lo := Pop8(st);
    var hi := Pop8(lo.st);
    Pulled16(hi.st, Join(lo.v, hi.v))
  }

  method PushByte(regs: RegisterFile, bus: SystemBus, v: Byte)
    requires bus.Valid()
    modifies regs, bus.Footprint()
    ensures State(regs.View(), bus.View()) == Push8(old(State(regs.View(), bus.View())), v)
  {
    bus.Write(0x0100 + regs.sp, v);
    regs.sp := Low(regs.sp - 1);
  }

  method PushWord(regs: RegisterFile, bus: SystemBus, v: Word)
    requires bus.Valid()
    modifies regs, bus.Footprint()
    ensures State(regs.View(), bus.View()) == Push16(old(State(regs.View(), bus.View())), v)
  {
    PushByte(regs, bus, High(v));
    PushByte(regs, bus, Low(v));
  }

  method PullByte(regs: RegisterFile, bus: SystemBus) returns (v: Byte)
    requires bus.Valid()
    modifies regs, bus
    ensures Pulled8(State(regs.View(), bus.View()), v) == Pop8(old(State(regs.View(), bus.View())))
  {
    regs.sp := Low(regs.sp + 1);
    v := bus.Read(0x0100 + regs.sp);
  }

  method PullWord(regs: RegisterFile, bus: SystemBus) returns (v: Word)
    requires bus.Valid()
    modifies regs, bus
    ensures Pulled16(State(regs.View(), bus.View()), v) == Pop16(old(State(regs.View(), bus.View())))
  {
    regs.sp := Low(regs.sp + 1);
    var low := bus.Read(0x0100 + regs.sp);
    regs.sp := Low(regs.sp + 1);
    var high := bus.Read(0x0100 + regs.sp);
    v := Join(low, high);
  }

  // ----- The ring as an unbounded stack -----

  /** Cells of the stack page land in one page of the block, whatever its size. */
  lemma CellSlot(size: nat, sp: Byte)
    requires size > 0 && size % 0x100 == 0
    ensures Slot(size, Cell(sp)) == if size == 0x100 then sp else 0x100 + sp
  {
    if size != 0x100 {
      assert size >= 0x200;
    }
  }

  /** Whether a byte of the block belongs to the ring. */
  predicate InRing(size: nat, slot: nat) {
    if size == 0x100 then slot < 0x100 else 0x100 <= slot < 0x200
  }

  /** `live`, top first, is what the ring holds above the pointer. */
  predicate Holds(image: Image, sp: Byte, live: seq<Byte>) {
    && |live| <= 0x100
    && forall k :: 0 <= k < |live| ==> Peek(image, Cell(Low(sp + 1 + k))) == live[k]
  }

  predicate OnRam(st: State, live: seq<Byte>) {
    st.bus.device.Ram? && Holds(st.bus.device.image, st.r.sp, live)
  }

  /** Same size, and the same bytes outside the ring. */
  predicate SameOutside(m: Image, n: Image) {
    && |m| == |n|
    && forall i :: 0 <= i < |m| && !InRing(|m|, i) ==> m[i] == n[i]
  }

  /** Writing the cell the pointer designates and stepping it down adds one live byte. */
  lemma PokeHolds(m: Image, sp: Byte, live: seq<Byte>, v: Byte)
    requires Holds(m, sp, live) && |live| < 0x100
    ensures Holds(Poke(m, Cell(sp), v), Low(sp - 1), [v] + live)
    ensures SameOutside(m, Poke(m, Cell(sp), v))
  {
    var m1 := Poke(m, Cell(sp), v);
    CellSlot(|m|, sp);
    forall k | 0 <= k < |live| + 1
      ensures Peek(m1, Cell(Low(Low(sp - 1) + 1 + k))) == ([v] + live)[k]
    {
      var c := Low(sp + k);
      assert c == Low(Low(sp - 1) + 1 + k);
      CellSlot(|m|, c);
      if k > 0 {
        assert c == Low(sp + 1 + (k - 1));
        assert c != sp;
      }
    }
  }

  /** Stepping the pointer up uncovers the top live byte. */
  lemma PeekHolds(m: Image, sp: Byte, live: seq<Byte>)
    requires Holds(m, sp, live) && live != []
    ensures Peek(m, Cell(Low(sp + 1))) == live[0]
    ensures Holds(m, Low(sp + 1), live[1..])
  {
    hide Low, Peek;
    var sp1 := Low(sp + 1);
    assert Low(sp + 1 + 0) == sp1;
    forall k | 0 <= k < |live| - 1
      ensures Peek(m, Cell(Low(sp1 + 1 + k))) == live[1..][k]
    {
      OneUp(sp, k);
    }
  }

  lemma OneUp(sp: Byte, k: nat)
    ensures Low(Low(sp + 1) + 1 + k) == Low(sp + 1 + (k + 1))
  {
  }

  /** A push adds one live byte and writes only its own cell of the ring. */
  lemma PushHolds(st: State, live: seq<Byte>, v: Byte)
    requires OnRam(st, live) && |live| < 0x100
    ensures OnRam(Push8(st, v), [v] + live)
    ensures SameOutside(st.bus.device.image, Push8(st, v).bus.device.image)
  {
    PokeHolds(st.bus.device.image, st.r.sp, live, v);
  }

  /** A pop returns the top live byte and changes no memory. */
  lemma PopHolds(st: State, live: seq<Byte>)
    requires OnRam(st, live) && live != []
    ensures Pop8(st).v == live[0]
    ensures OnRam(Pop8(st).st, live[1..]) && Pop8(st).st.bus.device == st.bus.device
  {
    PeekHolds(st.bus.device.image, st.r.sp, live);
  }

  datatype StackOp = PushB(b: Byte) | PushW(w: Word) | PullB | PullW {
    /** How many bytes the live part grows by. */
    function Growth(): int {
      match this
      case PushB(_) => 1
      case PushW(_) => 2
      case PullB => -1
      case PullW => -2
    }
  }

  /** Every step leaves between 0 and 256 live bytes. */
  predicate Fits(depth: int, ops: seq<StackOp>)
    decreases ops
  {
    && 0 <= depth <= 0x100
    && (ops == [] || Fits(depth + ops[0].Growth(), ops[1..]))
  }

  datatype RingRun = RingRun(st: State, pulled: seq<Word>)

  function RingStep(st: State, op: StackOp): RingRun {
    match op
    case PushB(b) => RingRun(Push8(st, b), [])
    case PushW(w) => RingRun(Push16(st, w), [])
    case PullB => RingRun(Pop8(st).st, [Pop8(st).v])
    case PullW => RingRun(Pop16(st).st, [Pop16(st).v])
  }

  function RunOnRing(st: State, ops: seq<StackOp>): RingRun
    decreases ops
  {
    if ops == [] then RingRun(st, [])
    else
      var first := RingStep(st, ops[0]);
      var rest := RunOnRing(first.st, ops[1..]);
      RingRun(rest.st, first.pulled + rest.pulled)
  }

  datatype StackRun = StackRun(live: seq<Byte>, pulled: seq<Word>)

  /** The same operation on an ordinary stack of bytes, top first. */
  function StackStep(live: seq<Byte>, op: StackOp): (t: StackRun)
    requires |live| + op.Growth() >= 0
    ensures |t.live| == |live| + op.Growth()
  {
    match op
    case PushB(b) => StackRun([b] + live, [])
    case PushW(w) => StackRun([Low(w), High(w)] + live, [])
    case PullB => StackRun(live[1..], [live[0]])
    case PullW => StackRun(live[2..], [Join(live[0], live[1])])
  }

  function RunOnStack(live: seq<Byte>, ops: seq<StackOp>): StackRun
    requires Fits(|live|, ops)
    decreases ops
  {
    if ops == [] then StackRun(live, [])
    else
      assert Fits(|live| + ops[0].Growth(), ops[1..]);
      var first := StackStep(live, ops[0]);
      var rest := RunOnStack(first.live, ops[1..]);
      StackRun(rest.live, first.pulled + rest.pulled)
  }

  lemma SameOutsideTransitive(m: Image, n: Image, p: Image)
    requires SameOutside(m, n) && SameOutside(n, p)
    ensures SameOutside(m, p)
  {
  }

  lemma PushWordHolds(st: State, live: seq<Byte>, w: Word)
    requires OnRam(st, live) && |live| < 0xff
    ensures OnRam(Push16(st, w), [Low(w), High(w)] + live)
    ensures SameOutside(st.bus.device.image, Push16(st, w).bus.device.image)
    ensures Push16(st, w).r.sp == Low(st.r.sp - 2)
  {
    hide Holds, SameOutside, BusState.Write;
    var st1 := Push8(st, High(w));
    var live1 := [High(w)] + live;
    PushHolds(st, live, High(w));
    PushHolds(st1, live1, Low(w));
    assert [Low(w)] + live1 == [Low(w), High(w)] + live;
    SameOutsideTransitive(st.bus.device.image, st1.bus.device.image, Push8(st1, Low(w)).bus.device.image);
  }

  lemma PopWordHolds(st: State, live: seq<Byte>)
    requires OnRam(st, live) && |live| >= 2
    ensures Pop16(st).v == Join(live[0], live[1])
    ensures OnRam(Pop16(st).st, live[2..]) && Pop16(st).st.bus.device == st.bus.device
    ensures Pop16(st).st.r.sp == Low(st.r.sp + 2)
  {
    hide Holds, BusState.Read, BusState.Value;
    var st1 := Pop8(st).st;
    var live1 := live[1..];
    PopHolds(st, live);
    PopHolds(st1, live1);
    assert live1[1..] == live[2..];
  }

  /** What one operation owes the ordinary stack. */
  predicate Agrees(st: State, live: seq<Byte>, ring: RingRun, stack: StackRun) {
    && ring.pulled == stack.pulled
    && OnRam(st, live)
    && OnRam(ring.st, stack.live)
    && SameOutside(st.bus.device.image, ring.st.bus.device.image)
    && ring.st.r.sp == Low(st.r.sp + |live| - |stack.live|)
  }

  lemma StepAgrees(st: State, live: seq<Byte>, op: StackOp)
    requires OnRam(st, live) && 0 <= |live| + op.Growth() <= 0x100
    ensures Agrees(st, live, RingStep(st, op), StackStep(live, op))
  {
    match op {
      case PushB(b) => PushHolds(st, live, b);
      case PushW(w) => PushWordHolds(st, live, w);
      case PullB => PopHolds(st, live);
      case PullW => PopWordHolds(st, live);
    }
  }

  lemma AgreesTransitive(st: State, live: seq<Byte>, ring: RingRun, stack: StackRun, ring': RingRun, stack': StackRun)
    requires Agrees(st, live, ring, stack) && Agrees(ring.st, stack.live, ring', stack')
    ensures Agrees(st, live, RingRun(ring'.st, ring.pulled + ring'.pulled), StackRun(stack'.live, stack.pulled + stack'.pulled))
  {
    SameOutsideTransitive(st.bus.device.image, ring.st.bus.device.image, ring'.st.bus.device.image);
  }

  /**
   The 256-byte ring is an ordinary stack as long as the live part stays within 0..256
   bytes: from any pointer, in a block of any size, with any number of wrap-arounds.
   */
  lemma {:induction false} RingIsAStack(st: State, live: seq<Byte>, ops: seq<StackOp>)
    requires OnRam(st, live) && Fits(|live|, ops)
    ensures Agrees(st, live, RunOnRing(st, ops), RunOnStack(live, ops))
    decreases ops
  {
    if ops != [] {
      assert Fits(|live| + ops[0].Growth(), ops[1..]);
      var ring, stack := RingStep(st, ops[0]), StackStep(live, ops[0]);
      StepAgrees(st, live, ops[0]);
      RingIsAStack(ring.st, stack.live, ops[1..]);
      AgreesTransitive(st, live, ring, stack, RunOnRing(ring.st, ops[1..]), RunOnStack(stack.live, ops[1..]));
    }
  }
}
