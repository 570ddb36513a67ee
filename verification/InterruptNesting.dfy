/**
 Interrupts and BRK are transparent to the code they interrupt: however entries, calls and
 saves nest and follow one another, each RTI resumes exactly where its own entry left off,
 as long as everything fits the 256-byte ring and the code leaves the live part of it alone.
 */
module InterruptNesting {
  import opened Registers
  import opened Memory
  import opened Bus
  import opened Stack
  import opened Instructions
  import opened OpcodeTable
  import opened Processor
  import opened Subroutines

  // ----- Entry and return -----

  /** How a handler is entered: by a hardware interrupt through a vector, or by executing BRK. */
  datatype Cause = Hardware(vector: Word) | Break {
    /** Where RTI must resume: BRK skips the byte after its opcode. */
    function ReturnAddress(pc: Word): Word {
      if Break? then Wrap(pc + 2) else pc
    }

    function Pushed(sr: Status): Byte {
      if Break? then sr.BreakCopy().Packed() else sr.PlainCopy().Packed()
    }
  }

  function Enter(cause: Cause, st: State): State {
    match cause
    case Hardware(vector) => Service(st, vector)
    case Break => RunInstruction(st, 0x00).st
  }

  function Return(st: State): State {
    RunInstruction(st, 0x40).st
  }

  lemma BreakAndReturn(st: State)
    ensures RunInstruction(st, 0x00).st
         == EnterHandler(AfterFetch(st), Break.ReturnAddress(st.r.pc), Break.Pushed(st.r.sr), 0xFFFE)
    ensures RunInstruction(st, 0x40).st == ReturnFromInterrupt(AfterFetch(st))
  {
    hide EnterHandler, ReturnFromInterrupt, Status.Packed, BusState.Read;
    assert Decode(0x00).op == Control(BRK) && Decode(0x40).op == Control(RTI);
  }

  /** The three live bytes of an entry, top first. */
  function Frame(cause: Cause, r: Regs): seq<Byte> {
    var ret := cause.ReturnAddress(r.pc);
    [cause.Pushed(r.sr), Low(ret), High(ret)]
  }

  lemma HandlerFrame(st: State, live: seq<Byte>, ret: Word, status: Byte, vector: Word)
    requires OnRam(st, live) && |live| + 3 <= 0x100
    ensures var st1 := EnterHandler(st, ret, status, vector);
            && OnRam(st1, [status, Low(ret), High(ret)] + live)
            && SameOutside(st.bus.device.image, st1.bus.device.image)
            && st1.r.sp == Low(st.r.sp - 3)
            && st1.r.sr == st.r.sr.(i := 1)
  {
    hide Holds, Peek, Poke, SameOutside, Push16, BusState.PairValue;
    var live2 := [Low(ret), High(ret)] + live;
    var st2 := Push16(st, ret);
    PushWordHolds(st, live, ret);
    PushWordRegs(st, ret);
    PushHolds(st2, live2, status);
    assert [status] + live2 == [status, Low(ret), High(ret)] + live;
    SameOutsideTransitive(st.bus.device.image, st2.bus.device.image, Push8(st2, status).bus.device.image);
  }

  /** An entry pushes its frame, sets I, and touches no byte outside the ring. */
  lemma EnterPushesFrame(cause: Cause, st: State, live: seq<Byte>)
    requires OnRam(st, live) && |live| + 3 <= 0x100
    ensures var st1 := Enter(cause, st);
            && OnRam(st1, Frame(cause, st.r) + live)
            && SameOutside(st.bus.device.image, st1.bus.device.image)
            && st1.r.sp == Low(st.r.sp - 3)
            && st1.r.sr == st.r.sr.(i := 1)
  {
    hide EnterHandler, Holds, SameOutside, Status.Packed;
    var ret, pushed := cause.ReturnAddress(st.r.pc), cause.Pushed(st.r.sr);
    match cause {
      case Hardware(vector) => HandlerFrame(st, live, ret, pushed, vector);
      case Break =>
        BreakAndReturn(st);
        HandlerFrame(AfterFetch(st), live, ret, pushed, 0xFFFE);
    }
  }

  /** RTI on top of a frame pulls exactly what the entry pushed, and changes no memory. */
  lemma ReturnPullsFrame(cause: Cause, r: Regs, st: State, live: seq<Byte>)
    requires OnRam(st, Frame(cause, r) + live) && r.sr.Normal()
    ensures var st1 := Return(st);
            && st1.r.pc == cause.ReturnAddress(r.pc) && st1.r.sr == r.sr
            && st1.r.sp == Low(st.r.sp + 3)
            && OnRam(st1, live) && st1.bus.device == st.bus.device
  {
    hide Holds, Pop16, Status.Packed, Unpack, BusState.Read, BusState.Value, Status.BreakCopy, Status.PlainCopy, Pulled;
    var all := Frame(cause, r) + live;
    var st0 := AfterFetch(st);
    BreakAndReturn(st);
    FetchKeepsRam(st, all);
    PopHolds(st0, all);
    PullFrame(st0, all);
    assert all[1..][0] == Low(cause.ReturnAddress(r.pc)) && all[1..][1] == High(cause.ReturnAddress(r.pc));
    assert all[1..][2..] == live;
    JoinSplit(cause.ReturnAddress(r.pc), 0, 0);
    PulledStatus(r.sr, if cause.Break? then r.sr.BreakCopy() else r.sr.PlainCopy());
  }

  /** The status byte, then the return address. */
  lemma PullFrame(st: State, all: seq<Byte>)
    requires OnRam(st, all) && |all| >= 3
    ensures var st1 := ReturnFromInterrupt(st);
            && st1.r.sr == Pulled(all[0]) && st1.r.pc == Join(all[1..][0], all[1..][1])
            && st1.r.sp == Low(st.r.sp + 3)
            && OnRam(st1, all[1..][2..]) && st1.bus.device == st.bus.device
  {
    hide Holds, Pop16, Pulled, BusState.Read, BusState.Value;
    PopHolds(st, all);
    var s := Pop8(st);
    var st1 := s.st.(r := s.st.r.(sr := Pulled(s.v)));
    PopWordHolds(st1, all[1..]);
    PopWordRegs(st1);
  }

  // ----- Whole handlers -----

  /**
   What runs between an entry and its RTI: work that may change registers and memory;
   further entries, each with its own handler and RTI; calls, each with its body and RTS;
   and registers kept on the stack meanwhile. All of them nest in each other and follow one
   another freely, so an interrupt may arrive inside a call and between a push and its pull.
   */
  datatype Activity =
    | Idle
    | Work(r: Regs, pokes: seq<Poking>, next: Activity)
    | Interrupted(cause: Cause, handler: Activity, next: Activity)
    | Called(body: Activity, next: Activity)
    | Kept(push: Saving, inner: Activity, pull: Saving, next: Activity)

  datatype Poking = Poking(ad: Word, v: Byte)

  function PokeAll(m: Image, pokes: seq<Poking>): (m': Image)
    ensures |m'| == |m|
    decreases pokes
  {
    if pokes == [] then m else PokeAll(Poke(m, pokes[0].ad, pokes[0].v), pokes[1..])
  }

  function AfterWork(st: State, r: Regs, pokes: seq<Poking>): State {
    State(r, if st.bus.device.Ram? then st.bus.(device := Device.Ram(PokeAll(st.bus.device.image, pokes))) else st.bus)
  }

  function Play(a: Activity, st: State): State {
    match a
    case Idle => st
    case Work(r, pokes, next) => Play(next, AfterWork(st, r, pokes))
    case Interrupted(cause, handler, next) => Play(next, Return(Play(handler, Enter(cause, st))))
    case Called(body, next) => Play(next, ReturnFromCall(Play(body, Call(st))))
    case Kept(push, inner, pull, next) => Play(next, PullSaved(pull, Play(inner, PushSaved(push, st))))
  }

  /** Work leaves the pointer alone, keeps the live bytes and the fixed status bits; frames fit the ring. */
  predicate Sound(a: Activity, st: State, live: seq<Byte>)
    decreases a
  {
    match a
    case Idle => true
    case Work(r, pokes, next) =>
      var st1 := AfterWork(st, r, pokes);
      r.sp == st.r.sp && r.sr.Normal() && OnRam(st1, live) && Sound(next, st1, live)
    case Interrupted(cause, handler, next) =>
      && |live| + 3 <= 0x100
      && Sound(handler, Enter(cause, st), Frame(cause, st.r) + live)
      && Sound(next, Return(Play(handler, Enter(cause, st))), live)
    case Called(body, next) =>
      && |live| + 2 <= 0x100
      && Sound(body, Call(st), CallFrame(st.r.pc) + live)
      && Sound(next, ReturnFromCall(Play(body, Call(st))), live)
    case Kept(push, inner, pull, next) =>
      && |live| + 1 <= 0x100
      && Sound(inner, PushSaved(push, st), [push.Kept(st.r)] + live)
      && Sound(next, PullSaved(pull, Play(inner, PushSaved(push, st))), live)
  }

  /** Some work in the activity writes this byte of the block. */
  predicate Writes(a: Activity, size: nat, slot: nat)
    requires size > 0
  {
    match a
    case Idle => false
    case Work(_, pokes, next) => (exists k :: 0 <= k < |pokes| && Slot(size, pokes[k].ad) == slot) || Writes(next, size, slot)
    case Interrupted(_, inner, next) => Writes(inner, size, slot) || Writes(next, size, slot)
    case Called(inner, next) => Writes(inner, size, slot) || Writes(next, size, slot)
    case Kept(_, inner, _, next) => Writes(inner, size, slot) || Writes(next, size, slot)
  }

  /** What an activity owes whoever runs around it. */
  ghost predicate Balanced(a: Activity, st: State, st': State, live: seq<Byte>) {
    && OnRam(st, live)
    && OnRam(st', live)
    && st'.r.sp == st.r.sp
    && st'.r.sr.Normal()
    && |st'.bus.device.image| == |st.bus.device.image|
    && forall slot :: 0 <= slot < |st.bus.device.image| && !InRing(|st.bus.device.image|, slot)
          && !Writes(a, |st.bus.device.image|, slot)
        ==> st'.bus.device.image[slot] == st.bus.device.image[slot]
  }

  lemma {:induction false} PokeAllElsewhere(m: Image, pokes: seq<Poking>, slot: nat)
    requires slot < |m| && forall k :: 0 <= k < |pokes| ==> Slot(|m|, pokes[k].ad) != slot
    ensures PokeAll(m, pokes)[slot] == m[slot]
    decreases pokes
  {
    if pokes != [] {
      forall k | 0 <= k < |pokes[1..]|
        ensures Slot(|m|, pokes[1..][k].ad) != slot
      {
        assert pokes[1..][k] == pokes[k + 1];
      }
      PokeAllElsewhere(Poke(m, pokes[0].ad, pokes[0].v), pokes[1..], slot);
    }
  }

  lemma BalancedFacts(a: Activity, st: State, st': State, live: seq<Byte>)
    requires Balanced(a, st, st', live)
    ensures OnRam(st', live) && st'.r.sp == st.r.sp && st'.r.sr.Normal()
  {
  }

  lemma DownAndUp(sp: Byte, k: Byte)
    ensures Low(Low(sp - k) + k) == sp
  {
  }

  /** A balanced activity stays so with a push before it and a pull after it. */
  lemma WrappedBalance(a: Activity, st: State, st1: State, st2: State, st': State, live: seq<Byte>, inner: seq<Byte>)
    requires OnRam(st, live) && OnRam(st', live)
    requires st1.bus.device.Ram? && SameOutside(st.bus.device.image, st1.bus.device.image)
    requires Balanced(a, st1, st2, inner)
    requires st'.bus.device == st2.bus.device && st'.r.sp == st.r.sp && st'.r.sr.Normal()
    ensures Balanced(a, st, st', live)
  {
    hide Holds, InRing, Writes;
  }

  /** After a whole handler and its RTI, the interrupted code finds its PC, SR and SP. */
  lemma HandlerReturns(cause: Cause, handler: Activity, st: State, live: seq<Byte>)
    requires OnRam(st, live) && |live| + 3 <= 0x100 && st.r.sr.Normal()
    requires Sound(handler, Enter(cause, st), Frame(cause, st.r) + live)
    ensures var st' := Return(Play(handler, Enter(cause, st)));
            && st'.r.pc == cause.ReturnAddress(st.r.pc) && st'.r.sr == st.r.sr && st'.r.sp == st.r.sp
            && Balanced(handler, st, st', live)
    decreases handler, 1
  {
    hide Return, Enter, Sound, Holds, SameOutside, Play, Frame, Balanced, Low;
    var st1 := Enter(cause, st);
    var st2 := Play(handler, st1);
    EnterPushesFrame(cause, st, live);
    ActivityBalanced(handler, st1, Frame(cause, st.r) + live);
    BalancedFacts(handler, st1, st2, Frame(cause, st.r) + live);
    ReturnPullsFrame(cause, st.r, st2, live);
    DownAndUp(st.r.sp, 3);
    WrappedBalance(handler, st, st1, st2, Return(st2), live, Frame(cause, st.r) + live);
  }

  /**
   A subroutine, with any calls, saves and interrupts in its body, returns to the
   instruction after its JSR with the stack pointer as before and memory changed only in
   the ring and where the body writes.
   */
  lemma SubroutineReturns(st: State, body: Activity, live: seq<Byte>)
    requires OnRam(st, live) && |live| + 2 <= 0x100 && st.r.sr.Normal()
    requires Sound(body, Call(st), CallFrame(st.r.pc) + live)
    ensures var st' := ReturnFromCall(Play(body, Call(st)));
            && st'.r.pc == Wrap(st.r.pc + 3) && st'.r.sp == st.r.sp
            && Balanced(body, st, st', live)
    decreases body, 1
  {
    hide Call, ReturnFromCall, Sound, Holds, SameOutside, Play, CallFrame, Balanced, Low;
    var st1 := Call(st);
    var st2 := Play(body, st1);
    CallPushesFrame(st, live);
    ActivityBalanced(body, st1, CallFrame(st.r.pc) + live);
    BalancedFacts(body, st1, st2, CallFrame(st.r.pc) + live);
    ReturnPullsCall(st2, st.r.pc, live);
    DownAndUp(st.r.sp, 2);
    WrappedBalance(body, st, st1, st2, ReturnFromCall(st2), live, CallFrame(st.r.pc) + live);
  }

  /** A register kept on the stack over any activity: the pointer is as before and the pulled byte is the pushed one. */
  lemma KeptComesBack(push: Saving, inner: Activity, pull: Saving, st: State, live: seq<Byte>)
    requires OnRam(st, live) && |live| + 1 <= 0x100 && st.r.sr.Normal()
    requires Sound(inner, PushSaved(push, st), [push.Kept(st.r)] + live)
    ensures var st2 := Play(inner, PushSaved(push, st));
            var st' := PullSaved(pull, st2);
            && st'.r == pull.Pulling(st2.r, push.Kept(st.r)).(pc := Wrap(st2.r.pc + 1), sp := st.r.sp)
            && Balanced(inner, st, st', live)
    decreases inner, 1
  {
    hide PushSaved, PullSaved, Sound, Holds, SameOutside, Play, Saving.Pulling, Saving.Kept, Balanced, Low;
    var v := push.Kept(st.r);
    var st1 := PushSaved(push, st);
    var st2 := Play(inner, st1);
    PushSavedHolds(push, st, live);
    ActivityBalanced(inner, st1, [v] + live);
    BalancedFacts(inner, st1, st2, [v] + live);
    PullSavedHolds(pull, st2, v, live);
    DownAndUp(st.r.sp, 1);
    WrappedBalance(inner, st, st1, st2, PullSaved(pull, st2), live, [v] + live);
  }

  /** One balanced activity after another. */
  lemma BalancedThen(a: Activity, inner: Activity, next: Activity, st: State, st1: State, st2: State, live: seq<Byte>)
    requires Balanced(inner, st, st1, live) && Balanced(next, st1, st2, live)
    requires a.Interrupted? ==> inner == a.handler && next == a.next
    requires a.Called? ==> inner == a.body && next == a.next
    requires a.Kept? ==> inner == a.inner && next == a.next
    requires a.Interrupted? || a.Called? || a.Kept?
    ensures Balanced(a, st, st2, live)
  {
    hide Holds, InRing;
  }

  /** Any tree of nested and successive interrupts, calls and saves leaves the stack as it found it. */
  lemma {:induction false} ActivityBalanced(a: Activity, st: State, live: seq<Byte>)
    requires OnRam(st, live) && st.r.sr.Normal() && Sound(a, st, live)
    ensures Balanced(a, st, Play(a, st), live)
    decreases a, 0
  {
    hide Return, Enter, Call, ReturnFromCall, PushSaved, PullSaved, CallFrame, Saving.Kept, Saving.Pulling, Holds, InRing;
    match a {
      case Idle =>
      case Work(r, pokes, next) =>
        var st1 := AfterWork(st, r, pokes);
        ActivityBalanced(next, st1, live);
        forall slot | 0 <= slot < |st.bus.device.image| && !Writes(a, |st.bus.device.image|, slot)
          ensures st1.bus.device.image[slot] == st.bus.device.image[slot]
        {
          PokeAllElsewhere(st.bus.device.image, pokes, slot);
        }
      case Interrupted(cause, handler, next) =>
        var back := Return(Play(handler, Enter(cause, st)));
        HandlerReturns(cause, handler, st, live);
        ActivityBalanced(next, back, live);
        hide Balanced;
        BalancedThen(a, handler, next, st, back, Play(a, st), live);
      case Called(body, next) =>
        var back := ReturnFromCall(Play(body, Call(st)));
        SubroutineReturns(st, body, live);
        ActivityBalanced(next, back, live);
        hide Balanced;
        BalancedThen(a, body, next, st, back, Play(a, st), live);
      case Kept(push, inner, pull, next) =>
        var back := PullSaved(pull, Play(inner, PushSaved(push, st)));
        KeptComesBack(push, inner, pull, st, live);
        ActivityBalanced(next, back, live);
        hide Balanced;
        BalancedThen(a, inner, next, st, back, Play(a, st), live);
    }
  }

  // ----- Straight nesting -----

  /** Entries each interrupting the handler of the one before, then unwound by as many RTIs. */
  function Nest(causes: seq<Cause>): Activity {
    if causes == [] then Idle else Interrupted(causes[0], Nest(causes[1..]), Idle)
  }

  lemma {:induction false} NestIsSound(causes: seq<Cause>, st: State, live: seq<Byte>)
    requires OnRam(st, live) && st.r.sr.Normal() && |live| + 3 * |causes| <= 0x100
    ensures Sound(Nest(causes), st, live)
    decreases causes
  {
    hide Enter, Return, Holds;
    if causes != [] {
      EnterPushesFrame(causes[0], st, live);
      NestIsSound(causes[1..], Enter(causes[0], st), Frame(causes[0], st.r) + live);
    }
  }

  lemma {:induction false} NestWritesNothing(causes: seq<Cause>, size: nat, slot: nat)
    requires size > 0
    ensures !Writes(Nest(causes), size, slot)
    decreases causes
  {
    if causes != [] {
      NestWritesNothing(causes[1..], size, slot);
    }
  }

  /**
   Up to 85 entries nested from any stack pointer, on RAM of any size, and unwound by as
   many RTIs: PC (past the padding byte for BRK), SR and SP are those of the outermost
   interrupted code, and no byte outside the ring has changed.
   */
  lemma NestUnwinds(causes: seq<Cause>, st: State)
    requires 0 < |causes| <= 85 && st.bus.device.Ram? && st.r.sr.Normal()
    ensures var st' := Play(Nest(causes), st);
            && st'.r.pc == causes[0].ReturnAddress(st.r.pc) && st'.r.sr == st.r.sr && st'.r.sp == st.r.sp
            && st'.bus.device.Ram?
            && SameOutside(st.bus.device.image, st'.bus.device.image)
  {
    hide Enter, Return, Holds, Writes, InRing, Sound, Frame;
    var m := st.bus.device.image;
    var inner := Nest(causes[1..]);
    HoldsNothing(m, st.r.sp);
    NestIsSound(causes, st, []);
    SoundHandler(causes[0], inner, st);
    HandlerReturns(causes[0], inner, st, []);
    forall slot | 0 <= slot < |m| && !InRing(|m|, slot)
      ensures Return(Play(inner, Enter(causes[0], st))).bus.device.image[slot] == m[slot]
    {
      NestWritesNothing(causes[1..], |m|, slot);
    }
  }

  lemma SoundHandler(cause: Cause, handler: Activity, st: State)
    requires Sound(Interrupted(cause, handler, Idle), st, [])
    ensures Sound(handler, Enter(cause, st), Frame(cause, st.r) + [])
  {
  }

  lemma HoldsNothing(m: Image, sp: Byte)
    ensures Holds(m, sp, [])
  {
  }
}
