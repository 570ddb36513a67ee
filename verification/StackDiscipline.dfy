/**
 Nesting over whole runs of the processor, whatever code it runs. Each boundary is read
 off as an entry, a return, a call, a push, a pull or something else, and a shadow stack
 records what should be on the ring. As long as returns and pulls meet what they belong
 to, other instructions keep the pointer and store nowhere into the live part, and
 everything fits, the ring holds exactly the shadow and every return goes home.
 */
module StackDiscipline {
  import opened Registers
  import opened Memory
  import opened Bus
  import opened Stack
  import opened Processor
  import opened BusHistory
  import opened StatusBits
  import opened Subroutines
  import opened InterruptNesting

  /** What a boundary does to the stack. */
  datatype Deed =
    | Entering(cause: Cause) | Returning
    | Calling | Leaving
    | Pushing(what: Saving) | Pulling(what: Saving)
    | Other

  function DeedOf(m: Machine): Deed {
    match m.Choice()
    case TakeNmi => Entering(Hardware(0xFFFA))
    case TakeIrq => Entering(Hardware(0xFFFE))
    case TakeInstruction =>
      var code := m.NextCode();
      if code == 0x00 then Entering(Break)
      else if code == 0x40 then Returning
      else if code == 0x20 then Calling
      else if code == 0x60 then Leaving
      else if code == 0x48 then Pushing(SaveA)
      else if code == 0x08 then Pushing(SaveFlags)
      else if code == 0x68 then Pulling(SaveA)
      else if code == 0x28 then Pulling(SaveFlags)
      else Other
  }

  /** An entry of the shadow stack, with the state it was made in. */
  datatype Item = Handler(cause: Cause, r: Regs) | Subroutine(pc: Word) | Saved(v: Byte) {
    function Bytes(): seq<Byte> {
      match this
      case Handler(cause, r) => Frame(cause, r)
      case Subroutine(pc) => CallFrame(pc)
      case Saved(v) => [v]
    }
  }

  /** The bytes of the shadow, top first. */
  function Flat(items: seq<Item>): seq<Byte> {
    if items == [] then [] else items[0].Bytes() + Flat(items[1..])
  }

  /** The shadow after a boundary. */
  function Track(m: Machine, items: seq<Item>): seq<Item> {
    match DeedOf(m)
    case Entering(cause) => [Handler(cause, m.st.r)] + items
    case Calling => [Subroutine(m.st.r.pc)] + items
    case Pushing(what) => [Saved(what.Kept(m.st.r))] + items
    case Returning | Leaving | Pulling(_) => if items == [] then [] else items[1..]
    case Other => items
  }

  function LiveCell(sp: Byte, k: nat): Word {
    Cell(Low(sp + 1 + k))
  }

  /** The cells of the live part. */
  function LiveCells(sp: Byte, n: nat): seq<Word> {
    seq(n, (k: nat) => LiveCell(sp, k))
  }

  /** The boundary keeps to the discipline. */
  predicate Proper(m: Machine, items: seq<Item>) {
    match DeedOf(m)
    case Entering(_) => |Flat(items)| + 3 <= 0x100
    case Calling => |Flat(items)| + 2 <= 0x100
    case Pushing(_) => |Flat(items)| + 1 <= 0x100
    case Returning => items != [] && items[0].Handler?
    case Leaving => items != [] && items[0].Subroutine?
    case Pulling(_) => items != [] && items[0].Saved?
    case Other =>
      && Step(m).st.r.sp == m.st.r.sp
      && (m.st.bus.device.Ram? ==>
            Spares(|m.st.bus.device.image|, Since(m.st.bus, Step(m).st.bus), LiveCells(m.st.r.sp, |Flat(items)|)))
  }

  /** The ring holds the shadow, and every status kept in it is one the processor can have. */
  predicate Carries(m: Machine, items: seq<Item>) {
    && OnRam(m.st, Flat(items))
    && m.st.r.sr.Normal()
    && forall k :: 0 <= k < |items| && items[k].Handler? ==> items[k].r.sr.Normal()
  }

  // ----- One boundary -----

  /** What the stack instructions do is what the pieces they are made of do. */
  lemma StepDoes(m: Machine)
    ensures match DeedOf(m)
            case Entering(cause) => Step(m).st == Enter(cause, m.st)
            case Returning => Step(m).st == Return(m.st)
            case Calling => Step(m).st == Call(m.st)
            case Leaving => Step(m).st == ReturnFromCall(m.st)
            case Pushing(what) => Step(m).st == PushSaved(what, m.st)
            case Pulling(what) => Step(m).st == PullSaved(what, m.st)
            case Other => true
  {
    hide RunInstruction, Service, BusState.Value;
  }

  lemma FlatPush(item: Item, items: seq<Item>)
    ensures Flat([item] + items) == item.Bytes() + Flat(items)
  {
    assert ([item] + items)[1..] == items;
  }

  /** Stores elsewhere leave the live part alone. */
  lemma SparedHolds(a: BusState, b: BusState, sp: Byte, live: seq<Byte>)
    requires a.device.Ram? && Holds(a.device.image, sp, live) && Logged(a, b)
    requires Spares(|a.device.image|, Since(a, b), LiveCells(sp, |live|))
    ensures b.device.Ram? && Holds(b.device.image, sp, live)
  {
    var cells := LiveCells(sp, |live|);
    LoggedNothing(b);
    CellsSurvive(a, b, b, cells);
    forall k | 0 <= k < |live|
      ensures Peek(b.device.image, Cell(Low(sp + 1 + k))) == live[k]
    {
      assert cells[k] == Cell(Low(sp + 1 + k));
    }
  }

  /** What a return, a leave or a pull brings back. */
  predicate GoesHome(m: Machine, items: seq<Item>) {
    var r := Step(m).st.r;
    match DeedOf(m)
    case Returning =>
      items != [] && items[0].Handler? && r.pc == items[0].cause.ReturnAddress(items[0].r.pc) && r.sr == items[0].r.sr
    case Leaving =>
      items != [] && items[0].Subroutine? && r.pc == Wrap(items[0].pc + 3)
    case Pulling(what) =>
      items != [] && items[0].Saved? && r == what.Pulling(m.st.r, items[0].v).(pc := Wrap(m.st.r.pc + 1), sp := r.sp)
    case _ => true
  }

  /** A proper boundary: the ring goes on holding the shadow, and what comes off it is what went on. */
  lemma StepCarries(m: Machine, items: seq<Item>)
    requires Carries(m, items) && Proper(m, items)
    ensures Carries(Step(m), Track(m, items)) && GoesHome(m, items)
    ensures Step(m).st.r.sp == Low(m.st.r.sp + |Flat(items)| - |Flat(Track(m, items))|)
  {
    hide Step, Holds, SameOutside, Enter, Return, Call, ReturnFromCall, PushSaved, PullSaved, Frame, CallFrame;
    hide Status.Normal, Saving.Kept, Saving.Pulling, Spares;
    var st, flat := m.st, Flat(items);
    StepDoes(m);
    StepNormal(m);
    FlatTail(items);
    match DeedOf(m) {
      case Entering(cause) =>
        EnterPushesFrame(cause, st, flat);
        FlatPush(Handler(cause, st.r), items);
        FrameSize(cause, st.r);
      case Calling =>
        CallPushesFrame(st, flat);
        FlatPush(Subroutine(st.r.pc), items);
        CallFrameSize(st.r.pc);
      case Pushing(what) =>
        PushSavedHolds(what, st, flat);
        FlatPush(Saved(what.Kept(st.r)), items);
      case Returning =>
        ReturnPullsFrame(items[0].cause, items[0].r, st, Flat(items[1..]));
        FrameSize(items[0].cause, items[0].r);
      case Leaving =>
        ReturnPullsCall(st, items[0].pc, Flat(items[1..]));
        CallFrameSize(items[0].pc);
      case Pulling(what) =>
        PullSavedHolds(what, st, items[0].v, Flat(items[1..]));
      case Other =>
        StepLogged(m);
        SparedHolds(st.bus, Step(m).st.bus, st.r.sp, flat);
    }
  }

  lemma FlatTail(items: seq<Item>)
    ensures items != [] ==> Flat(items) == items[0].Bytes() + Flat(items[1..])
  {
  }

  lemma FrameSize(cause: Cause, r: Regs)
    ensures |Frame(cause, r)| == 3
  {
  }

  lemma CallFrameSize(pc: Word)
    ensures |CallFrame(pc)| == 2
  {
  }

  // ----- Runs -----

  /** The shadow after a run. */
  function TrackRun(m: Machine, items: seq<Item>, events: seq<Event>): seq<Item>
    decreases events
  {
    if events == [] then items
    else TrackRun(Apply(m, events[0]), if events[0].Boundary? then Track(m, items) else items, events[1..])
  }

  predicate ProperRun(m: Machine, items: seq<Item>, events: seq<Event>)
    decreases events
  {
    events != [] ==>
      && (events[0].Boundary? ==> Proper(m, items))
      && ProperRun(Apply(m, events[0]), if events[0].Boundary? then Track(m, items) else items, events[1..])
  }

  /** The shadow never gets shorter than `n`. */
  predicate StaysAbove(m: Machine, items: seq<Item>, events: seq<Event>, n: nat)
    decreases events
  {
    && n <= |items|
    && (events != [] ==>
          StaysAbove(Apply(m, events[0]), if events[0].Boundary? then Track(m, items) else items, events[1..], n))
  }

  /** Over every proper run the ring holds the shadow. */
  lemma {:induction false} RunCarries(m: Machine, items: seq<Item>, events: seq<Event>)
    requires Carries(m, items) && ProperRun(m, items, events)
    ensures Carries(Run(m, events), TrackRun(m, items, events))
    ensures Run(m, events).st.r.sp == Low(m.st.r.sp + |Flat(items)| - |Flat(TrackRun(m, items, events))|)
    decreases events
  {
    hide Step, Track, Flat, Proper, GoesHome, OnRam, Status.Normal;
    if events != [] {
      var next := Apply(m, events[0]);
      var items1 := if events[0].Boundary? then Track(m, items) else items;
      if events[0].Boundary? {
        StepCarries(m, items);
      }
      RunCarries(next, items1, events[1..]);
    }
  }

  predicate EndsWith(items: seq<Item>, base: seq<Item>) {
    |base| <= |items| && items[|items| - |base|..] == base
  }

  /** What lies below a level that the run never goes under is not touched. */
  lemma {:induction false} BaseStays(m: Machine, items: seq<Item>, events: seq<Event>, base: seq<Item>)
    requires EndsWith(items, base) && StaysAbove(m, items, events, |base|)
    ensures EndsWith(TrackRun(m, items, events), base)
    decreases events
  {
    hide Step, DeedOf, Saving.Kept;
    if events != [] {
      var items1 := if events[0].Boundary? then Track(m, items) else items;
      assert EndsWith(items1, base);
      BaseStays(Apply(m, events[0]), items1, events[1..], base);
    }
  }

  /** Something put on the stack at a boundary, and the run up to where it is on top again. */
  predicate OnTopAgain(m: Machine, items: seq<Item>, events: seq<Event>) {
    var m1, items1 := Step(m), Track(m, items);
    && Carries(m, items) && Proper(m, items)
    && ProperRun(m1, items1, events)
    && StaysAbove(m1, items1, events, |items1|)
    && |TrackRun(m1, items1, events)| == |items1|
  }

  /** Taking it off then leaves the ring and the pointer as they were, and brings back what it was. */
  lemma TakenOff(m: Machine, items: seq<Item>, item: Item, events: seq<Event>)
    requires OnTopAgain(m, items, events) && Track(m, items) == [item] + items
    requires Proper(Run(Step(m), events), [item] + items)
    requires var deed := DeedOf(Run(Step(m), events)); deed.Returning? || deed.Leaving? || deed.Pulling?
    ensures var m2 := Run(Step(m), events);
            && GoesHome(m2, [item] + items)
            && Carries(Step(m2), items) && Step(m2).st.r.sp == m.st.r.sp
  {
    hide Step, Run, DeedOf, OnRam, Flat, ProperRun, StaysAbove, TrackRun, GoesHome, Status.Normal;
    var m1, items1 := Step(m), Track(m, items);
    var m2 := Run(m1, events);
    StepCarries(m, items);
    RunCarries(m1, items1, events);
    assert EndsWith(items1, items1);
    BaseStays(m1, items1, events, items1);
    assert TrackRun(m1, items1, events) == items1;
    StepCarries(m2, items1);
    assert items1[1..] == items;
    ThereAndBack(m.st.r.sp, |Flat(items)|, |Flat(items1)|);
  }

  lemma ThereAndBack(sp: Byte, n: nat, k: nat)
    ensures Low(Low(Low(sp + n - k) + k - k) + k - n) == sp
  {
  }

  /**
   A handler, over any run of the processor: saving registers, calling, and interrupted
   again anywhere, to any depth the ring allows. From an entry to the RTI that meets it, PC
   (past the padding byte for BRK), SR and SP are restored and the ring holds what it held.
   */
  lemma HandlerResumes(m: Machine, items: seq<Item>, events: seq<Event>)
    requires OnTopAgain(m, items, events) && DeedOf(m).Entering?
    requires DeedOf(Run(Step(m), events)).Returning?
    ensures var m3 := Step(Run(Step(m), events));
            && m3.st.r.pc == DeedOf(m).cause.ReturnAddress(m.st.r.pc)
            && m3.st.r.sr == m.st.r.sr && m3.st.r.sp == m.st.r.sp
            && Carries(m3, items)
  {
    hide Step, Run, DeedOf, OnTopAgain, Carries, Flat;
    TakenOff(m, items, Handler(DeedOf(m).cause, m.st.r), events);
  }

  /** A subroutine, over any run: RTS resumes after the JSR, with the pointer and the ring as before. */
  lemma CallResumes(m: Machine, items: seq<Item>, events: seq<Event>)
    requires OnTopAgain(m, items, events) && DeedOf(m).Calling?
    requires DeedOf(Run(Step(m), events)).Leaving?
    ensures var m3 := Step(Run(Step(m), events));
            m3.st.r.pc == Wrap(m.st.r.pc + 3) && m3.st.r.sp == m.st.r.sp && Carries(m3, items)
  {
    hide Step, Run, DeedOf, OnTopAgain, Carries, Flat;
    TakenOff(m, items, Subroutine(m.st.r.pc), events);
  }

  /** A saved register, over any run: the matching pull finds the byte that was pushed. */
  lemma SavedComesBack(m: Machine, items: seq<Item>, events: seq<Event>)
    requires OnTopAgain(m, items, events) && DeedOf(m).Pushing?
    requires DeedOf(Run(Step(m), events)).Pulling?
    ensures var m2 := Run(Step(m), events);
            var v := DeedOf(m).what.Kept(m.st.r);
            && Step(m2).st.r == DeedOf(m2).what.Pulling(m2.st.r, v).(pc := Wrap(m2.st.r.pc + 1), sp := m.st.r.sp)
            && Carries(Step(m2), items)
  {
    hide Step, Run, DeedOf, OnTopAgain, Carries, Flat, Saving.Kept, Saving.Pulling;
    TakenOff(m, items, Saved(DeedOf(m).what.Kept(m.st.r)), events);
  }

  // ----- Entries and returns alone -----

  /** Nothing but entries and RTIs, from depth `d`, never under 1 and never over 85. */
  predicate Nested(m: Machine, d: nat, events: seq<Event>)
    decreases events
  {
    events != [] ==>
      if events[0].Boundary? then
        match DeedOf(m)
        case Entering(_) => d < 85 && Nested(Step(m), d + 1, events[1..])
        case Returning => d > 1 && Nested(Step(m), d - 1, events[1..])
        case _ => false
      else Nested(Apply(m, events[0]), d, events[1..])
  }

  function DepthAfter(m: Machine, d: int, events: seq<Event>): int
    decreases events
  {
    if events == [] then d
    else
      DepthAfter(Apply(m, events[0]),
                 if !events[0].Boundary? then d else if DeedOf(m).Entering? then d + 1 else d - 1, events[1..])
  }

  predicate AllHandlers(items: seq<Item>) {
    forall k :: 0 <= k < |items| ==> items[k].Handler?
  }

  lemma {:induction false} HandlersSize(items: seq<Item>)
    requires AllHandlers(items)
    ensures |Flat(items)| == 3 * |items|
  {
    if items != [] {
      HandlersSize(items[1..]);
      FrameSize(items[0].cause, items[0].r);
    }
  }

  /** Such a run is proper by itself and writes only to the ring. */
  lemma {:induction false} NestedIsProper(m: Machine, items: seq<Item>, events: seq<Event>)
    requires Carries(m, items) && AllHandlers(items) && 1 <= |items| <= 85 && Nested(m, |items|, events)
    ensures ProperRun(m, items, events) && StaysAbove(m, items, events, 1)
    ensures |TrackRun(m, items, events)| == DepthAfter(m, |items|, events)
    ensures Run(m, events).st.bus.device.Ram?
    ensures SameOutside(m.st.bus.device.image, Run(m, events).st.bus.device.image)
    decreases events
  {
    hide Step, DeedOf, Flat, Frame, Status.Normal, GoesHome, Holds, SameOutside;
    Same(m.st.bus.device.image);
    if events != [] {
      var next := Apply(m, events[0]);
      HandlersSize(items);
      if events[0].Boundary? {
        StepCarries(m, items);
        EntryOutside(m, items);
        NestedIsProper(next, Track(m, items), events[1..]);
      } else {
        NestedIsProper(next, items, events[1..]);
      }
      SameOutsideTransitive(m.st.bus.device.image, next.st.bus.device.image, Run(m, events).st.bus.device.image);
    }
  }

  lemma Same(image: Image)
    ensures SameOutside(image, image)
  {
  }

  lemma EntryOutside(m: Machine, items: seq<Item>)
    requires Carries(m, items) && Proper(m, items) && (DeedOf(m).Entering? || DeedOf(m).Returning?)
    ensures Step(m).st.bus.device.Ram?
    ensures SameOutside(m.st.bus.device.image, Step(m).st.bus.device.image)
  {
    hide Step, DeedOf, Holds, SameOutside, Enter, Return, Frame, Status.Normal;
    StepDoes(m);
    Same(m.st.bus.device.image);
    if DeedOf(m).Entering? {
      EnterPushesFrame(DeedOf(m).cause, m.st, Flat(items));
    } else {
      FlatTail(items);
      ReturnPullsFrame(items[0].cause, items[0].r, m.st, Flat(items[1..]));
    }
  }

  /**
   A run of entries, nested up to 85 deep from any stack pointer on RAM of any size, and
   the RTIs that unwind them: the last restores PC, SR and SP of the code interrupted first,
   and no byte outside the ring has changed.
   */
  lemma NestedRunUnwinds(m: Machine, events: seq<Event>)
    requires m.st.bus.device.Ram? && m.st.r.sr.Normal() && DeedOf(m).Entering?
    requires Nested(Step(m), 1, events) && DepthAfter(Step(m), 1, events) == 1
    requires DeedOf(Run(Step(m), events)).Returning?
    ensures var m3 := Step(Run(Step(m), events));
            && m3.st.r.pc == DeedOf(m).cause.ReturnAddress(m.st.r.pc)
            && m3.st.r.sr == m.st.r.sr && m3.st.r.sp == m.st.r.sp
            && m3.st.bus.device.Ram? && SameOutside(m.st.bus.device.image, m3.st.bus.device.image)
  {
    hide Step, Run, DeedOf, Nested, DepthAfter, ProperRun, StaysAbove, TrackRun, Holds, SameOutside, Frame, Status.Normal, GoesHome;
    var image := m.st.bus.device.image;
    var m1 := Step(m);
    var m2 := Run(m1, events);
    var items1 := Track(m, []);
    HoldsNothing(image, m.st.r.sp);
    StepCarries(m, []);
    EntryOutside(m, []);
    NestedIsProper(m1, items1, events);
    HandlerResumes(m, [], events);
    RunCarries(m1, items1, events);
    BaseStays(m1, items1, events, items1);
    EntryOutside(m2, items1);
    SameOutsideTransitive(image, m1.st.bus.device.image, m2.st.bus.device.image);
    SameOutsideTransitive(image, m2.st.bus.device.image, Step(m2).st.bus.device.image);
  }
}
