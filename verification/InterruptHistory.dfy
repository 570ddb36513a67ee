/**
 The interrupt protocol against a specification that only looks at what has happened:
 the calls to nmi() and irq(), the entries taken, and for each instruction executed its
 opcode and I before and after it. The two delay fields of the processor are how it
 remembers just enough of that history.
 */
module InterruptHistory {
  import opened Registers
  import opened Memory
  import opened Bus
  import opened Stack
  import opened Instructions
  import opened OpcodeTable
  import opened Processor
  import opened StatusBits
  import opened InterruptNesting

  datatype Happening =
    | NmiCall | IrqCall(level: bool)
    | NmiEntry | IrqEntry
    | Ran(code: Byte, before: bool, after: bool)

  type History = seq<Happening>

  function Mask(m: Machine): bool {
    m.st.r.sr.i == 1
  }

  function Happened(m: Machine, e: Event): Happening {
    match e
    case RaiseNmi => NmiCall
    case DriveIrq(level) => IrqCall(level)
    case Boundary =>
      match m.Choice()
      case TakeNmi => NmiEntry
      case TakeIrq => IrqEntry
      case TakeInstruction => Ran(m.NextCode(), Mask(m), Mask(Step(m)))
  }

  /** What happens over a run, oldest first. */
  function Recorded(m: Machine, events: seq<Event>): History
    decreases events
  {
    if events == [] then [] else [Happened(m, events[0])] + Recorded(Apply(m, events[0]), events[1..])
  }

  // ----- The specification -----

  function Last(h: History): Happening
    requires h != []
  {
    h[|h| - 1]
  }

  function Earlier(h: History): History
    requires h != []
  {
    h[..|h| - 1]
  }

  /** nmi() has been called since the last NMI entry. */
  predicate Pending(h: History) {
    h != [] &&
    match Last(h)
    case NmiCall => true
    case NmiEntry => false
    case _ => Pending(Earlier(h))
  }

  /** The last level irq() was called with. */
  predicate LineHeld(h: History) {
    h != [] &&
    match Last(h)
    case IrqCall(level) => level
    case _ => LineHeld(Earlier(h))
  }

  /** I as it now is: set by reset and by every entry, otherwise as the last instruction left it. */
  predicate MaskNow(h: History) {
    h == [] ||
    match Last(h)
    case NmiEntry | IrqEntry => true
    case Ran(_, _, after) => after
    case _ => MaskNow(Earlier(h))
  }

  /** I as the poll feels it: CLI, SEI and PLP are felt one instruction late, everything else at once. */
  predicate MaskFelt(h: History) {
    h == [] ||
    match Last(h)
    case NmiEntry | IrqEntry => true
    case Ran(code, before, after) => if ChangesMaskLate(code) then before else after
    case _ => MaskFelt(Earlier(h))
  }

  /** What must be done at a boundary with this history behind it. */
  function Due(h: History): Choice {
    if Pending(h) then TakeNmi else if LineHeld(h) && !MaskFelt(h) then TakeIrq else TakeInstruction
  }

  // ----- Refinement -----

  predicate Remembers(m: Machine, h: History) {
    && m.nmiPending == Pending(h)
    && m.irqLine == LineHeld(h)
    && Mask(m) == MaskNow(h)
    && m.Masked() == MaskFelt(h)
  }

  lemma Grown(h: History, x: Happening)
    ensures Last(h + [x]) == x && Earlier(h + [x]) == h
  {
  }

  lemma StepRemembers(m: Machine, h: History, e: Event)
    requires Remembers(m, h)
    ensures Remembers(Apply(m, e), h + [Happened(m, e)])
  {
    hide RunInstruction, Status.Packed, BusState.Value, BusState.PairValue;
    Grown(h, Happened(m, e));
  }

  lemma {:induction false} RunRemembers(m: Machine, h: History, events: seq<Event>)
    requires Remembers(m, h)
    ensures Remembers(Run(m, events), h + Recorded(m, events))
    decreases events
  {
    hide Remembers, Apply;
    if events == [] {
      assert h + [] == h;
    } else {
      var x := Happened(m, events[0]);
      StepRemembers(m, h, events[0]);
      RunRemembers(Apply(m, events[0]), h + [x], events[1..]);
      assert h + [x] + Recorded(Apply(m, events[0]), events[1..]) == h + Recorded(m, events);
    }
  }

  /**
   From reset, on any bus and for every interleaving of nmi(), irq() and boundaries: what
   the processor does next is what the history says is due.
   */
  lemma DoesWhatIsDue(bus: BusState, before: bool, events: seq<Event>)
    ensures Run(Reset(bus, before), events).Choice() == Due(Recorded(Reset(bus, before), events))
  {
    hide Run, BusState.PairValue;
    var m := Reset(bus, before);
    assert Remembers(m, []);
    RunRemembers(m, [], events);
    assert [] + Recorded(m, events) == Recorded(m, events);
  }

  // ----- What every history obeys -----

  /** One happening, given everything before it. */
  predicate Obeys(h: History, x: Happening) {
    match x
    case NmiCall | IrqCall(_) => true
    case NmiEntry => Due(h) == TakeNmi
    case IrqEntry => Due(h) == TakeIrq
    case Ran(code, before, after) =>
      && Due(h) == TakeInstruction
      && before == MaskNow(h)
      && (code !in {0x58, 0x78, 0x28, 0x40, 0x00} ==> after == before)
      && (code == 0x58 ==> !after)
      && (code == 0x78 || code == 0x00 ==> after)
  }

  predicate Lawful(h: History) {
    forall k :: 0 <= k < |h| ==> Obeys(h[..k], h[k])
  }

  lemma HappenedObeys(m: Machine, h: History, e: Event)
    requires Remembers(m, h)
    ensures Obeys(h, Happened(m, e))
  {
    hide RunInstruction, Pending, LineHeld, MaskNow, MaskFelt, BusState.Value, Status.Packed;
    InstructionMask(m.st, m.NextCode());
  }

  lemma LawfulGrows(h: History, x: Happening)
    requires Lawful(h) && Obeys(h, x)
    ensures Lawful(h + [x])
  {
    hide Obeys;
    forall k | 0 <= k < |h + [x]|
      ensures Obeys((h + [x])[..k], (h + [x])[k])
    {
      if k < |h| {
        assert (h + [x])[..k] == h[..k];
      } else {
        assert (h + [x])[..k] == h;
      }
    }
  }

  lemma {:induction false} RunIsLawful(m: Machine, h: History, events: seq<Event>)
    requires Remembers(m, h) && Lawful(h)
    ensures Lawful(h + Recorded(m, events))
    decreases events
  {
    hide Remembers, Lawful, Obeys, Apply;
    if events == [] {
      assert h + [] == h;
    } else {
      var x := Happened(m, events[0]);
      HappenedObeys(m, h, events[0]);
      LawfulGrows(h, x);
      StepRemembers(m, h, events[0]);
      RunIsLawful(Apply(m, events[0]), h + [x], events[1..]);
      assert h + [x] + Recorded(Apply(m, events[0]), events[1..]) == h + Recorded(m, events);
    }
  }

  lemma LawfulFromReset(bus: BusState, before: bool, events: seq<Event>)
    ensures Lawful(Recorded(Reset(bus, before), events))
  {
    hide Obeys, BusState.PairValue;
    var m := Reset(bus, before);
    assert Remembers(m, []);
    RunIsLawful(m, [], events);
    assert [] + Recorded(m, events) == Recorded(m, events);
  }

  // ----- IRQ entries do not repeat by themselves -----

  /** An instruction that let interrupts through: CLI, PLP or RTI leaving I clear. */
  predicate Unmasks(x: Happening) {
    x.Ran? && x.code in {0x58, 0x28, 0x40} && !x.after
  }

  /** After an entry, as long as nothing unmasks, I stays set and is felt as set. */
  lemma {:induction false} StaysMasked(h: History, i: nat, n: nat)
    requires Lawful(h) && i < n <= |h| && h[i].IrqEntry?
    requires forall k :: i < k < n ==> !Unmasks(h[k])
    ensures MaskNow(h[..n]) && MaskFelt(h[..n])
    decreases n
  {
    var p := h[..n];
    assert Last(p) == h[n - 1] && Earlier(p) == h[..n - 1];
    if n > i + 1 {
      StaysMasked(h, i, n - 1);
      assert Obeys(h[..n - 1], h[n - 1]);
      assert !Unmasks(h[n - 1]);
    }
  }

  /** Between two IRQ entries of any run, some CLI, PLP or RTI was executed and left I clear. */
  lemma UnmaskedBetweenEntries(bus: BusState, before: bool, events: seq<Event>, i: nat, j: nat)
    requires var h := Recorded(Reset(bus, before), events);
             i < j < |h| && h[i].IrqEntry? && h[j].IrqEntry?
    ensures var h := Recorded(Reset(bus, before), events);
            exists k :: i < k < j && Unmasks(h[k])
  {
    hide Recorded, Unmasks, Reset;
    var h := Recorded(Reset(bus, before), events);
    LawfulFromReset(bus, before, events);
    assert Obeys(h[..j], h[j]);
    if forall k :: i < k < j ==> !Unmasks(h[k]) {
      StaysMasked(h, i, j);
      assert false;
    }
  }

  // ----- NMI conservation -----

  function NmiEntries(h: History): nat {
    if h == [] then 0 else NmiEntries(Earlier(h)) + if Last(h).NmiEntry? then 1 else 0
  }

  function NmiCalls(h: History): nat {
    if h == [] then 0 else NmiCalls(Earlier(h)) + if Last(h).NmiCall? then 1 else 0
  }

  /** Calls that found no NMI already waiting; the others coalesce with the one that waits. */
  function FreshNmiCalls(h: History): nat {
    if h == [] then 0
    else FreshNmiCalls(Earlier(h)) + if Last(h).NmiCall? && !Pending(Earlier(h)) then 1 else 0
  }

  lemma {:induction false} NmiBalance(h: History)
    requires Lawful(h)
    ensures NmiEntries(h) + (if Pending(h) then 1 else 0) == FreshNmiCalls(h) <= NmiCalls(h)
    decreases |h|
  {
    if h != [] {
      var p := Earlier(h);
      assert Lawful(p) by {
        forall k | 0 <= k < |p|
          ensures Obeys(p[..k], p[k])
        {
          assert p[..k] == h[..k] && p[k] == h[k];
        }
      }
      assert h[..|h| - 1] == p;
      assert Obeys(p, Last(h));
      NmiBalance(p);
    }
  }

  /** Over any run every fresh nmi() call is entered exactly once, or is the one still waiting. */
  lemma NmiConservation(bus: BusState, before: bool, events: seq<Event>)
    ensures var h := Recorded(Reset(bus, before), events);
            && NmiEntries(h) + (if Run(Reset(bus, before), events).nmiPending then 1 else 0) == FreshNmiCalls(h)
            && FreshNmiCalls(h) <= NmiCalls(h)
  {
    hide Recorded, Run, Lawful, BusState.PairValue, NmiEntries, NmiCalls, FreshNmiCalls;
    var m := Reset(bus, before);
    var h := Recorded(m, events);
    LawfulFromReset(bus, before, events);
    NmiBalance(h);
    assert Remembers(m, []);
    RunRemembers(m, [], events);
    assert [] + h == h;
  }

  /** Whatever was called between two boundaries, a pending NMI is what the next boundary enters. */
  lemma {:induction false} NmiIsNext(m: Machine, calls: seq<Event>)
    requires m.nmiPending || RaiseNmi in calls
    requires Boundary !in calls
    ensures Run(m, calls).Choice() == TakeNmi
    ensures !Step(Run(m, calls)).nmiPending
    decreases calls
  {
    hide Service, RunInstruction, BusState.Value;
    if calls != [] {
      assert calls[0] in calls;
      NmiIsNext(Apply(m, calls[0]), calls[1..]);
    }
  }

  // ----- Bounded response -----

  /**
   With the line held, I clear and no NMI, the interrupt is entered at this boundary, or
   else at the next one exactly unless the one instruction between is BRK or an RTI that
   sets I.
   */
  lemma BoundedResponse(m: Machine)
    requires m.irqLine && !Mask(m) && !m.nmiPending
    ensures m.Choice() == TakeIrq ||
            (m.Choice() == TakeInstruction &&
             (Step(m).Choice() == TakeIrq <==> !(m.NextCode() == 0x00 || (m.NextCode() == 0x40 && Mask(Step(m))))))
  {
    hide RunInstruction, BusState.Value, Service;
    InstructionMask(m.st, m.NextCode());
  }

  // ----- CLI; SEI -----

  /** In memory, reading an opcode does not disturb what the interrupt entry and RTI do. */
  lemma EntryThenReturn(m: Machine)
    requires m.Choice() == TakeIrq && m.st.bus.device.Ram? && m.st.r.sr.Normal()
    requires Step(m).Choice() == TakeInstruction && Step(m).NextCode() == 0x40
    ensures var back := Step(Step(m));
            back.st.r.pc == m.st.r.pc && back.st.r.sr == m.st.r.sr && back.st.r.sp == m.st.r.sp
  {
    hide BusState.Value, RunInstruction, Holds, Service, Status.Packed, EnterHandler;
    var st := m.st;
    var cause := Hardware(0xFFFE);
    HoldsNothing(st.bus.device.image, st.r.sp);
    EnterPushesFrame(cause, st, []);
    ReturnPullsFrame(cause, st.r, Enter(cause, st), []);
    assert Low(Low(st.r.sp - 3) + 3) == st.r.sp;
  }

  /**
   A CLI executed while interrupts are masked and the line is held is felt one
   instruction late exactly when I was set; after an earlier CLI in flight it is not.
   */
  lemma CliDelay(m: Machine)
    requires m.Masked() && m.irqLine && !m.nmiPending && m.NextCode() == 0x58
    ensures Step(m).Choice() == if Mask(m) then TakeInstruction else TakeIrq
  {
    hide Step, Machine.NextCode;
    RunsMaskWriter(m);
  }

  /**
   `CLI; SEI` from a masked state with the line held and no NMI: both instructions run and
   the IRQ is entered directly after SEI if and only if I was set, and not merely felt as
   set because an earlier CLI is still in flight. After a plain RTI from that one entry the
   interrupted code runs on.
   */
  lemma CliSeiTakesExactlyOne(m: Machine)
    requires m.Masked() && m.irqLine && !m.nmiPending && m.st.bus.device.Ram? && m.st.r.sr.Normal()
    requires m.NextCode() == 0x58
    requires Step(m).NextCode() == 0x78
    ensures var m1 := Step(m);
            var m2 := Step(m1);
            m.Choice() == TakeInstruction && m1.Choice() == TakeInstruction && m2.Choice() == TakeIrq <==> Mask(m)
    ensures var m2 := Step(Step(m));
            var m3 := Step(m2);
            var m4 := Step(m3);
            Mask(m) && m3.NextCode() == 0x40 ==>
              && m3.Choice() == TakeInstruction && m4.Choice() == TakeInstruction && Mask(m4)
              && m4.st.r.pc == m2.st.r.pc && m4.st.r.sr == m2.st.r.sr && m4.st.r.sp == m2.st.r.sp
  {
    hide Step, RunInstruction, Machine.NextCode;
    var m1 := Step(m);
    var m2 := Step(m1);
    var m3 := Step(m2);
    CliDelay(m);
    if Mask(m) {
      RunsMaskWriter(m);
      RunsMaskWriter(m1);
      EntryMasks(m2);
      if m3.NextCode() == 0x40 {
        EntryThenReturn(m2);
        AfterPlainReturn(m3);
      }
    }
  }

  // A masked state with I clear is one that a run can reach.

  /** Memory that resets into `CLI; CLI; SEI` at $0200. */
  function TwoClis(): Image {
    var filled: seq<Byte> := seq(0x1_0000, _ => 0);
    filled[0xfffd := 0x02][0x200 := 0x58][0x201 := 0x58][0x202 := 0x78]
  }

  /**
   From reset with the line held: after the first CLI the processor is still masked although
   I is clear, and then `CLI; SEI` lets the IRQ in before SEI has run.
   */
  lemma CliInFlight(before: bool)
    ensures var m := Run(Reset(BusState(Device.Ram(TwoClis()), []), before), [DriveIrq(true), Boundary]);
            && m.Masked() && !Mask(m) && m.irqLine && !m.nmiPending
            && m.st.bus.device.Ram? && m.st.r.sr.Normal()
            && m.NextCode() == 0x58 && Step(m).NextCode() == 0x78
            && Step(m).Choice() == TakeIrq
  {
    hide Step, Unpack, TwoClis, Peek;
    var m0 := Reset(BusState(Device.Ram(TwoClis()), []), before);
    var m1 := Apply(m0, DriveIrq(true));
    var m := Step(m1);
    assert Run(m0, [DriveIrq(true), Boundary]) == m by {
      assert [DriveIrq(true), Boundary][1..] == [Boundary] && [Boundary][1..] == [];
    }
    TwoClisBytes();
    NormalFromReset(BusState(Device.Ram(TwoClis()), []), before, [DriveIrq(true), Boundary]);
    RunsMaskWriter(m1);
    RunsMaskWriter(m);
    CliDelay(m);
  }

  lemma TwoClisBytes()
    ensures var image := TwoClis();
            && Peek(image, 0xfffc) == 0x00 && Peek(image, 0xfffd) == 0x02
            && Peek(image, 0x200) == 0x58 && Peek(image, 0x201) == 0x58 && Peek(image, 0x202) == 0x78
  {
  }

  /** One executed CLI or SEI: PC moves on, I changes, and the other registers, the lines and the device stay. */
  lemma RunsMaskWriter(m: Machine)
    requires m.Choice() == TakeInstruction && m.NextCode() in {0x58, 0x78}
    ensures var m1 := Step(m);
            && m1.nmiPending == m.nmiPending && m1.irqLine == m.irqLine
            && m1.delayed && m1.before == Mask(m)
            && m1.st.bus.device == m.st.bus.device
            && m1.st.r == m.st.r.(pc := Wrap(m.st.r.pc + 1), sr := m.st.r.sr.(i := if m.NextCode() == 0x58 then 0 else 1))
  {
    hide BusState.Value, Decode, ExecuteLoad, ExecuteModify, ExecuteStore, ExecuteBranch, ExecuteUnstable, ControlEffect;
    TableMaskWriters(m.NextCode());
    TableAllowed(m.NextCode());
  }

  lemma EntryMasks(m: Machine)
    requires m.Choice() == TakeIrq
    ensures Mask(Step(m)) && !Step(m).delayed && Step(m).irqLine && !Step(m).nmiPending
  {
    hide BusState.Value, BusState.PairValue, Push8, Push16;
  }

  lemma AfterPlainReturn(m: Machine)
    requires m.Choice() == TakeInstruction && m.NextCode() == 0x40 && !m.nmiPending
    ensures Step(m).Choice() == if m.irqLine && !Mask(Step(m)) then TakeIrq else TakeInstruction
  {
    hide BusState.Value, RunInstruction;
  }
}
