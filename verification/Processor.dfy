/**
 The interpreter (src/Processor.cpp) and the reset sequence (src/I6502Emulator.cpp):
 fetch, decode, execute, with a latched NMI, a level IRQ, and the delay that CLI, SEI and
 PLP impose on the interrupt mask.
 */
module Processor {
  import opened Registers
  import opened Bus
  import opened Stack
  import opened Instructions
  import opened OpcodeTable
  import PacingClock

  datatype Machine = Machine(
    st: State,
    cycles: int,       // the clock
    nmiPending: bool,
    irqLine: bool,
    delayed: bool,     // the last instruction changed I too late to be polled
    before: bool)      // what I was before it
  {
    /** What the poll at this boundary sees. */
    predicate Masked() {
      if delayed then before else st.r.sr.i == 1
    }

    function Choice(): Choice {
      if nmiPending then TakeNmi else if irqLine && !Masked() then TakeIrq else TakeInstruction
    }

    /** The opcode an instruction step would fetch now. */
    function NextCode(): Byte {
      st.bus.Value(st.r.pc)
    }
  }

  datatype Choice = TakeNmi | TakeIrq | TakeInstruction

  predicate ChangesMaskLate(code: Byte) {
    code == 0x58 || code == 0x78 || code == 0x28 // CLI, SEI, PLP
  }

  function Service(st: State, vector: Word): State {
    EnterHandler(st, st.r.pc, st.r.sr.PlainCopy().Packed(), vector)
  }

  /** The state after the opcode fetch. */
  function AfterFetch(st: State): State {
    State(st.r.(pc := Wrap(st.r.pc + 1)), st.bus.Read(st.r.pc))
  }

  function RunInstruction(st: State, code: Byte): Executed {
    TableAllowed(code);
    var entry := Decode(code);
    Execute(entry.op, entry.mode, entry.cycles, AfterFetch(st))
  }

  function Step(m: Machine): Machine {
    match m.Choice()
    case TakeNmi =>
      m.(st := Service(m.st, 0xFFFA), cycles := m.cycles + 7, nmiPending := false, delayed := false)
    case TakeIrq =>
      m.(st := Service(m.st, 0xFFFE), cycles := m.cycles + 7, delayed := false)
    case TakeInstruction =>
      var code := m.NextCode();
      var done := RunInstruction(m.st, code);
      m.(st := done.st, cycles := m.cycles + done.cycles,
         delayed := ChangesMaskLate(code), before := m.st.r.sr.i == 1)
  }

  predicate EntryAllowed(code: Byte) {
    Allowed(Decode(code).op, Decode(code).mode)
  }

  /** Every table entry pairs an operation with a mode it can be given. */
  lemma TableAllowed(code: Byte)
    ensures EntryAllowed(code)
  {
  }

  // ----- Runs -----

  /** What can happen between and at instruction boundaries. */
  datatype Event = Boundary | RaiseNmi | DriveIrq(level: bool)

  function Apply(m: Machine, e: Event): Machine {
    match e
    case Boundary => Step(m)
    case RaiseNmi => m.(nmiPending := true)
    case DriveIrq(level) => m.(irqLine := level)
  }

  function Run(m: Machine, events: seq<Event>): Machine
    decreases events
  {
    if events == [] then m else Run(Apply(m, events[0]), events[1..])
  }

  /** The state a reset leaves, on any bus. */
  function Reset(bus: BusState, before: bool): Machine {
    Machine(
      State(Regs(0, 0, 0, Unpack(0).(u := 1, i := 1), 0xfd, bus.PairValue(0xfffc, 0xfffd), false),
            bus.ReadPair(0xfffc, 0xfffd)),
      7, false, false, false, before)
  }

  // ----- The objects -----

  class Cpu {
    const bus: SystemBus
    const regs: RegisterFile
    const clock: PacingClock.CycleClock
    var nmiPending: bool
    var irqLine: bool
    var maskDelayed: bool
    var maskBefore: bool
    var running: bool
    var stopping: bool

    constructor (bus: SystemBus, regs: RegisterFile, clock: PacingClock.CycleClock)
      ensures this.bus == bus && this.regs == regs && this.clock == clock
      ensures !nmiPending && !irqLine && !maskDelayed && maskBefore && !running && !stopping
    {
      this.bus, this.regs, this.clock := bus, regs, clock;
      nmiPending, irqLine, maskDelayed, maskBefore := false, false, false, true;
      running, stopping := false, false;
    }

    ghost function Footprint(): set<object> {
      {this, regs, clock} + bus.Footprint()
    }

    ghost function View(): Machine
      requires bus.Valid()
      reads Footprint(), bus.mem
    {
      Machine(State(regs.View(), bus.View()), clock.total, nmiPending, irqLine, maskDelayed, maskBefore)
    }

    method Nmi()
      requires bus.Valid()
      modifies this`nmiPending
      ensures View() == Apply(old(View()), RaiseNmi)
    {
      nmiPending := true;
    }

    method Irq(asserted: bool)
      requires bus.Valid()
      modifies this`irqLine
      ensures View() == Apply(old(View()), DriveIrq(asserted))
    {
      irqLine := asserted;
    }

    method ClearInterrupts()
      requires bus.Valid()
      modifies this
      ensures View() == old(View()).(nmiPending := false, irqLine := false, delayed := false)
    {
      nmiPending := false;
      irqLine := false;
      maskDelayed := false;
    }

    method ServiceInterrupt(vector: Word) returns (cycles: int)
      requires bus.Valid()
      modifies regs, bus.Footprint()
      ensures State(regs.View(), bus.View()) == Service(old(State(regs.View(), bus.View())), vector)
      ensures cycles == 7
    {
      hide SystemBus.View, EnterHandler, Status.Packed;
      EnterThrough(regs, bus, regs.pc, regs.sr.PlainCopy().Packed(), vector);
      cycles := 7;
    }

    /** Fetch, decode and execute one instruction. */
    method Dispatch() returns (code: Byte, cycles: int)
      requires bus.Valid()
      modifies regs, bus.Footprint()
      ensures code == old(bus.View()).Value(old(regs.pc))
      ensures Executed(State(regs.View(), bus.View()), cycles) == RunInstruction(old(State(regs.View(), bus.View())), code)
    {
      hide SystemBus.View, Execute, Decode, Allowed, BusState.Read, BusState.Value;
      code := bus.Read(regs.pc);
      regs.pc := Wrap(regs.pc + 1);
      TableAllowed(code);
      var entry := Decode(code);
      cycles := ExecuteInstruction(entry.op, entry.mode, entry.cycles, regs, bus);
    }

    method StepOnce()
      requires bus.Valid()
      modifies Footprint()
      ensures View() == Step(old(View()))
      ensures running == old(running) && stopping == old(stopping)
    {
      hide SystemBus.View, RunInstruction, Service, BusState.Value;
      var masked := if maskDelayed then maskBefore else regs.sr.i == 1;
      if nmiPending {
        nmiPending := false;
        var cycles := ServiceInterrupt(0xFFFA);
        clock.WaitCycles(cycles);
        maskDelayed := false;
      } else if irqLine && !masked {
        var cycles := ServiceInterrupt(0xFFFE);
        clock.WaitCycles(cycles);
        maskDelayed := false;
      } else {
        var wasSet := regs.sr.i == 1;
        var code, cycles := Dispatch();
        clock.WaitCycles(cycles);
        maskDelayed := code == 0x58 || code == 0x78 || code == 0x28;
        maskBefore := wasSet;
      }
    }

    /** Ask the run loop to stop at the next boundary. */
    method Pause()
      requires bus.Valid()
      modifies this`stopping
      ensures stopping && View() == old(View())
    {
      stopping := true;
    }

    /** The run loop; somebody calls Pause once it has made the given number of steps. */
    method RunLoop(pauseAfter: nat)
      requires bus.Valid()
      modifies Footprint()
      ensures View() == Run(old(View()), seq(pauseAfter, _ => Boundary))
      ensures !running && !stopping
    {
      hide Step, SystemBus.View, RegisterFile.View;
      running := true;
      stopping := false;
      clock.BeginCycle();
      var done := 0;
      if pauseAfter == 0 {
        Pause();
      }
      while running && !stopping
        invariant done <= pauseAfter && running && (stopping <==> done == pauseAfter)
        invariant Run(View(), seq(pauseAfter - done, _ => Boundary)) == Run(old(View()), seq(pauseAfter, _ => Boundary))
        decreases pauseAfter - done
      {
        ghost var rest := seq(pauseAfter - done, _ => Boundary);
        assert rest[1..] == seq(pauseAfter - done - 1, _ => Boundary);
        StepOnce();
        done := done + 1;
        if done == pauseAfter {
          Pause();
        }
      }
      running := false;
      stopping := false;
    }
  }

  /** I6502Emulator::start without the run: registers zeroed, vector loaded, interrupts dropped, 7 cycles charged. */
  method Start(cpu: Cpu)
    requires cpu.bus.Valid()
    modifies cpu.Footprint()
    ensures cpu.View() == Reset(old(cpu.bus.View()), old(cpu.maskBefore))
  {
    hide SystemBus.View, BusState.ReadPair, BusState.PairValue, Unpack;
    cpu.regs.Clear();
    cpu.regs.sp := 0xfd;
    cpu.regs.sr := cpu.regs.sr.(u := 1, i := 1);
    cpu.regs.pc := cpu.bus.ReadWord(0xfffc, 0xfffd);
    cpu.ClearInterrupts();
    cpu.clock.ResetCount();
    cpu.clock.BeginCycle();
    cpu.clock.WaitCycles(7);
  }
}
