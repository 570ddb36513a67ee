/**
 An instruction never makes more bus accesses than it has cycles (docs/accuracy.md): the
 difference is a slack fixed by the opcode, plus the cycles of a taken branch.
 */
module AccessBudget {
  import opened Registers
  import opened Bus
  import opened Stack
  import opened Addressing
  import opened Instructions
  import opened OpcodeTable
  import opened Processor

  /** Cycles an instruction spends without touching the bus, a taken branch apart. */
  function Slack(op: Op, mode: Mode): nat {
    match op
    case Control(RTS) => 3
    case Control(PLA) | Control(PLP) | Control(RTI) | OnRegisters(KIL) => 2
    case Control(BRK) | Control(JSR) | Control(PHA) | Control(PHP) | Unstable(_) => 1
    case _ => if mode.IndirectX? || mode.Accumulator? || mode.NullMode? then 1 else 0
  }

  /** A taken branch costs one cycle more, two when it leaves the page, and touches nothing. */
  function BranchExtra(op: Op, sr: Status, next: Word, target: Word): nat {
    match op
    case Branching(b) => if BranchTaken(b, sr) then if Page(next) != Page(target) then 2 else 1 else 0
    case _ => 0
  }

  function Accesses(before: BusState, after: BusState): int {
    |after.log| - |before.log|
  }

  function PointerReads(mode: Mode): nat {
    if mode.HasPointer() then 2 else 0
  }

  /** Accesses made to reach the operand of a load, the final read included. */
  function LoadReads(mode: Mode, crossed: bool): nat {
    if mode.Addresses() then PointerReads(mode) + (if mode.ZeroPageIndexed() || crossed then 2 else 1)
    else if mode.Indirect? then 1 else 0
  }

  function DummyReads(mode: Mode): nat {
    if mode.HasDummy() then 1 else 0
  }

  function ControlAccesses(op: ControlOp, mode: Mode): nat {
    match op
    case BRK => 5
    case PHA | PHP | PLA | PLP => 1
    case RTI => 3
    case RTS | JSR => 2
    case JMP => if mode.Indirect? then 2 else 0
    case NOP => 0
  }

  /** Accesses of an instruction after its opcode fetch; `crossed` matters to loads only. */
  function Needed(op: Op, mode: Mode, crossed: bool): nat {
    mode.OperandLength() +
    match op
    case Loading(_) => LoadReads(mode, crossed)
    case Storing(_) => if mode.Addresses() then PointerReads(mode) + DummyReads(mode) + 1 else 0
    case Modifying(_) => if mode.Addresses() then PointerReads(mode) + DummyReads(mode) + 3 else 0
    case Branching(_) => LoadReads(mode, crossed)
    case OnRegisters(_) => 0
    case Unstable(_) => PointerReads(mode) + 1
    case Control(c) => ControlAccesses(c, mode)
  }

  /** The base cost pays for every access of the uncrossed case, and crossings are charged where they can happen. */
  predicate Priced(op: Op, mode: Mode, cycles: int) {
    && cycles == 1 + Needed(op, mode, false) + Slack(op, mode)
    && match op
       case Loading(l) => mode.MayCross() ==> l.ChargesCrossing()
       case Branching(_) => mode.Relative?
       case OnRegisters(_) => mode.NullMode?
       case Control(c) => c in {JMP, JSR, NOP} || mode.NullMode?
       case _ => true
  }

  // The base cost as a function of the kind of operation and the mode; 0 where the table has no entry.

  function LoadCost(mode: Mode): nat {
    match mode
    case Immediate => 2
    case ZeroPage => 3
    case ZeroPageX | ZeroPageY | Absolute | AbsoluteX | AbsoluteY => 4
    case IndirectY => 5
    case IndirectX => 6
    case _ => 0
  }

  function StoreCost(mode: Mode): nat {
    match mode
    case ZeroPage => 3
    case ZeroPageX | ZeroPageY | Absolute => 4
    case AbsoluteX | AbsoluteY => 5
    case IndirectX | IndirectY => 6
    case _ => 0
  }

  function ModifyCost(mode: Mode): nat {
    match mode
    case Accumulator => 2
    case ZeroPage => 5
    case ZeroPageX | Absolute => 6
    case AbsoluteX | AbsoluteY => 7
    case IndirectX | IndirectY => 8
    case _ => 0
  }

  function ControlCost(op: ControlOp, mode: Mode): nat {
    match op
    case BRK => 7
    case RTI | RTS | JSR => 6
    case PLA | PLP => 4
    case PHA | PHP => 3
    case JMP => if mode.AbsConst? then 3 else 5
    case _ => 2
  }

  predicate LoadEntry(e: Opcode) {
    e.op.Loading? ==> e.cycles == LoadCost(e.mode) > 0 && (e.mode.MayCross() ==> e.op.l.ChargesCrossing())
  }

  predicate StoreEntry(e: Opcode) {
    e.op.Storing? ==> e.cycles == StoreCost(e.mode) > 0
  }

  predicate ModifyEntry(e: Opcode) {
    e.op.Modifying? ==> e.cycles == ModifyCost(e.mode) > 0
  }

  predicate SmallEntry(e: Opcode) {
    && (e.op.Branching? ==> e.mode.Relative? && e.cycles == 2)
    && (e.op.OnRegisters? ==> e.mode.NullMode? && e.cycles == if e.op.r.KIL? then 3 else 2)
    && (e.op.Unstable? ==> e.mode.MayCross() && e.cycles == if e.mode.IndirectY? then 6 else 5)
  }

  predicate ControlEntry(e: Opcode) {
    e.op.Control? ==>
      && e.cycles == ControlCost(e.op.c, e.mode)
      && match e.op.c
         case JMP => e.mode.AbsConst? || e.mode.Indirect?
         case JSR => e.mode.AbsConst?
         case NOP => e.mode.NullMode? || e.mode.Immediate?
         case _ => e.mode.NullMode?
  }

  // What the table says about each kind of operation.

  lemma TableFirstLoads(code: Byte)
    requires code < 0x40
    ensures LoadEntry(Decode(code))
  {
  }

  lemma TableLowLoads(code: Byte)
    requires 0x40 <= code < 0x80
    ensures LoadEntry(Decode(code))
  {
  }

  lemma TableHighLoads(code: Byte)
    requires code >= 0x80
    ensures LoadEntry(Decode(code))
  {
  }

  lemma TableStores(code: Byte)
    ensures StoreEntry(Decode(code))
  {
  }

  lemma TableModifies(code: Byte)
    ensures ModifyEntry(Decode(code))
  {
  }

  lemma TableSmall(code: Byte)
    ensures SmallEntry(Decode(code))
  {
  }

  lemma TableControls(code: Byte)
    ensures ControlEntry(Decode(code))
  {
  }

  /** The whole table is priced. */
  lemma TablePriced(code: Byte)
    ensures var e := Decode(code); Priced(e.op, e.mode, e.cycles)
  {
    hide Decode;
    if code < 0x40 {
      TableFirstLoads(code);
    } else if code < 0x80 {
      TableLowLoads(code);
    } else {
      TableHighLoads(code);
    }
    TableStores(code);
    TableModifies(code);
    TableSmall(code);
    TableControls(code);
  }

  lemma FetchAccesses(mode: Mode, st: State)
    ensures Accesses(st.bus, FetchOperand(mode, st).st.bus) == mode.OperandLength()
  {
  }

  lemma PointerAccesses(mode: Mode, r: Regs, bus: BusState, operand: Word)
    ensures Accesses(bus, Pointer(mode, r, bus, operand).bus) == PointerReads(mode)
  {
  }

  lemma LoadAccesses(mode: Mode, r: Regs, bus: BusState, operand: Word)
    ensures var l := LoadOperand(mode, r, bus, operand);
            Accesses(bus, l.bus) == LoadReads(mode, l.crossed) && (l.crossed ==> mode.MayCross())
  {
    hide Pointer, Effective, DummyAddress, BusState.Value;
    PointerAccesses(mode, r, bus, operand);
  }

  lemma StoreApproachAccesses(mode: Mode, r: Regs, bus: BusState, operand: Word)
    ensures Accesses(bus, StoreApproach(mode, r, bus, operand)) == PointerReads(mode) + DummyReads(mode)
  {
    hide Pointer, DummyAddress, BusState.Value;
    PointerAccesses(mode, r, bus, operand);
  }

  lemma LoadBudget(op: LoadOp, mode: Mode, cycles: int, st: State)
    requires Priced(Loading(op), mode, cycles)
    ensures var done := ExecuteLoad(op, mode, cycles, st);
            done.cycles - Accesses(st.bus, done.st.bus) == 1 + Slack(Loading(op), mode)
  {
    hide FetchOperand, LoadOperand, LoadEffect;
    var f := FetchOperand(mode, st);
    FetchAccesses(mode, st);
    LoadAccesses(mode, f.st.r, f.st.bus, f.operand);
  }

  lemma StoreBudget(op: StoreOp, mode: Mode, cycles: int, st: State)
    requires Priced(Storing(op), mode, cycles)
    ensures var done := ExecuteStore(op, mode, cycles, st);
            done.cycles - Accesses(st.bus, done.st.bus) == 1 + Slack(Storing(op), mode)
  {
    hide FetchOperand, StoreApproach, Target, StoreValue, BusState.Value;
    var f := FetchOperand(mode, st);
    FetchAccesses(mode, st);
    StoreApproachAccesses(mode, f.st.r, f.st.bus, f.operand);
  }

  lemma ModifyBudget(op: ModifyOp, mode: Mode, cycles: int, st: State)
    requires Priced(Modifying(op), mode, cycles) && !mode.Indirect?
    ensures var done := ExecuteModify(op, mode, cycles, st);
            done.cycles - Accesses(st.bus, done.st.bus) == 1 + Slack(Modifying(op), mode)
  {
    hide FetchOperand, StoreApproach, Target, Modified, ModifiedStatus, Accumulated, BusState.Value;
    var f := FetchOperand(mode, st);
    FetchAccesses(mode, st);
    StoreApproachAccesses(mode, f.st.r, f.st.bus, f.operand);
  }

  lemma BranchBudget(op: BranchOp, mode: Mode, cycles: int, st: State)
    requires Priced(Branching(op), mode, cycles)
    ensures var done := ExecuteBranch(op, mode, cycles, st);
            done.cycles - Accesses(st.bus, done.st.bus)
            == 1 + Slack(Branching(op), mode) + (if BranchTaken(op, st.r.sr) then if Page(Wrap(st.r.pc + 1)) != Page(done.st.r.pc) then 2 else 1 else 0)
  {
    hide BranchTaken, BranchTarget, BusState.Value;
  }

  lemma UnstableBudget(op: UnstableOp, mode: Mode, cycles: int, st: State)
    requires Priced(Unstable(op), mode, cycles) && mode.MayCross()
    ensures var done := ExecuteUnstable(op, mode, cycles, st);
            done.cycles - Accesses(st.bus, done.st.bus) == 1 + Slack(Unstable(op), mode)
  {
    hide FetchOperand, Pointer, UnstableSource, Effective, And, BusState.Value;
    var f := FetchOperand(mode, st);
    var r := if op.TAS? then f.st.r.(sp := UnstableSource(op, f.st.r)) else f.st.r;
    FetchAccesses(mode, st);
    PointerAccesses(mode, r, f.st.bus, f.operand);
  }

  /** Handler entry: three pushes and two vector reads. */
  lemma EnterAccesses(st: State, ret: Word, status: Byte, vector: Word)
    ensures Accesses(st.bus, EnterHandler(st, ret, status, vector).bus) == 5
  {
    hide BusState.Value, BusState.PairValue;
  }

  lemma ControlBudget(op: ControlOp, mode: Mode, cycles: int, st: State)
    requires Priced(Control(op), mode, cycles) && JumpAllowed(op, mode)
    ensures cycles - Accesses(st.bus, ControlEffect(op, mode, st).bus) == 1 + Slack(Control(op), mode)
  {
    hide FetchOperand, EnterHandler, BusState.Value, BusState.PairValue, Unpack, Status.Packed;
    FetchAccesses(mode, st);
    if op.BRK? {
      EnterAccesses(st, Wrap(st.r.pc + 1), st.r.sr.BreakCopy().Packed(), 0xFFFE);
    }
  }

  lemma ExecuteBudget(op: Op, mode: Mode, cycles: int, st: State)
    requires Allowed(op, mode) && Priced(op, mode, cycles)
    ensures var done := Execute(op, mode, cycles, st);
            done.cycles - Accesses(st.bus, done.st.bus)
            == 1 + Slack(op, mode) + BranchExtra(op, st.r.sr, Wrap(st.r.pc + 1), done.st.r.pc)
  {
    hide ExecuteLoad, ExecuteStore, ExecuteModify, ExecuteBranch, ExecuteUnstable, ControlEffect, RegisterEffect, BranchTaken;
    match op {
      case Loading(l) => LoadBudget(l, mode, cycles, st);
      case Storing(s) => StoreBudget(s, mode, cycles, st);
      case Modifying(m) => ModifyBudget(m, mode, cycles, st);
      case Branching(b) => BranchBudget(b, mode, cycles, st);
      case Unstable(u) => UnstableBudget(u, mode, cycles, st);
      case Control(c) => ControlBudget(c, mode, cycles, st);
      case OnRegisters(r) =>
    }
  }

  /**
   For every opcode, every register state and every bus, whatever its reads return: the
   cycles charged minus the accesses made are the opcode's slack plus the branch extra.
   */
  lemma InstructionBudget(st: State, code: Byte)
    ensures var done := RunInstruction(st, code);
            var e := Decode(code);
            done.cycles - Accesses(st.bus, done.st.bus)
            == Slack(e.op, e.mode) + BranchExtra(e.op, st.r.sr, Wrap(st.r.pc + 2), done.st.r.pc)
  {
    hide Execute, Decode, Priced, Slack, BranchTaken;
    TableAllowed(code);
    TablePriced(code);
    var e := Decode(code);
    ExecuteBudget(e.op, e.mode, e.cycles, AfterFetch(st));
    assert Wrap(AfterFetch(st).r.pc + 1) == Wrap(st.r.pc + 2);
  }

  /** At any boundary, interrupt entry included. */
  lemma StepBudget(m: Machine)
    ensures Accesses(m.st.bus, Step(m).st.bus) <= Step(m).cycles - m.cycles
    ensures Step(m).cycles > m.cycles
  {
    hide RunInstruction, EnterHandler, Slack, BranchExtra, Decode, Status.Packed;
    InstructionBudget(m.st, m.NextCode());
    EnterAccesses(m.st, m.st.r.pc, m.st.r.sr.PlainCopy().Packed(), 0xFFFA);
    EnterAccesses(m.st, m.st.r.pc, m.st.r.sr.PlainCopy().Packed(), 0xFFFE);
    CostsCycles(m.st, m.NextCode());
  }

  /** The clock advances by exactly the accesses made, the slack of the opcode and the branch extra; by seven for an entry. */
  lemma StepCharges(m: Machine)
    ensures var e, next := Decode(m.NextCode()), Step(m);
            next.cycles - m.cycles
            == if m.Choice() != TakeInstruction then 7
               else Accesses(m.st.bus, next.st.bus) + Slack(e.op, e.mode)
                    + BranchExtra(e.op, m.st.r.sr, Wrap(m.st.r.pc + 2), next.st.r.pc)
  {
    hide RunInstruction, Service, Slack, BranchExtra, Decode, BusState.Value;
    InstructionBudget(m.st, m.NextCode());
  }

  lemma CostsCycles(st: State, code: Byte)
    ensures RunInstruction(st, code).cycles > 0
  {
    hide Decode, Needed, Slack, FetchOperand, LoadOperand, LoadEffect, Target, StoreApproach, StoreValue, ControlEffect;
    hide Modified, ModifiedStatus, Accumulated, RegisterEffect, Pointer, Effective, BranchTaken, BranchTarget, UnstableSource;
    TableAllowed(code);
    TablePriced(code);
  }

  /** Over any run, the accesses never exceed the cycles charged. */
  lemma {:induction false} RunBudget(m: Machine, events: seq<Event>)
    ensures Accesses(m.st.bus, Run(m, events).st.bus) <= Run(m, events).cycles - m.cycles
    decreases events
  {
    hide Step;
    if events != [] {
      StepBudget(m);
      RunBudget(Apply(m, events[0]), events[1..]);
    }
  }

  /** From reset on: the balance a host that charges a cycle per access owes is never negative. */
  lemma BudgetFromReset(bus: BusState, before: bool, events: seq<Event>)
    ensures var end := Run(Reset(bus, before), events);
            Accesses(bus, end.st.bus) <= end.cycles
  {
    RunBudget(Reset(bus, before), events);
  }
}
