/**
 Interrupt entry, reset, jumps, calls, returns and stack instructions against the reference:
 every access they make, cell by cell, and every register they leave, on any bus.
 */
module ControlMeaning {
  import opened Registers
  import opened Memory
  import opened Bus
  import opened BusHistory
  import opened Stack
  import opened Addressing
  import opened Instructions
  import opened OpcodeTable
  import opened Processor
  import opened Subroutines
  import opened InterruptNesting
  import opened InstructionReference
  import opened InstructionMeaning

  // ----- Pieces -----

  lemma StatusMeans(s: Status, v: Byte)
    ensures s.PlainCopy().Packed() == PushedStatus(s, 0) && s.BreakCopy().Packed() == PushedStatus(s, 1)
    ensures Pulled(v) == InstructionReference.PulledStatus(v)
  {
    assert Half(v) == v / 2;
    UnpackMeans(v);
  }

  lemma UnpackMeans(v: Byte)
    ensures Unpack(v) == Status(v / 0x80 % 2, v / 0x40 % 2, v / 0x20 % 2, v / 0x10 % 2, v / 8 % 2, v / 4 % 2, v / 2 % 2, v % 2)
  {
    assert v / 2 / 2 == v / 4 && v / 4 / 2 == v / 8 && v / 8 / 2 == v / 0x10;
    assert v / 0x10 / 2 == v / 0x20 && v / 0x20 / 2 == v / 0x40 && v / 0x40 / 2 == v / 0x80;
  }

  /** One byte on the stack: written where the pointer is, the pointer one down. */
  lemma PushMeans(st: State, v: Byte)
    ensures var st1 := Push8(st, v);
            && st1.bus.log == st.bus.log + [Store(Above(st.r.sp, 0), v)]
            && st1.r == st.r.(sp := (st.r.sp - 1) % 0x100)
  {
  }

  lemma PushWordMeans(st: State, w: Word)
    ensures var st1 := Push16(st, w);
            && st1.bus.log == st.bus.log + [Store(Above(st.r.sp, 0), w / 0x100), Store(Above(st.r.sp, -1), w % 0x100)]
            && st1.r == st.r.(sp := (st.r.sp - 2) % 0x100)
  {
    hide Push8;
    PushMeans(st, High(w));
    PushMeans(Push8(st, High(w)), Low(w));
    SpSteps(st.r.sp);
  }

  lemma SpSteps(sp: Byte)
    ensures ((sp - 1) % 0x100 - 1) % 0x100 == (sp - 2) % 0x100 && ((sp - 2) % 0x100 - 1) % 0x100 == (sp - 3) % 0x100
    ensures ((sp + 1) % 0x100 + 1) % 0x100 == (sp + 2) % 0x100 && ((sp + 2) % 0x100 + 1) % 0x100 == (sp + 3) % 0x100
    ensures ((sp + 1) % 0x100 + 2) % 0x100 == (sp + 3) % 0x100
    ensures sp % 0x100 == sp
  {
  }

  lemma PullMeans(st: State)
    ensures var p := Pop8(st);
            && p.st.bus.log == st.bus.log + [Load(Above(st.r.sp, 1), p.v)]
            && p.st.r == st.r.(sp := (st.r.sp + 1) % 0x100)
  {
    hide BusState.Value;
  }

  /** Two bytes off the stack, low byte first. */
  lemma PullWordMeans(st: State)
    ensures var p := Pop16(st);
            exists lo, hi :: PulledAs(st, p, lo, hi)
  {
    hide Pop8;
    var lo := Pop8(st);
    var hi := Pop8(lo.st);
    PullMeans(st);
    PullMeans(lo.st);
    SpSteps(st.r.sp);
    assert PulledAs(st, Pop16(st), lo.v, hi.v);
  }

  ghost predicate PulledAs(st: State, p: Pulled16, lo: Byte, hi: Byte) {
    && p.v == JoinBytes(lo, hi)
    && p.st.bus.log == st.bus.log + [Load(Above(st.r.sp, 1), lo), Load(Above(st.r.sp, 2), hi)]
    && p.st.r == st.r.(sp := (st.r.sp + 2) % 0x100)
  }

  // ----- Entry -----

  /** Return address high then low, status, and the vector low then high. */
  ghost predicate Enters(before: Regs, after: Regs, d: seq<Access>, ret: Word, status: Byte, vector: Word) {
    && |d| == 5
    && d[0] == Store(Above(before.sp, 0), ret / 0x100)
    && d[1] == Store(Above(before.sp, -1), ret % 0x100)
    && d[2] == Store(Above(before.sp, -2), status)
    && d[3].Load? && d[3].ad == vector
    && d[4].Load? && d[4].ad == vector + 1
    && after == before.(pc := JoinBytes(d[3].val, d[4].val), sp := (before.sp - 3) % 0x100, sr := before.sr.(i := 1))
  }

  /** On RAM the two vector bytes are those in memory once the frame has been written. */
  predicate VectorInMemory(bus: BusState, lo: Byte, hi: Byte, vector: Word) {
    bus.device.Ram? && vector < 0xffff ==> lo == Peek(bus.device.image, vector) && hi == Peek(bus.device.image, vector + 1)
  }

  lemma EntryGoes(st: State, ret: Word, status: Byte, vector: Word)
    requires vector < 0xffff
    ensures var st1 := EnterHandler(st, ret, status, vector);
            var d := Since(st.bus, st1.bus);
            && st.bus.log <= st1.bus.log
            && Enters(st.r, st1.r, d, ret, status, vector)
            && VectorInMemory(st1.bus, d[3].val, d[4].val, vector)
  {
    hide Push8, Push16, BusState.Value, VectorInMemory;
    var st2 := Push16(st, ret);
    var st3 := Push8(st2, status);
    PushWordMeans(st, ret);
    PushMeans(st2, status);
    SpSteps(st.r.sp);
    AboveAgain(st.r.sp);
    var d := Since(st.bus, EnterHandler(st, ret, status, vector).bus);
    assert Wrap(vector + 1) == vector + 1;
    assert d == [Store(Above(st.r.sp, 0), ret / 0x100), Store(Above(st.r.sp, -1), ret % 0x100), Store(Above(st.r.sp, -2), status),
                 Load(vector, st3.bus.Value(vector)), Load(vector + 1, st3.bus.Read(vector).Value(vector + 1))];
    VectorSeen(st3.bus, vector);
  }

  lemma VectorSeen(bus: BusState, vector: Word)
    requires vector < 0xffff
    ensures VectorInMemory(bus.ReadPair(vector, vector + 1), bus.Value(vector), bus.Read(vector).Value(vector + 1), vector)
  {
    hide Peek;
  }

  lemma AboveAgain(sp: Byte)
    ensures Above((sp - 2) % 0x100, 0) == Above(sp, -2) && Above((sp - 1) % 0x100, 0) == Above(sp, -1)
    ensures Above((sp + 1) % 0x100, 1) == Above(sp, 2) && Above((sp + 1) % 0x100, 2) == Above(sp, 3)
  {
  }

  /**
   At a boundary that takes an interrupt, on any bus: PC and the status with B clear are
   pushed, PC comes from $FFFA for an NMI and from $FFFE for an IRQ, I is set, and seven
   cycles are charged.
   */
  lemma InterruptEntryMeans(m: Machine)
    requires m.Choice() != TakeInstruction
    ensures var next := Step(m);
            var d := Since(m.st.bus, next.st.bus);
            var vector := if m.Choice() == TakeNmi then 0xFFFA else 0xFFFE;
            && m.st.bus.log <= next.st.bus.log
            && Enters(m.st.r, next.st.r, d, m.st.r.pc, PushedStatus(m.st.r.sr, 0), vector)
            && VectorInMemory(next.st.bus, d[3].val, d[4].val, vector)
            && next.cycles == m.cycles + 7
  {
    hide EnterHandler, Status.Packed, PushedStatus, Enters, VectorInMemory, Since;
    StatusMeans(m.st.r.sr, 0);
    EntryGoes(m.st, m.st.r.pc, m.st.r.sr.PlainCopy().Packed(), 0xFFFA);
    EntryGoes(m.st, m.st.r.pc, m.st.r.sr.PlainCopy().Packed(), 0xFFFE);
  }

  /** An executed BRK does the same through $FFFE, with B set and the byte after the opcode skipped. */
  lemma BreakMeans(m: Machine)
    requires m.Choice() == TakeInstruction && m.NextCode() == 0x00
    ensures var next := Step(m);
            var d := Since(m.st.bus, next.st.bus);
            && |d| == 6 && d[0] == Load(m.st.r.pc, 0x00)
            && Enters(m.st.r, next.st.r, d[1..], (m.st.r.pc + 2) % 0x1_0000, PushedStatus(m.st.r.sr, 1), 0xFFFE)
            && VectorInMemory(next.st.bus, d[4].val, d[5].val, 0xFFFE)
            && next.cycles == m.cycles + 7
  {
    hide RunInstruction, AfterFetch, EnterHandler, Status.Packed, PushedStatus, VectorInMemory, Enters;
    BrkIs(m.st);
    Fetched(m.st);
    StatusMeans(m.st.r.sr, 0);
    var st0 := AfterFetch(m.st);
    EntryGoes(st0, (m.st.r.pc + 2) % 0x1_0000, m.st.r.sr.BreakCopy().Packed(), 0xFFFE);
    var d := Since(m.st.bus, Step(m).st.bus);
    assert d[1..] == Since(st0.bus, Step(m).st.bus);
    EntersFrom(m.st.r, st0.r, Step(m).st.r, d[1..], (m.st.r.pc + 2) % 0x1_0000, PushedStatus(m.st.r.sr, 1), 0xFFFE);
  }

  lemma BrkIs(st: State)
    ensures var done := RunInstruction(st, 0x00);
            && done.st == EnterHandler(AfterFetch(st), (st.r.pc + 2) % 0x1_0000, st.r.sr.BreakCopy().Packed(), 0xFFFE)
            && done.cycles == 7
  {
    hide EnterHandler, Status.Packed, BusState.Read;
    assert Decode(0x00) == Opcode(Control(BRK), NullMode, 7);
    assert Wrap(Wrap(st.r.pc + 1) + 1) == (st.r.pc + 2) % 0x1_0000;
  }

  lemma Fetched(st: State)
    ensures var st0 := AfterFetch(st);
            && st0.r == st.r.(pc := (st.r.pc + 1) % 0x1_0000)
            && st0.bus.log == st.bus.log + [Load(st.r.pc, st.bus.Value(st.r.pc))]
  {
    hide BusState.Value;
  }

  /** An entry leaves PC wherever it was before to the vector. */
  lemma EntersFrom(r: Regs, r0: Regs, after: Regs, d: seq<Access>, ret: Word, status: Byte, vector: Word)
    requires Enters(r0, after, d, ret, status, vector) && r0 == r.(pc := r0.pc)
    ensures Enters(r, after, d, ret, status, vector)
  {
  }

  /**
   Reset: A, X, Y zero, SP $FD, only I and bit 5 set in the status, decimal mode present, PC
   from $FFFC, seven cycles, no interrupt pending, whatever was there before.
   */
  lemma ResetMeans(bus: BusState, before: bool)
    ensures var m := Reset(bus, before);
            var d := Since(bus, m.st.bus);
            && |d| == 2 && d[0].Load? && d[0].ad == 0xFFFC && d[1].Load? && d[1].ad == 0xFFFD
            && m.st.r == Regs(0, 0, 0, Status(0, 0, 1, 0, 0, 1, 0, 0), 0xFD, JoinBytes(d[0].val, d[1].val), false)
            && m.cycles == 7 && !m.nmiPending && !m.irqLine && !m.delayed
  {
    hide BusState.Value;
  }

  // ----- Jumps, calls and returns -----

  /** PHA and PHP: one write where the pointer is; SP one down, nothing else but PC. */
  lemma PushInstructionsMean(st: State)
    ensures var d, r := Traffic(st, 0x48), RunInstruction(st, 0x48).st.r;
            && |d| == 2 && d[1] == Store(Above(st.r.sp, 0), st.r.a)
            && r == st.r.(pc := (st.r.pc + 1) % 0x1_0000, sp := (st.r.sp - 1) % 0x100)
    ensures var d, r := Traffic(st, 0x08), RunInstruction(st, 0x08).st.r;
            && |d| == 2 && d[1] == Store(Above(st.r.sp, 0), PushedStatus(st.r.sr, 1))
            && r == st.r.(pc := (st.r.pc + 1) % 0x1_0000, sp := (st.r.sp - 1) % 0x100)
  {
    hide Push8, RunInstruction, Status.Packed, PushedStatus;
    PhaIs(st);
    PhpIs(st);
    StatusMeans(st.r.sr, 0);
    PushMeans(AfterFetch(st), st.r.a);
    PushMeans(AfterFetch(st), st.r.sr.BreakCopy().Packed());
  }

  /** PLA and PLP: one read above the pointer, into A with Z and N, or into the status. */
  lemma PullInstructionsMean(st: State)
    ensures var d, r := Traffic(st, 0x68), RunInstruction(st, 0x68).st.r;
            && |d| == 2 && d[1].Load? && d[1].ad == Above(st.r.sp, 1)
            && r == st.r.(a := d[1].val, sr := Signs(st.r.sr, d[1].val),
                          pc := (st.r.pc + 1) % 0x1_0000, sp := (st.r.sp + 1) % 0x100)
    ensures var d, r := Traffic(st, 0x28), RunInstruction(st, 0x28).st.r;
            && |d| == 2 && d[1].Load? && d[1].ad == Above(st.r.sp, 1)
            && r == st.r.(sr := InstructionReference.PulledStatus(d[1].val),
                          pc := (st.r.pc + 1) % 0x1_0000, sp := (st.r.sp + 1) % 0x100)
  {
    hide Pop8, RunInstruction, Unpack, Signs, Status.WithNZ, InstructionReference.PulledStatus, Registers.Pulled;
    PlaIs(st);
    PlpIs(st);
    var st0 := AfterFetch(st);
    PullMeans(st0);
    SignsMean(st.r.sr, Pop8(st0).v);
    StatusMeans(st.r.sr, Pop8(st0).v);
  }

  /** JMP: to the operand, or to what the operand points at, the high byte taken from the same page. */
  lemma JumpMeans(st: State)
    ensures var d, r := Traffic(st, 0x4C), RunInstruction(st, 0x4C).st.r;
            |d| == 3 && Leaves(r, st.r) && r.pc == JoinBytes(d[1].val, d[2].val)
    ensures var d, r := Traffic(st, 0x6C), RunInstruction(st, 0x6C).st.r;
            && |d| == 5 && d[3].Load? && d[4].Load?
            && (var w: int := JoinBytes(d[1].val, d[2].val);
                d[3].ad == w && d[4].ad == w / 0x100 * 0x100 + (w + 1) % 0x100)
            && Leaves(r, st.r) && r.pc == JoinBytes(d[3].val, d[4].val)
  {
    hide FetchOperand, BusState.Value;
    assert Decode(0x4C).op == Control(JMP) && Decode(0x4C).mode == AbsConst;
    assert Decode(0x6C).op == Control(JMP) && Decode(0x6C).mode == Indirect;
    hide AfterFetch, Decode;
    FetchLeaves(AbsConst, st);
    FetchedBytes(AbsConst, st);
    FetchLeaves(Indirect, st);
    FetchedBytes(Indirect, st);
  }

  /** JSR: the address of its own last byte pushed, high byte first, and PC at the operand. */
  lemma CallMeans(st: State)
    ensures var d, r := Traffic(st, 0x20), RunInstruction(st, 0x20).st.r;
            var last: int := (st.r.pc + 2) % 0x1_0000;
            && |d| == 5
            && d[3] == Store(Above(st.r.sp, 0), last / 0x100) && d[4] == Store(Above(st.r.sp, -1), last % 0x100)
            && r == st.r.(pc := JoinBytes(d[1].val, d[2].val), sp := (st.r.sp - 2) % 0x100)
  {
    hide FetchOperand, Push16, BusState.Value, Above, JoinBytes, AfterFetch, RunInstruction;
    JsrIs(st);
    FetchLeaves(AbsConst, st);
    FetchedBytes(AbsConst, st);
    var f := FetchOperand(AbsConst, AfterFetch(st));
    assert Wrap(f.st.r.pc - 1) == (st.r.pc + 2) % 0x1_0000;
    PushWordMeans(f.st, Wrap(f.st.r.pc - 1));
  }

  /** RTS: PC one past the word pulled. */
  lemma ReturnFromCallMeans(st: State)
    ensures var d, r := Traffic(st, 0x60), RunInstruction(st, 0x60).st.r;
            && |d| == 3
            && d[1].Load? && d[1].ad == Above(st.r.sp, 1) && d[2].Load? && d[2].ad == Above(st.r.sp, 2)
            && r == st.r.(pc := (JoinBytes(d[1].val, d[2].val) + 1) % 0x1_0000, sp := (st.r.sp + 2) % 0x100)
  {
    hide Pop16, Above, JoinBytes, RunInstruction, BusState.Value;
    RtsIs(st);
    var st0 := AfterFetch(st);
    PullWordMeans(st0);
    var p := Pop16(st0);
    var lo, hi :| PulledAs(st0, p, lo, hi);
    assert Since(st.bus, p.st.bus) == [Load(st.r.pc, st.bus.Value(st.r.pc)), Load(Above(st.r.sp, 1), lo), Load(Above(st.r.sp, 2), hi)];
    assert ReturnFromCall(st) == p.st.(r := p.st.r.(pc := Wrap(p.v + 1)));
  }

  /** RTI: the status pulled first, then PC, which is used as it is. */
  lemma ReturnFromInterruptMeans(st: State)
    ensures var d, r := Traffic(st, 0x40), RunInstruction(st, 0x40).st.r;
            && |d| == 4
            && d[1].Load? && d[1].ad == Above(st.r.sp, 1)
            && d[2].Load? && d[2].ad == Above(st.r.sp, 2) && d[3].Load? && d[3].ad == Above(st.r.sp, 3)
            && r == st.r.(sr := InstructionReference.PulledStatus(d[1].val), pc := JoinBytes(d[2].val, d[3].val),
                          sp := (st.r.sp + 3) % 0x100)
  {
    hide Pop8, Pop16, Unpack, InstructionReference.PulledStatus, Registers.Pulled, ReturnFromInterrupt;
    BreakAndReturn(st);
    hide RunInstruction;
    var st0 := AfterFetch(st);
    ReturnPulls(st0);
  }

  lemma ReturnPulls(st: State)
    ensures var st' := ReturnFromInterrupt(st);
            exists v, lo, hi :: ReturnedAs(st, st', v, lo, hi)
  {
    hide Pop8, Pop16, Unpack, InstructionReference.PulledStatus, Registers.Pulled;
    var s := Pop8(st);
    var st1 := s.st.(r := s.st.r.(sr := Pulled(s.v)));
    PullMeans(st);
    StatusMeans(st.r.sr, s.v);
    PullWordMeans(st1);
    var lo, hi :| PulledAs(st1, Pop16(st1), lo, hi);
    SpSteps(st.r.sp);
    AboveAgain(st.r.sp);
    assert ReturnedAs(st, ReturnFromInterrupt(st), s.v, lo, hi);
  }

  ghost predicate ReturnedAs(st: State, st': State, v: Byte, lo: Byte, hi: Byte) {
    && st'.bus.log == st.bus.log + [Load(Above(st.r.sp, 1), v), Load(Above(st.r.sp, 2), lo), Load(Above(st.r.sp, 3), hi)]
    && st'.r == st.r.(sr := InstructionReference.PulledStatus(v), pc := JoinBytes(lo, hi), sp := (st.r.sp + 3) % 0x100)
  }

  /** The NOPs without a read step over their operand and change nothing else. */
  lemma NopMeans(st: State, code: Byte)
    requires Decode(code).op == Control(NOP)
    ensures var mode, r := Decode(code).mode, RunInstruction(st, code).st.r;
            && |Traffic(st, code)| == 1 + mode.OperandLength()
            && Leaves(r, st.r) && r.pc == (st.r.pc + 1 + mode.OperandLength()) % 0x1_0000
  {
    hide Decode, FetchOperand, AfterFetch, BusState.Value;
    TableAllowed(code);
    FetchLeaves(Decode(code).mode, st);
    FetchedBytes(Decode(code).mode, st);
  }
}
