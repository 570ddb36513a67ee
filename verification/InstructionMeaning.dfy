/**
 Every instruction does what the reference says: the specification the interpreter is
 proved equal to, opcode by opcode, against the programmer's reference.
 */
module InstructionMeaning {
  import opened Registers
  import opened Bus
  import opened BusHistory
  import opened Stack
  import opened Arithmetic
  import opened Addressing
  import opened Instructions
  import opened OpcodeTable
  import opened Processor
  import opened AccessBudget
  import opened BitwiseMeaning
  import opened MultiByte
  import opened OperandAddresses
  import opened InstructionReference

  // ----- The effect of each operation -----

  lemma SignsMean(s: Status, v: Byte)
    ensures s.WithNZ(v) == Signs(s, v)
  {
  }

  lemma LogicMeans(x: Byte, y: Byte)
    ensures Conjunction(And(x, y), x, y) && Disjunction(Or(x, y), x, y) && Difference(Xor(x, y), x, y)
  {
    hide And, Or, Xor, BitAt;
    forall k | 0 <= k < 8
      ensures BitAt(And(x, y), k) == 1 <==> BitAt(x, k) == 1 && BitAt(y, k) == 1
      ensures BitAt(Or(x, y), k) == 1 <==> BitAt(x, k) == 1 || BitAt(y, k) == 1
      ensures BitAt(Xor(x, y), k) == 1 <==> BitAt(x, k) != BitAt(y, k)
    {
      BytewiseMeaning(x, y, k);
    }
  }

  lemma DisjointMeans(x: Byte, y: Byte)
    ensures And(x, y) == 0 <==> Disjoint(x, y)
  {
    hide And, BitAt;
    if And(x, y) == 0 {
      forall k | 0 <= k < 8
        ensures BitAt(x, k) == 0 || BitAt(y, k) == 0
      {
        NoCommonBit(x, y, k);
      }
    } else {
      var k := CommonBit(x, y);
      assert !(BitAt(x, k) == 0 || BitAt(y, k) == 0);
    }
  }

  lemma CompareMeans(s: Status, reg: Byte, v: Byte)
    ensures Cmp(s, reg, v) == Compared(s, reg, v)
  {
  }

  lemma BitsOf(n: nat)
    ensures Sign(n) == Flag(n % 0x100 >= 0x80) == n / 0x80 % 2
    ensures ZeroBit(n) == Flag(n % 0x100 == 0) && Low(n) == n % 0x100
  {
  }

  lemma SignOfByte(b: Byte)
    ensures Sign(b) == b / 0x80
  {
  }

  lemma AddMeans(r: Regs, v: Byte)
    ensures if DecimalOn(r) then DecimalSum(r, v, Adc(r, v)) else BinarySum(r, v, Adc(r, v))
  {
    if DecimalOn(r) {
      AddDecimalMeans(r, v);
    } else {
      AddBinaryMeans(r, v);
    }
  }

  lemma AddBinaryMeans(r: Regs, v: Byte)
    requires !Decimal(r)
    ensures BinarySum(r, v, Adc(r, v))
  {
    hide Low, Sign, ZeroBit;
    BitsOf(r.a + v + r.sr.c);
    BitsOf(Adc(r, v).a);
    OverflowOfSum(r, v);
  }

  lemma OverflowOfSum(r: Regs, v: Byte)
    requires !Decimal(r)
    ensures Adc(r, v).sr.v == Flag(Signed(r.a) + Signed(v) + r.sr.c < -128 || Signed(r.a) + Signed(v) + r.sr.c > 127)
  {
    hide Adc;
    AddMeaning(r, v);
  }

  lemma AddDecimalMeans(r: Regs, v: Byte)
    requires Decimal(r)
    ensures DecimalSum(r, v, Adc(r, v))
  {
    hide Adc, IsBcd, Bcd;
    if IsBcd(r.a) && IsBcd(v) {
      AddDecimalMeaning(r, v);
    }
    AddDecimalFields(r, v);
  }

  /** Both corrections, digit by digit of the code, for operands of any kind. */
  lemma AddDecimalFields(r: Regs, v: Byte)
    requires Decimal(r)
    ensures var total := r.a + v + r.sr.c;
            var half := if r.a % 0x10 + v % 0x10 + r.sr.c > 9 then total + 6 else total;
            var full := if half > 0x99 then half + 0x60 else half;
            var n := half / 0x80 % 2;
            Adc(r, v) == r.(a := full % 0x100,
                            sr := r.sr.(z := Flag(total % 0x100 == 0), n := n, c := Flag(full > 0x99),
                                        v := Flag(r.a / 0x80 == v / 0x80 && r.a / 0x80 != n)))
  {
    hide Low, Sign, ZeroBit, LowFixed, HighFixed;
    var total := r.a + v + r.sr.c;
    var half := LowFixed(r.a, v, r.sr.c);
    FixedMeans(r.a, v, r.sr.c);
    BitsOf(total);
    BitsOf(half);
    BitsOf(HighFixed(half));
    SignOfByte(r.a);
    SignOfByte(v);
  }

  /** The two corrections as plain additions: neither wraps. */
  lemma FixedMeans(a: Byte, v: Byte, c: Bit)
    ensures LowFixed(a, v, c) == if a % 0x10 + v % 0x10 + c > 9 then a + v + c + 6 else a + v + c
    ensures HighFixed(LowFixed(a, v, c)) == if LowFixed(a, v, c) > 0x99 then LowFixed(a, v, c) + 0x60 else LowFixed(a, v, c)
  {
  }

  lemma SubtractMeans(r: Regs, v: Byte)
    ensures if DecimalOn(r) then DecimalDifference(r, v, Sbc(r, v)) else BinaryDifference(r, v, Sbc(r, v))
  {
    if DecimalOn(r) {
      SubtractDecimalMeans(r, v);
    } else {
      SubtractBinaryMeans(r, v);
    }
  }

  lemma SubtractBinaryMeans(r: Regs, v: Byte)
    requires !Decimal(r)
    ensures BinaryDifference(r, v, Sbc(r, v))
  {
    hide Adc, Sbc;
    SubtractIsAddComplement(r, v);
    AddBinaryMeans(r, 0xff - v);
    ComplementSum(r.a - v - (1 - r.sr.c), v);
  }

  lemma ComplementSum(total: int, v: Byte)
    ensures (total + 0x100) % 0x100 == total % 0x100
    ensures Signed(0xff - v) == -1 - Signed(v)
  {
  }

  /** The flags of a decimal difference are those of the binary one. */
  lemma DifferenceFlags(r: Regs, v: Byte)
    ensures var total := r.a - v - (1 - r.sr.c);
            var raw := RawDifference(r.a, v, r.sr.c);
            && ZeroBit(raw) == Flag(total % 0x100 == 0) && Sign(raw) == Flag(total % 0x100 >= 0x80)
            && DifferenceOverflow(r.a, v, raw)
               == Flag(Signed(r.a) - Signed(v) - (1 - r.sr.c) < -128 || Signed(r.a) - Signed(v) - (1 - r.sr.c) > 127)
  {
    var plain := r.(sr := r.sr.(d := 0));
    assert Sbc(plain, v).sr.v == DifferenceOverflow(r.a, v, RawDifference(r.a, v, r.sr.c));
    hide Sbc, DifferenceOverflow;
    SubtractMeaning(plain, v);
    var total := r.a - v - (1 - r.sr.c);
    BitsOf(RawDifference(r.a, v, r.sr.c));
    WrapLow(total);
  }

  lemma WrapLow(n: int)
    ensures Wrap(n) % 0x100 == n % 0x100
    ensures Wrap(Wrap(n) - 6) == (n - 6) % 0x1_0000
  {
    var k := n / 0x1_0000;
    assert Wrap(n) == n - k * 0x1_0000;
    Shifted256(Wrap(n), 0x100 * k);
    ShiftedWord(Wrap(n) - 6, k);
  }

  lemma Shifted256(n: int, k: int)
    ensures (n + 0x100 * k) % 0x100 == n % 0x100
  {
  }

  lemma ShiftedWord(n: int, k: int)
    ensures (n + 0x1_0000 * k) % 0x1_0000 == n % 0x1_0000
  {
  }

  lemma SubtractDecimalMeans(r: Regs, v: Byte)
    requires Decimal(r)
    ensures DecimalDifference(r, v, Sbc(r, v))
  {
    hide Low, Sign, ZeroBit, IsBcd, Bcd, DifferenceOverflow, Signed;
    if IsBcd(r.a) && IsBcd(v) {
      SubtractDecimalMeaning(r, v);
    }
    DifferenceFlags(r, v);
    WrapLow(r.a - v - (1 - r.sr.c));
    BitsOf(HighRestored(LowRestored(r.a, v, r.sr.c)));
  }

  lemma TestMeans(s: Status, a: Byte, v: Byte)
    ensures TestBits(s, a, v) == s.(z := Flag(Disjoint(v, a)), n := Flag(v >= 0x80), v := Flag(v % 0x80 >= 0x40))
  {
    hide And, Disjoint;
    DisjointMeans(v, a);
  }

  lemma RotatedMeans(s: Status, a: Byte)
    ensures ArrStatus(s, a) == Signs(s, a).(c := a / 0x40 % 2, v := Flag(a / 0x40 % 2 != a / 0x20 % 2))
  {
  }

  lemma HalvedMeans(t: Byte)
    ensures Half(t) == t / 2 && Parity(t) == t % 2
  {
  }

  lemma LoadMeans(op: LoadOp, r: Regs, v: Byte)
    ensures LoadResult(op, r, v, LoadEffect(op, r, v))
  {
    hide Adc, Sbc, Cmp, Compared, And, Or, Xor, DecimalSum, DecimalDifference, BinarySum, BinaryDifference, DecimalOn;
    hide Conjunction, Disjunction, Difference, Disjoint, TestBits, ArrStatus, Half, Parity, Status.WithNZ, Signs, Sign, RotatedRight;
    var m, e := And(r.a, v), LoadEffect(op, r, v);
    SignsMean(r.sr, v);
    SignsMean(r.sr, e.a);
    SignsMean(r.sr, e.x);
    match op {
      case ADC => AddMeans(r, v);
      case SBC => SubtractMeans(r, v);
      case CMP => CompareMeans(r.sr, r.a, v);
      case CPX => CompareMeans(r.sr, r.x, v);
      case CPY => CompareMeans(r.sr, r.y, v);
      case AND | ORA | EOR => LogicMeans(r.a, v);
      case ANC =>
        LogicMeans(r.a, v);
        BitsOf(m);
      case BIT => TestMeans(r.sr, r.a, v);
      case ALR => HalvedMeans(m);
      case ARR => ArrMeans(r, v);
      case LDA | LDX | LDY | LAX | NOPR | SBX | LAS | XAA =>
    }
  }

  lemma ArrMeans(r: Regs, v: Byte)
    ensures LoadResult(ARR, r, v, LoadEffect(ARR, r, v))
  {
    hide And, ArrStatus, Signs;
    RotatedMeans(r.sr, RotatedRight(And(r.a, v), r.sr.c));
  }

  lemma BitsOfByte(orig: Byte)
    ensures Sign(orig) == Flag(orig >= 0x80) && Parity(orig) == orig % 2 && Half(orig) == orig / 2
  {
  }

  lemma ShiftedMeans(op: ModifyOp, s: Status, orig: Byte)
    ensures Modified(op, s, orig) == NewByte(op, s.c, orig)
  {
  }

  lemma ModifyMeans(op: ModifyOp, r: Regs, orig: Byte)
    ensures var v := Modified(op, r.sr, orig);
            ModifyResult(op, r, orig, v, Accumulated(op, r.(sr := ModifiedStatus(op, r.sr, orig)), v))
  {
    hide Modified, NewByte, Half, Parity, Sign, Adc, Sbc, Cmp, OrA, AndA, XorA, Status.WithNZ, Signs, LoadResult;
    var v := Modified(op, r.sr, orig);
    var r1 := r.(sr := r.sr.(c := NewCarry(op, r.sr.c, orig)));
    ShiftedMeans(op, r.sr, orig);
    BitsOfByte(orig);
    SignsMean(r1.sr, v);
    LoadMeans(ORA, r1, v);
    LoadMeans(AND, r1, v);
    LoadMeans(EOR, r1, v);
    LoadMeans(ADC, r1, v);
    LoadMeans(CMP, r1, v);
    LoadMeans(SBC, r1, v);
  }

  lemma StoreMeans(op: StoreOp, r: Regs)
    ensures Stored(op, r, StoreValue(op, r))
  {
    hide And, Conjunction;
    LogicMeans(r.a, r.x);
  }

  lemma CountMeans(n: Byte)
    ensures Low(n + 1) == (n + 1) % 0x100 && Low(n - 1) == (n + 0xff) % 0x100
  {
  }

  lemma RegisterMeans(op: RegisterOp, r: Regs)
    ensures RegisterResult(op, r, RegisterEffect(op, r))
    ensures RegisterEffect(op, r).pc == if op.KIL? then Wrap(r.pc - 1) else r.pc
  {
    hide Low, Status.WithNZ, Signs;
    CountMeans(r.x);
    CountMeans(r.y);
    SignsMean(r.sr, Low(r.x + 1));
    SignsMean(r.sr, Low(r.y + 1));
    SignsMean(r.sr, Low(r.x - 1));
    SignsMean(r.sr, Low(r.y - 1));
    SignsMean(r.sr, r.a);
    SignsMean(r.sr, r.x);
    SignsMean(r.sr, r.y);
    SignsMean(r.sr, r.sp);
  }

  // ----- Opcode by opcode -----

  /** What the run of one instruction adds to the log. */
  function Traffic(st: State, code: Byte): seq<Access> {
    Since(st.bus, RunInstruction(st, code).st.bus)
  }

  /** The k-th access from the end. */
  function FromEnd(d: seq<Access>, k: nat): Access
    requires 1 <= k <= |d|
  {
    d[|d| - k]
  }

  lemma BinarySumApart(r: Regs, q: Regs, v: Byte, r': Regs)
    requires Leaves(q, r)
    ensures BinarySum(q, v, r') == BinarySum(r, v, r')
  {
    hide IsBcd, Bcd, Signed, Flag, Signs;
    assert q == r.(pc := q.pc);
    assert q.a == r.a && q.sr == r.sr;
  }

  lemma BinaryDifferenceApart(r: Regs, q: Regs, v: Byte, r': Regs)
    requires Leaves(q, r)
    ensures BinaryDifference(q, v, r') == BinaryDifference(r, v, r')
  {
    hide IsBcd, Bcd, Signed, Flag, Signs;
    assert q == r.(pc := q.pc);
    assert q.a == r.a && q.sr == r.sr;
  }

  lemma DecimalSumApart(r: Regs, q: Regs, v: Byte, r': Regs)
    requires Leaves(q, r)
    ensures DecimalSum(q, v, r') == DecimalSum(r, v, r')
  {
    hide IsBcd, Bcd, Signed, Flag, Signs;
    assert q == r.(pc := q.pc);
    assert q.a == r.a && q.sr == r.sr;
  }

  lemma DecimalDifferenceApart(r: Regs, q: Regs, v: Byte, r': Regs)
    requires Leaves(q, r)
    ensures DecimalDifference(q, v, r') == DecimalDifference(r, v, r')
  {
    hide IsBcd, Bcd, Signed, Flag, Signs;
    assert q == r.(pc := q.pc);
    assert q.a == r.a && q.sr == r.sr;
  }

  lemma LoadApart(op: LoadOp, r: Regs, q: Regs, v: Byte, r': Regs)
    requires Leaves(q, r)
    ensures LoadResult(op, q, v, r') == LoadResult(op, r, v, r')
  {
    hide And, Or, Signs, Compared, Flag, Conjunction, Disjunction, Difference, Disjoint;
    hide BinarySum, BinaryDifference, DecimalSum, DecimalDifference;
    BinarySumApart(r, q, v, r');
    BinaryDifferenceApart(r, q, v, r');
    DecimalSumApart(r, q, v, r');
    DecimalDifferenceApart(r, q, v, r');
  }

  lemma FinishApart(op: ModifyOp, r: Regs, q: Regs, v: Byte, r': Regs)
    requires Leaves(q, r)
    ensures Finish(op, q, v, r') == Finish(op, r, v, r')
  {
    hide LoadResult, Signs;
    LoadApart(ORA, r, q, v, r');
    LoadApart(AND, r, q, v, r');
    LoadApart(EOR, r, q, v, r');
    LoadApart(ADC, r, q, v, r');
    LoadApart(CMP, r, q, v, r');
    LoadApart(SBC, r, q, v, r');
  }

  lemma FetchLeaves(mode: Mode, st: State)
    ensures var f := FetchOperand(mode, AfterFetch(st)).st;
            && Leaves(f.r, st.r) && f.r.pc == (st.r.pc + 1 + mode.OperandLength()) % 0x1_0000
            && st.bus.log < f.bus.log
            && (mode.OperandLength() == 0 ==> f == AfterFetch(st))
  {
    hide BusState.Value;
    NextAddresses(st.r.pc);
    assert Wrap(Wrap(st.r.pc + 1) + 2) == (st.r.pc + 3) % 0x1_0000;
  }

  /** The byte a load is given is the last thing read. */
  lemma LoadedLast(mode: Mode, st: State)
    requires mode.Addresses() || mode.Immediate?
    ensures var f := FetchOperand(mode, AfterFetch(st));
            var l := LoadOperand(mode, f.st.r, f.st.bus, f.operand);
            var log := l.bus.log;
            st.bus.log < log && log[|log| - 1].Load? && log[|log| - 1].val == l.v
  {
    FetchLeaves(mode, st);
    var f := FetchOperand(mode, AfterFetch(st));
    if mode.Immediate? {
      LowOfByte(st.bus.Read(st.r.pc).Value(Wrap(st.r.pc + 1)));
    } else {
      LoadOperandGrows(mode, f.st.r, f.st.bus, f.operand);
    }
  }

  lemma LowOfByte(b: Byte)
    ensures Low(b) == b
  {
  }

  lemma LoadOperandGrows(mode: Mode, r: Regs, bus: BusState, operand: Word)
    requires mode.Addresses()
    ensures var l := LoadOperand(mode, r, bus, operand);
            var log := l.bus.log;
            bus.log < log && log[|log| - 1].Load? && log[|log| - 1].val == l.v
  {
    hide Effective, DummyAddress, Crosses, BusState.Value;
  }

  /**
   A load, for every opcode, state and bus: the registers are what the reference makes of the
   last byte read, and PC is past the instruction.
   */
  lemma LoadInstructionMeans(st: State, code: Byte)
    requires Decode(code).op.Loading?
    ensures var e, d, r := Decode(code), Traffic(st, code), RunInstruction(st, code).st.r;
            && d != [] && FromEnd(d, 1).Load?
            && LoadResult(e.op.l, st.r, FromEnd(d, 1).val, r)
            && r.pc == (st.r.pc + 1 + e.mode.OperandLength()) % 0x1_0000
  {
    hide Decode, LoadEffect, LoadResult, LoadOperand, FetchOperand, AfterFetch;
    TableAllowed(code);
    TableLoads(code);
    var e := Decode(code);
    var f := FetchOperand(e.mode, AfterFetch(st));
    var l := LoadOperand(e.mode, f.st.r, f.st.bus, f.operand);
    FetchLeaves(e.mode, st);
    LoadedLast(e.mode, st);
    LoadMeans(e.op.l, f.st.r, l.v);
    LoadPc(e.op.l, f.st.r, l.v);
    LoadApart(e.op.l, st.r, f.st.r, l.v, LoadEffect(e.op.l, f.st.r, l.v));
  }

  lemma LoadPc(op: LoadOp, r: Regs, v: Byte)
    ensures LoadEffect(op, r, v).pc == r.pc
  {
    hide And, Or, Xor, RawSum, RawDifference, LowFixed, LowRestored, HighFixed, HighRestored, Cmp;
  }

  lemma TableLoads(code: Byte)
    requires Decode(code).op.Loading?
    ensures var m := Decode(code).mode; m.Addresses() || m.Immediate?
  {
    hide Decode;
    if code < 0x40 {
      TableFirstLoads(code);
    } else if code < 0x80 {
      TableLowLoads(code);
    } else {
      TableHighLoads(code);
    }
  }

  lemma FetchedBytes(mode: Mode, st: State)
    ensures var f := FetchOperand(mode, AfterFetch(st));
            var bus, n := f.st.bus, |st.bus.log|;
            && bus.device == st.bus.device
            && st.bus.log < bus.log && |bus.log| == n + 1 + mode.OperandLength()
            && bus.log[n] == Load(st.r.pc, st.bus.Value(st.r.pc))
            && (mode.OperandLength() >= 1 ==> bus.log[n + 1].Load? && bus.log[n + 1].ad == (st.r.pc + 1) % 0x1_0000)
            && (mode.OperandLength() == 2 ==> bus.log[n + 2].Load? && bus.log[n + 2].ad == (st.r.pc + 2) % 0x1_0000)
            && (mode.OperandLength() == 1 ==> f.operand == bus.log[n + 1].val)
            && (mode.OperandLength() == 2 ==> f.operand == JoinBytes(bus.log[n + 1].val, bus.log[n + 2].val))
  {
    hide BusState.Value, Wrap;
    NextAddresses(st.r.pc);
  }

  /** A store: the last access writes the register the operation names, and every register keeps its value. */
  lemma StoreInstructionMeans(st: State, code: Byte)
    requires Decode(code).op.Storing?
    ensures var e, d, r := Decode(code), Traffic(st, code), RunInstruction(st, code).st.r;
            && d != [] && FromEnd(d, 1).Store?
            && Stored(e.op.s, st.r, FromEnd(d, 1).val)
            && Leaves(r, st.r) && r.pc == (st.r.pc + 1 + e.mode.OperandLength()) % 0x1_0000
  {
    hide Decode, FetchOperand, StoreApproach, Target, Stored, AfterFetch, BusState.Value;
    TableAllowed(code);
    TableStores(code);
    var e := Decode(code);
    var f := FetchOperand(e.mode, AfterFetch(st));
    FetchLeaves(e.mode, st);
    StoreMeans(e.op.s, f.st.r);
    StoredApart(e.op.s, st.r, f.st.r, StoreValue(e.op.s, f.st.r));
    ApproachGrows(e.mode, f.st.r, f.st.bus, f.operand);
  }

  lemma StoredApart(op: StoreOp, r: Regs, q: Regs, v: Byte)
    requires Leaves(q, r)
    ensures Stored(op, q, v) == Stored(op, r, v)
  {
  }

  lemma ApproachGrows(mode: Mode, r: Regs, bus: BusState, operand: Word)
    ensures bus.log <= StoreApproach(mode, r, bus, operand).log
  {
    hide DummyAddress, BusState.Value;
  }

  /**
   A read-modify-write in memory: of the last three accesses the first reads the original
   byte, the second writes it back and the third writes what the reference makes of it; the
   registers are what the reference leaves.
   */
  lemma ModifyInstructionMeans(st: State, code: Byte)
    requires Decode(code).op.Modifying? && !Decode(code).mode.Accumulator?
    ensures var e, d, r := Decode(code), Traffic(st, code), RunInstruction(st, code).st.r;
            && |d| >= 3
            && FromEnd(d, 3).Load? && FromEnd(d, 2).Store? && FromEnd(d, 1).Store?
            && FromEnd(d, 2).val == FromEnd(d, 3).val
            && ModifyResult(e.op.m, st.r, FromEnd(d, 3).val, FromEnd(d, 1).val, r)
            && r.pc == (st.r.pc + 1 + e.mode.OperandLength()) % 0x1_0000
  {
    hide Decode, FetchOperand, StoreApproach, Target, ModifyResult, AfterFetch, BusState.Value, Modified, ModifiedStatus, Accumulated;
    TableAllowed(code);
    TableModifies(code);
    var e := Decode(code);
    var f := FetchOperand(e.mode, AfterFetch(st));
    FetchLeaves(e.mode, st);
    ApproachGrows(e.mode, f.st.r, f.st.bus, f.operand);
    var orig := StoreApproach(e.mode, f.st.r, f.st.bus, f.operand).Value(Target(e.mode, f.st.r, f.st.bus, f.operand));
    ModifyMeans(e.op.m, f.st.r, orig);
    ModifyApart(e.op.m, st.r, f.st.r, orig);
  }

  lemma ModifyApart(op: ModifyOp, r: Regs, q: Regs, orig: Byte)
    requires Leaves(q, r)
    ensures var v := Modified(op, q.sr, orig);
            var r' := Accumulated(op, q.(sr := ModifiedStatus(op, q.sr, orig)), v);
            && ModifyResult(op, q, orig, v, r') == ModifyResult(op, r, orig, v, r')
            && r'.pc == q.pc
  {
    hide Finish, NewByte, NewCarry, Modified, ModifiedStatus, LoadEffect;
    var v := Modified(op, q.sr, orig);
    var q1 := q.(sr := ModifiedStatus(op, q.sr, orig));
    var c := NewCarry(op, r.sr.c, orig);
    FinishApart(op, r.(sr := r.sr.(c := c)), q.(sr := q.sr.(c := c)), v, Accumulated(op, q1, v));
    AccumulatedKeepsPc(op, q1, v);
  }

  lemma AccumulatedKeepsPc(op: ModifyOp, r: Regs, v: Byte)
    ensures Accumulated(op, r, v).pc == r.pc
  {
    hide And, Or, Xor, RawSum, RawDifference, LowFixed, LowRestored, HighFixed, HighRestored, Cmp;
  }

  /** In accumulator mode A itself is the byte, and nothing but the opcode is read. */
  lemma AccumulatorInstructionMeans(st: State, code: Byte)
    requires Decode(code).op.Modifying? && Decode(code).mode.Accumulator?
    ensures var op, r := Decode(code).op.m, RunInstruction(st, code).st.r;
            var v := NewByte(op, st.r.sr.c, st.r.a);
            && |Traffic(st, code)| == 1
            && Leaves(r, st.r.(a := v, sr := Signs(st.r.sr, v).(c := NewCarry(op, st.r.sr.c, st.r.a))))
            && r.pc == (st.r.pc + 1) % 0x1_0000
  {
    hide Decode, Modified, NewByte, NewCarry, Signs, BusState.Value, AfterFetch;
    TableAllowed(code);
    TableAccumulator(code);
    FetchLeaves(Accumulator, st);
    FetchedBytes(Accumulator, st);
    var op, st0 := Decode(code).op.m, AfterFetch(st);
    AccumulatorMeans(op, st0, Decode(code).cycles);
  }

  lemma AccumulatorMeans(op: ModifyOp, st: State, cycles: int)
    requires op in {ASL, LSR, ROL, ROR}
    ensures var v := NewByte(op, st.r.sr.c, st.r.a);
            ExecuteModify(op, Accumulator, cycles, st).st
            == State(st.r.(a := v, sr := Signs(st.r.sr, v).(c := NewCarry(op, st.r.sr.c, st.r.a))), st.bus)
  {
    hide Modified, NewByte, Half, Parity, Sign, Status.WithNZ;
    ShiftedMeans(op, st.r.sr, st.r.a);
    BitsOfByte(st.r.a);
    var c, v := NewCarry(op, st.r.sr.c, st.r.a), NewByte(op, st.r.sr.c, st.r.a);
    SignsMean(st.r.sr.(c := c), v);
    assert Signs(st.r.sr.(c := c), v) == Signs(st.r.sr, v).(c := c);
  }

  lemma TableAccumulator(code: Byte)
    requires Decode(code).op.Modifying? && Decode(code).mode.Accumulator?
    ensures Decode(code).op.m in {ASL, LSR, ROL, ROR}
  {
  }

  /** Operations on registers alone: what the reference says, PC past the opcode, or on it again for KIL. */
  lemma RegisterInstructionMeans(st: State, code: Byte)
    requires Decode(code).op.OnRegisters?
    ensures var op, r := Decode(code).op.r, RunInstruction(st, code).st.r;
            && |Traffic(st, code)| == 1
            && RegisterResult(op, st.r, r)
            && r.pc == if op.KIL? then st.r.pc else (st.r.pc + 1) % 0x1_0000
  {
    hide Decode, RegisterEffect, RegisterResult, BusState.Value;
    TableAllowed(code);
    var op, st0 := Decode(code).op.r, AfterFetch(st);
    RegisterMeans(op, st0.r);
    RegisterApart(op, st.r, st0.r, RegisterEffect(op, st0.r));
    assert Wrap(Wrap(st.r.pc + 1) - 1) == st.r.pc;
  }

  lemma RegisterApart(op: RegisterOp, r: Regs, q: Regs, r': Regs)
    requires Leaves(q, r)
    ensures RegisterResult(op, q, r') == RegisterResult(op, r, r')
  {
    hide Signs;
  }

  /** The unstable stores, as the code has them: no unfinished read, the high byte plus one ANDed in. */
  lemma UnstableInstructionMeans(st: State, code: Byte)
    requires Decode(code).op.Unstable?
    ensures var e, d, r := Decode(code), Traffic(st, code), RunInstruction(st, code).st.r;
            && |d| >= 3 && FromEnd(d, 1).Store?
            && (var base := if e.mode.IndirectY? then PointerIn(d) else OperandIn(e.mode, d);
                var src := match e.op.u case SHX => st.r.x case SHY => st.r.y case _ => And(st.r.a, st.r.x);
                FromEnd(d, 1).val == And(src, (base / 0x100 + 1) % 0x100))
            && Leaves(r, if e.op.u.TAS? then st.r.(sp := And(st.r.a, st.r.x)) else st.r)
            && r.pc == (st.r.pc + 1 + e.mode.OperandLength()) % 0x1_0000
  {
    hide Decode, FetchOperand, Effective, And, AfterFetch, BusState.Value;
    TableAllowed(code);
    TableSmall(code);
    var e := Decode(code);
    var f := FetchOperand(e.mode, AfterFetch(st));
    FetchLeaves(e.mode, st);
    var end := RunInstruction(st, code).st.bus;
    var r := if e.op.u.TAS? then f.st.r.(sp := UnstableSource(e.op.u, f.st.r)) else f.st.r;
    SamePlaces(e.mode, r, f.st.r, f.st.bus, f.operand);
    hide Pointer;
    PointerSeen(e.mode, f.st.r, f.st.bus, f.operand);
    Seen(e.mode, st, end);
  }

  // ----- Branches -----

  lemma TableBranches(code: Byte)
    requires code % 0x20 == 0x10
    ensures var e := Decode(code);
            && e.mode == Relative && e.cycles == 2
            && e.op == Branching(match code / 0x20 case 0 => BPL case 1 => BMI case 2 => BVC case 3 => BVS
                                                   case 4 => BCC case 5 => BCS case 6 => BNE case _ => BEQ)
  {
  }

  /**
   A branch is taken exactly when the flag its opcode names has the value its opcode wants;
   it then goes to the displaced address and costs one cycle more, two when that lies in
   another page. Nothing but PC changes.
   */
  lemma BranchInstructionMeans(st: State, code: Byte)
    requires code % 0x20 == 0x10
    ensures var d, done := Traffic(st, code), RunInstruction(st, code);
            var next: Word := (st.r.pc + 2) % 0x1_0000;
            && |d| == 2 && d[1].Load? && d[1].ad == (st.r.pc + 1) % 0x1_0000
            && Leaves(done.st.r, st.r)
            && (var target := Displaced(next, d[1].val);
                if BranchFlag(code, st.r.sr) == code / 0x20 % 2 then
                  done.st.r.pc == target && done.cycles == if target / 0x100 == next / 0x100 then 3 else 4
                else
                  done.st.r.pc == next && done.cycles == 2)
  {
    hide Decode, BusState.Value, FetchOperand;
    TableAllowed(code);
    TableBranches(code);
    FetchLeaves(Relative, st);
    FetchedBytes(Relative, st);
    var f := FetchOperand(Relative, AfterFetch(st));
    LowOfByte(f.operand);
    hide AfterFetch;
    TakenMeans(code, st.r.sr, Decode(code).op.b);
  }

  lemma TakenMeans(code: Byte, s: Status, op: BranchOp)
    requires op == match code / 0x20 case 0 => BPL case 1 => BMI case 2 => BVC case 3 => BVS
                                     case 4 => BCC case 5 => BCS case 6 => BNE case _ => BEQ
    ensures BranchTaken(op, s) <==> BranchFlag(code, s) == code / 0x20 % 2
  {
    assert code / 0x40 == code / 0x20 / 2;
  }
}
