# A verified model of the 6502 core

This project models a MOS 6502 emulator: the register file, the bus and the RAM behind it,
the addressing modes, all 256 opcodes as operation × addressing mode × base cost, the
interpreter with its latched NMI, level IRQ and delayed interrupt mask, the reset sequence,
the disassembler, the one-pass assembler, and the clock that paces the host.

Run `dafny verify dfyconfig.toml`.

## How it is built

There are two layers. The objects the program updates in place are classes
(`RegisterFile`, `Ram`, `SystemBus`, `Params`, `Cpu`, `CycleClock`, `PrecisionClock`,
`Asm`), and their methods do what the program does, in its order, with its flags for
remembering what has already been put on the bus. Each method is proved equal to a function
on values (`Execute`, `Step`, `Assemble`, …), and the properties are lemmas about those
functions and about whole runs of them.

| file | what it holds |
|---|---|
| `Registers.dfy`, `BitwiseMeaning.dfy` | 8- and 16-bit widths with wrap-around, the status byte, AND/OR/EOR bit by bit |
| `Memory.dfy`, `Bus.dfy`, `BusHistory.dfy` | RAM in pages, the bus with its log of accesses, memory as the replay of that log |
| `Stack.dfy` | push and pull on page 1, and the ring as an ordinary stack |
| `Arithmetic.dfy`, `MultiByte.dfy`, `Shifts.dfy` | the adder and shifter, one byte and n bytes, binary and decimal |
| `Addressing.dfy`, `Instructions.dfy`, `OpcodeTable.dfy`, `Processor.dfy` | addressing modes, operations, the matrix, the interpreter and reset |
| `InstructionReference.dfy`, `InstructionMeaning.dfy`, `ControlMeaning.dfy` | an independent reference of the instruction set, and every opcode against it |
| `OperandAddresses.dfy`, `OpcodeNames.dfy` | every address an instruction puts on the bus in plain arithmetic, and the matrix against the disassembler's names |
| `AccessBudget.dfy`, `BusTraffic.dfy`, `FusedOperations.dfy` | accesses against cycles, exact traffic, the undocumented fused operations |
| `StatusBits.dfy`, `InterruptHistory.dfy` | the interrupt protocol against a history |
| `Subroutines.dfy`, `InterruptNesting.dfy`, `StackDiscipline.dfy` | calls, saves and interrupts nested in each other, as activities and over runs |
| `Mnemonics.dfy`, `Disassembler.dfy`, `StraightLine.dfy` | the disassembler, and a listing against the running machine |
| `Scanner.dfy`, `OperandGrammar.dfy`, `Assembler.dfy` | the assembler, and its scanner against the regular expression |
| `RoundTrip.dfy`, `SourceRoundTrip.dfy`, `SourceText.dfy` | disassembling then assembling, the other way round, and source text in general |
| `PacingClock.dfy` | the clocks |

Main results:

- **Instruction set.** Every one of the 256 opcodes does what a reference written without
  any of the executing functions says, on any bus: the operation is the one the
  disassembler's table names (`OpcodeNames.TablesAgree`); a memory instruction puts exactly
  the stated cells on the bus, with X or Y added where and how the mode wants
  (`OperandAddresses.InstructionGoes`); and the registers, flags, stored bytes, branch
  decisions, stack traffic and vectors are those of the reference, as functions of what the
  log shows was read (`InstructionMeaning`, `ControlMeaning`).
- **Access budget.** For every opcode, register state and bus (its reads may return
  anything) the cycles charged minus the accesses made are a slack fixed by the opcode,
  plus the taken-branch extra; so on every run, interrupts included, accesses never exceed
  cycles (`AccessBudget.InstructionBudget`, `AccessBudget.BudgetFromReset`).
- **Interrupts.** What the two delay fields make the processor do at a boundary is what a
  specification over the history of calls, entries and instructions says is due, for every
  run and interleaving (`InterruptHistory.DoesWhatIsDue`). Between two IRQ entries some
  CLI, PLP or RTI left I clear; NMIs are neither lost nor duplicated; the response is
  bounded.
- **Nesting.** Over any run of the processor, from an entry to the RTI that meets it, PC, SR
  and SP are restored, with registers saved, subroutines called and further interrupts taken
  anywhere in between, as long as everything fits the ring and other code keeps off its live
  part (`StackDiscipline.HandlerResumes`). Entries alone nest up to 85 deep, from any stack
  pointer and in RAM of any size.
- **Round trip.** Listing a program and assembling the listing gives the program back if
  and only if every instruction is documented (`RoundTrip.ProgramReadsBack`); and any source
  text that assembles, disassembled and assembled again, gives the same image
  (`SourceRoundTrip.SourceReadsBack`).
- **Arithmetic.** n-byte binary and packed-BCD sums and differences, with carry and
  overflow, and the decimal chains undo each other.
- **Listings.** The disassembler starts its lines exactly where a straight-line run of the
  processor fetches its instructions.
- **Pacing.** Elapsed time is never less than the cycle budgets from the start of the run,
  and from the middle of it by at most 50 ms.

Two of the properties one would expect turned out to need a condition:

- `CLI; SEI` from a masked state with the line held lets the one IRQ in directly after SEI if
  and only if I is set (`InterruptHistory.CliSeiTakesExactlyOne`). Being effectively masked
  is not enough: after an earlier CLI that is still in flight the IRQ comes in before SEI,
  and `InterruptHistory.CliInFlight` is a run from reset that does this.
- A status byte survives PHP and PLP exactly when B is clear and bit 5 set in it
  (`Subroutines.StatusSaved`); every run from reset keeps it so
  (`StatusBits.NormalFromReset`), but a caller who writes `sr` directly can break it.

Where the code and its documentation disagree the model follows the code: `start()` charges
7 cycles and sets I (src/I6502Emulator.cpp:35,40, against
include/6502cc/I6502Emulator.h:46,52); parameter objects are locals
(against include/6502cc/emu_processor.h:19-22); branch displacements and conventional
indirect syntax assemble (against include/6502cc/asm.h:21-24); unfinished addresses are
read (against docs/nes-roadmap.md:90). `start()` zeroes the whole register structure, so a
chip without decimal mode is one again only after the flag is set anew; statements about
the missing decimal mode are therefore about stepping.

Modelling decisions:

- `uint8` and `uint16` are integers with bounds; every truncation is written as `Low` or
  `Wrap`. `int` is unbounded.
- In `read(lo) | (read(hi) << 8)` the order of the two reads is unspecified in C++; the
  model reads the low byte first. The number of accesses does not depend on the order, nor does
  anything read from RAM.
- A bus subclass is a `Device` whose answer is any function of the address and of
  everything that has happened on the bus before.
- The structs of src/parameters.h are one class `Params` with a mode; the fields a mode does
  not have stay at their initial values.
- The status register is a record of eight bits with its packed byte (`Registers.PackUnpack`).
- `nmi()` and `irq()` are events between steps; the run loop is given the number of steps
  after which somebody asks it to pause.
- The assembler's regular expression is a left-to-right scanner over its capture groups in
  which every group takes as much as it can. `OperandGrammar` states the expression as a
  relation and proves that the scanner accepts the same lines and captures what the first
  match in backtracking order captures.
- Time is an integer number of nanoseconds, each reading of the host clock is given, and
  so is each call's budget.
- `MultiByte` chains model the usual loop of load, ADC or SBC, store over the bytes of two
  numbers.

## Model

| member | source | states |
|---|---|---|
| `Registers.PackUnpack` | include/6502cc/emu_base.h:23-32 | a status byte and its eight flags determine each other |
| `Registers.PulledStatus` | src/InstructionImpl.h:557-565 | a pushed status pulled again (B dropped, bit 5 forced) is the original exactly when B was clear and bit 5 set in it |
| `Registers.JoinSplit` | src/parameters.h:27-31 | splitting a word into bytes and joining them low byte first are inverse |
| `Registers.RegisterFile.SetNZ` | src/InstructionImpl.h:29-32 | Z is whether the byte is zero, N its bit 7, no other flag changes |
| `Registers.RegisterFile.Clear` | src/I6502Emulator.cpp:32 | every field is zero, `decimalDisabled` included |
| `BitwiseMeaning.BytewiseMeaning` | src/InstructionImpl.h:142-152 | AND, OR and EOR of bytes have on each bit the conjunction, disjunction and difference of the operands' bits |
| `Memory.Ram.constructor` | src/Memory.cpp:20-23 | at least one page, zeroed |
| `Memory.Ram.CheckAddress` | src/Memory.cpp:14-18 | every address lands inside the block, at its remainder by the size |
| `Memory.Ram.Read` | src/Memory.cpp:49-51 | a read returns the byte at the wrapped address and changes nothing |
| `Memory.Ram.Write` | src/Memory.cpp:46-48 | a write changes the byte at the wrapped address and no other |
| `Memory.Ram.Load` | src/Memory.cpp:31-37 | a bulk write replaces exactly the part of the block that the clamped length covers; a null source, a length of zero or less and an offset beyond the end change nothing |
| `Memory.Ram.Dump` | src/Memory.cpp:38-44 | a bulk read fills exactly the clamped prefix of the destination |
| `Memory.LoadThenDump` | src/Memory.cpp:31-44 | a buffer loaded and dumped at one offset comes back, as far as it fits |
| `Bus.SystemBus.Read` | src/emu_bus.cpp:22-26 | the value of the connected RAM, 0 when unconnected, the device's answer otherwise; the access is logged |
| `Bus.SystemBus.Write` | src/emu_bus.cpp:27-30 | RAM takes the byte, an unconnected bus drops it; the access is logged |
| `Bus.SystemBus.ReadWord` | src/I6502Emulator.cpp:36 | two reads, low byte first |
| `BusHistory.MemoryIsReplay` | src/Processor.cpp:320-353 | over every run the memory is the initial one with the logged stores replayed in order, and a device that is not RAM is only spoken to through the log |
| `BusHistory.UnstoredCell` | src/Memory.cpp:46-48 | a cell no logged store reaches, whatever mirror it uses, keeps its byte |
| `Stack.PushByte` | src/Memory.cpp:61-64 | the byte is written at the pointer in page 1 and the pointer steps down, wrapping |
| `Stack.PushWord` | src/Memory.cpp:65-70 | pushing a word is pushing its high and then its low byte |
| `Stack.PullByte` | src/Memory.cpp:72-75 | the pointer steps up, wrapping, and the byte there is read |
| `Stack.PullWord` | src/Memory.cpp:76-81 | pulling a word is pulling its low and then its high byte |
| `Stack.CellSlot` | src/Memory.cpp:14-18 | page 1 is one page of every block, and page 0 when there is only one |
| `Stack.PushHolds` | src/Memory.cpp:61-64 | a push adds one live byte on top and changes nothing outside the ring |
| `Stack.PopHolds` | src/Memory.cpp:72-75 | a pull returns the top live byte and leaves the rest |
| `Stack.RingIsAStack` | src/Memory.cpp:61-81 | any sequence of 8- and 16-bit pushes and pulls whose live depth stays within 0..256 returns what an unbounded stack returns, from any pointer, in RAM of any size, and leaves every byte outside the ring alone |
| `Arithmetic.AdcCore` | src/InstructionImpl.h:35-54 | the new registers are `Adc` of the old ones, in binary and decimal, for all operands (BCD or not) |
| `Arithmetic.SbcCore` | src/InstructionImpl.h:57-72 | the new registers are `Sbc` of the old ones, in binary and decimal |
| `Arithmetic.CmpCore` | src/InstructionImpl.h:75-80 | only the status changes, to `Cmp` |
| `Arithmetic.CompareMeaning` | src/InstructionImpl.h:75-80 | after a compare C is unsigned ≥, Z is equality, N bit 7 of the difference |
| `Arithmetic.SubtractIsAddComplement` | src/InstructionImpl.h:48-72 | in binary, SBC of v is ADC of 255−v, in A and in every flag |
| `MultiByte.AddMeaning` | src/InstructionImpl.h:48-53 | one binary ADC is the 9-bit sum, with V exactly signed overflow |
| `MultiByte.SubtractMeaning` | src/InstructionImpl.h:57-72 | one binary SBC is the difference, C the absence of a borrow, V exactly signed overflow |
| `MultiByte.AddDecimalMeaning` | src/InstructionImpl.h:39-47 | one decimal ADC of BCD operands gives a BCD byte and carry that denote the decimal sum |
| `MultiByte.SubtractDecimalMeaning` | src/InstructionImpl.h:63-71 | one decimal SBC of BCD operands gives a BCD byte and borrow that denote the decimal difference |
| `MultiByte.AddChainValue` | src/InstructionImpl.h:35-54 | chained over n bytes, ADC is addition: result plus carry times 256^n is the sum |
| `MultiByte.AddChainCarry` | src/InstructionImpl.h:50 | after the chain C is set exactly when the sum reaches 256^n |
| `MultiByte.AddChainOverflow` | src/InstructionImpl.h:49 | after the chain V is set exactly when the signed n-byte sum is out of range |
| `MultiByte.SubtractChainValue` | src/InstructionImpl.h:57-72 | chained over n bytes, SBC is subtraction modulo 256^n |
| `MultiByte.SubtractChainBorrow` | src/InstructionImpl.h:71 | after the chain C is set exactly when there is no borrow |
| `MultiByte.SubtractChainOverflow` | src/InstructionImpl.h:60 | after the chain V is set exactly when the signed n-byte difference is out of range |
| `MultiByte.AddChainDecimal` | src/InstructionImpl.h:35-54 | the decimal chain over n BCD bytes gives the decimal sum modulo 100^n, in BCD, with its carry |
| `MultiByte.AddChainDecimalCarry` | src/InstructionImpl.h:44-47 | in decimal C is set exactly when the sum reaches 100^n |
| `MultiByte.SubtractChainDecimal` | src/InstructionImpl.h:57-72 | the decimal chain gives the decimal difference modulo 100^n, in BCD |
| `MultiByte.SubtractChainDecimalBorrow` | src/InstructionImpl.h:63-71 | in decimal C is set exactly when there is no borrow |
| `MultiByte.AddThenSubtract` | src/InstructionImpl.h:48-72 | in binary, subtracting n bytes that were added gives the first operand back byte for byte, for every pair of complementary carries in |
| `MultiByte.SubtractThenAdd` | src/InstructionImpl.h:48-72 | in binary, adding back what was subtracted does too |
| `MultiByte.DecimalAddThenSubtract` | src/InstructionImpl.h:35-72 | the same for n BCD bytes in decimal, for every pair of complementary carries in |
| `MultiByte.DecimalSubtractThenAdd` | src/InstructionImpl.h:35-72 | and for adding back what was subtracted |
| `Shifts.ShiftMeaning` | src/InstructionImpl.h:154-168 | the four shifts double or halve the byte, counting carry in and out |
| `Shifts.RotatesUndo` | src/InstructionImpl.h:567-597 | ROR undoes ROL and ROL undoes ROR, carry included |
| `Shifts.StepsUndo` | src/InstructionImpl.h:330-390 | INC and DEC undo each other |
| `Shifts.RotateLeftDoubles` | src/InstructionImpl.h:567-581 | ROL over n bytes from the lowest doubles the number |
| `Shifts.RotateRightHalves` | src/InstructionImpl.h:583-597 | ROR over n bytes from the highest halves it |
| `Shifts.ChainsUndo` | src/InstructionImpl.h:567-597 | an n-byte rotation left is undone by one right, carry included |
| `Addressing.Params.Init` | src/parameters.h:97-353 | the operand bytes are consumed, PC advances past them |
| `Addressing.Params.Base` | src/parameters.h:432-438 | the un-indexed address, its pointer read at most once |
| `Addressing.Params.Addr` | src/parameters.h:266-448 | the effective address, whether the index carried, the pointer read at most once |
| `Addressing.Params.DummyRead` | src/parameters.h:272-277 | the unfinished address is read, once, and only in the modes that have such a cycle |
| `Addressing.Params.Load` | src/parameters.h:278-285 | the operand of a load: the unfinished read only in zero-page indexed modes or when the index carries |
| `Addressing.Params.Get8bit` | src/parameters.h:65-457 | the operand byte of any mode: through memory by way of what has already been resolved, or A, or the operand itself |
| `Addressing.Params.Get16bit` | src/parameters.h:227-361 | the jump target, the high byte of an indirect vector from the same page |
| `Addressing.Params.Set8bit` | src/parameters.h:85-464 | one write at the effective address, or A, or nothing |
| `Instructions.LoadInstruction` | src/InstructionImpl.h:131-1023 | every operation that reads one operand: registers, bus and cycles equal `ExecuteLoad` |
| `Instructions.StoreInstruction` | src/InstructionImpl.h:656-790 | every plain store equals `ExecuteStore` |
| `Instructions.RmwStore` | src/InstructionImpl.h:98-102 | both stores of a read-modify-write, the original byte first |
| `Instructions.ModifyInstruction` | src/InstructionImpl.h:154-893 | every read-modify-write, fused ones included, equals `ExecuteModify`, which resolves its address once |
| `Instructions.BranchInstruction` | src/InstructionImpl.h:110-125 | a branch: target, taken extra and page extra |
| `Instructions.RegisterInstruction` | src/InstructionImpl.h:261-755 | flag, transfer and counting instructions equal `RegisterEffect`; KIL rewinds PC |
| `Instructions.UnstableInstruction` | src/InstructionImpl.h:986-1004 | the SHx family equals `ExecuteUnstable` |
| `Instructions.EnterThrough` | src/InstructionImpl.h:232-243 | return address and status pushed, I set, vector fetched |
| `Instructions.StackInstruction` | src/InstructionImpl.h:529-616 | pushes, pulls and returns equal `ControlEffect` |
| `Instructions.JumpInstruction` | src/InstructionImpl.h:412-434 | JMP, JSR and NOP equal `ControlEffect` |
| `Instructions.ExecuteInstruction` | src/InstructionImpl.h:131-1039 | any operation with any mode it can be given equals `Execute` |
| `Processor.TableAllowed` | src/Processor.cpp:25-297 | every table entry pairs an operation with a mode it can be given |
| `Processor.Cpu.Nmi` | src/Processor.cpp:367-369 | an NMI is latched |
| `Processor.Cpu.Irq` | src/Processor.cpp:371-373 | the line takes the level given |
| `Processor.Cpu.ClearInterrupts` | src/Processor.cpp:383-388 | latch, line and delay are dropped, nothing else |
| `Processor.Cpu.Pause` | src/Processor.cpp:355-357 | the stop request is noted and the machine is as before |
| `Processor.Cpu.ServiceInterrupt` | src/Processor.cpp:310-318 | entry through a vector, B clear in the pushed status, 7 cycles |
| `Processor.Cpu.Dispatch` | src/Processor.cpp:339-342 | fetch, decode and execute equal `RunInstruction` |
| `Processor.Cpu.StepOnce` | src/Processor.cpp:320-353 | one call is one `Step` of the whole machine |
| `Processor.Cpu.RunLoop` | src/Processor.cpp:299-308 | the loop is a run of boundaries up to the one at which the pause request, made after a given number of steps, is seen; both flags end up cleared |
| `Processor.Start` | src/I6502Emulator.cpp:31-43 | whatever the state before, the machine is `Reset` of the bus |
| `OpcodeNames.TablesAgree` | src/Processor.cpp:25-297 | for all 256 opcodes the operation in the dispatch table is the one the disassembler's own table names, $AB being called LXA there |
| `OperandAddresses.InstructionGoes` | src/parameters.h:114-469 | for every load, store, read-modify-write and unstable store in the eight memory modes, on any bus, the complete list of addresses in arithmetic on operand bytes, pointer bytes, X and Y, unfinished address included, and which of the accesses are writes |
| `InstructionMeaning.AddMeans` | src/InstructionImpl.h:35-54 | an addition leaves exactly the reference's registers: 9-bit sum, signed overflow, Z and N; in decimal the two corrections and the flags taken along the way |
| `InstructionMeaning.SubtractMeans` | src/InstructionImpl.h:57-72 | a subtraction leaves exactly the reference's registers in both modes |
| `InstructionMeaning.LoadInstructionMeans` | src/InstructionImpl.h:131-1023 | every load, logic, arithmetic, comparison and undocumented read opcode, on any bus: with the last byte read as operand it leaves the reference's registers and no others changed, PC past the instruction |
| `InstructionMeaning.StoreInstructionMeans` | src/InstructionImpl.h:656-790 | the last access writes A, X, Y or A AND X as the operation says; no register but PC changes |
| `InstructionMeaning.ModifyInstructionMeans` | src/InstructionImpl.h:154-893 | the last three accesses read a byte, write it back, and write the reference's result; flags and A are the reference's |
| `InstructionMeaning.AccumulatorInstructionMeans` | src/InstructionImpl.h:154-168 | in accumulator mode A becomes the reference's result, with its C, Z and N, and only the opcode is read |
| `InstructionMeaning.RegisterInstructionMeans` | src/InstructionImpl.h:261-1039 | transfers, counts and flag instructions change what the reference says and nothing else; KIL stays on its opcode |
| `InstructionMeaning.UnstableInstructionMeans` | src/InstructionImpl.h:986-1004 | the byte stored is the source ANDed with one more than the high byte of the un-indexed address as the log shows it; only TAS changes a register, SP |
| `InstructionMeaning.BranchInstructionMeans` | src/InstructionImpl.h:110-125 | taken if and only if the flag selected by the opcode's top bits has the value of its bit 5; PC is then the signed displacement from the next instruction, with 3 or 4 cycles by page, else the next instruction with 2 |
| `ControlMeaning.InterruptEntryMeans` | src/Processor.cpp:310-339 | at a boundary that takes an interrupt, on any bus: PC high, PC low and the status with B clear are written to the stack and PC is read from $FFFA for an NMI, $FFFE for an IRQ; on RAM those are the bytes in memory after the pushes; I set, 7 cycles |
| `ControlMeaning.BreakMeans` | src/InstructionImpl.h:232-243 | an executed opcode $00 does the same through $FFFE, with B set and PC plus two pushed |
| `ControlMeaning.ResetMeans` | src/I6502Emulator.cpp:31-43 | whatever the bus and the state before: A, X, Y zero, SP $FD, I and bit 5 only, PC from $FFFC, 7 cycles, nothing pending |
| `ControlMeaning.PushInstructionsMean` | src/InstructionImpl.h:529-545 | PHA and PHP write one byte where the pointer is, A or the status with B and bit 5 set, and only PC and SP move |
| `ControlMeaning.PullInstructionsMean` | src/InstructionImpl.h:547-565 | PLA and PLP read one byte above the pointer, into A with Z and N, or into the status without B and with bit 5 |
| `ControlMeaning.JumpMeans` | src/InstructionImpl.h:412-421 | JMP goes to its operand, or to the word the operand points at with the high byte from the same page |
| `ControlMeaning.CallMeans` | src/InstructionImpl.h:423-434 | JSR writes the address of its own last byte, high then low, and goes to its operand |
| `ControlMeaning.ReturnFromCallMeans` | src/InstructionImpl.h:609-616 | RTS goes one past the word read above the pointer, SP up by two |
| `ControlMeaning.ReturnFromInterruptMeans` | src/InstructionImpl.h:599-607 | RTI reads status, PC low, PC high above the pointer and uses them unchanged but for B and bit 5, SP up by three |
| `ControlMeaning.NopMeans` | src/InstructionImpl.h:488-498 | a NOP steps over its operand bytes, reads them and changes nothing else |
| `AccessBudget.TablePriced` | src/Processor.cpp:25-297 | for all 256 entries the base cost is one plus the accesses of the uncrossed case plus the slack, and a mode that may cross is charged for crossing |
| `AccessBudget.ExecuteBudget` | src/InstructionImpl.h:131-1039 | for any operation and mode so priced, cycles minus accesses are the slack plus the branch extra, on any bus |
| `AccessBudget.InstructionBudget` | docs/accuracy.md:81-85 | for every opcode, register state and bus, cycles minus accesses are the opcode's slack plus the branch extra, so never negative |
| `AccessBudget.StepBudget` | src/Processor.cpp:310-353 | at every boundary, interrupt entry included, accesses do not exceed the cycles charged, and some cycle is charged |
| `AccessBudget.StepCharges` | src/Processor.cpp:320-353 | the clock advances by 7 for an entry, and for an instruction by exactly its accesses, the slack of its opcode and its branch extra |
| `AccessBudget.RunBudget` | docs/accuracy.md:81-85 | over every run with every interleaving of nmi and irq, accesses do not exceed cycles |
| `AccessBudget.BudgetFromReset` | src/I6502Emulator.cpp:31-43 | the same from reset, the reset's own accesses and cycles included |
| `BusTraffic.UnfinishedAddress` | src/parameters.h:271-277 | the address driven without the carry is the effective one, minus $100 exactly when the index carries |
| `BusTraffic.LoadTraffic` | src/parameters.h:114-457 | every read of a load, in order: operand, each pointer byte once, the unfinished address when due, the operand cell |
| `BusTraffic.CrossingIsOneRead` | src/parameters.h:278-457 | for abs,X, abs,Y and (zp),Y a load makes one extra read exactly when it charges the crossing, at the effective address minus $100 |
| `BusTraffic.StoreTraffic` | src/InstructionImpl.h:656-696 | a store always reads the unfinished address of an indexed mode, once, then writes once; registers keep their values |
| `BusTraffic.ModifyTraffic` | src/InstructionImpl.h:82-102 | on any bus a read-modify-write ends in a read and two consecutive writes of one address, the first write of the byte just read |
| `BusTraffic.ModifyOnRam` | src/InstructionImpl.h:82-102 | on RAM this is one write of the result, even over the instruction's own pointer |
| `BusTraffic.ModifyAccumulator` | src/InstructionImpl.h:95-102 | accumulator mode reaches no bus and A takes the result |
| `FusedOperations.FusedIsBothHalves` | src/InstructionImpl.h:792-893 | each fused operation leaves registers, flags, bus and RAM as its two documented halves on the same address do, carry threaded through, binary and decimal |
| `StatusBits.InstructionMask` | src/InstructionImpl.h:29-102 | only CLI, SEI, PLP, RTI and BRK change I, and none stores B or clears bit 5 |
| `StatusBits.NormalFromReset` | src/InstructionImpl.h:557-607 | from reset, after any events on any bus, B is clear and bit 5 set |
| `InterruptHistory.DoesWhatIsDue` | src/Processor.cpp:320-353 | at the end of every run the processor takes NMI, IRQ or an instruction as the history says: the mask is I as it was before the last instruction when that was CLI, SEI or PLP, and I as it is otherwise |
| `InterruptHistory.LawfulFromReset` | src/Processor.cpp:320-353 | in every history each entry was due, and each instruction found I as the history left it |
| `InterruptHistory.UnmaskedBetweenEntries` | src/Processor.cpp:324-351 | between two IRQ entries of any run some CLI, PLP or RTI left I clear |
| `InterruptHistory.NmiConservation` | src/Processor.cpp:332-334 | entries plus the one still pending are the calls that found none pending, so never more than the calls |
| `InterruptHistory.NmiIsNext` | src/Processor.cpp:367-369 | calls between two boundaries coalesce into one entry at the very next one, whatever I and the IRQ line |
| `InterruptHistory.BoundedResponse` | src/Processor.cpp:329-350 | with the line held, I clear and no NMI, the entry is at this boundary, or at the next exactly unless the instruction between is BRK or an RTI that sets I |
| `InterruptHistory.CliDelay` | src/InstructionImpl.h:279-286 | while masked with the line held, CLI is felt one instruction late exactly when I was set |
| `InterruptHistory.CliSeiTakesExactlyOne` | src/Processor.cpp:324-351 | from a masked state with the line held, `CLI; SEI` both run and the IRQ is entered directly after SEI if and only if I was set; a plain RTI from it restores PC, SR and SP and no further entry follows |
| `InterruptHistory.CliInFlight` | src/Processor.cpp:345-350 | a run from reset reaches a state that is masked with I clear, where `CLI; SEI` lets the IRQ in before SEI |
| `InterruptNesting.EnterPushesFrame` | src/Processor.cpp:310-318 | an entry or BRK pushes its three-byte frame, sets I, and changes no byte outside the ring |
| `InterruptNesting.ReturnPullsFrame` | src/InstructionImpl.h:599-607 | RTI on a frame restores what was pushed and changes no memory |
| `InterruptNesting.HandlerReturns` | src/Processor.cpp:310-318 | a handler with any calls, saves and interrupts in it, nested or successive, returns PC (past the padding byte for BRK), SR and SP, and changes only the ring and what it writes |
| `InterruptNesting.ActivityBalanced` | src/InstructionImpl.h:599-616 | any properly nested tree of interrupts, calls and saved registers leaves the stack as it found it |
| `InterruptNesting.SubroutineReturns` | src/InstructionImpl.h:609-616 | JSR, a body with any calls, saves and interrupts in it, and RTS resume after the JSR with the pointer as before |
| `InterruptNesting.KeptComesBack` | src/InstructionImpl.h:529-565 | a register pushed before such a body is what the matching pull finds after it |
| `InterruptNesting.NestUnwinds` | src/InstructionImpl.h:232-243 | up to 85 entries nested from any stack pointer and unwound by as many RTIs restore PC, SR and SP and no byte outside the ring changes |
| `Subroutines.CallPushesFrame` | src/InstructionImpl.h:423-434 | JSR pushes the address of its own last byte and jumps to its operand |
| `Subroutines.ReturnPullsCall` | src/InstructionImpl.h:609-616 | RTS on such a frame goes to the instruction after the JSR and changes no memory |
| `Subroutines.PushSavedHolds` | src/InstructionImpl.h:529-545 | PHA and PHP push one byte and change no register but PC and SP |
| `Subroutines.PullSavedHolds` | src/InstructionImpl.h:547-565 | PLA and PLP pull the top byte, whichever pushed it, and change no memory |
| `Subroutines.StatusSaved` | src/InstructionImpl.h:538-565 | PHP then PLP restores the status exactly when it is normal, and the stack always |
| `Subroutines.AccumulatorSaved` | src/InstructionImpl.h:529-555 | PHA then PLA restores A and sets N and Z from it |
| `StackDiscipline.StepCarries` | src/Processor.cpp:310-353 | at every boundary that keeps to the discipline the ring goes on holding the shadow stack, and what comes off it is what went on |
| `StackDiscipline.RunCarries` | src/Processor.cpp:310-353 | so it does over every such run, and the pointer follows the depth |
| `StackDiscipline.HandlerResumes` | src/InstructionImpl.h:599-607 | over any such run, from an entry to the RTI that meets it, PC (past the padding byte for BRK), SR and SP are restored and the ring holds what it held |
| `StackDiscipline.CallResumes` | src/InstructionImpl.h:609-616 | from a JSR to the RTS that meets it, execution resumes after the JSR with the pointer as before |
| `StackDiscipline.SavedComesBack` | src/InstructionImpl.h:547-565 | a pull finds the byte of the push it meets |
| `StackDiscipline.NestedRunUnwinds` | src/InstructionImpl.h:599-607 | a run of entries up to 85 deep and the RTIs that unwind them needs no further condition: PC, SR and SP are restored and no byte outside the ring has changed |
| `Disassembler.TakeOperand` | src/unasm.cpp:43-103 | the operand bytes, low one first, PC past them, no other access |
| `Disassembler.UnasmLine` | src/unasm.cpp:105-213 | on any bus: the line made of the bytes read, exactly the reads made, and PC past the instruction |
| `Disassembler.LineOnRam` | src/unasm.cpp:105-213 | on RAM this is the line of a listing, and memory stays as it is |
| `Disassembler.FieldsAgreeWithTable` | src/unasm.cpp:114-211 | for all 256 opcodes the bit fields decode to the addressing mode and operand length of the processor's table |
| `Disassembler.SpacedColumns` | src/unasm.cpp:114-211 | indexed operands have a space after the comma exactly in the first two of the four columns |
| `StraightLine.StepPc` | src/Processor.cpp:339-342 | a sequential instruction advances PC by the disassembler's length |
| `StraightLine.ListingFollowsRun` | src/unasm.cpp:105-213 | listing memory before a straight-line run visits exactly the addresses the run fetches from, however long it is and wherever it wraps, if it stores nothing into the opcode bytes listed |
| `Scanner.RunEnd` | src/Asm.cpp:296-297 | a repeated character class takes the longest stretch |
| `OperandGrammar.LongestMatches` | src/Asm.cpp:296-297 | if the expression matches a line in any way, it matches with every group as long as it can be |
| `OperandGrammar.LongestIsFirst` | src/Asm.cpp:296-297 | no other match is earlier in backtracking order |
| `OperandGrammar.ScannerIsTheExpression` | src/Asm.cpp:296-323 | the scanner accepts a line exactly when the expression matches it, and captures what the groups of that first match capture |
| `Assembler.CapturesConvert` | src/Asm.cpp:371-375 | what the groups capture converts to a number |
| `Assembler.Asm.Emit` | src/Asm.cpp:82-110 | opcode and operand, low byte first, at a program counter that wraps |
| `Assembler.Asm.Compile` | src/Asm.cpp:294-387 | the outcome is `Assemble` of the lines: the image, or the number of the offending line |
| `Assembler.FirstError` | src/Asm.cpp:378-384 | an assembly fails exactly when some line does not assemble, with the number of the first such line |
| `Assembler.LayFlat` | src/Asm.cpp:82-96 | bytes that do not wrap lie side by side and disturb nothing else |
| `Assembler.LaidAtBase` | src/Asm.cpp:300-387 | a program without errors is its bytes laid from the base over $FF and the reset vector |
| `RoundTrip.SignedPrints` | src/unasm.cpp:87-94 | a displacement printed in signed decimal reads back as the byte |
| `RoundTrip.OpcodeReadsBack` | src/Asm.cpp:112-268 | the name and form the disassembler gives an opcode are mapped to that opcode exactly for the 151 documented ones |
| `RoundTrip.ScanLine` | src/Asm.cpp:294-330 | the capture groups of every line the disassembler prints |
| `RoundTrip.ClassifyLine` | src/Asm.cpp:332-366 | such a line is classified as the form it was printed in |
| `RoundTrip.LineReadsBack` | src/Asm.cpp:294-387 | a line assembles to the bytes it came from exactly when the opcode is documented; otherwise it is refused or gives another opcode of the same length |
| `RoundTrip.ListingEmits` | src/unasm.cpp:105-213 | a listing without errors emits as many bytes as it lists, and the same ones exactly when every instruction is documented |
| `RoundTrip.ProgramReadsBack` | src/Asm.cpp:294-387 | a program that ends below $FFFC, listed and assembled at the same base, comes back byte for byte in an image that is $FF elsewhere but for the reset vector, if and only if every instruction is documented |
| `SourceRoundTrip.MapperInverts` | src/Asm.cpp:112-268 | the mapper holds an opcode for a name and a form exactly when it is documented and the disassembler gives it that name and form |
| `SourceRoundTrip.LineIsInstruction` | src/Asm.cpp:367-381 | whatever line assembles, its bytes are one documented instruction of the right length, and the line printed for them assembles to them again |
| `SourceRoundTrip.SourceReadsBack` | src/Asm.cpp:294-387 | any source text that assembles below the reset vector, listed from its image and assembled again, gives the same image |
| `SourceText.CaseNeverMatters` | src/Asm.cpp:272-298 | lines that differ only in letter case assemble to the same bytes or are both refused |
| `SourceText.BlankExactly` | src/Asm.cpp:307-310 | a line is passed over exactly when nothing but spaces stands before its end or its first semicolon |
| `SourceText.ClassifiedExactly` | src/Asm.cpp:324-366 | a form is selected by exactly the operand shapes the disassembler writes for it, every other shape is refused |
| `SourceText.DisplacementSpelled` | src/Asm.cpp:371-375 | a displacement denotes the number it spells, with any leading zeros and either sign or none |
| `PacingClock.CycleClock.WaitCycles` | src/emuclock.cpp:20-22 | the count grows by the cycles |
| `PacingClock.CycleClock.ResetCount` | src/emuclock.cpp:27-29 | the count restarts |
| `PacingClock.PrecisionClock.BeginCycle` | src/emuclock.cpp:121-123 | the deadline is the present |
| `PacingClock.PrecisionClock.WaitCycles` | src/emuclock.cpp:125-133 | cycles counted, deadline moved by the budget or snapped to the present, sleep until the deadline |
| `PacingClock.RateLimit` | src/emuclock.cpp:97-111 | if sleeps never end early, any number of calls takes at least the sum of their budgets, for every host clock |
| `PacingClock.BoundedBurst` | src/emuclock.cpp:108-133 | from the reading inside any call to the return of any later one, at least the budgets between less 50 ms |
| `PacingClock.BurstIsReached` | src/emuclock.cpp:112 | the 50 ms are needed: a run that reaches them |
| `PacingClock.ScheduleKept` | src/emuclock.cpp:103-107 | a host never further behind than the window loses no time: the deadline stays on the ideal schedule |
| `PacingClock.SleepsToDeadline` | src/emuclock.cpp:125-133 | a call that sleeps is to be woken exactly at its deadline, the earlier one plus its budget; a late one does not sleep |
| `PacingClock.ExactPace` | src/emuclock.cpp:97-107 | on a host that is never late any number of calls takes exactly the sum of their budgets |
| `PacingClock.FreshStart` | src/emuclock.cpp:108-133 | after a call more than 50 ms late the pace starts again from its reading |

## Left out

- A reset in the middle of a run: the interrupt results are about runs from one reset to the next.
- Code that wraps past $FFFF or reaches the reset vector, in the whole-program round trips: the image then differs by design.
- Listings of runs that jump, which no linear sweep follows.
- Silicon fidelity of SHA, SHX, SHY, TAS, ANC, ALR, ARR, SBX, LAS, LAX and XAA: they are modelled as the code has them, with access, cycle and length results.
- 16-bit loads and stores of the addressing modes that no table entry uses them with.
- Reconnecting a bus to another memory while running; the memory is fixed when the bus is made.
- Threads and memory ordering: the stop request of the run loop and the spinning `stop()`.
- Callbacks, breakpoints, both debuggers, image loading, and the build.
- `chrono_clock`, which follows the same rule on another time type, the conversion of cycles to nanoseconds in floating point, sleeps cut short by a signal, and the wrap of 64-bit times.
- Splitting a source text into lines, the text of exceptions, the hash of the instruction map, and `atoi` beyond the range of `int`, which is undefined.
