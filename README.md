# Intcode in Dafny

This project models the Intcode virtual machine of an Advent of Code 2019
solution set, together with the small drivers that feed it, and proves
properties of both.

An Intcode machine has:
- a tape of 64-bit words;
- an instruction pointer and a relative base;
- two FIFO queues, one for input and one for output;
- a CPU mode (Normal, BreakOnOutput, or Network with a packet counter);
- a lifecycle state (Active, Ready or Halted).

One fetch/decode/execute cycle decodes the opcode `instruction % 100`
and the addressing-mode digits of `instruction / 100`. It then resolves
the read operands and performs the operation. `run` repeats cycles until
the state is no longer Active.

The repository implements the machine three times. The pure model
(`Intcode`) describes all three with one `Variant`:
- `Suspending` (days 11, 15, 17, 19, 23, 25):
  - `ip` moves at the end of `execute_cmd`; taken jumps and `halt` return
    before it moves;
  - input on an empty queue suspends the machine (Normal mode) or reads
    -1 (Network mode).
- `AdvanceFirst` (day 9): `ip` moves past the instruction before it
  executes, and input on an empty queue panics.
- `AdvanceFirstAbsolute` (day 7): as day 9, except that a relative write
  target is not offset by the base, and `load_program` keeps the base.

`IntcodeCpu.Cpu` is the machine as the source writes it: a class whose
methods update the tape array, the registers and the queues in place.
Each method is proved against the pure model. `CpuArrays` lifts this to
arrays of machines (the 5 amplifiers, the 50 NICs).

Two earlier executors are modelled on their own terms:
- the day 2 cell walker, a four-phase state machine over the cells
  (`CellWalker`);
- the day 5 two-mode executor, working on a copy of the program
  (`Diagnostic`).

The drivers are:
- the day 7 amplifier chain, feedback ring and phase search
  (`Amplifiers`, `PhaseSearch`);
- the day 23 packet router with its NAT (`Router`);
- the day 11 painting robot (`Painter`);
- the day 15 repair droid's depth-first exploration (`Droid`). Next to
  the map, the model records the number of moves at which each cell was
  asked about. The source keeps no such record; the model uses it only to
  state what `max_steps` ends as;
- the day 17 scaffold view and robot programming (`Scaffold`);
- the day 19 tractor-beam probes (`Beam`);
- the day 25 text-adventure helpers (`Adventure`).

`ProgramText` models the parsing of the comma-separated program text.
`Decoder` models `get_cmd` and `get_mode`. `Common` holds:
- Rust's truncating `/` and `%`;
- the `as usize` and `as u8` casts;
- the 64-bit bounds.

Every `run` is bounded by a `fuel` count of cycles. A run that has not
stopped when its fuel is spent reports `Exhausted`, which is a fault of
the model and not of the source. Every `panic!` and failed `expect` of
the source is a `Fault` value:
- an unknown opcode;
- a mode digit above 2;
- an index outside the tape;
- input on an empty queue, on the advance-first machines;
- an impossible network counter;
- a missing output;
- an output a driver cannot interpret.

In these details the model keeps the code's behaviour:
- Loading a program on the day 7 machine keeps the relative base
  (day07/src/main.rs:247-254). The other machines reset it.
- The router takes at most one packet from a NIC per turn. The rest of
  its output waits for its next turn (day23/src/main.rs:481-505).
- The NAT stops when the packet it delivers equals the previous delivery
  as a whole (x, y) pair, not only in y. The previous delivery starts as
  (0, 0) (day23/src/main.rs:471-472, 512).
- The feedback loop runs while amplifier 4 is Ready. It stops early,
  keeping the last report, when an amplifier has no output to pass on
  (day07/src/main.rs:350-380).
- Empty program text does not parse: `"".split(",")` yields one empty
  token, which is not a number (`ProgramText.EmptyTextFails`).
- The day 5 executor ignores its noun and verb arguments, because the
  writes that would use them are commented out (day05/src/main.rs:179-180).
- Running a Halted machine is not refused. `run` marks it Active and
  executes from its current `ip`, as the code does.
- `update_view` never advances its column, so every character of a
  row lands in column 0 (day17/src/main.rs:408-422). The model keeps this.

## Model

| member | source | states |
|---|---|---|
| Common.TruncDivRem | day23/src/main.rs:118 | the truncating quotient and remainder used for Rust's `/` and `%` recombine to the dividend, and the remainder takes the dividend's sign |
| Common.Usize | day23/src/main.rs:136 | `as usize` keeps a non-negative word and sends a negative word to 2^64 plus it, which is at least 2^63 |
| Common.AsU8 | day23/src/main.rs:443 | `as u8` keeps 0..255 and always gives a byte |
| Common.CharCode | day25/src/main.rs:455 | `c as u8` of a character is its code when the code is below 256, and is always a byte |
| Common.CodeChar | day17/src/main.rs:416 | `num as u8 as char` is the character whose code is the word truncated to a byte |
| Common.Codes | day25/src/main.rs:454-456 | the byte codes of a string, one per character in order |
| Common.CodesAppend | day17/src/main.rs:392-403 | the codes of two strings sent one after the other are the codes of their concatenation |
| Decoder.GetCmd | day23/src/main.rs:262-320 | an instruction decodes exactly when its truncated remainder mod 100 is one of 1..9 or 99; every decoded command is well formed (operand count 3/3/1/1/2/2/3/3/1/0, writes for Add, Mul, In, Lt, Cmp), and Hlt is exactly opcode 99 |
| Decoder.DecodeIgnoresModeDigits | day23/src/main.rs:262-263 | the hundreds and higher digits never change the decoded command |
| Decoder.ModeOf | day23/src/main.rs:122-127 | a mode digit is valid exactly when it is 0, 1 or 2 |
| Decoder.ModeDigits | day23/src/main.rs:117-130 | a successful mode decoding gives one mode per operand |
| Decoder.ModeDigitsSome | day23/src/main.rs:121-129 | the mode digits decode exactly when each of the first n digits is at most 2 |
| Decoder.ModeDigitsAt | day23/src/main.rs:121-129 | operand i's mode comes from the i-th least-significant digit |
| Decoder.DecimalDigit | day23/src/main.rs:122 | a decimal digit is below 10 |
| Decoder.DecimalDigitDiv | day23/src/main.rs:122-128 | the i-th digit extracted by repeated division is `x / 10^i % 10` |
| Decoder.GetModeDigits | day23/src/main.rs:117-130 | for a non-negative instruction, `get_mode` succeeds exactly when every operand digit of `instruction / 100` is at most 2; operand i takes digit i (least significant first), and a missing digit is position mode |
| Decoder.GetMode | day23/src/main.rs:117-130 | `get_mode` as a function; characterised by `ModeDigits`, `ModeDigitsSome`, `ModeDigitsAt` and `GetModeDigits` (one mode per operand, taken from the operand's digit, a panic exactly when some digit is above 2) |
| Intcode.NewMachine | day23/src/main.rs:79-93 | `Cpu::new` gives a 1,000,000-cell zero tape, both registers 0, empty queues, Normal mode, Halted |
| Intcode.Load | day07/src/main.rs:247-254 | loading fails with OutOfRange exactly when the program is longer than the tape; otherwise the tape holds the program then zeros, `ip` is 0, both queues are empty, the state is Ready, the mode is kept, and the base is reset except on the day 7 machine |
| Intcode.ReadCell | day23/src/main.rs:136 | a cell read succeeds exactly inside the tape and yields that cell |
| Intcode.Fetch | day23/src/main.rs:239-251 | a fetch reads the opcode at `ip`, decodes the command and its modes, and loads the raw operands from the cells after `ip`; an `ip` outside the tape or an unknown opcode is a panic |
| Intcode.OperandValue | day23/src/main.rs:133-140 | a read operand is the raw value in immediate mode, `memory[raw]` in position mode and `memory[bp + raw]` in relative mode |
| Intcode.ResolveReads | day23/src/main.rs:133-140 | the read operands (all but a trailing write target) resolve exactly when every one of them is in range, each to its `OperandValue` |
| Intcode.WriteAddress | day09/src/main.rs:250-267 | a write target is the raw operand, offset by the base only in relative mode on machines that apply it (never on day 7) |
| Intcode.Store | day23/src/main.rs:147 | a store succeeds exactly inside the tape and changes only that cell |
| Intcode.Finish | day23/src/main.rs:236 | the suspend-style machine moves `ip` past the instruction after a completed instruction; the advance-first machines have already moved it |
| Intcode.CountOutput | day23/src/main.rs:185-195 | the network counter steps 0→1→2→0, sets Ready on the third output, and panics on any other value |
| Intcode.NumReads | day23/src/main.rs:133-134 | the number of dereferenced operands is the operand count minus one exactly for writing instructions |
| Intcode.Advanced | day09/src/main.rs:116 | the advance-first machines move `ip` by the width before executing; the others leave it |
| Intcode.Arith | day23/src/main.rs:143-154 | Lt and Cmp write exactly 1 or 0 according to `<` and `==` |
| Intcode.Apply | day23/src/main.rs:142-236 | the match of `execute_cmd`; it keeps the tape length, and `IntcodeFacts.StepArithmetic`, `StepJump`, `StepAdjustBase`, `StepHalt`, `StepInput`, `StepInputEmpty` and `StepOutput` give each operation's whole effect on the machine |
| Intcode.Execute | day09/src/main.rs:239-310 | `execute_cmd`: the read operands resolved, `ip` moved first on the advance-first machines, then `Apply`; it keeps the tape length, the Step* lemmas give its effect per operation, `IntcodeFacts.ModeKept` its effect on the mode, and `IntcodeFacts.ExecuteWithMoreInput` that an instruction that does not suspend commutes with input appended beforehand |
| Intcode.Cycle | day25/src/main.rs:251-266 | one pass of the loop body, fetch then `Execute`; it keeps the tape length, `IntcodeFacts.FetchReadsTape` says decoding reads only the tape and `ip`, and `IntcodeFacts.CycleWithMoreInput` and `CycleKeepsMode` say what a cycle does to the queues and the mode |
| Intcode.AfterCycle | day25/src/main.rs:267-269 | the run loop stops only in a state other than Active |
| Intcode.Settle | day23/src/main.rs:239-259 | a run is reported as its final machine, its panic, or `Exhausted` when the fuel ran out |
| Intcode.Input | day23/src/main.rs:155-181 | the In instruction; characterised by `IntcodeFacts.StepInput` (the oldest input is consumed and stored at the target, `ip` moves by 2) and `IntcodeFacts.StepInputEmpty` (on an empty queue: a panic on the advance-first machines, Ready with nothing else changed in Normal mode, -1 stored and Ready in Network mode) |
| Intcode.Output | day23/src/main.rs:182-196 | the Out instruction; characterised by `IntcodeFacts.StepOutput`: the value is appended to the output queue, BreakOnOutput sets Ready, and the Network counter steps 0, 1, 2, 0 with Ready on the third output |
| Intcode.Jump | day23/src/main.rs:197-208 | the conditional jumps; characterised by `IntcodeFacts.StepJump`: a taken jump sets `ip` to the target as `usize` and skips the final advance, an untaken one moves `ip` by 3 |
| Intcode.Step | day23/src/main.rs:243-253 | one pass of the loop body as a step function; `IntcodeFacts.CycleIgnoresMoreInput` and `CycleKeepsMode` are stated about it |
| Intcode.RunFrom | day23/src/main.rs:241-258 | the loop that repeats cycles while the machine is Active; characterised by `IntcodeFacts.RunFromMoreFuel` (a run that stopped is unchanged by more fuel), `RunFromKeepsMode` and `RunFromWithMoreInput`, and `AfterCycle` ensures a stopped run ends in a state other than Active |
| Intcode.Run | day23/src/main.rs:239-259 | `run`: mark Active, then the loop; characterised by `IntcodeFacts.RunWithMoreInput` (a halting run gives the same machine with extra input still queued), `IntcodeFacts.RunResumes` (a run that suspended, given more input and run again, continues as if that input had been there from the start), `RunKeepsMode` and `LeavesActiveOnlyToHaltOrWait`, and `IntcodeCpu.Cpu.Run` proves the in-place loop equal to it |
| Intcode.Runner | day23/src/main.rs:239-259 | `run` as the drivers call it; `Settle` states how its outcome becomes a machine or a fault |
| IntcodeFacts.LoadIdempotent | day23/src/main.rs:95-103 | loading the same program twice gives the same machine as loading it once |
| IntcodeFacts.LoadForgetsHistory | day19/src/main.rs:94-102 | after a load, the machine depends only on the tape size, the mode and the program (and the old base on day 7), not on earlier runs |
| IntcodeFacts.StepArithmetic | day23/src/main.rs:143-154 | Add, Mul, Lt and Cmp succeed exactly when both reads and the target are in range; they write the result at the target and move `ip` by 4, the same on every variant |
| IntcodeFacts.StepJump | day23/src/main.rs:197-208 | jnz/jz succeed exactly when both operands resolve; a taken jump (nonzero for jnz, zero for jz) sets `ip` to operand 2 cast to usize, an untaken one moves `ip` by 3, and nothing else changes |
| IntcodeFacts.StepAdjustBase | day09/src/main.rs:307 | AdjBp adds the resolved operand to the base and moves `ip` by 2 |
| IntcodeFacts.StepHalt | day23/src/main.rs:230-234 | halt sets Halted; the suspend-style machine leaves `ip` on the 99 cell, and the advance-first machines leave it one past |
| IntcodeFacts.StepInput | day23/src/main.rs:155-181 | input with a queued value consumes the oldest one, stores it at the write target and moves `ip` by 2 |
| IntcodeFacts.StepInputEmpty | day23/src/main.rs:159-174 | input on an empty queue panics on the advance-first machines; in Normal mode it only sets Ready (no `ip`, tape or queue change); in Network mode it stores -1, sets Ready and moves `ip` by 2 |
| IntcodeFacts.StepOutput | day23/src/main.rs:182-196 | output appends the operand to the output queue and moves `ip` by 2; BreakOnOutput sets Ready; Network mode steps the counter and sets Ready on every third output |
| IntcodeFacts.RunFromMoreFuel | day23/src/main.rs:239-259 | once a run has stopped, more fuel gives the same result |
| IntcodeFacts.AfterCycleMoreFuel | day23/src/main.rs:255-257 | the loop test after a cycle is also unaffected by more fuel once the run stops |
| IntcodeFacts.FetchReadsTape | day23/src/main.rs:243-251 | decoding depends only on the tape and `ip` |
| IntcodeFacts.ExecuteWithMoreInput | day23/src/main.rs:132-237 | an instruction that succeeds without suspending gives the same machine when more values are appended to its input queue, with those values still queued |
| IntcodeFacts.MoreInputArithmetic | day23/src/main.rs:143-154 | arithmetic ignores values appended to the input queue |
| IntcodeFacts.MoreInputJump | day23/src/main.rs:197-208 | jumps ignore values appended to the input queue |
| IntcodeFacts.MoreInputAdjustBase | day23/src/main.rs:229 | AdjBp ignores values appended to the input queue |
| IntcodeFacts.MoreInputOutput | day23/src/main.rs:182-196 | output ignores values appended to the input queue |
| IntcodeFacts.MoreInputInput | day23/src/main.rs:155-181 | input that found a value still consumes the same oldest value when more are appended |
| IntcodeFacts.CycleWithMoreInput | day23/src/main.rs:239-253 | a cycle that succeeds without leaving the machine Ready commutes with appending values to the input queue |
| IntcodeFacts.CycleIgnoresMoreInput | day23/src/main.rs:239-253 | the cycle of every variant, at every machine, commutes with appending input wherever it succeeds without leaving the machine Ready |
| IntcodeFacts.RunFromWithMoreInput | day23/src/main.rs:239-259 | a bounded run that halts, started with values appended to its input, halts in the same machine with those values still queued |
| IntcodeFacts.RunWithMoreInput | day23/src/main.rs:239-259 | a `run` that halts gives the same final machine when extra input is queued beforehand; the extra values are left unread |
| IntcodeFacts.CycleWaitsInPlace | day23/src/main.rs:159-174 | on the suspending machine in Normal mode, a cycle that ends Ready changed nothing but the state, so the In instruction is retried on the next `run` |
| IntcodeFacts.RunFromResumes | day23/src/main.rs:239-259 | the generic loop form of `RunResumes` for one further fuel `f`: the run with the extra input spends the first run's cycles before the suspending one (fewer than its fuel), reaches the suspended machine with that input queued, and from there matches the resumed run |
| IntcodeFacts.RunFromResumesAll | day23/src/main.rs:239-259 | the same for every further fuel at once, with one cycle count `k` below the first run's fuel |
| IntcodeFacts.RunResumes | day23/src/main.rs:239-259 | resuming a suspended Normal-mode run after pushing `xs` gives, for every fuel, the same outcome as running with `xs` queued from the start, once that run has spent the first run's `k` cycles |
| IntcodeFacts.ModeKept | day23/src/main.rs:185-195 | only the network counter changes the mode, and it stays a Network mode |
| IntcodeFacts.CycleKeepsMode | day23/src/main.rs:239-259 | every successful cycle keeps Normal and BreakOnOutput modes and keeps a Network mode a Network mode |
| IntcodeFacts.RunKeepsMode | day19/src/main.rs:463-469 | a stopped run that did not start in Network mode ends in the mode it started in |
| IntcodeFacts.RunFromKeepsMode | day23/src/main.rs:241-258 | a bounded loop whose step keeps the mode, started outside Network mode, stops in its starting mode |
| IntcodeFacts.LeavesActiveOnlyToHaltOrWait | day23/src/main.rs:155-181 | on a suspend-style machine in Normal mode, an instruction leaves Active only by halting, or by reading with an empty input queue, which sets Ready and changes nothing else |
| IntcodeCpu.Cpu.Abstract | day25/src/main.rs:76-83 | the machine's value has as many cells as the tape array |
| IntcodeCpu.Cpu.constructor | day25/src/main.rs:86-101 | a new CPU is `NewMachine` with `verbose` on |
| IntcodeCpu.Cpu.LoadProgram | day25/src/main.rs:103-111 | the array-backed load succeeds exactly when the program fits, and then gives the machine `Load` describes; mode and `verbose` are untouched |
| IntcodeCpu.Cpu.GetModes | day25/src/main.rs:125-138 | the digit loop computes `GetMode`, including its panic on a digit above 2 |
| IntcodeCpu.Cpu.WriteCell | day25/src/main.rs:161 | an in-range write changes exactly one array cell; an out-of-range write panics and changes nothing |
| IntcodeCpu.Cpu.FetchCmd | day25/src/main.rs:255-263 | the in-place fetch computes `Fetch` of the current machine |
| IntcodeCpu.Cpu.ResolveOperands | day25/src/main.rs:141-148 | the operand loop computes `ResolveReads` |
| IntcodeCpu.Cpu.Arithmetic | day25/src/main.rs:151-240 | the in-place Add/Mul/Lt/Cmp gives the machine `Apply` describes |
| IntcodeCpu.Cpu.InputCmd | day25/src/main.rs:163-191 | the in-place input gives the machine `Input` describes: suspend, -1 in Network mode, or consume the oldest value |
| IntcodeCpu.Cpu.OutputCmd | day25/src/main.rs:192-208 | the in-place output gives the machine `Output` describes |
| IntcodeCpu.Cpu.JumpCmd | day25/src/main.rs:209-220 | a taken jump returns early with `ip` at the target; an untaken one is finished like any instruction |
| IntcodeCpu.Cpu.ApplyCmd | day25/src/main.rs:140-249 | the in-place `execute_cmd` body gives the machine `Apply` describes |
| IntcodeCpu.Cpu.ExecuteCmd | day25/src/main.rs:140-249 | the in-place `execute_cmd` gives the machine `Execute` describes; `verbose` changes nothing |
| IntcodeCpu.Cpu.PushInput | day25/src/main.rs:455 | enqueuing appends to the input queue and changes nothing else |
| IntcodeCpu.Cpu.PushOutput | day07/src/main.rs:425 | seeding an output appends to the output queue and changes nothing else |
| IntcodeCpu.Cpu.SetMode | day23/src/main.rs:467 | setting the mode changes only the mode |
| IntcodeCpu.Cpu.PopOutput | day25/src/main.rs:477 | dequeuing takes the oldest output, or gives None and changes nothing on an empty queue |
| IntcodeCpu.Cpu.Run | day25/src/main.rs:251-271 | the in-place `run` loop reports exactly `Intcode.Run` of the machine it started from and, when it stops, leaves the CPU in that final machine; the result does not depend on `verbose` |
| CpuArrays.States | day23/src/main.rs:463 | an array of CPUs is viewed as the sequence of their machines |
| CpuArrays.NewMachines | day07/src/main.rs:287 | n fresh machines are n copies of `NewMachine` |
| CpuArrays.NewCpus | day23/src/main.rs:463 | a fresh array of distinct CPUs whose machines are all `NewMachine` |
| CpuArrays.LoadAt | day23/src/main.rs:465-466 | loading CPU i changes only machine i, as `Load` describes |
| CpuArrays.PushAt | day23/src/main.rs:502-503 | enqueuing on CPU i changes only machine i's input queue |
| CpuArrays.PushOutputAt | day07/src/main.rs:425 | seeding CPU i's output changes only machine i's output queue |
| CpuArrays.SetModeAt | day23/src/main.rs:467 | setting CPU i's mode changes only machine i's mode |
| CpuArrays.PopAt | day23/src/main.rs:483 | dequeuing CPU i's output takes its oldest output and changes only machine i |
| CpuArrays.RunAt | day23/src/main.rs:480 | running CPU i reports `Run` of machine i and changes only machine i |
| CpuArrays.Report | day23/src/main.rs:475-520 | a driver's result keeps the fault or the value and drops the machines |
| CpuArrays.Oldest | day07/src/main.rs:361 | the oldest output exists exactly when the output queue is non-empty |
| CpuArrays.Popped | day07/src/main.rs:361 | popping drops exactly the oldest output |
| ProgramText.TrimStart | day02/src/main.rs:23 | trimming the start removes exactly the leading whitespace |
| ProgramText.TrimEnd | day02/src/main.rs:23 | trimming the end removes exactly the trailing whitespace |
| ProgramText.TrimmedIsTrim | day02/src/main.rs:23 | text that neither starts nor ends with whitespace is its own trim |
| ProgramText.Split | day02/src/main.rs:23 | splitting gives at least one piece, and no piece contains the separator |
| ProgramText.SplitJoin | day02/src/main.rs:23 | joining the pieces of a split with the separator gives back the text |
| ProgramText.JoinSplit | day02/src/main.rs:23 | splitting a join of separator-free pieces gives back the pieces |
| ProgramText.PieceSplit | day02/src/main.rs:23 | splitting `p + t`, where p holds no separator, prefixes p to the first piece of t's split and keeps the rest |
| ProgramText.DigitValue | day02/src/main.rs:25 | a digit's value is below 10 |
| ProgramText.DigitChar | day02/src/main.rs:25 | a digit character is read back as its value |
| ProgramText.ParseI64 | day02/src/main.rs:25 | a parsed token is in the i64 range and starts with a digit or a sign |
| ProgramText.Decimal | day02/src/main.rs:25 | the decimal form of a natural number is a non-empty digit string |
| ProgramText.DecimalValue | day02/src/main.rs:25 | a decimal form is read back as its number |
| ProgramText.ParseShow | day02/src/main.rs:25 | every i64 printed in decimal parses back to itself |
| ProgramText.ParseAll | day02/src/main.rs:22-28 | parsing succeeds exactly when every token parses, and gives one word per token in order |
| ProgramText.ShowAll | day02/src/main.rs:22-28 | printing gives one token per word in order |
| ProgramText.ShownTokens | day02/src/main.rs:22-28 | printed tokens are non-empty, comma-free, and parse back to the words |
| ProgramText.ParseProgramOf | day02/src/main.rs:20-29 | parsing the comma-separated text of any non-empty list of i64 words gives that list back |
| ProgramText.ProgramOfTrimmed | day02/src/main.rs:23 | program text has no surrounding whitespace, so trimming keeps it |
| ProgramText.JoinEnds | day02/src/main.rs:23 | a join of non-empty pieces starts with the first piece's first character and ends with the last piece's last character |
| ProgramText.EmptyTextFails | day02/src/main.rs:23-25 | empty text does not parse: its only token is empty |
| ProgramText.ParseProgram | day02/src/main.rs:20-29 | the parse loop computes `ParseOps`: trim, split on ',', parse every token, fail on a bad one |
| ProgramText.Trim | day02/src/main.rs:23 | `trim()`; characterised by `TrimStart` and `TrimEnd` (exactly the surrounding whitespace goes) and `TrimmedIsTrim` |
| ProgramText.Join | day02/src/main.rs:23 | the inverse of `split`, used to state it; `SplitJoin` and `JoinSplit` prove the round trips both ways and `JoinEnds` gives its end characters |
| ProgramText.Show | day02/src/main.rs:25 | the decimal printing of an `i64`, an inverse used to state `parse`; `ParseShow` proves that parsing it gives the number back |
| ProgramText.ParseOps | day02/src/main.rs:20-29 | `parse_ops`: trim, split on ',' and parse every token; characterised by `ParseAll` (it succeeds exactly when every token parses), `ParseProgramOf` (printed programs parse back) and `EmptyTextFails` |
| ProgramText.ParseTokens | day02/src/main.rs:23-26 | the token loop computes `ParseAll` |
| CellWalker.Combine | day02/src/main.rs:69-73 | the Dst phase writes the sum for Add and the product for Mult |
| CellWalker.Walk | day02/src/main.rs:48-79 | the four-phase loop of `execute`; characterised by `WalkInterprets`, which proves it equal to the instruction-at-a-time `Interpret` |
| CellWalker.Interpret | day02/src/main.rs:48-79 | an independent reference reading whole instructions (opcode, two sources, destination); `WalkInterprets` and `AnswerInterprets` tie the walk to it |
| CellWalker.Answer | day02/src/main.rs:38-80 | `execute` on a copy of the program with noun and verb in cells 1 and 2; characterised by `AnswerInterprets` and `SampleAnswer` |
| CellWalker.SearchFrom | day02/src/main.rs:82-93 | the search of `find_inputs`; characterised by `SearchFromFirst` (the lexicographically first pair with the target answer, None exactly when there is none, panics passed on) |
| CellWalker.WalkInterprets | day02/src/main.rs:48-79 | the cell-by-cell walk with its Cmd/Src1/Src2/Dst phases equals an instruction-at-a-time interpreter over the current memory |
| CellWalker.AnswerInterprets | day02/src/main.rs:38-80 | `execute` is that interpreter on a copy of the program with cells 1 and 2 replaced by the inputs |
| CellWalker.SampleAnswer | day02/src/main.rs:38-80 | `1,9,10,3,2,3,11,0,99,30,40,50` with inputs 9 and 10 gives 3500 |
| CellWalker.Execute | day02/src/main.rs:38-80 | the `for` loop over the cells computes `Answer`, including the panics on a bad opcode or an out-of-range cell and the fall-through return of `memory[0]` |
| CellWalker.SearchFromFirst | day02/src/main.rs:82-93 | the nested search from (x, y) returns the first pair in lexicographic order whose answer is 19690720; None means no pair answers it; a panic comes from a pair whose run panics |
| CellWalker.FindInputsFirst | day02/src/main.rs:82-93 | `find_inputs` returns the lexicographically first (x, y) in [0,100)² with answer 19690720, or None when there is none |
| CellWalker.FindInputs | day02/src/main.rs:82-93 | the nested loop with early return computes `SearchFrom` from (0, 0) |
| Diagnostic.GetCmd5 | day05/src/main.rs:56-106 | day 5's table is day 23's without opcode 9 |
| Diagnostic.RawModes | day05/src/main.rs:108-115 | `get_mode` stores one raw digit per operand |
| Diagnostic.RawModesAgree | day05/src/main.rs:108-115 | a raw digit 0 is position mode and 1 immediate mode, as in the later decoder |
| Diagnostic.Operands | day05/src/main.rs:191-196 | loading the operands succeeds exactly when they lie inside the tape, and gives the cells after `ip` |
| Diagnostic.Resolve | day05/src/main.rs:129-136 | only digit-0 read operands are dereferenced, each must be inside the tape, and every other digit behaves as immediate |
| Diagnostic.Put | day05/src/main.rs:139-166 | a store succeeds exactly inside the program-sized tape and changes only that cell |
| Diagnostic.Decode | day05/src/main.rs:183-185 | a decoded command is well formed, never AdjBp, and `ip` is inside the tape |
| Diagnostic.Cycle | day05/src/main.rs:183-198 | a cycle keeps the tape's length: there is no zero extension |
| Diagnostic.Run | day05/src/main.rs:181-199 | a completed run stops at a Hlt instruction |
| Diagnostic.CycleExtends | day05/src/main.rs:139-166 | a cycle keeps the tape's length and only appends to what was printed |
| Diagnostic.RunExtends | day05/src/main.rs:181-199 | a run of any step that keeps the tape's length and only appends output does the same |
| Diagnostic.RunKeepsTape | day05/src/main.rs:177-199 | a whole successful run keeps the tape the program's length and only appends to the printed values |
| Diagnostic.RunStep | day05/src/main.rs:181-199 | a run not at Hlt is one cycle followed by the rest of the run |
| Diagnostic.Answer | day05/src/main.rs:171-200 | a result exists only for a non-empty program |
| Diagnostic.CycleEffect | day05/src/main.rs:138-198 | non-jump instructions move `ip` by 1 plus the operand count; writing ones change exactly the cell named by the last raw operand; non-writing ones keep the tape; Lt and Cmp write 0 or 1 |
| Diagnostic.JumpTarget | day05/src/main.rs:143-152 | a taken jnz/jz sets `ip` to operand 2 as usize; an untaken one leaves `ip` three cells on |
| Diagnostic.SampleAnswer | day05/src/main.rs:171-200 | `1,9,10,3,2,3,11,0,99,30,40,50` halts with 3500 at address 0 |
| Diagnostic.SampleAdd | day05/src/main.rs:139 | the first instruction of that program writes 70 at address 3 |
| Diagnostic.SampleMul | day05/src/main.rs:140 | the second writes 3500 at address 0, and the run halts |
| Diagnostic.ModeSample | day05/src/main.rs:108-140 | `1002,4,3,4,33` writes 99 at address 4 and then halts |
| Diagnostic.GetModes | day05/src/main.rs:108-115 | the digit loop computes `RawModes` |
| Diagnostic.LoadOperands | day05/src/main.rs:191-196 | the operand loop computes `Operands` |
| Diagnostic.Dereference | day05/src/main.rs:129-136 | the dereference loop computes `Resolve` |
| Diagnostic.PutCell | day05/src/main.rs:139-166 | an in-range write changes exactly that cell; an out-of-range one panics and changes nothing |
| Diagnostic.ExecuteCmd | day05/src/main.rs:128-169 | the in-place `execute_cmd` gives the snapshot `Exec` describes |
| Diagnostic.Exec | day05/src/main.rs:128-169 | the operation match of day 5's `execute_cmd`; characterised through `Cycle` by `CycleEffect` and `JumpTarget` |
| Diagnostic.Step | day05/src/main.rs:183-198 | one turn of the day 5 loop as a step function; `RunKeepsTape`, `SampleAdd`, `SampleMul` and `ModeSample` are stated about it |
| Diagnostic.Turn | day05/src/main.rs:181-199 | one loop pass stops at Hlt without changes, or performs `Cycle` |
| Diagnostic.ExecuteProgram | day05/src/main.rs:171-200 | `execute_program` computes `Answer`: it runs a copy of the program and returns `memory[0]`; noun and verb have no effect |
| Painter.Turned | day11/src/main.rs:350-366 | turning succeeds exactly for 0 (left) and 1 (right) and always changes the direction |
| Painter.FourTurns | day11/src/main.rs:350-366 | four identical turns give back the direction |
| Painter.TurnsUndo | day11/src/main.rs:350-366 | a left then a right turn, or a right then a left, give back the direction |
| Painter.MoveIsUnitStep | day11/src/main.rs:368-375 | a move changes exactly one coordinate by exactly 1 (North decreases y, East increases x), and moving back after two right turns returns |
| Painter.PaintTile | day11/src/main.rs:342-348 | painting succeeds exactly for 0 (Black) and 1 (White), sets that panel and keeps every other |
| Painter.ColourCode | day11/src/main.rs:394-401 | the camera reports 1 exactly on a White panel and 0 otherwise, including unpainted panels |
| Painter.Painted | day11/src/main.rs:383-402 | the loop ends only when the CPU is Halted |
| Painter.PaintedStep | day11/src/main.rs:383-402 | a round on a machine not Halted is followed by the rest of the loop |
| Painter.RoundEffect | day11/src/main.rs:387-401 | a round succeeds exactly when the run gives two outputs 0/1; it then paints the current panel, turns, steps one panel, consumes the two outputs and enqueues the new panel's colour |
| Painter.Round | day11/src/main.rs:387-401 | one pass of the loop of `get_painted`; characterised by `RoundEffect` |
| Painter.PaintedKeepsPanels | day11/src/main.rs:383-402 | painting never loses a panel |
| Painter.PaintedHoldsOrigin | day11/src/main.rs:378-381 | the origin, painted White at the start, is always on the floor |
| Painter.Robot.constructor | day11/src/main.rs:294-298 | a robot starts facing North at (0, 0) |
| Painter.Robot.TurnRobot | day11/src/main.rs:350-366 | the in-place turn sets `dir` as `Turned` says, panics on another value, and keeps the position |
| Painter.Robot.MoveRobot | day11/src/main.rs:368-375 | the in-place move steps the position by `Moved` and keeps the direction |
| Painter.Robot.PaintRound | day11/src/main.rs:387-401 | one in-place loop pass gives the robot, CPU and floor that `Round` describes |
| Painter.Robot.GetPainted | day11/src/main.rs:377-405 | `get_painted` gives the floor and final robot that `Painted` describes from a White origin and input 1 |
| Amplifiers.Queue | day07/src/main.rs:310-321 | queueing appends to the input queue only |
| Amplifiers.HighestIsMaximum | day07/src/main.rs:328-335 | the running maximum is at least every output and equals one of them (or the start value) |
| Amplifiers.LoadStage | day07/src/main.rs:315-324 | the set-up of one stage; characterised by `LoadStageEffect` |
| Amplifiers.LoadStageEffect | day07/src/main.rs:315-324 | a stage's set-up fails with OutOfRange when the program does not fit and with the missing-output panic when amp i-1 has no output; otherwise amp i-1 loses exactly its oldest output, amp i is the loaded program with exactly [phase, signal] queued (signal 0 for amp 0), and no other amp changes |
| Amplifiers.Stage | day07/src/main.rs:315-326 | one stage, `LoadStage` then amp i run to a stop; characterised by `LoadStageEffect` and `StageInputs` |
| Amplifiers.Chain | day07/src/main.rs:315-326 | the five stages in order; `ChainStep` unfolds it one stage at a time, and `MaxOutputIsMaximum` states the result of the search over it |
| Amplifiers.Pass | day07/src/main.rs:315-331 | one pass for one ordering, the chain then amp 4's oldest output taken; `SearchStep` and `Outputs` are stated about it |
| Amplifiers.Search | day07/src/main.rs:291-344 | the search loop of `get_max_output`; characterised by `SearchIsHighest` (it fails exactly when some pass fails, and otherwise gives the running maximum of the pass outputs) |
| Amplifiers.MaxOutput | day07/src/main.rs:283-348 | `get_max_output`; characterised by `MaxOutputIsMaximum` (the maximum over every ordering of 0..4, attained by one of them) |
| Amplifiers.Outputs | day07/src/main.rs:291-344 | the search produces one output per phase setting |
| Amplifiers.SearchIsHighest | day07/src/main.rs:291-344 | the search fails exactly when some pass fails, and otherwise reports the largest pass output (or the starting best if none is larger) |
| Amplifiers.MaxOutputIsMaximum | day07/src/main.rs:283-348 | `get_max_output` succeeds exactly when every pass does, and then reports a value that is at least every amp 4 output over all orderings of 0..4 and is one of them (or i64::MIN) |
| Amplifiers.StageInputs | day07/src/main.rs:315-321 | after a load, an amplifier's input is exactly its phase, then the incoming signal |
| Amplifiers.LoadStageAt | day07/src/main.rs:296-326 | the in-place loads give the machines `LoadStage` describes |
| Amplifiers.RunStage | day07/src/main.rs:315-326 | one in-place stage gives the machines `Stage` describes |
| Amplifiers.ChainStep | day07/src/main.rs:315-326 | the chain is one stage followed by the rest |
| Amplifiers.RunPass | day07/src/main.rs:315-326 | the in-place chain for one ordering gives amp 4's output as `Pass` describes |
| Amplifiers.SearchStep | day07/src/main.rs:291-344 | the search is one pass followed by the search over the remaining orderings |
| Amplifiers.PassStep | day07/src/main.rs:315-335 | one in-place pass and maximum update advance the search |
| Amplifiers.SearchPasses | day07/src/main.rs:291-344 | the in-place search loop computes `Search` |
| Amplifiers.GetMaxOutput | day07/src/main.rs:283-348 | `get_max_output` computes `MaxOutput` |
| Amplifiers.Feed | day07/src/main.rs:356-372 | moving one value along the ring; characterised by `FeedMoves` |
| Amplifiers.FeedMoves | day07/src/main.rs:356-372 | with no output at amp src nothing happens; otherwise amp src loses exactly its oldest output, amp dst is run with that value appended to its input (its fault is the feed's), and every other amplifier is unchanged |
| Amplifiers.Relay | day07/src/main.rs:352-378 | one round of the ring; characterised by `RelayPeeks` (a completed round reports amp 4's oldest output and leaves it queued), `RelayEarlyKeepsState` and `RelayStep` |
| Amplifiers.Rounds | day07/src/main.rs:352-379 | the `while` loop of `run_feedback_loop`; characterised by `RoundsEndOnReported` (the final report is amp 4's oldest output, still queued) and `RoundsStep` |
| Amplifiers.Feedback | day07/src/main.rs:350-380 | `run_feedback_loop`: amp 4's output seeded with 0, then `Rounds`, which `RoundsEndOnReported` characterises |
| Amplifiers.Prime | day07/src/main.rs:413-423 | the loading loop of `get_max_feedback`; characterised by `PrimeLoads` |
| Amplifiers.PrimeLoads | day07/src/main.rs:413-423 | priming fails, with OutOfRange, exactly when the program does not fit some amp; otherwise each amp is the freshly loaded program, Ready, at ip 0, with no output, in its own mode, and with exactly its phase queued |
| Amplifiers.Ring | day07/src/main.rs:413-426 | one ordering of the ring, `Prime` then `Feedback`; characterised by `PrimeLoads` and `RoundsEndOnReported`, and `MaxFeedbackIsMaximum` states the result of the search over it |
| Amplifiers.FeedbackSearch | day07/src/main.rs:398-441 | the search loop of `get_max_feedback`; characterised by `FeedbackSearchIsHighest` (it fails exactly when some ring fails, and otherwise gives the running maximum of the reports) |
| Amplifiers.MaxFeedback | day07/src/main.rs:384-443 | `get_max_feedback`; characterised by `MaxFeedbackIsMaximum` (the maximum over every ordering of 5..9, attained by one of them) |
| Amplifiers.FeedbackOutputs | day07/src/main.rs:398-441 | the ring search produces one report per phase setting |
| Amplifiers.RingAmps | day07/src/main.rs:386-393 | the ring built for the feedback search holds five amplifiers |
| Amplifiers.FeedbackSearchIsHighest | day07/src/main.rs:398-441 | the ring search fails exactly when some ring fails, and otherwise reports the largest ring report (or the starting best) |
| Amplifiers.MaxFeedbackIsMaximum | day07/src/main.rs:384-443 | `get_max_feedback` succeeds exactly when every ring does, and then reports a value that is at least every ring report over all orderings of 5..9 and is one of them (or i64::MIN) |
| Amplifiers.RelayPeeks | day07/src/main.rs:375-378 | a completed round reports amp 4's oldest output and leaves it queued for amp 0 |
| Amplifiers.RelayEarlyKeepsState | day07/src/main.rs:355-372 | a round that ends early on a missing output leaves amp 4's state (Ready or Halted) as it was, because amp 4 runs last |
| Amplifiers.RoundsEndOnReported | day07/src/main.rs:352-379 | when the loop ends with amp 4 no longer Ready, either no round ran or the report is amp 4's oldest output, still queued |
| Amplifiers.PeekLast | day07/src/main.rs:375-377 | peeking reads amp 4's oldest output without removing it |
| Amplifiers.FeedAmp | day07/src/main.rs:356-372 | one in-place feed moves the oldest output of the source to the destination's input and runs it, as `Feed` describes; without an output, nothing changes |
| Amplifiers.RelayStep | day07/src/main.rs:356-372 | a round is one feed followed by the rest of the round |
| Amplifiers.RelayRound | day07/src/main.rs:354-378 | one in-place round computes `Relay` |
| Amplifiers.RoundsStep | day07/src/main.rs:352-379 | a loop iteration is one round followed by the rest of the loop |
| Amplifiers.RunFeedbackLoop | day07/src/main.rs:350-380 | the in-place `run_feedback_loop` computes `Feedback` |
| Amplifiers.PrimeStep | day07/src/main.rs:413-423 | priming is one load and phase followed by the rest |
| Amplifiers.PrimeAmps | day07/src/main.rs:413-423 | the in-place priming computes `Prime` |
| Amplifiers.NewRing | day07/src/main.rs:386-393 | the in-place ring is `RingAmps` |
| Amplifiers.RunRing | day07/src/main.rs:413-430 | one in-place ring for an ordering computes `Ring` |
| Amplifiers.FeedbackSearchStep | day07/src/main.rs:398-441 | the ring search is one ring followed by the search over the remaining orderings |
| Amplifiers.RingStep | day07/src/main.rs:413-430 | one in-place ring and maximum update advance the ring search |
| Amplifiers.SearchRings | day07/src/main.rs:398-441 | the in-place ring search loop computes `FeedbackSearch` |
| Amplifiers.GetMaxFeedback | day07/src/main.rs:384-443 | `get_max_feedback` computes `MaxFeedback` |
| PhaseSearch.Orders | day07/src/main.rs:291-344 | the orderings the nested loops visit below a chosen prefix; characterised by `OrdersSkip`, `OrdersDescend` and `OrdersLeaf` (one loop step each) and by `OrdersSound` and `OrdersComplete` (exactly the permutations extending the prefix) |
| PhaseSearch.OrdersSkip | day07/src/main.rs:297-299 | a phase already chosen is skipped |
| PhaseSearch.OrdersDescend | day07/src/main.rs:296-340 | a free phase is chosen and the next level searched, then the loop continues |
| PhaseSearch.OrdersLeaf | day07/src/main.rs:312-330 | at the fifth level a free phase completes an ordering |
| PhaseSearch.ContainsChosen | day07/src/main.rs:291-344 | the stale value left in the phases array never makes `contains` reject a free phase or accept a chosen one |
| PhaseSearch.OrdersArePermutations | day07/src/main.rs:291-344 | the nested loops produce exactly the permutations of five consecutive phases |
| PhaseSearch.OrdersSound | day07/src/main.rs:291-344 | every ordering produced is a permutation extending the chosen prefix |
| PhaseSearch.OrdersComplete | day07/src/main.rs:291-344 | every permutation extending the prefix is produced |
| PhaseSearch.OrdersHaveFive | day07/src/main.rs:291-344 | every ordering has five phases |
| PhaseSearch.Settings | day07/src/main.rs:291-344 | the settings are exactly the permutations, each of five phases |
| PhaseSearch.PhaseOrders | day07/src/main.rs:291-344 | the nested loops over the in-place phases array produce `Settings`, in the loops' order |
| PhaseSearch.Choose | day07/src/main.rs:291-344 | one loop level produces the orderings extending the chosen prefix, and resets its own and deeper slots to -1 |
| PhaseSearch.TryPhase | day07/src/main.rs:291-344 | one iteration for phase x produces the orderings with x at this level |
| Router.Send | day23/src/main.rs:502-503 | delivering appends to the destination's input only |
| Router.Booted | day23/src/main.rs:464-469 | what the set-up loop leaves in one NIC; `BootedNics` and `RouteBoots` state it: the program loaded, Network(0) mode, its own address as its only input |
| Router.Boot | day23/src/main.rs:464-469 | the set-up loop of `run_network`; characterised by `BootedNics` |
| Router.BootedNics | day23/src/main.rs:464-469 | booting from NIC i on succeeds exactly when the program fits the tape; NICs before i are untouched, and each later NIC is the loaded program in Network(0) mode with its own address as its only input |
| Router.BootStep | day23/src/main.rs:464-469 | booting is one NIC followed by the rest |
| Router.Turn | day23/src/main.rs:477-505 | one NIC's turn; characterised by `TurnTakesOnePacket` (at most one triple is drained) and `TurnRoutesPacket` (255 goes to the NAT, any other destination must be a NIC and gets x then y, no other input changes) |
| Router.TurnTakesOnePacket | day23/src/main.rs:480-485 | a turn routes a packet exactly when the run left output, and drains exactly one triple from it |
| Router.TurnRoutesPacket | day23/src/main.rs:486-504 | destination 255 replaces the NAT packet and delivers nothing; any other destination must be a NIC, gets x then y, and no other NIC's input changes |
| Router.Sweep | day23/src/main.rs:476-507 | one sweep over the fifty NICs; characterised by `SweepIdleIffQuiet` (ends idle exactly when it started idle and no NIC wrote), `TurnRoutesPacket` and `SweepStep` |
| Router.SweepIdleOnlyIfIdle | day23/src/main.rs:476-507 | a sweep reports idle only if the network was idle before it |
| Router.SweepIdleIffQuiet | day23/src/main.rs:476-507 | a completed sweep ends idle exactly when it started idle and no NIC's run left any output (`Quiet`): any output clears the flag, and nothing else does |
| Router.Resume | day23/src/main.rs:510-511 | resuming appends the NAT packet to NIC 0's input only |
| Router.ListenStep | day23/src/main.rs:475-520 | an idle sweep whose NAT packet equals the one sent last time ends the loop with that packet's y; after an idle sweep whose NAT packet differs from the last one sent, the loop continues with that packet delivered to NIC 0 and remembered; after a busy sweep it continues with nothing delivered; every later sweep starts idle |
| Router.Listen | day23/src/main.rs:471-520 | the outer loop of `run_network`; characterised by `ListenStep` (an idle sweep with a repeated NAT packet stops with its y, any other idle or busy sweep continues as stated) and `FirstSweepNeverStops` |
| Router.FirstSweepNeverStops | day23/src/main.rs:473-519 | the network never stops in its first sweep: a result needs at least two sweeps |
| Router.RouteBoots | day23/src/main.rs:463-469 | booting 50 fresh NICs succeeds exactly when the program fits, and every NIC j is then Ready, in Network(0) mode, with input [j] |
| Router.BootNics | day23/src/main.rs:464-469 | the in-place boot loop computes `Boot` |
| Router.TakeTurn | day23/src/main.rs:477-505 | one in-place NIC turn computes `Turn` |
| Router.SweepStep | day23/src/main.rs:476-507 | one iteration of the sweep loop advances `Sweep` |
| Router.SweepNics | day23/src/main.rs:476-507 | the in-place sweep loop computes `Sweep` |
| Router.ResumeNat | day23/src/main.rs:508-511 | the in-place resume computes `Resume` |
| Router.ListenLoop | day23/src/main.rs:471-520 | the in-place outer loop computes `Listen` from NAT packet (0, 0) |
| Router.RunNetwork | day23/src/main.rs:462-521 | `run_network` computes `Route`: boot, then sweep until the NAT repeats |
| Router.Route | day23/src/main.rs:462-521 | `run_network`: boot, then `Listen` from NAT packet (0, 0); `RouteBoots` states the booted NICs |
| Adventure.FindFrom | day25/src/main.rs:496 | the search from i returns the first match at or after i, or None when there is none |
| Adventure.Find | day25/src/main.rs:496 | `find` returns the first match, and None exactly when there is none |
| Adventure.FindBelow | day25/src/main.rs:498 | the backward search returns the last match below k |
| Adventure.RFind | day25/src/main.rs:498 | `rfind` returns the last match, and None exactly when there is none |
| Adventure.Lines | day25/src/main.rs:500 | `lines` gives pieces without newlines, and none for empty text |
| Adventure.LinesJoin | day25/src/main.rs:500 | `lines` of newline-joined lines gives back those lines |
| Adventure.Item | day25/src/main.rs:501-503 | a line gives an item exactly when it contains "- " |
| Adventure.Items | day25/src/main.rs:500-504 | at most one item per line |
| Adventure.Bullets | day25/src/main.rs:500-504 | one bullet line per name |
| Adventure.BulletItems | day25/src/main.rs:500-504 | the items of bullet lines are the names |
| Adventure.InventoryOf | day25/src/main.rs:494-506 | the inventory is the items of the lines from the first "inventory:" plus 11 (`Find`) to the last "\n\n" (`RFind`); a missing marker is the `expect` panic, and a start past the end is the inverted-slice panic, each exactly when it happens |
| Adventure.ListingParses | day25/src/main.rs:494-506 | an inventory listing of bullet lines is parsed back to its names |
| Adventure.ListItems | day25/src/main.rs:500-504 | the line loop computes `Items` |
| Adventure.AsciiText | day25/src/main.rs:474-486 | the text keeps only words in [0,128), in order |
| Adventure.AsciiTextAppend | day25/src/main.rs:477-483 | the text of two output runs is the concatenation of their texts |
| Adventure.AsciiStep | day25/src/main.rs:477-483 | one loop iteration adds one character or none |
| Adventure.AsciiRoundTrip | day25/src/main.rs:474-486 | the text of the codes of an ASCII string is that string |
| Adventure.CommandEcho | day25/src/main.rs:453-458 | a sent command read back as output text is that command and a newline |
| Adventure.Sent | day25/src/main.rs:453-458 | sending keeps the queued input, appends one value per character of the command and then 10 (newline), and changes nothing else |
| Adventure.SendInput | day25/src/main.rs:453-458 | the in-place send computes `Sent` |
| Adventure.OutputToString | day25/src/main.rs:474-486 | draining computes `AsciiText` of the whole output queue and leaves it empty |
| Adventure.Converse | day25/src/main.rs:491-494 | sending a command, running and draining gives the reply `Reply` describes |
| Adventure.Reply | day25/src/main.rs:491-494 | typing a command, running and draining the output; characterised by `Sent` (the command's codes then 10 are queued) and `OutputToString` (the text is the ASCII of the drained output) |
| Adventure.GetInv | day25/src/main.rs:488-507 | `get_inv` parses the reply to "inv" with `InventoryOf` |
| Adventure.Hold | day25/src/main.rs:509-525 | setting an item's held flag changes only that entry, and a missing item panics |
| Adventure.TakeDropRestores | day25/src/main.rs:509-525 | taking then dropping an item not held restores the map |
| Adventure.Handle | day25/src/main.rs:509-525 | `take_item`/`drop_item` send the command and set the flag as `Hold` describes |
| Adventure.Classify | day25/src/main.rs:533-538 | Heavier exactly when the output contains "heavier"; Lighter exactly when it does not but contains "lighter" |
| Adventure.CheckWeight | day25/src/main.rs:527-539 | `check_weight` classifies the reply to "north" |
| Scaffold.Check | day17/src/main.rs:371-375 | an interior cell counts exactly when it and its four neighbours are '#'; a short neighbour row panics only after the cell itself is '#' |
| Scaffold.NoCrossingRow | day17/src/main.rs:369-379 | a row without crossings contributes nothing |
| Scaffold.ScanRowTotal | day17/src/main.rs:369-379 | on a rectangular view, a row's scan is the sum of x*y over its crossings |
| Scaffold.ScanRowsTotal | day17/src/main.rs:368-380 | on a rectangular view, the scan of the rows is the sum over all crossings so far |
| Scaffold.AlignmentIsTotal | day17/src/main.rs:365-383 | on a rectangular view, the alignment is the sum of x*y over all crossings; border cells never contribute |
| Scaffold.GetAlignmentParams | day17/src/main.rs:365-383 | the nested loop computes `Alignment` |
| Scaffold.ScanRowErr | day17/src/main.rs:369-379 | a panic in a row ends the scan with that panic |
| Scaffold.ScanRowsErr | day17/src/main.rs:368-380 | a panic in a row ends the whole scan with that panic |
| Scaffold.ScanRow | day17/src/main.rs:369-379 | the inner loop of `get_alignment_params`; characterised by `ScanRowTotal` and `ScanRowErr` |
| Scaffold.ScanRows | day17/src/main.rs:368-380 | the outer loop; characterised by `ScanRowsTotal` and `ScanRowsErr` |
| Scaffold.Alignment | day17/src/main.rs:365-383 | `get_alignment_params`; characterised by `AlignmentIsTotal` (the sum of x*y over all interior crossings) |
| Scaffold.Chars | day17/src/main.rs:448 | one character per output word |
| Scaffold.RowsOf | day17/src/main.rs:443-456 | splitting at 10 gives at least one row, none holding a newline |
| Scaffold.DropLast | day17/src/main.rs:457-458 | dropping the last row keeps the others |
| Scaffold.JoinSnoc | day17/src/main.rs:447-456 | joining one more row appends a newline and that row |
| Scaffold.RowsJoin | day17/src/main.rs:443-456 | the rows joined by newlines are exactly the output characters |
| Scaffold.ReadView | day17/src/main.rs:443-458 | the row-splitting loop drains the output and gives its rows, cut at each 10, without the last two |
| Scaffold.Picture | day17/src/main.rs:443-458 | the view `main` builds from the output; characterised by `RowsOf`, `RowsJoin` (the rows joined by newlines are exactly the output characters) and `DropLast` |
| Scaffold.RobotLines | day17/src/main.rs:386-405 | the robot's input text is the routine, the three functions, then "n", one per line |
| Scaffold.LineSplit | day17/src/main.rs:386-405 | a newline-terminated line is split off first |
| Scaffold.WakeLines | day17/src/main.rs:386-405 | any four newline-free lines sent this way are read back in order |
| Scaffold.PushCodes | day17/src/main.rs:392-394 | the send loop appends the codes of the text to the input queue only |
| Scaffold.ProgramRobot | day17/src/main.rs:385-406 | `program_robot` fails exactly on an empty tape; otherwise it sets cell 0 to 2 and queues the codes of the routine, A, B, C and "n", each line ending in 10, behind the queued input |
| Scaffold.Wake | day17/src/main.rs:385-406 | the same wake-up for any routine and three functions |
| Scaffold.Drawn | day17/src/main.rs:408-422 | drawing consumes the output from its oldest end, leaving a suffix of it, and any failure is an index out of range |
| Scaffold.DrawnShape | day17/src/main.rs:408-422 | drawing keeps the view's shape, writes only column 0, and never changes rows already passed |
| Scaffold.DrawnLine | day17/src/main.rs:409-417 | a line without newlines leaves its last character in column 0 |
| Scaffold.UpdateView | day17/src/main.rs:408-422 | the in-place `update_view` computes `Drawn` |
| Scaffold.RunRoutine | day17/src/main.rs:424-427 | `run_routine` runs the CPU and then draws its output |
| Beam.CheckCoord | day19/src/main.rs:463-470 | `check_coord` gives the probe of (x, y), which depends only on the program and the coordinates, not on earlier calls |
| Beam.Probe | day19/src/main.rs:463-470 | `check_coord` on a machine value; `CheckCoord` proves the in-place probe equal to it whatever the machine held before, because loading forgets it (`IntcodeFacts.LoadForgetsHistory`) |
| Beam.Prober | day19/src/main.rs:463-470 | the probe as a function of the coordinates, the `check` the plotting and fitting lemmas are stated over |
| Beam.PlotRow | day19/src/main.rs:425-445 | a row scan only adds cells |
| Beam.PlotRows | day19/src/main.rs:420-446 | the scan only adds cells |
| Beam.PlotRowSound | day19/src/main.rs:425-445 | every recorded cell of a row is 0 or 1, equals the probe, and lies in that row within 50 columns |
| Beam.PlotRowsSound | day19/src/main.rs:420-446 | every recorded cell is 0 or 1, equals the probe, and lies in the 50x50 square |
| Beam.BeamEndsRow | day19/src/main.rs:436-441 | once the beam has been found in a row, the first 0 ends the row |
| Beam.PlotRowStep | day19/src/main.rs:430-445 | one cell is recorded, then the row continues, stops, or moves `last_before` |
| Beam.PlotBeamRow | day19/src/main.rs:425-445 | the in-place row loop computes `PlotRow` |
| Beam.PlotRowsStep | day19/src/main.rs:420-446 | a row starts at `last_before` if the beam was found in the row before, else at 0 |
| Beam.Plot | day19/src/main.rs:417-447 | `plot_beam`; characterised by `PlotRowsSound` (every recorded cell is 0 or 1 and equals the probe) and `BeamEndsRow` |
| Beam.PlotBeam | day19/src/main.rs:417-447 | `plot_beam` computes `Plot` |
| Beam.CountAffected | day19/src/main.rs:449-461 | the count is the number of '#' cells in the canvas |
| Beam.FitSound | day19/src/main.rs:472-491 | a reported corner (x, y-99) has beam at (x, y) and at (x+99, y-99) |
| Beam.FitMiss | day19/src/main.rs:479-480 | a miss moves `last_before` to x and tries x+1 |
| Beam.FitHit | day19/src/main.rs:481-489 | a hit whose corner misses moves to the next row from `last_before`; a hit whose corner hits returns (x, y-99) |
| Beam.Fit | day19/src/main.rs:472-491 | the search of `fit_in_beam`; characterised by `FitSound` (a reported corner has the beam at both probed corners), `FitMiss` and `FitHit` |
| Beam.FitCorner | day19/src/main.rs:482-485 | the in-place corner probe advances `Fit` |
| Beam.FitQuestion | day19/src/main.rs:478-487 | one in-place probe advances `Fit` |
| Beam.FitInBeam | day19/src/main.rs:472-491 | `fit_in_beam` computes `Fit` from row 99 |
| Droid.Code | day15/src/main.rs:427-432 | move codes are North 1, South 2, West 3, East 4 |
| Droid.Reply | day15/src/main.rs:427-435 | one move sent and its status taken; `Move` proves the in-place move equal to it |
| Droid.Retreat | day15/src/main.rs:446-453 | the backtrack move sent and its status dropped if any; `MoveBack` proves the in-place move equal to it |
| Droid.Explore | day15/src/main.rs:416-454 | `explore_recursive` on values; characterised by `KnownCellUntouched`, `WallEndsBranch`, `ExploreVisits` and `ExploreSound` |
| Droid.Neighbours | day15/src/main.rs:442-445 | the four recursive calls; characterised by `NeighboursSound` and `NeighboursReach` |
| Droid.Steps | day15/src/main.rs:456-466 | `get_steps` on values; characterised by `StepsSound` |
| Droid.BacktrackUndoes | day15/src/main.rs:446-451 | the backtrack move is the reverse of the forward move and returns to the previous position |
| Droid.SoundChain | day15/src/main.rs:416-454 | two stretches of exploration that each only add cells, keep every recorded answer and depth, and leave `max_steps` at the smaller of its old value and the depths of the new cells that answered 2 (at most each such depth, equal to one of them when lowered) compose into one that does the same |
| Droid.KnownCellUntouched | day15/src/main.rs:424-426 | a known position is not queried again |
| Droid.WallEndsBranch | day15/src/main.rs:436-437 | a wall is recorded and ends the branch without backtracking |
| Droid.VisitSound | day15/src/main.rs:435-440 | recording a new cell's answer at depth `steps`, and lowering `max_steps` to `steps` when the answer is 2 and `steps` is smaller, is a sound step |
| Droid.ExploreSound | day15/src/main.rs:416-454 | exploring keeps every known cell, its answer and its depth, records pos at depth `steps`, puts every new cell at least `steps` moves out, and leaves `max_steps` at most the depth of every new cell that answered 2 and, when lowered, equal to the depth of one of them |
| Droid.NeighboursSound | day15/src/main.rs:442-445 | the same for the four recursive calls: new cells at least `steps` out, `max_steps` at most each new oxygen cell's depth and, when lowered, equal to one of them |
| Droid.StepsSound | day15/src/main.rs:456-466 | `get_steps` keeps the origin marked 3 and every answer it was given, maps all four neighbours and puts every discovered cell at depth at least 1; the answer is at most i64::MAX and at most the depth of every discovered cell that answered 2, and unless it is i64::MAX it equals the depth of one of them, so it is the fewest steps at which 2 was seen |
| Droid.NeighboursReach | day15/src/main.rs:442-445 | after the four calls, every neighbour is mapped |
| Droid.Move | day15/src/main.rs:427-435 | one in-place move sends the code, runs and takes the status as `Reply` describes |
| Droid.MoveBack | day15/src/main.rs:446-453 | the in-place backtrack sends the code, runs and drops the status as `Retreat` describes |
| Droid.ExploreRecursive | day15/src/main.rs:416-454 | the in-place recursion computes `Explore` |
| Droid.ExploreVisits | day15/src/main.rs:441-453 | after an open cell, the four calls are followed by the backtrack |
| Droid.ExploreNeighbours | day15/src/main.rs:442-445 | the four in-place calls compute `Neighbours` |
| Droid.GetSteps | day15/src/main.rs:456-466 | `get_steps` computes `Steps` |
| Droid.GetOxygenPos | day15/src/main.rs:491-500 | the first 'O' in row-major order, or None exactly when there is none |

## Left out

- Fuel: every `run` is bounded by a fuel count of cycles. So are the outer loops: `Painted` rounds, `Rounds` rounds, `Listen` sweeps, `Explore` depth and the `Fit` budget. When a bound runs out the model reports `Exhausted`; the source would keep looping.
- 64-bit overflow: words are unbounded integers, so Add, Mul, AdjBp, the base offset and `x * y` never wrap and never panic on overflow. The `as usize` and `as u8` casts are modelled exactly.
- The tape size is the constant `MemorySize` (1,000,000 cells). Day 5's tape is the program itself.
- Terminal and file I/O: `get_input`, the argument checks in every `main`, `read_input`, the ReadChar/ReadStdin modes, every `println!` trace and the print helpers (`print_cmd`, `print_prog`, `dump_program`, `print_canvas`, `print_cpu_ouput`). The day 5 input instruction takes its values from a list.
- Rendering: `draw_canvas`, `draw_floor` and `find_boundaries`, which only draw on the terminal.
- Day 15 `oxygen_flood_fill` and `get_oxygenation_time`: they clear the screen, print and sleep at every step.
- Day 25 `run_game`, `collect_items`, `hack_weight` and `try_items`: they are driven by stdin and the game's text.
- The `Dir` enums of days 17, 19, 23 and 25, which nothing uses.
- The day 25 text is a Dafny `string`. Slicing it by character equals Rust's byte slicing only for ASCII text, which is all `cpu_output_to_string` keeps.
- The suspend-style machines allow BreakOnOutput mode, although no day 15, 17, 19, 23 or 25 driver sets it.
- Beam.CheckCoord: states that the CPU is still in Normal mode only when the probe succeeds; a failed probe leaves the mode unstated. It also requires a Normal-mode CPU whose variant resets the base on load, as every day 19 CPU is.
- Beam.PlotBeamRow: the same restriction on the mode after a failure.
- Beam.FitQuestion: the same restriction on the mode after a failure.
- Beam.FitCorner: the same restriction on the mode after a failure.
- Diagnostic.CycleExtends: states that output is only appended, but not that input is consumed from the front.
