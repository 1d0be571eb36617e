/** The Intcode machine as a value: tape, instruction pointer, relative base,
    the two FIFO queues, the CPU mode and the lifecycle state, transformed by
    one fetch/decode/execute cycle at a time.

    Three generations of `Cpu` share this definition and differ only where
    `Variant` says:
    - `Suspending` (days 11, 15, 17, 19, 23, 25): `ip` moves at the end of
      `execute_cmd`, taken jumps and halts return before it moves, and input
      on an empty queue suspends the machine;
    - `AdvanceFirst` (day 9): `ip` moves by the instruction's width before it
      executes, and input on an empty queue panics;
    - `AdvanceFirstAbsolute` (day 7): as day 9, but relative mode is never
      applied to a write target and loading a program keeps the base. */
module Intcode {
  import opened Common
  import opened Decoder

  /** Cells of the zero-filled tape every `Cpu::new` allocates. */
  const MemorySize: nat := 1_000_000

  datatype Variant = Suspending | AdvanceFirst | AdvanceFirstAbsolute

  predicate AdvancesFirst(v: Variant)
  {
    v != Suspending
  }

  /** Whether a relative-mode write target is offset by the base. */
  predicate RelativeWrites(v: Variant)
  {
    v != AdvanceFirstAbsolute
  }

  /** Whether `load_program` resets the relative base. */
  predicate LoadResetsBase(v: Variant)
  {
    v != AdvanceFirstAbsolute
  }

  /** `Network(count)` counts the outputs of the packet being written. */
  datatype CpuMode = Normal | BreakOnOutput | Network(count: int)

  datatype State = Active | Ready | Halted

  /** The queues hold the oldest value first: producers `push_front`,
      consumers `pop_back`. */
  datatype Machine = Machine(ip: nat, bp: int, memory: seq<int>, ioIn: seq<int>, ioOut: seq<int>,
                             mode: CpuMode, state: State)

  /** The panics of the machine and of the drivers around it. */
  datatype Fault =
    | InvalidOpcode        // "Invalid opcode encountered!"
    | InvalidMode          // "Register mode not implemented!"
    | OutOfRange           // an index outside the tape
    | NoInput              // "No io available to read!"
    | InvalidNetworkState  // "Invalid network state encountered"
    | MissingValue         // a driver's `expect` on an empty queue or a missing entry
    | InvalidOutput        // a driver panics on an output it cannot interpret
    | Exhausted            // the fuel bound of the model ran out (not a panic of the source)

  datatype Result<T> = Ok(value: T) | Err(fault: Fault)

  /** A machine as `Cpu::new` builds it: a zero tape, both registers 0,
      empty queues, Normal mode, Halted. */
  function NewMachine(): (m: Machine)
    ensures |m.memory| == MemorySize && forall i :: 0 <= i < MemorySize ==> m.memory[i] == 0
    ensures m.ip == 0 && m.bp == 0 && m.ioIn == [] && m.ioOut == []
    ensures m.mode == Normal && m.state == Halted
  {
    Machine(0, 0, seq(MemorySize, _ => 0), [], [], Normal, Halted)
  }

  /** `load_program`: a copy of `program` at the start of a zero tape of the
      same size, ip 0, empty queues, Ready, the mode kept, and the base reset
      unless this is day 7's machine. A program longer than the tape panics
      in the slice copy. */
  function Load(v: Variant, m: Machine, program: seq<int>): (r: Result<Machine>)
    ensures r.Err? <==> |program| > |m.memory|
    ensures r.Err? ==> r.fault == OutOfRange
    ensures r.Ok? ==>
              && |r.value.memory| == |m.memory|
              && (forall i :: 0 <= i < |program| ==> r.value.memory[i] == program[i])
              && (forall i :: |program| <= i < |m.memory| ==> r.value.memory[i] == 0)
              && r.value.ip == 0 && r.value.ioIn == [] && r.value.ioOut == []
              && r.value.state == Ready && r.value.mode == m.mode
              && r.value.bp == (if LoadResetsBase(v) then 0 else m.bp)
  {
    if |program| > |m.memory| then Err(OutOfRange)
    else
      Ok(m.(ip := 0,
            bp := if LoadResetsBase(v) then 0 else m.bp,
            ioIn := [], ioOut := [], state := Ready,
            memory := program + seq(|m.memory| - |program|, _ => 0)))
  }

  /** `memory[a]`, which panics unless `a` is on the tape (a negative `i64`
      cast to `usize` is never on it). */
  function ReadCell(memory: seq<int>, a: int): (r: Result<int>)
    ensures r.Ok? <==> 0 <= a < |memory|
    ensures r.Ok? ==> r.value == memory[a]
    ensures r.Err? ==> r.fault == OutOfRange
  {
    if 0 <= a < |memory| then Ok(memory[a]) else Err(OutOfRange)
  }

  /** A decoded instruction: its command, the modes of its operands and the
      raw operand cells that follow the opcode. */
  datatype Decoded = Decoded(cmd: Cmd, modes: seq<RegMode>, raw: seq<int>)

  /** A command from the table with one mode and one raw cell per operand. */
  predicate ValidDecoded(d: Decoded)
  {
    WellFormed(d.cmd) && |d.modes| == d.cmd.nOperands && |d.raw| == d.cmd.nOperands
  }

  /** Fetch and decode at `ip` (the start of the `run` loop): the opcode cell,
      the command table, the mode digits and the operand cells, each of which
      can panic. */
  function Fetch(m: Machine): (r: Result<Decoded>)
    ensures m.ip >= |m.memory| ==> r == Err(OutOfRange)
    ensures r.Ok? ==>
              && m.ip < |m.memory|
              && GetCmd(m.memory[m.ip]) == Some(r.value.cmd)
              && GetMode(m.memory[m.ip], r.value.cmd.nOperands) == Some(r.value.modes)
              && ValidDecoded(r.value)
              && m.ip + r.value.cmd.nOperands < |m.memory|
              && forall i :: 0 <= i < |r.value.raw| ==> r.value.raw[i] == m.memory[m.ip + 1 + i]
    ensures m.ip < |m.memory| && GetCmd(m.memory[m.ip]).None? ==> r == Err(InvalidOpcode)
  {
    if m.ip >= |m.memory| then Err(OutOfRange)
    else
      var instruction := m.memory[m.ip];
      match GetCmd(instruction)
      case None => Err(InvalidOpcode)
      case Some(cmd) =>
        match GetMode(instruction, cmd.nOperands)
        case None => Err(InvalidMode)
        case Some(modes) =>
          if m.ip + cmd.nOperands >= |m.memory| then Err(OutOfRange)
          else Ok(Decoded(cmd, modes, m.memory[m.ip + 1 .. m.ip + 1 + cmd.nOperands]))
  }

  /** The value of a read operand: the cell it points at (position), itself
      (immediate), or the cell at base + operand (relative). */
  function OperandValue(m: Machine, mode: RegMode, raw: int): (r: Result<int>)
    ensures mode == Imm ==> r == Ok(raw)
    ensures mode == Pos ==> r == ReadCell(m.memory, raw)
    ensures mode == Rel ==> r == ReadCell(m.memory, m.bp + raw)
  {
    match mode
    case Pos => ReadCell(m.memory, raw)
    case Imm => Ok(raw)
    case Rel => ReadCell(m.memory, m.bp + raw)
  }

  /** The first k operands resolved as reads, in order. */
  function ResolveReads(m: Machine, modes: seq<RegMode>, raw: seq<int>, k: nat): (r: Result<seq<int>>)
    requires k <= |modes| && k <= |raw|
    ensures r.Ok? <==> forall i :: 0 <= i < k ==> OperandValue(m, modes[i], raw[i]).Ok?
    ensures r.Ok? ==>
              && |r.value| == k
              && forall i :: 0 <= i < k ==> r.value[i] == OperandValue(m, modes[i], raw[i]).value
    ensures r.Err? ==> r.fault == OutOfRange
  {
    if k == 0 then Ok([])
    else
      match ResolveReads(m, modes, raw, k - 1)
      case Err(f) => Err(f)
      case Ok(vals) =>
        match OperandValue(m, modes[k - 1], raw[k - 1])
        case Err(f) => Err(f)
        case Ok(x) => Ok(vals + [x])
  }

  /** The address a write operand names: never dereferenced, offset by the
      base in relative mode (except on day 7's machine), and used as-is in
      immediate mode, which has no branch of its own. */
  function WriteAddress(v: Variant, bp: int, mode: RegMode, raw: int): (a: int)
    ensures mode != Rel || !RelativeWrites(v) ==> a == raw
    ensures mode == Rel && RelativeWrites(v) ==> a == bp + raw
  {
    if RelativeWrites(v) && mode == Rel then bp + raw else raw
  }

  /** `memory[a] = x`, which panics unless `a` is on the tape. */
  function Store(m: Machine, a: int, x: int): (r: Result<Machine>)
    ensures r.Ok? <==> 0 <= a < |m.memory|
    ensures r.Ok? ==> r.value == m.(memory := m.memory[a := x])
    ensures r.Err? ==> r.fault == OutOfRange
  {
    if 0 <= a < |m.memory| then Ok(m.(memory := m.memory[a := x])) else Err(OutOfRange)
  }

  /** The `ip += n_operands + 1` that ends `execute_cmd` on the suspending
      machine; the advance-first machines moved `ip` before executing. */
  function Finish(v: Variant, r: Result<Machine>, n: nat): (r': Result<Machine>)
    ensures r.Err? ==> r' == r
    ensures r.Ok? && AdvancesFirst(v) ==> r' == r
    ensures r.Ok? && !AdvancesFirst(v) ==> r' == Ok(r.value.(ip := r.value.ip + n + 1))
  {
    match r
    case Err(f) => Err(f)
    case Ok(m) => if AdvancesFirst(v) then Ok(m) else Ok(m.(ip := m.ip + n + 1))
  }

  /** The output counter of network mode: 0 -> 1 -> 2 -> 0, the machine
      suspending when a three-value packet is complete. */
  function CountOutput(m: Machine): (r: Result<Machine>)
    requires m.mode.Network?
    ensures r.Ok? <==> 0 <= m.mode.count <= 2
    ensures r.Ok? ==> r.value.mode == Network((m.mode.count + 1) % 3)
    ensures r.Ok? ==> (r.value.state == Ready <==> m.mode.count == 2 || m.state == Ready)
    ensures r.Ok? ==> r.value == m.(mode := r.value.mode, state := r.value.state)
  {
    match m.mode.count
    case 0 => Ok(m.(mode := Network(1)))
    case 1 => Ok(m.(mode := Network(2)))
    case 2 => Ok(m.(mode := Network(0), state := Ready))
    case _ => Err(InvalidNetworkState)
  }

  /** How many leading operands are reads: all but the last of a writing
      instruction. */
  function NumReads(c: Cmd): (k: nat)
    requires WellFormed(c)
    ensures k <= c.nOperands && (k == c.nOperands <==> !c.writes)
  {
    if c.writes then c.nOperands - 1 else c.nOperands
  }

  /** The machine `execute_cmd` starts from: the advance-first machines have
      already moved `ip` past the instruction's `n + 1` cells. */
  function Advanced(v: Variant, m: Machine, n: nat): (m0: Machine)
    ensures m0 == m.(ip := m0.ip)
    ensures m0.ip == if AdvancesFirst(v) then m.ip + n + 1 else m.ip
  {
    if AdvancesFirst(v) then m.(ip := m.ip + n + 1) else m
  }

  /** The value an Add, Mul, Lt or Cmp stores. */
  function Arith(op: Op, x: int, y: int): (r: int)
    requires op in {Add, Mul, Lt, Cmp}
    ensures op == Lt ==> (r == 1 <==> x < y) && (r == 0 <==> x >= y)
    ensures op == Cmp ==> (r == 1 <==> x == y) && (r == 0 <==> x != y)
  {
    match op
    case Add => x + y
    case Mul => x * y
    case Lt => if x < y then 1 else 0
    case Cmp => if x == y then 1 else 0
  }

  /** The In instruction on machine `m0` (already advanced on the
      advance-first machines), storing at `target`. */
  function Input(v: Variant, m0: Machine, target: int, n: nat): (r: Result<Machine>)
  {
    if AdvancesFirst(v) then
      if m0.ioIn == [] then Err(NoInput)
      else Store(m0.(ioIn := m0.ioIn[1..]), target, m0.ioIn[0])
    else if m0.mode.Network? then
      if m0.ioIn == [] then Finish(v, Store(m0.(state := Ready), target, -1), n)
      else Finish(v, Store(m0.(ioIn := m0.ioIn[1..]), target, m0.ioIn[0]), n)
    else if m0.ioIn == [] then Ok(m0.(state := Ready))
    else Finish(v, Store(m0.(ioIn := m0.ioIn[1..]), target, m0.ioIn[0]), n)
  }

  /** The Out instruction on machine `m0`, emitting `x`. */
  function Output(v: Variant, m0: Machine, x: int, n: nat): (r: Result<Machine>)
  {
    var m1 := m0.(ioOut := m0.ioOut + [x]);
    if m0.mode == BreakOnOutput then Finish(v, Ok(m1.(state := Ready)), n)
    else if m0.mode.Network? && !AdvancesFirst(v) then Finish(v, CountOutput(m1), n)
    else Finish(v, Ok(m1), n)
  }

  /** A conditional jump on machine `m0`: taken, it sets `ip` to the target
      cast to `usize` and skips the final advance. */
  function Jump(v: Variant, m0: Machine, taken: bool, target: int, n: nat): (r: Result<Machine>)
  {
    if taken then Ok(m0.(ip := Usize(target))) else Finish(v, Ok(m0), n)
  }

  /** The match on the operation in `execute_cmd`, given the resolved read
      operands `vals`, on machine `m0`. */
  function Apply(v: Variant, m0: Machine, d: Decoded, vals: seq<int>): (r: Result<Machine>)
    requires ValidDecoded(d)
    requires |vals| == NumReads(d.cmd)
    ensures r.Ok? ==> |r.value.memory| == |m0.memory|
  {
    var n := d.cmd.nOperands;
    match d.cmd.op
    case Add => Finish(v, Store(m0, WriteAddress(v, m0.bp, d.modes[2], d.raw[2]), Arith(Add, vals[0], vals[1])), n)
    case Mul => Finish(v, Store(m0, WriteAddress(v, m0.bp, d.modes[2], d.raw[2]), Arith(Mul, vals[0], vals[1])), n)
    case Lt => Finish(v, Store(m0, WriteAddress(v, m0.bp, d.modes[2], d.raw[2]), Arith(Lt, vals[0], vals[1])), n)
    case Cmp => Finish(v, Store(m0, WriteAddress(v, m0.bp, d.modes[2], d.raw[2]), Arith(Cmp, vals[0], vals[1])), n)
    case In => Input(v, m0, WriteAddress(v, m0.bp, d.modes[0], d.raw[0]), n)
    case Out => Output(v, m0, vals[0], n)
    case Jnz => Jump(v, m0, vals[0] != 0, vals[1], n)
    case Jz => Jump(v, m0, vals[0] == 0, vals[1], n)
    case AdjBp => Finish(v, Ok(m0.(bp := m0.bp + vals[0])), n)
    case Hlt => Ok(m0.(state := Halted))
  }

  /** `execute_cmd` on a decoded instruction, with `m` the machine as it was
      fetched: resolve the reads, then act on the operation. */
  function Execute(v: Variant, m: Machine, d: Decoded): (r: Result<Machine>)
    requires ValidDecoded(d)
    ensures r.Ok? ==> |r.value.memory| == |m.memory|
  {
    match ResolveReads(m, d.modes, d.raw, NumReads(d.cmd))
    case Err(f) => Err(f)
    case Ok(vals) => Apply(v, Advanced(v, m, d.cmd.nOperands), d, vals)
  }

  /** One pass of the `run` loop body. */
  function Cycle(v: Variant, m: Machine): (r: Result<Machine>)
    ensures r.Ok? ==> |r.value.memory| == |m.memory|
  {
    match Fetch(m)
    case Err(f) => Err(f)
    case Ok(d) => Execute(v, m, d)
  }

  /** How a bounded run ends: the machine left Active, a panic, or the fuel
      ran out first. */
  datatype Outcome = Stopped(m: Machine) | Panicked(fault: Fault) | OutOfFuel

  /** One cycle of the machine of variant `v`, as a step function. */
  function Step(v: Variant): Machine -> Result<Machine>
  {
    m => Cycle(v, m)
  }

  /** The `run` loop from a machine already marked Active, for at most `fuel`
      cycles of `step`. The loop tests the state after every cycle. */
  function RunFrom(step: Machine -> Result<Machine>, m: Machine, fuel: nat): (r: Outcome)
    decreases fuel, 0
  {
    if fuel == 0 then OutOfFuel else AfterCycle(step, step(m), fuel - 1)
  }

  /** The loop's test after a cycle that produced `c`. */
  function AfterCycle(step: Machine -> Result<Machine>, c: Result<Machine>, fuel: nat): (r: Outcome)
    ensures r.Stopped? ==> r.m.state != Active
    decreases fuel, 1
  {
    match c
    case Err(f) => Panicked(f)
    case Ok(m') => if m'.state != Active then Stopped(m') else RunFrom(step, m', fuel)
  }

  /** A run as the drivers see it: the machine it stopped in, or why it
      did not stop. */
  function Settle(o: Outcome): (r: Result<Machine>)
    ensures r.Ok? <==> o.Stopped?
    ensures r.Ok? ==> r.value == o.m
    ensures o.OutOfFuel? ==> r == Err(Exhausted)
    ensures o.Panicked? ==> r == Err(o.fault)
  {
    match o
    case Stopped(m) => Ok(m)
    case Panicked(f) => Err(f)
    case OutOfFuel => Err(Exhausted)
  }

  /** `run`: mark the machine Active and loop until it is not. */
  function Run(v: Variant, m: Machine, fuel: nat): Outcome
  {
    RunFrom(Step(v), m.(state := Active), fuel)
  }

  /** `run` as the drivers call it, for at most `fuel` instructions: the
      machine it stopped in, or why it did not stop. */
  function Runner(v: Variant, fuel: nat): Machine -> Result<Machine>
  {
    m => Settle(Run(v, m, fuel))
  }
}
