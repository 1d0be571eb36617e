/** The `Cpu` struct as an object: its registers, tape, queues, mode and
    lifecycle state are fields that `load_program`, `get_mode`,
    `execute_cmd` and `run` update in place. Every method is proved to do
    exactly what the value-level machine of module `Intcode` says, so the
    properties proved there hold of the object. */
module IntcodeCpu {
  import opened Common
  import opened Decoder
  import opened Intcode

  class Cpu {
    /** Which generation of the machine this is (fixed when it is built). */
    const variant: Variant
    var ip: nat
    var bp: int
    /** The tape: a fixed-size buffer that is only ever written in place. */
    const memory: array<int>
    /** Input and output queues, oldest value first. */
    var ioIn: seq<int>
    var ioOut: seq<int>
    var mode: CpuMode
    var state: State
    /** Only decides whether inputs and outputs are echoed to the terminal. */
    var verbose: bool

    /** The machine value this object currently holds. */
    function Abstract(): (m: Machine)
      reads this, memory
      ensures |m.memory| == memory.Length
    {
      Machine(ip, bp, memory[..], ioIn, ioOut, mode, state)
    }

    /** `Cpu::new`: a zero tape of `MemorySize` cells, Normal mode, Halted. */
    constructor (variant: Variant)
      ensures this.variant == variant && fresh(memory)
      ensures Abstract() == NewMachine() && verbose
    {
      this.variant := variant;
      ip, bp := 0, 0;
      memory := new int[MemorySize](_ => 0);
      ioIn, ioOut := [], [];
      mode, state := Normal, Halted;
      verbose := true;
      new;
      assert memory[..] == seq(MemorySize, _ => 0);
    }

    /** `load_program`: reset the registers and queues, zero the whole tape,
        then copy the program to its start. Copying a program longer than
        the tape panics. */
    method LoadProgram(program: seq<int>) returns (fault: Option<Fault>)
      modifies this, memory
      ensures fault.None? <==> |program| <= memory.Length
      ensures fault.None? ==> Load(variant, old(Abstract()), program) == Ok(Abstract())
      ensures fault.Some? ==> Load(variant, old(Abstract()), program) == Err(fault.value)
      ensures mode == old(mode) && verbose == old(verbose)
    {
      ghost var before := old(Abstract());
      ip := 0;
      if LoadResetsBase(variant) {
        bp := 0;
      }
      ioIn, ioOut := [], [];
      state := Ready;
      var i := 0;
      while i < memory.Length
        modifies memory
        invariant 0 <= i <= memory.Length
        invariant forall k :: 0 <= k < i ==> memory[k] == 0
      {
        memory[i] := 0;
        i := i + 1;
      }
      if |program| > memory.Length {
        return Some(OutOfRange);
      }
      i := 0;
      while i < |program|
        modifies memory
        invariant 0 <= i <= |program|
        invariant forall k :: 0 <= k < i ==> memory[k] == program[k]
        invariant forall k :: |program| <= k < memory.Length ==> memory[k] == 0
      {
        memory[i] := program[i];
        i := i + 1;
      }
      assert memory[..] == program + seq(memory.Length - |program|, _ => 0);
      return None;
    }

    /** `get_mode`: the modes of the n operands, read digit by digit from
        instruction / 100 with Rust's truncating `%` and `/`. A digit above
        2 panics ("Register mode not implemented!"). */
    method GetModes(instruction: int, n: nat) returns (modes: Option<seq<RegMode>>)
      ensures modes == GetMode(instruction, n)
    {
      var digits := TruncDiv(instruction, 100);
      var acc: seq<RegMode> := [];
      assert GetMode(instruction, n) == ModeDigits(digits, n);
      assert forall rest: seq<RegMode> :: acc + rest == rest;
      var i := 0;
      while i < n
        invariant 0 <= i <= n
        invariant |acc| == i
        invariant GetMode(instruction, n) ==
                    match ModeDigits(digits, n - i)
                    case None => None
                    case Some(rest) => Some(acc + rest)
      {
        var m := ModeOf(TruncRem(digits, 10));
        if m.None? {
          return None;
        }
        assert forall rest: seq<RegMode> :: (acc + [m.value]) + rest == acc + ([m.value] + rest);
        acc := acc + [m.value];
        digits := TruncDiv(digits, 10);
        i := i + 1;
      }
      assert acc + [] == acc;
      return Some(acc);
    }

    /** `memory[a] = x`, panicking when `a` is not a tape index. */
    method WriteCell(a: int, x: int) returns (fault: Option<Fault>)
      modifies memory
      ensures fault.None? <==> 0 <= a < memory.Length
      ensures fault.Some? ==> fault == Some(OutOfRange) && memory[..] == old(memory[..])
      ensures fault.None? ==> memory[..] == old(memory[..])[a := x]
    {
      if !(0 <= a < memory.Length) {
        return Some(OutOfRange);
      }
      memory[a] := x;
      return None;
    }

    /** The top of the `run` loop and of `execute_cmd`: the opcode cell, the
        command table, the mode digits and the operand cells after the
        opcode. */
    method FetchCmd() returns (r: Result<Decoded>)
      ensures r == Fetch(Abstract())
    {
      if ip >= memory.Length {
        return Err(OutOfRange);
      }
      var instruction := memory[ip];
      var cmd := GetCmd(instruction);
      if cmd.None? {
        return Err(InvalidOpcode);
      }
      var modes := GetModes(instruction, cmd.value.nOperands);
      if modes.None? {
        return Err(InvalidMode);
      }
      var n := cmd.value.nOperands;
      if ip + n >= memory.Length {
        return Err(OutOfRange);
      }
      var raw: seq<int> := [];
      while |raw| < n
        invariant |raw| <= n
        invariant raw == memory[ip + 1 .. ip + 1 + |raw|]
      {
        raw := raw + [memory[ip + 1 + |raw|]];
      }
      return Ok(Decoded(cmd.value, modes.value, raw));
    }

    /** The first loop of `execute_cmd`: every read operand is replaced by
        the value it resolves to, in order; the first one off the tape
        panics. */
    method ResolveOperands(d: Decoded, ghost m: Machine) returns (r: Result<seq<int>>)
      requires ValidDecoded(d) && memory[..] == m.memory && bp == m.bp
      ensures r == ResolveReads(m, d.modes, d.raw, NumReads(d.cmd))
    {
      var k := NumReads(d.cmd);
      var reg := d.raw;
      var i := 0;
      while i < k
        invariant 0 <= i <= k && |reg| == |d.raw|
        invariant ResolveReads(m, d.modes, d.raw, i).Ok?
        invariant reg[..i] == ResolveReads(m, d.modes, d.raw, i).value
        invariant reg[i..] == d.raw[i..]
      {
        var x := reg[i];
        if d.modes[i] != Imm {
          var a := if d.modes[i] == Rel then bp + reg[i] else reg[i];
          if !(0 <= a < memory.Length) {
            assert OperandValue(m, d.modes[i], d.raw[i]).Err?;
            return Err(OutOfRange);
          }
          x := memory[a];
        }
        assert OperandValue(m, d.modes[i], d.raw[i]) == Ok(x);
        assert ResolveReads(m, d.modes, d.raw, i + 1) == Ok(reg[..i] + [x]);
        reg := reg[i := x];
        assert reg[..i + 1] == reg[..i] + [x];
        i := i + 1;
      }
      return Ok(reg[..k]);
    }

    /** Add, Mul, Lt and Cmp: store at the target; the caller advances. */
    method Arithmetic(d: Decoded, vals: seq<int>) returns (fault: Option<Fault>)
      requires ValidDecoded(d) && d.cmd.op in {Add, Mul, Lt, Cmp} && |vals| == NumReads(d.cmd)
      modifies memory
      ensures fault.None? ==>
                Apply(variant, old(Abstract()), d, vals) == Finish(variant, Ok(Abstract()), d.cmd.nOperands)
      ensures fault.Some? ==> Apply(variant, old(Abstract()), d, vals) == Err(fault.value)
    {
      var target := WriteAddress(variant, bp, d.modes[2], d.raw[2]);
      fault := WriteCell(target, Arith(d.cmd.op, vals[0], vals[1]));
    }

    /** In: take the oldest queued value. An empty queue panics on the
        advance-first machines, gives -1 and suspends in network mode, and
        otherwise suspends before anything changes (`waited`). */
    method InputCmd(d: Decoded) returns (fault: Option<Fault>, waited: bool)
      requires ValidDecoded(d) && d.cmd.op == In
      modifies this, memory
      ensures fault.None? && waited ==> Input(variant, old(Abstract()), WriteAddress(variant, old(bp), d.modes[0], d.raw[0]), 1) == Ok(Abstract())
      ensures fault.None? && !waited ==>
                Input(variant, old(Abstract()), WriteAddress(variant, old(bp), d.modes[0], d.raw[0]), 1) == Finish(variant, Ok(Abstract()), 1)
      ensures fault.Some? ==> Input(variant, old(Abstract()), WriteAddress(variant, old(bp), d.modes[0], d.raw[0]), 1) == Err(fault.value)
      ensures verbose == old(verbose)
    {
      waited := false;
      var target := WriteAddress(variant, bp, d.modes[0], d.raw[0]);
      var input: int;
      if AdvancesFirst(variant) {
        if ioIn == [] {
          return Some(NoInput), false;
        }
        input, ioIn := ioIn[0], ioIn[1..];
      } else if mode.Network? {
        if ioIn == [] {
          input, state := -1, Ready;
        } else {
          input, ioIn := ioIn[0], ioIn[1..];
        }
      } else {
        if ioIn == [] {
          state := Ready;
          return None, true;
        }
        input, ioIn := ioIn[0], ioIn[1..];
      }
      fault := WriteCell(target, input);
    }

    /** Out: queue the value; break-on-output suspends, and the suspending
        machine's network mode counts the outputs of a packet. */
    method OutputCmd(x: int) returns (fault: Option<Fault>)
      modifies this
      ensures fault.None? ==> Output(variant, old(Abstract()), x, 1) == Finish(variant, Ok(Abstract()), 1)
      ensures fault.Some? ==> Output(variant, old(Abstract()), x, 1) == Err(fault.value)
      ensures verbose == old(verbose)
    {
      ioOut := ioOut + [x];
      if mode == BreakOnOutput {
        state := Ready;
      } else if mode.Network? && !AdvancesFirst(variant) {
        match mode.count {
          case 0 => mode := Network(1);
          case 1 => mode := Network(2);
          case 2 => mode, state := Network(0), Ready;
          case _ => return Some(InvalidNetworkState);
        }
      }
      return None;
    }

    /** A conditional jump: taken, it moves `ip` to the target cast to
        `usize` and returns before the final advance. */
    method JumpCmd(taken: bool, target: int) returns (early: bool)
      modifies this
      ensures early ==> Jump(variant, old(Abstract()), taken, target, 2) == Ok(Abstract())
      ensures !early ==> Jump(variant, old(Abstract()), taken, target, 2) == Finish(variant, Ok(Abstract()), 2)
      ensures verbose == old(verbose)
    {
      if taken {
        ip := Usize(target);
        return true;
      }
      return false;
    }

    /** The match on the operation in `execute_cmd`. `early` says that the
        instruction returned before the final advance: a taken jump, a halt
        or a wait for input. */
    method ApplyCmd(d: Decoded, vals: seq<int>) returns (fault: Option<Fault>, early: bool)
      requires ValidDecoded(d) && |vals| == NumReads(d.cmd)
      modifies this, memory
      ensures fault.None? && early ==> Apply(variant, old(Abstract()), d, vals) == Ok(Abstract())
      ensures fault.None? && !early ==>
                Apply(variant, old(Abstract()), d, vals) == Finish(variant, Ok(Abstract()), d.cmd.nOperands)
      ensures fault.Some? ==> Apply(variant, old(Abstract()), d, vals) == Err(fault.value)
      ensures verbose == old(verbose)
    {
      early := false;
      match d.cmd.op {
        case Add =>
          fault := Arithmetic(d, vals);
        case Mul =>
          fault := Arithmetic(d, vals);
        case Lt =>
          fault := Arithmetic(d, vals);
        case Cmp =>
          fault := Arithmetic(d, vals);
        case In =>
          fault, early := InputCmd(d);
        case Out =>
          fault := OutputCmd(vals[0]);
        case Jnz =>
          fault := None;
          early := JumpCmd(vals[0] != 0, vals[1]);
        case Jz =>
          fault := None;
          early := JumpCmd(vals[0] == 0, vals[1]);
        case AdjBp =>
          bp := bp + vals[0];
          fault := None;
        case Hlt =>
          state := Halted;
          fault, early := None, true;
      }
    }

    /** `execute_cmd` on an instruction fetched from machine `m` (this
        object before an advance-first machine moved its pointer): resolve
        the reads, act on the operation, then, on the suspending machine,
        move past the instruction unless it returned early. */
    method ExecuteCmd(d: Decoded, ghost m: Machine) returns (fault: Option<Fault>)
      requires ValidDecoded(d) && Abstract() == Advanced(variant, m, d.cmd.nOperands)
      modifies this, memory
      ensures fault.None? ==> Execute(variant, m, d) == Ok(Abstract())
      ensures fault.Some? ==> Execute(variant, m, d) == Err(fault.value)
      ensures verbose == old(verbose)
    {
      var resolved := ResolveOperands(d, m);
      if resolved.Err? {
        return Some(resolved.fault);
      }
      var early: bool;
      fault, early := ApplyCmd(d, resolved.value);
      if fault.None? && !early && !AdvancesFirst(variant) {
        ip := ip + d.cmd.nOperands + 1;
      }
    }

    /** `io_in.push_front(x)`: queue `x` behind the values already queued. */
    method PushInput(x: int)
      modifies this
      ensures Abstract() == old(Abstract()).(ioIn := old(ioIn) + [x])
      ensures verbose == old(verbose)
    {
      ioIn := ioIn + [x];
    }

    /** `io_out.push_front(x)`: queue `x` as the newest output. */
    method PushOutput(x: int)
      modifies this
      ensures Abstract() == old(Abstract()).(ioOut := old(ioOut) + [x])
      ensures verbose == old(verbose)
    {
      ioOut := ioOut + [x];
    }

    /** Set the CPU mode. */
    method SetMode(mode: CpuMode)
      modifies this
      ensures Abstract() == old(Abstract()).(mode := mode)
      ensures verbose == old(verbose)
    {
      this.mode := mode;
    }

    /** `io_out.pop_back()`: take the oldest output, if there is one. */
    method PopOutput() returns (x: Option<int>)
      modifies this
      ensures old(ioOut) == [] ==> x == None && Abstract() == old(Abstract())
      ensures old(ioOut) != [] ==> x == Some(old(ioOut)[0]) && Abstract() == old(Abstract()).(ioOut := old(ioOut)[1..])
      ensures verbose == old(verbose)
    {
      if ioOut == [] {
        return None;
      }
      x := Some(ioOut[0]);
      ioOut := ioOut[1..];
    }

    /** `run`: mark the machine Active and fetch, decode and execute until
        it is not, for at most `fuel` instructions. */
    method Run(fuel: nat) returns (r: Outcome)
      modifies this, memory
      ensures r == Intcode.Run(variant, old(Abstract()), fuel)
      ensures r.Stopped? ==> r.m == Abstract()
      ensures verbose == old(verbose)
    {
      state := Active;
      var f := fuel;
      while f > 0
        invariant state == Active && verbose == old(verbose)
        invariant Intcode.Run(variant, old(Abstract()), fuel) == RunFrom(Step(variant), Abstract(), f)
        decreases f
      {
        ghost var m := Abstract();
        assert RunFrom(Step(variant), m, f) == AfterCycle(Step(variant), Cycle(variant, m), f - 1);
        var fetched := FetchCmd();
        if fetched.Err? {
          return Panicked(fetched.fault);
        }
        var d := fetched.value;
        assert Cycle(variant, m) == Execute(variant, m, d);
        if AdvancesFirst(variant) {
          ip := ip + d.cmd.nOperands + 1;
        }
        var fault := ExecuteCmd(d, m);
        f := f - 1;
        if fault.Some? {
          return Panicked(fault.value);
        }
        assert Cycle(variant, m) == Ok(Abstract());
        if state != Active {
          return Stopped(Abstract());
        }
      }
      return OutOfFuel;
    }
  }
}
