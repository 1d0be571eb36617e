/** What one cycle and a whole run of the Intcode machine do, stated against
    the decoded instruction. A cycle is `Execute` on what `Fetch` decoded,
    so the facts about one instruction are stated on `Execute`. */
module IntcodeFacts {
  import opened Common
  import opened Decoder
  import opened Intcode

  /** Loading is a full reset: loading the same program again straight
      away, or into a machine with any other history (same tape size and
      mode, and the same base on day 7's machine), gives the same machine. */
  lemma LoadIdempotent(v: Variant, m: Machine, program: seq<int>)
    requires |program| <= |m.memory|
    ensures Load(v, m, program).Ok?
    ensures Load(v, Load(v, m, program).value, program) == Load(v, m, program)
  {
    var m1 := Load(v, m, program).value;
    assert m1.memory == program + seq(|m.memory| - |program|, _ => 0);
  }

  lemma LoadForgetsHistory(v: Variant, m1: Machine, m2: Machine, program: seq<int>)
    requires |m1.memory| == |m2.memory| && m1.mode == m2.mode
    requires LoadResetsBase(v) || m1.bp == m2.bp
    ensures Load(v, m1, program) == Load(v, m2, program)
  {
  }

  /** The value operand i of a fetched instruction resolves to. */
  function Operand(m: Machine, d: Decoded, i: nat): Result<int>
    requires i < |d.modes| && i < |d.raw|
  {
    OperandValue(m, d.modes[i], d.raw[i])
  }

  /** The address the last operand of a writing instruction names. */
  function Target(v: Variant, m: Machine, d: Decoded): int
    requires 0 < |d.modes| && |d.modes| == |d.raw|
  {
    WriteAddress(v, m.bp, d.modes[|d.modes| - 1], d.raw[|d.raw| - 1])
  }

  /** Add, Mul, Lt and Cmp succeed exactly when both read operands and the
      target are on the tape, store their value at the target, and move past
      the instruction's four cells; nothing else changes. */
  lemma StepArithmetic(v: Variant, m: Machine, d: Decoded)
    requires ValidDecoded(d) && d.cmd.op in {Add, Mul, Lt, Cmp}
    ensures Execute(v, m, d).Ok? <==>
              Operand(m, d, 0).Ok? && Operand(m, d, 1).Ok? && 0 <= Target(v, m, d) < |m.memory|
    ensures Execute(v, m, d).Ok? ==>
              Execute(v, m, d).value ==
                m.(ip := m.ip + 4,
                   memory := m.memory[Target(v, m, d) := Arith(d.cmd.op, Operand(m, d, 0).value, Operand(m, d, 1).value)])
  {
    assert d.cmd.nOperands == 3;
  }

  /** A conditional jump that is taken puts `ip` at its second operand (cast
      to `usize`), one that is not taken moves past its three cells. */
  lemma StepJump(v: Variant, m: Machine, d: Decoded)
    requires ValidDecoded(d) && d.cmd.op in {Jnz, Jz}
    ensures Execute(v, m, d).Ok? <==> Operand(m, d, 0).Ok? && Operand(m, d, 1).Ok?
    ensures Execute(v, m, d).Ok? ==>
              var taken := if d.cmd.op == Jnz then Operand(m, d, 0).value != 0 else Operand(m, d, 0).value == 0;
              Execute(v, m, d).value == m.(ip := if taken then Usize(Operand(m, d, 1).value) else m.ip + 3)
  {
    assert d.cmd.nOperands == 2;
  }

  /** AdjBp adds its operand to the base and moves past its two cells. */
  lemma StepAdjustBase(v: Variant, m: Machine, d: Decoded)
    requires ValidDecoded(d) && d.cmd.op == AdjBp
    ensures Execute(v, m, d).Ok? <==> Operand(m, d, 0).Ok?
    ensures Execute(v, m, d).Ok? ==> Execute(v, m, d).value == m.(ip := m.ip + 2, bp := m.bp + Operand(m, d, 0).value)
  {
    assert d.cmd.nOperands == 1;
  }

  /** Halt never fails and only changes the state; the suspending machine
      leaves `ip` on the 99 cell, the advance-first machines one past it. */
  lemma StepHalt(v: Variant, m: Machine, d: Decoded)
    requires ValidDecoded(d) && d.cmd.op == Hlt
    ensures Execute(v, m, d) == Ok(m.(state := Halted, ip := if AdvancesFirst(v) then m.ip + 1 else m.ip))
  {
    assert d.cmd.nOperands == 0;
  }

  /** Input with a value available takes the oldest one, stores it at the
      target and moves past the two cells, in every variant and mode. */
  lemma StepInput(v: Variant, m: Machine, d: Decoded)
    requires ValidDecoded(d) && d.cmd.op == In && m.ioIn != []
    ensures Execute(v, m, d).Ok? <==> 0 <= Target(v, m, d) < |m.memory|
    ensures Execute(v, m, d).Ok? ==>
              Execute(v, m, d).value ==
                m.(ip := m.ip + 2, ioIn := m.ioIn[1..], memory := m.memory[Target(v, m, d) := m.ioIn[0]])
  {
    assert d.cmd.nOperands == 1;
  }

  /** Input on an empty queue: the suspending machine outside network mode
      only becomes Ready (no cell, queue or pointer changes, so a later run
      retries the same instruction); in network mode it stores -1, moves on
      and becomes Ready; the advance-first machines panic. */
  lemma StepInputEmpty(v: Variant, m: Machine, d: Decoded)
    requires ValidDecoded(d) && d.cmd.op == In && m.ioIn == []
    ensures AdvancesFirst(v) ==> Execute(v, m, d) == Err(NoInput)
    ensures !AdvancesFirst(v) && !m.mode.Network? ==> Execute(v, m, d) == Ok(m.(state := Ready))
    ensures !AdvancesFirst(v) && m.mode.Network? ==>
              && (Execute(v, m, d).Ok? <==> 0 <= Target(v, m, d) < |m.memory|)
              && (Execute(v, m, d).Ok? ==>
                    Execute(v, m, d).value == m.(ip := m.ip + 2, state := Ready, memory := m.memory[Target(v, m, d) := -1]))
  {
    assert d.cmd.nOperands == 1;
  }

  /** Output appends its operand to the output queue and moves past the two
      cells; break-on-output then suspends, and the suspending machine's
      network mode counts the value towards a three-value packet. */
  lemma StepOutput(v: Variant, m: Machine, d: Decoded)
    requires ValidDecoded(d) && d.cmd.op == Out
    ensures Operand(m, d, 0).Err? ==> Execute(v, m, d).Err?
    ensures Operand(m, d, 0).Ok? && !(m.mode.Network? && !AdvancesFirst(v)) ==>
              Execute(v, m, d) ==
                Ok(m.(ip := m.ip + 2, ioOut := m.ioOut + [Operand(m, d, 0).value],
                      state := if m.mode == BreakOnOutput then Ready else m.state))
    ensures Operand(m, d, 0).Ok? && m.mode.Network? && !AdvancesFirst(v) ==>
              && (Execute(v, m, d).Ok? <==> 0 <= m.mode.count <= 2)
              && (Execute(v, m, d).Ok? ==>
                    Execute(v, m, d).value ==
                      m.(ip := m.ip + 2, ioOut := m.ioOut + [Operand(m, d, 0).value],
                         mode := Network((m.mode.count + 1) % 3),
                         state := if m.mode.count == 2 then Ready else m.state))
  {
    assert d.cmd.nOperands == 1;
  }

  /** A run that ends within some fuel ends the same way with more. */
  lemma {:induction false} RunFromMoreFuel(step: Machine -> Result<Machine>, m: Machine, fuel: nat, more: nat)
    requires RunFrom(step, m, fuel) != OutOfFuel
    ensures RunFrom(step, m, fuel + more) == RunFrom(step, m, fuel)
    decreases fuel, 0
  {
    AfterCycleMoreFuel(step, step(m), fuel - 1, more);
  }

  lemma {:induction false} AfterCycleMoreFuel(step: Machine -> Result<Machine>, c: Result<Machine>, fuel: nat, more: nat)
    requires AfterCycle(step, c, fuel) != OutOfFuel
    ensures AfterCycle(step, c, fuel + more) == AfterCycle(step, c, fuel)
    decreases fuel, 1
  {
    if c.Ok? && c.value.state == Active {
      RunFromMoreFuel(step, c.value, fuel, more);
    }
  }

  /** Decoding reads only `ip` and the tape. */
  lemma FetchReadsTape(m1: Machine, m2: Machine)
    requires m1.ip == m2.ip && m1.memory == m2.memory
    ensures Fetch(m1) == Fetch(m2)
  {
  }

  /** A cycle that does not leave the machine Ready did not wait for input,
      so values appended to the input queue beforehand are still there after
      it, behind whatever the cycle left. */
  lemma CycleWithMoreInput(v: Variant, m: Machine, xs: seq<int>)
    requires Cycle(v, m).Ok? && Cycle(v, m).value.state != Ready
    ensures Cycle(v, WithMoreInput(m, xs)) == Ok(WithMoreInput(Cycle(v, m).value, xs))
  {
    FetchReadsTape(m, WithMoreInput(m, xs));
    ExecuteWithMoreInput(v, m, Fetch(m).value, xs);
  }

  /** Execute on a machine with `xs` appended to its input queue. */
  function WithMoreInput(m: Machine, xs: seq<int>): Machine
  {
    m.(ioIn := m.ioIn + xs)
  }

  lemma ExecuteWithMoreInput(v: Variant, m: Machine, d: Decoded, xs: seq<int>)
    requires ValidDecoded(d) && Execute(v, m, d).Ok? && Execute(v, m, d).value.state != Ready
    ensures Execute(v, WithMoreInput(m, xs), d) == Ok(WithMoreInput(Execute(v, m, d).value, xs))
  {
    if d.cmd.op in {Add, Mul, Lt, Cmp} {
      MoreInputArithmetic(v, m, d, xs);
    } else if d.cmd.op in {Jnz, Jz} {
      MoreInputJump(v, m, d, xs);
    } else if d.cmd.op == AdjBp {
      MoreInputAdjustBase(v, m, d, xs);
    } else if d.cmd.op == Out {
      MoreInputOutput(v, m, d, xs);
    } else if d.cmd.op == In {
      MoreInputInput(v, m, d, xs);
    } else {
      StepHalt(v, m, d);
    }
  }

  lemma MoreInputArithmetic(v: Variant, m: Machine, d: Decoded, xs: seq<int>)
    requires ValidDecoded(d) && d.cmd.op in {Add, Mul, Lt, Cmp} && Execute(v, m, d).Ok?
    ensures Execute(v, WithMoreInput(m, xs), d) == Ok(WithMoreInput(Execute(v, m, d).value, xs))
  {
    var mx := WithMoreInput(m, xs);
    assert Operand(mx, d, 0) == Operand(m, d, 0) && Operand(mx, d, 1) == Operand(m, d, 1);
    StepArithmetic(v, m, d);
    StepArithmetic(v, mx, d);
  }

  lemma MoreInputJump(v: Variant, m: Machine, d: Decoded, xs: seq<int>)
    requires ValidDecoded(d) && d.cmd.op in {Jnz, Jz} && Execute(v, m, d).Ok?
    ensures Execute(v, WithMoreInput(m, xs), d) == Ok(WithMoreInput(Execute(v, m, d).value, xs))
  {
    var mx := WithMoreInput(m, xs);
    assert Operand(mx, d, 0) == Operand(m, d, 0) && Operand(mx, d, 1) == Operand(m, d, 1);
    StepJump(v, m, d);
    StepJump(v, mx, d);
  }

  lemma MoreInputAdjustBase(v: Variant, m: Machine, d: Decoded, xs: seq<int>)
    requires ValidDecoded(d) && d.cmd.op == AdjBp && Execute(v, m, d).Ok?
    ensures Execute(v, WithMoreInput(m, xs), d) == Ok(WithMoreInput(Execute(v, m, d).value, xs))
  {
    var mx := WithMoreInput(m, xs);
    assert Operand(mx, d, 0) == Operand(m, d, 0);
    StepAdjustBase(v, m, d);
    StepAdjustBase(v, mx, d);
  }

  lemma MoreInputOutput(v: Variant, m: Machine, d: Decoded, xs: seq<int>)
    requires ValidDecoded(d) && d.cmd.op == Out && Execute(v, m, d).Ok?
    ensures Execute(v, WithMoreInput(m, xs), d) == Ok(WithMoreInput(Execute(v, m, d).value, xs))
  {
    var mx := WithMoreInput(m, xs);
    assert Operand(mx, d, 0) == Operand(m, d, 0);
    StepOutput(v, m, d);
    StepOutput(v, mx, d);
  }

  lemma MoreInputInput(v: Variant, m: Machine, d: Decoded, xs: seq<int>)
    requires ValidDecoded(d) && d.cmd.op == In && Execute(v, m, d).Ok? && Execute(v, m, d).value.state != Ready
    ensures Execute(v, WithMoreInput(m, xs), d) == Ok(WithMoreInput(Execute(v, m, d).value, xs))
  {
    if m.ioIn == [] {
      StepInputEmpty(v, m, d);
    } else {
      var mx := WithMoreInput(m, xs);
      StepInput(v, m, d);
      StepInput(v, mx, d);
      assert mx.ioIn[1..] == m.ioIn[1..] + xs;
    }
  }

  /** `step` does not notice values appended to the input queue at `m`
      unless it leaves the machine Ready. */
  predicate IgnoresMoreInputAt(step: Machine -> Result<Machine>, m: Machine, xs: seq<int>)
  {
    step(m).Ok? && step(m).value.state != Ready ==> step(WithMoreInput(m, xs)) == Ok(WithMoreInput(step(m).value, xs))
  }

  lemma CycleIgnoresMoreInput(v: Variant, xs: seq<int>)
    ensures forall m :: IgnoresMoreInputAt(Step(v), m, xs)
  {
    forall m
      ensures IgnoresMoreInputAt(Step(v), m, xs)
    {
      if Cycle(v, m).Ok? && Cycle(v, m).value.state != Ready {
        CycleWithMoreInput(v, m, xs);
      }
    }
  }

  /** Feeding input early: a run that halts never waited for input, so it
      runs the same way with more values queued, and those values are still
      queued when it halts. */
  lemma {:induction false} RunFromWithMoreInput(step: Machine -> Result<Machine>, m: Machine, fuel: nat, xs: seq<int>)
    requires forall m' :: IgnoresMoreInputAt(step, m', xs)
    requires RunFrom(step, m, fuel).Stopped? && RunFrom(step, m, fuel).m.state == Halted
    ensures RunFrom(step, WithMoreInput(m, xs), fuel) == Stopped(WithMoreInput(RunFrom(step, m, fuel).m, xs))
    decreases fuel
  {
    assert IgnoresMoreInputAt(step, m, xs);
    var c := step(m).value;
    if c.state == Active {
      RunFromWithMoreInput(step, c, fuel - 1, xs);
    }
  }

  lemma RunWithMoreInput(v: Variant, m: Machine, fuel: nat, xs: seq<int>)
    requires Run(v, m, fuel).Stopped? && Run(v, m, fuel).m.state == Halted
    ensures Run(v, WithMoreInput(m, xs), fuel) == Stopped(WithMoreInput(Run(v, m, fuel).m, xs))
  {
    CycleIgnoresMoreInput(v, xs);
    assert WithMoreInput(m, xs).(state := Active) == WithMoreInput(m.(state := Active), xs);
    RunFromWithMoreInput(Step(v), m.(state := Active), fuel, xs);
  }

  /** A step that, in Normal mode, suspends only by marking the machine
      Ready and changing nothing else. */
  ghost predicate WaitsInPlace(step: Machine -> Result<Machine>)
  {
    forall m: Machine :: m.mode == Normal && m.state == Active && step(m).Ok? && step(m).value.state == Ready ==>
      step(m).value == m.(state := Ready)
  }

  lemma CycleWaitsInPlace(v: Variant)
    requires !AdvancesFirst(v)
    ensures WaitsInPlace(Step(v))
  {
    forall m: Machine | m.mode == Normal && m.state == Active && Step(v)(m).Ok? && Step(v)(m).value.state == Ready
      ensures Step(v)(m).value == m.(state := Ready)
    {
      assert Step(v)(m) == Cycle(v, m);
      LeavesActiveOnlyToHaltOrWait(v, m, Fetch(m).value);
    }
  }

  /** The number of cycles a bounded run performs before the one that
      stops it. */
  ghost function Suspension(step: Machine -> Result<Machine>, m: Machine, fuel: nat): nat
    decreases fuel
  {
    if fuel == 0 then 0
    else match step(m)
      case Err(_) => 0
      case Ok(c) => if c.state == Active then 1 + Suspension(step, c, fuel - 1) else 0
  }

  /** Resuming: a bounded run that suspended did so on an empty input queue
      in the machine it was in, so with `xs` queued from the start it passes
      through that machine with `xs` still queued after the same cycles, and
      from there it goes on exactly as the suspended machine resumed with
      `xs`, for any further fuel `f`. */
  lemma {:induction false} RunFromResumes(step: Machine -> Result<Machine>, m: Machine, fuel: nat, xs: seq<int>, f: nat)
    requires forall m' :: IgnoresMoreInputAt(step, m', xs)
    requires KeepsMode(step) && WaitsInPlace(step)
    requires m.mode == Normal && m.state == Active
    requires RunFrom(step, m, fuel).Stopped? && RunFrom(step, m, fuel).m.state == Ready
    ensures Suspension(step, m, fuel) < fuel
    ensures RunFrom(step, WithMoreInput(m, xs), Suspension(step, m, fuel) + f) ==
            RunFrom(step, WithMoreInput(RunFrom(step, m, fuel).m.(state := Active), xs), f)
    decreases fuel
  {
    var c := step(m).value;
    ResumeFirst(step, m, xs);
    if c.state == Active {
      assert RunFrom(step, c, fuel - 1) == RunFrom(step, m, fuel);
      RunFromResumes(step, c, fuel - 1, xs, f);
      var later := Suspension(step, c, fuel - 1) + f;
      OneCycle(step, WithMoreInput(m, xs), WithMoreInput(c, xs), later);
    }
  }

  /** `RunFromResumes` for every further fuel at once, with the cycle
      count as a result. */
  lemma RunFromResumesAll(step: Machine -> Result<Machine>, m: Machine, fuel: nat, xs: seq<int>) returns (k: nat)
    requires forall m' :: IgnoresMoreInputAt(step, m', xs)
    requires KeepsMode(step) && WaitsInPlace(step)
    requires m.mode == Normal && m.state == Active
    requires RunFrom(step, m, fuel).Stopped? && RunFrom(step, m, fuel).m.state == Ready
    ensures k < fuel
    ensures forall f: nat :: RunFrom(step, WithMoreInput(m, xs), k + f) ==
                             RunFrom(step, WithMoreInput(RunFrom(step, m, fuel).m.(state := Active), xs), f)
  {
    k := Suspension(step, m, fuel);
    RunFromResumes(step, m, fuel, xs, 0);
    var resumed := WithMoreInput(RunFrom(step, m, fuel).m.(state := Active), xs);
    forall f: nat
      ensures RunFrom(step, WithMoreInput(m, xs), k + f) == RunFrom(step, resumed, f)
    {
      RunFromResumes(step, m, fuel, xs, f);
    }
  }

  /** Proof helper: the first cycle of `RunFromResumes`, which either
      suspends in place or stays Active in Normal mode, ignoring `xs`. */
  lemma ResumeFirst(step: Machine -> Result<Machine>, m: Machine, xs: seq<int>)
    requires forall m' :: IgnoresMoreInputAt(step, m', xs)
    requires KeepsMode(step) && WaitsInPlace(step)
    requires m.mode == Normal && m.state == Active && step(m).Ok?
    ensures step(m).value.state == Ready ==> step(m).value == m.(state := Ready)
    ensures step(m).value.state == Active ==>
              step(m).value.mode == Normal && step(WithMoreInput(m, xs)) == Ok(WithMoreInput(step(m).value, xs))
  {
    assert IgnoresMoreInputAt(step, m, xs);
  }

  /** Proof helper: a cycle that stays Active costs one unit of fuel. */
  lemma OneCycle(step: Machine -> Result<Machine>, m: Machine, c: Machine, n: nat)
    requires step(m) == Ok(c) && c.state == Active
    ensures RunFrom(step, m, n + 1) == RunFrom(step, c, n)
  {
  }

  /** Feeding input late: a suspending machine in Normal mode that stopped
      Ready, given `xs` and run again, behaves as if `xs` had been queued
      before the first run; the first run's `k` cycles are the only
      difference. */
  lemma RunResumes(v: Variant, m: Machine, fuel: nat, xs: seq<int>) returns (k: nat)
    requires !AdvancesFirst(v) && m.mode == Normal
    requires Run(v, m, fuel).Stopped? && Run(v, m, fuel).m.state == Ready
    ensures k < fuel
    ensures forall f: nat :: Run(v, WithMoreInput(m, xs), k + f) == Run(v, WithMoreInput(Run(v, m, fuel).m, xs), f)
  {
    CycleIgnoresMoreInput(v, xs);
    CycleKeepsMode(v);
    CycleWaitsInPlace(v);
    k := RunFromResumesAll(Step(v), m.(state := Active), fuel, xs);
    var last := Run(v, m, fuel).m;
    assert WithMoreInput(m, xs).(state := Active) == WithMoreInput(m.(state := Active), xs);
    assert WithMoreInput(last, xs).(state := Active) == WithMoreInput(last.(state := Active), xs);
  }

  /** A cycle changes the mode only by moving a network counter. */
  lemma ModeKept(v: Variant, m: Machine, d: Decoded)
    requires ValidDecoded(d) && Execute(v, m, d).Ok?
    ensures m.mode.Network? ==> Execute(v, m, d).value.mode.Network?
    ensures !m.mode.Network? ==> Execute(v, m, d).value.mode == m.mode
  {
  }

  /** A step that keeps every mode other than network mode. */
  ghost predicate KeepsMode(step: Machine -> Result<Machine>)
  {
    forall m: Machine :: !m.mode.Network? && step(m).Ok? ==> step(m).value.mode == m.mode
  }

  lemma CycleKeepsMode(v: Variant)
    ensures KeepsMode(Step(v))
  {
    forall m: Machine | !m.mode.Network? && Step(v)(m).Ok?
      ensures Step(v)(m).value.mode == m.mode
    {
      assert Step(v)(m) == Cycle(v, m);
      ModeKept(v, m, Fetch(m).value);
    }
  }

  /** So a whole run outside network mode ends in the mode it began in. */
  lemma RunKeepsMode(v: Variant, m: Machine, fuel: nat)
    requires !m.mode.Network?
    ensures Run(v, m, fuel).Stopped? ==> Run(v, m, fuel).m.mode == m.mode
  {
    CycleKeepsMode(v);
    RunFromKeepsMode(Step(v), m.(state := Active), fuel);
  }

  lemma {:induction false} RunFromKeepsMode(step: Machine -> Result<Machine>, m: Machine, fuel: nat)
    requires KeepsMode(step) && !m.mode.Network?
    ensures RunFrom(step, m, fuel).Stopped? ==> RunFrom(step, m, fuel).m.mode == m.mode
    decreases fuel
  {
    if fuel > 0 {
      var c := step(m);
      if c.Ok? && c.value.state == Active {
        RunFromKeepsMode(step, c.value, fuel - 1);
      }
    }
  }

  /** In Normal mode the suspending machine leaves Active only by halting
      or by waiting on an empty input queue, and waiting changes nothing but
      the state. */
  lemma LeavesActiveOnlyToHaltOrWait(v: Variant, m: Machine, d: Decoded)
    requires !AdvancesFirst(v) && m.mode == Normal && m.state == Active
    requires ValidDecoded(d) && Execute(v, m, d).Ok? && Execute(v, m, d).value.state != Active
    ensures Execute(v, m, d).value.state == Halted ||
            (m.ioIn == [] && d.cmd.op == In && Execute(v, m, d).value == m.(state := Ready))
  {
    if d.cmd.op in {Add, Mul, Lt, Cmp} {
      StepArithmetic(v, m, d);
    } else if d.cmd.op in {Jnz, Jz} {
      StepJump(v, m, d);
    } else if d.cmd.op == AdjBp {
      StepAdjustBase(v, m, d);
    } else if d.cmd.op == Out {
      StepOutput(v, m, d);
    } else if d.cmd.op == In {
      if m.ioIn == [] {
        StepInputEmpty(v, m, d);
      } else {
        StepInput(v, m, d);
      }
    } else {
      StepHalt(v, m, d);
    }
  }
}
