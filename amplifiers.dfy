/** Day 7's drivers around five amplifier machines: the one-pass pipeline
    searched by `get_max_output` and the feedback ring searched by
    `get_max_feedback`. Each is specified on machine values first; the
    methods over `array<Cpu>` are proved to compute exactly that, and the
    lemmas state what the values mean. */
module Amplifiers {
  import opened Common
  import opened Intcode
  import opened IntcodeCpu
  import opened CpuArrays
  import opened PhaseSearch

  /** Day 7's machine: advance-first, absolute writes, load keeps the base. */
  const Day7: Variant := AdvanceFirstAbsolute

  /** `run_cpu` as the drivers see it, for at most `fuel` cycles. The
      specifications below take the run as a parameter `run`; the methods
      use this one. */
  function AmpRun(fuel: nat): Machine -> Result<Machine>
  {
    m => Settle(Run(Day7, m, fuel))
  }

  /** `io_in.push_front(x)` on a machine value. */
  function Queue(m: Machine, x: int): (m': Machine)
    ensures m' == m.(ioIn := m.ioIn + [x])
  {
    m.(ioIn := m.ioIn + [x])
  }

  /** The lowest phase of `get_max_output` and of `get_max_feedback`. */
  const SeriesLow: int := 0
  const RingLow: int := 5

  /** The larger of `best` and `x` as `if output > max_output` keeps it. */
  function Better(best: int, x: int): int
  {
    if x > best then x else best
  }

  /** The running maximum from `best` over `outs`, in order. */
  function Highest(best: int, outs: seq<int>): (r: int)
    decreases |outs|
  {
    if outs == [] then best else Highest(Better(best, outs[0]), outs[1..])
  }

  /** `r` is the largest of `best` and the values of `outs`. */
  predicate IsMaximum(r: int, best: int, outs: seq<int>)
  {
    && r >= best
    && (forall i :: 0 <= i < |outs| ==> r >= outs[i])
    && (r == best || r in outs)
  }

  lemma {:induction false} HighestIsMaximum(best: int, outs: seq<int>)
    ensures IsMaximum(Highest(best, outs), best, outs)
    decreases |outs|
  {
    if outs != [] {
      HighestIsMaximum(Better(best, outs[0]), outs[1..]);
      forall i | 0 <= i < |outs|
        ensures Highest(best, outs) >= outs[i]
      {
        if i > 0 {
          assert outs[i] == outs[1..][i - 1];
        }
      }
    }
  }

  // ----- get_max_output: one pass through the chain -----

  /** The set-up of stage `i` of a pass: load amp `i`, queue its phase,
      then queue the input it is fed (0 for amp 0, else the oldest output
      of amp `i - 1`, taken from that amp). */
  function LoadStage(amps: seq<Machine>, program: seq<int>, phases: seq<int>, i: nat): (r: Result<seq<Machine>>)
    requires |amps| == 5 && |phases| == 5 && i < 5
    ensures r.Ok? ==> |r.value| == 5
  {
    match Load(Day7, amps[i], program)
    case Err(f) => Err(f)
    case Ok(loaded) =>
      var a := amps[i := loaded];
      var b := a[i := Queue(a[i], phases[i])];
      var input := if i == 0 then Some(0) else Oldest(b[i - 1]);
      var c := if i == 0 then b else b[i - 1 := Popped(b[i - 1])];
      match input
      case None => Err(MissingValue)
      case Some(x) => Ok(c[i := Queue(c[i], x)])
  }

  /** What the set-up of stage `i` does: it fails with `OutOfRange` when
      the program does not fit amp `i`, and with `MissingValue` when amp
      `i - 1` has no output to pass on; otherwise amp `i - 1` loses exactly
      its oldest output, amp `i` is the freshly loaded program with exactly
      its phase and that signal (0 for amp 0) queued, and every other amp
      is unchanged. */
  lemma LoadStageEffect(amps: seq<Machine>, program: seq<int>, phases: seq<int>, i: nat, prev: int)
    requires |amps| == 5 && |phases| == 5 && i < 5 && prev == i - 1
    ensures LoadStage(amps, program, phases, i).Ok? <==> |program| <= |amps[i].memory| && (i == 0 || amps[prev].ioOut != [])
    ensures LoadStage(amps, program, phases, i).Err? ==>
              LoadStage(amps, program, phases, i).fault == if |program| > |amps[i].memory| then OutOfRange else MissingValue
    ensures LoadStage(amps, program, phases, i).Ok? ==>
              var r := LoadStage(amps, program, phases, i).value;
              var x := if i == 0 then 0 else amps[prev].ioOut[0];
              && r[i] == Queue(Queue(Load(Day7, amps[i], program).value, phases[i]), x)
              && r[i].ioIn == [phases[i], x]
              && (i > 0 ==> r[prev] == amps[prev].(ioOut := amps[prev].ioOut[1..]))
              && forall j :: 0 <= j < 5 && j != i && j != prev ==> r[j] == amps[j]
  {
  }

  /** Stage `i` of a pass: its set-up, then amp `i` run to a stop. */
  function Stage(amps: seq<Machine>, program: seq<int>, phases: seq<int>, i: nat, run: Machine -> Result<Machine>): (r: Result<seq<Machine>>)
    requires |amps| == 5 && |phases| == 5 && i < 5
    ensures r.Ok? ==> |r.value| == 5
  {
    match LoadStage(amps, program, phases, i)
    case Err(f) => Err(f)
    case Ok(d) =>
      match run(d[i])
      case Err(f) => Err(f)
      case Ok(ran) => Ok(d[i := ran])
  }

  /** Stages `i..4` of a pass. */
  function Chain(amps: seq<Machine>, program: seq<int>, phases: seq<int>, i: nat, run: Machine -> Result<Machine>): (r: Result<seq<Machine>>)
    requires |amps| == 5 && |phases| == 5 && i <= 5
    ensures r.Ok? ==> |r.value| == 5
    decreases 5 - i
  {
    if i == 5 then Ok(amps)
    else
      match Stage(amps, program, phases, i, run)
      case Err(f) => Err(f)
      case Ok(a) => Chain(a, program, phases, i + 1, run)
  }

  /** One pass for one phase setting: the chain, then the oldest output of
      amp 4, taken from it. */
  function Pass(amps: seq<Machine>, program: seq<int>, phases: seq<int>, run: Machine -> Result<Machine>): Result<(seq<Machine>, int)>
    requires |amps| == 5 && |phases| == 5
  {
    match Chain(amps, program, phases, 0, run)
    case Err(f) => Err(f)
    case Ok(a) =>
      match Oldest(a[4])
      case None => Err(MissingValue)
      case Some(out) => Ok((a[4 := Popped(a[4])], out))
  }

  /** The search loop of `get_max_output`: the amplifiers keep their
      machines from one phase setting to the next. */
  function Search(amps: seq<Machine>, program: seq<int>, orders: seq<seq<int>>, best: int, run: Machine -> Result<Machine>): Result<int>
    requires |amps| == 5 && AllFive(orders)
    decreases |orders|
  {
    if orders == [] then Ok(best)
    else
      match Pass(amps, program, orders[0], run)
      case Err(f) => Err(f)
      case Ok((a, out)) => Search(a, program, orders[1..], Better(best, out), run)
  }

  /** The outputs of the passes, one per phase setting, in search order. */
  function Outputs(amps: seq<Machine>, program: seq<int>, orders: seq<seq<int>>, run: Machine -> Result<Machine>): (r: Result<seq<int>>)
    requires |amps| == 5 && AllFive(orders)
    ensures r.Ok? ==> |r.value| == |orders|
    decreases |orders|
  {
    if orders == [] then Ok([])
    else
      match Pass(amps, program, orders[0], run)
      case Err(f) => Err(f)
      case Ok((a, out)) =>
        match Outputs(a, program, orders[1..], run)
        case Err(f) => Err(f)
        case Ok(outs) => Ok([out] + outs)
  }

  /** `get_max_output`, on five new machines and the orderings of 0..4. */
  function MaxOutput(program: seq<int>, fuel: nat): Result<int>
  {
    Search(NewMachines(5), program, Settings(SeriesLow), I64Min, AmpRun(fuel))
  }

  /** The search fails exactly when some pass fails, and otherwise reports
      the largest pass output (or `best` if none is larger). */
  lemma {:induction false} SearchIsHighest(amps: seq<Machine>, program: seq<int>, orders: seq<seq<int>>, best: int, run: Machine -> Result<Machine>)
    requires |amps| == 5 && AllFive(orders)
    ensures Search(amps, program, orders, best, run).Ok? <==> Outputs(amps, program, orders, run).Ok?
    ensures Search(amps, program, orders, best, run).Ok? ==>
              Search(amps, program, orders, best, run).value == Highest(best, Outputs(amps, program, orders, run).value)
    decreases |orders|
  {
    if orders != [] {
      match Pass(amps, program, orders[0], run)
      case Err(f) =>
      case Ok((a, out)) =>
        assert AllFive(orders[1..]);
        SearchIsHighest(a, program, orders[1..], Better(best, out), run);
    }
  }

  /** `get_max_output` reports the largest output amp 4 gives over all the
      orderings of the phases 0..4 (or `i64::MIN` if there were none). */
  lemma MaxOutputIsMaximum(program: seq<int>, fuel: nat)
    ensures MaxOutput(program, fuel).Ok? <==> Outputs(NewMachines(5), program, Settings(SeriesLow), AmpRun(fuel)).Ok?
    ensures MaxOutput(program, fuel).Ok? ==>
              IsMaximum(MaxOutput(program, fuel).value, I64Min,
                        Outputs(NewMachines(5), program, Settings(SeriesLow), AmpRun(fuel)).value)
  {
    var amps := NewMachines(5);
    SearchIsHighest(amps, program, Settings(SeriesLow), I64Min, AmpRun(fuel));
    if MaxOutput(program, fuel).Ok? {
      HighestIsMaximum(I64Min, Outputs(amps, program, Settings(SeriesLow), AmpRun(fuel)).value);
    }
  }

  /** A stage of the chain runs amp `i` on the freshly loaded program with
      exactly its phase and then its input queued. */
  lemma StageInputs(m: Machine, program: seq<int>, phase: int, x: int)
    requires Load(Day7, m, program).Ok?
    ensures Queue(Queue(Load(Day7, m, program).value, phase), x).ioIn == [phase, x]
    ensures Queue(Queue(Load(Day7, m, program).value, phase), x).ip == 0
  {
  }

  /** One stage of a pass on the five amplifiers, in the order of the
      source: load, phase, take the predecessor's output, input, run. */
  /** The set-up of stage `i` on the array: `load_program`, the phase
      pushed, and the input pushed. */
  method LoadStageAt(amps: array<Cpu>, program: seq<int>, phases: seq<int>, i: nat) returns (fault: Option<Fault>)
    requires amps.Length == 5 && Separate(amps, Day7) && |phases| == 5 && i < 5
    modifies Footprint(amps)
    ensures Separate(amps, Day7) && Footprint(amps) == old(Footprint(amps))
    ensures fault.None? <==> LoadStage(old(States(amps)), program, phases, i).Ok?
    ensures fault.Some? ==> LoadStage(old(States(amps)), program, phases, i) == Err(fault.value)
    ensures fault.None? ==> States(amps) == LoadStage(old(States(amps)), program, phases, i).value
  {
    fault := LoadAt(amps, Day7, i, program);
    if fault.Some? {
      return;
    }
    PushAt(amps, Day7, i, phases[i]);
    var input := 0;
    if i > 0 {
      var x := PopAt(amps, Day7, i - 1);
      if x.None? {
        return Some(MissingValue);
      }
      input := x.value;
    }
    PushAt(amps, Day7, i, input);
  }

  /** Stage `i` on the array: the set-up, then `run_cpu` on amp `i`. */
  method RunStage(amps: array<Cpu>, program: seq<int>, phases: seq<int>, i: nat, fuel: nat) returns (fault: Option<Fault>)
    requires amps.Length == 5 && Separate(amps, Day7) && |phases| == 5 && i < 5
    modifies Footprint(amps)
    ensures Separate(amps, Day7) && Footprint(amps) == old(Footprint(amps))
    ensures fault.None? <==> Stage(old(States(amps)), program, phases, i, AmpRun(fuel)).Ok?
    ensures fault.Some? ==> Stage(old(States(amps)), program, phases, i, AmpRun(fuel)) == Err(fault.value)
    ensures fault.None? ==> States(amps) == Stage(old(States(amps)), program, phases, i, AmpRun(fuel)).value
  {
    fault := LoadStageAt(amps, program, phases, i);
    if fault.Some? {
      return;
    }
    var ran := RunAt(amps, Day7, i, fuel);
    if ran.Err? {
      return Some(ran.fault);
    }
  }

  /** One step of `Chain`, with the next index given as a variable. */
  lemma ChainStep(amps: seq<Machine>, program: seq<int>, phases: seq<int>, i: nat, next: nat, run: Machine -> Result<Machine>)
    requires |amps| == 5 && |phases| == 5 && i < 5 && next == i + 1
    ensures Stage(amps, program, phases, i, run).Err? ==>
              Chain(amps, program, phases, i, run) == Err(Stage(amps, program, phases, i, run).fault)
    ensures Stage(amps, program, phases, i, run).Ok? ==>
              Chain(amps, program, phases, i, run) == Chain(Stage(amps, program, phases, i, run).value, program, phases, next, run)
  {
  }

  /** The stages of one pass (the body of the innermost loop of
      `get_max_output`: amp 0 on input 0, then amps 1..4 in turn), and the
      final output taken from amp 4. */
  method RunPass(amps: array<Cpu>, program: seq<int>, phases: seq<int>, fuel: nat) returns (r: Result<int>)
    requires amps.Length == 5 && Separate(amps, Day7) && |phases| == 5
    modifies Footprint(amps)
    ensures Separate(amps, Day7) && Footprint(amps) == old(Footprint(amps))
    ensures r == Report(Pass(old(States(amps)), program, phases, AmpRun(fuel)))
    ensures r.Ok? ==> States(amps) == Pass(old(States(amps)), program, phases, AmpRun(fuel)).value.0
  {
    ghost var spec := Chain(States(amps), program, phases, 0, AmpRun(fuel));
    var i := 0;
    while i < 5
      invariant i <= 5 && Separate(amps, Day7) && Footprint(amps) == old(Footprint(amps))
      invariant spec == Chain(States(amps), program, phases, i, AmpRun(fuel))
    {
      ghost var before := States(amps);
      var next := i + 1;
      var fault := RunStage(amps, program, phases, i, fuel);
      ChainStep(before, program, phases, i, next, AmpRun(fuel));
      if fault.Some? {
        return Err(fault.value);
      }
      i := next;
    }
    var out := PopAt(amps, Day7, 4);
    if out.None? {
      return Err(MissingValue);
    }
    return Ok(out.value);
  }

  /** One step of `Search`: a pass that succeeds hands its machines and
      the better of the two values to the rest of the search. */
  lemma SearchStep(amps: seq<Machine>, program: seq<int>, orders: seq<seq<int>>, best: int, run: Machine -> Result<Machine>)
    requires |amps| == 5 && AllFive(orders) && orders != []
    ensures AllFive(orders[1..])
    ensures Pass(amps, program, orders[0], run).Err? ==>
              Search(amps, program, orders, best, run) == Err(Pass(amps, program, orders[0], run).fault)
    ensures Pass(amps, program, orders[0], run).Ok? ==>
            Search(amps, program, orders, best, run)
            == Search(Pass(amps, program, orders[0], run).value.0, program, orders[1..],
                      Better(best, Pass(amps, program, orders[0], run).value.1), run)
  {
  }

  /** The body of `get_max_output`'s innermost loop: one pass for the
      first setting of `orders`, then `if output > max_output`. */
  method PassStep(amps: array<Cpu>, program: seq<int>, orders: seq<seq<int>>, best: int, fuel: nat)
    returns (r: Result<int>)
    requires amps.Length == 5 && Separate(amps, Day7) && AllFive(orders) && orders != []
    modifies Footprint(amps)
    ensures Separate(amps, Day7) && Footprint(amps) == old(Footprint(amps)) && AllFive(orders[1..])
    ensures r.Err? ==> Search(old(States(amps)), program, orders, best, AmpRun(fuel)) == Err(r.fault)
    ensures r.Ok? ==>
              Search(old(States(amps)), program, orders, best, AmpRun(fuel)) == Search(States(amps), program, orders[1..], r.value, AmpRun(fuel))
  {
    ghost var before := States(amps);
    var output := RunPass(amps, program, orders[0], fuel);
    SearchStep(before, program, orders, best, AmpRun(fuel));
    if output.Err? {
      return Err(output.fault);
    }
    var maxOutput := best;
    if output.value > maxOutput {
      maxOutput := output.value;
    }
    return Ok(maxOutput);
  }

  /** The search loop of `get_max_output` over the settings `orders`. */
  method SearchPasses(amps: array<Cpu>, program: seq<int>, orders: seq<seq<int>>, best: int, fuel: nat)
    returns (r: Result<int>)
    requires amps.Length == 5 && Separate(amps, Day7) && AllFive(orders)
    modifies Footprint(amps)
    ensures r == Search(old(States(amps)), program, orders, best, AmpRun(fuel))
  {
    ghost var spec := Search(States(amps), program, orders, best, AmpRun(fuel));
    var rest := orders;
    var maxOutput := best;
    while rest != []
      invariant Separate(amps, Day7) && Footprint(amps) == old(Footprint(amps)) && AllFive(rest)
      invariant spec == Search(States(amps), program, rest, maxOutput, AmpRun(fuel))
    {
      var step := PassStep(amps, program, rest, maxOutput, fuel);
      if step.Err? {
        return Err(step.fault);
      }
      maxOutput := step.value;
      rest := rest[1..];
    }
    return Ok(maxOutput);
  }

  /** `get_max_output`: every ordering of the phases 0..4 through the chain,
      keeping the largest output. */
  method GetMaxOutput(program: seq<int>, fuel: nat) returns (r: Result<int>)
    ensures r == MaxOutput(program, fuel)
  {
    var orders := PhaseOrders(SeriesLow);
    var amps := NewCpus(Day7, 5);
    r := SearchPasses(amps, program, orders, I64Min, fuel);
  }

  // ----- get_max_feedback: the ring -----

  /** Move the oldest output of amp `src` to the input of amp `dst` and run
      `dst` to a stop; `None` when `src` has no output. */
  function Feed(amps: seq<Machine>, src: nat, dst: nat, run: Machine -> Result<Machine>): (r: Result<Option<seq<Machine>>>)
    requires src < |amps| && dst < |amps|
    ensures r.Ok? && r.value.Some? ==> |r.value.value| == |amps|
  {
    match Oldest(amps[src])
    case None => Ok(None)
    case Some(x) =>
      var a := amps[src := Popped(amps[src])];
      var b := a[dst := Queue(a[dst], x)];
      match run(b[dst])
      case Err(f) => Err(f)
      case Ok(m) => Ok(Some(b[dst := m]))
  }

  /** What `Feed` does: with no output at amp `src` nothing happens;
      otherwise amp `src` loses exactly its oldest output, amp `dst` is run
      with that value appended to its input (its fault is the feed's), and
      every other amplifier is unchanged. */
  lemma FeedMoves(amps: seq<Machine>, src: nat, dst: nat, run: Machine -> Result<Machine>)
    requires src < |amps| && dst < |amps| && src != dst
    ensures Feed(amps, src, dst, run) == Ok(None) <==> amps[src].ioOut == []
    ensures amps[src].ioOut != [] && run(Queue(amps[dst], amps[src].ioOut[0])).Err? ==>
              Feed(amps, src, dst, run) == Err(run(Queue(amps[dst], amps[src].ioOut[0])).fault)
    ensures amps[src].ioOut != [] && run(Queue(amps[dst], amps[src].ioOut[0])).Ok? ==>
              && Feed(amps, src, dst, run).Ok? && Feed(amps, src, dst, run).value.Some?
              && var a := Feed(amps, src, dst, run).value.value;
                 && a[src] == amps[src].(ioOut := amps[src].ioOut[1..])
                 && a[dst] == run(Queue(amps[dst], amps[src].ioOut[0])).value
                 && forall j :: 0 <= j < |amps| && j != src && j != dst ==> a[j] == amps[j]
  {
  }

  /** One round of the ring from amp `i` on: amp 0 is fed from amp 4 and
      amp `i` from amp `i - 1`. A missing output ends the round with `None`;
      a completed round reports amp 4's oldest output without taking it. */
  function Relay(amps: seq<Machine>, i: nat, run: Machine -> Result<Machine>): (r: Result<(seq<Machine>, Option<int>)>)
    requires |amps| == 5 && i <= 5
    ensures r.Ok? ==> |r.value.0| == 5
    decreases 5 - i
  {
    if i == 5 then
      match Oldest(amps[4])
      case None => Err(MissingValue)
      case Some(x) => Ok((amps, Some(x)))
    else
      match Feed(amps, if i == 0 then 4 else i - 1, i, run)
      case Err(f) => Err(f)
      case Ok(None) => Ok((amps, None))
      case Ok(Some(a)) => Relay(a, i + 1, run)
  }

  /** The `while` loop of `run_feedback_loop`, for at most `rounds` rounds:
      it goes on while amp 4 is Ready and leaves `output` as it was when a
      round ends early. */
  function Rounds(amps: seq<Machine>, output: int, rounds: nat, run: Machine -> Result<Machine>): (r: Result<(seq<Machine>, int)>)
    requires |amps| == 5
    ensures r.Ok? ==> |r.value.0| == 5
    decreases rounds
  {
    if amps[4].state != Ready then Ok((amps, output))
    else if rounds == 0 then Err(Exhausted)
    else
      var round := Relay(amps, 0, run);
      if round.Err? then Err(round.fault)
      else if round.value.1.None? then Ok((round.value.0, output))
      else Rounds(round.value.0, round.value.1.value, rounds - 1, run)
  }

  /** `run_feedback_loop`: seed amp 4's output with 0, then the rounds. */
  function Feedback(amps: seq<Machine>, output: int, rounds: nat, run: Machine -> Result<Machine>): (r: Result<(seq<Machine>, int)>)
    requires |amps| == 5
    ensures r.Ok? ==> |r.value.0| == 5
  {
    Rounds(amps[4 := amps[4].(ioOut := amps[4].ioOut + [0])], output, rounds, run)
  }

  /** Load amps `i..4` and queue each one's phase. */
  function Prime(amps: seq<Machine>, program: seq<int>, phases: seq<int>, i: nat): (r: Result<seq<Machine>>)
    requires |amps| == 5 && |phases| == 5 && i <= 5
    ensures r.Ok? ==> |r.value| == 5
    decreases 5 - i
  {
    if i == 5 then Ok(amps)
    else
      match Load(Day7, amps[i], program)
      case Err(f) => Err(f)
      case Ok(m) =>
        var a := amps[i := m];
        Prime(a[i := Queue(a[i], phases[i])], program, phases, i + 1)
  }

  /** What `Prime` does: it fails, with the load's `OutOfRange`, exactly
      when the program does not fit some amp from `i` on; otherwise amps
      before `i` are untouched and each amp from `i` on is the freshly
      loaded program, Ready, in its own mode, with exactly its phase
      queued. */
  lemma {:induction false} PrimeLoads(amps: seq<Machine>, program: seq<int>, phases: seq<int>, i: nat)
    requires |amps| == 5 && |phases| == 5 && i <= 5
    ensures Prime(amps, program, phases, i).Ok? <==> forall j :: i <= j < 5 ==> |program| <= |amps[j].memory|
    ensures Prime(amps, program, phases, i).Err? ==> Prime(amps, program, phases, i).fault == OutOfRange
    ensures Prime(amps, program, phases, i).Ok? ==>
              var r := Prime(amps, program, phases, i).value;
              && (forall j :: 0 <= j < i ==> r[j] == amps[j])
              && (forall j :: i <= j < 5 ==>
                    && r[j] == Queue(Load(Day7, amps[j], program).value, phases[j])
                    && r[j].ioIn == [phases[j]] && r[j].ip == 0 && r[j].ioOut == []
                    && r[j].state == Ready && r[j].mode == amps[j].mode)
    decreases 5 - i
  {
    if i < 5 && |program| <= |amps[i].memory| {
      var next := i + 1;
      PrimeStep(amps, program, phases, i, next);
      var a := amps[i := Load(Day7, amps[i], program).value];
      var primed := a[i := Queue(a[i], phases[i])];
      PrimeLoads(primed, program, phases, next);
      assert forall j :: next <= j < 5 ==> primed[j] == amps[j];
    }
  }

  /** The ring for one phase setting: its machines and its report. */
  function Ring(amps: seq<Machine>, program: seq<int>, phases: seq<int>, output: int, rounds: nat, run: Machine -> Result<Machine>): (r: Result<(seq<Machine>, int)>)
    requires |amps| == 5 && |phases| == 5
    ensures r.Ok? ==> |r.value.0| == 5
  {
    match Prime(amps, program, phases, 0)
    case Err(f) => Err(f)
    case Ok(primed) => Feedback(primed, output, rounds, run)
  }

  /** The search loop of `get_max_feedback`: the machines and `output`
      carry over from one phase setting to the next. */
  function FeedbackSearch(amps: seq<Machine>, program: seq<int>, orders: seq<seq<int>>, output: int, best: int,
                          rounds: nat, run: Machine -> Result<Machine>): Result<int>
    requires |amps| == 5 && AllFive(orders)
    decreases |orders|
  {
    if orders == [] then Ok(best)
    else
      match Ring(amps, program, orders[0], output, rounds, run)
      case Err(f) => Err(f)
      case Ok((a, out)) => FeedbackSearch(a, program, orders[1..], out, Better(best, out), rounds, run)
  }

  /** The reports of the ring, one per phase setting, in search order. */
  function FeedbackOutputs(amps: seq<Machine>, program: seq<int>, orders: seq<seq<int>>, output: int,
                           rounds: nat, run: Machine -> Result<Machine>): (r: Result<seq<int>>)
    requires |amps| == 5 && AllFive(orders)
    ensures r.Ok? ==> |r.value| == |orders|
    decreases |orders|
  {
    if orders == [] then Ok([])
    else
      match Ring(amps, program, orders[0], output, rounds, run)
      case Err(f) => Err(f)
      case Ok((a, out)) =>
        match FeedbackOutputs(a, program, orders[1..], out, rounds, run)
        case Err(f) => Err(f)
        case Ok(outs) => Ok([out] + outs)
  }

  /** The five amplifiers `get_max_feedback` builds: new machines in
      BreakOnOutput mode. */
  function RingAmps(): (amps: seq<Machine>)
    ensures |amps| == 5
  {
    seq(5, _ => NewMachine().(mode := BreakOnOutput))
  }

  /** `get_max_feedback`, over the orderings of 5..9, `output` starting at 0. */
  function MaxFeedback(program: seq<int>, rounds: nat, fuel: nat): Result<int>
  {
    FeedbackSearch(RingAmps(), program, Settings(RingLow), 0, I64Min, rounds, AmpRun(fuel))
  }

  lemma {:induction false} FeedbackSearchIsHighest(amps: seq<Machine>, program: seq<int>, orders: seq<seq<int>>,
                                                   output: int, best: int, rounds: nat, run: Machine -> Result<Machine>)
    requires |amps| == 5 && AllFive(orders)
    ensures FeedbackSearch(amps, program, orders, output, best, rounds, run).Ok?
            <==> FeedbackOutputs(amps, program, orders, output, rounds, run).Ok?
    ensures FeedbackSearch(amps, program, orders, output, best, rounds, run).Ok? ==>
              FeedbackSearch(amps, program, orders, output, best, rounds, run).value
              == Highest(best, FeedbackOutputs(amps, program, orders, output, rounds, run).value)
    decreases |orders|
  {
    if orders != [] {
      match Ring(amps, program, orders[0], output, rounds, run)
      case Err(f) =>
      case Ok((a, out)) =>
        assert AllFive(orders[1..]);
        FeedbackSearchIsHighest(a, program, orders[1..], out, Better(best, out), rounds, run);
    }
  }

  /** `get_max_feedback` reports the largest value the ring reports over
      all the orderings of the phases 5..9. */
  lemma MaxFeedbackIsMaximum(program: seq<int>, rounds: nat, fuel: nat)
    ensures MaxFeedback(program, rounds, fuel).Ok?
            <==> FeedbackOutputs(RingAmps(), program, Settings(RingLow), 0, rounds, AmpRun(fuel)).Ok?
    ensures MaxFeedback(program, rounds, fuel).Ok? ==>
              IsMaximum(MaxFeedback(program, rounds, fuel).value, I64Min,
                        FeedbackOutputs(RingAmps(), program, Settings(RingLow), 0, rounds, AmpRun(fuel)).value)
  {
    FeedbackSearchIsHighest(RingAmps(), program, Settings(RingLow), 0, I64Min, rounds, AmpRun(fuel));
    if MaxFeedback(program, rounds, fuel).Ok? {
      HighestIsMaximum(I64Min, FeedbackOutputs(RingAmps(), program, Settings(RingLow), 0, rounds, AmpRun(fuel)).value);
    }
  }

  /** A completed round reports amp 4's oldest output and leaves it queued,
      so it is also what amp 0 is fed first in the next round. */
  lemma {:induction false} RelayPeeks(amps: seq<Machine>, i: nat, run: Machine -> Result<Machine>)
    requires |amps| == 5 && i <= 5
    ensures Relay(amps, i, run).Ok? && Relay(amps, i, run).value.1.Some? ==>
              Oldest(Relay(amps, i, run).value.0[4]) == Relay(amps, i, run).value.1
    decreases 5 - i
  {
    if i < 5 {
      match Feed(amps, if i == 0 then 4 else i - 1, i, run)
      case Err(f) =>
      case Ok(None) =>
      case Ok(Some(a)) => RelayPeeks(a, i + 1, run);
    }
  }

  /** Amp 4 only runs at the last stage, so a round that ends early leaves
      its state as it was. */
  lemma {:induction false} RelayEarlyKeepsState(amps: seq<Machine>, i: nat, run: Machine -> Result<Machine>)
    requires |amps| == 5 && i <= 5
    ensures Relay(amps, i, run).Ok? && Relay(amps, i, run).value.1.None? ==>
              Relay(amps, i, run).value.0[4].state == amps[4].state
    decreases 5 - i
  {
    if i < 4 {
      match Feed(amps, if i == 0 then 4 else i - 1, i, run)
      case Err(f) =>
      case Ok(None) =>
      case Ok(Some(a)) => RelayEarlyKeepsState(a, i + 1, run);
    }
  }

  /** When the ring stops because amp 4 is no longer Ready (it halted), the
      value it reports is still queued at amp 4, unless no round ran. */
  lemma {:induction false} RoundsEndOnReported(amps: seq<Machine>, output: int, rounds: nat, run: Machine -> Result<Machine>)
    requires |amps| == 5
    ensures Rounds(amps, output, rounds, run).Ok? && Rounds(amps, output, rounds, run).value.0[4].state != Ready ==>
              || Rounds(amps, output, rounds, run).value == (amps, output)
              || Oldest(Rounds(amps, output, rounds, run).value.0[4]) == Some(Rounds(amps, output, rounds, run).value.1)
    decreases rounds
  {
    if amps[4].state == Ready && rounds > 0 {
      var round := Relay(amps, 0, run);
      RelayPeeks(amps, 0, run);
      RelayEarlyKeepsState(amps, 0, run);
      if round.Ok? && round.value.1.Some? {
        var (a, out) := (round.value.0, round.value.1.value);
        RoundsStepFrom(amps, output, rounds, rounds - 1, run);
        RoundsEndOnReported(a, out, rounds - 1, run);
        if a[4].state != Ready {
          assert Rounds(a, out, rounds - 1, run) == Ok((a, out));
        }
      }
    }
  }

  /** `amps[4].io_out.back()`: amp 4's oldest output, not taken. */
  method PeekLast(amps: array<Cpu>) returns (x: Option<int>)
    requires amps.Length == 5
    ensures x == Oldest(amps[4].Abstract())
  {
    if amps[4].ioOut == [] {
      return None;
    }
    return Some(amps[4].ioOut[0]);
  }

  /** One feeding step of the ring: `src`'s oldest output to `dst`, then
      run `dst`. */
  method FeedAmp(amps: array<Cpu>, src: nat, dst: nat, fuel: nat) returns (r: Result<bool>)
    requires amps.Length == 5 && Separate(amps, Day7) && src < 5 && dst < 5 && src != dst
    modifies Footprint(amps)
    ensures Separate(amps, Day7) && Footprint(amps) == old(Footprint(amps))
    ensures r.Ok? <==> Feed(old(States(amps)), src, dst, AmpRun(fuel)).Ok?
    ensures r.Err? ==> r.fault == Feed(old(States(amps)), src, dst, AmpRun(fuel)).fault
    ensures r.Ok? ==> (r.value <==> Feed(old(States(amps)), src, dst, AmpRun(fuel)).value.Some?)
    ensures r == Ok(false) ==> States(amps) == old(States(amps))
    ensures r == Ok(true) ==> States(amps) == Feed(old(States(amps)), src, dst, AmpRun(fuel)).value.value
  {
    var x := PopAt(amps, Day7, src);
    if x.None? {
      return Ok(false);
    }
    PushAt(amps, Day7, dst, x.value);
    var ran := RunAt(amps, Day7, dst, fuel);
    if ran.Err? {
      return Err(ran.fault);
    }
    return Ok(true);
  }

  /** One step of `Relay`, with the next index given as a variable. */
  lemma RelayStep(amps: seq<Machine>, i: nat, next: nat, run: Machine -> Result<Machine>)
    requires |amps| == 5 && i < 5 && next == i + 1
    ensures var fed := Feed(amps, if i == 0 then 4 else i - 1, i, run);
            && (fed.Err? ==> Relay(amps, i, run) == Err(fed.fault))
            && (fed == Ok(None) ==> Relay(amps, i, run) == Ok((amps, None)))
            && (fed.Ok? && fed.value.Some? ==> Relay(amps, i, run) == Relay(fed.value.value, next, run))
  {
  }

  /** One round of the ring (amp 0 fed from amp 4 before the `for` loop
      over amps 1..4 in the source, one loop here): `Ok(None)` when a
      needed output is missing. */
  method RelayRound(amps: array<Cpu>, fuel: nat) returns (r: Result<Option<int>>)
    requires amps.Length == 5 && Separate(amps, Day7)
    modifies Footprint(amps)
    ensures Separate(amps, Day7) && Footprint(amps) == old(Footprint(amps))
    ensures r == Report(Relay(old(States(amps)), 0, AmpRun(fuel)))
    ensures r.Ok? ==> States(amps) == Relay(old(States(amps)), 0, AmpRun(fuel)).value.0
  {
    ghost var spec := Relay(States(amps), 0, AmpRun(fuel));
    var i := 0;
    while i < 5
      invariant i <= 5 && Separate(amps, Day7) && Footprint(amps) == old(Footprint(amps))
      invariant spec == Relay(States(amps), i, AmpRun(fuel))
    {
      ghost var before := States(amps);
      var next := i + 1;
      var fed := FeedAmp(amps, if i == 0 then 4 else i - 1, i, fuel);
      RelayStep(before, i, next, AmpRun(fuel));
      if fed.Err? {
        return Err(fed.fault);
      }
      if !fed.value {
        return Ok(None);
      }
      i := next;
    }
    var out := PeekLast(amps);
    if out.None? {
      return Err(MissingValue);
    }
    return Ok(out);
  }

  /** A completed round hands its report and its machines to the next
      round, which has one round fewer left. */
  lemma RoundsStep(amps: seq<Machine>, output: int, rest: nat, run: Machine -> Result<Machine>)
    requires |amps| == 5 && amps[4].state == Ready
    requires Relay(amps, 0, run).Ok? && Relay(amps, 0, run).value.1.Some?
    ensures Rounds(amps, output, rest + 1, run)
            == Rounds(Relay(amps, 0, run).value.0, Relay(amps, 0, run).value.1.value, rest, run)
  {
  }

  /** Proof helper: `RoundsStep` with the count before the round given as
      a variable, which keeps the loop proof of `RunFeedbackLoop` small. */
  lemma RoundsStepFrom(amps: seq<Machine>, output: int, rounds: nat, rest: nat, run: Machine -> Result<Machine>)
    requires |amps| == 5 && amps[4].state == Ready && rounds == rest + 1
    requires Relay(amps, 0, run).Ok? && Relay(amps, 0, run).value.1.Some?
    ensures Rounds(amps, output, rounds, run)
            == Rounds(Relay(amps, 0, run).value.0, Relay(amps, 0, run).value.1.value, rest, run)
  {
    RoundsStep(amps, output, rest, run);
  }

  /** `run_feedback_loop`, for at most `rounds` rounds. */
  method RunFeedbackLoop(amps: array<Cpu>, output: int, rounds: nat, fuel: nat) returns (r: Result<int>)
    requires amps.Length == 5 && Separate(amps, Day7)
    modifies Footprint(amps)
    ensures Separate(amps, Day7) && Footprint(amps) == old(Footprint(amps))
    ensures r == Report(Feedback(old(States(amps)), output, rounds, AmpRun(fuel)))
    ensures r.Ok? ==> States(amps) == Feedback(old(States(amps)), output, rounds, AmpRun(fuel)).value.0
  {
    ghost var spec := Feedback(States(amps), output, rounds, AmpRun(fuel));
    PushOutputAt(amps, Day7, 4, 0);
    var current := output;
    var k := rounds;
    while amps[4].state == Ready
      invariant amps[4].state == States(amps)[4].state
      invariant Separate(amps, Day7) && Footprint(amps) == old(Footprint(amps))
      invariant spec == Rounds(States(amps), current, k, AmpRun(fuel))
      decreases k
    {
      if k == 0 {
        return Err(Exhausted);
      }
      ghost var before := States(amps);
      var round := RelayRound(amps, fuel);
      if round.Err? {
        return Err(round.fault);
      }
      assert Relay(before, 0, AmpRun(fuel)) == Ok((States(amps), round.value));
      if round.value.None? {
        return Ok(current);
      }
      ghost var k0 := k;
      k := k - 1;
      RoundsStepFrom(before, current, k0, k, AmpRun(fuel));
      current := round.value.value;
    }
    return Ok(current);
  }

  /** One step of `Prime`, with the next index given as a variable. */
  lemma PrimeStep(amps: seq<Machine>, program: seq<int>, phases: seq<int>, i: nat, next: nat)
    requires |amps| == 5 && |phases| == 5 && i < 5 && next == i + 1
    requires Load(Day7, amps[i], program).Ok?
    ensures var a := amps[i := Load(Day7, amps[i], program).value];
            Prime(amps, program, phases, i) == Prime(a[i := Queue(a[i], phases[i])], program, phases, next)
  {
  }

  /** Load every amplifier and queue its phase. */
  method PrimeAmps(amps: array<Cpu>, program: seq<int>, phases: seq<int>) returns (fault: Option<Fault>)
    requires amps.Length == 5 && Separate(amps, Day7) && |phases| == 5
    modifies Footprint(amps)
    ensures Separate(amps, Day7) && Footprint(amps) == old(Footprint(amps))
    ensures fault.None? <==> Prime(old(States(amps)), program, phases, 0).Ok?
    ensures fault.Some? ==> Prime(old(States(amps)), program, phases, 0) == Err(fault.value)
    ensures fault.None? ==> States(amps) == Prime(old(States(amps)), program, phases, 0).value
  {
    ghost var spec := Prime(States(amps), program, phases, 0);
    var i := 0;
    while i < 5
      invariant i <= 5 && Separate(amps, Day7) && Footprint(amps) == old(Footprint(amps))
      invariant spec == Prime(States(amps), program, phases, i)
    {
      ghost var before := States(amps);
      fault := LoadAt(amps, Day7, i, program);
      if fault.Some? {
        return;
      }
      PushAt(amps, Day7, i, phases[i]);
      ghost var i0 := i;
      i := i + 1;
      PrimeStep(before, program, phases, i0, i);
    }
    return None;
  }

  /** The five amplifiers of `get_max_feedback`: new machines, each switched
      to BreakOnOutput. */
  method NewRing() returns (amps: array<Cpu>)
    ensures fresh(amps) && fresh(Footprint(amps))
    ensures amps.Length == 5 && Separate(amps, Day7)
    ensures States(amps) == RingAmps()
  {
    amps := NewCpus(Day7, 5);
    for i := 0 to 5
      invariant Separate(amps, Day7) && fresh(Footprint(amps))
      invariant forall j :: 0 <= j < i ==> States(amps)[j] == NewMachine().(mode := BreakOnOutput)
      invariant forall j :: i <= j < 5 ==> States(amps)[j] == NewMachine()
      modifies Footprint(amps)
    {
      SetModeAt(amps, Day7, i, BreakOnOutput);
    }
  }

  /** The body of `get_max_feedback`'s innermost loop: load the amplifiers
      with their phases, then `run_feedback_loop`. */
  method RunRing(amps: array<Cpu>, program: seq<int>, phases: seq<int>, output: int, rounds: nat, fuel: nat)
    returns (r: Result<int>)
    requires amps.Length == 5 && Separate(amps, Day7) && |phases| == 5
    modifies Footprint(amps)
    ensures Separate(amps, Day7) && Footprint(amps) == old(Footprint(amps))
    ensures r == Report(Ring(old(States(amps)), program, phases, output, rounds, AmpRun(fuel)))
    ensures r.Ok? ==> States(amps) == Ring(old(States(amps)), program, phases, output, rounds, AmpRun(fuel)).value.0
  {
    var fault := PrimeAmps(amps, program, phases);
    if fault.Some? {
      return Err(fault.value);
    }
    r := RunFeedbackLoop(amps, output, rounds, fuel);
  }

  /** One step of `FeedbackSearch`, as `SearchStep`. */
  lemma FeedbackSearchStep(amps: seq<Machine>, program: seq<int>, orders: seq<seq<int>>, output: int, best: int,
                           rounds: nat, run: Machine -> Result<Machine>)
    requires |amps| == 5 && AllFive(orders) && orders != []
    ensures AllFive(orders[1..])
    ensures Ring(amps, program, orders[0], output, rounds, run).Err? ==>
              FeedbackSearch(amps, program, orders, output, best, rounds, run)
              == Err(Ring(amps, program, orders[0], output, rounds, run).fault)
    ensures Ring(amps, program, orders[0], output, rounds, run).Ok? ==>
            FeedbackSearch(amps, program, orders, output, best, rounds, run)
            == FeedbackSearch(Ring(amps, program, orders[0], output, rounds, run).value.0, program, orders[1..],
                              Ring(amps, program, orders[0], output, rounds, run).value.1,
                              Better(best, Ring(amps, program, orders[0], output, rounds, run).value.1), rounds, run)
  {
  }

  /** The body of `get_max_feedback`'s innermost loop for the first
      setting of `orders`: the ring, then `if output > max_output`. */
  method RingStep(amps: array<Cpu>, program: seq<int>, orders: seq<seq<int>>, output: int, best: int,
                  rounds: nat, fuel: nat) returns (r: Result<(int, int)>)
    requires amps.Length == 5 && Separate(amps, Day7) && AllFive(orders) && orders != []
    modifies Footprint(amps)
    ensures Separate(amps, Day7) && Footprint(amps) == old(Footprint(amps)) && AllFive(orders[1..])
    ensures r.Err? ==> FeedbackSearch(old(States(amps)), program, orders, output, best, rounds, AmpRun(fuel)) == Err(r.fault)
    ensures r.Ok? ==>
              FeedbackSearch(old(States(amps)), program, orders, output, best, rounds, AmpRun(fuel))
              == FeedbackSearch(States(amps), program, orders[1..], r.value.0, r.value.1, rounds, AmpRun(fuel))
  {
    ghost var before := States(amps);
    var ran := RunRing(amps, program, orders[0], output, rounds, fuel);
    FeedbackSearchStep(before, program, orders, output, best, rounds, AmpRun(fuel));
    if ran.Err? {
      return Err(ran.fault);
    }
    var maxOutput := best;
    if ran.value > maxOutput {
      maxOutput := ran.value;
    }
    return Ok((ran.value, maxOutput));
  }

  /** The search loop of `get_max_feedback` over the settings `orders`,
      from the value `output` left by the previous ring and the best value
      so far. */
  method SearchRings(amps: array<Cpu>, program: seq<int>, orders: seq<seq<int>>, output: int, best: int,
                     rounds: nat, fuel: nat) returns (r: Result<int>)
    requires amps.Length == 5 && Separate(amps, Day7) && AllFive(orders)
    modifies Footprint(amps)
    ensures r == FeedbackSearch(old(States(amps)), program, orders, output, best, rounds, AmpRun(fuel))
  {
    ghost var spec := FeedbackSearch(States(amps), program, orders, output, best, rounds, AmpRun(fuel));
    var rest := orders;
    var maxOutput := best;
    var current := output;
    while rest != []
      invariant Separate(amps, Day7) && Footprint(amps) == old(Footprint(amps)) && AllFive(rest)
      invariant spec == FeedbackSearch(States(amps), program, rest, current, maxOutput, rounds, AmpRun(fuel))
    {
      var step := RingStep(amps, program, rest, current, maxOutput, rounds, fuel);
      if step.Err? {
        return Err(step.fault);
      }
      current, maxOutput := step.value.0, step.value.1;
      rest := rest[1..];
    }
    return Ok(maxOutput);
  }

  /** `get_max_feedback`: every ordering of the phases 5..9 through the
      ring, keeping the largest report; `output` starts at 0 and carries
      over from one ordering to the next. */
  method GetMaxFeedback(program: seq<int>, rounds: nat, fuel: nat) returns (r: Result<int>)
    ensures r == MaxFeedback(program, rounds, fuel)
  {
    var orders := PhaseOrders(RingLow);
    var amps := NewRing();
    r := SearchRings(amps, program, orders, 0, I64Min, rounds, fuel);
  }
}
