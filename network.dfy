/** Day 23's packet router: fifty network interface controllers (NICs), each
    a suspending machine in `Network` mode, and the NAT that watches for a
    quiet network. Specified on machine values first; the methods over
    `array<Cpu>` are proved to compute exactly that. */
module Router {
  import opened Common
  import opened Intcode
  import opened IntcodeCpu
  import opened CpuArrays

  /** Day 23's machine. */
  const Nic: Variant := Suspending

  /** The number of NICs `run_network` builds. */
  const NicCount: nat := 50

  /** The destination address that names the NAT. */
  const NatAddress: int := 255

  /** A packet's two values, as the NAT keeps them. */
  datatype Packet = Packet(x: int, y: int)

  /** What the NAT watches during a sweep: the last packet sent to it and
      whether the network has been quiet. */
  datatype Watch = Watch(held: Packet, idle: bool)

  /** `nics[dest].io_in.push_front(x)` on machine values. */
  function Send(nics: seq<Machine>, dest: nat, x: int): (r: seq<Machine>)
    requires dest < |nics|
    ensures |r| == |nics| && r[dest].ioIn == nics[dest].ioIn + [x]
    ensures r[dest] == nics[dest].(ioIn := r[dest].ioIn)
    ensures forall j :: 0 <= j < |nics| && j != dest ==> r[j] == nics[j]
  {
    nics[dest := nics[dest].(ioIn := nics[dest].ioIn + [x])]
  }

  // ----- booting -----

  /** What the set-up loop of `run_network` leaves in NIC `i`: the program
      loaded, `Network(0)` mode and its own address queued as input. */
  function Booted(m: Machine, program: seq<int>, i: nat): Machine
    requires Load(Nic, m, program).Ok?
  {
    Load(Nic, m, program).value.(mode := Network(0)).(ioIn := [i])
  }

  /** The set-up loop of `run_network` from NIC `i` on. */
  function Boot(nics: seq<Machine>, program: seq<int>, i: nat): (r: Result<seq<Machine>>)
    requires i <= |nics|
    ensures r.Ok? ==> |r.value| == |nics|
    decreases |nics| - i
  {
    if i == |nics| then Ok(nics)
    else
      match Load(Nic, nics[i], program)
      case Err(f) => Err(f)
      case Ok(m) =>
        var a := nics[i := m];
        var b := a[i := a[i].(mode := Network(0))];
        Boot(Send(b, i, i), program, i + 1)
  }

  /** Booting fails exactly when the program does not fit a tape, and
      otherwise leaves every NIC from `i` on as `Booted` says, with the
      NICs before `i` untouched. */
  lemma {:induction false} BootedNics(nics: seq<Machine>, program: seq<int>, i: nat)
    requires i <= |nics|
    requires forall j :: i <= j < |nics| ==> |nics[j].memory| == MemorySize
    ensures i < |nics| ==> (Boot(nics, program, i).Ok? <==> |program| <= MemorySize)
    ensures Boot(nics, program, i).Ok? ==>
              && (forall j :: 0 <= j < i ==> Boot(nics, program, i).value[j] == nics[j])
              && (forall j :: i <= j < |nics| ==>
                    Load(Nic, nics[j], program).Ok? && Boot(nics, program, i).value[j] == Booted(nics[j], program, j))
    decreases |nics| - i
  {
    if i < |nics| {
      match Load(Nic, nics[i], program)
      case Err(f) =>
      case Ok(m) =>
        var a := nics[i := m];
        var b := a[i := a[i].(mode := Network(0))];
        BootedNics(Send(b, i, i), program, i + 1);
    }
  }

  /** One step of `Boot`, with the next index given as a variable. */
  lemma BootStep(nics: seq<Machine>, program: seq<int>, i: nat, next: nat)
    requires i < |nics| && next == i + 1
    requires Load(Nic, nics[i], program).Ok?
    ensures var a := nics[i := Load(Nic, nics[i], program).value];
            var b := a[i := a[i].(mode := Network(0))];
            Boot(nics, program, i) == Boot(Send(b, i, i), program, next)
  {
  }

  // ----- one NIC's turn -----

  /** One iteration of the inner `for` loop of `run_network` for NIC `i`:
      run it, and if it wrote anything take one packet (destination, x, y)
      from its output. A packet for the NAT replaces `held`; any other goes,
      x then y, to the input of the NIC it names, and a destination that is
      not a NIC panics in the index. The flag says whether there was output. */
  function Turn(nics: seq<Machine>, held: Packet, i: nat, fuel: nat): (r: Result<(seq<Machine>, bool, Packet)>)
    requires i < |nics|
    ensures r.Ok? ==> |r.value.0| == |nics|
  {
    match Settle(Run(Nic, nics[i], fuel))
    case Err(f) => Err(f)
    case Ok(m) =>
      var a := nics[i := m];
      if m.ioOut == [] then Ok((a, false, held))
      else
        var dest := m.ioOut[0];
        var b := a[i := Popped(a[i])];
        match Oldest(b[i])
        case None => Err(MissingValue)
        case Some(x) =>
          var c := b[i := Popped(b[i])];
          match Oldest(c[i])
          case None => Err(MissingValue)
          case Some(y) =>
            var d := c[i := Popped(c[i])];
            if dest == NatAddress then Ok((d, true, Packet(x, y)))
            else if !(0 <= dest < |d|) then Err(OutOfRange)
            else Ok((Send(Send(d, dest, x), dest, y), true, held))
  }

  /** A turn runs NIC `i` and takes at most one packet: a quiet NIC leaves
      the network as the run left it, and a NIC that wrote had written at
      least three values, of which exactly the first three are gone. */
  lemma TurnTakesOnePacket(nics: seq<Machine>, held: Packet, i: nat, fuel: nat)
    requires i < |nics| && Turn(nics, held, i, fuel).Ok?
    ensures Settle(Run(Nic, nics[i], fuel)).Ok?
    ensures var m := Settle(Run(Nic, nics[i], fuel)).value;
            var t := Turn(nics, held, i, fuel).value;
            && (t.1 <==> m.ioOut != [])
            && (!t.1 ==> t.0 == nics[i := m] && t.2 == held)
            && (t.1 ==> |m.ioOut| >= 3 && t.0[i].ioOut == m.ioOut[3..])
  {
  }

  /** Where the packet goes: to the NAT, replacing its packet and leaving
      every input queue alone; or to the input of NIC `dest`, x then y,
      leaving the NAT's packet and every other NIC's input alone. */
  lemma TurnRoutesPacket(nics: seq<Machine>, held: Packet, i: nat, fuel: nat)
    requires i < |nics| && Turn(nics, held, i, fuel).Ok? && Turn(nics, held, i, fuel).value.1
    ensures Settle(Run(Nic, nics[i], fuel)).Ok? && |Settle(Run(Nic, nics[i], fuel)).value.ioOut| >= 3
    ensures var m := Settle(Run(Nic, nics[i], fuel)).value;
            var a := nics[i := m];
            var t := Turn(nics, held, i, fuel).value;
            var (dest, x, y) := (m.ioOut[0], m.ioOut[1], m.ioOut[2]);
            && (dest == NatAddress ==>
                  t.2 == Packet(x, y) && forall j :: 0 <= j < |nics| ==> t.0[j].ioIn == a[j].ioIn)
            && (dest != NatAddress ==>
                  && 0 <= dest < |nics| && t.2 == held
                  && t.0[dest].ioIn == a[dest].ioIn + [x, y]
                  && forall j :: 0 <= j < |nics| && j != dest ==> t.0[j].ioIn == a[j].ioIn)
  {
  }

  // ----- sweeps -----

  /** The inner `for` loop of `run_network` from NIC `i` on, with the NAT's
      packet and the idle flag: any output clears the flag. */
  function Sweep(nics: seq<Machine>, held: Packet, idle: bool, i: nat, fuel: nat): (r: Result<(seq<Machine>, Watch)>)
    requires i <= |nics|
    ensures r.Ok? ==> |r.value.0| == |nics|
    decreases |nics| - i
  {
    if i == |nics| then Ok((nics, Watch(held, idle)))
    else
      var t := Turn(nics, held, i, fuel);
      if t.Err? then Err(t.fault) else Sweep(t.value.0, t.value.2, idle && !t.value.1, i + 1, fuel)
  }

  /** A sweep ends idle only if it started idle. */
  lemma {:induction false} SweepIdleOnlyIfIdle(nics: seq<Machine>, held: Packet, idle: bool, i: nat, fuel: nat)
    requires i <= |nics|
    ensures Sweep(nics, held, idle, i, fuel).Ok? && Sweep(nics, held, idle, i, fuel).value.1.idle ==> idle
    decreases |nics| - i
  {
    if i < |nics| {
      var t := Turn(nics, held, i, fuel);
      if t.Ok? {
        SweepIdleOnlyIfIdle(t.value.0, t.value.2, idle && !t.value.1, i + 1, fuel);
      }
    }
  }

  /** No turn from NIC `i` on writes anything: each NIC's run leaves its
      output queue empty. */
  predicate Quiet(nics: seq<Machine>, held: Packet, i: nat, fuel: nat)
    requires i <= |nics|
    decreases |nics| - i
  {
    i == |nics| ||
    var t := Turn(nics, held, i, fuel);
    t.Ok? ==> !t.value.1 && Quiet(t.value.0, t.value.2, i + 1, fuel)
  }

  /** A completed sweep ends idle exactly when it started idle and no NIC
      wrote anything in it: any output clears the flag, and nothing else
      does. */
  lemma {:induction false} SweepIdleIffQuiet(nics: seq<Machine>, held: Packet, idle: bool, i: nat, fuel: nat)
    requires i <= |nics|
    ensures Sweep(nics, held, idle, i, fuel).Ok? ==>
              (Sweep(nics, held, idle, i, fuel).value.1.idle <==> idle && Quiet(nics, held, i, fuel))
    decreases |nics| - i
  {
    if i < |nics| {
      var t := Turn(nics, held, i, fuel);
      if t.Ok? {
        SweepIdleIffQuiet(t.value.0, t.value.2, idle && !t.value.1, i + 1, fuel);
      }
    }
  }

  /** An idle sweep's end: the NAT's packet goes to NIC 0, x then y. */
  function Resume(nics: seq<Machine>, p: Packet): (r: seq<Machine>)
    requires |nics| > 0
    ensures |r| == |nics| && r[0].ioIn == nics[0].ioIn + [p.x, p.y]
    ensures r[0] == nics[0].(ioIn := r[0].ioIn)
    ensures forall j :: 0 < j < |nics| ==> r[j] == nics[j]
  {
    Send(Send(nics, 0, p.x), 0, p.y)
  }

  /** The outer `loop` of `run_network`, for at most `sweeps` sweeps: after
      an idle sweep the NAT's packet is sent to NIC 0 and the loop ends with
      its y if the packet equals the one sent last time, the whole pair
      compared; every sweep after the first starts idle. */
  function Listen(nics: seq<Machine>, held: Packet, prev: Packet, idle: bool, sweeps: nat, fuel: nat): (r: Result<int>)
    requires |nics| > 0
    decreases sweeps
  {
    if sweeps == 0 then Err(Exhausted)
    else
      match Sweep(nics, held, idle, 0, fuel)
      case Err(f) => Err(f)
      case Ok((a, w)) =>
        if w.idle then
          if w.held == prev then Ok(w.held.y) else Listen(Resume(a, w.held), w.held, w.held, true, sweeps - 1, fuel)
        else Listen(a, w.held, prev, true, sweeps - 1, fuel)
  }

  /** What one completed sweep leads to: an idle sweep whose NAT packet is
      the one sent last time ends the loop with that packet's y; any other
      sweep lets the loop go on from the state it left, one sweep fewer. */
  lemma ListenStep(nics: seq<Machine>, held: Packet, prev: Packet, idle: bool, rest: nat, fuel: nat)
    requires |nics| > 0 && Sweep(nics, held, idle, 0, fuel).Ok?
    ensures var s := Sweep(nics, held, idle, 0, fuel).value;
            && (s.1.idle && s.1.held == prev ==> Listen(nics, held, prev, idle, rest + 1, fuel) == Ok(s.1.held.y))
            && (s.1.idle && s.1.held != prev ==>
                  Listen(nics, held, prev, idle, rest + 1, fuel) == Listen(Resume(s.0, s.1.held), s.1.held, s.1.held, true, rest, fuel))
            && (!s.1.idle ==> Listen(nics, held, prev, idle, rest + 1, fuel) == Listen(s.0, s.1.held, prev, true, rest, fuel))
  {
  }

  /** Proof helper: `ListenStep` with the count before the sweep given as
      a variable, which keeps the loop proof of `ListenLoop` small. */
  lemma ListenStepFrom(nics: seq<Machine>, held: Packet, prev: Packet, idle: bool, sweeps: nat, rest: nat, fuel: nat)
    requires |nics| > 0 && Sweep(nics, held, idle, 0, fuel).Ok? && sweeps == rest + 1
    ensures var s := Sweep(nics, held, idle, 0, fuel).value;
            && (s.1.idle && s.1.held != prev ==>
                  Listen(nics, held, prev, idle, sweeps, fuel) == Listen(Resume(s.0, s.1.held), s.1.held, s.1.held, true, rest, fuel))
            && (!s.1.idle ==> Listen(nics, held, prev, idle, sweeps, fuel) == Listen(s.0, s.1.held, prev, true, rest, fuel))
  {
    ListenStep(nics, held, prev, idle, rest, fuel);
  }

  /** The loop never stops on its first sweep: that sweep starts busy, so
      it is never idle, and a result needs at least one more sweep. */
  lemma FirstSweepNeverStops(nics: seq<Machine>, held: Packet, prev: Packet, sweeps: nat, fuel: nat)
    requires |nics| > 0
    ensures Listen(nics, held, prev, false, sweeps, fuel).Ok? ==> sweeps >= 2
  {
    SweepIdleOnlyIfIdle(nics, held, false, 0, fuel);
  }

  /** `run_network`: fifty new NICs booted, the NAT's packet and the last
      one it sent both (0, 0), the first sweep not idle. */
  function Route(program: seq<int>, sweeps: nat, fuel: nat): Result<int>
  {
    match Boot(NewMachines(NicCount), program, 0)
    case Err(f) => Err(f)
    case Ok(nics) => Listen(nics, Packet(0, 0), Packet(0, 0), false, sweeps, fuel)
  }

  /** NIC `j` of `nics` is loaded, in `Network(0)` mode, with its own
      address `j` as its only input. */
  predicate Addressed(nics: seq<Machine>)
  {
    forall j :: 0 <= j < |nics| ==>
      nics[j].ioIn == [j] && nics[j].mode == Network(0) && nics[j].state == Ready
  }

  /** Routing fails at boot exactly when the program does not fit a tape;
      otherwise all fifty NICs start addressed. */
  lemma RouteBoots(program: seq<int>)
    ensures Boot(NewMachines(NicCount), program, 0).Ok? <==> |program| <= MemorySize
    ensures Boot(NewMachines(NicCount), program, 0).Ok? ==>
              |Boot(NewMachines(NicCount), program, 0).value| == NicCount
              && Addressed(Boot(NewMachines(NicCount), program, 0).value)
  {
    var nics := NewMachines(NicCount);
    BootedNics(nics, program, 0);
    var b := Boot(nics, program, 0);
    if b.Ok? {
      forall j | 0 <= j < |b.value|
        ensures b.value[j].ioIn == [j] && b.value[j].mode == Network(0) && b.value[j].state == Ready
      {
        assert b.value[j] == Booted(nics[j], program, j);
      }
    }
  }

  // ----- the methods -----

  /** The set-up loop of `run_network`. */
  method BootNics(nics: array<Cpu>, program: seq<int>) returns (fault: Option<Fault>)
    requires Separate(nics, Nic)
    modifies Footprint(nics)
    ensures Separate(nics, Nic) && Footprint(nics) == old(Footprint(nics))
    ensures fault.None? <==> Boot(old(States(nics)), program, 0).Ok?
    ensures fault.Some? ==> Boot(old(States(nics)), program, 0) == Err(fault.value)
    ensures fault.None? ==> States(nics) == Boot(old(States(nics)), program, 0).value
  {
    ghost var spec := Boot(States(nics), program, 0);
    var i := 0;
    while i < nics.Length
      invariant i <= nics.Length && Separate(nics, Nic) && Footprint(nics) == old(Footprint(nics))
      invariant spec == Boot(States(nics), program, i)
    {
      ghost var before := States(nics);
      fault := LoadAt(nics, Nic, i, program);
      if fault.Some? {
        return;
      }
      SetModeAt(nics, Nic, i, Network(0));
      PushAt(nics, Nic, i, i);
      ghost var i0 := i;
      i := i + 1;
      BootStep(before, program, i0, i);
    }
    return None;
  }

  /** One NIC's turn in the inner loop of `run_network`. */
  method TakeTurn(nics: array<Cpu>, held: Packet, i: nat, fuel: nat) returns (r: Result<(bool, Packet)>)
    requires Separate(nics, Nic) && i < nics.Length
    modifies Footprint(nics)
    ensures Separate(nics, Nic) && Footprint(nics) == old(Footprint(nics))
    ensures r.Ok? <==> Turn(old(States(nics)), held, i, fuel).Ok?
    ensures r.Err? ==> Turn(old(States(nics)), held, i, fuel) == Err(r.fault)
    ensures r.Ok? ==> Turn(old(States(nics)), held, i, fuel) == Ok((States(nics), r.value.0, r.value.1))
  {
    var ran := RunAt(nics, Nic, i, fuel);
    if ran.Err? {
      return Err(ran.fault);
    }
    if ran.value.ioOut == [] {
      return Ok((false, held));
    }
    var dest := PopAt(nics, Nic, i);
    var x := PopAt(nics, Nic, i);
    if x.None? {
      return Err(MissingValue);
    }
    var y := PopAt(nics, Nic, i);
    if y.None? {
      return Err(MissingValue);
    }
    if dest.value == NatAddress {
      return Ok((true, Packet(x.value, y.value)));
    }
    if !(0 <= dest.value < nics.Length) {
      return Err(OutOfRange);
    }
    PushAt(nics, Nic, dest.value, x.value);
    PushAt(nics, Nic, dest.value, y.value);
    return Ok((true, held));
  }

  /** The body of the inner `for` loop of `run_network` for NIC `i`. */
  method SweepStep(nics: array<Cpu>, held: Packet, idle: bool, i: nat, next: nat, fuel: nat) returns (r: Result<Watch>)
    requires Separate(nics, Nic) && i < nics.Length && next == i + 1
    modifies Footprint(nics)
    ensures Separate(nics, Nic) && Footprint(nics) == old(Footprint(nics))
    ensures r.Err? ==> Sweep(old(States(nics)), held, idle, i, fuel) == Err(r.fault)
    ensures r.Ok? ==>
              Sweep(old(States(nics)), held, idle, i, fuel) == Sweep(States(nics), r.value.held, r.value.idle, next, fuel)
  {
    var turn := TakeTurn(nics, held, i, fuel);
    if turn.Err? {
      return Err(turn.fault);
    }
    return Ok(Watch(turn.value.1, idle && !turn.value.0));
  }

  /** The inner `for` loop of `run_network`. */
  method SweepNics(nics: array<Cpu>, held: Packet, idle: bool, fuel: nat) returns (r: Result<Watch>)
    requires Separate(nics, Nic)
    modifies Footprint(nics)
    ensures Separate(nics, Nic) && Footprint(nics) == old(Footprint(nics))
    ensures r == Report(Sweep(old(States(nics)), held, idle, 0, fuel))
    ensures r.Ok? ==> States(nics) == Sweep(old(States(nics)), held, idle, 0, fuel).value.0
  {
    ghost var spec := Sweep(States(nics), held, idle, 0, fuel);
    var packet := held;
    var quiet := idle;
    var i := 0;
    while i < nics.Length
      invariant i <= nics.Length && Separate(nics, Nic) && Footprint(nics) == old(Footprint(nics))
      invariant spec == Sweep(States(nics), packet, quiet, i, fuel)
    {
      var next := i + 1;
      var step := SweepStep(nics, packet, quiet, i, next, fuel);
      if step.Err? {
        return Err(step.fault);
      }
      packet, quiet := step.value.held, step.value.idle;
      i := next;
    }
    return Ok(Watch(packet, quiet));
  }

  /** The end of an idle sweep: the NAT's packet to NIC 0. */
  method ResumeNat(nics: array<Cpu>, p: Packet)
    requires Separate(nics, Nic) && nics.Length > 0
    modifies Footprint(nics)
    ensures Separate(nics, Nic) && Footprint(nics) == old(Footprint(nics))
    ensures States(nics) == Resume(old(States(nics)), p)
  {
    PushAt(nics, Nic, 0, p.x);
    PushAt(nics, Nic, 0, p.y);
  }

  /** The outer `loop` of `run_network`, for at most `sweeps` sweeps. */
  method ListenLoop(nics: array<Cpu>, sweeps: nat, fuel: nat) returns (r: Result<int>)
    requires Separate(nics, Nic) && nics.Length > 0
    modifies Footprint(nics)
    ensures r == Listen(old(States(nics)), Packet(0, 0), Packet(0, 0), false, sweeps, fuel)
  {
    ghost var spec := Listen(States(nics), Packet(0, 0), Packet(0, 0), false, sweeps, fuel);
    var held := Packet(0, 0);
    var prev := Packet(0, 0);
    var idle := false;
    var k := sweeps;
    while true
      invariant Separate(nics, Nic) && Footprint(nics) == old(Footprint(nics))
      invariant spec == Listen(States(nics), held, prev, idle, k, fuel)
      decreases k
    {
      if k == 0 {
        return Err(Exhausted);
      }
      ghost var before := States(nics);
      ghost var (held0, prev0, idle0, k0) := (held, prev, idle, k);
      var swept := SweepNics(nics, held, idle, fuel);
      if swept.Err? {
        return Err(swept.fault);
      }
      held, idle := swept.value.held, swept.value.idle;
      if idle {
        ResumeNat(nics, held);
        if held == prev {
          return Ok(held.y);
        }
        prev := held;
      }
      idle := true;
      k := k - 1;
      ListenStepFrom(before, held0, prev0, idle0, k0, k, fuel);
    }
  }

  /** `run_network`. */
  method RunNetwork(program: seq<int>, sweeps: nat, fuel: nat) returns (r: Result<int>)
    ensures r == Route(program, sweeps, fuel)
  {
    var nics := NewCpus(Nic, NicCount);
    var fault := BootNics(nics, program);
    if fault.Some? {
      return Err(fault.value);
    }
    r := ListenLoop(nics, sweeps, fuel);
  }
}
