/** Fixed arrays of separate `Cpu` objects, as the amplifier chain and the
    network driver hold them (`[Cpu; 5]`, `[Cpu; 50]`): the machine values
    they hold, and the per-element operations the drivers use, each of
    which changes one element only. */
module CpuArrays {
  import opened Common
  import opened Intcode
  import opened IntcodeCpu

  /** Every element is its own object with its own tape, all of variant `v`. */
  predicate Separate(cpus: array<Cpu>, v: Variant)
    reads cpus
  {
    && (forall i :: 0 <= i < cpus.Length ==> cpus[i].variant == v)
    && (forall i, j :: 0 <= i < j < cpus.Length ==> cpus[i] != cpus[j] && cpus[i].memory != cpus[j].memory)
  }

  /** The objects and tapes of the array. */
  function Footprint(cpus: array<Cpu>): set<object>
    reads cpus
  {
    (set i | 0 <= i < cpus.Length :: cpus[i]) + (set i | 0 <= i < cpus.Length :: cpus[i].memory)
  }

  /** The machine each element holds. */
  function States(cpus: array<Cpu>): (ms: seq<Machine>)
    reads cpus, Footprint(cpus)
    ensures |ms| == cpus.Length
    ensures forall i :: 0 <= i < cpus.Length ==> ms[i] == cpus[i].Abstract()
  {
    seq(cpus.Length, i requires 0 <= i < cpus.Length reads cpus, Footprint(cpus) => cpus[i].Abstract())
  }

  /** `n` machines as `Cpu::new` builds them. */
  function NewMachines(n: nat): (ms: seq<Machine>)
    ensures |ms| == n && forall i :: 0 <= i < n ==> ms[i] == NewMachine()
  {
    seq(n, _ => NewMachine())
  }

  /** `std::array::from_fn(|_| Cpu::new())`: `n` new machines, each with its
      own tape. */
  method NewCpus(v: Variant, n: nat) returns (cpus: array<Cpu>)
    ensures fresh(cpus) && fresh(Footprint(cpus))
    ensures cpus.Length == n && Separate(cpus, v)
    ensures States(cpus) == NewMachines(n)
  {
    var made: seq<Cpu> := [];
    while |made| < n
      invariant |made| <= n
      invariant forall i :: 0 <= i < |made| ==>
                  fresh(made[i]) && fresh(made[i].memory) && made[i].variant == v && made[i].Abstract() == NewMachine()
      invariant forall i, j :: 0 <= i < j < |made| ==> made[i] != made[j] && made[i].memory != made[j].memory
    {
      var c := new Cpu(v);
      made := made + [c];
    }
    cpus := new Cpu[n](i requires 0 <= i < |made| => made[i]);
  }

  /** `load_program(&mut cpus[i], program)`. */
  method LoadAt(cpus: array<Cpu>, ghost v: Variant, i: nat, program: seq<int>) returns (fault: Option<Fault>)
    requires Separate(cpus, v) && i < cpus.Length
    modifies cpus[i], cpus[i].memory
    ensures Separate(cpus, v) && Footprint(cpus) == old(Footprint(cpus))
    ensures fault.None? <==> Load(v, old(States(cpus))[i], program).Ok?
    ensures fault.None? ==> States(cpus) == old(States(cpus))[i := Load(v, old(States(cpus))[i], program).value]
    ensures fault.Some? ==> Load(v, old(States(cpus))[i], program) == Err(fault.value)
  {
    fault := cpus[i].LoadProgram(program);
    assert forall j :: 0 <= j < cpus.Length && j != i ==> cpus[j].Abstract() == old(cpus[j].Abstract());
  }

  /** `cpus[i].io_in.push_front(x)`. */
  method PushAt(cpus: array<Cpu>, ghost v: Variant, i: nat, x: int)
    requires Separate(cpus, v) && i < cpus.Length
    modifies cpus[i]
    ensures Separate(cpus, v) && Footprint(cpus) == old(Footprint(cpus))
    ensures States(cpus) == old(States(cpus))[i := old(States(cpus))[i].(ioIn := old(States(cpus))[i].ioIn + [x])]
  {
    cpus[i].PushInput(x);
    assert forall j :: 0 <= j < cpus.Length && j != i ==> cpus[j].Abstract() == old(cpus[j].Abstract());
  }

  /** `cpus[i].io_out.push_front(x)`. */
  method PushOutputAt(cpus: array<Cpu>, ghost v: Variant, i: nat, x: int)
    requires Separate(cpus, v) && i < cpus.Length
    modifies cpus[i]
    ensures Separate(cpus, v) && Footprint(cpus) == old(Footprint(cpus))
    ensures States(cpus) == old(States(cpus))[i := old(States(cpus))[i].(ioOut := old(States(cpus))[i].ioOut + [x])]
  {
    cpus[i].PushOutput(x);
    assert forall j :: 0 <= j < cpus.Length && j != i ==> cpus[j].Abstract() == old(cpus[j].Abstract());
  }

  /** `cpus[i].mode = mode`. */
  method SetModeAt(cpus: array<Cpu>, ghost v: Variant, i: nat, mode: CpuMode)
    requires Separate(cpus, v) && i < cpus.Length
    modifies cpus[i]
    ensures Separate(cpus, v) && Footprint(cpus) == old(Footprint(cpus))
    ensures States(cpus) == old(States(cpus))[i := old(States(cpus))[i].(mode := mode)]
  {
    cpus[i].SetMode(mode);
    assert forall j :: 0 <= j < cpus.Length && j != i ==> cpus[j].Abstract() == old(cpus[j].Abstract());
  }

  /** `cpus[i].io_out.pop_back()`. */
  method PopAt(cpus: array<Cpu>, ghost v: Variant, i: nat) returns (x: Option<int>)
    requires Separate(cpus, v) && i < cpus.Length
    modifies cpus[i]
    ensures Separate(cpus, v) && Footprint(cpus) == old(Footprint(cpus))
    ensures x == Oldest(old(States(cpus))[i])
    ensures States(cpus) == old(States(cpus))[i := Popped(old(States(cpus))[i])]
  {
    x := cpus[i].PopOutput();
    assert forall j :: 0 <= j < cpus.Length && j != i ==> cpus[j].Abstract() == old(cpus[j].Abstract());
  }

  /** `run(&mut cpus[i])`, for at most `fuel` cycles. */
  method RunAt(cpus: array<Cpu>, ghost v: Variant, i: nat, fuel: nat) returns (r: Result<Machine>)
    requires Separate(cpus, v) && i < cpus.Length
    modifies cpus[i], cpus[i].memory
    ensures Separate(cpus, v) && Footprint(cpus) == old(Footprint(cpus))
    ensures r == Settle(Run(v, old(States(cpus))[i], fuel))
    ensures r.Ok? ==> States(cpus) == old(States(cpus))[i := r.value]
  {
    var o := cpus[i].Run(fuel);
    r := Settle(o);
    assert forall j :: 0 <= j < cpus.Length && j != i ==> cpus[j].Abstract() == old(cpus[j].Abstract());
  }

  /** The report of a driver, without the machines it leaves behind. */
  function Report<T>(r: Result<(seq<Machine>, T)>): (r': Result<T>)
    ensures r'.Ok? <==> r.Ok?
    ensures r.Ok? ==> r'.value == r.value.1
    ensures r.Err? ==> r'.fault == r.fault
  {
    match r
    case Ok((_, x)) => Ok(x)
    case Err(f) => Err(f)
  }

  /** The oldest queued output of a machine, if any. */
  function Oldest(m: Machine): (x: Option<int>)
    ensures x.Some? <==> m.ioOut != []
  {
    if m.ioOut == [] then None else Some(m.ioOut[0])
  }

  /** The machine with its oldest output taken, if there was one. */
  function Popped(m: Machine): (m': Machine)
    ensures m.ioOut != [] ==> m'.ioOut == m.ioOut[1..]
    ensures m' == m.(ioOut := m'.ioOut)
  {
    if m.ioOut == [] then m else m.(ioOut := m.ioOut[1..])
  }
}
