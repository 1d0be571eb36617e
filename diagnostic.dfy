/** Day 5's executor: the first machine with an opcode table and addressing
    modes, before queues and the relative base existed. It runs on a copy
    of the program exactly as long as the program, knows position and
    immediate operands only, takes input from the keyboard, prints its
    output, and answers with cell 0 once it decodes a halt.

    The keyboard is modelled as the list of numbers typed, oldest first
    (running out of it is the panic `read_input` raises when the line does
    not parse), and the printed lines as a list of outputs. */
module Diagnostic {
  import opened Common
  import opened Decoder
  import opened Intcode

  /** The machine between two instructions: the pointer, the tape, the
      numbers still to be typed and the numbers printed so far. */
  datatype Snapshot = Snapshot(ip: nat, memory: seq<int>, inputs: seq<int>, outputs: seq<int>)

  /** Day 5's `get_cmd`: the opcode table written out, which has no
      opcode 9 yet. Every other opcode decodes as in the later machines. */
  function GetCmd5(instruction: int): (r: Option<Cmd>)
    ensures TruncRem(instruction, 100) == 9 ==> r == None
    ensures TruncRem(instruction, 100) != 9 ==> r == GetCmd(instruction)
  {
    match TruncRem(instruction, 100)
    case 1 => Some(Cmd(Add, 3, true))
    case 2 => Some(Cmd(Mul, 3, true))
    case 3 => Some(Cmd(In, 1, true))
    case 4 => Some(Cmd(Out, 1, false))
    case 5 => Some(Cmd(Jnz, 2, false))
    case 6 => Some(Cmd(Jz, 2, false))
    case 7 => Some(Cmd(Lt, 3, true))
    case 8 => Some(Cmd(Cmp, 3, true))
    case 99 => Some(Cmd(Hlt, 0, false))
    case _ => None
  }

  /** Day 5's `get_mode`: the first `n` digits of `digits`, least
      significant first, kept as raw numbers (nothing is rejected). */
  function RawModes(digits: int, n: nat): (r: seq<int>)
    ensures |r| == n
    decreases n
  {
    if n == 0 then [] else [TruncRem(digits, 10)] + RawModes(TruncDiv(digits, 10), n - 1)
  }

  /** Where the later decoder accepts the mode digits, day 5 reads them
      alike: a 0 is a position operand and a 1 an immediate one. (Day 5
      also takes any other digit as immediate where the later machines
      panic or go relative.) */
  lemma {:induction false} RawModesAgree(digits: int, n: nat)
    requires ModeDigits(digits, n).Some?
    ensures forall i :: 0 <= i < n ==> (RawModes(digits, n)[i] == 0 <==> ModeDigits(digits, n).value[i] == Pos)
    ensures forall i :: 0 <= i < n ==> (RawModes(digits, n)[i] == 1 <==> ModeDigits(digits, n).value[i] == Imm)
    decreases n
  {
    if n > 0 {
      RawModesAgree(TruncDiv(digits, 10), n - 1);
      var rest := ModeDigits(TruncDiv(digits, 10), n - 1).value;
      assert ModeDigits(digits, n).value == [ModeOf(TruncRem(digits, 10)).value] + rest;
      assert RawModes(digits, n) == [TruncRem(digits, 10)] + RawModes(TruncDiv(digits, 10), n - 1);
    }
  }

  /** The `n` operand cells that follow the opcode at `ip`; the tape is
      not extended, so one past its end panics. */
  function Operands(memory: seq<int>, ip: nat, n: nat): (r: Result<seq<int>>)
    ensures r.Ok? <==> ip + n < |memory|
    ensures r.Ok? ==> r.value == memory[ip + 1..ip + n + 1]
    ensures r.Err? ==> r.fault == OutOfRange
  {
    if ip + n < |memory| then Ok(memory[ip + 1..ip + n + 1]) else Err(OutOfRange)
  }

  /** The first `k` operands resolved in place: one whose mode digit is 0
      is replaced by the cell it names, every other one is kept as it is. */
  function Resolve(memory: seq<int>, modes: seq<int>, raw: seq<int>, k: nat): (r: Result<seq<int>>)
    requires |modes| == |raw| && k <= |raw|
    ensures r.Ok? <==> forall i :: 0 <= i < k && modes[i] == 0 ==> 0 <= raw[i] < |memory|
    ensures r.Ok? ==> |r.value| == |raw|
    ensures r.Ok? ==> forall i :: 0 <= i < |raw| ==>
                        r.value[i] == (if i < k && modes[i] == 0 then memory[raw[i]] else raw[i])
    ensures r.Err? ==> r.fault == OutOfRange
    decreases k
  {
    if k == 0 then Ok(raw)
    else
      match Resolve(memory, modes, raw, k - 1)
      case Err(f) => Err(f)
      case Ok(vals) =>
        if modes[k - 1] != 0 then Ok(vals)
        else if 0 <= raw[k - 1] < |memory| then Ok(vals[k - 1 := memory[raw[k - 1]]])
        else Err(OutOfRange)
  }

  /** `memory[a] = x` on a tape that never grows. */
  function Put(s: Snapshot, a: int, x: int): (r: Result<Snapshot>)
    ensures r.Ok? <==> 0 <= a < |s.memory|
    ensures r.Ok? ==> r.value == s.(memory := s.memory[a := x])
    ensures r.Err? ==> r.fault == OutOfRange
  {
    if 0 <= a < |s.memory| then Ok(s.(memory := s.memory[a := x])) else Err(OutOfRange)
  }

  /** `execute_cmd` on a machine whose pointer already moved past the
      operands, given the resolved operands `regs`. The number typed is
      read before its target cell is indexed. */
  function Exec(s: Snapshot, cmd: Cmd, regs: seq<int>): (r: Result<Snapshot>)
    requires |regs| == Arity(cmd.op)
  {
    match cmd.op
    case Add => Put(s, regs[2], regs[0] + regs[1])
    case Mul => Put(s, regs[2], regs[0] * regs[1])
    case In => if s.inputs == [] then Err(NoInput) else Put(s.(inputs := s.inputs[1..]), regs[0], s.inputs[0])
    case Out => Ok(s.(outputs := s.outputs + [regs[0]]))
    case Jnz => Ok(if regs[0] != 0 then s.(ip := Usize(regs[1])) else s)
    case Jz => Ok(if regs[0] == 0 then s.(ip := Usize(regs[1])) else s)
    case Lt => Put(s, regs[2], if regs[0] < regs[1] then 1 else 0)
    case Cmp => Put(s, regs[2], if regs[0] == regs[1] then 1 else 0)
    case AdjBp => Err(InvalidOpcode)
    case Hlt => Ok(s)
  }

  /** The instruction at `ip`, if it can be fetched and decoded. */
  function Decode(s: Snapshot): (r: Result<Cmd>)
    ensures r.Ok? ==> WellFormed(r.value) && r.value.op != AdjBp && s.ip < |s.memory|
  {
    if s.ip >= |s.memory| then Err(OutOfRange)
    else match GetCmd5(s.memory[s.ip])
      case None => Err(InvalidOpcode)
      case Some(cmd) => Ok(cmd)
  }

  /** Whether the loop stops here: the instruction at `ip` is a halt. */
  predicate AtHalt(s: Snapshot)
  {
    Decode(s).Ok? && Decode(s).value.op == Hlt
  }

  /** One turn of the loop of `execute_program` that does not halt: fetch
      and decode, read the operand cells, resolve the read operands (all
      but a write target), then execute. */
  function Cycle(s: Snapshot): (r: Result<Snapshot>)
    ensures r.Ok? ==> |r.value.memory| == |s.memory|
  {
    match Decode(s)
    case Err(f) => Err(f)
    case Ok(cmd) =>
      match Operands(s.memory, s.ip, cmd.nOperands)
      case Err(f) => Err(f)
      case Ok(raw) =>
        var k := if cmd.writes then cmd.nOperands - 1 else cmd.nOperands;
        match Resolve(s.memory, RawModes(TruncDiv(s.memory[s.ip], 100), cmd.nOperands), raw, k)
        case Err(f) => Err(f)
        case Ok(regs) => Exec(s.(ip := s.ip + cmd.nOperands + 1), cmd, regs)
  }

  /** One turn of the loop, as a function value. */
  function Step(): Snapshot -> Result<Snapshot>
  {
    s => Cycle(s)
  }

  /** The loop of `execute_program` for at most `fuel` turns of `step`:
      the machine in which it decodes a halt, or why it did not get
      there. */
  function Run(step: Snapshot -> Result<Snapshot>, s: Snapshot, fuel: nat): (r: Result<Snapshot>)
    ensures r.Ok? ==> AtHalt(r.value)
    decreases fuel
  {
    if fuel == 0 then Err(Exhausted)
    else if AtHalt(s) then Ok(s)
    else
      match step(s)
      case Err(f) => Err(f)
      case Ok(s') => Run(step, s', fuel - 1)
  }

  /** `s'` has a tape as long as that of `s` and printed everything `s`
      had printed first. */
  predicate Extends(s: Snapshot, s': Snapshot)
  {
    |s'.memory| == |s.memory| && |s.outputs| <= |s'.outputs| && s'.outputs[..|s.outputs|] == s.outputs
  }

  /** A turn keeps the length of the tape and only ever appends to what
      was printed. */
  lemma CycleExtends(s: Snapshot)
    requires Cycle(s).Ok?
    ensures Extends(s, Cycle(s).value)
  {
  }

  /** A run of turns that each extend the machine extends it. */
  lemma {:induction false} RunExtends(step: Snapshot -> Result<Snapshot>, s: Snapshot, fuel: nat)
    requires forall t :: step(t).Ok? ==> Extends(t, step(t).value)
    requires Run(step, s, fuel).Ok?
    ensures Extends(s, Run(step, s, fuel).value)
    decreases fuel
  {
    if !AtHalt(s) {
      var s' := step(s).value;
      RunExtends(step, s', fuel - 1);
      var o := Run(step, s, fuel).value.outputs;
      assert o[..|s'.outputs|][..|s.outputs|] == o[..|s.outputs|];
    }
  }

  /** So `execute_program` keeps its tape exactly as long as the program
      (no address past it ever becomes valid), and what it printed before
      is still the first thing printed. */
  lemma RunKeepsTape(s: Snapshot, fuel: nat)
    requires Run(Step(), s, fuel).Ok?
    ensures Extends(s, Run(Step(), s, fuel).value)
  {
    forall t | Step()(t).Ok?
      ensures Extends(t, Step()(t).value)
    {
      CycleExtends(t);
    }
    RunExtends(Step(), s, fuel);
  }

  /** A turn that neither halts nor panics leaves the rest of the run to
      the machine after it. */
  lemma RunStep(step: Snapshot -> Result<Snapshot>, s: Snapshot, fuel: nat, next: nat)
    requires fuel == next + 1 && !AtHalt(s) && step(s).Ok?
    ensures Run(step, s, fuel) == Run(step, step(s).value, next)
  {
  }

  /** `execute_program`: the machine starts at 0 on a copy of the program
      with nothing printed; noun and verb play no part. Its answer is cell
      0 of the halted machine, with what it printed. */
  function Answer(program: seq<int>, inputs: seq<int>, fuel: nat): (r: Result<(int, seq<int>)>)
    ensures r.Ok? ==> |program| > 0
  {
    match Run(Step(), Snapshot(0, program, inputs, []), fuel)
    case Err(f) => Err(f)
    case Ok(s) => Ok((s.memory[0], s.outputs))
  }

  /** What one turn of the loop does, by kind of instruction: the pointer
      moves past the operands unless a jump is taken, a taken jump goes to
      its second operand, a write lands on the cell its last operand names
      as written (never dereferenced) and nowhere else, and a comparison
      writes exactly 1 or 0. */
  lemma CycleEffect(s: Snapshot)
    requires Decode(s).Ok? && Cycle(s).Ok?
    ensures var cmd, s' := Decode(s).value, Cycle(s).value;
            var n := cmd.nOperands;
            && s.ip + n < |s.memory|
            && (cmd.op in {Add, Mul, In, Out, Lt, Cmp} ==> s'.ip == s.ip + n + 1)
            && (cmd.writes ==>
                  var a := s.memory[s.ip + n];
                  0 <= a < |s.memory| && forall i :: 0 <= i < |s.memory| && i != a ==> s'.memory[i] == s.memory[i])
            && (!cmd.writes ==> s'.memory == s.memory)
            && (cmd.op in {Lt, Cmp} ==> s'.memory[s.memory[s.ip + 3]] in {0, 1})
  {
  }

  /** A taken jump lands on its second operand, resolved by its mode;
      an untaken one falls through past its two operands. */
  lemma JumpTarget(s: Snapshot)
    requires Decode(s).Ok? && Decode(s).value.op in {Jnz, Jz} && Cycle(s).Ok?
    ensures var modes := RawModes(TruncDiv(s.memory[s.ip], 100), 2);
            var cond := if modes[0] == 0 then s.memory[s.memory[s.ip + 1]] else s.memory[s.ip + 1];
            var target := if modes[1] == 0 then s.memory[s.memory[s.ip + 2]] else s.memory[s.ip + 2];
            var taken := if Decode(s).value.op == Jnz then cond != 0 else cond == 0;
            Cycle(s).value.ip == (if taken then Usize(target) else s.ip + 3)
  {
  }

  /** The example of the opcode-table puzzle: 1,9,10,3,2,3,11,0,99,30,40,50
      adds cells 9 and 10 into cell 3, multiplies cells 3 and 11 into cell
      0 and halts with 3500 there. */
  lemma SampleAnswer(p: seq<int>)
    requires p == [1, 9, 10, 3, 2, 3, 11, 0, 99, 30, 40, 50]
    ensures Answer(p, [], 3) == Ok((3500, []))
  {
    SampleAdd(p);
    SampleMul(p);
  }

  /** The first instruction of the example: cells 9 and 10 (30 and 40)
      added into cell 3. */
  lemma SampleAdd(p: seq<int>)
    requires p == [1, 9, 10, 3, 2, 3, 11, 0, 99, 30, 40, 50]
    ensures Run(Step(), Snapshot(0, p, [], []), 3) == Run(Step(), Snapshot(4, p[3 := 70], [], []), 2)
  {
    var s0 := Snapshot(0, p, [], []);
    assert Decode(s0) == Ok(Cmd(Add, 3, true));
    assert RawModes(TruncDiv(1, 100), 3) == [0, 0, 0];
    assert p[1..4] == [9, 10, 3];
    assert Resolve(p, [0, 0, 0], [9, 10, 3], 0) == Ok([9, 10, 3]);
    assert [9, 10, 3][0 := 30] == [30, 10, 3];
    assert Resolve(p, [0, 0, 0], [9, 10, 3], 1) == Ok([30, 10, 3]);
    assert [30, 10, 3][1 := 40] == [30, 40, 3];
    assert Resolve(p, [0, 0, 0], [9, 10, 3], 2) == Ok([30, 40, 3]);
    assert Cycle(s0) == Ok(Snapshot(4, p[3 := 70], [], []));
    RunStep(Step(), s0, 3, 2);
  }

  /** The multiplication cycle of the example on its own. */
  lemma SampleMulCycle(m: seq<int>, q: seq<int>)
    requires m == [1, 9, 10, 70, 2, 3, 11, 0, 99, 30, 40, 50]
    requires q == [3500, 9, 10, 70, 2, 3, 11, 0, 99, 30, 40, 50]
    ensures !AtHalt(Snapshot(4, m, [], []))
    ensures Cycle(Snapshot(4, m, [], [])) == Ok(Snapshot(8, q, [], []))
  {
    var s1 := Snapshot(4, m, [], []);
    assert Decode(s1) == Ok(Cmd(Mul, 3, true));
    assert RawModes(TruncDiv(2, 100), 3) == [0, 0, 0];
    assert m[5..8] == [3, 11, 0];
    assert Resolve(m, [0, 0, 0], [3, 11, 0], 0) == Ok([3, 11, 0]);
    assert [3, 11, 0][0 := 70] == [70, 11, 0];
    assert Resolve(m, [0, 0, 0], [3, 11, 0], 1) == Ok([70, 11, 0]);
    assert [70, 11, 0][1 := 50] == [70, 50, 0];
    assert Resolve(m, [0, 0, 0], [3, 11, 0], 2) == Ok([70, 50, 0]);
    assert m[0 := 3500] == q;
  }

  /** The example stops on the 99 in cell 8. */
  lemma SampleHalt(q: seq<int>)
    requires q == [3500, 9, 10, 70, 2, 3, 11, 0, 99, 30, 40, 50]
    ensures AtHalt(Snapshot(8, q, [], []))
  {
    assert GetCmd5(q[8]) == Some(Cmd(Hlt, 0, false));
  }

  /** The second: cells 3 and 11 (70 and 50) multiplied into cell 0,
      after which the machine halts on the 99 in cell 8. */
  lemma SampleMul(p: seq<int>)
    requires p == [1, 9, 10, 3, 2, 3, 11, 0, 99, 30, 40, 50]
    ensures Run(Step(), Snapshot(4, p[3 := 70], [], []), 2) == Ok(Snapshot(8, p[3 := 70][0 := 3500], [], []))
  {
    var m := p[3 := 70];
    var q := m[0 := 3500];
    assert m == [1, 9, 10, 70, 2, 3, 11, 0, 99, 30, 40, 50];
    assert q == [3500, 9, 10, 70, 2, 3, 11, 0, 99, 30, 40, 50];
    SampleMulCycle(m, q);
    SampleHalt(q);
    RunStep(Step(), Snapshot(4, m, [], []), 2, 1);
  }

  /** The mode example: 1002,4,3,4,33 multiplies cell 4 (33) by the
      immediate 3, writes 99 into cell 4 and then halts on it. */
  lemma ModeSample()
    ensures Run(Step(), Snapshot(0, [1002, 4, 3, 4, 33], [], []), 2) == Ok(Snapshot(4, [1002, 4, 3, 4, 99], [], []))
  {
    var s0 := Snapshot(0, [1002, 4, 3, 4, 33], [], []);
    var s1 := Snapshot(4, [1002, 4, 3, 4, 99], [], []);
    assert Decode(s0) == Ok(Cmd(Mul, 3, true));
    assert TruncDiv(1002, 100) == 10;
    assert RawModes(10, 3) == [0, 1, 0];
    assert s0.memory[1..4] == [4, 3, 4];
    assert Resolve(s0.memory, [0, 1, 0], [4, 3, 4], 0) == Ok([4, 3, 4]);
    assert [4, 3, 4][0 := 33] == [33, 3, 4];
    assert Resolve(s0.memory, [0, 1, 0], [4, 3, 4], 1) == Ok([33, 3, 4]);
    assert Resolve(s0.memory, [0, 1, 0], [4, 3, 4], 2) == Ok([33, 3, 4]);
    assert s0.memory[4 := 99] == s1.memory;
    assert Exec(s0.(ip := 4), Cmd(Mul, 3, true), [33, 3, 4]) == Ok(s1);
    assert Cycle(s0) == Ok(s1);
    assert AtHalt(s1);
  }

  /** `get_mode`: peel the mode digits off `instruction / 100` one at a
      time. */
  method GetModes(instruction: int, n: nat) returns (modes: seq<int>)
    ensures modes == RawModes(TruncDiv(instruction, 100), n)
  {
    var digits := TruncDiv(instruction, 100);
    modes := [];
    var i := 0;
    while i < n
      invariant i <= n
      invariant modes + RawModes(digits, n - i) == RawModes(TruncDiv(instruction, 100), n)
    {
      var next := i + 1;
      assert RawModes(digits, n - i) == [TruncRem(digits, 10)] + RawModes(TruncDiv(digits, 10), n - next);
      modes := modes + [TruncRem(digits, 10)];
      digits := TruncDiv(digits, 10);
      i := next;
    }
  }

  /** Read the operand cells after the opcode, one at a time. */
  method LoadOperands(memory: array<int>, ip: nat, n: nat) returns (r: Result<seq<int>>)
    requires ip < memory.Length
    ensures r == Operands(memory[..], ip, n)
  {
    var raw := [];
    for i := 0 to n
      invariant ip + i < memory.Length && raw == memory[ip + 1..ip + 1 + i]
    {
      if ip + 1 + i >= memory.Length {
        return Err(OutOfRange);
      }
      raw := raw + [memory[ip + 1 + i]];
    }
    return Ok(raw);
  }

  /** The operand loop of `execute_cmd`: dereference each read operand in
      position mode. */
  method Dereference(memory: array<int>, modes: seq<int>, raw: seq<int>, k: nat) returns (r: Result<seq<int>>)
    requires |modes| == |raw| && k <= |raw|
    ensures r == Resolve(memory[..], modes, raw, k)
  {
    var vals := raw;
    for i := 0 to k
      invariant Resolve(memory[..], modes, raw, i) == Ok(vals)
    {
      if modes[i] == 0 {
        if !(0 <= raw[i] < memory.Length) {
          return Err(OutOfRange);
        }
        vals := vals[i := memory[raw[i]]];
      }
    }
    return Ok(vals);
  }

  /** Store `x` at `a` in place, or panic if `a` is off the tape. */
  method PutCell(memory: array<int>, a: int, x: int) returns (fault: Option<Fault>)
    modifies memory
    ensures fault.None? <==> 0 <= a < memory.Length
    ensures fault.None? ==> memory[..] == old(memory[..])[a := x]
    ensures fault.Some? ==> fault.value == OutOfRange && memory[..] == old(memory[..])
  {
    if !(0 <= a < memory.Length) {
      return Some(OutOfRange);
    }
    memory[a] := x;
    fault := None;
  }

  /** `execute_cmd`, after the pointer has moved past the operands: the
      tape changes in place; the pointer, the numbers left to type and
      the printed numbers come back. */
  method ExecuteCmd(memory: array<int>, cmd: Cmd, regs: seq<int>, ip: nat, inputs: seq<int>, outputs: seq<int>)
    returns (fault: Option<Fault>, ip': nat, inputs': seq<int>, outputs': seq<int>)
    requires |regs| == Arity(cmd.op)
    modifies memory
    ensures var e := Exec(Snapshot(ip, old(memory[..]), inputs, outputs), cmd, regs);
            && (fault.None? <==> e.Ok?)
            && (fault.None? ==> e.value == Snapshot(ip', memory[..], inputs', outputs'))
            && (fault.Some? ==> e.fault == fault.value)
  {
    ip', inputs', outputs' := ip, inputs, outputs;
    match cmd.op {
      case Add =>
        fault := PutCell(memory, regs[2], regs[0] + regs[1]);
      case Mul =>
        fault := PutCell(memory, regs[2], regs[0] * regs[1]);
      case In =>
        if inputs == [] {
          return Some(NoInput), ip', inputs', outputs';
        }
        inputs' := inputs[1..];
        fault := PutCell(memory, regs[0], inputs[0]);
      case Out =>
        fault := None;
        outputs' := outputs + [regs[0]];
      case Jnz =>
        fault := None;
        if regs[0] != 0 {
          ip' := Usize(regs[1]);
        }
      case Jz =>
        fault := None;
        if regs[0] == 0 {
          ip' := Usize(regs[1]);
        }
      case Lt =>
        fault := PutCell(memory, regs[2], if regs[0] < regs[1] then 1 else 0);
      case Cmp =>
        fault := PutCell(memory, regs[2], if regs[0] == regs[1] then 1 else 0);
      case AdjBp =>
        fault := Some(InvalidOpcode);
      case Hlt =>
        fault := None;
    }
  }

  /** One turn of the loop of `execute_program` on the tape in place:
      whether it decoded a halt, or else the machine after it. */
  method Turn(memory: array<int>, ip: nat, inputs: seq<int>, outputs: seq<int>)
    returns (halted: bool, fault: Option<Fault>, ip': nat, inputs': seq<int>, outputs': seq<int>)
    modifies memory
    ensures var s := Snapshot(ip, old(memory[..]), inputs, outputs);
            && (halted ==> AtHalt(s) && fault.None? && memory[..] == old(memory[..]) && outputs' == outputs)
            && (!halted && fault.Some? ==> !AtHalt(s) && Cycle(s) == Err(fault.value))
            && (!halted && fault.None? ==> !AtHalt(s) && Cycle(s) == Ok(Snapshot(ip', memory[..], inputs', outputs')))
  {
    ghost var s := Snapshot(ip, memory[..], inputs, outputs);
    ip', inputs', outputs' := ip, inputs, outputs;
    halted := false;
    if ip >= memory.Length {
      return false, Some(OutOfRange), ip', inputs', outputs';
    }
    var instruction := memory[ip];
    var decoded := GetCmd5(instruction);
    if decoded.None? {
      return false, Some(InvalidOpcode), ip', inputs', outputs';
    }
    var cmd := decoded.value;
    assert Decode(s) == Ok(cmd);
    var modes := GetModes(instruction, cmd.nOperands);
    if cmd.op == Hlt {
      return true, None, ip', inputs', outputs';
    }
    var raw := LoadOperands(memory, ip, cmd.nOperands);
    if raw.Err? {
      return false, Some(raw.fault), ip', inputs', outputs';
    }
    var k := if cmd.writes then cmd.nOperands - 1 else cmd.nOperands;
    var regs := Dereference(memory, modes, raw.value, k);
    if regs.Err? {
      return false, Some(regs.fault), ip', inputs', outputs';
    }
    fault, ip', inputs', outputs' := ExecuteCmd(memory, cmd, regs.value, ip + cmd.nOperands + 1, inputs, outputs);
  }

  /** `execute_program`: run a copy of the program until it decodes a halt
      (for at most `fuel` turns) and answer with cell 0 and what it
      printed. `noun` and `verb` are accepted and ignored. */
  method ExecuteProgram(program: seq<int>, noun: int, verb: int, inputs: seq<int>, fuel: nat)
    returns (r: Result<(int, seq<int>)>)
    ensures r == Answer(program, inputs, fuel)
  {
    var memory := new int[|program|](i requires 0 <= i < |program| => program[i]);
    assert memory[..] == program;
    var ip, ins, outs := 0, inputs, [];
    var f := fuel;
    while f > 0
      invariant Run(Step(), Snapshot(0, program, inputs, []), fuel) == Run(Step(), Snapshot(ip, memory[..], ins, outs), f)
      decreases f
    {
      ghost var s := Snapshot(ip, memory[..], ins, outs);
      var halted, fault;
      halted, fault, ip, ins, outs := Turn(memory, ip, ins, outs);
      if halted {
        assert Run(Step(), s, f) == Ok(s);
        return Ok((memory[0], outs));
      }
      if fault.Some? {
        assert Run(Step(), s, f) == Err(fault.value);
        return Err(fault.value);
      }
      var next := f - 1;
      RunStep(Step(), s, f, next);
      f := next;
    }
    return Err(Exhausted);
  }
}
