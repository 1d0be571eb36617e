/** Day 2's first executor: it walks the cells of a copy of the program one
    by one, in a fixed cycle of four phases (command, first source, second
    source, destination), and answers with cell 0 once it meets 99 in a
    command phase or runs off the end of the tape. */
module CellWalker {
  import opened Common
  import opened Intcode

  /** What the next cell means to the walker. */
  datatype Phase = CmdCell | Src1Cell | Src2Cell | DstCell

  /** The operation of the current instruction; `Halt` before the first
      command cell. */
  datatype Ops = Add | Mult | Halt

  /** The output `find_inputs` searches for. */
  const Target: int := 19690720

  /** Nouns and verbs are tried from 0 up to, not including, this bound. */
  const Bound: nat := 100

  /** The value a destination cell receives. */
  function Combine(cmd: Ops, val1: int, val2: int): (x: int)
    requires cmd != Halt
    ensures cmd == Add ==> x == val1 + val2
    ensures cmd == Mult ==> x == val1 * val2
  {
    if cmd == Add then val1 + val2 else val1 * val2
  }

  /** The loop of `execute` from cell `i` on, with the walker in `phase`
      after reading `cmd`, `val1` and `val2`. Every cell is read from the
      tape as it is when the walker reaches it. */
  function Walk(memory: seq<int>, i: nat, phase: Phase, cmd: Ops, val1: int, val2: int): (r: Result<int>)
    requires 0 < |memory| && i <= |memory|
    decreases |memory| - i
  {
    if i == |memory| then Ok(memory[0])
    else
      var num := memory[i];
      match phase
      case CmdCell =>
        if num == 1 then Walk(memory, i + 1, Src1Cell, Add, val1, val2)
        else if num == 2 then Walk(memory, i + 1, Src1Cell, Mult, val1, val2)
        else if num == 99 then Ok(memory[0])
        else Err(InvalidOpcode)
      case Src1Cell =>
        if 0 <= num < |memory| then Walk(memory, i + 1, Src2Cell, cmd, memory[num], val2)
        else Err(OutOfRange)
      case Src2Cell =>
        if 0 <= num < |memory| then Walk(memory, i + 1, DstCell, cmd, val1, memory[num])
        else Err(OutOfRange)
      case DstCell =>
        if cmd == Halt then Err(InvalidOpcode)
        else if 0 <= num < |memory| then Walk(memory[num := Combine(cmd, val1, val2)], i + 1, CmdCell, cmd, val1, val2)
        else Err(OutOfRange)
  }

  /** `execute(program, input1, input2)`: noun and verb go to cells 1 and 2
      of a copy of the program (a program of fewer than three cells panics
      there), then the walk starts at cell 0 in the command phase. */
  function Answer(program: seq<int>, input1: int, input2: int): Result<int>
  {
    if |program| < 3 then Err(OutOfRange)
    else Walk(program[1 := input1][2 := input2], 0, CmdCell, Halt, 0, 0)
  }

  /** The same computation read one whole instruction at a time, as the
      later machines do: an opcode, two source addresses and a destination
      address. An instruction cut short by the end of the tape still reads
      the sources it has and then answers with cell 0. */
  function Interpret(memory: seq<int>, ip: nat): (r: Result<int>)
    requires 0 < |memory| && ip <= |memory|
    decreases |memory| - ip
  {
    if ip == |memory| || memory[ip] == 99 then Ok(memory[0])
    else if memory[ip] != 1 && memory[ip] != 2 then Err(InvalidOpcode)
    else
      var cmd := if memory[ip] == 1 then Add else Mult;
      if ip + 1 == |memory| then Ok(memory[0])
      else if !(0 <= memory[ip + 1] < |memory|) then Err(OutOfRange)
      else if ip + 2 == |memory| then Ok(memory[0])
      else if !(0 <= memory[ip + 2] < |memory|) then Err(OutOfRange)
      else if ip + 3 == |memory| then Ok(memory[0])
      else if !(0 <= memory[ip + 3] < |memory|) then Err(OutOfRange)
      else
        var x := Combine(cmd, memory[memory[ip + 1]], memory[memory[ip + 2]]);
        Interpret(memory[memory[ip + 3] := x], ip + 4)
  }

  /** The cell walker and the instruction interpreter agree on every tape:
      whatever the walker carried over from the last instruction, a command
      phase at `ip` answers as an instruction fetched at `ip`. */
  lemma {:induction false} WalkInterprets(memory: seq<int>, ip: nat, cmd: Ops, val1: int, val2: int)
    requires 0 < |memory| && ip <= |memory|
    ensures Walk(memory, ip, CmdCell, cmd, val1, val2) == Interpret(memory, ip)
    decreases |memory| - ip
  {
    if ip < |memory| && (memory[ip] == 1 || memory[ip] == 2) {
      var c := if memory[ip] == 1 then Add else Mult;
      assert Walk(memory, ip, CmdCell, cmd, val1, val2) == Walk(memory, ip + 1, Src1Cell, c, val1, val2);
      if ip + 1 < |memory| && 0 <= memory[ip + 1] < |memory| {
        var x := memory[memory[ip + 1]];
        assert Walk(memory, ip + 1, Src1Cell, c, val1, val2) == Walk(memory, ip + 2, Src2Cell, c, x, val2);
        if ip + 2 < |memory| && 0 <= memory[ip + 2] < |memory| {
          var y := memory[memory[ip + 2]];
          assert Walk(memory, ip + 2, Src2Cell, c, x, val2) == Walk(memory, ip + 3, DstCell, c, x, y);
          if ip + 3 < |memory| && 0 <= memory[ip + 3] < |memory| {
            var m' := memory[memory[ip + 3] := Combine(c, x, y)];
            assert Walk(memory, ip + 3, DstCell, c, x, y) == Walk(m', ip + 4, CmdCell, c, x, y);
            WalkInterprets(m', ip + 4, c, x, y);
          }
        }
      }
    }
  }

  /** So `execute` is an instruction interpreter started at 0 on the copy
      that holds noun and verb. */
  lemma AnswerInterprets(program: seq<int>, input1: int, input2: int)
    requires |program| >= 3
    ensures Answer(program, input1, input2) == Interpret(program[1 := input1][2 := input2], 0)
  {
    WalkInterprets(program[1 := input1][2 := input2], 0, Halt, 0, 0);
  }

  /** The classic first example: 1,9,10,3,2,3,11,0,99,30,40,50 with noun 9
      and verb 10 adds cells 9 and 10 into cell 3, multiplies cells 3 and
      11 into cell 0, and answers 3500. */
  lemma SampleAnswer()
    ensures Answer([1, 9, 10, 3, 2, 3, 11, 0, 99, 30, 40, 50], 9, 10) == Ok(3500)
  {
    var p := [1, 9, 10, 3, 2, 3, 11, 0, 99, 30, 40, 50];
    var m1 := p[3 := 70];
    var m2 := m1[0 := 3500];
    assert p[1 := 9][2 := 10] == p;
    assert Walk(p, 0, CmdCell, Halt, 0, 0) == Walk(p, 1, Src1Cell, Add, 0, 0);
    assert Walk(p, 1, Src1Cell, Add, 0, 0) == Walk(p, 2, Src2Cell, Add, 30, 0);
    assert Walk(p, 2, Src2Cell, Add, 30, 0) == Walk(p, 3, DstCell, Add, 30, 40);
    assert Walk(p, 3, DstCell, Add, 30, 40) == Walk(m1, 4, CmdCell, Add, 30, 40);
    assert Walk(m1, 4, CmdCell, Add, 30, 40) == Walk(m1, 5, Src1Cell, Mult, 30, 40);
    assert Walk(m1, 5, Src1Cell, Mult, 30, 40) == Walk(m1, 6, Src2Cell, Mult, 70, 40);
    assert Walk(m1, 6, Src2Cell, Mult, 70, 40) == Walk(m1, 7, DstCell, Mult, 70, 50);
    assert Walk(m1, 7, DstCell, Mult, 70, 50) == Walk(m2, 8, CmdCell, Mult, 70, 50);
  }

  /** `execute`: copy the program into a fresh tape, set noun and verb, and
      walk the cells in order, updating the tape in place. */
  method Execute(program: seq<int>, input1: int, input2: int) returns (r: Result<int>)
    ensures r == Answer(program, input1, input2)
  {
    if |program| < 3 {
      return Err(OutOfRange);
    }
    var memory := new int[|program|](k requires 0 <= k < |program| => program[k]);
    memory[1] := input1;
    memory[2] := input2;
    assert memory[..] == program[1 := input1][2 := input2];
    var phase, cmd, val1, val2 := CmdCell, Halt, 0, 0;
    for i := 0 to memory.Length
      invariant Answer(program, input1, input2) == Walk(memory[..], i, phase, cmd, val1, val2)
    {
      var num := memory[i];
      match phase {
        case CmdCell =>
          if num == 1 {
            cmd := Add;
          } else if num == 2 {
            cmd := Mult;
          } else if num == 99 {
            return Ok(memory[0]);
          } else {
            return Err(InvalidOpcode);
          }
          phase := Src1Cell;
        case Src1Cell =>
          if !(0 <= num < memory.Length) {
            return Err(OutOfRange);
          }
          val1 := memory[num];
          phase := Src2Cell;
        case Src2Cell =>
          if !(0 <= num < memory.Length) {
            return Err(OutOfRange);
          }
          val2 := memory[num];
          phase := DstCell;
        case DstCell =>
          if cmd == Halt {
            return Err(InvalidOpcode);
          }
          if !(0 <= num < memory.Length) {
            return Err(OutOfRange);
          }
          memory[num] := Combine(cmd, val1, val2);
          phase := CmdCell;
      }
    }
    return Ok(memory[0]);
  }

  /** `(x, y)` comes before `(x', y')` in the order `find_inputs` tries them. */
  predicate Before(x: int, y: int, x': int, y': int)
  {
    x < x' || (x == x' && y < y')
  }

  /** The pairs `find_inputs` has tried by the time it reaches `(x, y)` all
      answered without panicking and missed the target. */
  predicate MissedBefore(program: seq<int>, x: int, y: int)
  {
    forall x', y' :: 0 <= x' < Bound && 0 <= y' < Bound && Before(x', y', x, y) ==>
      Answer(program, x', y').Ok? && Answer(program, x', y').value != Target
  }

  /** `p` is in range, answers the target, and every pair tried before it
      missed. */
  predicate Hit(program: seq<int>, p: (int, int))
  {
    0 <= p.0 < Bound && 0 <= p.1 < Bound && Answer(program, p.0, p.1) == Ok(Target) && MissedBefore(program, p.0, p.1)
  }

  /** Some pair in range panics with `f`, and every pair tried before it
      missed. */
  predicate Panics(program: seq<int>, f: Fault)
  {
    exists x, y :: 0 <= x < Bound && 0 <= y < Bound && MissedBefore(program, x, y) && Answer(program, x, y) == Err(f)
  }

  /** The search of `find_inputs` from `(x, y)` on: the first pair whose
      answer is the target, `None` once every pair is tried, and the first
      panic passed on. */
  function SearchFrom(program: seq<int>, x: nat, y: nat): Result<Option<(int, int)>>
    requires x <= Bound && y <= Bound
    decreases Bound - x, Bound - y
  {
    if x == Bound then Ok(None)
    else if y == Bound then SearchFrom(program, x + 1, 0)
    else
      match Answer(program, x, y)
      case Err(f) => Err(f)
      case Ok(a) => if a == Target then Ok(Some((x, y))) else SearchFrom(program, x, y + 1)
  }

  /** Whatever the search from `(x, y)` reports, it reports about the first
      pair from `(x, y)` on that hits the target or panics. */
  lemma {:induction false} SearchFromFirst(program: seq<int>, x: nat, y: nat)
    requires x <= Bound && y <= Bound && MissedBefore(program, x, y)
    ensures SearchFrom(program, x, y) == Ok(None) ==> MissedBefore(program, Bound, 0)
    ensures SearchFrom(program, x, y).Ok? && SearchFrom(program, x, y).value.Some? ==>
              Hit(program, SearchFrom(program, x, y).value.value)
    ensures SearchFrom(program, x, y).Err? ==> Panics(program, SearchFrom(program, x, y).fault)
    decreases Bound - x, Bound - y
  {
    if x == Bound {
    } else if y == Bound {
      assert MissedBefore(program, x + 1, 0) by {
        forall x', y' | 0 <= x' < Bound && 0 <= y' < Bound && Before(x', y', x + 1, 0)
          ensures Answer(program, x', y').Ok? && Answer(program, x', y').value != Target
        {
          assert Before(x', y', x, y);
        }
      }
      SearchFromFirst(program, x + 1, 0);
    } else if Answer(program, x, y).Ok? && Answer(program, x, y).value != Target {
      assert MissedBefore(program, x, y + 1) by {
        forall x', y' | 0 <= x' < Bound && 0 <= y' < Bound && Before(x', y', x, y + 1)
          ensures Answer(program, x', y').Ok? && Answer(program, x', y').value != Target
        {
          if !(x' == x && y' == y) {
            assert Before(x', y', x, y);
          }
        }
      }
      SearchFromFirst(program, x, y + 1);
    }
  }

  /** `find_inputs` answers with the first pair, in the order it tries
      them, whose answer is the target; `None` only when no pair in range
      hits it; and a panic only after every earlier pair missed. */
  lemma FindInputsFirst(program: seq<int>)
    ensures SearchFrom(program, 0, 0) == Ok(None) ==>
              forall x, y :: 0 <= x < Bound && 0 <= y < Bound ==>
                Answer(program, x, y).Ok? && Answer(program, x, y).value != Target
    ensures SearchFrom(program, 0, 0).Ok? && SearchFrom(program, 0, 0).value.Some? ==>
              Hit(program, SearchFrom(program, 0, 0).value.value)
    ensures SearchFrom(program, 0, 0).Err? ==> Panics(program, SearchFrom(program, 0, 0).fault)
  {
    SearchFromFirst(program, 0, 0);
    if SearchFrom(program, 0, 0) == Ok(None) {
      forall x, y | 0 <= x < Bound && 0 <= y < Bound
        ensures Answer(program, x, y).Ok? && Answer(program, x, y).value != Target
      {
        assert Before(x, y, Bound, 0);
      }
    }
  }

  /** `find_inputs`: try every noun, and for each every verb, returning
      at the first pair whose answer is the target. */
  method FindInputs(program: seq<int>) returns (r: Result<Option<(int, int)>>)
    ensures r == SearchFrom(program, 0, 0)
  {
    var x := 0;
    while x < Bound
      invariant x <= Bound
      invariant SearchFrom(program, 0, 0) == SearchFrom(program, x, 0)
    {
      var y := 0;
      while y < Bound
        invariant y <= Bound
        invariant SearchFrom(program, 0, 0) == SearchFrom(program, x, y)
      {
        var answer := Execute(program, x, y);
        if answer.Err? {
          return Err(answer.fault);
        }
        if answer.value == Target {
          return Ok(Some((x, y)));
        }
        y := y + 1;
      }
      x := x + 1;
    }
    return Ok(None);
  }
}
