/** Day 19's tractor beam: the machine, loaded afresh for every question,
    answers whether the drone at (x, y) is pulled (1) or not (0). The
    driver maps the 50 x 50 area nearest the emitter, counts the pulled
    cells, and looks for the first 100 x 100 square inside the beam. */
module Beam {
  import opened Common
  import opened Intcode
  import opened IntcodeFacts
  import opened IntcodeCpu

  /* ---------------------------------------------------------------- */
  /* One question                                                      */
  /* ---------------------------------------------------------------- */

  /** A machine as new, with a tape of `size` cells. */
  function Blank(size: nat): Machine
  {
    Machine(0, 0, seq(size, _ => 0), [], [], Normal, Halted)
  }

  /** `check_coord` on a machine with a `size`-cell tape in Normal mode:
      load the program, queue x then y, run for at most `fuel`
      instructions and take the oldest output. */
  function Probe(v: Variant, size: nat, program: seq<int>, x: nat, y: nat, fuel: nat): Result<int>
  {
    match Load(v, Blank(size), program)
    case Err(f) => Err(f)
    case Ok(loaded) =>
      match Runner(v, fuel)(loaded.(ioIn := [x, y]))
      case Err(f) => Err(f)
      case Ok(m) => if m.ioOut == [] then Err(MissingValue) else Ok(m.ioOut[0])
  }

  /** The question as a function of the coordinates alone. */
  function Prober(v: Variant, size: nat, program: seq<int>, fuel: nat): (nat, nat) -> Result<int>
  {
    (x: nat, y: nat) => Probe(v, size, program, x, y, fuel)
  }

  /** `check_coord`: since the program is loaded again every time, the
      answer depends only on the program and the coordinates, never on the
      questions asked before. */
  method CheckCoord(cpu: Cpu, x: nat, y: nat, program: seq<int>, fuel: nat) returns (r: Result<int>)
    requires cpu.mode == Normal && LoadResetsBase(cpu.variant)
    modifies cpu, cpu.memory
    ensures r == Prober(cpu.variant, cpu.memory.Length, program, fuel)(x, y)
    ensures r.Ok? ==> cpu.mode == Normal
  {
    assert Prober(cpu.variant, cpu.memory.Length, program, fuel)(x, y)
           == Probe(cpu.variant, cpu.memory.Length, program, x, y, fuel);
    ghost var before := cpu.Abstract();
    LoadForgetsHistory(cpu.variant, before, Blank(cpu.memory.Length), program);
    var fault := cpu.LoadProgram(program);
    if fault.Some? {
      assert Load(cpu.variant, Blank(cpu.memory.Length), program) == Err(fault.value);
      return Err(fault.value);
    }
    cpu.PushInput(x);
    cpu.PushInput(y);
    ghost var queued := cpu.Abstract();
    assert queued == Load(cpu.variant, Blank(cpu.memory.Length), program).value.(ioIn := [x, y]);
    RunKeepsMode(cpu.variant, queued, fuel);
    var o := cpu.Run(fuel);
    if !o.Stopped? {
      return Err(Settle(o).fault);
    }
    var out := cpu.PopOutput();
    if out.None? {
      return Err(MissingValue);
    }
    return Ok(out.value);
  }

  /* ---------------------------------------------------------------- */
  /* Mapping the area near the emitter                                 */
  /* ---------------------------------------------------------------- */

  const Side: nat := 50

  type Coords = map<(nat, nat), int>

  /** Every recorded answer is what the question gives at that cell. */
  ghost predicate Truthful(check: (nat, nat) -> Result<int>, coords: Coords)
  {
    forall k :: k in coords ==> check(k.0, k.1) == Ok(coords[k])
  }

  /** Every recorded answer is 0 or 1. */
  predicate Binary(coords: Coords)
  {
    forall k :: k in coords ==> coords[k] == 0 || coords[k] == 1
  }

  /** The inner loop of `plot_beam` over columns x .. 49 of row y: record
      each answer, which must be 0 or 1; a 0 before the beam moves
      `last_before` up to it, a 0 after the beam ends the row. The map,
      `last_before` and whether the beam was found. */
  function PlotRow(check: (nat, nat) -> Result<int>, coords: Coords, y: nat, x: nat,
                   lastBefore: nat, found: bool): (r: Result<(Coords, nat, bool)>)
    ensures r.Ok? ==> coords.Keys <= r.value.0.Keys
    ensures r.Ok? && !r.value.2 ==> !found
    decreases Side - x
  {
    if x >= Side then Ok((coords, lastBefore, found))
    else
      match check(x, y)
      case Err(f) => Err(f)
      case Ok(out) =>
        if out != 0 && out != 1 then Err(InvalidOutput)
        else
          var recorded := coords[(x, y) := out];
          if out == 1 then PlotRow(check, recorded, y, x + 1, lastBefore, true)
          else if found then Ok((recorded, lastBefore, found))
          else PlotRow(check, recorded, y, x + 1, x, found)
  }

  /** The outer loop over rows y .. 49: a row starts at `last_before` when
      the row above found the beam, at 0 otherwise. */
  function PlotRows(check: (nat, nat) -> Result<int>, coords: Coords, y: nat,
                    lastBefore: nat, found: bool): (r: Result<Coords>)
    ensures r.Ok? ==> coords.Keys <= r.value.Keys
    decreases Side - y
  {
    if y >= Side then Ok(coords)
    else
      var start := if found then lastBefore else 0;
      match PlotRow(check, coords, y, start, start, false)
      case Err(f) => Err(f)
      case Ok(row) => PlotRows(check, row.0, y + 1, row.1, row.2)
  }

  /** `plot_beam` from an existing map. */
  function Plot(check: (nat, nat) -> Result<int>, coords: Coords): Result<Coords>
  {
    PlotRows(check, coords, 0, 0, false)
  }

  /** A row records only true answers, all of them 0 or 1, inside the area. */
  lemma {:induction false} PlotRowSound(check: (nat, nat) -> Result<int>, coords: Coords, y: nat, x: nat,
                                        lastBefore: nat, found: bool)
    requires Truthful(check, coords) && Binary(coords)
    requires PlotRow(check, coords, y, x, lastBefore, found).Ok?
    ensures var c := PlotRow(check, coords, y, x, lastBefore, found).value.0;
            && Truthful(check, c) && Binary(c)
            && (forall k :: k in c && k !in coords ==> k.0 < Side && k.1 == y)
    decreases Side - x
  {
    if x < Side {
      var out := check(x, y).value;
      var recorded := coords[(x, y) := out];
      assert Truthful(check, recorded) && Binary(recorded);
      if out == 1 {
        PlotRowSound(check, recorded, y, x + 1, lastBefore, true);
      } else if !found {
        PlotRowSound(check, recorded, y, x + 1, x, found);
      }
    }
  }

  /** The whole map records only true answers, all 0 or 1, and every new
      entry lies in the 50 x 50 area. */
  lemma {:induction false} PlotRowsSound(check: (nat, nat) -> Result<int>, coords: Coords, y: nat,
                                         lastBefore: nat, found: bool)
    requires Truthful(check, coords) && Binary(coords)
    requires PlotRows(check, coords, y, lastBefore, found).Ok?
    ensures var c := PlotRows(check, coords, y, lastBefore, found).value;
            && Truthful(check, c) && Binary(c)
            && (forall k :: k in c && k !in coords ==> k.0 < Side && y <= k.1 < Side)
    decreases Side - y
  {
    if y < Side {
      var start := if found then lastBefore else 0;
      var row := PlotRow(check, coords, y, start, start, false).value;
      var next := y + 1;
      PlotRowsStep(check, coords, y, next, lastBefore, found);
      PlotRowSound(check, coords, y, start, start, false);
      PlotRowsSound(check, row.0, next, row.1, row.2);
    }
  }

  /** Once the beam has been seen in a row, the first 0 ends the row. */
  lemma BeamEndsRow(check: (nat, nat) -> Result<int>, coords: Coords, y: nat, x: nat, lastBefore: nat)
    requires x < Side && check(x, y) == Ok(0)
    ensures PlotRow(check, coords, y, x, lastBefore, true) == Ok((coords[(x, y) := 0], lastBefore, true))
  {
  }

  /** One column of `plot_beam`'s inner loop, for an answer that is 0 or 1. */
  lemma PlotRowStep(check: (nat, nat) -> Result<int>, coords: Coords, y: nat, x: nat, next: nat,
                    lastBefore: nat, found: bool, out: int)
    requires next == x + 1 && x < Side && check(x, y) == Ok(out) && (out == 0 || out == 1)
    ensures PlotRow(check, coords, y, x, lastBefore, found)
            == if out == 1 then PlotRow(check, coords[(x, y) := out], y, next, lastBefore, true)
               else if found then Ok((coords[(x, y) := out], lastBefore, found))
               else PlotRow(check, coords[(x, y) := out], y, next, x, found)
  {
  }

  /** One row of `plot_beam` on the machine. */
  method PlotBeamRow(cpu: Cpu, coords: Coords, y: nat, start: nat, program: seq<int>, fuel: nat)
    returns (r: Result<(Coords, nat, bool)>)
    requires cpu.mode == Normal && LoadResetsBase(cpu.variant)
    modifies cpu, cpu.memory
    ensures r == PlotRow(Prober(cpu.variant, cpu.memory.Length, program, fuel), coords, y, start, start, false)
    ensures r.Ok? ==> cpu.mode == Normal
  {
    ghost var check := Prober(cpu.variant, cpu.memory.Length, program, fuel);
    ghost var spec := PlotRow(check, coords, y, start, start, false);
    var recorded: Coords, lastBefore: nat, found := coords, start, false;
    var x: nat := start;
    while x < Side
      invariant cpu.mode == Normal && LoadResetsBase(cpu.variant)
      invariant spec == PlotRow(check, recorded, y, x, lastBefore, found)
      decreases Side - x
    {
      var output := CheckCoord(cpu, x, y, program, fuel);
      if output.Err? {
        return Err(output.fault);
      }
      var out := output.value;
      if out != 0 && out != 1 {
        return Err(InvalidOutput);
      }
      var next := x + 1;
      PlotRowStep(check, recorded, y, x, next, lastBefore, found, out);
      recorded := recorded[(x, y) := out];
      if out == 0 {
        if found {
          return Ok((recorded, lastBefore, found));
        }
        lastBefore := x;
      } else {
        found := true;
      }
      x := next;
    }
    return Ok((recorded, lastBefore, found));
  }

  /** One row of `plot_beam`'s outer loop. */
  lemma PlotRowsStep(check: (nat, nat) -> Result<int>, coords: Coords, y: nat, next: nat,
                     lastBefore: nat, found: bool)
    requires next == y + 1 && y < Side
    ensures var start := if found then lastBefore else 0;
            var first := PlotRow(check, coords, y, start, start, false);
            PlotRows(check, coords, y, lastBefore, found)
            == if first.Err? then Err(first.fault)
               else PlotRows(check, first.value.0, next, first.value.1, first.value.2)
  {
  }

  /** `plot_beam`: map the 50 x 50 area into `coords`. */
  method PlotBeam(cpu: Cpu, coords: Coords, program: seq<int>, fuel: nat) returns (r: Result<Coords>)
    requires cpu.mode == Normal && LoadResetsBase(cpu.variant)
    modifies cpu, cpu.memory
    ensures r == Plot(Prober(cpu.variant, cpu.memory.Length, program, fuel), coords)
  {
    ghost var check := Prober(cpu.variant, cpu.memory.Length, program, fuel);
    ghost var spec := Plot(check, coords);
    var recorded: Coords := coords;
    var lastBefore: nat, found := 0, false;
    var y: nat := 0;
    while y < Side
      invariant cpu.mode == Normal && LoadResetsBase(cpu.variant)
      invariant spec == PlotRows(check, recorded, y, lastBefore, found)
      decreases Side - y
    {
      var next := y + 1;
      PlotRowsStep(check, recorded, y, next, lastBefore, found);
      if !found {
        lastBefore := 0;
      }
      var row := PlotBeamRow(cpu, recorded, y, lastBefore, program, fuel);
      if row.Err? {
        return Err(row.fault);
      }
      recorded, lastBefore, found := row.value.0, row.value.1, row.value.2;
      y := next;
    }
    return Ok(recorded);
  }

  /* ---------------------------------------------------------------- */
  /* Counting                                                          */
  /* ---------------------------------------------------------------- */

  /** The cells of a picture, row after row. */
  function Flatten(canvas: seq<seq<char>>): (cells: seq<char>)
  {
    if canvas == [] then [] else Flatten(canvas[..|canvas| - 1]) + canvas[|canvas| - 1]
  }

  /** `count_affected`: the number of '#' cells of the picture. */
  method CountAffected(canvas: seq<seq<char>>) returns (count: nat)
    ensures count == multiset(Flatten(canvas))['#']
  {
    count := 0;
    for y := 0 to |canvas|
      invariant count == multiset(Flatten(canvas[..y]))['#']
    {
      var row := canvas[y];
      for x := 0 to |row|
        invariant count == multiset(Flatten(canvas[..y]))['#'] + multiset(row[..x])['#']
      {
        assert row[..x + 1] == row[..x] + [row[x]];
        if row[x] == '#' {
          count := count + 1;
        }
      }
      assert row[..|row|] == row;
      assert canvas[..y + 1][..y] == canvas[..y];
    }
    assert canvas[..|canvas|] == canvas;
  }

  /* ---------------------------------------------------------------- */
  /* Fitting the ship                                                  */
  /* ---------------------------------------------------------------- */

  /** `fit_in_beam` from column x of row y (y >= 99), for at most `budget`
      more questions about row y's cells: a 0 moves `last_before` to x and
      tries the next column; a pulled cell whose top-right partner
      (x + 99, y - 99) is pulled too gives the square's top-left corner,
      otherwise the search moves to the next row from `last_before`. */
  function Fit(check: (nat, nat) -> Result<int>, x: nat, y: nat, lastBefore: nat, budget: nat)
    : (r: Result<(nat, nat)>)
    requires y >= 99
    decreases budget
  {
    if budget == 0 then Err(Exhausted)
    else
      match check(x, y)
      case Err(f) => Err(f)
      case Ok(out) =>
        if out == 0 then Fit(check, x + 1, y, x, budget - 1)
        else
          match check(x + 99, y - 99)
          case Err(f) => Err(f)
          case Ok(corner) =>
            if corner == 0 then Fit(check, lastBefore, y + 1, lastBefore, budget - 1)
            else Ok((x, y - 99))
  }

  /** A square found by the search has a pulled bottom-left corner
      (a, b + 99) and a pulled top-right corner (a + 99, b). */
  lemma {:induction false} FitSound(check: (nat, nat) -> Result<int>, x: nat, y: nat, lastBefore: nat,
                                    budget: nat)
    requires y >= 99 && Fit(check, x, y, lastBefore, budget).Ok?
    ensures var r := Fit(check, x, y, lastBefore, budget).value;
            && check(r.0, r.1 + 99).Ok? && check(r.0, r.1 + 99).value != 0
            && check(r.0 + 99, r.1).Ok? && check(r.0 + 99, r.1).value != 0
    decreases budget
  {
    if check(x, y).value == 0 {
      FitSound(check, x + 1, y, x, budget - 1);
    } else if check(x + 99, y - 99).value == 0 {
      FitSound(check, lastBefore, y + 1, lastBefore, budget - 1);
    }
  }

  /** One question of `fit_in_beam`'s inner loop that missed the beam. */
  lemma FitMiss(check: (nat, nat) -> Result<int>, x: nat, y: nat, lastBefore: nat, budget: nat, next: nat)
    requires y >= 99 && budget == next + 1 && check(x, y) == Ok(0)
    ensures Fit(check, x, y, lastBefore, budget) == Fit(check, x + 1, y, x, next)
  {
  }

  /** One question of `fit_in_beam` that hit the beam, followed by the
      question about the top-right corner. */
  lemma FitHit(check: (nat, nat) -> Result<int>, x: nat, y: nat, lastBefore: nat, budget: nat, next: nat,
               out: int, right: nat, top: nat, below: nat, corner: Result<int>)
    requires y >= 99 && budget == next + 1 && below == y + 1 && check(x, y) == Ok(out) && out != 0
    requires right == x + 99 && top == y - 99 && check(right, top) == corner
    ensures corner.Err? ==> Fit(check, x, y, lastBefore, budget) == Err(corner.fault)
    ensures corner == Ok(0) ==> Fit(check, x, y, lastBefore, budget) == Fit(check, lastBefore, below, lastBefore, next)
    ensures corner.Ok? && corner.value != 0 ==> Fit(check, x, y, lastBefore, budget) == Ok((x, y - 99))
  {
  }

  /** Where the search goes after one question of `fit_in_beam`. */
  datatype Search = Continue(x: nat, y: nat, lastBefore: nat) | Stop(result: Result<(nat, nat)>)

  /** The question about the top-right partner (x + 99, y - 99) of a
      pulled cell (x, y) of `fit_in_beam`. */
  method FitCorner(cpu: Cpu, x: nat, y: nat, lastBefore: nat, program: seq<int>, fuel: nat,
                   budget: nat, next: nat, ghost check: (nat, nat) -> Result<int>, ghost out: int)
    returns (s: Search)
    requires y >= 99 && budget == next + 1 && cpu.mode == Normal && LoadResetsBase(cpu.variant)
    requires check == Prober(cpu.variant, cpu.memory.Length, program, fuel)
    requires check(x, y) == Ok(out) && out != 0
    modifies cpu, cpu.memory
    ensures s.Continue? ==> cpu.mode == Normal
    ensures s.Continue? ==> s.y >= 99
                            && Fit(check, x, y, lastBefore, budget) == Fit(check, s.x, s.y, s.lastBefore, next)
    ensures s.Stop? ==> Fit(check, x, y, lastBefore, budget) == s.result
  {
    var right: nat, top: nat, below: nat := x + 99, y - 99, y + 1;
    var corner := CheckCoord(cpu, right, top, program, fuel);
    FitHit(check, x, y, lastBefore, budget, next, out, right, top, below, corner);
    if corner.Err? {
      return Stop(Err(corner.fault));
    }
    if corner.value != 0 {
      return Stop(Ok((x, top)));
    }
    assert corner == Ok(0);
    return Continue(lastBefore, below, lastBefore);
  }

  /** One question of `fit_in_beam` about the cell (x, y), and if the beam
      pulls there, the question about its top-right partner. */
  method FitQuestion(cpu: Cpu, x: nat, y: nat, lastBefore: nat, program: seq<int>, fuel: nat,
                     budget: nat, next: nat, ghost check: (nat, nat) -> Result<int>)
    returns (s: Search)
    requires y >= 99 && budget == next + 1 && cpu.mode == Normal && LoadResetsBase(cpu.variant)
    requires check == Prober(cpu.variant, cpu.memory.Length, program, fuel)
    modifies cpu, cpu.memory
    ensures s.Continue? ==> cpu.mode == Normal
    ensures s.Continue? ==> s.y >= 99
                            && Fit(check, x, y, lastBefore, budget) == Fit(check, s.x, s.y, s.lastBefore, next)
    ensures s.Stop? ==> Fit(check, x, y, lastBefore, budget) == s.result
  {
    var output := CheckCoord(cpu, x, y, program, fuel);
    if output.Err? {
      return Stop(Err(output.fault));
    }
    if output.value == 0 {
      assert output == Ok(0);
      FitMiss(check, x, y, lastBefore, budget, next);
      return Continue(x + 1, y, x);
    }
    s := FitCorner(cpu, x, y, lastBefore, program, fuel, budget, next, check, output.value);
  }

  /** `fit_in_beam`, asking at most `budget` questions about bottom-left
      corners. */
  method FitInBeam(cpu: Cpu, program: seq<int>, fuel: nat, budget: nat) returns (r: Result<(nat, nat)>)
    requires cpu.mode == Normal && LoadResetsBase(cpu.variant)
    modifies cpu, cpu.memory
    ensures r == Fit(Prober(cpu.variant, cpu.memory.Length, program, fuel), 0, 99, 0, budget)
  {
    ghost var check := Prober(cpu.variant, cpu.memory.Length, program, fuel);
    var at := Continue(0, 99, 0);
    ghost var spec := Fit(check, at.x, at.y, at.lastBefore, budget);
    var b: nat := budget;
    while b > 0
      invariant at.Continue? && at.y >= 99 && cpu.mode == Normal && LoadResetsBase(cpu.variant)
      invariant spec == Fit(check, at.x, at.y, at.lastBefore, b)
      decreases b
    {
      var next := b - 1;
      at := FitQuestion(cpu, at.x, at.y, at.lastBefore, program, fuel, b, next, check);
      if at.Stop? {
        return at.result;
      }
      b := next;
    }
    return Err(Exhausted);
  }
}
