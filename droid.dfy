/** Day 15's repair droid: the machine, told a direction to move, answers
    0 (a wall, the droid stays), 1 (moved) or 2 (moved, onto the oxygen
    system). A depth-first search maps every reachable cell, recording
    each answer once, walking back after each explored cell, and keeps the
    fewest steps at which the oxygen system was seen. */
module Droid {
  import opened Common
  import opened Intcode
  import opened IntcodeCpu

  datatype Dir = North | South | East | West

  /** A cell: x grows to the east, y grows to the south. */
  type Pos = (int, int)

  /** The answer recorded for every cell asked about. */
  type Floor = map<Pos, int>

  /** For every cell the search asked about, the number of moves from the
      start at which it was asked: the `steps` argument of that call. */
  type Depths = map<Pos, int>

  /** The move command for a direction: North 1, South 2, West 3, East 4. */
  function Code(d: Dir): (c: int)
    ensures 1 <= c <= 4
    ensures c == 1 <==> d == North
    ensures c == 2 <==> d == South
    ensures c == 3 <==> d == West
    ensures c == 4 <==> d == East
  {
    match d
    case North => 1
    case South => 2
    case West => 3
    case East => 4
  }

  /** The move that walks back over `d`. */
  function Reverse(d: Dir): Dir
  {
    match d
    case North => South
    case South => North
    case East => West
    case West => East
  }

  /** The cell one step from `p` towards `d`. */
  function Neighbour(p: Pos, d: Dir): Pos
  {
    match d
    case North => (p.0, p.1 - 1)
    case South => (p.0, p.1 + 1)
    case East => (p.0 + 1, p.1)
    case West => (p.0 - 1, p.1)
  }

  /** The backtrack command undoes the forward one: it names the opposite
      direction, walks back onto the cell the move left, and the codes of a
      move and its backtrack always differ. */
  lemma BacktrackUndoes(p: Pos, d: Dir)
    ensures Reverse(Reverse(d)) == d
    ensures Neighbour(Neighbour(p, d), Reverse(d)) == p
    ensures Code(Reverse(d)) != Code(d)
    ensures Code(Reverse(d)) == (match d case North => 2 case South => 1 case East => 3 case West => 4)
  {
  }

  /* ---------------------------------------------------------------- */
  /* The search as a value                                             */
  /* ---------------------------------------------------------------- */

  /** What the search carries: the machine, the map built so far, the
      depth of each cell it mapped, and `max_steps`, the fewest steps at
      which status 2 was seen. The depths are a record of the search kept
      for its proofs; the source has no such map. */
  datatype Survey = Survey(m: Machine, floor: Floor, depths: Depths, best: int)

  /** Send one move, run the machine and take the oldest output, which
      must exist. */
  function Reply(run: Machine -> Result<Machine>, m: Machine, code: int): (r: Result<(Machine, int)>)
  {
    var sent := run(m.(ioIn := m.ioIn + [code]));
    if sent.Err? then Err(sent.fault)
    else if sent.value.ioOut == [] then Err(MissingValue)
    else Ok((sent.value.(ioOut := sent.value.ioOut[1..]), sent.value.ioOut[0]))
  }

  /** Send the backtrack move, run the machine and drop the oldest output
      if there is one. */
  function Retreat(run: Machine -> Result<Machine>, m: Machine, code: int): (r: Result<Machine>)
  {
    var sent := run(m.(ioIn := m.ioIn + [code]));
    if sent.Err? then Err(sent.fault)
    else if sent.value.ioOut == [] then Ok(sent.value)
    else Ok(sent.value.(ioOut := sent.value.ioOut[1..]))
  }

  /** `explore_recursive` on the cell `pos`, reached by moving `dir` after
      `steps` moves, exploring at most `depth` more levels: a known cell
      is left alone; otherwise the move is sent and the answer recorded;
      a wall ends the branch, anything else explores the four neighbours
      one step further and then walks back. */
  function Explore(run: Machine -> Result<Machine>, s: Survey, pos: Pos, dir: Dir, steps: int, depth: nat)
    : (r: Result<Survey>)
    decreases depth, 0
  {
    if pos in s.floor then Ok(s)
    else if depth == 0 then Err(Exhausted)
    else
      var reply := Reply(run, s.m, Code(dir));
      if reply.Err? then Err(reply.fault)
      else
        var status := reply.value.1;
        var floor := s.floor[pos := status];
        var depths := s.depths[pos := steps];
        if status == 0 then Ok(Survey(reply.value.0, floor, depths, s.best))
        else
          var best := if status == 2 && steps < s.best then steps else s.best;
          var around := Neighbours(run, Survey(reply.value.0, floor, depths, best), pos, steps + 1, depth - 1);
          if around.Err? then around
          else
            var back := Retreat(run, around.value.m, Code(Reverse(dir)));
            if back.Err? then Err(back.fault) else Ok(around.value.(m := back.value))
  }

  /** The four calls on the neighbours of `pos`, North, South, East, West,
      each `steps` moves from the start. */
  function Neighbours(run: Machine -> Result<Machine>, s: Survey, pos: Pos, steps: int, depth: nat)
    : (r: Result<Survey>)
    decreases depth, 1
  {
    var north := Explore(run, s, Neighbour(pos, North), North, steps, depth);
    if north.Err? then north
    else
      var south := Explore(run, north.value, Neighbour(pos, South), South, steps, depth);
      if south.Err? then south
      else
        var east := Explore(run, south.value, Neighbour(pos, East), East, steps, depth);
        if east.Err? then east
        else Explore(run, east.value, Neighbour(pos, West), West, steps, depth)
  }

  /** `get_steps`: mark the origin 3, start `max_steps` at the largest
      `i64` and explore the origin's four neighbours one move away. */
  function Steps(run: Machine -> Result<Machine>, m: Machine, floor: Floor, depth: nat): (r: Result<Survey>)
  {
    Neighbours(run, Survey(m, floor[(0, 0) := 3], map[], I64Max), (0, 0), 1, depth)
  }

  /* ---------------------------------------------------------------- */
  /* What the search keeps                                             */
  /* ---------------------------------------------------------------- */

  /** A cell `r` mapped that `s` had not: the cells the search between
      them asked about. */
  predicate NewCell(s: Survey, r: Survey, q: Pos)
  {
    q in r.floor && q !in s.floor
  }

  /** From `s` to `r` the map only grows, no recorded answer or depth
      changes, every new cell lies at least `steps` moves out, and
      `max_steps` is the smaller of its old value and the depths of the new
      cells that answered 2: it is at most each such depth, and when it
      falls it falls to one of them. */
  ghost predicate Sound(s: Survey, r: Survey, steps: int)
  {
    && s.floor.Keys <= r.floor.Keys
    && (forall k :: k in s.floor ==> r.floor[k] == s.floor[k])
    && (forall k :: k in s.floor && k in s.depths ==> k in r.depths && r.depths[k] == s.depths[k])
    && (forall q :: NewCell(s, r, q) ==> q in r.depths && steps <= r.depths[q])
    && (forall q :: NewCell(s, r, q) && r.floor[q] == 2 ==> r.best <= r.depths[q])
    && r.best <= s.best
    && (r.best < s.best ==> exists q :: NewCell(s, r, q) && r.floor[q] == 2 && q in r.depths && r.depths[q] == r.best)
  }

  /** Two sound stretches of the search make one. */
  lemma SoundChain(a: Survey, b: Survey, c: Survey, steps: int)
    requires Sound(a, b, steps) && Sound(b, c, steps)
    ensures Sound(a, c, steps)
  {
    forall q | NewCell(a, c, q)
      ensures q in c.depths && steps <= c.depths[q]
      ensures c.floor[q] == 2 ==> c.best <= c.depths[q]
    {
      if q in b.floor {
        assert NewCell(a, b, q);
      } else {
        assert NewCell(b, c, q);
      }
    }
    if c.best < a.best {
      if c.best < b.best {
        var q :| NewCell(b, c, q) && c.floor[q] == 2 && q in c.depths && c.depths[q] == c.best;
        assert NewCell(a, c, q);
      } else {
        var q :| NewCell(a, b, q) && b.floor[q] == 2 && q in b.depths && b.depths[q] == b.best;
        assert NewCell(a, c, q);
      }
    }
  }

  /** Proof helper: a search that went deeper is sound from any shallower
      count. */
  lemma SoundShallower(s: Survey, r: Survey, steps: int, deeper: int)
    requires Sound(s, r, deeper) && steps <= deeper
    ensures Sound(s, r, steps)
  {
  }

  /** A known cell is never asked about again: the search returns at once,
      sending no move. */
  lemma KnownCellUntouched(run: Machine -> Result<Machine>, s: Survey, pos: Pos, dir: Dir, steps: int, depth: nat)
    requires pos in s.floor
    ensures Explore(run, s, pos, dir, steps, depth) == Ok(s)
  {
  }

  /** A wall is recorded and ends the branch: no neighbour is explored and
      no backtrack move is sent. */
  lemma WallEndsBranch(run: Machine -> Result<Machine>, s: Survey, pos: Pos, dir: Dir, steps: int, depth: nat,
                       m: Machine)
    requires pos !in s.floor && depth > 0 && Reply(run, s.m, Code(dir)) == Ok((m, 0))
    ensures Explore(run, s, pos, dir, steps, depth) == Ok(Survey(m, s.floor[pos := 0], s.depths[pos := steps], s.best))
  {
  }

  /** Whatever the machine answers, a finished search keeps every recorded
      answer, records the cell it was sent to at depth `steps`, and leaves
      `max_steps` at the smaller of its old value and the depths of the
      cells it found answering 2. */
  lemma {:induction false} ExploreSound(run: Machine -> Result<Machine>, s: Survey, pos: Pos, dir: Dir,
                                        steps: int, depth: nat)
    requires Explore(run, s, pos, dir, steps, depth).Ok?
    ensures Sound(s, Explore(run, s, pos, dir, steps, depth).value, steps)
    ensures pos in Explore(run, s, pos, dir, steps, depth).value.floor
    ensures pos !in s.floor ==> pos in Explore(run, s, pos, dir, steps, depth).value.depths
                                && Explore(run, s, pos, dir, steps, depth).value.depths[pos] == steps
    decreases depth, 0
  {
    if pos !in s.floor {
      var reply := Reply(run, s.m, Code(dir));
      var status := reply.value.1;
      var best := if status == 2 && steps < s.best then steps else s.best;
      var visited := Survey(reply.value.0, s.floor[pos := status], s.depths[pos := steps], best);
      VisitSound(s, visited, pos, status, steps);
      if status != 0 {
        var deeper, rest := steps + 1, depth - 1;
        ExploreVisits(run, s, pos, dir, steps, depth, deeper, rest, visited);
        NeighboursSound(run, visited, pos, deeper, rest);
        var around := Neighbours(run, visited, pos, deeper, rest).value;
        SoundShallower(visited, around, steps, deeper);
        SoundChain(s, visited, around, steps);
        var back := Retreat(run, around.m, Code(Reverse(dir))).value;
        SoundIgnoresMachine(s, around, back, steps);
      }
    }
  }

  /** Recording the answer `status` for a new cell at depth `steps`, and
      lowering `max_steps` to `steps` when it is 2, is a sound step. */
  lemma VisitSound(s: Survey, visited: Survey, pos: Pos, status: int, steps: int)
    requires pos !in s.floor
    requires visited.floor == s.floor[pos := status] && visited.depths == s.depths[pos := steps]
    requires visited.best == if status == 2 && steps < s.best then steps else s.best
    ensures Sound(s, visited, steps)
    ensures pos in visited.depths && visited.depths[pos] == steps
  {
    assert forall q :: NewCell(s, visited, q) ==> q == pos;
    if visited.best < s.best {
      assert NewCell(s, visited, pos);
    }
  }

  /** Proof helper: soundness says nothing about the machine. */
  lemma SoundIgnoresMachine(s: Survey, r: Survey, m: Machine, steps: int)
    requires Sound(s, r, steps)
    ensures Sound(s, r.(m := m), steps)
  {
    assert forall q :: NewCell(s, r, q) <==> NewCell(s, r.(m := m), q);
  }

  /** The same for the four neighbours. */
  lemma {:induction false} NeighboursSound(run: Machine -> Result<Machine>, s: Survey, pos: Pos,
                                           steps: int, depth: nat)
    requires Neighbours(run, s, pos, steps, depth).Ok?
    ensures Sound(s, Neighbours(run, s, pos, steps, depth).value, steps)
    decreases depth, 1
  {
    var north := Explore(run, s, Neighbour(pos, North), North, steps, depth);
    ExploreSound(run, s, Neighbour(pos, North), North, steps, depth);
    var south := Explore(run, north.value, Neighbour(pos, South), South, steps, depth);
    ExploreSound(run, north.value, Neighbour(pos, South), South, steps, depth);
    SoundChain(s, north.value, south.value, steps);
    var east := Explore(run, south.value, Neighbour(pos, East), East, steps, depth);
    ExploreSound(run, south.value, Neighbour(pos, East), East, steps, depth);
    SoundChain(s, south.value, east.value, steps);
    var west := Explore(run, east.value, Neighbour(pos, West), West, steps, depth);
    ExploreSound(run, east.value, Neighbour(pos, West), West, steps, depth);
    SoundChain(s, east.value, west.value, steps);
  }

  /** A cell `get_steps` mapped that was not on the map it was given,
      the origin aside. */
  predicate Discovered(floor: Floor, r: Survey, q: Pos)
  {
    q in r.floor && q !in floor && q != (0, 0)
  }

  /** `get_steps` keeps the origin marked 3 and every answer it was given,
      maps the four cells around the origin and every cell it discovers at
      a depth of at least 1, and answers the fewest moves at which a cell
      answered 2: at most each such depth and, unless it is still
      `i64::MAX`, equal to one of them. */
  lemma StepsSound(run: Machine -> Result<Machine>, m: Machine, floor: Floor, depth: nat)
    requires Steps(run, m, floor, depth).Ok?
    ensures var r := Steps(run, m, floor, depth).value;
            && (0, 0) in r.floor && r.floor[(0, 0)] == 3
            && floor.Keys <= r.floor.Keys
            && (forall k :: k in floor && k != (0, 0) ==> r.floor[k] == floor[k])
            && (forall d: Dir :: Neighbour((0, 0), d) in r.floor)
            && (forall q :: Discovered(floor, r, q) ==> q in r.depths && 1 <= r.depths[q])
            && (forall q :: Discovered(floor, r, q) && r.floor[q] == 2 ==> r.best <= r.depths[q])
            && r.best <= I64Max
            && (r.best < I64Max ==>
                  exists q :: Discovered(floor, r, q) && r.floor[q] == 2 && q in r.depths && r.depths[q] == r.best)
  {
    var start := Survey(m, floor[(0, 0) := 3], map[], I64Max);
    NeighboursSound(run, start, (0, 0), 1, depth);
    NeighboursReach(run, start, (0, 0), 1, depth);
    var r := Steps(run, m, floor, depth).value;
    assert forall q :: Discovered(floor, r, q) ==> NewCell(start, r, q);
    if r.best < I64Max {
      var q :| NewCell(start, r, q) && r.floor[q] == 2 && q in r.depths && r.depths[q] == r.best;
      assert Discovered(floor, r, q);
    }
  }

  /** After the four calls, every neighbour of `pos` is on the map. */
  lemma NeighboursReach(run: Machine -> Result<Machine>, s: Survey, pos: Pos, steps: int, depth: nat)
    requires Neighbours(run, s, pos, steps, depth).Ok?
    ensures forall d: Dir :: Neighbour(pos, d) in Neighbours(run, s, pos, steps, depth).value.floor
  {
    var north := Explore(run, s, Neighbour(pos, North), North, steps, depth);
    ExploreGrows(run, s, Neighbour(pos, North), North, steps, depth);
    var south := Explore(run, north.value, Neighbour(pos, South), South, steps, depth);
    ExploreGrows(run, north.value, Neighbour(pos, South), South, steps, depth);
    var east := Explore(run, south.value, Neighbour(pos, East), East, steps, depth);
    ExploreGrows(run, south.value, Neighbour(pos, East), East, steps, depth);
    var west := Explore(run, east.value, Neighbour(pos, West), West, steps, depth);
    ExploreGrows(run, east.value, Neighbour(pos, West), West, steps, depth);
  }

  /** Proof helper: the map part of `ExploreSound`, that the map only
      grows and gains `pos`. */
  lemma ExploreGrows(run: Machine -> Result<Machine>, s: Survey, pos: Pos, dir: Dir, steps: int, depth: nat)
    requires Explore(run, s, pos, dir, steps, depth).Ok?
    ensures s.floor.Keys + {pos} <= Explore(run, s, pos, dir, steps, depth).value.floor.Keys
  {
    ExploreSound(run, s, pos, dir, steps, depth);
  }

  /* ---------------------------------------------------------------- */
  /* The search on the machine                                         */
  /* ---------------------------------------------------------------- */

  /** Whether a method's answer is the search's: the same fault, or the
      same map and `max_steps`. */
  predicate Agrees(r: Result<(Floor, int)>, spec: Result<Survey>)
  {
    if spec.Err? then r == Err(spec.fault) else r == Ok((spec.value.floor, spec.value.best))
  }

  /** Send a move and read the droid's status (`expect` on the output). */
  method Move(cpu: Cpu, code: int, fuel: nat) returns (r: Result<int>)
    modifies cpu, cpu.memory
    ensures var spec := Reply(Runner(cpu.variant, fuel), old(cpu.Abstract()), code);
            && (spec.Err? ==> r == Err(spec.fault))
            && (spec.Ok? ==> r == Ok(spec.value.1) && cpu.Abstract() == spec.value.0)
  {
    cpu.PushInput(code);
    var o := cpu.Run(fuel);
    if !o.Stopped? {
      return Err(Settle(o).fault);
    }
    var out := cpu.PopOutput();
    if out.None? {
      return Err(MissingValue);
    }
    return Ok(out.value);
  }

  /** Send the backtrack move and discard the status, if any. */
  method MoveBack(cpu: Cpu, code: int, fuel: nat) returns (fault: Option<Fault>)
    modifies cpu, cpu.memory
    ensures var spec := Retreat(Runner(cpu.variant, fuel), old(cpu.Abstract()), code);
            && (spec.Err? <==> fault.Some?)
            && (spec.Err? ==> fault.value == spec.fault)
            && (spec.Ok? ==> cpu.Abstract() == spec.value)
  {
    cpu.PushInput(code);
    var o := cpu.Run(fuel);
    if !o.Stopped? {
      return Some(Settle(o).fault);
    }
    var _ := cpu.PopOutput();
    return None;
  }

  /** `explore_recursive`: `floor` and `best` are the map and `max_steps`
      the source updates through its `&mut` parameters; `depths` follows
      the ghost record of the search alongside them. */
  method ExploreRecursive(cpu: Cpu, floor: Floor, ghost depths: Depths, pos: Pos, dir: Dir, steps: int,
                          best: int, depth: nat, fuel: nat)
    returns (r: Result<(Floor, int)>, ghost depths': Depths)
    modifies cpu, cpu.memory
    ensures var spec := Explore(Runner(cpu.variant, fuel), Survey(old(cpu.Abstract()), floor, depths, best),
                                pos, dir, steps, depth);
            Agrees(r, spec) && (spec.Ok? ==> cpu.Abstract() == spec.value.m && depths' == spec.value.depths)
    decreases depth, 0
  {
    if pos in floor {
      return Ok((floor, best)), depths;
    }
    if depth == 0 {
      return Err(Exhausted), depths;
    }
    ghost var run := Runner(cpu.variant, fuel);
    ghost var s := Survey(cpu.Abstract(), floor, depths, best);
    var status := Move(cpu, Code(dir), fuel);
    if status.Err? {
      return Err(status.fault), depths;
    }
    var recorded := floor[pos := status.value];
    ghost var marked := depths[pos := steps];
    if status.value == 0 {
      return Ok((recorded, best)), marked;
    }
    var lowest := best;
    if status.value == 2 && steps < best {
      lowest := steps;
    }
    var deeper, rest := steps + 1, depth - 1;
    ghost var visited := Survey(cpu.Abstract(), recorded, marked, lowest);
    ExploreVisits(run, s, pos, dir, steps, depth, deeper, rest, visited);
    r, depths' := ExploreNeighbours(cpu, recorded, marked, pos, deeper, lowest, rest, fuel);
    if r.Err? {
      return;
    }
    var fault := MoveBack(cpu, Code(Reverse(dir)), fuel);
    if fault.Some? {
      return Err(fault.value), depths';
    }
  }

  /** One level of `Explore` past a cell that did not answer 0. */
  lemma ExploreVisits(run: Machine -> Result<Machine>, s: Survey, pos: Pos, dir: Dir, steps: int, depth: nat,
                      deeper: int, rest: nat, visited: Survey)
    requires pos !in s.floor && depth == rest + 1 && deeper == steps + 1
    requires Reply(run, s.m, Code(dir)).Ok?
    requires var reply := Reply(run, s.m, Code(dir)).value;
             && reply.1 != 0 && visited.m == reply.0 && visited.floor == s.floor[pos := reply.1]
             && visited.depths == s.depths[pos := steps]
             && visited.best == (if reply.1 == 2 && steps < s.best then steps else s.best)
    ensures var around := Neighbours(run, visited, pos, deeper, rest);
            Explore(run, s, pos, dir, steps, depth)
            == if around.Err? then around
               else if Retreat(run, around.value.m, Code(Reverse(dir))).Err?
               then Err(Retreat(run, around.value.m, Code(Reverse(dir))).fault)
               else Ok(around.value.(m := Retreat(run, around.value.m, Code(Reverse(dir))).value))
  {
  }

  /** The four recursive calls of `explore_recursive` (and of `get_steps`). */
  method ExploreNeighbours(cpu: Cpu, floor: Floor, ghost depths: Depths, pos: Pos, steps: int, best: int,
                           depth: nat, fuel: nat)
    returns (r: Result<(Floor, int)>, ghost depths': Depths)
    modifies cpu, cpu.memory
    ensures var spec := Neighbours(Runner(cpu.variant, fuel), Survey(old(cpu.Abstract()), floor, depths, best),
                                   pos, steps, depth);
            Agrees(r, spec) && (spec.Ok? ==> cpu.Abstract() == spec.value.m && depths' == spec.value.depths)
    decreases depth, 1
  {
    var north, dn := ExploreRecursive(cpu, floor, depths, Neighbour(pos, North), North, steps, best, depth, fuel);
    if north.Err? {
      return north, dn;
    }
    var south, ds := ExploreRecursive(cpu, north.value.0, dn, Neighbour(pos, South), South, steps,
                                      north.value.1, depth, fuel);
    if south.Err? {
      return south, ds;
    }
    var east, de := ExploreRecursive(cpu, south.value.0, ds, Neighbour(pos, East), East, steps,
                                     south.value.1, depth, fuel);
    if east.Err? {
      return east, de;
    }
    r, depths' := ExploreRecursive(cpu, east.value.0, de, Neighbour(pos, West), West, steps, east.value.1,
                                   depth, fuel);
  }

  /** `get_steps`: the fewest moves to the oxygen system found by the
      search, with the map it built. */
  method GetSteps(cpu: Cpu, floor: Floor, depth: nat, fuel: nat) returns (r: Result<(Floor, int)>)
    modifies cpu, cpu.memory
    ensures var spec := Steps(Runner(cpu.variant, fuel), old(cpu.Abstract()), floor, depth);
            Agrees(r, spec) && (spec.Ok? ==> cpu.Abstract() == spec.value.m)
  {
    var marked := floor[(0, 0) := 3];
    ghost var depths;
    r, depths := ExploreNeighbours(cpu, marked, map[], (0, 0), 1, I64Max, depth, fuel);
  }

  /* ---------------------------------------------------------------- */
  /* Finding the oxygen system on the drawn map                        */
  /* ---------------------------------------------------------------- */

  /** Whether (x, y) comes before (x', y') in row-major order. */
  predicate Before(x: int, y: int, x': int, y': int)
  {
    y < y' || (y == y' && x < x')
  }

  /** `get_oxygen_pos`: the first 'O' of the picture in row-major order. */
  method GetOxygenPos(canvas: seq<seq<char>>) returns (r: Option<(nat, nat)>)
    ensures r.Some? ==> var (x, y) := r.value;
                        y < |canvas| && x < |canvas[y]| && canvas[y][x] == 'O'
                        && forall j, i :: 0 <= j < |canvas| && 0 <= i < |canvas[j]| && Before(i, j, x, y)
                                          ==> canvas[j][i] != 'O'
    ensures r.None? <==> forall j, i :: 0 <= j < |canvas| && 0 <= i < |canvas[j]| ==> canvas[j][i] != 'O'
  {
    for y := 0 to |canvas|
      invariant forall j, i :: 0 <= j < y && 0 <= i < |canvas[j]| ==> canvas[j][i] != 'O'
    {
      for x := 0 to |canvas[y]|
        invariant forall j, i :: 0 <= j < |canvas| && 0 <= i < |canvas[j]| && Before(i, j, x, y)
                                 ==> canvas[j][i] != 'O'
      {
        if canvas[y][x] == 'O' {
          return Some((x, y));
        }
      }
    }
    return None;
  }
}
