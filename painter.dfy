/** Day 11's hull-painting robot: a machine that, told the colour under
    the robot, answers with a colour to paint and a direction to turn; the
    robot paints, turns, steps one panel forward and reports the colour
    there, until the machine halts. */
module Painter {
  import opened Common
  import opened Intcode
  import opened IntcodeCpu

  datatype Dir = North | East | South | West

  datatype Colour = Black | White

  /** A panel: x grows to the east, y grows to the south. */
  type Pos = (int, int)

  /** The panels painted so far and their colour. */
  type Floor = map<Pos, Colour>

  /** `turn_robot`: 0 turns left (North, West, South, East), 1 turns right;
      any other value panics. */
  function Turned(d: Dir, turn: int): (r: Option<Dir>)
    ensures r.Some? <==> turn == 0 || turn == 1
    ensures r.Some? ==> r.value != d
  {
    if turn == 0 then
      Some(match d
           case North => West
           case West => South
           case South => East
           case East => North)
    else if turn == 1 then
      Some(match d
           case North => East
           case East => South
           case South => West
           case West => North)
    else None
  }

  /** Four turns the same way bring the robot back to where it faced. */
  lemma FourTurns(d: Dir, turn: int)
    requires turn == 0 || turn == 1
    ensures Turned(Turned(Turned(Turned(d, turn).value, turn).value, turn).value, turn).value == d
  {
  }

  /** A left turn and a right turn undo each other, in either order. */
  lemma TurnsUndo(d: Dir)
    ensures Turned(Turned(d, 0).value, 1).value == d
    ensures Turned(Turned(d, 1).value, 0).value == d
  {
  }

  /** `move_robot`: one panel in the direction faced. */
  function Moved(p: Pos, d: Dir): (q: Pos)
  {
    match d
    case North => (p.0, p.1 - 1)
    case South => (p.0, p.1 + 1)
    case East => (p.0 + 1, p.1)
    case West => (p.0 - 1, p.1)
  }

  function Abs(x: int): nat
  {
    if x < 0 then -x else x
  }

  /** A move changes exactly one coordinate, by exactly one, and turning
      round and moving again comes back to the same panel. */
  lemma MoveIsUnitStep(p: Pos, d: Dir)
    ensures Abs(Moved(p, d).0 - p.0) + Abs(Moved(p, d).1 - p.1) == 1
    ensures (d == North || d == South) <==> Moved(p, d).0 == p.0
    ensures d == North ==> Moved(p, d).1 < p.1
    ensures d == East ==> Moved(p, d).0 > p.0
    ensures Moved(Moved(p, d), Turned(Turned(d, 1).value, 1).value) == p
  {
  }

  /** `paint_tile`: 0 paints the panel black and 1 white, anything else
      panics; no other panel changes. */
  function PaintTile(floor: Floor, pos: Pos, col: int): (r: Result<Floor>)
    ensures r.Ok? <==> col == 0 || col == 1
    ensures r.Ok? ==> r.value.Keys == floor.Keys + {pos}
    ensures r.Ok? ==> r.value[pos] == (if col == 0 then Black else White)
    ensures r.Ok? ==> forall q :: q in floor && q != pos ==> r.value[q] == floor[q]
    ensures r.Err? ==> r.fault == InvalidOutput
  {
    if col == 0 then Ok(floor[pos := Black])
    else if col == 1 then Ok(floor[pos := White])
    else Err(InvalidOutput)
  }

  /** The input the robot reports for a panel: 1 if it is painted white,
      otherwise (black or never painted) 0. */
  function ColourCode(floor: Floor, pos: Pos): (x: int)
    ensures x == 0 || x == 1
    ensures x == 1 <==> pos in floor && floor[pos] == White
  {
    if pos in floor && floor[pos] == White then 1 else 0
  }

  /** The state `get_painted` works on: the machine, the robot's heading
      and panel, and the floor. */
  datatype Painting = Painting(m: Machine, dir: Dir, pos: Pos, floor: Floor)

  /** One turn of the loop of `get_painted` once the machine is known not
      to have halted: run it, take its oldest output as the colour and the
      next as the turn, paint, turn, move and report the new panel. */
  function Round(run: Machine -> Result<Machine>, p: Painting): (r: Result<Painting>)
  {
    match run(p.m)
    case Err(f) => Err(f)
    case Ok(m1) =>
      if m1.ioOut == [] then Err(MissingValue)
      else
        match PaintTile(p.floor, p.pos, m1.ioOut[0])
        case Err(f) => Err(f)
        case Ok(floor) =>
          var m2 := m1.(ioOut := m1.ioOut[1..]);
          if m2.ioOut == [] then Err(MissingValue)
          else
            match Turned(p.dir, m2.ioOut[0])
            case None => Err(InvalidOutput)
            case Some(d) =>
              var pos := Moved(p.pos, d);
              Ok(Painting(m2.(ioOut := m2.ioOut[1..], ioIn := m2.ioIn + [ColourCode(floor, pos)]), d, pos, floor))
  }

  /** The loop of `get_painted` for at most `rounds` turns: stop with the
      floor once the machine has halted. */
  function Painted(run: Machine -> Result<Machine>, p: Painting, rounds: nat): (r: Result<Painting>)
    ensures r.Ok? ==> r.value.m.state == Halted
    decreases rounds
  {
    if p.m.state == Halted then Ok(p)
    else if rounds == 0 then Err(Exhausted)
    else
      match Round(run, p)
      case Err(f) => Err(f)
      case Ok(p') => Painted(run, p', rounds - 1)
  }

  /** A round that succeeds leaves the rest of the loop to the painting
      after it. */
  lemma PaintedStep(run: Machine -> Result<Machine>, p: Painting, rounds: nat, next: nat)
    requires rounds == next + 1 && p.m.state != Halted && Round(run, p).Ok?
    ensures Painted(run, p, rounds) == Painted(run, Round(run, p).value, next)
  {
  }

  /** `get_painted` starts by reporting white and painting the origin
      white, whatever panel the robot stands on. */
  function Start(m: Machine, dir: Dir, pos: Pos): Painting
  {
    Painting(m.(ioIn := m.ioIn + [1]), dir, pos, map[(0, 0) := White])
  }

  /** A round succeeds exactly when the run stops and leaves two outputs,
      a colour and a turn the robot understands. It then consumes exactly
      those two, paints exactly the panel the robot stood on, moves the
      robot one panel, and reports the colour of the panel it reached
      behind whatever input was still queued. */
  lemma RoundEffect(run: Machine -> Result<Machine>, p: Painting)
    ensures Round(run, p).Ok? <==>
              && run(p.m).Ok? && |run(p.m).value.ioOut| >= 2
              && run(p.m).value.ioOut[0] in {0, 1} && run(p.m).value.ioOut[1] in {0, 1}
    ensures Round(run, p).Ok? ==>
              var m1, p' := run(p.m).value, Round(run, p).value;
              && p'.floor.Keys == p.floor.Keys + {p.pos}
              && p'.floor[p.pos] == (if m1.ioOut[0] == 0 then Black else White)
              && p'.dir == Turned(p.dir, m1.ioOut[1]).value
              && Abs(p'.pos.0 - p.pos.0) + Abs(p'.pos.1 - p.pos.1) == 1
              && p'.m.ioOut == m1.ioOut[2..]
              && p'.m.ioIn == m1.ioIn + [ColourCode(p'.floor, p'.pos)]
              && p'.m.memory == m1.memory && p'.m.state == m1.state
  {
    if Round(run, p).Ok? {
      MoveIsUnitStep(p.pos, Round(run, p).value.dir);
    }
  }

  /** Panels once painted stay painted: the floor a run ends with holds
      every panel of the floor it started with. */
  lemma {:induction false} PaintedKeepsPanels(run: Machine -> Result<Machine>, p: Painting, rounds: nat)
    requires Painted(run, p, rounds).Ok?
    ensures p.floor.Keys <= Painted(run, p, rounds).value.floor.Keys
    decreases rounds
  {
    if p.m.state != Halted {
      RoundEffect(run, p);
      PaintedKeepsPanels(run, Round(run, p).value, rounds - 1);
    }
  }

  /** So the floor `get_painted` returns always counts the origin. */
  lemma PaintedHoldsOrigin(run: Machine -> Result<Machine>, m: Machine, dir: Dir, pos: Pos, rounds: nat)
    requires Painted(run, Start(m, dir, pos), rounds).Ok?
    ensures (0, 0) in Painted(run, Start(m, dir, pos), rounds).value.floor
  {
    PaintedKeepsPanels(run, Start(m, dir, pos), rounds);
  }

  /** The robot: its machine, its heading and its panel. */
  class Robot {
    const cpu: Cpu
    var dir: Dir
    var pos: Pos

    /** The robot `main` builds: facing north at the origin. */
    constructor (cpu: Cpu)
      ensures this.cpu == cpu && dir == North && pos == (0, 0)
    {
      this.cpu := cpu;
      dir := North;
      pos := (0, 0);
    }

    /** `turn_robot`. */
    method TurnRobot(turn: int) returns (fault: Option<Fault>)
      modifies this
      ensures fault.None? <==> Turned(old(dir), turn).Some?
      ensures fault.None? ==> dir == Turned(old(dir), turn).value
      ensures fault.Some? ==> fault.value == InvalidOutput
      ensures pos == old(pos)
    {
      var d := Turned(dir, turn);
      if d.None? {
        return Some(InvalidOutput);
      }
      dir := d.value;
      fault := None;
    }

    /** `move_robot`. */
    method MoveRobot()
      modifies this
      ensures pos == Moved(old(pos), dir) && dir == old(dir)
    {
      match dir {
        case North => pos := (pos.0, pos.1 - 1);
        case South => pos := (pos.0, pos.1 + 1);
        case East => pos := (pos.0 + 1, pos.1);
        case West => pos := (pos.0 - 1, pos.1);
      }
    }

    /** One turn of the loop of `get_painted` on the robot in place. */
    method PaintRound(floor: Floor, fuel: nat) returns (r: Result<Floor>)
      modifies this, cpu, cpu.memory
      ensures var spec := Round(Runner(cpu.variant, fuel), Painting(old(cpu.Abstract()), old(dir), old(pos), floor));
              && (r.Ok? <==> spec.Ok?)
              && (r.Ok? ==> spec.value == Painting(cpu.Abstract(), dir, pos, r.value))
              && (r.Err? ==> r.fault == spec.fault)
    {
      ghost var m := cpu.Abstract();
      var o := cpu.Run(fuel);
      if !o.Stopped? {
        return Err(Settle(o).fault);
      }
      var colour := cpu.PopOutput();
      if colour.None? {
        return Err(MissingValue);
      }
      var painted := PaintTile(floor, pos, colour.value);
      if painted.Err? {
        return Err(painted.fault);
      }
      var turn := cpu.PopOutput();
      if turn.None? {
        return Err(MissingValue);
      }
      var fault := TurnRobot(turn.value);
      if fault.Some? {
        return Err(fault.value);
      }
      MoveRobot();
      cpu.PushInput(ColourCode(painted.value, pos));
      return Ok(painted.value);
    }

    /** `get_painted`, for at most `rounds` turns of its loop, each running
        the machine for at most `fuel` instructions. */
    method GetPainted(rounds: nat, fuel: nat) returns (r: Result<Floor>)
      modifies this, cpu, cpu.memory
      ensures var spec := Painted(Runner(cpu.variant, fuel), Start(old(cpu.Abstract()), old(dir), old(pos)), rounds);
              && (r.Ok? <==> spec.Ok?)
              && (r.Ok? ==> spec.value == Painting(cpu.Abstract(), dir, pos, r.value))
              && (r.Err? ==> r.fault == spec.fault)
    {
      cpu.PushInput(1);
      var floor := map[(0, 0) := White];
      var k := rounds;
      while true
        invariant Painted(Runner(cpu.variant, fuel), Start(old(cpu.Abstract()), old(dir), old(pos)), rounds)
                  == Painted(Runner(cpu.variant, fuel), Painting(cpu.Abstract(), dir, pos, floor), k)
        decreases k
      {
        if cpu.state == Halted {
          return Ok(floor);
        }
        if k == 0 {
          return Err(Exhausted);
        }
        ghost var p := Painting(cpu.Abstract(), dir, pos, floor);
        var painted := PaintRound(floor, fuel);
        if painted.Err? {
          return Err(painted.fault);
        }
        floor := painted.value;
        var next := k - 1;
        PaintedStep(Runner(cpu.variant, fuel), p, k, next);
        k := next;
      }
    }
  }
}
