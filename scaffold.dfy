/** Day 17's scaffold: the machine draws a picture of the scaffolding as
    character codes, the picture is cut into rows, the intersections of
    the scaffold give the alignment sum, and the vacuum robot is woken and
    fed its movement routines. */
module Scaffold {
  import opened Common
  import opened Intcode
  import opened IntcodeCpu
  import ProgramText

  /** A picture: rows of characters, not necessarily of equal length. */
  type View = seq<seq<char>>

  /* ---------------------------------------------------------------- */
  /* Alignment parameters                                              */
  /* ---------------------------------------------------------------- */

  /** Cell (x, y) is a scaffold crossing: an interior cell that, with its
      four neighbours, is all scaffold. */
  predicate Crossing(view: View, y: int, x: int)
  {
    && 1 <= y < |view| - 1 && 1 <= x < |view[y]| - 1
    && x < |view[y - 1]| && x < |view[y + 1]|
    && view[y][x] == '#' && view[y + 1][x] == '#' && view[y - 1][x] == '#'
    && view[y][x + 1] == '#' && view[y][x - 1] == '#'
  }

  /** The test of one interior cell, in the order the conditions are
      written: a neighbour row too short to hold column x is an index
      panic, reached only when the conditions before it held. */
  function Check(view: View, y: nat, x: nat): (r: Result<bool>)
    requires 1 <= y < |view| - 1 && 1 <= x < |view[y]| - 1
    ensures r.Ok? ==> (r.value <==> Crossing(view, y, x))
    ensures r.Err? ==> r.fault == OutOfRange && view[y][x] == '#'
    ensures x < |view[y - 1]| && x < |view[y + 1]| ==> r.Ok?
  {
    if view[y][x] != '#' then Ok(false)
    else if x >= |view[y + 1]| then Err(OutOfRange)
    else if view[y + 1][x] != '#' then Ok(false)
    else if x >= |view[y - 1]| then Err(OutOfRange)
    else if view[y - 1][x] != '#' then Ok(false)
    else Ok(view[y][x + 1] == '#' && view[y][x - 1] == '#')
  }

  /** The inner loop of `get_alignment_params` over columns 1 .. n-1 of
      row y. */
  function ScanRow(view: View, y: nat, n: nat): Result<nat>
    requires 1 <= y < |view| - 1 && n <= |view[y]| - 1
  {
    if n <= 1 then Ok(0)
    else
      match ScanRow(view, y, n - 1)
      case Err(f) => Err(f)
      case Ok(s) =>
        match Check(view, y, n - 1)
        case Err(f) => Err(f)
        case Ok(b) => Ok(s + if b then (n - 1) * y else 0)
  }

  /** The outer loop over rows 1 .. n-1. An empty row makes `len() - 1`
      underflow, which panics. */
  function ScanRows(view: View, n: nat): Result<nat>
    requires n <= |view| - 1
  {
    if n <= 1 then Ok(0)
    else
      match ScanRows(view, n - 1)
      case Err(f) => Err(f)
      case Ok(s) =>
        if |view[n - 1]| == 0 then Err(OutOfRange)
        else
          match ScanRow(view, n - 1, |view[n - 1]| - 1)
          case Err(f) => Err(f)
          case Ok(t) => Ok(s + t)
  }

  /** `get_alignment_params`; an empty picture makes `len() - 1` underflow. */
  function Alignment(view: View): Result<nat>
  {
    if |view| == 0 then Err(OutOfRange) else ScanRows(view, |view| - 1)
  }

  /** What cell (x, y) adds to the alignment sum. */
  function Score(view: View, y: nat, x: nat): nat
  {
    if Crossing(view, y, x) then x * y else 0
  }

  /** The scores of columns 0 .. n-1 of row y. */
  function RowTotal(view: View, y: nat, n: nat): nat
  {
    if n == 0 then 0 else RowTotal(view, y, n - 1) + Score(view, y, n - 1)
  }

  /** The scores of every cell of rows 0 .. n-1. */
  function Total(view: View, n: nat): nat
    requires n <= |view|
  {
    if n == 0 then 0 else Total(view, n - 1) + RowTotal(view, n - 1, |view[n - 1]|)
  }

  /** All rows have the same, non-zero length. */
  predicate Rectangular(view: View)
  {
    |view| >= 1 && |view[0]| >= 1 && forall y :: 0 <= y < |view| ==> |view[y]| == |view[0]|
  }

  /** A row with no crossing in its first n columns scores nothing there. */
  lemma {:induction false} NoCrossingRow(view: View, y: nat, n: nat)
    requires forall x :: 0 <= x < n ==> !Crossing(view, y, x)
    ensures RowTotal(view, y, n) == 0
  {
    if n > 0 {
      NoCrossingRow(view, y, n - 1);
    }
  }

  /** The column loop computes the row's score on a rectangular picture. */
  lemma {:induction false} ScanRowTotal(view: View, y: nat, n: nat)
    requires Rectangular(view) && 1 <= y < |view| - 1 && 1 <= n <= |view[y]| - 1
    ensures ScanRow(view, y, n) == Ok(RowTotal(view, y, n))
  {
    if n == 1 {
      assert !Crossing(view, y, 0);
      assert RowTotal(view, y, 1) == RowTotal(view, y, 0) + Score(view, y, 0);
    } else {
      ScanRowTotal(view, y, n - 1);
      assert |view[y - 1]| == |view[y]| == |view[y + 1]|;
    }
  }

  /** The row loop computes the score of every row so far. */
  lemma {:induction false} ScanRowsTotal(view: View, n: nat)
    requires Rectangular(view) && 1 <= n <= |view| - 1
    ensures ScanRows(view, n) == Ok(Total(view, n))
  {
    if n == 1 {
      NoCrossingRow(view, 0, |view[0]|);
      assert Total(view, 1) == Total(view, 0) + RowTotal(view, 0, |view[0]|);
    } else {
      ScanRowsTotal(view, n - 1);
      var y := n - 1;
      var w := |view[y]|;
      assert w == |view[0]|;
      if w == 1 {
        NoCrossingRow(view, y, 1);
      } else {
        ScanRowTotal(view, y, w - 1);
        assert !Crossing(view, y, w - 1);
        assert RowTotal(view, y, w) == RowTotal(view, y, w - 1) + Score(view, y, w - 1);
      }
    }
  }

  /** On a rectangular picture `get_alignment_params` cannot panic and is
      the sum of x * y over the crossings: the border rows and columns add
      nothing. */
  lemma AlignmentIsTotal(view: View)
    requires Rectangular(view)
    ensures Alignment(view) == Ok(Total(view, |view|))
  {
    var last := |view| - 1;
    NoCrossingRow(view, last, |view[last]|);
    if last == 0 {
      assert Total(view, 1) == Total(view, 0) + RowTotal(view, 0, |view[0]|);
    } else {
      ScanRowsTotal(view, last);
    }
  }

  /** `get_alignment_params`, with its two nested loops. */
  method GetAlignmentParams(view: View) returns (r: Result<nat>)
    ensures r == Alignment(view)
  {
    if |view| == 0 {
      return Err(OutOfRange);
    }
    var alignment := 0;
    var y := 1;
    while y < |view| - 1
      invariant 1 <= y && (|view| >= 2 ==> y <= |view| - 1)
      invariant ScanRows(view, if |view| >= 2 then y else 0) == Ok(alignment)
      decreases |view| - y
    {
      if |view[y]| == 0 {
        ScanRowsErr(view, y + 1, |view| - 1);
        return Err(OutOfRange);
      }
      ghost var before := alignment;
      if |view[y]| >= 2 {
        var x := 1;
        while x < |view[y]| - 1
          invariant 1 <= x <= |view[y]| - 1
          invariant ScanRow(view, y, x).Ok? && alignment == before + ScanRow(view, y, x).value
          decreases |view[y]| - x
        {
          var crossing := Check(view, y, x);
          if crossing.Err? {
            ScanRowErr(view, y, x + 1, |view[y]| - 1);
            ScanRowsErr(view, y + 1, |view| - 1);
            return Err(crossing.fault);
          }
          if crossing.value {
            alignment := alignment + x * y;
          }
          x := x + 1;
        }
      }
      y := y + 1;
    }
    return Ok(alignment);
  }

  /** A panic in a row's column loop is a panic of the whole row. */
  lemma {:induction false} ScanRowErr(view: View, y: nat, n: nat, m: nat)
    requires 1 <= y < |view| - 1 && n <= m <= |view[y]| - 1
    requires ScanRow(view, y, n).Err?
    ensures ScanRow(view, y, m) == ScanRow(view, y, n)
    decreases m - n
  {
    if m > n {
      ScanRowErr(view, y, n, m - 1);
    }
  }

  /** A panic in one row is a panic of the whole scan. */
  lemma {:induction false} ScanRowsErr(view: View, n: nat, m: nat)
    requires n <= m <= |view| - 1
    requires ScanRows(view, n).Err?
    ensures ScanRows(view, m) == ScanRows(view, n)
    decreases m - n
  {
    if m > n {
      ScanRowsErr(view, n, m - 1);
    }
  }

  /* ---------------------------------------------------------------- */
  /* Cutting the output into rows                                      */
  /* ---------------------------------------------------------------- */

  /** The output values as characters (`num as u8 as char`). */
  function Chars(outs: seq<int>): (r: string)
    ensures |r| == |outs|
  {
    seq(|outs|, i requires 0 <= i < |outs| => CodeChar(outs[i]))
  }

  /** The rows `main` builds: a new row at every newline, any other
      character appended to the last row. */
  function RowsOf(outs: seq<int>): (rows: View)
    ensures |rows| >= 1
    ensures forall k :: 0 <= k < |rows| ==> '\n' !in rows[k]
  {
    if outs == [] then [[]]
    else
      var rows := RowsOf(outs[..|outs| - 1]);
      var c := CodeChar(outs[|outs| - 1]);
      if c == '\n' then rows + [[]]
      else rows[..|rows| - 1] + [rows[|rows| - 1] + [c]]
  }

  /** `Vec::pop`, which leaves an empty vector as it is. */
  function DropLast(rows: View): (r: View)
    ensures |r| == if rows == [] then 0 else |rows| - 1
    ensures r == rows[..|r|]
  {
    if rows == [] then [] else rows[..|rows| - 1]
  }

  /** The picture `main` hands on: the rows without the last two. */
  function Picture(outs: seq<int>): View
  {
    DropLast(DropLast(RowsOf(outs)))
  }

  lemma {:induction false} JoinSnoc(ps: seq<string>, q: string, sep: char)
    requires |ps| >= 1
    ensures ProgramText.Join(ps + [q], sep) == ProgramText.Join(ps, sep) + [sep] + q
    decreases |ps|
  {
    if |ps| == 1 {
      assert (ps + [q])[1..] == [q];
    } else {
      assert (ps + [q])[1..] == ps[1..] + [q];
      JoinSnoc(ps[1..], q, sep);
    }
  }

  /** Cutting loses nothing: the rows joined by newlines are the output
      read as characters. */
  lemma {:induction false} RowsJoin(outs: seq<int>)
    ensures ProgramText.Join(RowsOf(outs), '\n') == Chars(outs)
  {
    if outs != [] {
      var n := |outs| - 1;
      var rows := RowsOf(outs[..n]);
      RowsJoin(outs[..n]);
      assert Chars(outs) == Chars(outs[..n]) + [CodeChar(outs[n])];
      var c := CodeChar(outs[n]);
      if c == '\n' {
        JoinSnoc(rows, [], '\n');
      } else if |rows| == 1 {
        assert rows[..0] + [rows[0] + [c]] == [rows[0] + [c]];
      } else {
        var init := rows[..|rows| - 1];
        var last := rows[|rows| - 1];
        assert init + [last] == rows;
        JoinSnoc(init, last, '\n');
        JoinSnoc(init, last + [c], '\n');
      }
    }
  }

  /** One more output value either opens a new row or extends the last. */
  lemma RowsOfSnoc(outs: seq<int>, k: nat)
    requires k < |outs|
    ensures var rows, c := RowsOf(outs[..k]), CodeChar(outs[k]);
            RowsOf(outs[..k + 1]) == if c == '\n' then rows + [[]] else rows[..|rows| - 1] + [rows[|rows| - 1] + [c]]
  {
    assert outs[..k + 1][..k] == outs[..k];
  }

  /** The loop of `main` that drains the output queue into rows. */
  method ReadView(cpu: Cpu) returns (view: View)
    modifies cpu
    ensures view == Picture(old(cpu.ioOut))
    ensures cpu.Abstract() == old(cpu.Abstract()).(ioOut := [])
  {
    ghost var outs := cpu.ioOut;
    ghost var k := 0;
    var rows: View := [[]];
    var row := 0;
    while cpu.ioOut != []
      invariant k <= |outs| && cpu.ioOut == outs[k..]
      invariant rows == RowsOf(outs[..k]) && row == |rows| - 1
      invariant cpu.Abstract() == old(cpu.Abstract()).(ioOut := cpu.ioOut)
      decreases |cpu.ioOut|
    {
      var num := cpu.PopOutput();
      RowsOfSnoc(outs, k);
      var c := CodeChar(num.value);
      if c == '\n' {
        rows := rows + [[]];
        row := row + 1;
      } else {
        rows := rows[..row] + [rows[row] + [c]];
      }
      k := k + 1;
    }
    assert outs[..|outs|] == outs;
    view := DropLast(DropLast(rows));
  }

  /* ---------------------------------------------------------------- */
  /* Waking the robot                                                  */
  /* ---------------------------------------------------------------- */

  const Routine: string := "A,B,A,C,B,C,B,C,A,C\n"
  const SubA: string := "R,12,L,10,R,12\n"
  const SubB: string := "L,8,R,10,R,6\n"
  const SubC: string := "R,12,L,10,R,10,L,8\n"

  /** The lines the robot is told, in order: the main routine, the three
      movement functions, and "n" for no video feed. */
  lemma RobotLines()
    ensures ProgramText.Split(Routine + SubA + SubB + SubC + "n\n", '\n')
            == ["A,B,A,C,B,C,B,C,A,C", "R,12,L,10,R,12", "L,8,R,10,R,6", "R,12,L,10,R,10,L,8", "n", ""]
  {
    var r, a, b, c := "A,B,A,C,B,C,B,C,A,C", "R,12,L,10,R,12", "L,8,R,10,R,6", "R,12,L,10,R,10,L,8";
    assert Routine == r + "\n" && SubA == a + "\n" && SubB == b + "\n" && SubC == c + "\n";
    WakeLines(r, a, b, c);
  }

  /** A line without a newline, a newline, and the rest: the line is cut
      off first. */
  lemma LineSplit(p: string, rest: string)
    requires '\n' !in p
    ensures ProgramText.Split(p + "\n" + rest, '\n') == [p] + ProgramText.Split(rest, '\n')
  {
    var t := "\n" + rest;
    assert t[1..] == rest;
    assert ProgramText.Split(t, '\n') == [[]] + ProgramText.Split(rest, '\n');
    ProgramText.PieceSplit(p, t, '\n');
    assert p + "\n" + rest == p + t;
    assert p + [] == p;
  }

  /** Newline-ended lines followed by "n" and a newline are cut back into
      those lines. */
  lemma WakeLines(r: string, a: string, b: string, c: string)
    requires '\n' !in r && '\n' !in a && '\n' !in b && '\n' !in c
    ensures ProgramText.Split((r + "\n") + (a + "\n") + (b + "\n") + (c + "\n") + "n\n", '\n') == [r, a, b, c, "n", ""]
  {
    var t5 := "n" + "\n" + "";
    LineSplit("n", "");
    assert ProgramText.Split("", '\n') == [[]];
    var t4 := c + "\n" + t5;
    LineSplit(c, t5);
    var t3 := b + "\n" + t4;
    LineSplit(b, t4);
    var t2 := a + "\n" + t3;
    LineSplit(a, t3);
    LineSplit(r, t2);
    assert (r + "\n") + (a + "\n") + (b + "\n") + (c + "\n") + "n\n" == r + "\n" + t2;
  }

  /** Queue the character codes of `s`, oldest first. */
  method PushCodes(cpu: Cpu, s: string)
    modifies cpu
    ensures cpu.ioIn == old(cpu.ioIn) + Codes(s)
    ensures cpu.Abstract() == old(cpu.Abstract()).(ioIn := cpu.ioIn)
  {
    for i := 0 to |s|
      invariant cpu.Abstract() == old(cpu.Abstract()).(ioIn := old(cpu.ioIn) + Codes(s[..i]))
    {
      assert Codes(s[..i + 1]) == Codes(s[..i]) + [CharCode(s[i])];
      cpu.PushInput(CharCode(s[i]));
    }
    assert s[..|s|] == s;
  }

  /** `program_robot`: wake the robot (cell 0 set to 2) and queue the main
      routine, the three functions, 'n' and a newline. */
  method ProgramRobot(cpu: Cpu) returns (fault: Option<Fault>)
    modifies cpu, cpu.memory
    ensures fault.None? <==> cpu.memory.Length > 0
    ensures fault.Some? ==> fault == Some(OutOfRange)
    ensures fault.None? ==>
      cpu.Abstract() == old(cpu.Abstract()).(memory := old(cpu.memory[..])[0 := 2],
                                              ioIn := old(cpu.ioIn) + Codes(Routine) + Codes(SubA)
                                                      + Codes(SubB) + Codes(SubC) + [110, 10])
  {
    fault := Wake(cpu, Routine, SubA, SubB, SubC);
  }

  /** The body of `program_robot` for any routine and functions. */
  method Wake(cpu: Cpu, routine: string, a: string, b: string, c: string) returns (fault: Option<Fault>)
    modifies cpu, cpu.memory
    ensures fault.None? <==> cpu.memory.Length > 0
    ensures fault.Some? ==> fault == Some(OutOfRange)
    ensures fault.None? ==>
      cpu.Abstract() == old(cpu.Abstract()).(memory := old(cpu.memory[..])[0 := 2],
                                              ioIn := old(cpu.ioIn) + Codes(routine) + Codes(a)
                                                      + Codes(b) + Codes(c) + [110, 10])
  {
    fault := cpu.WriteCell(0, 2);
    if fault.Some? {
      return;
    }
    ghost var woken := cpu.Abstract();
    PushCodes(cpu, routine);
    PushCodes(cpu, a);
    PushCodes(cpu, b);
    PushCodes(cpu, c);
    cpu.PushInput(CharCode('n'));
    cpu.PushInput(10);
    assert cpu.Abstract() == woken.(ioIn := cpu.ioIn);
  }

  /* ---------------------------------------------------------------- */
  /* Updating the picture                                              */
  /* ---------------------------------------------------------------- */

  /** `update_view` from row `row` on: a newline moves to the next row
      (and stops at the end of the picture, leaving the rest queued); any
      other value is written to column 0 of the current row, since the
      column is reset but never advanced. The picture and what is left of
      the queue, or the index panic of writing to an empty row. */
  function Drawn(view: View, outs: seq<int>, row: nat): (r: Result<(View, seq<int>)>)
    ensures r.Err? ==> r.fault == OutOfRange
    ensures r.Ok? ==> |r.value.1| <= |outs| && r.value.1 == outs[|outs| - |r.value.1|..]
    decreases |outs|
  {
    if outs == [] then Ok((view, []))
    else if outs[0] == 10 then
      if row + 1 >= |view| then Ok((view, outs[1..])) else Drawn(view, outs[1..], row + 1)
    else if row >= |view| || |view[row]| == 0 then Err(OutOfRange)
    else Drawn(view[row := view[row][0 := CodeChar(outs[0])]], outs[1..], row)
  }

  /** `update_view` never adds or lengthens rows, writes nothing but
      column 0, and leaves the rows before the current one alone. */
  lemma {:induction false} DrawnShape(view: View, outs: seq<int>, row: nat)
    requires Drawn(view, outs, row).Ok?
    ensures var v := Drawn(view, outs, row).value.0;
            && |v| == |view|
            && (forall y :: 0 <= y < |view| ==> |v[y]| == |view[y]|)
            && (forall y, x :: 0 <= y < |view| && 1 <= x < |view[y]| ==> v[y][x] == view[y][x])
            && (forall y :: 0 <= y < row && y < |view| ==> v[y] == view[y])
    decreases |outs|
  {
    if outs != [] {
      if outs[0] == 10 {
        if row + 1 < |view| {
          DrawnShape(view, outs[1..], row + 1);
        }
      } else {
        var w := view[row := view[row][0 := CodeChar(outs[0])]];
        DrawnShape(w, outs[1..], row);
      }
    }
  }

  /** A run of values with no newline ends up as the last of them in
      column 0 of the current row. */
  lemma {:induction false} DrawnLine(view: View, outs: seq<int>, row: nat)
    requires row < |view| && |view[row]| > 0 && outs != []
    requires forall k :: 0 <= k < |outs| ==> outs[k] != 10
    ensures Drawn(view, outs, row) == Ok((view[row := view[row][0 := CodeChar(outs[|outs| - 1])]], []))
    decreases |outs|
  {
    var v := view[row := view[row][0 := CodeChar(outs[0])]];
    assert Drawn(view, outs, row) == Drawn(v, outs[1..], row);
    if |outs| > 1 {
      DrawnLine(v, outs[1..], row);
      var c := CodeChar(outs[|outs| - 1]);
      assert v[row][0 := c] == view[row][0 := c];
      assert v[row := v[row][0 := c]] == view[row := view[row][0 := c]];
    }
  }

  /** `update_view` on the picture in place. */
  method UpdateView(cpu: Cpu, view: array<seq<char>>) returns (fault: Option<Fault>)
    modifies cpu, view
    ensures var spec := Drawn(old(view[..]), old(cpu.ioOut), 0);
            && (fault.None? <==> spec.Ok?)
            && (fault.None? ==> view[..] == spec.value.0
                                && cpu.Abstract() == old(cpu.Abstract()).(ioOut := spec.value.1))
            && (fault.Some? ==> fault.value == spec.fault)
  {
    var row := 0;
    while cpu.ioOut != []
      invariant Drawn(old(view[..]), old(cpu.ioOut), 0) == Drawn(view[..], cpu.ioOut, row)
      invariant cpu.Abstract() == old(cpu.Abstract()).(ioOut := cpu.ioOut)
      decreases |cpu.ioOut|
    {
      var num := cpu.PopOutput();
      if num.value == 10 {
        row := row + 1;
      } else {
        if row >= view.Length || |view[row]| == 0 {
          return Some(OutOfRange);
        }
        view[row] := view[row][0 := CodeChar(num.value)];
      }
      if row >= view.Length {
        return None;
      }
    }
    return None;
  }

  /** `run_routine`: run the woken robot's program for at most `fuel`
      instructions, then draw what it printed. */
  method RunRoutine(cpu: Cpu, view: array<seq<char>>, fuel: nat) returns (fault: Option<Fault>)
    modifies cpu, cpu.memory, view
    ensures var ran := Runner(cpu.variant, fuel)(old(cpu.Abstract()));
            && (ran.Err? ==> fault == Some(ran.fault) && view[..] == old(view[..]))
            && (ran.Ok? ==>
                  var spec := Drawn(old(view[..]), ran.value.ioOut, 0);
                  && (fault.None? <==> spec.Ok?)
                  && (fault.None? ==> view[..] == spec.value.0
                                      && cpu.Abstract() == ran.value.(ioOut := spec.value.1))
                  && (fault.Some? ==> fault.value == spec.fault))
  {
    var o := cpu.Run(fuel);
    if !o.Stopped? {
      return Some(Settle(o).fault);
    }
    fault := UpdateView(cpu, view);
  }
}
