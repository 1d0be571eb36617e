/** Day 25's text adventure driver: commands are typed into the machine as
    character codes ended by a newline, its answers are read back as text,
    the inventory listing is parsed out of that text, a map records which
    items the droid holds, and the answer of the pressure plate says
    whether the droid is too heavy, too light or just right. */
module Adventure {
  import opened Common
  import opened Intcode
  import opened IntcodeCpu
  import ProgramText

  /* ---------------------------------------------------------------- */
  /* Searching text                                                    */
  /* ---------------------------------------------------------------- */

  /** `pat` occurs in `s` starting at character `i`. */
  predicate IsAt(s: string, pat: string, i: int)
  {
    0 <= i && i + |pat| <= |s| && s[i..i + |pat|] == pat
  }

  /** The first occurrence of `pat` at or after `i`. */
  function FindFrom(s: string, pat: string, i: nat): (r: Option<nat>)
    ensures r.Some? ==> i <= r.value && IsAt(s, pat, r.value)
    ensures r.Some? ==> forall j :: i <= j < r.value ==> !IsAt(s, pat, j)
    ensures r.None? ==> forall j :: i <= j ==> !IsAt(s, pat, j)
    decreases |s| - i
  {
    if i + |pat| > |s| then None
    else if s[i..i + |pat|] == pat then Some(i)
    else FindFrom(s, pat, i + 1)
  }

  /** `str::find`: the first occurrence of `pat` in `s`. */
  function Find(s: string, pat: string): (r: Option<nat>)
    ensures r.Some? ==> IsAt(s, pat, r.value)
    ensures r.Some? ==> forall j :: 0 <= j < r.value ==> !IsAt(s, pat, j)
    ensures r.None? <==> forall j :: !IsAt(s, pat, j)
  {
    FindFrom(s, pat, 0)
  }

  /** The last occurrence of `pat` starting below `k`. */
  function FindBelow(s: string, pat: string, k: nat): (r: Option<nat>)
    ensures r.Some? ==> r.value < k && IsAt(s, pat, r.value)
    ensures r.Some? ==> forall j :: r.value < j < k ==> !IsAt(s, pat, j)
    ensures r.None? ==> forall j :: j < k ==> !IsAt(s, pat, j)
  {
    if k == 0 then None
    else if IsAt(s, pat, k - 1) then Some(k - 1)
    else FindBelow(s, pat, k - 1)
  }

  /** `str::rfind`: the last occurrence of `pat` in `s`. */
  function RFind(s: string, pat: string): (r: Option<nat>)
    ensures r.Some? ==> IsAt(s, pat, r.value)
    ensures r.Some? ==> forall j :: r.value < j ==> !IsAt(s, pat, j)
    ensures r.None? <==> forall j :: !IsAt(s, pat, j)
  {
    FindBelow(s, pat, |s| + 1)
  }

  /** `str::contains`. */
  predicate Contains(s: string, pat: string)
  {
    Find(s, pat).Some?
  }

  /* ---------------------------------------------------------------- */
  /* Lines                                                             */
  /* ---------------------------------------------------------------- */

  /** A line ended by a newline loses a carriage return before it. */
  function CrStripped(line: string): string
  {
    if line != [] && line[|line| - 1] == '\r' then line[..|line| - 1] else line
  }

  /** `str::lines`: the text cut at each newline, the lines that ended in a
      newline without a trailing carriage return, and no empty last line
      after a final newline. */
  function Lines(s: string): (r: seq<string>)
    ensures forall k :: 0 <= k < |r| ==> '\n' !in r[k]
    ensures s == [] ==> r == []
  {
    var pieces := ProgramText.Split(s, '\n');
    var ended := pieces[..|pieces| - 1];
    var last := pieces[|pieces| - 1];
    CrStrippedAll(ended) + (if last == [] then [] else [last])
  }

  function CrStrippedAll(ls: seq<string>): seq<string>
  {
    seq(|ls|, k requires 0 <= k < |ls| => CrStripped(ls[k]))
  }

  /** Proof helper: sequence concatenation is associative. */
  lemma Assoc<T>(a: seq<T>, b: seq<T>, c: seq<T>)
    ensures a + (b + c) == a + b + c
  {
  }

  /** Proof helper: a non-empty sequence is its front and its last element. */
  lemma LastSplit<T>(s: seq<T>)
    requires |s| >= 1
    ensures s[..|s| - 1] + [s[|s| - 1]] == s
  {
  }

  /** Lines without newlines or trailing carriage returns, joined with
      newlines, are cut back into the same lines. */
  lemma LinesJoin(ls: seq<string>)
    requires |ls| >= 1 && ls[|ls| - 1] != []
    requires forall k :: 0 <= k < |ls| ==> '\n' !in ls[k]
    requires forall k :: 0 <= k < |ls| ==> CrStripped(ls[k]) == ls[k]
    ensures Lines(ProgramText.Join(ls, '\n')) == ls
  {
    var ended := ls[..|ls| - 1];
    LastSplit(ls);
    var text := ProgramText.Join(ls, '\n');
    ProgramText.JoinSplit(ls, '\n');
    assert CrStrippedAll(ended) == ended;
    assert Lines(text) == CrStrippedAll(ended) + [ls[|ls| - 1]];
  }

  /* ---------------------------------------------------------------- */
  /* The inventory                                                     */
  /* ---------------------------------------------------------------- */

  /** The item a line names: the text after its first "- ", if any. */
  function Item(line: string): (r: seq<string>)
    ensures |r| <= 1
    ensures r != [] <==> exists j :: IsAt(line, "- ", j)
  {
    match Find(line, "- ")
    case Some(k) => [line[k + 2..]]
    case None => []
  }

  /** The items the lines name, in order. */
  function Items(lines: seq<string>): (r: seq<string>)
    ensures |r| <= |lines|
  {
    if lines == [] then []
    else Items(lines[..|lines| - 1]) + Item(lines[|lines| - 1])
  }

  /** The listing the game prints for a list of names. */
  function Bullets(names: seq<string>): (r: seq<string>)
    ensures |r| == |names|
  {
    seq(|names|, k requires 0 <= k < |names| => "- " + names[k])
  }

  /** Every bulleted name is read back as it was. */
  lemma {:induction false} BulletItems(names: seq<string>)
    ensures Items(Bullets(names)) == names
  {
    if names != [] {
      var n := |names| - 1;
      assert Bullets(names)[..n] == Bullets(names[..n]);
      BulletItems(names[..n]);
      assert IsAt(Bullets(names)[n], "- ", 0);
      assert Item(Bullets(names)[n]) == [names[n]];
      assert names[..n] + [names[n]] == names;
    }
  }

  /** What `get_inv` makes of the machine's answer: the lines between the
      first "inventory:" (and the newline after it) and the last blank
      line, and of those the text after "- " on each line that has one.
      A missing marker is the `expect` panic, a marker after the blank
      line is the panic of an inverted slice. */
  function InventoryOf(out: string): (r: Result<seq<string>>)
    ensures r == Err(MissingValue) <==> Find(out, "inventory:").None? || RFind(out, "\n\n").None?
    ensures r == Err(OutOfRange) <==>
              && Find(out, "inventory:").Some? && RFind(out, "\n\n").Some?
              && Find(out, "inventory:").value + 11 > RFind(out, "\n\n").value
    ensures r.Ok? ==>
              && Find(out, "inventory:").Some? && RFind(out, "\n\n").Some?
              && var a := Find(out, "inventory:").value;
                 var b := RFind(out, "\n\n").value;
                 a + 11 <= b && r.value == Items(Lines(out[a + 11..b]))
  {
    match Find(out, "inventory:")
    case None => Err(MissingValue)
    case Some(a) =>
      match RFind(out, "\n\n")
      case None => Err(MissingValue)
      case Some(b) =>
        if a + 11 > b then Err(OutOfRange) else Ok(Items(Lines(out[a + 11..b])))
  }

  /** The two markers of a listing: "inventory:" opens it, and the blank
      line that ends it is the last one in the text. */
  lemma ListingMarkers(body: string, out: string)
    requires out == "inventory:\n" + body + "\n\n"
    ensures Find(out, "inventory:") == Some(0)
    ensures RFind(out, "\n\n") == Some(|out| - 2)
    ensures out[11..|out| - 2] == body
  {
    assert out[0..10] == "inventory:";
    var e := |out| - 2;
    assert out[e..e + 2] == "\n\n";
    assert FindBelow(out, "\n\n", e + 1) == Some(e);
    assert FindBelow(out, "\n\n", e + 2) == Some(e);
  }

  /** Bullet lines hold no line break and no carriage return. */
  lemma BulletLines(names: seq<string>)
    requires forall k :: 0 <= k < |names| ==> '\n' !in names[k] && CrStripped(names[k]) == names[k]
    ensures forall k :: 0 <= k < |names| ==>
              '\n' !in Bullets(names)[k] && CrStripped(Bullets(names)[k]) == Bullets(names)[k]
  {
    forall k | 0 <= k < |names|
      ensures '\n' !in Bullets(names)[k] && CrStripped(Bullets(names)[k]) == Bullets(names)[k]
    {
      assert Bullets(names)[k] == "- " + names[k];
    }
  }

  /** The listing itself is parsed back into the names it lists. */
  lemma ListingParses(names: seq<string>)
    requires names != []
    requires forall k :: 0 <= k < |names| ==> '\n' !in names[k] && CrStripped(names[k]) == names[k]
    ensures InventoryOf("inventory:\n" + ProgramText.Join(Bullets(names), '\n') + "\n\n") == Ok(names)
  {
    var body := ProgramText.Join(Bullets(names), '\n');
    ListingMarkers(body, "inventory:\n" + body + "\n\n");
    BulletLines(names);
    LinesJoin(Bullets(names));
    BulletItems(names);
  }

  /** The item lines of `lines`, collected by a loop as `get_inv` does. */
  method ListItems(lines: seq<string>) returns (items: seq<string>)
    ensures items == Items(lines)
  {
    items := [];
    for i := 0 to |lines|
      invariant items == Items(lines[..i])
    {
      assert lines[..i + 1][..i] == lines[..i];
      var found := Find(lines[i], "- ");
      if found.Some? {
        items := items + [lines[i][found.value + 2..]];
      }
    }
    assert lines[..|lines|] == lines;
  }

  /* ---------------------------------------------------------------- */
  /* Text in and out of the machine                                    */
  /* ---------------------------------------------------------------- */

  /** What `cpu_output_to_string` keeps of the output queue: the values in
      0..128 as characters, oldest first; the rest are only printed. */
  function AsciiText(xs: seq<int>): (r: string)
    ensures |r| <= |xs|
    ensures forall k :: 0 <= k < |r| ==> (r[k] as int) < 128
  {
    if xs == [] then []
    else (if 0 <= xs[0] < 128 then [xs[0] as char] else []) + AsciiText(xs[1..])
  }

  lemma {:induction false} AsciiTextAppend(xs: seq<int>, ys: seq<int>)
    ensures AsciiText(xs + ys) == AsciiText(xs) + AsciiText(ys)
  {
    if xs != [] {
      assert (xs + ys)[1..] == xs[1..] + ys;
      AsciiTextAppend(xs[1..], ys);
    } else {
      assert xs + ys == ys;
    }
  }

  /** One value taken off the front of the queue. */
  lemma AsciiStep(prev: string, xs: seq<int>)
    requires xs != []
    ensures prev + AsciiText(xs)
            == (if 0 <= xs[0] < 128 then prev + [xs[0] as char] else prev) + AsciiText(xs[1..])
  {
    var head: string := if 0 <= xs[0] < 128 then [xs[0] as char] else [];
    assert AsciiText(xs) == head + AsciiText(xs[1..]);
    Assoc(prev, head, AsciiText(xs[1..]));
    assert prev + head == (if 0 <= xs[0] < 128 then prev + [xs[0] as char] else prev);
  }

  /** Text of plain ASCII characters survives the trip to character codes
      and back. */
  lemma {:induction false} AsciiRoundTrip(s: string)
    requires forall k :: 0 <= k < |s| ==> (s[k] as int) < 128
    ensures AsciiText(Codes(s)) == s
  {
    if s != [] {
      AsciiRoundTrip(s[1..]);
      assert Codes(s)[1..] == Codes(s[1..]);
      assert s == [s[0]] + s[1..];
    }
  }

  /** A typed command, read back as text, is the command and its newline. */
  lemma CommandEcho(command: string)
    requires forall k :: 0 <= k < |command| ==> (command[k] as int) < 128
    ensures AsciiText(Codes(command) + [10]) == command + "\n"
  {
    AsciiTextAppend(Codes(command), [10]);
    AsciiRoundTrip(command);
    assert AsciiText([10]) == "\n" by {
      assert AsciiText([10]) == [10 as char] + AsciiText([]);
    }
  }

  /** The machine after `send_input_cpu`: the command's codes and a
      newline queued after its pending input. */
  function Sent(m: Machine, command: string): (r: Machine)
    ensures |r.ioIn| == |m.ioIn| + |command| + 1 && r.ioIn[..|m.ioIn|] == m.ioIn
    ensures r.ioIn[|r.ioIn| - 1] == 10
    ensures r == m.(ioIn := r.ioIn)
  {
    m.(ioIn := m.ioIn + Codes(command) + [10])
  }

  /** Typing a command, running the machine and reading its answer: the
      machine afterwards, with its output queue drained, and the text. */
  function Reply(run: Machine -> Result<Machine>, m: Machine, command: string): Result<(Machine, string)>
  {
    match run(Sent(m, command))
    case Err(f) => Err(f)
    case Ok(m') => Ok((m'.(ioOut := []), AsciiText(m'.ioOut)))
  }

  /** `send_input_cpu`: queue the command's characters, then a newline. */
  method SendInput(cpu: Cpu, command: string)
    modifies cpu
    ensures cpu.Abstract() == Sent(old(cpu.Abstract()), command)
    ensures cpu.verbose == old(cpu.verbose)
  {
    for i := 0 to |command|
      invariant cpu.Abstract() == old(cpu.Abstract()).(ioIn := old(cpu.ioIn) + Codes(command[..i]))
      invariant cpu.verbose == old(cpu.verbose)
    {
      assert Codes(command[..i + 1]) == Codes(command[..i]) + [CharCode(command[i])];
      cpu.PushInput(CharCode(command[i]));
    }
    assert command[..|command|] == command;
    cpu.PushInput(10);
  }

  /** `cpu_output_to_string`: drain the output queue into text. */
  method OutputToString(cpu: Cpu) returns (out: string)
    modifies cpu
    ensures out == AsciiText(old(cpu.ioOut))
    ensures cpu.Abstract() == old(cpu.Abstract()).(ioOut := [])
    ensures cpu.verbose == old(cpu.verbose)
  {
    out := [];
    while cpu.ioOut != []
      invariant out + AsciiText(cpu.ioOut) == AsciiText(old(cpu.ioOut))
      invariant cpu.Abstract() == old(cpu.Abstract()).(ioOut := cpu.ioOut)
      invariant cpu.verbose == old(cpu.verbose)
      decreases |cpu.ioOut|
    {
      AsciiStep(out, cpu.ioOut);
      var x := cpu.PopOutput();
      if 0 <= x.value < 128 {
        out := out + [x.value as char];
      }
    }
  }

  /** Type a command, run the machine for at most `fuel` instructions and
      drain its answer; `print_cpu_ouput` drains the queue in the same way. */
  method Converse(cpu: Cpu, command: string, fuel: nat) returns (r: Result<string>)
    modifies cpu, cpu.memory
    ensures var spec := Reply(Runner(cpu.variant, fuel), old(cpu.Abstract()), command);
            && (r.Ok? <==> spec.Ok?)
            && (r.Ok? ==> r.value == spec.value.1 && cpu.Abstract() == spec.value.0)
            && (r.Err? ==> r.fault == spec.fault)
    ensures cpu.verbose == old(cpu.verbose)
  {
    SendInput(cpu, command);
    var o := cpu.Run(fuel);
    if !o.Stopped? {
      return Err(Settle(o).fault);
    }
    var out := OutputToString(cpu);
    return Ok(out);
  }

  /** `get_inv`: ask for the inventory and parse the answer. */
  method GetInv(cpu: Cpu, fuel: nat) returns (r: Result<seq<string>>)
    modifies cpu, cpu.memory
    ensures var spec := Reply(Runner(cpu.variant, fuel), old(cpu.Abstract()), "inv");
            && (spec.Err? ==> r == Err(spec.fault))
            && (spec.Ok? ==> r == InventoryOf(spec.value.1) && cpu.Abstract() == spec.value.0)
  {
    var reply := Converse(cpu, "inv", fuel);
    if reply.Err? {
      return Err(reply.fault);
    }
    var out := reply.value;
    var start := Find(out, "inventory:");
    if start.None? {
      return Err(MissingValue);
    }
    var end := RFind(out, "\n\n");
    if end.None? {
      return Err(MissingValue);
    }
    if start.value + 11 > end.value {
      return Err(OutOfRange);
    }
    var items := ListItems(Lines(out[start.value + 11..end.value]));
    return Ok(items);
  }

  /* ---------------------------------------------------------------- */
  /* Holding items                                                     */
  /* ---------------------------------------------------------------- */

  /** The `held` map after the droid takes (`holding`) or drops an item:
      the item must already be a key. */
  function Hold(held: map<string, bool>, item: string, holding: bool): (r: Result<map<string, bool>>)
    ensures r.Ok? <==> item in held
    ensures r.Err? ==> r.fault == MissingValue
    ensures r.Ok? ==> r.value.Keys == held.Keys && r.value[item] == holding
    ensures r.Ok? ==> forall k :: k in held && k != item ==> r.value[k] == held[k]
  {
    if item in held then Ok(held[item := holding]) else Err(MissingValue)
  }

  /** Taking an item that was not held and dropping it again leaves the
      map as it was. */
  lemma TakeDropRestores(held: map<string, bool>, item: string)
    requires item in held && !held[item]
    ensures Hold(held, item, true).Ok? && Hold(Hold(held, item, true).value, item, false) == Ok(held)
  {
    assert held[item := true][item := false] == held;
  }

  /** `drop_item` and `take_item`: type "drop <item>" or "take <item>",
      run the machine, drain its answer, then record the item as dropped
      or held. */
  method Handle(cpu: Cpu, held: map<string, bool>, item: string, holding: bool, fuel: nat)
    returns (r: Result<map<string, bool>>)
    modifies cpu, cpu.memory
    ensures var spec := Reply(Runner(cpu.variant, fuel), old(cpu.Abstract()),
                              (if holding then "take " else "drop ") + item);
            && (spec.Err? ==> r == Err(spec.fault))
            && (spec.Ok? ==> r == Hold(held, item, holding) && cpu.Abstract() == spec.value.0)
  {
    var command := (if holding then "take " else "drop ") + item;
    var reply := Converse(cpu, command, fuel);
    if reply.Err? {
      return Err(reply.fault);
    }
    if item !in held {
      return Err(MissingValue);
    }
    return Ok(held[item := holding]);
  }

  /* ---------------------------------------------------------------- */
  /* The pressure plate                                                */
  /* ---------------------------------------------------------------- */

  datatype Weight = Heavier | Lighter | Exact

  /** What `check_weight` reads from the answer: "heavier" anywhere wins
      over "lighter", and neither means the weight is right. */
  function Classify(out: string): (w: Weight)
    ensures w == Heavier <==> exists i :: IsAt(out, "heavier", i)
    ensures w == Lighter <==> (forall i :: !IsAt(out, "heavier", i)) && exists i :: IsAt(out, "lighter", i)
  {
    if Contains(out, "heavier") then Heavier
    else if Contains(out, "lighter") then Lighter
    else Exact
  }

  /** `check_weight`: step north onto the plate and classify the answer. */
  method CheckWeight(cpu: Cpu, fuel: nat) returns (r: Result<Weight>)
    modifies cpu, cpu.memory
    ensures var spec := Reply(Runner(cpu.variant, fuel), old(cpu.Abstract()), "north");
            && (spec.Err? ==> r == Err(spec.fault))
            && (spec.Ok? ==> r == Ok(Classify(spec.value.1)) && cpu.Abstract() == spec.value.0)
  {
    var reply := Converse(cpu, "north", fuel);
    if reply.Err? {
      return Err(reply.fault);
    }
    if Contains(reply.value, "heavier") {
      return Ok(Heavier);
    } else if Contains(reply.value, "lighter") {
      return Ok(Lighter);
    }
    return Ok(Exact);
  }
}
