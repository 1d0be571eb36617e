/** The program text every day reads: `input.trim().split(",")`, each
    token parsed as an `i64` (`parse_ops` of day 2, `get_program` of the
    other days). The library calls it uses are written out: `trim` drops
    Unicode white space at both ends, `split(",")` cuts at every comma,
    and `i64::from_str` takes an optional sign and one or more ASCII
    digits whose value fits in 64 bits. */
module ProgramText {
  import opened Common

  /** The characters with the Unicode White_Space property, which `trim`
      removes. */
  predicate IsSpace(c: char)
  {
    || ('\U{9}' <= c <= '\U{D}') || c == ' ' || c == '\U{85}' || c == '\U{A0}'
    || c == '\U{1680}' || ('\U{2000}' <= c <= '\U{200A}') || c == '\U{2028}' || c == '\U{2029}'
    || c == '\U{202F}' || c == '\U{205F}' || c == '\U{3000}'
  }

  /** `s.trim_start()`: the longest suffix of `s` that does not start with
      white space. */
  function TrimStart(s: string): (r: string)
    ensures |r| <= |s| && r == s[|s| - |r|..]
    ensures r == [] || !IsSpace(r[0])
    ensures forall i :: 0 <= i < |s| - |r| ==> IsSpace(s[i])
  {
    if s == [] || !IsSpace(s[0]) then s else TrimStart(s[1..])
  }

  /** `s.trim_end()`: the longest prefix of `s` that does not end with
      white space. */
  function TrimEnd(s: string): (r: string)
    ensures |r| <= |s| && r == s[..|r|]
    ensures r == [] || !IsSpace(r[|r| - 1])
    ensures forall i :: |r| <= i < |s| ==> IsSpace(s[i])
  {
    if s == [] || !IsSpace(s[|s| - 1]) then s else TrimEnd(s[..|s| - 1])
  }

  function Trim(s: string): string
  {
    TrimEnd(TrimStart(s))
  }

  /** A string that neither starts nor ends with white space is its own
      trim. */
  lemma TrimmedIsTrim(s: string)
    requires s == [] || (!IsSpace(s[0]) && !IsSpace(s[|s| - 1]))
    ensures Trim(s) == s
  {
  }

  /** `s.split(sep)`: the pieces between the separators, in order; `n`
      separators give `n + 1` pieces, so the empty string gives one empty
      piece. */
  function Split(s: string, sep: char): (r: seq<string>)
    ensures |r| >= 1
    ensures forall k :: 0 <= k < |r| ==> sep !in r[k]
    decreases |s|
  {
    if s == [] then [[]]
    else
      var rest := Split(s[1..], sep);
      if s[0] == sep then [[]] + rest
      else [[s[0]] + rest[0]] + rest[1..]
  }

  /** The pieces put back together with `sep` between them. */
  function Join(pieces: seq<string>, sep: char): string
    requires |pieces| >= 1
    decreases |pieces|
  {
    if |pieces| == 1 then pieces[0] else pieces[0] + [sep] + Join(pieces[1..], sep)
  }

  /** Splitting loses nothing: joining the pieces gives the text back. */
  lemma {:induction false} SplitJoin(s: string, sep: char)
    ensures Join(Split(s, sep), sep) == s
    decreases |s|
  {
    if s != [] {
      var rest := Split(s[1..], sep);
      SplitJoin(s[1..], sep);
      if s[0] == sep {
        assert Split(s, sep) == [[]] + rest;
        assert Split(s, sep)[1..] == rest;
        calc {
          Join(Split(s, sep), sep);
          [] + [sep] + Join(rest, sep);
          [s[0]] + s[1..];
        }
      } else if |rest| == 1 {
        assert Split(s, sep) == [[s[0]] + rest[0]];
      } else {
        assert Split(s, sep) == [[s[0]] + rest[0]] + rest[1..];
        assert Split(s, sep)[1..] == rest[1..];
        assert Join(rest, sep) == rest[0] + [sep] + Join(rest[1..], sep);
        assert s == [s[0]] + s[1..];
      }
    }
  }

  /** And joining pieces without separators in them, then splitting, gives
      the pieces back. */
  lemma {:induction false} JoinSplit(pieces: seq<string>, sep: char)
    requires |pieces| >= 1
    requires forall k :: 0 <= k < |pieces| ==> sep !in pieces[k]
    ensures Split(Join(pieces, sep), sep) == pieces
    decreases |pieces|, |pieces[0]|
  {
    if |pieces| == 1 {
      PieceSplit(pieces[0], [], sep);
      assert pieces[0] + [] == pieces[0];
    } else {
      JoinSplit(pieces[1..], sep);
      var tail := [sep] + Join(pieces[1..], sep);
      assert Split(tail, sep) == [[]] + pieces[1..] by {
        assert tail[1..] == Join(pieces[1..], sep);
      }
      PieceSplit(pieces[0], tail, sep);
      assert Join(pieces, sep) == pieces[0] + tail;
      assert pieces[0] + [] == pieces[0];
      assert [pieces[0]] + pieces[1..] == pieces;
    }
  }

  /** A separator-free piece in front of `t` joins the first piece of `t`. */
  lemma {:induction false} PieceSplit(p: string, t: string, sep: char)
    requires sep !in p
    ensures Split(p + t, sep) == [p + Split(t, sep)[0]] + Split(t, sep)[1..]
    decreases |p|
  {
    if p != [] {
      var T := Split(t, sep);
      assert (p + t)[1..] == p[1..] + t;
      PieceSplit(p[1..], t, sep);
      var rest := Split(p[1..] + t, sep);
      assert rest == [p[1..] + T[0]] + T[1..];
      assert Split(p + t, sep) == [[p[0]] + rest[0]] + rest[1..];
      assert rest[1..] == T[1..];
      assert [p[0]] + (p[1..] + T[0]) == p + T[0];
    } else {
      assert p + t == t;
      assert p + Split(t, sep)[0] == Split(t, sep)[0];
      assert Split(t, sep) == [Split(t, sep)[0]] + Split(t, sep)[1..];
    }
  }

  predicate IsDigit(c: char)
  {
    '0' <= c <= '9'
  }

  predicate AllDigits(s: string)
  {
    forall i :: 0 <= i < |s| ==> IsDigit(s[i])
  }

  function DigitValue(c: char): (d: nat)
    requires IsDigit(c)
    ensures d < 10
  {
    c as int - '0' as int
  }

  function DigitChar(d: nat): (c: char)
    requires d < 10
    ensures IsDigit(c) && DigitValue(c) == d
  {
    ('0' as int + d) as char
  }

  /** The value of a string of ASCII digits, most significant first. */
  function DigitsValue(s: string): (n: nat)
    requires AllDigits(s)
    decreases |s|
  {
    if s == [] then 0 else 10 * DigitsValue(s[..|s| - 1]) + DigitValue(s[|s| - 1])
  }

  /** `i64::from_str`: an optional `+` or `-`, then one or more ASCII
      digits, with the value in the `i64` range; anything else is an
      error (the caller's `expect` panics on it). */
  function ParseI64(t: string): (r: Option<int>)
    ensures r.Some? ==> I64Min <= r.value <= I64Max
    ensures r.Some? ==> t != [] && (IsDigit(t[0]) || t[0] == '+' || t[0] == '-')
  {
    var negative := t != [] && t[0] == '-';
    var digits := if t != [] && (t[0] == '-' || t[0] == '+') then t[1..] else t;
    if digits == [] || !AllDigits(digits) then None
    else
      var v: int := if negative then -(DigitsValue(digits) as int) else DigitsValue(digits);
      if I64Min <= v <= I64Max then Some(v) else None
  }

  /** The decimal digits of `n`, most significant first, without leading
      zeros (`"0"` for zero). */
  function Decimal(n: nat): (s: string)
    ensures s != [] && AllDigits(s)
  {
    if n < 10 then [DigitChar(n)] else Decimal(n / 10) + [DigitChar(n % 10)]
  }

  lemma {:induction false} DecimalValue(n: nat)
    ensures DigitsValue(Decimal(n)) == n
  {
    if n >= 10 {
      DecimalValue(n / 10);
      var s := Decimal(n);
      assert s[..|s| - 1] == Decimal(n / 10);
    }
  }

  /** How an `i64` is written (`{}` formatting): a `-` for negative values,
      then the decimal digits. */
  function Show(n: int): (s: string)
  {
    if n < 0 then ['-'] + Decimal(-n) else Decimal(n)
  }

  /** Parsing reads back every written `i64`. */
  lemma ParseShow(n: int)
    requires I64Min <= n <= I64Max
    ensures ParseI64(Show(n)) == Some(n)
  {
    var s := Show(n);
    if n < 0 {
      DecimalValue(-n);
      assert s[0] == '-' && s[1..] == Decimal(-n);
      assert -(DigitsValue(s[1..]) as int) == n;
    } else {
      DecimalValue(n);
      assert s[0] != '-' && s[0] != '+';
    }
  }

  /** Every token parsed, in order; `None` once one of them does not
      parse. */
  function ParseAll(tokens: seq<string>): (r: Option<seq<int>>)
    ensures r.Some? <==> forall k :: 0 <= k < |tokens| ==> ParseI64(tokens[k]).Some?
    ensures r.Some? ==> |r.value| == |tokens| && forall k :: 0 <= k < |tokens| ==> r.value[k] == ParseI64(tokens[k]).value
  {
    if tokens == [] then Some([])
    else
      match ParseI64(tokens[0])
      case None => None
      case Some(x) =>
        match ParseAll(tokens[1..])
        case None => None
        case Some(xs) => Some([x] + xs)
  }

  /** `parse_ops` / `get_program`: `None` where the source panics on a
      token that is not a number. */
  function ParseOps(input: string): Option<seq<int>>
  {
    ParseAll(Split(Trim(input), ','))
  }

  /** Each value written out. */
  function ShowAll(xs: seq<int>): (r: seq<string>)
    ensures |r| == |xs| && forall k :: 0 <= k < |xs| ==> r[k] == Show(xs[k])
  {
    seq(|xs|, k requires 0 <= k < |xs| => Show(xs[k]))
  }

  /** The program text of a list of `i64` values: the values written out
      and joined with commas. */
  function ProgramOf(xs: seq<int>): (s: string)
    requires |xs| >= 1
  {
    Join(ShowAll(xs), ',')
  }

  /** Parsing reads back every non-empty program written as text; in
      particular there is one value per comma-separated token. */
  lemma ParseProgramOf(xs: seq<int>)
    requires |xs| >= 1 && forall k :: 0 <= k < |xs| ==> I64Min <= xs[k] <= I64Max
    ensures ParseOps(ProgramOf(xs)) == Some(xs)
  {
    ShownTokens(xs);
    JoinSplit(ShowAll(xs), ',');
    ProgramOfTrimmed(xs);
  }

  /** Each written value is a comma-free token that parses back. */
  lemma ShownTokens(xs: seq<int>)
    requires forall k :: 0 <= k < |xs| ==> I64Min <= xs[k] <= I64Max
    ensures forall k :: 0 <= k < |xs| ==> ',' !in ShowAll(xs)[k] && ShowAll(xs)[k] != []
    ensures ParseAll(ShowAll(xs)) == Some(xs)
  {
    var shown := ShowAll(xs);
    forall k | 0 <= k < |xs|
      ensures ',' !in shown[k] && shown[k] != [] && ParseI64(shown[k]) == Some(xs[k])
    {
      ParseShow(xs[k]);
    }
    assert ParseAll(shown).value == xs;
  }

  /** A program text has no white space to trim. */
  lemma ProgramOfTrimmed(xs: seq<int>)
    requires |xs| >= 1
    ensures Trim(ProgramOf(xs)) == ProgramOf(xs)
  {
    var shown := ShowAll(xs);
    JoinEnds(shown, ',');
    TrimmedIsTrim(ProgramOf(xs));
  }

  /** A joined text starts where its first piece starts and ends where its
      last piece ends. */
  lemma {:induction false} JoinEnds(pieces: seq<string>, sep: char)
    requires |pieces| >= 1 && forall k :: 0 <= k < |pieces| ==> pieces[k] != []
    ensures Join(pieces, sep) != []
    ensures Join(pieces, sep)[0] == pieces[0][0]
    ensures Join(pieces, sep)[|Join(pieces, sep)| - 1] == pieces[|pieces| - 1][|pieces[|pieces| - 1]| - 1]
    decreases |pieces|
  {
    if |pieces| > 1 {
      JoinEnds(pieces[1..], sep);
    }
  }

  /** The empty text has one, empty, token, which does not parse: an
      empty program file makes `parse_ops` panic. */
  lemma EmptyTextFails()
    ensures ParseOps("") == None
  {
    assert TrimStart("") == "" && TrimEnd("") == "";
    assert Split("", ',') == [""];
    assert ParseI64("") == None;
  }

  /** `parse_ops`: push each parsed token of the trimmed, comma-split
      input, stopping at the first that does not parse. */
  method ParseProgram(input: string) returns (r: Option<seq<int>>)
    ensures r == ParseOps(input)
  {
    r := ParseTokens(Split(Trim(input), ','));
  }

  /** The loop of `parse_ops` over the tokens. */
  method ParseTokens(tokens: seq<string>) returns (r: Option<seq<int>>)
    ensures r == ParseAll(tokens)
  {
    var ops: seq<int> := [];
    var k := 0;
    while k < |tokens|
      invariant k <= |tokens| && |ops| == k
      invariant forall j :: 0 <= j < k ==> ParseI64(tokens[j]) == Some(ops[j])
    {
      var x := ParseI64(tokens[k]);
      if x.None? {
        return None;
      }
      ops := ops + [x.value];
      k := k + 1;
    }
    assert ParseAll(tokens).value == ops;
    return Some(ops);
  }
}
