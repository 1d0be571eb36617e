/** The phase settings `get_max_output` and `get_max_feedback` try: five
    nested loops over lo..lo+4, each skipping a value `phases` already
    holds. Both drivers walk the same nest; here it is written once and
    collects the settings in the order the drivers evaluate them. */
module PhaseSearch {
  /** The settings the nest visits below the chosen `prefix`, trying the next
      phase from `x` up to `lo + 4`, in visiting order. */
  function Orders(prefix: seq<int>, lo: int, x: int): seq<seq<int>>
    requires |prefix| < 5 && lo <= x <= lo + 5
    decreases 5 - |prefix|, lo + 5 - x
  {
    if x == lo + 5 then []
    else
      var here := if x in prefix then [] else if |prefix| == 4 then [prefix + [x]] else Orders(prefix + [x], lo, lo);
      here + Orders(prefix, lo, x + 1)
  }

  /** Distinct phases from lo..lo+4: the start of a setting. */
  predicate Distinct(p: seq<int>, lo: int)
  {
    && (forall i :: 0 <= i < |p| ==> lo <= p[i] < lo + 5)
    && (forall i, j :: 0 <= i < j < |p| ==> p[i] != p[j])
  }

  /** A setting gives each of the five amplifiers a different phase from
      lo..lo+4. */
  predicate IsPermutation(o: seq<int>, lo: int)
  {
    |o| == 5 && Distinct(o, lo)
  }

  lemma OrdersSkip(prefix: seq<int>, lo: int, x: int)
    requires |prefix| < 5 && lo <= x < lo + 5 && x in prefix
    ensures Orders(prefix, lo, x) == Orders(prefix, lo, x + 1)
  {
  }

  lemma OrdersDescend(prefix: seq<int>, lo: int, x: int)
    requires |prefix| < 4 && lo <= x < lo + 5 && x !in prefix
    ensures Orders(prefix, lo, x) == Orders(prefix + [x], lo, lo) + Orders(prefix, lo, x + 1)
  {
  }

  lemma OrdersLeaf(prefix: seq<int>, lo: int, x: int)
    requires |prefix| == 4 && lo <= x < lo + 5 && x !in prefix
    ensures Orders(prefix, lo, x) == [prefix + [x]] + Orders(prefix, lo, x + 1)
  {
  }

  /** While level k runs, `phases` holds the chosen prefix below k, at k
      either -1 or a smaller value tried before, and -1 above k; for a
      candidate x >= lo >= 0, `phases.contains(&x)` is then membership in
      the prefix. */
  lemma ContainsChosen(s: seq<int>, prefix: seq<int>, lo: int, x: int)
    requires |s| == 5 && |prefix| < 5 && 0 <= lo <= x
    requires forall j :: 0 <= j < |prefix| ==> s[j] == prefix[j]
    requires forall j :: |prefix| < j < 5 ==> s[j] == -1
    requires s[|prefix|] == -1 || lo <= s[|prefix|] < x
    ensures x in s <==> x in prefix
  {
    if x in s {
      var j :| 0 <= j < 5 && s[j] == x;
      assert j < |prefix|;
      assert prefix[j] == x;
    }
    if x in prefix {
      var j :| 0 <= j < |prefix| && prefix[j] == x;
      assert s[j] == x;
    }
  }

  lemma Continued(done: seq<seq<int>>, inner: seq<seq<int>>, rest: seq<seq<int>>, total: seq<seq<int>>)
    requires total == done + (inner + rest)
    ensures total == (done + inner) + rest
  {
  }

  /** The nest visits only settings that give the five amplifiers five
      different phases from lo..lo+4, and visits every one of them. */
  lemma OrdersArePermutations(lo: int)
    ensures forall o :: o in Orders([], lo, lo) <==> IsPermutation(o, lo)
  {
    forall o | o in Orders([], lo, lo)
      ensures IsPermutation(o, lo)
    {
      OrdersSound([], lo, lo, o);
    }
    forall o | IsPermutation(o, lo)
      ensures o in Orders([], lo, lo)
    {
      OrdersComplete([], lo, lo, o);
    }
  }

  lemma {:induction false} OrdersSound(prefix: seq<int>, lo: int, x: int, o: seq<int>)
    requires |prefix| < 5 && lo <= x <= lo + 5 && Distinct(prefix, lo)
    requires o in Orders(prefix, lo, x)
    ensures IsPermutation(o, lo) && o[..|prefix|] == prefix
    decreases 5 - |prefix|, lo + 5 - x
  {
    var here := if x in prefix then [] else if |prefix| == 4 then [prefix + [x]] else Orders(prefix + [x], lo, lo);
    assert Orders(prefix, lo, x) == here + Orders(prefix, lo, x + 1);
    if o in here {
      assert x !in prefix;
      assert Distinct(prefix + [x], lo);
      if |prefix| == 4 {
        assert o == prefix + [x];
      } else {
        OrdersSound(prefix + [x], lo, lo, o);
        assert o[..|prefix| + 1] == prefix + [x];
      }
      assert o[..|prefix|] == o[..|prefix| + 1][..|prefix|] == (prefix + [x])[..|prefix|] == prefix;
    } else {
      OrdersSound(prefix, lo, x + 1, o);
    }
  }

  lemma {:induction false} OrdersComplete(prefix: seq<int>, lo: int, x: int, o: seq<int>)
    requires |prefix| < 5 && lo <= x <= lo + 5
    requires IsPermutation(o, lo) && o[..|prefix|] == prefix && x <= o[|prefix|]
    ensures o in Orders(prefix, lo, x)
    decreases 5 - |prefix|, lo + 5 - x
  {
    var here := if x in prefix then [] else if |prefix| == 4 then [prefix + [x]] else Orders(prefix + [x], lo, lo);
    assert Orders(prefix, lo, x) == here + Orders(prefix, lo, x + 1);
    if o[|prefix|] == x {
      assert o[..|prefix| + 1] == prefix + [x];
      if |prefix| == 4 {
        assert o == o[..5];
      } else {
        OrdersComplete(prefix + [x], lo, lo, o);
      }
    } else {
      OrdersComplete(prefix, lo, x + 1, o);
    }
  }

  predicate AllFive(orders: seq<seq<int>>)
  {
    forall k :: 0 <= k < |orders| ==> |orders[k]| == 5
  }

  lemma OrdersHaveFive(lo: int)
    ensures AllFive(Orders([], lo, lo))
  {
    OrdersArePermutations(lo);
    var orders := Orders([], lo, lo);
    forall k | 0 <= k < |orders|
      ensures |orders[k]| == 5
    {
      assert orders[k] in orders;
    }
  }

  /** The phase settings a search visits, in the order its nested loops
      visit them: every ordering of `lo..lo+4`. */
  function Settings(lo: int): (orders: seq<seq<int>>)
    ensures AllFive(orders)
    ensures forall o :: o in orders <==> IsPermutation(o, lo)
  {
    OrdersArePermutations(lo);
    OrdersHaveFive(lo);
    Orders([], lo, lo)
  }

  /** The nest of `get_max_output` (lo = 0) and `get_max_feedback` (lo = 5):
      `phases` starts as five -1 entries. */
  method PhaseOrders(lo: int) returns (orders: seq<seq<int>>)
    requires lo >= 0
    ensures orders == Settings(lo)
  {
    var phases := new int[5](_ => -1);
    orders := Choose(phases, 0, lo);
  }

  /** Loop level k of the nest (phase_a .. phase_e for k = 0 .. 4): each
      x in lo..lo+4 in turn, then `phases[k]` reset to -1 once the level
      is done. */
  method Choose(phases: array<int>, k: nat, lo: int) returns (found: seq<seq<int>>)
    requires phases.Length == 5 && k < 5 && lo >= 0
    requires forall j :: k <= j < 5 ==> phases[j] == -1
    modifies phases
    ensures phases[..k] == old(phases[..k])
    ensures forall j :: k <= j < 5 ==> phases[j] == -1
    ensures found == Orders(old(phases[..k]), lo, lo)
    decreases 5 - k, 1
  {
    ghost var prefix := phases[..k];
    found := [];
    var x := lo;
    while x < lo + 5
      invariant lo <= x <= lo + 5
      invariant phases[..k] == prefix
      invariant forall j :: k < j < 5 ==> phases[j] == -1
      invariant phases[k] == -1 || lo <= phases[k] < x
      invariant Orders(prefix, lo, lo) == found + Orders(prefix, lo, x)
    {
      var next := x + 1;
      var added := TryPhase(phases, k, lo, x, next);
      Continued(found, added, Orders(prefix, lo, next), Orders(prefix, lo, lo));
      found := found + added;
      x := next;
    }
    phases[k] := -1;
  }

  /** One turn of loop level k for the candidate x: skip it when
      `phases.contains(&x)`; otherwise set `phases[k]`, then run the next
      level, or at the last level take the setting. The outermost loop of
      the source has no `contains` test; there it never rejects anything,
      since the deeper entries are -1 and `phases[0]` holds only the
      previous, smaller value. */
  method TryPhase(phases: array<int>, k: nat, lo: int, x: int, next: int) returns (found: seq<seq<int>>)
    requires phases.Length == 5 && k < 5 && 0 <= lo <= x < lo + 5 && next == x + 1
    requires forall j :: k < j < 5 ==> phases[j] == -1
    requires phases[k] == -1 || lo <= phases[k] < x
    modifies phases
    ensures phases[..k] == old(phases[..k])
    ensures forall j :: k < j < 5 ==> phases[j] == -1
    ensures phases[k] == old(phases[k]) || phases[k] == x
    ensures Orders(old(phases[..k]), lo, x) == found + Orders(old(phases[..k]), lo, next)
    decreases 5 - k, 0
  {
    ghost var prefix := phases[..k];
    ContainsChosen(phases[..], prefix, lo, x);
    if x in phases[..] {
      OrdersSkip(prefix, lo, x);
      return [];
    }
    phases[k] := x;
    assert phases[..k + 1] == prefix + [x];
    if k == 4 {
      OrdersLeaf(prefix, lo, x);
      assert phases[..] == prefix + [x];
      return [phases[..]];
    }
    found := Choose(phases, k + 1, lo);
    assert phases[..k] == phases[..k + 1][..k] == (prefix + [x])[..k] == prefix;
    OrdersDescend(prefix, lo, x);
  }
}
