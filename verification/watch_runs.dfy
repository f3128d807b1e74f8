/** When the presence watch reports what, over a whole run and without its counters
    (src/tokens/discovery.c). */
module TokenWatchRuns {
  import opened Optional
  import opened Tokens
  import opened TokenWatch

  /** What has last been seen twice running, or what was there at first. */
  function Known(first: bool, seen: seq<bool>): bool {
    if |seen| < 2 then first
    else if seen[|seen| - 1] == seen[|seen| - 2] then seen[|seen| - 1]
    else Known(first, seen[..|seen| - 1])
  }

  function After(d: Debouncer, seen: seq<bool>): Debouncer {
    if seen == [] then d else Observe(After(d, seen[..|seen| - 1]), seen[|seen| - 1])
  }

  lemma {:induction false} AfterHead(d: Debouncer, seen: seq<bool>)
    requires seen != []
    ensures After(d, seen) == After(Observe(d, seen[0]), seen[1..])
  {
    var last := |seen| - 1;
    if last > 0 {
      AfterHead(d, seen[..last]);
      assert seen[..last][1..] == seen[1..][..last - 1];
    } else {
      assert seen[..0] == [] && seen[1..] == [];
    }
  }

  lemma {:induction false} ReportsLast(d: Debouncer, seen: seq<bool>, s: bool)
    ensures Reports(d, seen + [s]) == Reports(d, seen) + if Fires(After(d, seen), s) then [s] else []
    decreases |seen|
  {
    hide Fires, Observe;
    if seen == [] {
      assert ([] + [s])[1..] == [];
    } else {
      var d1, rest := Observe(d, seen[0]), seen[1..];
      AfterHead(d, seen);
      ReportsHead(d, seen);
      ReportsHead(d, seen + [s]);
      hide After, Reports;
      ReportsLast(d1, rest, s);
      assert (seen + [s])[0] == seen[0] && (seen + [s])[1..] == rest + [s];
    }
  }

  lemma ReportsHead(d: Debouncer, seen: seq<bool>)
    requires seen != []
    ensures Reports(d, seen) == (if Fires(d, seen[0]) then [seen[0]] else [])
                                + Reports(Observe(d, seen[0]), seen[1..])
  {
  }

  /** The counter is where the last observation contradicts what is known. */
  lemma {:induction false} AfterIs(first: bool, seen: seq<bool>)
    ensures var known := Known(first, seen);
            After(Debouncer(first, 0), seen)
            == Debouncer(known, if seen != [] && seen[|seen| - 1] != known then 1 else 0)
  {
    if seen != [] {
      var last := |seen| - 1;
      AfterIs(first, seen[..last]);
      if |seen| >= 2 && seen[last] == seen[last - 1] {
        assert seen[..last][last - 1] == seen[last - 1];
      }
    }
  }

  lemma FirstWatched(initial: seq<Token>, key: Key)
    requires ListedOnce(initial)
    ensures Valid(Initial(initial))
    ensures Seen(Initial(initial), key) == Debouncer(Lists(initial, key), 0)
  {
    forall k ensures Find(Initial(initial), k).Some? <==> Lists(initial, k)
             ensures Find(Initial(initial), k).Some? ==> Settled(Find(Initial(initial), k).value) {
      InitialFind(initial, k);
    }
    InitialFind(initial, key);
  }

  /** A poll reports a class exactly if it sees it as the poll before did and that is
      not what is known of it: what was last seen twice running, or listed at first. */
  lemma TwiceRunning(initial: seq<Token>, observations: seq<seq<Token>>, now: seq<Token>, key: Key)
    requires ListedOnce(initial)
    ensures var seen := SeenIn(observations, key);
            var s := exists t :: t in now && KeyOf(t) == key;
            EventsOf(TokenWatch.Run(Initial(initial), observations + [now]), key)
            == EventsOf(TokenWatch.Run(Initial(initial), observations), key)
               + if observations != [] && seen[|seen| - 1] == s && s != Known(Lists(initial, key), seen)
                 then [s] else []
  {
    var seen := SeenIn(observations, key);
    var s := Lists(now, key);
    FirstWatched(initial, key);
    RunFrom(Initial(initial), observations, key);
    RunFrom(Initial(initial), observations + [now], key);
    assert SeenIn(observations + [now], key) == seen + [s];
    ReportsLast(Debouncer(Lists(initial, key), 0), seen, s);
    AfterIs(Lists(initial, key), seen);
    ListsIs(now, key);
    assert |seen| == |observations|;
    hide Valid, Seen, Reports, After, TokenWatch.Run, EventsOf, Lists, Known;
  }

  lemma ListsIs(now: seq<Token>, key: Key)
    ensures Lists(now, key) <==> exists t :: t in now && KeyOf(t) == key
  {
    if Lists(now, key) {
      var i :| 0 <= i < |now| && KeyOf(now[i]) == key;
      assert now[i] in now;
    }
  }
}
