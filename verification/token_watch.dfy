/** The presence watch (src/tokens/discovery.c): one list of watched tokens is
    updated in place at every poll, and behaves like one independent debouncer
    for each presence class. */
module TokenWatch {
  import opened Optional
  import opened Tokens

  /** Consecutive observations needed before an event. */
  const DEBOUNCE := 2

  datatype Entry = Entry(token: Token, stable: nat, present: bool)

  datatype Event = Event(token: Token, added: bool)

  // ----- The reference: a debouncer that sees only its own token -----

  datatype Debouncer = Debouncer(present: bool, stable: nat)

  /** True when the observation completes a run of DEBOUNCE contrary ones. */
  predicate Fires(d: Debouncer, seen: bool) {
    seen != d.present && d.stable + 1 >= DEBOUNCE
  }

  function Observe(d: Debouncer, seen: bool): Debouncer {
    if Fires(d, seen) then Debouncer(seen, 0)
    else Debouncer(d.present, if seen == d.present then 0 else d.stable + 1)
  }

  /** The additions (true) and removals (false) a debouncer reports. */
  function Reports(d: Debouncer, seen: seq<bool>): seq<bool>
    decreases |seen|
  {
    if seen == [] then []
    else (if Fires(d, seen[0]) then [seen[0]] else []) + Reports(Observe(d, seen[0]), seen[1..])
  }

  /** Reports alternate, starting with the opposite of the first state. */
  lemma {:induction false} ReportsAlternate(d: Debouncer, seen: seq<bool>, i: nat)
    requires i < |Reports(d, seen)|
    ensures Reports(d, seen)[i] == (d.present == (i % 2 == 1))
    decreases |seen|
  {
    var rest := Reports(Observe(d, seen[0]), seen[1..]);
    if Fires(d, seen[0]) {
      if i > 0 {
        ReportsAlternate(Observe(d, seen[0]), seen[1..], i - 1);
        assert Reports(d, seen)[i] == rest[i - 1];
      }
    } else {
      ReportsAlternate(Observe(d, seen[0]), seen[1..], i);
      assert Reports(d, seen) == rest;
    }
  }

  // ----- The list algorithm as functions -----

  predicate Lists(tokens: seq<Token>, key: Key) {
    exists i :: 0 <= i < |tokens| && KeyOf(tokens[i]) == key
  }

  predicate Watches(watched: seq<Entry>, key: Key) {
    exists i :: 0 <= i < |watched| && KeyOf(watched[i].token) == key
  }

  function Initial(tokens: seq<Token>): seq<Entry> {
    seq(|tokens|, i requires 0 <= i < |tokens| => Entry(tokens[i], 0, true))
  }

  function AddFresh(watched: seq<Entry>, now: seq<Token>): seq<Entry> {
    if now == [] then watched
    else
      var w := AddFresh(watched, now[..|now| - 1]);
      var newcomer := now[|now| - 1];
      if Watches(w, KeyOf(newcomer)) then w else w + [Entry(newcomer, 0, false)]
  }

  function Counted(e: Entry, now: seq<Token>): Entry {
    e.(stable := if Lists(now, KeyOf(e.token)) == e.present then 0 else e.stable + 1)
  }

  function Count(watched: seq<Entry>, now: seq<Token>): seq<Entry> {
    seq(|watched|, i requires 0 <= i < |watched| => Counted(watched[i], now))
  }

  predicate Removes(e: Entry) { e.present && e.stable >= DEBOUNCE }

  predicate Adds(e: Entry) { !e.present && e.stable >= DEBOUNCE }

  function AfterRemoval(e: Entry): Entry {
    if Removes(e) then Entry(e.token, 0, false) else e
  }

  function AfterAddition(e: Entry): Entry {
    if Adds(e) then Entry(e.token, 0, true) else e
  }

  function Removals(watched: seq<Entry>): seq<Event> {
    if watched == [] then []
    else
      var last := watched[|watched| - 1];
      Removals(watched[..|watched| - 1]) + if Removes(last) then [Event(last.token, false)] else []
  }

  function Removed(watched: seq<Entry>): seq<Entry> {
    seq(|watched|, i requires 0 <= i < |watched| => AfterRemoval(watched[i]))
  }

  function Additions(watched: seq<Entry>): seq<Event> {
    if watched == [] then []
    else
      var last := watched[|watched| - 1];
      Additions(watched[..|watched| - 1]) + if Adds(last) then [Event(last.token, true)] else []
  }

  /** Stays in the list: present, or at least still listed. */
  predicate Stays(e: Entry, now: seq<Token>) {
    e.present || Lists(now, KeyOf(e.token))
  }

  function Kept(watched: seq<Entry>, now: seq<Token>): seq<Entry> {
    if watched == [] then []
    else
      var last := AfterAddition(watched[|watched| - 1]);
      Kept(watched[..|watched| - 1], now) + if Stays(last, now) then [last] else []
  }

  /** One poll: the new list and the events, removals first. */
  function Poll(watched: seq<Entry>, now: seq<Token>): (seq<Entry>, seq<Event>) {
    var counted := Count(AddFresh(watched, now), now);
    var removed := Removed(counted);
    (Kept(removed, now), Removals(counted) + Additions(removed))
  }

  // ----- The watcher, updated in place -----

  class Watcher {
    var watched: seq<Entry>
    var events: seq<Event>      // the FIFO drained by the dispatcher

    constructor (initial: seq<Token>)
      ensures watched == Initial(initial) && events == []
    {
      watched := [];
      events := [];
      new;
      for i := 0 to |initial|
        invariant watched == Initial(initial[..i]) && events == []
      {
        watched := watched + [Entry(initial[i], 0, true)];
      }
      assert initial[..|initial|] == initial;
    }

    method Contains(token: Token) returns (found: bool)
      ensures found == Watches(watched, KeyOf(token))
    {
      for i := 0 to |watched|
        invariant forall j :: 0 <= j < i ==> KeyOf(watched[j].token) != KeyOf(token)
      {
        PresenceIsKey(watched[i].token, token);
        if SamePresence(watched[i].token, token) {
          return true;
        }
      }
      return false;
    }

    static method Listed(tokens: seq<Token>, token: Token) returns (found: bool)
      ensures found == Lists(tokens, KeyOf(token))
    {
      for i := 0 to |tokens|
        invariant forall j :: 0 <= j < i ==> KeyOf(tokens[j]) != KeyOf(token)
      {
        PresenceIsKey(tokens[i], token);
        if SamePresence(tokens[i], token) {
          return true;
        }
      }
      return false;
    }

    method Emit(token: Token, added: bool)
      modifies this`events
      ensures events == old(events) + [Event(token, added)]
    {
      events := events + [Event(token, added)];
    }

    method Learn(now: seq<Token>)
      modifies this`watched
      ensures watched == AddFresh(old(watched), now)
    {
      for i := 0 to |now|
        invariant watched == AddFresh(old(watched), now[..i])
      {
        assert now[..i + 1][..i] == now[..i];
        var known := Contains(now[i]);
        if !known {
          watched := watched + [Entry(now[i], 0, false)];
        }
      }
      assert now[..|now|] == now;
    }

    method CountObservations(now: seq<Token>)
      modifies this`watched
      ensures watched == Count(old(watched), now)
    {
      for i := 0 to |watched|
        invariant |watched| == |old(watched)|
        invariant forall j :: 0 <= j < i ==> watched[j] == Counted(old(watched)[j], now)
        invariant watched[i..] == old(watched)[i..]
      {
        var entry := watched[i];
        var seen := Listed(now, entry.token);
        if seen == entry.present {
          watched := watched[i := entry.(stable := 0)];
        } else {
          watched := watched[i := entry.(stable := entry.stable + 1)];
        }
      }
    }

    method EmitRemovals()
      modifies this
      ensures watched == Removed(old(watched))
      ensures events == old(events) + Removals(old(watched))
    {
      for i := 0 to |watched|
        invariant |watched| == |old(watched)|
        invariant forall j :: 0 <= j < i ==> watched[j] == AfterRemoval(old(watched)[j])
        invariant watched[i..] == old(watched)[i..]
        invariant events == old(events) + Removals(old(watched)[..i])
      {
        assert old(watched)[..i + 1][..i] == old(watched)[..i];
        var entry := watched[i];
        if entry.present && entry.stable >= DEBOUNCE {
          Emit(entry.token, false);
          watched := watched[i := Entry(entry.token, 0, false)];
        }
      }
      assert old(watched)[..|watched|] == old(watched);
    }

    /** The last loop shrinks the list while it walks it. */
    method EmitAdditions(now: seq<Token>)
      modifies this
      ensures watched == Kept(old(watched), now)
      ensures events == old(events) + Additions(old(watched))
    {
      var i := 0;
      ghost var walked := 0;     // position in the list as it was
      while i < |watched|
        invariant 0 <= i <= |watched| && walked <= |old(watched)|
        invariant watched[i..] == old(watched)[walked..]
        invariant watched[..i] == Kept(old(watched)[..walked], now)
        invariant events == old(events) + Additions(old(watched)[..walked])
        decreases |watched| - i
      {
        assert old(watched)[..walked + 1][..walked] == old(watched)[..walked];
        assert watched[i] == watched[i..][0] == old(watched)[walked];
        var entry := watched[i];
        if !entry.present && entry.stable >= DEBOUNCE {
          Emit(entry.token, true);
          entry := Entry(entry.token, 0, true);
          watched := watched[i := entry];
        }
        var seen := Listed(now, entry.token);
        if !entry.present && !seen {
          watched := watched[..i] + watched[i + 1..];
        } else {
          i := i + 1;
        }
        walked := walked + 1;
      }
      assert old(watched)[..walked] == old(watched);
    }

    method PollOnce(now: seq<Token>)
      modifies this
      ensures watched == Poll(old(watched), now).0
      ensures events == old(events) + Poll(old(watched), now).1
    {
      Learn(now);
      CountObservations(now);
      EmitRemovals();
      EmitAdditions(now);
    }
  }

  // ----- Refinement: the list is a family of independent debouncers -----

  /** The list's entry for one class; with one entry a class, its only one. */
  function Find(watched: seq<Entry>, key: Key): Option<Entry> {
    if watched == [] then None
    else
      var last := watched[|watched| - 1];
      if KeyOf(last.token) == key then Some(last) else Find(watched[..|watched| - 1], key)
  }

  predicate Distinct(watched: seq<Entry>) {
    watched != [] ==>
      && Distinct(watched[..|watched| - 1])
      && Find(watched[..|watched| - 1], KeyOf(watched[|watched| - 1].token)) == None
  }

  /** Between polls no run is complete, and an absent token is in the middle of one. */
  predicate Settled(e: Entry) {
    e.stable < DEBOUNCE && (!e.present ==> e.stable > 0)
  }

  ghost predicate Valid(watched: seq<Entry>) {
    Distinct(watched) && forall key :: Find(watched, key).Some? ==> Settled(Find(watched, key).value)
  }

  /** What the list says about one class: a class it does not list is absent. */
  function Seen(watched: seq<Entry>, key: Key): Debouncer {
    match Find(watched, key)
    case Some(e) => Debouncer(e.present, e.stable)
    case None => Debouncer(false, 0)
  }

  function EventsOf(events: seq<Event>, key: Key): seq<bool> {
    if events == [] then []
    else
      var last := events[|events| - 1];
      EventsOf(events[..|events| - 1], key) + if KeyOf(last.token) == key then [last.added] else []
  }

  lemma {:induction false} EventsOfAppend(a: seq<Event>, b: seq<Event>, key: Key)
    ensures EventsOf(a + b, key) == EventsOf(a, key) + EventsOf(b, key)
  {
    if b == [] {
      assert a + b == a;
    } else {
      EventsOfAppend(a, b[..|b| - 1], key);
      assert (a + b)[..|a + b| - 1] == a + b[..|b| - 1];
    }
  }

  lemma {:induction false} FindIsWatches(watched: seq<Entry>, key: Key)
    ensures Find(watched, key).Some? <==> Watches(watched, key)
    ensures Find(watched, key).Some? ==> KeyOf(Find(watched, key).value.token) == key
  {
    if watched != [] {
      var init := watched[..|watched| - 1];
      FindIsWatches(init, key);
      if Watches(init, key) {
        var i :| 0 <= i < |init| && KeyOf(init[i].token) == key;
        assert KeyOf(watched[i].token) == key;
      }
      if Watches(watched, key) && KeyOf(watched[|watched| - 1].token) != key {
        var i :| 0 <= i < |watched| && KeyOf(watched[i].token) == key;
        assert KeyOf(init[i].token) == key;
      }
    }
  }

  lemma ListsInit(now: seq<Token>, key: Key)
    requires now != []
    ensures Lists(now, key) <==> Lists(now[..|now| - 1], key) || KeyOf(now[|now| - 1]) == key
  {
    var init := now[..|now| - 1];
    if Lists(init, key) {
      var i :| 0 <= i < |init| && KeyOf(init[i]) == key;
      assert KeyOf(now[i]) == key;
    }
    if Lists(now, key) && KeyOf(now[|now| - 1]) != key {
      var i :| 0 <= i < |now| && KeyOf(now[i]) == key;
      assert KeyOf(init[i]) == key;
    }
  }

  /** Learning new tokens leaves every watched class alone. */
  lemma {:induction false} AddFreshFind(watched: seq<Entry>, now: seq<Token>, key: Key)
    requires Distinct(watched)
    ensures var w := AddFresh(watched, now);
            && Distinct(w)
            && (Find(watched, key).Some? ==> Find(w, key) == Find(watched, key))
            && (Find(watched, key).None? ==>
                  if Lists(now, key)
                  then Find(w, key).Some? && !Find(w, key).value.present && Find(w, key).value.stable == 0
                  else Find(w, key) == None)
  {
    if now != [] {
      var before, newcomer := now[..|now| - 1], now[|now| - 1];
      AddFreshFind(watched, before, key);
      ListsInit(now, key);
      var w := AddFresh(watched, before);
      FindIsWatches(w, KeyOf(newcomer));
      if !Watches(w, KeyOf(newcomer)) {
        assert (w + [Entry(newcomer, 0, false)])[..|w|] == w;
      }
    }
  }

  lemma {:induction false} CountFind(watched: seq<Entry>, now: seq<Token>, key: Key)
    requires Distinct(watched)
    ensures Distinct(Count(watched, now))
    ensures Find(Count(watched, now), key)
         == match Find(watched, key) { case Some(e) => Some(Counted(e, now)) case None => None }
  {
    if watched != [] {
      var init, last := watched[..|watched| - 1], watched[|watched| - 1];
      CountFind(init, now, key);
      CountFind(init, now, KeyOf(last.token));
      assert Count(watched, now)[..|watched| - 1] == Count(init, now);
    }
  }

  lemma {:induction false} RemovedFind(watched: seq<Entry>, key: Key)
    requires Distinct(watched)
    ensures Distinct(Removed(watched))
    ensures Find(Removed(watched), key)
         == match Find(watched, key) { case Some(e) => Some(AfterRemoval(e)) case None => None }
    ensures EventsOf(Removals(watched), key)
         == match Find(watched, key) { case Some(e) => if Removes(e) then [false] else [] case None => [] }
  {
    if watched != [] {
      var init, last := watched[..|watched| - 1], watched[|watched| - 1];
      RemovedFind(init, key);
      RemovedFind(init, KeyOf(last.token));
      assert Removed(watched)[..|watched| - 1] == Removed(init);
      assert EventsOf([Event(last.token, false)], key)
          == if KeyOf(last.token) == key then [false] else [];
      EventsOfAppend(Removals(init), if Removes(last) then [Event(last.token, false)] else [], key);
    }
  }

  lemma {:induction false} KeptFind(watched: seq<Entry>, now: seq<Token>, key: Key)
    requires Distinct(watched)
    ensures Distinct(Kept(watched, now))
    ensures Find(Kept(watched, now), key)
         == match Find(watched, key) {
              case Some(e) => if Stays(AfterAddition(e), now) then Some(AfterAddition(e)) else None
              case None => None }
  {
    hide Lists, KeyOf;
    if watched != [] {
      var init, last := watched[..|watched| - 1], watched[|watched| - 1];
      KeptFind(init, now, key);
      KeptFind(init, now, KeyOf(last.token));
      var kept := Kept(init, now);
      if Stays(AfterAddition(last), now) {
        assert (kept + [AfterAddition(last)])[..|kept|] == kept;
      } else {
        assert kept + [] == kept;
      }
    }
  }

  lemma {:induction false} AdditionsFind(watched: seq<Entry>, key: Key)
    requires Distinct(watched)
    ensures EventsOf(Additions(watched), key)
         == match Find(watched, key) { case Some(e) => if Adds(e) then [true] else [] case None => [] }
  {
    hide KeyOf;
    if watched != [] {
      var init, last := watched[..|watched| - 1], watched[|watched| - 1];
      AdditionsFind(init, key);
      assert EventsOf([Event(last.token, true)], key)
          == if KeyOf(last.token) == key then [true] else [];
      EventsOfAppend(Additions(init), if Adds(last) then [Event(last.token, true)] else [], key);
    }
  }

  lemma {:induction false} RemovalsKind(watched: seq<Entry>)
    ensures forall e :: e in Removals(watched) ==> !e.added
  {
    if watched != [] { RemovalsKind(watched[..|watched| - 1]); }
  }

  lemma {:induction false} AdditionsKind(watched: seq<Entry>)
    ensures forall e :: e in Additions(watched) ==> e.added
  {
    if watched != [] { AdditionsKind(watched[..|watched| - 1]); }
  }

  lemma PollFind(watched: seq<Entry>, now: seq<Token>, key: Key)
    requires Valid(watched)
    ensures var (w, events) := Poll(watched, now);
            var d, seen := Seen(watched, key), Lists(now, key);
            && Distinct(w)
            && (Find(w, key).Some? ==> Settled(Find(w, key).value))
            && Seen(w, key) == Observe(d, seen)
            && EventsOf(events, key) == if Fires(d, seen) then [seen] else []
  {
    var added := AddFresh(watched, now);
    AddFreshFind(watched, now, key);
    FindIsWatches(added, key);
    CountFind(added, now, key);
    var counted := Count(added, now);
    FindIsWatches(counted, key);
    RemovedFind(counted, key);
    KeptFind(Removed(counted), now, key);
    AdditionsFind(Removed(counted), key);
    EventsOfAppend(Removals(counted), Additions(Removed(counted)), key);
  }

  lemma RemovalsFirst(watched: seq<Entry>, now: seq<Token>)
    ensures var events := Poll(watched, now).1;
            forall i, j :: 0 <= i < j < |events| && events[i].added ==> events[j].added
  {
    var counted := Count(AddFresh(watched, now), now);
    var removals, additions := Removals(counted), Additions(Removed(counted));
    hide Removals, Additions, Count, Removed, AddFresh;
    RemovalsKind(counted);
    AdditionsKind(Removed(counted));
    var events := Poll(watched, now).1;
    forall i, j | 0 <= i < j < |events| && events[i].added ensures events[j].added {
      if j >= |removals| {
        assert events[j] == additions[j - |removals|];
      }
    }
  }

  /** One poll of the shared list is one observation of every class on its own,
      and reports removals before additions. */
  lemma PollRefines(watched: seq<Entry>, now: seq<Token>)
    requires Valid(watched)
    ensures var (w, events) := Poll(watched, now);
            && Valid(w)
            && (forall key :: Seen(w, key) == Observe(Seen(watched, key), Lists(now, key)))
            && (forall key :: EventsOf(events, key)
                  == if Fires(Seen(watched, key), Lists(now, key)) then [Lists(now, key)] else [])
            && forall i, j :: 0 <= i < j < |events| && events[i].added ==> events[j].added
  {
    hide Poll, Find, Distinct, Seen, Settled, Observe, Fires, Lists, EventsOf;
    var (w, events) := Poll(watched, now);
    forall key
      ensures Find(w, key).Some? ==> Settled(Find(w, key).value)
      ensures Seen(w, key) == Observe(Seen(watched, key), Lists(now, key))
      ensures EventsOf(events, key)
           == if Fires(Seen(watched, key), Lists(now, key)) then [Lists(now, key)] else []
    {
      PollFind(watched, now, key);
    }
    PollFind(watched, now, Positional(0, 0, None, None, None));
    RemovalsFirst(watched, now);
  }

  // ----- Whole runs -----

  /** All events of a sequence of polls. */
  function Run(watched: seq<Entry>, observations: seq<seq<Token>>): seq<Event>
    decreases |observations|
  {
    if observations == [] then []
    else
      var (w, events) := Poll(watched, observations[0]);
      events + Run(w, observations[1..])
  }

  function SeenIn(observations: seq<seq<Token>>, key: Key): seq<bool> {
    seq(|observations|, i requires 0 <= i < |observations| => Lists(observations[i], key))
  }

  lemma {:induction false} RunFrom(watched: seq<Entry>, observations: seq<seq<Token>>, key: Key)
    requires Valid(watched)
    ensures EventsOf(Run(watched, observations), key)
         == Reports(Seen(watched, key), SeenIn(observations, key))
    decreases |observations|
  {
    if observations != [] {
      var now, rest := observations[0], observations[1..];
      PollFind(watched, now, key);
      var (w, events) := Poll(watched, now);
      assert Valid(w) by { PollRefines(watched, now); }
      RunFrom(w, rest, key);
      EventsOfAppend(events, Run(w, rest), key);
      var seen := SeenIn(observations, key);
      assert seen[0] == Lists(now, key) && seen[1..] == SeenIn(rest, key);
    }
  }

  ghost predicate ListedOnce(tokens: seq<Token>) {
    forall i, j :: 0 <= i < j < |tokens| ==> KeyOf(tokens[i]) != KeyOf(tokens[j])
  }

  lemma {:induction false} InitialFind(tokens: seq<Token>, key: Key)
    ensures Find(Initial(tokens), key).Some? <==> Lists(tokens, key)
    ensures Find(Initial(tokens), key).Some? ==>
              Find(Initial(tokens), key).value.present && Find(Initial(tokens), key).value.stable == 0
    ensures ListedOnce(tokens) ==> Distinct(Initial(tokens))
  {
    if tokens != [] {
      var init, last := tokens[..|tokens| - 1], tokens[|tokens| - 1];
      InitialFind(init, key);
      InitialFind(init, KeyOf(last));
      ListsInit(tokens, key);
      assert Initial(tokens)[..|tokens| - 1] == Initial(init);
    }
  }

  /** Every run behaves, class by class, as a debouncer that never hears of the
      other readers. */
  ghost predicate Independent(initial: seq<Token>) {
    forall observations: seq<seq<Token>>, key ::
      EventsOf(Run(Initial(initial), observations), key)
      == Reports(Debouncer(Lists(initial, key), 0), SeenIn(observations, key))
  }

  /** For every first listing: the watch is a family of independent debouncers
      exactly when that listing names each class once. */
  lemma IndependentIff(initial: seq<Token>)
    ensures Independent(initial) <==> ListedOnce(initial)
  {
    if ListedOnce(initial) {
      forall observations: seq<seq<Token>>, key
        ensures EventsOf(Run(Initial(initial), observations), key)
             == Reports(Debouncer(Lists(initial, key), 0), SeenIn(observations, key))
      {
        forall k ensures Find(Initial(initial), k).Some? <==> Lists(initial, k)
                 ensures Find(Initial(initial), k).Some? ==> Settled(Find(Initial(initial), k).value) {
          InitialFind(initial, k);
        }
        InitialFind(initial, key);
        RunFrom(Initial(initial), observations, key);
      }
    } else {
      var i, j :| 0 <= i < j < |initial| && KeyOf(initial[i]) == KeyOf(initial[j]);
      DuplicateReportsTwice(initial, i, j);
    }
  }

  /** A class listed twice at first is reported gone twice when it goes. */
  lemma DuplicateReportsTwice(initial: seq<Token>, i: nat, j: nat)
    requires i < j < |initial| && KeyOf(initial[i]) == KeyOf(initial[j])
    ensures var key := KeyOf(initial[i]);
            && |EventsOf(Run(Initial(initial), [[], []]), key)| >= 2
            && |Reports(Debouncer(Lists(initial, key), 0), SeenIn([[], []], key))| == 1
            && !Independent(initial)
  {
    var key := KeyOf(initial[i]);
    assert Lists(initial, key);
    GoneReportedOnce(key);
    GoneInSecondPoll(initial);
    var later := Poll(AllAt(initial, 1), []).1;
    var rest :| later == Gone(initial) + rest;
    EventsOfAppend(Gone(initial), rest, key);
    GoneTwice(initial, i, j);
  }

  lemma GoneReportedOnce(key: Key)
    ensures Reports(Debouncer(true, 0), SeenIn([[], []], key)) == [false]
  {
    var seen := SeenIn([[], []], key);
    assert seen[0] == false && seen[1..] == [false];
    assert Reports(Debouncer(true, 0), seen) == [] + Reports(Debouncer(true, 1), [false]);
    assert [false][1..] == [];
  }

  lemma GoneInSecondPoll(initial: seq<Token>)
    ensures Run(Initial(initial), [[], []]) == Poll(AllAt(initial, 1), []).1
    ensures exists rest :: Poll(AllAt(initial, 1), []).1 == Gone(initial) + rest
  {
    var gone: seq<seq<Token>> := [[], []];
    var w0, w1, w2 := Initial(initial), AllAt(initial, 1), AllAt(initial, 2);
    assert Count(w0, []) == w1 && Count(w1, []) == w2;
    NothingRemoved(w1);
    AllKept(w1);
    assert AddFresh(w0, []) == w0;
    assert Poll(w0, []).0 == Kept(Removed(w1), []) == w1;
    assert Poll(w0, []).1 == Removals(w1) + Additions(Removed(w1)) == [];
    AllRemoved(initial);
    assert Poll(w1, []).1 == Gone(initial) + Additions(Removed(w2));
    assert gone[1..] == [[]] && gone[1..][1..] == [];
    assert Run(w1, gone[1..]) == Poll(w1, []).1 + [];
  }

  function AllAt(tokens: seq<Token>, stable: nat): seq<Entry> {
    seq(|tokens|, i requires 0 <= i < |tokens| => Entry(tokens[i], stable, true))
  }

  function Gone(tokens: seq<Token>): seq<Event> {
    seq(|tokens|, i requires 0 <= i < |tokens| => Event(tokens[i], false))
  }

  lemma {:induction false} NothingRemoved(watched: seq<Entry>)
    requires forall i :: 0 <= i < |watched| ==> watched[i].present && watched[i].stable < DEBOUNCE
    ensures Removals(watched) == [] && Removed(watched) == watched
  {
    if watched != [] { NothingRemoved(watched[..|watched| - 1]); }
  }

  lemma {:induction false} AllKept(watched: seq<Entry>)
    requires forall i :: 0 <= i < |watched| ==> watched[i].present
    ensures Kept(watched, []) == watched && Additions(watched) == []
  {
    if watched != [] {
      AllKept(watched[..|watched| - 1]);
      assert watched == watched[..|watched| - 1] + [watched[|watched| - 1]];
    }
  }

  lemma {:induction false} AllRemoved(tokens: seq<Token>)
    ensures Removals(AllAt(tokens, 2)) == Gone(tokens)
  {
    if tokens != [] {
      var init := tokens[..|tokens| - 1];
      AllRemoved(init);
      assert AllAt(tokens, 2)[..|tokens| - 1] == AllAt(init, 2);
      assert Gone(tokens) == Gone(init) + [Event(tokens[|tokens| - 1], false)];
    }
  }

  lemma GoneTwice(tokens: seq<Token>, i: nat, j: nat)
    requires i < j < |tokens| && KeyOf(tokens[i]) == KeyOf(tokens[j])
    ensures |EventsOf(Gone(tokens), KeyOf(tokens[i]))| >= 2
  {
    var key := KeyOf(tokens[i]);
    var all := Gone(tokens);
    assert all == all[..j] + [all[j]] + all[j + 1..];
    EventsOfAppend(all[..j] + [all[j]], all[j + 1..], key);
    EventsOfAppend(all[..j], [all[j]], key);
    assert all[..j] == all[..i] + [all[i]] + all[i + 1..j];
    EventsOfAppend(all[..i] + [all[i]], all[i + 1..j], key);
    EventsOfAppend(all[..i], [all[i]], key);
    assert EventsOf([all[i]], key) == [false] && EventsOf([all[j]], key) == [false];
  }
}
