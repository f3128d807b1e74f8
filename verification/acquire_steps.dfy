/** What each event does to an acquisition, said of its fields, in every run
    (src/core/acquire.c): token events, the chooser's end and the enumeration's return. */
module AcquisitionSteps {
  import opened Optional
  import opened Tokens
  import opened CandidateFilter
  import opened CandidateChooser
  import opened Acquisition

  lemma RunNext(filter: Filter, forbidden: bool, available: bool, events: seq<Event>, e: Event)
    ensures var a := Run(filter, forbidden, available, events);
            Run(filter, forbidden, available, events + [e]) == Step(a, e) && Good(a)
            && a.filter == filter
  {
    RunGood(filter, forbidden, available, events);
    RunFilter(filter, forbidden, available, events);
    assert (events + [e])[..|events|] == events;
    hide Step, Good;
  }

  // ----- Token events -----

  /** Among these events is the removal of the entry's token. */
  predicate Gone(events: seq<TokenEvent>, entry: Entry) {
    exists e :: e in events && !e.added && SameToken(entry.candidate.token, e.token)
  }

  predicate AnyRemoved(events: seq<TokenEvent>) { exists e :: e in events && !e.added }

  /** After consent: the removal of the chosen token cancels with TokenRemoved, unless
      something cancelled before, and every other event only asks for another listing.
      Nobody has chosen: nothing happens. */
  predicate HandledAfter(a: Acq, t: Acq, events: seq<TokenEvent>) {
    var chosen := a.consent.chosen;
    var rejected := chosen.Some? && !a.stop.cancelled && Gone(events, chosen.value);
    t == a.(stop := if rejected then a.stop.(code := TokenRemoved, cancelled := true) else a.stop,
            again := a.again || (chosen.Some? && |events| > if rejected then 1 else 0))
  }

  /** Before it: a list on show is emptied by a removal and marked as being read by an
      insertion, and the tokens are listed again, at once or when the listing under way
      has returned. */
  predicate HandledBefore(a: Acq, t: Acq, events: seq<TokenEvent>) {
    && t == a.(chooser := t.chooser, enumerating := a.enumerating || events != [],
               again := if a.enumerating then a.again || events != [] else
                        if events != [] then |events| > 1 else a.again)
    && t.chooser.Some? == a.chooser.Some?
    && (a.chooser.Some? ==>
          var c, c' := a.chooser.value, t.chooser.value;
          && c'.choices == (if AnyRemoved(events) then [] else c.choices)
          && c'.reading == (if events == [] then c.reading else events[|events| - 1].added)
          && c'.nextId == c.nextId && c'.cancelIdle == c.cancelIdle
          && (if AnyRemoved(events) || c'.reading != c.reading then c'.revision > c.revision
              else c'.revision >= c.revision))
  }

  lemma {:induction false} StepsAfter(a: Acq, events: seq<TokenEvent>)
    requires a.answer.None? && a.consent.completed
    ensures HandledAfter(a, TokenSteps(a, events), events)
    decreases |events|
  {
    if events != [] {
      var u := TokenStep(a, events[0]);
      OneAfter(a, events[0]);
      hide TokenStep;
      StepsAfter(u, events[1..]);
      if a.consent.chosen.Some? {
        GoneHead(events, a.consent.chosen.value);
      }
      hide Gone;
    }
  }

  lemma OneAfter(a: Acq, e: TokenEvent)
    requires a.answer.None? && a.consent.completed
    ensures HandledAfter(a, TokenStep(a, e), [e])
  {
    if a.consent.chosen.Some? {
      GoneHead([e], a.consent.chosen.value);
    }
    hide SameToken, Noticed;
  }

  lemma GoneHead(events: seq<TokenEvent>, entry: Entry)
    requires events != []
    ensures Gone(events, entry) <==> Gone([events[0]], entry) || Gone(events[1..], entry)
    ensures Gone([events[0]], entry) <==>
              !events[0].added && SameToken(entry.candidate.token, events[0].token)
    ensures !Gone([], entry)
  {
    assert forall e :: e in events <==> e == events[0] || e in events[1..];
    hide SameToken;
    if !events[0].added && SameToken(entry.candidate.token, events[0].token) {
      assert events[0] in [events[0]] && events[0] in events;
    }
  }

  lemma {:induction false} StepsBefore(a: Acq, events: seq<TokenEvent>)
    requires a.answer.None? && !a.consent.completed && (a.chooser.Some? || a.enumerating)
    ensures HandledBefore(a, TokenSteps(a, events), events)
    decreases |events|
  {
    if events != [] {
      var u := TokenStep(a, events[0]);
      OneBefore(a, events[0]);
      hide TokenStep;
      StepsBefore(u, events[1..]);
      assert AnyRemoved(events) <==> !events[0].added || AnyRemoved(events[1..]) by {
        assert forall e :: e in events <==> e == events[0] || e in events[1..];
      }
      assert |events| > 1 ==> events[1..][|events| - 2] == events[|events| - 1];
      hide AnyRemoved;
    }
  }

  lemma OneBefore(a: Acq, e: TokenEvent)
    requires a.answer.None? && !a.consent.completed && (a.chooser.Some? || a.enumerating)
    ensures HandledBefore(a, TokenStep(a, e), [e])
  {
    assert AnyRemoved([e]) <==> !e.added by {
      assert e in [e];
    }
    hide AnyRemoved;
    if a.chooser.Some? {
      NoticedIs(a.chooser.value, e.added);
    }
    hide Updated, Reading;
  }

  lemma NoticedIs(c: Chooser, added: bool)
    ensures var n := Noticed(Some(c), added);
            && n.Some? && n.value.nextId == c.nextId && n.value.cancelIdle == c.cancelIdle
            && n.value.choices == (if added then c.choices else []) && n.value.reading == added
            && (if !added || !c.reading then n.value.revision > c.revision
                else n.value.revision == c.revision)
  {
  }

  /** Handling what is queued: nothing once the acquisition is answered, and what is said
      above while it is not. */
  lemma EventsHandled(filter: Filter, forbidden: bool, available: bool, events: seq<Event>)
    ensures var a := Run(filter, forbidden, available, events);
            var t := Run(filter, forbidden, available, events + [EventsDispatched]);
            var s := a.(queue := []);
            if a.answer.Some? then t == s
            else if a.consent.completed then HandledAfter(s, t, a.queue)
            else HandledBefore(s, t, a.queue)
  {
    var a := Run(filter, forbidden, available, events);
    RunNext(filter, forbidden, available, events, EventsDispatched);
    hide Run;
    DrainIs(a);
    assert Step(a, EventsDispatched) == Drain(a) by { hide Drain, Good; }
    hide Step, Good, HandledAfter, HandledBefore;
  }

  lemma {:induction false} StepsAnswered(a: Acq, events: seq<TokenEvent>)
    requires a.answer.Some?
    ensures TokenSteps(a, events) == a
    decreases |events|
  {
    if events != [] {
      StepsAnswered(a, events[1..]);
    }
  }

  lemma DrainIs(a: Acq)
    requires Good(a)
    ensures var t, s := Drain(a), a.(queue := []);
            if a.answer.Some? then t == s
            else if a.consent.completed then HandledAfter(s, t, a.queue)
            else HandledBefore(s, t, a.queue)
  {
    var s := a.(queue := []);
    hide Core, TokenSteps, HandledAfter, HandledBefore;
    if a.answer.Some? {
      StepsAnswered(s, a.queue);
    } else if a.consent.completed {
      StepsAfter(s, a.queue);
    } else {
      StepsBefore(s, a.queue);
    }
  }

  // ----- The chooser ends -----

  /** How an acquisition is answered once its chooser is gone and no worker is out. A
      grant needs a choice, nothing that cancels it, an open session, and a token that
      can be found again. */
  function Verdict(stop: Stop, chosen: Option<Entry>, error: Code): Code {
    if stop.code != Fine then stop.code
    else if error != Fine then if stop.cancelled then Cancelled else error
    else if chosen.None? || stop.cancelled || stop.intent then Cancelled
    else if stop.closed then NoSuchSession
    else if chosen.value.candidate.token.serial.None? then DeviceError
    else if chosen.value.candidate.token.serial.value == "" then DeviceError
    else Fine
  }

  /** The consent is on record, what was queued has been handled, and the acquisition is
      answered unless an enumeration is still out. */
  ghost predicate ChooserEnded(a: Acq, t: Acq, chosen: Option<Entry>, error: Code) {
    exists r: Acq ::
      && r == a.(chooser := None, queue := [], consent := Consent(true, error, chosen),
                 trace := r.trace)
      && exists u: Acq ::
           && HandledAfter(r, u, a.queue)
           && (if a.enumerating then t == u else Closed(u, t, Verdict(u.stop, chosen, error), chosen))
  }

  /** The answer, and the grant exactly with a success. */
  predicate Closed(u: Acq, t: Acq, code: Code, chosen: Option<Entry>) {
    t == u.(answer := Some(code), granted := if code == Fine then chosen else u.granted,
            trace := t.trace)
  }

  lemma AcceptIs(a: Acq, chosen: Option<Entry>, error: Code)
    requires a.answer.None? && a.granted.None?
    ensures var t := Accept(a, chosen, error);
            if a.enumerating then t == a else Closed(a, t, Verdict(a.stop, chosen, error), chosen)
  {
    if !a.enumerating && error == Fine && a.stop.code == Fine && chosen.Some? && !a.stop.cancelled {
      FinishIs(a, chosen.value);
      hide Finish, Complete, Closed, Verdict;
    } else {
      hide Finish;
    }
  }

  lemma FinishIs(a: Acq, entry: Entry)
    requires a.answer.None? && a.granted.None? && a.stop.code == Fine && !a.stop.cancelled
    ensures Closed(a, Finish(a, entry), Verdict(a.stop, Some(entry), Fine), Some(entry))
  {
  }

  lemma DoneIs(a: Acq, chosen: Option<Entry>, error: Code)
    requires a.answer.None? && a.granted.None? && !a.consent.completed
    ensures ChooserEnded(a, ChooserDone(a, chosen, error), chosen, error)
  {
    var r := Recorded(a, chosen, error);
    var s := r.(queue := []);
    var u := TokenSteps(s, a.queue);
    StepsAfter(s, a.queue);
    assert u == Drain(r) && r.queue == a.queue;
    hide TokenSteps, Accept, Drain, Recorded, Verdict;
    AcceptIs(u, chosen, error);
    assert u.enumerating == a.enumerating && u.answer.None? && u.granted.None?;
    assert s == a.(chooser := None, queue := [], consent := Consent(true, error, chosen), trace := s.trace);
    hide HandledAfter, Closed;
  }

  /** A consent that does not name the revision on show, or names no row of it, is
      ignored; any other ends the chooser with the entry of that row. */
  lemma ConsentAnswered(filter: Filter, forbidden: bool, available: bool, events: seq<Event>,
                        revision: nat, id: nat)
    requires Run(filter, forbidden, available, events).chooser.Some?
    ensures var a := Run(filter, forbidden, available, events);
            var t := Run(filter, forbidden, available, events + [ChoiceMade(revision, id)]);
            var c := a.chooser.value;
            if revision != c.revision || forall k :: 0 <= k < |c.choices| ==> c.choices[k].id != id
            then t == a
            else exists k :: && 0 <= k < |c.choices| && c.choices[k].id == id
                             && ChooserEnded(a, t, Some(c.choices[k].entry), Fine)
  {
    var a := Run(filter, forbidden, available, events);
    RunNext(filter, forbidden, available, events, ChoiceMade(revision, id));
    hide Run;
    var c := a.chooser.value;
    assert !a.consent.completed && a.answer.None? && a.granted.None? && IdsSound(c.choices, c.nextId);
    hide Good;
    assert Step(a, ChoiceMade(revision, id)) == Choose(a, revision, id) by { hide Choose; }
    hide Step;
    var chosen := Chosen(c, revision, id);
    var k := FoundAt(c, revision, id);
    if chosen.Some? {
      FinishEnds(a, Some((revision, id)), chosen, Fine);
    }
    hide ChooserFinish, ChooserEnded, Chosen;
  }

  lemma FoundAt(c: Chooser, revision: nat, id: nat) returns (k: nat)
    requires IdsSound(c.choices, c.nextId)
    ensures Chosen(c, revision, id).None?
            <==> revision != c.revision || forall i :: 0 <= i < |c.choices| ==> c.choices[i].id != id
    ensures Chosen(c, revision, id).Some? ==>
              k < |c.choices| && c.choices[k].id == id
              && Chosen(c, revision, id) == Some(c.choices[k].entry)
  {
    FindIs(c.choices, id);
    k := 0;
    if Chosen(c, revision, id).Some? {
      k :| 0 <= k < |c.choices| && c.choices[k] == Choice(id, Chosen(c, revision, id).value);
    } else {
      forall i | 0 <= i < |c.choices| && revision == c.revision ensures c.choices[i].id != id {
        assert c.choices[i] == Choice(c.choices[i].id, c.choices[i].entry);
      }
    }
  }

  lemma FinishEnds(a: Acq, named: Option<(nat, nat)>, chosen: Option<Entry>, error: Code)
    requires a.chooser.Some? && a.answer.None? && a.granted.None? && !a.consent.completed
    ensures ChooserEnded(a, ChooserFinish(a, named, chosen, error), chosen, error)
  {
    var n := Named(a, named);
    assert n == a.(trace := n.trace);
    DoneIs(n, chosen, error);
    hide ChooserDone, Named;
    NamedEnds(a, n, ChooserDone(n, chosen, error), chosen, error);
  }

  lemma NamedEnds(a: Acq, n: Acq, t: Acq, chosen: Option<Entry>, error: Code)
    requires n == a.(trace := n.trace) && ChooserEnded(n, t, chosen, error)
    ensures ChooserEnded(a, t, chosen, error)
  {
    hide HandledAfter, Closed, Verdict;
  }

  /** A chooser that was closed, that was told to close, or that failed, ends without a
      choice. */
  lemma RefusalAnswered(filter: Filter, forbidden: bool, available: bool, events: seq<Event>,
                        error: Code)
    requires Run(filter, forbidden, available, events).chooser.Some?
    ensures var a := Run(filter, forbidden, available, events);
            && ChooserEnded(a, Run(filter, forbidden, available, events + [ChooserCancelled]), None, Fine)
            && (a.chooser.value.cancelIdle ==>
                  ChooserEnded(a, Run(filter, forbidden, available, events + [ChooserIdle]), None, Fine))
            && (error != Fine ==>
                  ChooserEnded(a, Run(filter, forbidden, available, events + [ChooserFailed(error)]),
                               None, error))
  {
    var a := Run(filter, forbidden, available, events);
    RunNext(filter, forbidden, available, events, ChooserCancelled);
    RunNext(filter, forbidden, available, events, ChooserIdle);
    RunNext(filter, forbidden, available, events, ChooserFailed(error));
    hide Run;
    assert !a.consent.completed && a.answer.None? && a.granted.None?;
    hide Good;
    RefusalSteps(a, error);
    FinishEnds(a, None, None, Fine);
    FinishEnds(a, None, None, error);
    hide Step, ChooserFinish, ChooserEnded;
  }

  lemma RefusalSteps(a: Acq, error: Code)
    requires a.chooser.Some?
    ensures Step(a, ChooserCancelled) == ChooserFinish(a, None, None, Fine)
    ensures a.chooser.value.cancelIdle ==> Step(a, ChooserIdle) == ChooserFinish(a, None, None, Fine)
    ensures error != Fine ==> Step(a, ChooserFailed(error)) == ChooserFinish(a, None, None, error)
  {
    hide ChooserFinish;
  }

  // ----- The enumeration returns -----

  /** An earlier cancellation decides what the acquisition is answered with. */
  predicate AnsweredAs(d: Acq, t: Acq, code: Code) {
    t == d.(enumerating := false, trace := t.trace,
            answer := Some(if d.stop.code != Fine then d.stop.code
                           else if d.stop.cancelled then Cancelled else code))
  }

  /** After consent the choice is looked up in the fresh listing, unless it has been
      cancelled or the tokens have changed again. */
  ghost predicate ListedAfter(d: Acq, t: Acq, listing: Listing) {
    var chosen := d.consent.chosen;
    if chosen.None? || d.stop.code != Fine || d.stop.cancelled then
      AnsweredAs(d, t, if d.consent.error != Fine then d.consent.error else Cancelled)
    else if listing.NotListed? then AnsweredAs(d, t, DeviceError)
    else if d.again then t == d.(again := false)
    else if exists e :: Offered(d.filter, listing.entries, chosen.value, e) then
      if d.stop.closed then AnsweredAs(d, t, NoSuchSession)
      else
        && t.granted.Some? && Offered(d.filter, listing.entries, chosen.value, t.granted.value)
        && t == d.(enumerating := false, trace := t.trace, answer := Some(Fine), granted := t.granted)
    else AnsweredAs(d, t, TokenRemoved)
  }

  /** The listing has an entry for the chosen credential that passes the filter. */
  predicate Offered(f: Filter, entries: seq<Entry>, chosen: Entry, e: Entry) {
    e in entries && Matches(f, e) && SameCandidate(chosen.candidate, e.candidate)
  }

  /** Before consent the listing is shown, unless nobody may or can be asked, or the
      tokens have changed again. A listing that failed closes a chooser that is up. */
  ghost predicate ListedBefore(d: Acq, t: Acq, listing: Listing) {
    if listing.NotListed? then
      if d.chooser.None? then AnsweredAs(d, t, if listing.cancelled then Cancelled else DeviceError)
      else t == d.(enumerating := false, chooser := Some(d.chooser.value.(cancelIdle := true)),
                   stop := d.stop.(cancelled := true,
                                   code := if listing.cancelled then d.stop.code else DeviceError))
    else if d.forbidden then AnsweredAs(d, t, InteractionRequired)
    else if !d.available then AnsweredAs(d, t, NoDisplay)
    else if d.again then t == d.(again := false)
    else
      && t == d.(enumerating := false, chooser := t.chooser) && t.chooser.Some?
      && var c := t.chooser.value;
      && !c.reading && Entries(c.choices) == Apply(d.filter, listing.entries)
      && c.revision == (if d.chooser.Some? then d.chooser.value.revision else 0) + 1
      && c.cancelIdle == if d.chooser.Some? then d.chooser.value.cancelIdle else d.stop.cancelled
  }

  /** The worker's return. `d` is the acquisition with the queued events handled. */
  lemma ListingAnswered(filter: Filter, forbidden: bool, available: bool, events: seq<Event>,
                        listing: Listing)
    requires Run(filter, forbidden, available, events).enumerating
    ensures var d := Run(filter, forbidden, available, events + [EventsDispatched]);
            var t := Run(filter, forbidden, available, events + [EnumerationReturned(listing)]);
            if d.stop.intent && d.chooser.None? then AnsweredAs(d, t, Cancelled)
            else if d.consent.completed then ListedAfter(d, t, listing)
            else ListedBefore(d, t, listing)
  {
    var a := Run(filter, forbidden, available, events);
    RunNext(filter, forbidden, available, events, EventsDispatched);
    RunNext(filter, forbidden, available, events, EnumerationReturned(listing));
    hide Run;
    ReturnStep(a, listing);
    var d := Drain(a);
    DrainedReady(a);
    hide Step, Good, Drain, Returned, ListedAfter, ListedBefore, AnsweredAs;
    ReturnedIs(d, listing);
  }

  lemma ReturnStep(a: Acq, listing: Listing)
    requires a.enumerating
    ensures Step(a, EnumerationReturned(listing)) == Returned(Drain(a).(enumerating := false), listing)
    ensures Step(a, EventsDispatched) == Drain(a)
  {
    hide Returned, Drain;
  }

  /** What the callback of an enumeration finds. */
  ghost predicate Ready(d: Acq) {
    && d.enumerating && d.answer.None? && d.granted.None? && d.queue == []
    && (d.consent.completed ==> d.chooser.None?)
    && (d.consent.chosen.Some? ==> d.consent.error == Fine)
    && (d.chooser.Some? ==>
          && Sound(d.chooser.value) && d.available && !d.forbidden
          && (d.stop.cancelled ==> d.chooser.value.cancelIdle))
  }

  lemma DrainedReady(a: Acq)
    requires Good(a) && a.enumerating
    ensures Ready(Drain(a))
  {
    DrainGood(a);
    hide Drain;
  }

  lemma ReturnedIs(d: Acq, listing: Listing)
    requires Ready(d)
    ensures var t := Returned(d.(enumerating := false), listing);
            if d.stop.intent && d.chooser.None? then AnsweredAs(d, t, Cancelled)
            else if d.consent.completed then ListedAfter(d, t, listing)
            else ListedBefore(d, t, listing)
  {
    hide ListedAfter, ListedBefore, Refreshed;
    if d.stop.intent && d.chooser.None? {
    } else if d.consent.completed {
      RefreshedIs(d, listing);
    } else {
      ShownIs(d, listing);
    }
    hide NothingListed, ShowOrUpdate, Apply;
  }

  lemma RefreshedIs(d: Acq, listing: Listing)
    requires Ready(d) && d.consent.completed && !d.stop.intent
    ensures ListedAfter(d, Refreshed(d.(enumerating := false), listing), listing)
  {
    var s := d.(enumerating := false);
    var t := Refreshed(s, listing);
    var chosen := d.consent.chosen;
    hide Sound, Verdict;
    if chosen.None? || d.stop.code != Fine || d.stop.cancelled {
      DoneAgain(s, chosen);
      AcceptIs(s, chosen, d.consent.error);
      RefusedAs(s, t, chosen);
      hide Accept, ChooserDone, Apply, FirstSame, Closed, AnsweredAs;
    } else if listing.Listed? && !d.again {
      var found := FirstSame(chosen.value.candidate, Apply(d.filter, listing.entries));
      OfferedIs(d.filter, listing.entries, chosen.value);
      DoneAgain(s, found);
      hide ChooserDone, Apply, FirstSame, Offered, Matches;
    }
  }

  lemma RefusedAs(s: Acq, t: Acq, chosen: Option<Entry>)
    requires Closed(s, t, Verdict(s.stop, chosen, s.consent.error), chosen)
    requires chosen.None? || s.stop.code != Fine || s.stop.cancelled
    requires s.granted.None? && !s.enumerating
    ensures AnsweredAs(s, t, if s.consent.error != Fine then s.consent.error else Cancelled)
  {
  }

  lemma OfferedIs(f: Filter, entries: seq<Entry>, chosen: Entry)
    ensures var found := FirstSame(chosen.candidate, Apply(f, entries));
            if found.Some? then
              Offered(f, entries, chosen, found.value) && HasSerial(found.value.candidate.token)
            else forall e :: !Offered(f, entries, chosen, e)
  {
    FirstSameIs(chosen.candidate, Apply(f, entries));
    hide Matches, FirstSame, Apply;
    forall e ensures e in Apply(f, entries) <==> e in entries && Matches(f, e) {
      ApplyMatches(f, entries, e);
    }
  }

  /** With nothing queued and consent on record, the end of the chooser is acceptance. */
  lemma DoneAgain(s: Acq, chosen: Option<Entry>)
    requires s.queue == [] && s.consent.completed && s.chooser.None?
    ensures ChooserDone(s, chosen, s.consent.error) == Accept(s, chosen, s.consent.error)
  {
    assert Recorded(s, chosen, s.consent.error) == s;
  }

  lemma ShownIs(d: Acq, listing: Listing)
    requires Ready(d) && !d.consent.completed && !(d.stop.intent && d.chooser.None?)
    ensures ListedBefore(d, Returned(d.(enumerating := false), listing), listing)
  {
    var s := d.(enumerating := false);
    if listing.Listed? && !d.forbidden && d.available && !d.again {
      var listed := Apply(d.filter, listing.entries);
      var c := if d.chooser.Some? then d.chooser.value else EMPTY;
      UpdatedIs(c, listed);
      assert Returned(s, listing) == ShowOrUpdate(s, listed) by { hide ShowOrUpdate, Apply; }
      hide Returned, Updated, Apply, Entries, Sound;
    } else {
      hide ShowOrUpdate, Apply, Sound, Refreshed, Entries;
    }
  }

  lemma UpdatedIs(c: Chooser, listing: seq<Entry>)
    requires IdsSound(c.choices, c.nextId)
    ensures var n := Updated(c, listing);
            && !n.reading && Entries(n.choices) == listing && n.revision == c.revision + 1
            && n.cancelIdle == c.cancelIdle
  {
    RowsFacts(c.choices, c.nextId, listing);
    EntriesAre(Rows(c.choices, c.nextId, listing).0, listing);
    hide Rows, Entries, IdsSound;
  }

  lemma {:induction false} EntriesAre(rows: seq<Choice>, listing: seq<Entry>)
    requires |rows| == |listing| && forall i :: 0 <= i < |rows| ==> rows[i].entry == listing[i]
    ensures Entries(rows) == listing
  {
  }

  // ----- Stopping -----

  /** Cancelling keeps the first reason and asks a chooser that is up to close; a mark by
      the desktop and the session's end are recorded as such. */
  lemma StopsRecorded(filter: Filter, forbidden: bool, available: bool, events: seq<Event>,
                      code: Code, event: TokenEvent)
    ensures var a := Run(filter, forbidden, available, events);
            code != Fine ==>
              Halted(a, Run(filter, forbidden, available, events + [CancelRun(code)]), code, a.stop.intent,
                     a.stop.closed)
    ensures var a := Run(filter, forbidden, available, events);
            Halted(a, Run(filter, forbidden, available, events + [SessionClosed]), NoSuchSession, true, true)
    ensures var a := Run(filter, forbidden, available, events);
            Run(filter, forbidden, available, events + [Marked]) == a.(stop := a.stop.(intent := true))
    ensures var a := Run(filter, forbidden, available, events);
            var t := Run(filter, forbidden, available, events + [EventQueued(event)]);
            t == a.(queue := a.queue + [event], trace := t.trace)
  {
    var a := Run(filter, forbidden, available, events);
    RunNext(filter, forbidden, available, events, CancelRun(code));
    RunNext(filter, forbidden, available, events, SessionClosed);
    RunNext(filter, forbidden, available, events, Marked);
    RunNext(filter, forbidden, available, events, EventQueued(event));
    hide Run;
    assert a.chooser.Some? && a.stop.cancelled ==> a.chooser.value.cancelIdle;
    hide Good;
    if code != Fine {
      CancelStep(a, code);
    }
    OtherStops(a, event);
    hide Step, Halted;
  }

  lemma CancelStep(a: Acq, code: Code)
    requires code != Fine
    requires a.chooser.Some? && a.stop.cancelled ==> a.chooser.value.cancelIdle
    ensures Halted(a, Step(a, CancelRun(code)), code, a.stop.intent, a.stop.closed)
  {
    assert Step(a, CancelRun(code)) == CancelledBy(a, code) by { hide CancelledBy; }
    hide Step;
    HaltedIs(a, code);
  }

  lemma HaltedIs(a: Acq, code: Code)
    requires a.chooser.Some? && a.stop.cancelled ==> a.chooser.value.cancelIdle
    ensures Halted(a, CancelledBy(a, code), code, a.stop.intent, a.stop.closed)
  {
  }

  lemma OtherStops(a: Acq, event: TokenEvent)
    requires a.chooser.Some? && a.stop.cancelled ==> a.chooser.value.cancelIdle
    ensures Halted(a, Step(a, SessionClosed), NoSuchSession, true, true)
    ensures Step(a, Marked) == a.(stop := a.stop.(intent := true))
    ensures var t := Step(a, EventQueued(event));
            t == a.(queue := a.queue + [event], trace := t.trace)
  {
    var s := a.(stop := a.stop.(intent := true, closed := true));
    HaltedIs(s, NoSuchSession);
    hide CancelledBy;
  }

  predicate Halted(a: Acq, t: Acq, code: Code, intent: bool, closed: bool) {
    if a.answer.Some? then t == a.(stop := a.stop.(intent := intent, closed := closed))
    else
      t == a.(stop := Stop(true, if a.stop.code == Fine then code else a.stop.code, intent, closed),
              chooser := if a.chooser.None? then None
                         else Some(a.chooser.value.(cancelIdle := true)))
  }
}