/** One acquisition (src/core/acquire.c): an enumeration worker, a chooser and token
    events, which arrive through a queue that is drained before anything is accepted
    (src/tokens/discovery.c). */
module Acquisition {
  import opened Optional
  import opened Tokens
  import opened CandidateFilter
  import opened CandidateChooser

  datatype Code =
    | Fine | Cancelled | NoSuchSession | DeviceError | TokenRemoved | InteractionRequired
    | NoDisplay | OtherError

  datatype TokenEvent = TokenEvent(token: Token, added: bool)

  datatype Listing = Listed(entries: seq<Entry>) | NotListed(cancelled: bool)

  /** What the chooser ended with. */
  datatype Consent = Consent(completed: bool, error: Code, chosen: Option<Entry>)

  /** `intent` may be set by another thread before the coordinator hears of it. */
  datatype Stop = Stop(cancelled: bool, code: Code, intent: bool, closed: bool)

  /** History: attempts to answer, the revision and row the consent named, what every
      revision showed, and the token events queued when consent was given or since. */
  datatype Trace = Trace(tries: nat, named: Option<(nat, nat)>, views: map<nat, seq<Choice>>,
                         since: seq<TokenEvent>)

  datatype Acq = Acq(
    filter: Filter, forbidden: bool, available: bool, enumerating: bool, again: bool,
    chooser: Option<Chooser>, consent: Consent, stop: Stop, queue: seq<TokenEvent>,
    answer: Option<Code>, granted: Option<Entry>, trace: Trace)

  function Begin(filter: Filter, forbidden: bool, available: bool): Acq {
    Acq(filter, forbidden, available, true, false, None, Consent(false, Fine, None),
        Stop(false, Fine, false, false), [], None, None, Trace(0, None, map[], []))
  }

  // ----- Answering -----

  function Outcome(stop: Stop, code: Code): Code {
    if stop.code != Fine then stop.code else if stop.cancelled then Cancelled else code
  }

  function Complete(a: Acq, code: Code): Acq {
    a.(answer := if a.answer.Some? then a.answer else Some(Outcome(a.stop, code)),
       trace := a.trace.(tries := a.trace.tries + 1))
  }

  /** Tokens without a serial cannot be found again reliably when the key is used. */
  function Finish(a: Acq, entry: Entry): Acq {
    if a.stop.intent then Complete(a, Cancelled)
    else if a.stop.closed then Complete(a, NoSuchSession)
    else if !HasSerial(entry.candidate.token) then Complete(a, DeviceError)
    else Complete(a.(granted := Some(entry)), Fine)
  }

  // ----- Token events -----

  predicate Removes(e: TokenEvent, entry: Entry) {
    !e.added && SameToken(entry.candidate.token, e.token)
  }

  function Enumerate(a: Acq): Acq { a.(enumerating := true, again := false) }

  /** A removal empties the list on show at once; an insertion marks it as stale. */
  function Noticed(c: Option<Chooser>, added: bool): Option<Chooser> {
    if c.None? then None
    else if added then Some(Reading(c.value, true)) else Some(Updated(c.value, []))
  }

  function TokenStep(a: Acq, e: TokenEvent): Acq {
    if a.answer.Some? then a
    else if a.consent.completed then
      if a.consent.chosen.Some? && Removes(e, a.consent.chosen.value) && !a.stop.cancelled then
        a.(stop := a.stop.(code := TokenRemoved, cancelled := true))
      else if a.consent.chosen.Some? then a.(again := true)
      else a
    else if a.chooser.None? && !a.enumerating then a
    else
      var a1 := a.(chooser := Noticed(a.chooser, e.added));
      if a.enumerating then a1.(again := true) else Enumerate(a1)
  }

  function TokenSteps(a: Acq, events: seq<TokenEvent>): Acq
    decreases events
  {
    if events == [] then a else TokenSteps(TokenStep(a, events[0]), events[1..])
  }

  /** The boundary of acceptance: everything queued before it is handled before it. */
  function Drain(a: Acq): Acq { TokenSteps(a.(queue := []), a.queue) }

  // ----- The chooser ends -----

  /** Recorded before draining, so that a removal can still reject the choice. */
  function Recorded(a: Acq, chosen: Option<Entry>, error: Code): Acq {
    if a.consent.completed then a.(chooser := None)
    else a.(chooser := None, consent := Consent(true, error, chosen))
  }

  function Accept(a: Acq, chosen: Option<Entry>, error: Code): Acq {
    if a.enumerating then a
    else if error != Fine then Complete(a, error)
    else if a.stop.code != Fine then Complete(a, a.stop.code)
    else if chosen.None? || a.stop.cancelled then Complete(a, Cancelled)
    else Finish(a, chosen.value)
  }

  function ChooserDone(a: Acq, chosen: Option<Entry>, error: Code): Acq {
    Accept(Drain(Recorded(a, chosen, error)), chosen, error)
  }

  function Named(a: Acq, named: Option<(nat, nat)>): Acq
    requires a.chooser.Some?
  {
    a.(trace := a.trace.(named := named, views := a.chooser.value.views, since := a.queue))
  }

  function ChooserFinish(a: Acq, named: Option<(nat, nat)>, chosen: Option<Entry>, error: Code): Acq
    requires a.chooser.Some?
  {
    ChooserDone(Named(a, named), chosen, error)
  }

  function Choose(a: Acq, revision: nat, id: nat): Acq
    requires a.chooser.Some?
  {
    var chosen := Chosen(a.chooser.value, revision, id);
    if chosen.None? then a else ChooserFinish(a, Some((revision, id)), chosen, Fine)
  }

  // ----- The enumeration returns -----

  function FirstSame(chosen: Candidate, listing: seq<Entry>): Option<Entry> {
    if listing == [] then None
    else if SameCandidate(chosen, listing[0].candidate) then Some(listing[0])
    else FirstSame(chosen, listing[1..])
  }

  function CancelledChooser(c: Option<Chooser>): Option<Chooser> {
    if c.Some? then Some(c.value.(cancelIdle := true)) else None
  }

  function Stopped(a: Acq): Acq {
    if a.stop.cancelled then a
    else a.(stop := a.stop.(cancelled := true), chooser := CancelledChooser(a.chooser))
  }

  /** After consent: the choice is looked up again in the fresh listing. */
  function Refreshed(a: Acq, listing: Listing): Acq {
    if a.stop.code != Fine || a.consent.chosen.None? || a.stop.cancelled then
      ChooserDone(a, a.consent.chosen, a.consent.error)
    else if listing.NotListed? then Complete(a, DeviceError)
    else if a.again then Enumerate(a)
    else
      var found := FirstSame(a.consent.chosen.value.candidate, Apply(a.filter, listing.entries));
      if found.Some? then ChooserDone(a, found, a.consent.error) else Complete(a, TokenRemoved)
  }

  function NothingListed(a: Acq, cancelled: bool): Acq {
    if a.chooser.Some? then
      Stopped(if cancelled then a else a.(stop := a.stop.(code := DeviceError)))
    else if !cancelled then Complete(a, DeviceError)
    else if a.stop.code != Fine then Complete(a, a.stop.code)
    else Complete(a, Cancelled)
  }

  function Opened(cancelled: bool, entries: seq<Entry>): Chooser {
    Updated(EMPTY, entries).(cancelIdle := cancelled)
  }

  function ShowOrUpdate(a: Acq, entries: seq<Entry>): Acq {
    if a.chooser.Some? then a.(chooser := Some(Updated(a.chooser.value, entries)))
    else a.(chooser := Some(Opened(a.stop.cancelled, entries)))
  }

  function Returned(a: Acq, listing: Listing): Acq {
    if a.stop.intent && a.chooser.None? then Complete(a, Cancelled)
    else if a.consent.completed then Refreshed(a, listing)
    else if listing.NotListed? then NothingListed(a, listing.cancelled)
    else if a.forbidden then Complete(a, InteractionRequired)
    else if !a.available then Complete(a, NoDisplay)
    else if a.again then Enumerate(a)
    else ShowOrUpdate(a, Apply(a.filter, listing.entries))
  }

  /** `enumerating` stays set while events are handled: they may ask for another
      enumeration but must not start one behind this callback. */
  function Enumerated(a: Acq, listing: Listing): Acq {
    Returned(Drain(a).(enumerating := false), listing)
  }

  function CancelledBy(a: Acq, code: Code): Acq {
    if a.answer.Some? then a
    else Stopped(a.(stop := a.stop.(code := if a.stop.code == Fine then code else a.stop.code)))
  }

  // ----- Steps and runs -----

  datatype Event =
    | EnumerationReturned(listing: Listing)
    | ChoiceMade(revision: nat, id: nat)
    | ChooserCancelled
    | ChooserFailed(error: Code)
    | ChooserIdle
    | EventQueued(event: TokenEvent)
    | EventsDispatched
    | CancelRun(code: Code)
    | Marked
    | SessionClosed

  predicate Enabled(a: Acq, e: Event) {
    match e
    case EnumerationReturned(_) => a.enumerating
    case ChoiceMade(_, _) => a.chooser.Some?
    case ChooserCancelled => a.chooser.Some?
    case ChooserFailed(error) => a.chooser.Some? && error != Fine
    case ChooserIdle => a.chooser.Some? && a.chooser.value.cancelIdle
    case CancelRun(code) => code != Fine
    case _ => true
  }

  function Queued(a: Acq, e: TokenEvent): Acq {
    a.(queue := a.queue + [e],
       trace := if a.consent.completed && a.answer.None?
                then a.trace.(since := a.trace.since + [e]) else a.trace)
  }

  function Step(a: Acq, e: Event): Acq {
    if !Enabled(a, e) then a
    else
      match e
      case EnumerationReturned(listing) => Enumerated(a, listing)
      case ChoiceMade(revision, id) => Choose(a, revision, id)
      case ChooserCancelled => ChooserFinish(a, None, None, Fine)
      case ChooserFailed(error) => ChooserFinish(a, None, None, error)
      case ChooserIdle => ChooserFinish(a, None, None, Fine)
      case EventQueued(event) => Queued(a, event)
      case EventsDispatched => Drain(a)
      case CancelRun(code) => CancelledBy(a, code)
      case Marked => a.(stop := a.stop.(intent := true))
      case SessionClosed =>
        CancelledBy(a.(stop := a.stop.(intent := true, closed := true)), NoSuchSession)
  }

  function Run(filter: Filter, forbidden: bool, available: bool, events: seq<Event>): Acq {
    if events == [] then Begin(filter, forbidden, available)
    else Step(Run(filter, forbidden, available, events[..|events| - 1]), events[|events| - 1])
  }

  // ----- What every step keeps -----

  ghost predicate ChooserGood(a: Acq) {
    a.chooser.Some? ==>
      && Sound(a.chooser.value) && a.available && !a.forbidden && !a.consent.completed
      && (a.stop.cancelled ==> a.chooser.value.cancelIdle)
      && (forall c :: c in a.chooser.value.choices ==> Matches(a.filter, c.entry))
  }

  /** The choice is a row of the revision the consent named. */
  predicate ConsentGood(a: Acq) {
    && (!a.consent.completed ==> a.consent.chosen.None? && a.consent.error == Fine)
    && (a.consent.chosen.Some? ==>
          && a.consent.error == Fine && Matches(a.filter, a.consent.chosen.value)
          && a.trace.named.Some?
          && var (revision, id) := a.trace.named.value;
          revision in a.trace.views
          && Choice(id, a.consent.chosen.value) in a.trace.views[revision])
  }

  /** Of the events since consent, `pending` are still to come; if one of the others
      removed the chosen token, the acquisition has been cancelled. */
  ghost predicate SinceGood(a: Acq, pending: seq<TokenEvent>) {
    a.consent.chosen.Some? && a.answer.None? ==>
      && |pending| <= |a.trace.since|
      && a.trace.since[|a.trace.since| - |pending|..] == pending
      && forall i :: 0 <= i < |a.trace.since| - |pending| ==>
           (Removes(a.trace.since[i], a.consent.chosen.value) ==> a.stop.cancelled)
  }

  predicate Kin(chosen: Entry, granted: Entry) {
    granted == chosen || SameCandidate(chosen.candidate, granted.candidate)
  }

  ghost predicate GrantGood(a: Acq) {
    && (a.granted.Some? <==> a.answer == Some(Fine))
    && (a.granted.Some? ==>
          && Matches(a.filter, a.granted.value) && HasSerial(a.granted.value.candidate.token)
          && a.consent.chosen.Some? && Kin(a.consent.chosen.value, a.granted.value)
          && forall e :: e in a.trace.since ==> !Removes(e, a.granted.value))
  }

  ghost predicate Core(a: Acq, pending: seq<TokenEvent>) {
    && ChooserGood(a) && ConsentGood(a) && SinceGood(a, pending) && GrantGood(a)
    && a.trace.tries == (if a.answer.Some? then 1 else 0)
  }

  /** Somebody is at work exactly until the answer. */
  predicate Alive(a: Acq) { a.answer.None? <==> a.enumerating || a.chooser.Some? }

  ghost predicate Good(a: Acq) { Core(a, a.queue) && Alive(a) }

  lemma CompleteGood(a: Acq, code: Code, pending: seq<TokenEvent>)
    requires Core(a, pending) && a.answer.None? && code != Fine
    ensures Core(Complete(a, code), pending) && Complete(a, code).answer.Some?
  {
  }

  /** A removal of the granted token is a removal of the chosen one. */
  lemma KinRemoves(chosen: Entry, granted: Entry, e: TokenEvent)
    requires Kin(chosen, granted) && Removes(e, granted)
    ensures Removes(e, chosen)
  {
    TokenIdentity(chosen.candidate.token, granted.candidate.token, e.token);
  }

  lemma FinishGood(a: Acq, entry: Entry)
    requires Core(a, []) && a.answer.None? && a.consent.chosen.Some? && Matches(a.filter, entry)
    requires Kin(a.consent.chosen.value, entry) && !a.stop.cancelled && a.stop.code == Fine
    ensures Core(Finish(a, entry), []) && Finish(a, entry).answer.Some?
  {
    CompleteGood(a, Cancelled, []);
    CompleteGood(a, NoSuchSession, []);
    CompleteGood(a, DeviceError, []);
    forall e | e in a.trace.since ensures !Removes(e, entry) {
      if Removes(e, entry) {
        KinRemoves(a.consent.chosen.value, entry, e);
      }
    }
  }

  /** Handling token events leaves the consent, the answer and the history alone, and
      keeps the acquisition as alive as it was. */
  predicate Stays(a: Acq, t: Acq) {
    && t.consent == a.consent && t.answer == a.answer && t.granted == a.granted
    && t.trace == a.trace && t.filter == a.filter && t.forbidden == a.forbidden
    && t.available == a.available && t.queue == a.queue && t.chooser.Some? == a.chooser.Some?
    && (a.enumerating ==> t.enumerating)
    && (a.consent.completed ==> t.enumerating == a.enumerating)
    && (a.chooser.None? && !a.enumerating ==> !t.enumerating)
  }

  lemma NoticedGood(f: Filter, c: Chooser, added: bool)
    requires Sound(c) && forall x :: x in c.choices ==> Matches(f, x.entry)
    ensures var n := Noticed(Some(c), added).value;
            Sound(n) && n.cancelIdle == c.cancelIdle
            && forall x :: x in n.choices ==> Matches(f, x.entry)
  {
    RevisionsAreFinal(c, [], true);
  }

  lemma TokenStepSince(a: Acq, pending: seq<TokenEvent>)
    requires SinceGood(a, pending) && ConsentGood(a) && pending != []
    ensures SinceGood(TokenStep(a, pending[0]), pending[1..])
  {
    hide Noticed;
  }

  lemma TokenStepChooser(a: Acq, e: TokenEvent)
    requires ChooserGood(a)
    ensures ChooserGood(TokenStep(a, e))
  {
    if a.chooser.Some? {
      NoticedGood(a.filter, a.chooser.value, e.added);
    }
    hide Sound, Updated, Reading;
  }

  lemma TokenStepStays(a: Acq, e: TokenEvent)
    ensures Stays(a, TokenStep(a, e))
  {
    hide Updated, Reading, Removes;
  }

  /** What nothing but an answer or a consent changes. */
  lemma StaysGood(a: Acq, t: Acq)
    requires Stays(a, t) && ConsentGood(a) && GrantGood(a)
    ensures ConsentGood(t) && GrantGood(t)
  {
    hide Matches, HasSerial, Kin, Removes;
  }

  lemma TokenStepGood(a: Acq, pending: seq<TokenEvent>)
    requires Core(a, pending) && pending != []
    ensures Core(TokenStep(a, pending[0]), pending[1..]) && Stays(a, TokenStep(a, pending[0]))
  {
    TokenStepSince(a, pending);
    TokenStepChooser(a, pending[0]);
    TokenStepStays(a, pending[0]);
    StaysGood(a, TokenStep(a, pending[0]));
    hide ChooserGood, SinceGood, ConsentGood, GrantGood, TokenStep;
  }

  lemma {:induction false} TokenStepsGood(a: Acq, pending: seq<TokenEvent>)
    requires Core(a, pending)
    ensures Core(TokenSteps(a, pending), []) && Stays(a, TokenSteps(a, pending))
    decreases |pending|
  {
    if pending != [] {
      TokenStepGood(a, pending);
      hide Core, TokenStep;
      TokenStepsGood(TokenStep(a, pending[0]), pending[1..]);
    }
  }

  lemma DrainGood(a: Acq)
    requires Core(a, a.queue)
    ensures Core(Drain(a), []) && Stays(a.(queue := []), Drain(a))
  {
    assert Core(a.(queue := []), a.queue);
    hide Core;
    TokenStepsGood(a.(queue := []), a.queue);
  }

  lemma AcceptGood(a: Acq, chosen: Option<Entry>, error: Code)
    requires Core(a, []) && a.queue == [] && a.answer.None? && a.chooser.None?
    requires chosen.Some? ==> a.consent.chosen.Some? && Matches(a.filter, chosen.value)
                              && Kin(a.consent.chosen.value, chosen.value)
    ensures Good(Accept(a, chosen, error))
  {
    hide Core, Finish;
    if !a.enumerating {
      if error != Fine {
        CompleteGood(a, error, []);
      } else if a.stop.code != Fine {
        CompleteGood(a, a.stop.code, []);
      } else if chosen.None? || a.stop.cancelled {
        CompleteGood(a, Cancelled, []);
      } else {
        FinishGood(a, chosen.value);
        FinishKeeps(a, chosen.value);
      }
    }
  }

  lemma FinishKeeps(a: Acq, entry: Entry)
    ensures var t := Finish(a, entry);
            t.queue == a.queue && t.chooser == a.chooser && t.enumerating == a.enumerating
  {
  }

  lemma ChooserDoneGood(a: Acq, chosen: Option<Entry>, error: Code)
    requires Core(Recorded(a, chosen, error), a.queue) && a.answer.None?
    requires var c := Recorded(a, chosen, error).consent;
             chosen.Some? ==> c.chosen.Some? && Matches(a.filter, chosen.value)
                              && Kin(c.chosen.value, chosen.value)
    ensures Good(ChooserDone(a, chosen, error))
  {
    var r := Recorded(a, chosen, error);
    DrainGood(r);
    hide Core, Drain, Accept, Kin;
    AcceptGood(Drain(r), chosen, error);
  }

  lemma ChooserFinishGood(a: Acq, named: Option<(nat, nat)>, chosen: Option<Entry>, error: Code)
    requires Good(a) && a.chooser.Some?
    requires chosen.Some? ==>
               error == Fine && Matches(a.filter, chosen.value) && named.Some?
               && named.value.0 in a.chooser.value.views
               && Choice(named.value.1, chosen.value) in a.chooser.value.views[named.value.0]
    ensures Good(ChooserFinish(a, named, chosen, error))
  {
    var n := Named(a, named);
    assert Core(Recorded(n, chosen, error), n.queue);
    hide Core, ChooserDone;
    ChooserDoneGood(n, chosen, error);
  }

  lemma ChooseGood(a: Acq, revision: nat, id: nat)
    requires Good(a) && a.chooser.Some?
    ensures Good(Choose(a, revision, id))
  {
    var chosen := Chosen(a.chooser.value, revision, id);
    if chosen.Some? {
      ConsentNamesRevision(a.chooser.value, revision, id);
      hide Core, ChooserFinish, Chosen;
      ChooserFinishGood(a, Some((revision, id)), chosen, Fine);
    }
  }

  lemma {:induction false} FirstSameIs(chosen: Candidate, listing: seq<Entry>)
    ensures FirstSame(chosen, listing).Some? ==>
              FirstSame(chosen, listing).value in listing
              && SameCandidate(chosen, FirstSame(chosen, listing).value.candidate)
    ensures FirstSame(chosen, listing).None? ==>
              forall e :: e in listing ==> !SameCandidate(chosen, e.candidate)
  {
    if listing != [] {
      FirstSameIs(chosen, listing[1..]);
      assert forall e :: e in listing <==> e == listing[0] || e in listing[1..];
    }
  }

  lemma RefreshedGood(a: Acq, listing: Listing)
    requires Core(a, []) && a.queue == [] && a.answer.None? && !a.enumerating && a.consent.completed
    ensures Good(Refreshed(a, listing))
  {
    assert a.chooser.None? && Recorded(a, a.consent.chosen, a.consent.error) == a.(chooser := None);
    assert ConsentGood(a);
    hide Core, ChooserDone;
    if a.stop.code != Fine || a.consent.chosen.None? || a.stop.cancelled {
      ChooserDoneGood(a, a.consent.chosen, a.consent.error);
    } else if listing.NotListed? {
      CompleteGood(a, DeviceError, []);
    } else if a.again {
      EnumerateGood(a);
    } else {
      var found := FirstSame(a.consent.chosen.value.candidate, Apply(a.filter, listing.entries));
      FirstSameIs(a.consent.chosen.value.candidate, Apply(a.filter, listing.entries));
      hide FirstSame, Apply;
      if found.Some? {
        ApplyMatches(a.filter, listing.entries, found.value);
        ChooserDoneGood(a, found, a.consent.error);
      } else {
        CompleteGood(a, TokenRemoved, []);
      }
    }
  }

  lemma EnumerateGood(a: Acq)
    requires Core(a, a.queue) && a.answer.None?
    ensures Good(Enumerate(a))
  {
  }

  lemma StoppedStays(a: Acq)
    requires a.answer.None?
    ensures Stays(a, Stopped(a)) && Stopped(a).queue == a.queue && Stopped(a).stop.cancelled
    ensures ChooserGood(a) ==> ChooserGood(Stopped(a))
    ensures SinceGood(a, a.queue) ==> SinceGood(Stopped(a), a.queue)
  {
    CancelledSound(a.chooser);
    hide Sound, Matches, Removes, CancelledChooser;
  }

  lemma StopCodeStays(a: Acq, code: Code)
    ensures var t := a.(stop := a.stop.(code := code));
            && Stays(a, t) && (ChooserGood(a) ==> ChooserGood(t))
            && (SinceGood(a, a.queue) ==> SinceGood(t, a.queue))
  {
    hide Sound, Matches, Removes;
  }

  lemma StoppedCore(a: Acq)
    requires Core(a, a.queue) && a.answer.None?
    ensures Core(Stopped(a), a.queue) && Stays(a, Stopped(a))
  {
    StoppedStays(a);
    StaysGood(a, Stopped(a));
    hide ChooserGood, SinceGood, ConsentGood, GrantGood, Stopped;
  }

  lemma StoppedGood(a: Acq, code: Code)
    requires Core(a, a.queue) && a.answer.None?
    ensures Core(Stopped(a), a.queue) && Core(Stopped(a.(stop := a.stop.(code := code))), a.queue)
    ensures Stays(a, Stopped(a)) && Stays(a, Stopped(a.(stop := a.stop.(code := code))))
  {
    var t := a.(stop := a.stop.(code := code));
    StoppedCore(a);
    StopCodeStays(a, code);
    StaysGood(a, t);
    assert Core(t, t.queue) by { hide ChooserGood, SinceGood, ConsentGood, GrantGood; }
    StoppedCore(t);
    hide Core, Stopped;
  }

  lemma CancelledSound(c: Option<Chooser>)
    ensures var n := CancelledChooser(c);
            && n.Some? == c.Some?
            && (c.Some? ==>
                  && n.value.cancelIdle && n.value.choices == c.value.choices
                  && (Sound(c.value) ==> Sound(n.value)))
  {
    hide IdsSound;
  }

  lemma ShowGood(a: Acq, entries: seq<Entry>)
    requires Core(a, a.queue) && a.answer.None? && a.available && !a.forbidden
    requires !a.consent.completed
    ensures Good(ShowOrUpdate(a, Apply(a.filter, entries)))
  {
    var c := if a.chooser.Some? then a.chooser.value else EMPTY;
    RevisionsAreFinal(c, Apply(a.filter, entries), false);
    RowsMatch(a.filter, c, entries);
    hide Apply, Rows, IdsSound;
  }

  lemma RowsMatch(f: Filter, c: Chooser, entries: seq<Entry>)
    requires IdsSound(c.choices, c.nextId)
    ensures forall x :: x in Rows(c.choices, c.nextId, Apply(f, entries)).0 ==> Matches(f, x.entry)
  {
    RowsFacts(c.choices, c.nextId, Apply(f, entries));
    hide Matches, Apply;
    forall e ensures e in Apply(f, entries) ==> Matches(f, e) { ApplyMatches(f, entries, e); }
  }

  lemma NothingListedGood(a: Acq, cancelled: bool)
    requires Core(a, []) && a.queue == [] && a.answer.None? && !a.enumerating
    ensures Good(NothingListed(a, cancelled))
  {
    StoppedGood(a, DeviceError);
    hide Core, Stopped;
    if a.chooser.None? {
      if !cancelled {
        CompleteGood(a, DeviceError, []);
      } else if a.stop.code != Fine {
        CompleteGood(a, a.stop.code, []);
      } else {
        CompleteGood(a, Cancelled, []);
      }
    }
  }

  lemma ReturnedGood(a: Acq, listing: Listing)
    requires Core(a, []) && a.queue == [] && a.answer.None? && !a.enumerating
    ensures Good(Returned(a, listing))
  {
    assert a.chooser.Some? ==> a.available && !a.forbidden;
    hide Core, Refreshed, NothingListed, ShowOrUpdate;
    if a.stop.intent && a.chooser.None? {
      CompleteGood(a, Cancelled, []);
    } else if a.consent.completed {
      RefreshedGood(a, listing);
    } else if listing.NotListed? {
      NothingListedGood(a, listing.cancelled);
    } else if a.forbidden {
      CompleteGood(a, InteractionRequired, []);
    } else if !a.available {
      CompleteGood(a, NoDisplay, []);
    } else if a.again {
      EnumerateGood(a);
    } else {
      ShowGood(a, listing.entries);
    }
  }

  lemma EnumeratedGood(a: Acq, listing: Listing)
    requires Good(a) && a.enumerating
    ensures Good(Enumerated(a, listing))
  {
    DrainGood(a);
    var d := Drain(a);
    assert Core(d.(enumerating := false), []);
    hide Core, Drain, Returned;
    ReturnedGood(d.(enumerating := false), listing);
  }

  lemma DrainedGood(a: Acq)
    requires Good(a)
    ensures Good(Drain(a))
  {
    DrainGood(a);
    hide Core, Drain;
  }

  lemma QueuedGood(a: Acq, e: TokenEvent)
    requires Good(a)
    ensures Good(Queued(a, e))
  {
    hide Sound;
  }

  lemma CancelledByGood(a: Acq, code: Code)
    requires Good(a)
    ensures Good(CancelledBy(a, code))
  {
    if a.answer.None? {
      StoppedGood(a, if a.stop.code == Fine then code else a.stop.code);
    }
    hide Core, Stopped;
  }

  lemma FlagsGood(a: Acq, closed: bool)
    requires Good(a)
    ensures Good(a.(stop := a.stop.(intent := true, closed := closed)))
  {
    hide Sound;
  }

  lemma StepGood(a: Acq, e: Event)
    requires Good(a)
    ensures Good(Step(a, e))
  {
    FlagsGood(a, true);
    FlagsGood(a, a.stop.closed);
    hide Good, Enumerated, Choose, ChooserFinish, Queued, Drain, CancelledBy;
    if Enabled(a, e) {
      match e
      case EnumerationReturned(listing) => EnumeratedGood(a, listing);
      case ChoiceMade(revision, id) => ChooseGood(a, revision, id);
      case ChooserCancelled => ChooserFinishGood(a, None, None, Fine);
      case ChooserFailed(error) => ChooserFinishGood(a, None, None, error);
      case ChooserIdle => ChooserFinishGood(a, None, None, Fine);
      case EventQueued(event) => QueuedGood(a, event);
      case EventsDispatched => DrainedGood(a);
      case CancelRun(code) => CancelledByGood(a, code);
      case Marked =>
      case SessionClosed =>
        CancelledByGood(a.(stop := a.stop.(intent := true, closed := true)), NoSuchSession);
    }
  }

  // ----- The filter is the request's own -----

  lemma {:induction false} StepsFilter(a: Acq, events: seq<TokenEvent>)
    ensures TokenSteps(a, events).filter == a.filter
    decreases |events|
  {
    if events != [] {
      assert TokenStep(a, events[0]).filter == a.filter by { hide Noticed, Removes; }
      StepsFilter(TokenStep(a, events[0]), events[1..]);
    }
  }

  lemma DrainFilter(a: Acq)
    ensures Drain(a).filter == a.filter
  {
    StepsFilter(a.(queue := []), a.queue);
    hide TokenSteps;
  }

  lemma AcceptFilter(a: Acq, chosen: Option<Entry>, error: Code)
    ensures Accept(a, chosen, error).filter == a.filter
  {
    hide HasSerial, Outcome;
  }

  lemma DoneFilter(a: Acq, chosen: Option<Entry>, error: Code)
    ensures ChooserDone(a, chosen, error).filter == a.filter
  {
    var r := Recorded(a, chosen, error);
    assert r.filter == a.filter;
    DrainFilter(r);
    AcceptFilter(Drain(r), chosen, error);
    hide Drain, Accept, Recorded;
  }

  lemma RefreshedFilter(a: Acq, listing: Listing)
    ensures Refreshed(a, listing).filter == a.filter
  {
    DoneFilter(a, a.consent.chosen, a.consent.error);
    if a.consent.chosen.Some? && listing.Listed? {
      DoneFilter(a, FirstSame(a.consent.chosen.value.candidate, Apply(a.filter, listing.entries)),
                 a.consent.error);
    }
    hide ChooserDone, FirstSame, Apply;
  }

  lemma ListingFilter(a: Acq, cancelled: bool, entries: seq<Entry>)
    ensures NothingListed(a, cancelled).filter == a.filter
    ensures ShowOrUpdate(a, entries).filter == a.filter
  {
    hide CancelledChooser, Updated, Opened, Outcome;
  }

  lemma ReturnedFilter(a: Acq, listing: Listing)
    ensures Returned(a, listing).filter == a.filter
  {
    RefreshedFilter(a, listing);
    match listing
    case Listed(entries) => ListingFilter(a, false, Apply(a.filter, entries));
    case NotListed(cancelled) => ListingFilter(a, cancelled, []);
    hide Refreshed, NothingListed, ShowOrUpdate, Apply, Outcome;
  }

  lemma EnumeratedFilter(a: Acq, listing: Listing)
    ensures Enumerated(a, listing).filter == a.filter
  {
    DrainFilter(a);
    ReturnedFilter(Drain(a).(enumerating := false), listing);
    hide Drain, Returned;
  }

  lemma ChosenFilter(a: Acq, named: Option<(nat, nat)>, chosen: Option<Entry>, error: Code)
    requires a.chooser.Some?
    ensures ChooserFinish(a, named, chosen, error).filter == a.filter
  {
    DoneFilter(Named(a, named), chosen, error);
    hide ChooserDone;
  }

  lemma StepFilter(a: Acq, e: Event)
    ensures Step(a, e).filter == a.filter
  {
    hide ChooserFinish, Drain, Enumerated, CancelledChooser, Chosen;
    if Enabled(a, e) {
      match e
      case EnumerationReturned(listing) => EnumeratedFilter(a, listing);
      case ChoiceMade(revision, id) =>
        ChosenFilter(a, Some((revision, id)), Chosen(a.chooser.value, revision, id), Fine);
      case ChooserCancelled => ChosenFilter(a, None, None, Fine);
      case ChooserFailed(error) => ChosenFilter(a, None, None, error);
      case ChooserIdle => ChosenFilter(a, None, None, Fine);
      case EventsDispatched => DrainFilter(a);
      case _ =>
    }
  }

  lemma {:induction false} RunFilter(filter: Filter, forbidden: bool, available: bool,
                                     events: seq<Event>)
    ensures Run(filter, forbidden, available, events).filter == filter
    decreases |events|
  {
    hide Step;
    if events != [] {
      RunFilter(filter, forbidden, available, events[..|events| - 1]);
      StepFilter(Run(filter, forbidden, available, events[..|events| - 1]), events[|events| - 1]);
    }
  }

  lemma {:induction false} RunGood(filter: Filter, forbidden: bool, available: bool,
                                   events: seq<Event>)
    ensures Good(Run(filter, forbidden, available, events))
    decreases |events|
  {
    if events != [] {
      hide Good, Step;
      RunGood(filter, forbidden, available, events[..|events| - 1]);
      StepGood(Run(filter, forbidden, available, events[..|events| - 1]), events[|events| - 1]);
    }
  }

  // ----- Main results -----

  /** An acquisition is answered once, and only when its enumeration has returned and
      its chooser is gone; until then one of the two is there to carry it on. */
  lemma AnsweredWhenAlone(filter: Filter, forbidden: bool, available: bool, events: seq<Event>)
    ensures var a := Run(filter, forbidden, available, events);
            && a.trace.tries <= 1 && (a.trace.tries == 1 <==> a.answer.Some?)
            && (a.answer.Some? <==> !a.enumerating && a.chooser.None?)
            && (a.chooser.Some? && a.stop.cancelled ==> a.chooser.value.cancelIdle)
  {
    RunGood(filter, forbidden, available, events);
    hide Run;
  }

  /** A grant is made exactly when the answer is success, and then the granted
      candidate passes the filter, can be found again, and is the very entry, or the
      same token, certificate and key as the entry, that the revision named by the
      consent showed under the row it named; and no removal of its token was queued
      when consent was given or between then and the acceptance. */
  lemma GrantIsConsented(filter: Filter, forbidden: bool, available: bool, events: seq<Event>)
    ensures var a := Run(filter, forbidden, available, events);
            && (a.granted.Some? <==> a.answer == Some(Fine))
            && (a.granted.Some? ==>
                  && Matches(filter, a.granted.value) && HasSerial(a.granted.value.candidate.token)
                  && a.trace.named.Some? && a.trace.named.value.0 in a.trace.views
                  && a.consent.chosen.Some?
                  && Choice(a.trace.named.value.1, a.consent.chosen.value)
                     in a.trace.views[a.trace.named.value.0]
                  && (a.granted == a.consent.chosen
                      || SameCandidate(a.consent.chosen.value.candidate, a.granted.value.candidate))
                  && forall e :: e in a.trace.since ==>
                       e.added || !SameToken(a.granted.value.candidate.token, e.token))
  {
    RunGood(filter, forbidden, available, events);
    RunFilter(filter, forbidden, available, events);
    hide Run, Matches;
  }

  lemma AcceptKeeps(a: Acq, chosen: Option<Entry>, error: Code)
    ensures var t := Accept(a, chosen, error);
            t.trace.since == a.trace.since && t.consent == a.consent
  {
  }

  lemma DoneKeeps(a: Acq, chosen: Option<Entry>, error: Code)
    requires Core(Recorded(a, chosen, error), a.queue)
    ensures var t := ChooserDone(a, chosen, error);
            t.trace.since == a.trace.since && t.consent == Recorded(a, chosen, error).consent
  {
    var r := Recorded(a, chosen, error);
    DrainGood(r);
    AcceptKeeps(Drain(r), chosen, error);
    assert r.trace == a.trace;
    hide Core, Drain, Accept, Recorded;
  }

  /** Without consent an enumeration only shows, updates, repeats or gives up. */
  lemma NoConsentNoGrant(a: Acq, listing: Listing)
    requires Good(a) && !a.consent.completed
    ensures Enumerated(a, listing).granted == a.granted
  {
    DrainGood(a);
    hide Core, Drain, Updated, Apply;
  }

  /** What the callback of an enumeration finds once consent has been given. */
  lemma DrainedConsent(a: Acq)
    requires Good(a) && a.consent.completed
    ensures var d := Drain(a).(enumerating := false);
            && Core(d, d.queue) && d.chooser.None? && d.consent == a.consent
            && d.trace == a.trace && d.filter == a.filter && d.queue == []
  {
    DrainGood(a);
    hide Drain, Sound, Matches, Removes, Kin, HasSerial;
  }

  lemma ReturnedConsent(a: Acq, listing: Listing)
    requires a.consent.completed
    ensures Returned(a, listing) == Complete(a, Cancelled) || Returned(a, listing) == Refreshed(a, listing)
    ensures Complete(a, Cancelled).trace.since == a.trace.since
            && Complete(a, Cancelled).consent == a.consent
  {
    hide Refreshed, NothingListed, ShowOrUpdate, Apply, Outcome;
  }

  lemma EnumeratedKeeps(a: Acq, listing: Listing)
    requires Good(a) && a.consent.completed
    ensures var t := Enumerated(a, listing);
            t.trace.since == a.trace.since && t.consent == a.consent
  {
    DrainedConsent(a);
    var d := Drain(a).(enumerating := false);
    hide Core, Drain, ChooserDone, FirstSame, Apply, Refreshed, Returned, Complete;
    var found := if d.consent.chosen.Some? && listing.Listed?
                 then FirstSame(d.consent.chosen.value.candidate, Apply(d.filter, listing.entries))
                 else None;
    assert Recorded(d, d.consent.chosen, d.consent.error) == d == Recorded(d, found, d.consent.error);
    DoneKeeps(d, d.consent.chosen, d.consent.error);
    DoneKeeps(d, found, d.consent.error);
    RefreshedKeeps(d, listing, found);
    ReturnedConsent(d, listing);
    hide Recorded;
  }

  lemma RefreshedKeeps(a: Acq, listing: Listing, found: Option<Entry>)
    requires found == (if a.consent.chosen.Some? && listing.Listed?
                       then FirstSame(a.consent.chosen.value.candidate, Apply(a.filter, listing.entries))
                       else None)
    ensures var t := Refreshed(a, listing);
            && ((t.trace.since == a.trace.since && t.consent == a.consent)
                || t == ChooserDone(a, a.consent.chosen, a.consent.error)
                || t == ChooserDone(a, found, a.consent.error))
  {
    hide ChooserDone, FirstSame, Apply;
  }

  lemma FinishedSince(a: Acq, named: Option<(nat, nat)>, chosen: Option<Entry>, error: Code)
    requires Good(a) && a.chooser.Some?
    requires chosen.Some? ==>
               error == Fine && Matches(a.filter, chosen.value) && named.Some?
               && named.value.0 in a.chooser.value.views
               && Choice(named.value.1, chosen.value) in a.chooser.value.views[named.value.0]
    ensures ChooserFinish(a, named, chosen, error).trace.since == a.queue
  {
    var n := Named(a, named);
    assert Core(Recorded(n, chosen, error), n.queue);
    hide Core, ChooserDone;
    DoneKeeps(n, chosen, error);
  }

  lemma ChooseSince(a: Acq, revision: nat, id: nat)
    requires Good(a) && a.chooser.Some? && Chosen(a.chooser.value, revision, id).Some?
    ensures Choose(a, revision, id).trace.since == a.queue
  {
    ConsentNamesRevision(a.chooser.value, revision, id);
    hide Core, ChooserFinish, Chosen;
    FinishedSince(a, Some((revision, id)), Chosen(a.chooser.value, revision, id), Fine);
  }

  lemma QuietKeeps(a: Acq, e: Event)
    requires Good(a)
    requires e.EventQueued? || e.EventsDispatched? || e.CancelRun? || e.Marked? || e.SessionClosed?
    ensures Step(a, e).granted == a.granted
  {
    DrainGood(a);
    hide Core, Drain, CancelledChooser;
  }

  /** A grant made in a step is made in spite of no removal that had been queued before
      the step: the drain that precedes acceptance sees them all. */
  lemma RemovalBeatsAcceptance(a: Acq, e: Event)
    requires Good(a) && a.granted.None? && Step(a, e).granted.Some?
    ensures forall ev :: ev in a.queue ==>
              ev.added || !SameToken(Step(a, e).granted.value.candidate.token, ev.token)
  {
    StepGood(a, e);
    assert forall ev :: Removes(ev, Step(a, e).granted.value)
                        <==> !ev.added && SameToken(Step(a, e).granted.value.candidate.token, ev.token);
    var t := Step(a, e);
    assert t.consent.chosen.Some? && forall ev :: ev in t.trace.since ==> !Removes(ev, t.granted.value);
    if e.EventQueued? || e.EventsDispatched? || e.CancelRun? || e.Marked? || e.SessionClosed? {
      QuietKeeps(a, e);
    } else {
      assert a.answer.None? && (a.consent.completed ==> a.chooser.None?) && SinceGood(a, a.queue);
      hide Good, Enumerated, Choose, ChooserFinish, Removes;
      match e
      case EnumerationReturned(listing) =>
        if a.consent.completed {
          EnumeratedKeeps(a, listing);
          assert forall ev :: ev in a.queue ==> ev in a.trace.since;
        } else {
          NoConsentNoGrant(a, listing);
        }
      case ChoiceMade(revision, id) => ChoiceSince(a, revision, id);
      case ChooserCancelled => FinishedSince(a, None, None, Fine);
      case ChooserFailed(error) => FinishedSince(a, None, None, error);
      case ChooserIdle => FinishedSince(a, None, None, Fine);
    }
  }

  lemma ChoiceSince(a: Acq, revision: nat, id: nat)
    requires Good(a) && a.chooser.Some?
    ensures Choose(a, revision, id) == a || Choose(a, revision, id).trace.since == a.queue
  {
    if Chosen(a.chooser.value, revision, id).Some? {
      ChooseSince(a, revision, id);
    }
  }
}
