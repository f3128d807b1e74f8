/** What every step of the shared login keeps (src/broker/operations.c). */
module LoginBrokerInvariant {
  import opened Optional
  import opened TokenDevice
  import Pin = PinPrompts
  import opened LoginBroker

  /** The waiters still to be resumed, the newest generation at which one of them
      may have been opened, when the cancellation of their login began, and whether
      everyone who waited for it then has left. */
  datatype Queue = Queue(ids: seq<nat>, newest: nat, began: Option<nat>, abandoned: bool)

  predicate Waits(o: Op, q: Queue, clock: nat) {
    && o.connected && (o.cancelled ==> o.cancelIdle)
    && o.trace.joinedAt < clock && o.openGen <= q.newest
    && (o.retryLogin <==> q.began.Some? && q.began.value < o.trace.joinedAt)
    && (q.abandoned ==> o.retryLogin)
  }

  predicate Idles(o: Op) {
    !o.connected && !o.cancelIdle && (o.answer.None? ==> !o.retryLogin)
  }

  /** One open, one more for a state that did not settle, and one for every login
      generation the operation has caught up with. */
  predicate Bounded(o: Op, generation: nat) {
    && o.trace.startGen <= o.openGen <= generation
    && o.trace.opens <= 1 + (if o.retriedOpen then 1 else 0) + o.openGen - o.trace.startGen
  }

  predicate OpGood(o: Op, opening: nat, signing: nat, waiting: nat, generation: nat, q: Queue,
                   clock: nat) {
    && opening + signing + waiting + (if o.answer.Some? then 1 else 0) == 1
    && o.trace.tries == (if o.answer.Some? then 1 else 0)
    && Bounded(o, generation)
    && (if waiting == 1 then Waits(o, q, clock) else Idles(o))
  }

  ghost predicate OpAt(s: State, q: Queue, id: nat) {
    if id in s.ops then
      && id < s.next
      && OpGood(s.ops[id], s.opening[id], s.signing[id], multiset(q.ids)[id],
                s.login.generation, q, s.clock)
    else s.opening[id] == 0 && s.signing[id] == 0 && multiset(q.ids)[id] == 0
  }

  /** The operation lock is held by a task whose worker has not returned, and the
      device of a closed session is free or about to be released. */
  ghost predicate WorkersGood(s: State) {
    && Sound(s.device) && (s.closed && s.device.session.Some? ==> s.releases > 0)
    && (s.signer.Some? ==>
          var id := s.signer.value.0;
          id in s.ops && s.signing[id] > 0 && s.ops[id].signResult.None?)
  }

  ghost predicate Core(s: State, q: Queue) {
    (forall id :: OpAt(s, q, id)) && WorkersGood(s)
  }

  predicate InteractionGood(i: Interaction, waiters: seq<nat>, cancelled: bool, clock: nat,
                            d: Device) {
    && (i.began.Some? <==> cancelled || i.deferring)
    && (i.began.Some? ==> i.began.value < clock)
    && (waiters == [] ==> cancelled)
    && (i.performed.Some? ==> i.performed.value < d.issued && i.succeeded)
    && (i.releasing ==> cancelled && i.performed.Some? && i.outcome != Pin.Ok)
    && (i.released ==> i.releasing && i.performed.value in d.closed)
  }

  predicate LoginGood(l: Login, clock: nat, d: Device) {
    && l.inProgress == l.waiters.Some? == l.cancellable.Some? == l.interaction.Some?
    && (l.inProgress ==>
          InteractionGood(l.interaction.value, l.waiters.value, l.cancellable.value, clock, d))
  }

  function Began(l: Login): Option<nat> {
    if l.interaction.Some? then l.interaction.value.began else None
  }

  /** Only the last waiter to leave cancels a prompt that is still up. */
  predicate Abandoned(l: Login) {
    l.cancellable == Some(true) && l.interaction.Some? && !l.interaction.value.releasing
  }

  function QueueOf(l: Login): Queue { Queue(Waiters(l), l.generation, Began(l), Abandoned(l)) }

  ghost predicate Consistent(s: State) {
    && Core(s, QueueOf(s.login)) && LoginGood(s.login, s.clock, s.device)
    && s.decrypts <= MAX_DECRYPTS
  }

  // ----- One operation between two places -----

  /** `id` has been taken from its place and not put anywhere yet. */
  ghost predicate Loose(s: State, q: Queue, id: nat) {
    && (forall x :: x != id ==> OpAt(s, q, x))
    && id in s.ops && id < s.next && WorkersGood(s)
    && s.opening[id] == 0 && s.signing[id] == 0 && multiset(q.ids)[id] == 0
    && OpGood(s.ops[id], 1, 0, 0, s.login.generation, q, s.clock)
  }

  lemma FailGood(s: State, q: Queue, id: nat, answer: Answered)
    requires Loose(s, q, id)
    ensures Core(Put(s, id, Respond(s.ops[id], answer)), q)
  {
    var t := Put(s, id, Respond(s.ops[id], answer));
    assert OpAt(t, q, id);
    hide OpGood;
    forall x | x != id ensures OpAt(t, q, x) { assert OpAt(s, q, x); }
  }

  lemma RunGood(s: State, q: Queue, id: nat)
    requires Loose(s, q, id)
    ensures Core(RunOperation(s, id), q)
  {
    var t := RunOperation(s, id);
    assert OpAt(t, q, id);
    hide OpGood;
    forall x | x != id ensures OpAt(t, q, x) { assert OpAt(s, q, x); }
  }

  lemma OpenGood(s: State, q: Queue, id: nat)
    requires Loose(s, q, id) && Bounded(Reopened(s.ops[id], s.login.generation), s.login.generation)
    ensures Core(OpenOperation(s, id), q) && SameLogin(s, OpenOperation(s, id))
  {
    var t := OpenOperation(s, id);
    assert OpAt(t, q, id);
    hide OpGood, Bounded, Reopened;
    forall x | x != id ensures OpAt(t, q, x) { assert OpAt(s, q, x); }
  }

  lemma StruckGood(o: Op, opening: nat, signing: nat, waiting: nat, generation: nat, q: Queue,
                   clock: nat)
    requires OpGood(o, opening, signing, waiting, generation, q, clock)
    ensures OpGood(Struck(o), opening, signing, waiting, generation, q, clock)
    ensures OpGood(CancelledOp(o), opening, signing, waiting, generation, q, clock)
    ensures Struck(o).signResult == o.signResult == CancelledOp(o).signResult
    ensures Struck(o).trace == o.trace && Struck(o).openGen == o.openGen
    ensures Struck(o).answer == o.answer && Struck(o).retryLogin == o.retryLogin
  {
  }

  lemma CloseAt(s: State, q: Queue, id: nat)
    requires OpAt(s, q, id)
    ensures OpAt(CloseSession(s), q, id)
  {
    if id in s.ops {
      StruckGood(s.ops[id], s.opening[id], s.signing[id], multiset(q.ids)[id],
                 s.login.generation, q, s.clock);
    }
    hide OpGood, Struck;
  }

  lemma CloseWorkers(s: State)
    requires WorkersGood(s)
    ensures WorkersGood(CloseSession(s))
  {
    hide Sound;
  }

  lemma CloseGood(s: State, q: Queue)
    requires Core(s, q)
    ensures Core(CloseSession(s), q)
  {
    CloseWorkers(s);
    hide OpAt, WorkersGood, CloseSession;
    forall x ensures OpAt(CloseSession(s), q, x) { CloseAt(s, q, x); }
  }

  lemma CloseLoose(s: State, q: Queue, id: nat)
    requires Loose(s, q, id)
    ensures Loose(CloseSession(s), q, id)
  {
    CloseWorkers(s);
    StruckGood(s.ops[id], 1, 0, 0, s.login.generation, q, s.clock);
    forall x | x != id ensures OpAt(CloseSession(s), q, x) { hide *; CloseAt(s, q, x); }
    hide OpGood, WorkersGood, OpAt, Struck;
  }

  lemma ApplyGood(s: State, q: Queue, id: nat, outcome: Pin.Outcome)
    requires Loose(s, q, id)
    ensures Core(ApplyOutcome(s, id, outcome), q) && SameLogin(s, ApplyOutcome(s, id, outcome))
  {
    CloseLoose(s, q, id);
    assert id in s.ops && id in CloseSession(s).ops && SameLogin(s, CloseSession(s));
    hide Loose, Core, CloseSession, Respond;
    if s.ops[id].cancelled {
      FailGood(s, q, id, Failure(RequestCancelled));
    } else if outcome == Pin.Ok {
      RunGood(s, q, id);
    } else if outcome == Pin.TokenRemoved {
      FailGood(CloseSession(s), q, id, Failure(LoginEnded(outcome)));
    } else {
      FailGood(s, q, id, Failure(LoginEnded(outcome)));
    }
  }

  // ----- Resuming the waiters -----

  predicate SameLogin(s: State, t: State) {
    t.login == s.login && t.device == s.device && t.clock == s.clock && t.decrypts == s.decrypts
  }

  lemma TakeHead(ids: seq<nat>)
    requires ids != []
    ensures multiset(ids) == multiset{ids[0]} + multiset(ids[1..])
  {
    assert ids == [ids[0]] + ids[1..];
  }

  /** Off the list, its cancellation no longer watched. */
  lemma HeadLoose(s: State, q: Queue, o: Op)
    requires Core(s, q) && q.ids != [] && q.ids[0] in s.ops
    requires o == Detached(s.ops[q.ids[0]]).(retryLogin := false)
             || (o == Detached(s.ops[q.ids[0]]) && !o.retryLogin)
    ensures Loose(Put(s, q.ids[0], o), q.(ids := q.ids[1..]), q.ids[0])
    ensures o.openGen <= q.newest && Bounded(o, s.login.generation)
  {
    var id, rest := q.ids[0], q.(ids := q.ids[1..]);
    TakeHead(q.ids);
    assert OpAt(s, q, id);
    var t := Put(s, id, o);
    forall x | x != id ensures OpAt(t, rest, x) { hide Bounded; assert OpAt(s, q, x); }
  }

  lemma HeadKnown(s: State, q: Queue)
    requires Core(s, q) && q.ids != []
    ensures q.ids[0] in s.ops
  {
    assert OpAt(s, q, q.ids[0]);
  }

  lemma RetryGood(s: State, q: Queue)
    requires Core(s, q) && q.ids != [] && q.newest < s.login.generation
    requires q.ids[0] in s.ops
    ensures var o := Detached(s.ops[q.ids[0]]).(retryLogin := false);
            var t := OpenOperation(Put(s, q.ids[0], o), q.ids[0]);
            Core(t, q.(ids := q.ids[1..])) && SameLogin(s, t)
  {
    var o := Detached(s.ops[q.ids[0]]).(retryLogin := false);
    HeadLoose(s, q, o);
    hide Core, Loose, OpenOperation, Detached;
    OpenGood(Put(s, q.ids[0], o), q.(ids := q.ids[1..]), q.ids[0]);
  }

  lemma GivenGood(s: State, q: Queue, outcome: Pin.Outcome)
    requires Core(s, q) && q.ids != [] && q.ids[0] in s.ops
    requires !Detached(s.ops[q.ids[0]]).retryLogin
    ensures var t := ApplyOutcome(Put(s, q.ids[0], Detached(s.ops[q.ids[0]])), q.ids[0], outcome);
            Core(t, q.(ids := q.ids[1..])) && SameLogin(s, t)
  {
    var o := Detached(s.ops[q.ids[0]]);
    HeadLoose(s, q, o);
    hide Core, Loose, ApplyOutcome, Detached;
    ApplyGood(Put(s, q.ids[0], o), q.(ids := q.ids[1..]), q.ids[0], outcome);
  }

  lemma ResumeOneGood(s: State, q: Queue, outcome: Pin.Outcome)
    requires Core(s, q) && q.ids != [] && q.newest < s.login.generation
    ensures q.ids[0] in s.ops
    ensures var t := ResumeOne(s, q.ids[0], outcome);
            Core(t, q.(ids := q.ids[1..])) && SameLogin(s, t)
  {
    HeadKnown(s, q);
    hide Core, SameLogin, OpenOperation, ApplyOutcome, Detached, Put;
    if Detached(s.ops[q.ids[0]]).retryLogin {
      RetryGood(s, q);
    } else {
      GivenGood(s, q, outcome);
    }
  }

  lemma {:induction false} ResumeGood(s: State, q: Queue, outcome: Pin.Outcome)
    requires Core(s, q) && q.newest < s.login.generation
    ensures var t := Resume(s, q.ids, outcome);
            Core(t, q.(ids := [])) && SameLogin(s, t)
    decreases |q.ids|
  {
    if q.ids != [] {
      ResumeOneGood(s, q, outcome);
      hide Core, ResumeOne;
      ResumeGood(ResumeOne(s, q.ids[0], outcome), q.(ids := q.ids[1..]), outcome);
    }
  }

  /** With nobody waiting the rest of the queue does not matter. */
  lemma NobodyWaits(s: State, q: Queue, q': Queue)
    requires Core(s, q) && q.ids == [] == q'.ids
    ensures Core(s, q')
  {
    forall x ensures OpAt(s, q', x) { assert OpAt(s, q, x); }
  }

  lemma OverGood(s: State)
    requires Core(s, QueueOf(s.login))
    ensures Core(s.(login := Over(s.login)), QueueOf(s.login))
  {
    var t := s.(login := Over(s.login));
    forall x ensures OpAt(t, QueueOf(s.login), x) { assert OpAt(s, QueueOf(s.login), x); }
  }

  lemma FinishGood(s: State, outcome: Pin.Outcome)
    requires Core(s, QueueOf(s.login)) && s.decrypts <= MAX_DECRYPTS
    ensures Consistent(FinishLogin(s, outcome))
    ensures SameLogin(s.(login := Over(s.login)), FinishLogin(s, outcome))
  {
    OverGood(s);
    hide Core, Resume;
    var t := FinishLogin(s, outcome);
    ResumeGood(s.(login := Over(s.login)), QueueOf(s.login), outcome);
    NobodyWaits(t, QueueOf(s.login).(ids := []), QueueOf(t.login));
  }

  // ----- Every step -----

  /** Time passes, and with nobody having joined since, `began` may be set now. */
  lemma ClockGood(s: State, t: State, q: Queue, q': Queue)
    requires Core(s, q) && t.ops == s.ops && t.opening == s.opening && t.signing == s.signing
    requires t.login.generation == s.login.generation && t.clock == s.clock + 1
    requires t.next == s.next && WorkersGood(t) && q'.ids == q.ids && q'.newest == q.newest
    requires q'.began == q.began || (q.began.None? && q'.began == Some(s.clock))
    requires q'.abandoned ==> q.abandoned
    ensures Core(t, q')
  {
    forall x ensures OpAt(t, q', x) { assert OpAt(s, q, x); }
  }

  lemma PinDoneGood(s: State, outcome: Pin.Outcome)
    requires Consistent(s) && Prompting(s)
    ensures Consistent(PinDone(s, outcome))
  {
    var settled := Settled(s.login, outcome);
    if settled != Pin.Ok && s.login.interaction.value.performed.Some? {
      var t := PinDone(s, outcome);
      assert WorkersGood(t);
      ClockGood(s, t, QueueOf(s.login), QueueOf(t.login));
    } else {
      FinishGood(s, settled);
    }
  }

  lemma JoinGood(s: State, id: nat)
    requires Loose(s, QueueOf(s.login), id) && LoginGood(s.login, s.clock, s.device)
    requires s.decrypts <= MAX_DECRYPTS
    requires s.login.inProgress && !s.ops[id].cancelled
    ensures Consistent(Join(s, id))
  {
    var q, t := QueueOf(s.login), Join(s, id);
    assert OpAt(t, QueueOf(t.login), id);
    forall x | x != id ensures OpAt(t, QueueOf(t.login), x) { assert OpAt(s, q, x); }
  }

  lemma StartLoginGood(s: State, id: nat, display: bool)
    requires Loose(s, QueueOf(s.login), id) && LoginGood(s.login, s.clock, s.device)
    requires s.decrypts <= MAX_DECRYPTS
    requires !s.login.inProgress && !s.ops[id].cancelled
    ensures Consistent(StartLogin(s, id, display))
  {
    var q, t := QueueOf(s.login), StartLogin(s, id, true);
    assert OpAt(t, QueueOf(t.login), id);
    forall x | x != id ensures OpAt(t, QueueOf(t.login), x) { assert OpAt(s, q, x); }
    assert Prompting(t);
    hide Consistent, PinDone;
    assert Consistent(t) by { assert LoginGood(t.login, t.clock, t.device); }
    PinDoneGood(t, Pin.NoDisplay);
  }

  lemma OpeningLoose(s: State, id: nat)
    requires Consistent(s) && id in s.ops && s.opening[id] > 0
    ensures Loose(s.(opening := s.opening - multiset{id}), QueueOf(s.login), id)
    ensures Bounded(s.ops[id], s.login.generation)
  {
    var q, t := QueueOf(s.login), s.(opening := s.opening - multiset{id});
    assert OpAt(s, q, id);
    forall x | x != id ensures OpAt(t, q, x) { hide OpGood; assert OpAt(s, q, x); }
  }

  lemma SigningLoose(s: State, id: nat)
    requires Consistent(s) && id in s.ops && s.signing[id] > 0 && s.ops[id].signResult.Some?
    ensures Loose(s.(signing := s.signing - multiset{id}), QueueOf(s.login), id)
    ensures Bounded(s.ops[id], s.login.generation)
  {
    var q, t := QueueOf(s.login), s.(signing := s.signing - multiset{id});
    assert OpAt(s, q, id);
    forall x | x != id ensures OpAt(t, q, x) { hide OpGood; assert OpAt(s, q, x); }
  }

  lemma FailByTokenGood(s: State, q: Queue, id: nat, reason: Reason)
    requires Loose(s, q, id)
    ensures Core(FailByToken(s, id, reason), q)
    ensures SameLogin(s, FailByToken(s, id, reason))
  {
    CloseLoose(s, q, id);
    assert id in s.ops && id in CloseSession(s).ops && SameLogin(s, CloseSession(s));
    hide Loose, Core, CloseSession, Respond;
    if reason == ByToken(true) {
      FailGood(CloseSession(s), q, id, Failure(reason));
    } else {
      FailGood(s, q, id, Failure(reason));
    }
  }

  lemma OnOpenedGood(s: State, id: nat, display: bool)
    requires Consistent(s) && Enabled(s, OpenReturned(id, display))
    ensures Consistent(OnOpened(s, id, display))
  {
    OpeningLoose(s, id);
    var q, s1 := QueueOf(s.login), s.(opening := s.opening - multiset{id});
    hide Loose, Core, LoginGood, FailByToken, Proceed, Respond, Sound;
    var o := s.ops[id];
    if o.cancelled {
      FailGood(s1, q, id, Failure(RequestCancelled));
    } else if o.openResult.value.OpenFailed? {
      FailByTokenGood(s1, q, id, o.openResult.value.reason);
    } else if Unauthorised(s, false).Some? {
      FailGood(s1, q, id, Failure(Unauthorised(s, false).value));
    } else {
      ProceedGood(s1, id, o.openResult.value.needsLogin, display);
    }
  }

  lemma ProceedGood(s: State, id: nat, needsLogin: bool, display: bool)
    requires Loose(s, QueueOf(s.login), id) && LoginGood(s.login, s.clock, s.device)
    requires s.decrypts <= MAX_DECRYPTS
    requires Bounded(s.ops[id], s.login.generation) && !s.ops[id].cancelled
    ensures Consistent(Proceed(s, id, needsLogin, display))
  {
    hide Core, LoginGood, Join, StartLogin, RunOperation, OpenOperation;
    if s.login.inProgress {
      JoinGood(s, id);
    } else if needsLogin && s.ops[id].openGen != s.login.generation {
      OpenGood(s, QueueOf(s.login), id);
    } else if needsLogin {
      StartLoginGood(s, id, display);
    } else {
      RunGood(s, QueueOf(s.login), id);
      RunKeeps(s, id);
    }
  }

  lemma RunKeeps(s: State, id: nat)
    requires id in s.ops
    ensures SameLogin(s, RunOperation(s, id))
  {
  }

  lemma OnSignedGood(s: State, id: nat, encodes: bool)
    requires Consistent(s) && Enabled(s, SignReturned(id, encodes))
    ensures Consistent(OnSigned(s, id, encodes))
  {
    SigningLoose(s, id);
    var q, s1 := QueueOf(s.login), s.(signing := s.signing - multiset{id});
    var o := s.ops[id];
    if !o.cancelled && o.signResult.value.Stale? && !o.retriedOpen {
      SettleGood(s1, id);
    }
    hide Loose, Core, LoginGood, FailByToken, ApplyOutcome, OpenOperation, Respond, Sound, Retried;
    if o.cancelled {
      FailGood(s1, q, id, Failure(RequestCancelled));
    } else {
      match o.signResult.value
      case Stale =>
        if o.retriedOpen {
          FailGood(s1, q, id, Failure(NotSettled));
        }
      case SignFailed(reason) =>
        if o.context != Pin.Ok {
          ApplyGood(s1, q, id, o.context);
        } else {
          FailByTokenGood(s1, q, id, reason);
        }
      case Produced =>
        FailGood(s1, q, id, if encodes then Success else Failure(NotEncodable));
    }
  }

  lemma SettleGood(s: State, id: nat)
    requires Loose(s, QueueOf(s.login), id) && Bounded(s.ops[id], s.login.generation)
    requires !s.ops[id].retriedOpen
    ensures var t := OpenOperation(Put(s, id, Retried(s.ops[id])), id);
            Core(t, QueueOf(s.login)) && SameLogin(s, t)
  {
    var q, s1 := QueueOf(s.login), Put(s, id, Retried(s.ops[id]));
    assert Loose(s1, q, id) by {
      forall x | x != id ensures OpAt(s1, q, x) { hide OpGood; assert OpAt(s, q, x); }
    }
    hide Loose, Core;
    OpenGood(s1, q, id);
  }

  lemma NewLoose(s: State, o: Op, decrypts: nat)
    requires Consistent(s) && OpGood(o, 1, 0, 0, s.login.generation, QueueOf(s.login), s.clock)
    ensures Loose(Put(s, s.next, o).(next := s.next + 1, decrypts := decrypts),
                  QueueOf(s.login), s.next)
  {
    var q := QueueOf(s.login);
    var t := Put(s, s.next, o).(next := s.next + 1, decrypts := decrypts);
    assert OpAt(s, q, s.next);
    forall x | x != s.next ensures OpAt(t, q, x) { hide OpGood; assert OpAt(s, q, x); }
  }

  lemma PerformGood(s: State, bound: bool, decrypt: bool, a: Admission)
    requires Consistent(s)
    ensures Consistent(Perform(s, bound, decrypt, a))
  {
    var id, q := s.next, QueueOf(s.login);
    var o := NewOp(bound, decrypt, s.login.generation);
    assert Bounded(Reopened(o, s.login.generation), s.login.generation);
    if !Admitted(s, decrypt, a) {
      NewLoose(s, o, s.decrypts);
      hide Loose, Core, Respond, NewOp, LoginGood;
      FailGood(Put(s, id, o).(next := id + 1, decrypts := s.decrypts), q, id, Failure(NotAdmitted));
    } else {
      var decrypts := if decrypt then s.decrypts + 1 else s.decrypts;
      NewLoose(s, o, decrypts);
      hide Loose, Core, OpenOperation, NewOp, LoginGood, Reopened, Bounded;
      OpenGood(Put(s, id, o).(next := id + 1, decrypts := decrypts), q, id);
    }
  }

  /** A worker changes one operation's results, the device and the signer only. */
  lemma WorkerGood(s: State, t: State, id: nat)
    requires Consistent(s) && id in s.ops && id in t.ops
    requires var o, p := s.ops[id], t.ops[id];
             p == o.(openResult := p.openResult, signResult := p.signResult, context := p.context)
    requires t == s.(ops := s.ops[id := t.ops[id]], device := t.device, signer := t.signer)
    requires WorkersGood(t) && Onward(s.device, t.device)
    ensures Consistent(t)
  {
    var q := QueueOf(s.login);
    forall x ensures OpAt(t, q, x) { assert OpAt(s, q, x); }
    hide Core, WorkersGood;
    ClosedStays(s.login, s.clock, s.device, t.device);
  }

  predicate Onward(d: Device, d': Device) {
    d.closed <= d'.closed && d.issued <= d'.issued
  }

  lemma ClosedStays(l: Login, clock: nat, d: Device, d': Device)
    requires LoginGood(l, clock, d) && d.closed <= d'.closed && d.issued <= d'.issued
    ensures LoginGood(l, clock, d')
  {
    assert forall h :: h in d.closed ==> h in d'.closed;
  }

  lemma WorkersFree(s: State, id: nat)
    requires Consistent(s)
    ensures WorkersGood(s)
    ensures s.signer.Some? ==> s.signer.value.0 in s.ops && s.opening[s.signer.value.0] == 0
    ensures Onward(s.device, s.device) && Sound(s.device)
    ensures Onward(s.device, Closed(s.device)) && Sound(Closed(s.device))
    ensures Closed(s.device).session.None?
  {
    if s.signer.Some? {
      assert OpAt(s, QueueOf(s.login), s.signer.value.0);
    }
  }

  lemma OpenVisitGood(s: State, o: Op, visit: Visit)
    requires Sound(s.device)
    ensures var (d, _) := OpenVisit(s, o, visit);
            Sound(d) && Onward(s.device, d) && (s.closed ==> d == s.device)
  {
    DeviceSound(s.device, s.rebinds, visit, false, false);
    hide Sound, Opened;
  }

  lemma OpenThreadGood(s: State, id: nat, visit: Visit)
    requires Consistent(s) && Enabled(s, OpenWorker(id, visit))
    ensures Consistent(OpenThread(s, id, visit))
  {
    WorkersFree(s, id);
    OpenVisitGood(s, s.ops[id], visit);
    hide Consistent, Sound, OpenVisit, Onward;
    WorkerGood(s, OpenThread(s, id, visit), id);
  }

  lemma SignVisitGood(s: State, o: Op, visit: Visit, submission: Submission)
    requires Sound(s.device)
    ensures var (d, found) := SignVisit(s, o, visit, submission);
            Sound(d) && Onward(s.device, d) && d.session == s.device.session
  {
    DeviceSound(s.device, s.rebinds, visit, false, false);
    hide Sound;
  }

  lemma SignedGood(s: State, id: nat, d: Device, found: Option<Signing>)
    requires Consistent(s) && id in s.ops && s.signer.None?
    requires Sound(d) && Onward(s.device, d) && d.session == s.device.session
    ensures Consistent(Worked(s, id, s.ops[id].(signResult := found), d))
  {
    WorkersFree(s, id);
    hide Consistent, Sound, Onward;
    WorkerGood(s, Worked(s, id, s.ops[id].(signResult := found), d), id);
  }

  lemma SubmittedGood(s: State, id: nat, d: Device)
    requires Consistent(s)
    requires Enabled(s, SignWorker(id, Visit(false, false, false, Known(false), false), Direct))
    requires Sound(d) && Onward(s.device, d) && d.session == s.device.session
    ensures Consistent(s.(device := d, signer := Some((id, d.session))))
  {
    WorkersFree(s, id);
    var t := s.(device := d, signer := Some((id, d.session)));
    assert t.ops == s.ops[id := s.ops[id]];
    hide Consistent, Sound, Onward;
    WorkerGood(s, t, id);
  }

  lemma SignThreadGood(s: State, id: nat, visit: Visit, submission: Submission)
    requires Consistent(s) && Enabled(s, SignWorker(id, visit, submission))
    ensures Consistent(SignThread(s, id, visit, submission))
  {
    WorkersFree(s, id);
    SignVisitGood(s, s.ops[id], visit, submission);
    var (d, found) := SignVisit(s, s.ops[id], visit, submission);
    hide Consistent, Sound, SignVisit, Onward, Worked;
    if found.None? {
      SubmittedGood(s, id, d);
    } else {
      SignedGood(s, id, d, found);
    }
  }

  lemma ContextVisitGood(s: State, o: Op, handle: Option<nat>, outcome: Pin.Outcome, accepted: bool)
    requires Sound(s.device)
    ensures var (d, found) := ContextVisit(s, o, handle, outcome, accepted);
            Sound(d) && Onward(s.device, d) && (d.session.Some? ==> d == s.device)
  {
  }

  lemma ContextGood(s: State, outcome: Pin.Outcome, accepted: bool)
    requires Consistent(s) && s.signer.Some? && s.signer.value.0 in s.ops
    ensures Consistent(ContextDone(s, outcome, accepted))
  {
    var (id, handle) := s.signer.value;
    WorkersFree(s, id);
    ContextVisitGood(s, s.ops[id], handle, outcome, accepted);
    hide Consistent, Sound, ContextVisit, Onward;
    WorkerGood(s, ContextDone(s, outcome, accepted), id);
  }

  // ----- The login, its release and its cancellation -----

  /** Everything an operation's place depends on stays. */
  lemma QuietGood(s: State, t: State)
    requires Consistent(s) && WorkersGood(t) && LoginGood(t.login, t.clock, t.device)
    requires t.ops == s.ops && t.next == s.next && t.clock == s.clock && t.decrypts == s.decrypts
    requires t.opening == s.opening && t.signing == s.signing
    requires QueueOf(t.login) == QueueOf(s.login)
    ensures Consistent(t)
  {
    var q := QueueOf(s.login);
    forall x ensures OpAt(t, q, x) { assert OpAt(s, q, x); }
  }

  lemma LoginVisitGood(s: State, visit: Visit, accepted: bool, removed: bool)
    requires Sound(s.device)
    ensures var (d, _, performed) := LoginVisit(s, visit, accepted, removed);
            && Sound(d) && Onward(s.device, d) && (s.closed ==> d == s.device)
            && (performed.Some? ==> performed.value < d.issued)
  {
    DeviceSound(s.device, s.rebinds, visit, accepted, removed);
    var (d, _) := Opened(s.device, s.rebinds, visit);
    DeviceSound(d, s.rebinds, visit, accepted, removed);
    hide Opened;
  }

  lemma SucceededGood(l: Login, performed: Option<nat>, clock: nat, d: Device)
    requires LoginGood(l, clock, d) && l.interaction.Some?
    requires !l.interaction.value.succeeded && !l.interaction.value.releasing
    requires performed.Some? ==> performed.value < d.issued
    ensures LoginGood(Succeeded(l, performed), clock, d)
    ensures QueueOf(Succeeded(l, performed)) == QueueOf(l)
  {
  }

  lemma LoginThreadGood(s: State, visit: Visit, accepted: bool, removed: bool)
    requires Consistent(s) && Enabled(s, LoginWorker(visit, accepted, removed))
    ensures Consistent(LoginThread(s, visit, accepted, removed))
  {
    var t := LoginThread(s, visit, accepted, removed);
    var (d, ok, performed) := LoginVisit(s, visit, accepted, removed);
    assert WorkersGood(s) && LoginGood(s.login, s.clock, s.device);
    LoginVisitGood(s, visit, accepted, removed);
    hide Consistent, Sound, LoginVisit, LoginGood, Succeeded;
    ClosedStays(s.login, s.clock, s.device, d);
    if ok {
      SucceededGood(s.login, performed, s.clock, d);
    }
    QuietGood(s, t);
  }

  lemma ReleaseThreadGood(s: State)
    requires Consistent(s) && Enabled(s, ReleaseWorker)
    ensures Consistent(ReleaseThread(s))
  {
    var t := ReleaseThread(s);
    CloseReleasesAll(s.device, s.login.interaction.value.performed.value);
    DeviceSound(s.device, false, Visit(false, false, false, Known(false), false), false, false);
    assert LoginGood(t.login, t.clock, t.device) && WorkersGood(t);
    hide Consistent, Sound, LoginGood, WorkersGood;
    QuietGood(s, t);
  }

  lemma ClosedReleaseGood(s: State)
    requires Consistent(s) && s.releases > 0
    ensures Consistent(s.(device := Closed(s.device), releases := s.releases - 1))
  {
    var t := s.(device := Closed(s.device), releases := s.releases - 1);
    WorkersFree(s, 0);
    assert Closed(s.device).issued == s.device.issued;
    assert WorkersGood(t) by { hide Sound, Closed; }
    assert LoginGood(s.login, s.clock, s.device);
    ClosedStays(s.login, s.clock, s.device, t.device);
    hide Consistent, Sound, LoginGood, WorkersGood, Closed;
    QuietGood(s, t);
  }

  lemma PinDefersGood(s: State)
    requires Consistent(s) && Prompting(s)
    ensures Consistent(PinDefers(s))
  {
    var t := PinDefers(s);
    assert LoginGood(t.login, t.clock, t.device) && WorkersGood(t);
    ClockGood(s, t, QueueOf(s.login), QueueOf(t.login));
  }

  lemma CancelGood(s: State, id: nat)
    requires Consistent(s) && id in s.ops
    ensures Consistent(Put(s, id, CancelledOp(s.ops[id])))
  {
    var q, t := QueueOf(s.login), Put(s, id, CancelledOp(s.ops[id]));
    assert OpAt(s, q, id);
    StruckGood(s.ops[id], s.opening[id], s.signing[id], multiset(q.ids)[id], s.login.generation,
               q, s.clock);
    assert WorkersGood(t);
    hide OpGood, CancelledOp;
    forall x ensures OpAt(t, q, x) { assert OpAt(s, q, x); }
  }

  lemma ExpireGood(s: State)
    requires Consistent(s)
    ensures Consistent(s.(expired := true))
  {
    QuietGood(s, s.(expired := true));
  }

  lemma ClosingGood(s: State)
    requires Consistent(s)
    ensures Consistent(CloseSession(s))
  {
    CloseGood(s, QueueOf(s.login));
    hide Core;
  }

  lemma {:induction false} WithoutCount(ids: seq<nat>, id: nat, x: nat)
    requires id in ids
    ensures multiset(Pin.Without(ids, id))[x] == multiset(ids)[x] - (if x == id then 1 else 0)
  {
    TakeHead(ids);
    if ids[0] != id {
      WithoutCount(ids[1..], id, x);
      var rest := Pin.Without(ids[1..], id);
      assert ([ids[0]] + rest)[1..] == rest;
      TakeHead([ids[0]] + rest);
    }
  }

  /** An idle is pending for waiters only. */
  lemma IdleWaits(s: State, id: nat)
    requires Consistent(s) && id in s.ops && s.ops[id].cancelIdle
    ensures id in Waiters(s.login) && s.login.inProgress
  {
    assert OpAt(s, QueueOf(s.login), id);
  }

  lemma LeftGood(s: State, id: nat)
    requires LoginGood(s.login, s.clock, s.device) && s.login.inProgress
    ensures LoginGood(Left(s.login, id, s.clock), s.clock + 1, s.device)
    ensures Left(s.login, id, s.clock).generation == s.login.generation
    ensures var l := Left(s.login, id, s.clock);
            Waiters(l) == Pin.Without(Waiters(s.login), id)
            && (Waiters(l) == [] || (Began(l) == Began(s.login) && Abandoned(l) == Abandoned(s.login)))
  {
  }

  lemma WaiterIdleGood(s: State, id: nat)
    requires Consistent(s) && id in s.ops && s.ops[id].cancelIdle
    ensures Consistent(WaiterIdle(s, id))
  {
    var q, t := QueueOf(s.login), WaiterIdle(s, id);
    IdleWaits(s, id);
    LeftGood(s, id);
    var q' := QueueOf(t.login);
    assert WorkersGood(t) && s.clock + 1 == t.clock && t.login == Left(s.login, id, s.clock);
    assert q'.newest == q.newest && (q'.ids == [] || q' == q.(ids := q'.ids));
    assert q'.ids == Pin.Without(q.ids, id) && id in q.ids;
    hide LoginGood, Left, Sound, QueueOf, WorkersGood;
    forall x ensures OpAt(t, q', x) {
      WithoutCount(q.ids, id, x);
      assert OpAt(s, q, x);
      hide Respond, Detached;
      if x == id {
        LeaverGood(s.ops[id], q, q', s.login.generation, s.clock);
      } else if x in s.ops {
        LaterGood(s.ops[x], s.opening[x], s.signing[x], multiset(q.ids)[x], s.login.generation,
                  q, q', s.clock);
      }
    }
  }

  lemma LeaverGood(o: Op, q: Queue, q': Queue, generation: nat, clock: nat)
    requires OpGood(o, 0, 0, 1, generation, q, clock)
    ensures OpGood(Respond(Detached(o), Failure(RequestCancelled)), 0, 0, 0, generation, q',
                   clock + 1)
  {
  }

  lemma LaterGood(o: Op, opening: nat, signing: nat, waiting: nat, generation: nat, q: Queue,
                  q': Queue, clock: nat)
    requires OpGood(o, opening, signing, waiting, generation, q, clock)
    requires waiting == 1 ==> q'.newest == q.newest && q'.began == q.began && q'.abandoned == q.abandoned
    ensures OpGood(o, opening, signing, waiting, generation, q', clock + 1)
  {
  }

  lemma StepConsistent(s: State, e: Event)
    requires Consistent(s)
    ensures Consistent(Step(s, e))
  {
    hide Consistent, Perform, OpenThread, OnOpened, SignThread, ContextDone, OnSigned, LoginThread,
         PinDefers, PinDone, ReleaseThread, FinishLogin, WaiterIdle, CloseSession, CancelledOp,
         Closed, Put;
    if Enabled(s, e) {
      match e
      case Requested(bound, decrypt, admission) => PerformGood(s, bound, decrypt, admission);
      case OpenWorker(id, visit) => OpenThreadGood(s, id, visit);
      case OpenReturned(id, display) => OnOpenedGood(s, id, display);
      case SignWorker(id, visit, submission) => SignThreadGood(s, id, visit, submission);
      case ContextPin(outcome, accepted) => ContextGood(s, outcome, accepted);
      case SignReturned(id, encodes) => OnSignedGood(s, id, encodes);
      case LoginWorker(visit, accepted, removed) => LoginThreadGood(s, visit, accepted, removed);
      case PinDeferred => PinDefersGood(s);
      case PinAnswered(outcome) => PinDoneGood(s, outcome);
      case ReleaseWorker => ReleaseThreadGood(s);
      case ReleaseReturned => FinishingGood(s);
      case OpCancelled(id) => CancelGood(s, id);
      case WaiterCancelled(id) => WaiterIdleGood(s, id);
      case SessionClosing => ClosingGood(s);
      case Expiring => ExpireGood(s);
      case ClosedRelease => ClosedReleaseGood(s);
    }
  }

  lemma FinishingGood(s: State)
    requires Consistent(s) && s.login.interaction.Some?
    ensures Consistent(FinishLogin(s, s.login.interaction.value.outcome))
  {
    FinishGood(s, s.login.interaction.value.outcome);
  }

  lemma {:induction false} RunConsistent(rebinds: bool, loginRequired: bool, events: seq<Event>)
    ensures Consistent(Run(rebinds, loginRequired, events))
    decreases |events|
  {
    if events == [] {
      BeginConsistent(rebinds, loginRequired);
    } else {
      hide Consistent, Step;
      RunConsistent(rebinds, loginRequired, events[..|events| - 1]);
      StepConsistent(Run(rebinds, loginRequired, events[..|events| - 1]), events[|events| - 1]);
    }
  }

  lemma BeginConsistent(rebinds: bool, loginRequired: bool)
    ensures Consistent(Begin(rebinds, loginRequired))
  {
    var s := Begin(rebinds, loginRequired);
    forall x ensures OpAt(s, QueueOf(s.login), x) {}
  }
}
