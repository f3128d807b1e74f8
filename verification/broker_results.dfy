/** What the shared login promises to the operations and to the token, over every run
    (src/broker/operations.c). */
module LoginBrokerResults {
  import opened Optional
  import opened TokenDevice
  import Pin = PinPrompts
  import opened LoginBroker
  import opened LoginBrokerInvariant

  // ----- Places and answers -----

  /** The events that can carry one unanswered operation forward. */
  predicate Moves(s: State, id: nat, e: Event) {
    && Enabled(s, e)
    && match e
       case OpenWorker(x, _) => x == id
       case OpenReturned(x, _) => x == id
       case SignWorker(x, _, _) => x == id
       case SignReturned(x, _) => x == id
       case ContextPin(_, _) => s.signing[id] > 0
       case PinAnswered(_) => id in Waiters(s.login)
       case ReleaseWorker => id in Waiters(s.login)
       case ReleaseReturned => id in Waiters(s.login)
       case _ => false
  }

  lemma WhereIs(s: State, id: nat)
    requires Consistent(s) && id in s.ops
    ensures s.opening[id] + s.signing[id] + multiset(Waiters(s.login))[id]
         == (if s.ops[id].answer.Some? then 0 else 1)
    ensures s.ops[id].trace.tries == (if s.ops[id].answer.Some? then 1 else 0)
  {
    assert OpAt(s, QueueOf(s.login), id);
  }

  /** Every operation is in exactly one place, and `done` has been tried exactly once
      for those in none: the guard against a second answer is never needed. */
  lemma OnePlace(rebinds: bool, loginRequired: bool, events: seq<Event>, id: nat)
    requires id in Run(rebinds, loginRequired, events).ops
    ensures var s := Run(rebinds, loginRequired, events);
            && s.opening[id] + s.signing[id] + multiset(Waiters(s.login))[id]
               == (if s.ops[id].answer.Some? then 0 else 1)
            && s.ops[id].trace.tries == (if s.ops[id].answer.Some? then 1 else 0)
  {
    RunConsistent(rebinds, loginRequired, events);
    hide Run, Consistent;
    WhereIs(Run(rebinds, loginRequired, events), id);
  }

  /** No unanswered operation is ever stuck: some worker or prompt it depends on
      can always report, and once none is left every operation has been answered. */
  lemma NeverStuck(rebinds: bool, loginRequired: bool, events: seq<Event>, id: nat)
    requires id in Run(rebinds, loginRequired, events).ops
    ensures var s := Run(rebinds, loginRequired, events);
            s.ops[id].answer.None? <==> exists e :: Moves(s, id, e)
  {
    RunConsistent(rebinds, loginRequired, events);
    var s := Run(rebinds, loginRequired, events);
    hide Run;
    WhereIs(s, id);
    var visit := Visit(false, false, false, Known(false), false);
    assert s.ops[id].answer.None? ==> s.opening[id] > 0 || s.signing[id] > 0 || id in Waiters(s.login);
    if s.opening[id] > 0 {
      assert Moves(s, id, if s.ops[id].openResult.None? then OpenWorker(id, visit)
                          else OpenReturned(id, true));
    } else if s.signing[id] > 0 {
      assert Moves(s, id, if s.ops[id].signResult.Some? then SignReturned(id, true)
                          else if s.signer.None? then SignWorker(id, visit, Direct)
                          else ContextPin(Pin.PinCancelled, false));
    } else if id in Waiters(s.login) {
      assert Moves(s, id, if Prompting(s) then PinAnswered(Pin.PinCancelled)
                          else if s.login.interaction.value.released then ReleaseReturned
                          else ReleaseWorker);
    }
  }

  /** An operation opens at most twice more than the number of logins that have
      finished since it began. */
  lemma OpensBounded(rebinds: bool, loginRequired: bool, events: seq<Event>, id: nat)
    requires id in Run(rebinds, loginRequired, events).ops
    ensures var s := Run(rebinds, loginRequired, events);
            var o := s.ops[id];
            && o.trace.startGen <= o.openGen <= s.login.generation
            && o.trace.opens <= 2 + o.openGen - o.trace.startGen
  {
    RunConsistent(rebinds, loginRequired, events);
    var s := Run(rebinds, loginRequired, events);
    assert OpAt(s, QueueOf(s.login), id);
  }

  /** The four records of a login in progress always agree, a prompt that nobody
      waits for is being cancelled, and decryptions stay within their budget. */
  lemma LoginShape(rebinds: bool, loginRequired: bool, events: seq<Event>)
    ensures var s := Run(rebinds, loginRequired, events);
            var l := s.login;
            && l.inProgress == l.waiters.Some? == l.cancellable.Some? == l.interaction.Some?
            && (l.waiters == Some([]) ==> l.cancellable == Some(true))
            && s.decrypts <= MAX_DECRYPTS
  {
    RunConsistent(rebinds, loginRequired, events);
    hide Run;
  }

  // ----- The device -----

  /** At most one token session is open, every other one was closed exactly once and
      in order, and a closed grant's session is closed or about to be. */
  lemma DeviceTidy(rebinds: bool, loginRequired: bool, events: seq<Event>)
    ensures var s := Run(rebinds, loginRequired, events);
            && (forall h :: 0 <= h < s.device.issued && s.device.session != Some(h) ==>
                  multiset(s.device.closed)[h] == 1)
            && (s.device.session.Some? ==>
                  s.device.session.value < s.device.issued
                  && s.device.session.value !in s.device.closed)
            && (s.closed && s.releases == 0 ==> s.device.session.None?)
  {
    RunConsistent(rebinds, loginRequired, events);
    var s := Run(rebinds, loginRequired, events);
    hide Run;
    forall h | 0 <= h < s.device.issued && s.device.session != Some(h)
      ensures multiset(s.device.closed)[h] == 1
    {
      CountedOnce(s.device.closed, h);
    }
  }

  lemma {:induction false} CountedOnce(closed: seq<nat>, h: nat)
    requires forall i :: 0 <= i < |closed| ==> closed[i] == i
    ensures multiset(closed)[h] == if h < |closed| then 1 else 0
  {
    if closed != [] {
      var n := |closed| - 1;
      CountedOnce(closed[..n], h);
      assert closed == closed[..n] + [closed[n]];
    }
  }

  // ----- What finishing a login does to each waiter -----

  /** Left in its place; a session that is invalidated meanwhile cancels it. */
  predicate Untouched(s: State, t: State, id: nat, outcome: Pin.Outcome)
    requires id in s.ops
  {
    && id in t.ops && t.opening[id] == s.opening[id] && t.signing[id] == s.signing[id]
    && (t.ops[id] == s.ops[id] || (outcome == Pin.TokenRemoved && t.ops[id] == Struck(s.ops[id])))
  }

  lemma ApplyOther(s: State, x: nat, outcome: Pin.Outcome, id: nat)
    requires x in s.ops && id in s.ops && id != x
    ensures Untouched(s, ApplyOutcome(s, x, outcome), id, outcome)
  {
    hide Struck, Respond;
  }

  lemma ResumeOneOther(s: State, x: nat, outcome: Pin.Outcome, id: nat)
    requires x in s.ops && id in s.ops && id != x
    ensures Untouched(s, ResumeOne(s, x, outcome), id, outcome)
  {
    ApplyOther(Put(s, x, Detached(s.ops[x])), x, outcome, id);
    hide ApplyOutcome, Struck, Detached, Reopened;
  }

  lemma StruckTwice(o: Op)
    ensures Struck(Struck(o)) == Struck(o)
  {
  }

  lemma {:induction false} ResumeOther(s: State, waiters: seq<nat>, outcome: Pin.Outcome, id: nat)
    requires id in s.ops && id !in waiters
    ensures Untouched(s, Resume(s, waiters, outcome), id, outcome)
    decreases |waiters|
  {
    if waiters != [] && waiters[0] in s.ops {
      assert id != waiters[0];
      ResumeOneOther(s, waiters[0], outcome, id);
      StruckTwice(s.ops[id]);
      hide ResumeOne, Struck;
      ResumeOther(ResumeOne(s, waiters[0], outcome), waiters[1..], outcome, id);
    }
  }

  /** What a waiter has coming when the shared login ends. */
  predicate Resumed(o: Op, outcome: Pin.Outcome, opening: nat, signing: nat, o': Op) {
    if o.retryLogin then
      opening == 1 && o'.answer.None? && o'.trace.opens == o.trace.opens + 1
    else if o.cancelled then o'.answer == Some(Failure(RequestCancelled))
    else if outcome == Pin.Ok then signing == 1 && o'.answer.None?
    else
      || o'.answer == Some(Failure(LoginEnded(outcome)))
      || (outcome == Pin.TokenRemoved && o.bound
          && o'.answer == Some(Failure(RequestCancelled)))
  }

  lemma ClosedKeeps(s: State, id: nat)
    requires id in s.ops
    ensures id in CloseSession(s).ops && CloseSession(s).ops[id].answer == s.ops[id].answer
  {
  }

  lemma FailGives(s: State, id: nat, reason: Reason)
    requires id in s.ops && s.ops[id].answer.None?
    ensures var t := Fail(s, id, reason);
            id in t.ops && t.ops[id].answer == Some(Failure(reason))
  {
  }

  lemma RunGives(s: State, id: nat)
    requires id in s.ops && s.ops[id].answer.None? && s.signing[id] == 0
    ensures var t := RunOperation(s, id);
            id in t.ops && t.ops[id].answer.None? && t.signing[id] == 1
  {
  }

  lemma ApplyGives(s: State, id: nat, outcome: Pin.Outcome)
    requires id in s.ops && s.ops[id].answer.None? && !s.ops[id].retryLogin
    requires s.signing[id] == 0
    ensures var t := ApplyOutcome(s, id, outcome);
            id in t.ops && Resumed(s.ops[id], outcome, t.opening[id], t.signing[id], t.ops[id])
  {
    ClosedKeeps(s, id);
    hide CloseSession, Fail, RunOperation;
    if s.ops[id].cancelled {
      FailGives(s, id, RequestCancelled);
    } else if outcome == Pin.Ok {
      RunGives(s, id);
    } else if outcome == Pin.TokenRemoved {
      FailGives(CloseSession(s), id, LoginEnded(outcome));
    } else {
      FailGives(s, id, LoginEnded(outcome));
    }
  }

  lemma SameForDetached(o: Op, outcome: Pin.Outcome, opening: nat, signing: nat, o': Op)
    requires !o.retryLogin
    ensures Detached(o).answer == o.answer && Detached(o).retryLogin == o.retryLogin
    ensures Resumed(Detached(o), outcome, opening, signing, o')
            <==> Resumed(o, outcome, opening, signing, o')
  {
  }

  lemma RetryGives(s: State, id: nat, outcome: Pin.Outcome)
    requires id in s.ops && s.ops[id].answer.None? && s.opening[id] == 0 && s.ops[id].retryLogin
    ensures var t := OpenOperation(Put(s, id, Detached(s.ops[id]).(retryLogin := false)), id);
            id in t.ops && Resumed(s.ops[id], outcome, t.opening[id], t.signing[id], t.ops[id])
  {
  }

  lemma ResumeGives(s: State, id: nat, outcome: Pin.Outcome)
    requires id in s.ops && s.ops[id].answer.None? && s.signing[id] == 0 && s.opening[id] == 0
    ensures var t := ResumeOne(s, id, outcome);
            id in t.ops && Resumed(s.ops[id], outcome, t.opening[id], t.signing[id], t.ops[id])
  {
    assert Detached(s.ops[id]).retryLogin == s.ops[id].retryLogin;
    hide ApplyOutcome, OpenOperation, Detached, Resumed;
    if s.ops[id].retryLogin {
      RetryGives(s, id, outcome);
    } else {
      var t := ResumeOne(s, id, outcome);
      SameForDetached(s.ops[id], outcome, t.opening[id], t.signing[id], t.ops[id]);
      ApplyGives(Put(s, id, Detached(s.ops[id])), id, outcome);
    }
  }

  lemma StruckResumed(o: Op, outcome: Pin.Outcome, opening: nat, signing: nat, o': Op)
    requires o.answer.None?
    ensures Resumed(o, outcome, opening, signing, o')
            ==> Resumed(o, outcome, opening, signing, Struck(o'))
    ensures outcome == Pin.TokenRemoved && Resumed(Struck(o), outcome, opening, signing, o')
            ==> Resumed(o, outcome, opening, signing, o')
  {
  }

  lemma QueuedOnce(s: State, q: Queue, id: nat)
    requires Core(s, q) && id in q.ids
    ensures id in s.ops && s.ops[id].answer.None? && s.signing[id] == 0 && s.opening[id] == 0
    ensures q.ids[0] == id <==> id !in q.ids[1..]
  {
    TakeHead(q.ids);
    assert OpAt(s, q, id);
  }

  lemma ResumeUnrolled(s: State, ids: seq<nat>, outcome: Pin.Outcome)
    requires ids != [] && ids[0] in s.ops
    ensures Resume(s, ids, outcome) == Resume(ResumeOne(s, ids[0], outcome), ids[1..], outcome)
  {
    hide ResumeOne;
  }

  lemma {:induction false} ResumeEach(s: State, q: Queue, outcome: Pin.Outcome, id: nat)
    requires Core(s, q) && q.newest < s.login.generation && id in q.ids
    ensures var t := Resume(s, q.ids, outcome);
            && id in s.ops && id in t.ops
            && Resumed(s.ops[id], outcome, t.opening[id], t.signing[id], t.ops[id])
    decreases |q.ids|
  {
    QueuedOnce(s, q, id);
    ResumeOneGood(s, q, outcome);
    ResumeUnrolled(s, q.ids, outcome);
    var head, rest := q.ids[0], q.(ids := q.ids[1..]);
    var s1 := ResumeOne(s, head, outcome);
    var t := Resume(s1, rest.ids, outcome);
    hide Core, ResumeOne, Resume, Resumed, Struck;
    if id == head {
      ResumeGives(s, id, outcome);
      ResumeOther(s1, rest.ids, outcome, id);
      StruckResumed(s.ops[id], outcome, t.opening[id], t.signing[id], s1.ops[id]);
    } else {
      ResumeOneOther(s, head, outcome, id);
      ResumeEach(s1, rest, outcome, id);
      StruckResumed(s.ops[id], outcome, t.opening[id], t.signing[id], t.ops[id]);
    }
  }

  /** When a shared login ends, each waiter that joined before its cancellation began
      gets the outcome, unless it was cancelled itself; each that joined later is
      opened again whatever the outcome was. */
  lemma FinishIsFair(s: State, outcome: Pin.Outcome, id: nat)
    requires Consistent(s) && id in Waiters(s.login)
    ensures id in s.ops && s.login.interaction.Some?
    ensures var o, t := s.ops[id], FinishLogin(s, outcome);
            var began := s.login.interaction.value.began;
            && id in t.ops
            && (o.retryLogin <==> began.Some? && began.value < o.trace.joinedAt)
            && Resumed(o, outcome, t.opening[id], t.signing[id], t.ops[id])
  {
    var q := QueueOf(s.login);
    assert OpAt(s, q, id);
    OverGood(s);
    hide Core, Resume, Resumed, OpAt;
    ResumeEach(s.(login := Over(s.login)), q, outcome, id);
  }

  // ----- One step -----

  /** A prompt that everyone gave up is never heard of again: whoever is waiting when
      it ends joined later and is opened again. */
  lemma AbandonedReachesNobody(s: State, outcome: Pin.Outcome, id: nat)
    requires Consistent(s) && Abandoned(s.login) && id in Waiters(s.login)
    ensures id in s.ops && s.ops[id].retryLogin
    ensures var t := FinishLogin(s, outcome);
            id in t.ops && t.ops[id].answer.None? && t.opening[id] == 1
  {
    assert OpAt(s, QueueOf(s.login), id);
    FinishIsFair(s, outcome, id);
    hide FinishLogin, Core, OpAt;
  }

  /** One waiter's cancellation takes that waiter alone: the prompt is cancelled if
      and only if nobody is left, or it was already being cancelled. */
  lemma LeavingSparesOthers(s: State, id: nat)
    requires Consistent(s) && Enabled(s, WaiterCancelled(id))
    ensures var t := WaiterIdle(s, id);
            && id in Waiters(s.login) && t.ops[id].answer == Some(Failure(RequestCancelled))
            && (forall x :: multiset(Waiters(t.login))[x]
                            == multiset(Waiters(s.login))[x] - (if x == id then 1 else 0))
            && (forall x :: x in s.ops && x != id ==> t.ops[x] == s.ops[x])
            && (t.login.cancellable == Some(true)
                <==> Waiters(t.login) == [] || s.login.cancellable == Some(true))
  {
    IdleWaits(s, id);
    assert OpAt(s, QueueOf(s.login), id);
    var t := WaiterIdle(s, id);
    forall x ensures multiset(Waiters(t.login))[x]
                     == multiset(Waiters(s.login))[x] - (if x == id then 1 else 0) {
      WithoutCount(Waiters(s.login), id, x);
    }
  }

  /** Whether the login in progress ends with this event, and how. */
  function Ending(s: State, e: Event): Option<Pin.Outcome> {
    if !Enabled(s, e) then None
    else
      match e
      case ReleaseReturned => Some(s.login.interaction.value.outcome)
      case PinAnswered(outcome) =>
        var settled := Settled(s.login, outcome);
        if settled != Pin.Ok && s.login.interaction.value.performed.Some? then None
        else Some(settled)
      case _ => None
  }

  /** The login stays as it is, and no outstanding open goes away. */
  predicate Beside(s: State, t: State) { t.login == s.login && s.opening <= t.opening }

  lemma FailKeeps(s: State, id: nat, reason: Reason)
    requires id in s.ops
    ensures Beside(s, Fail(s, id, reason)) && Fail(s, id, reason).signing == s.signing
  {
    hide Respond;
  }

  lemma OpenKeeps(s: State, id: nat)
    requires id in s.ops
    ensures Beside(s, OpenOperation(s, id)) && Beside(s, RunOperation(s, id))
  {
    hide Reopened;
  }

  lemma FailByTokenKeeps(s: State, id: nat, reason: Reason)
    requires id in s.ops
    ensures Beside(s, FailByToken(s, id, reason)) && FailByToken(s, id, reason).signing == s.signing
  {
    ClosingKeeps(s);
    FailKeeps(s, id, reason);
    FailKeeps(CloseSession(s), id, reason);
    hide Fail, CloseSession;
  }

  lemma ApplyKeeps(s: State, id: nat, outcome: Pin.Outcome)
    requires id in s.ops
    ensures Beside(s, ApplyOutcome(s, id, outcome))
  {
    ClosingKeeps(s);
    hide Fail, CloseSession, RunOperation;
    if s.ops[id].cancelled {
      FailKeeps(s, id, RequestCancelled);
    } else if outcome == Pin.Ok {
      OpenKeeps(s, id);
    } else if outcome == Pin.TokenRemoved {
      FailKeeps(CloseSession(s), id, LoginEnded(outcome));
    } else {
      FailKeeps(s, id, LoginEnded(outcome));
    }
  }

  lemma ClosingKeeps(s: State)
    ensures Beside(s, CloseSession(s)) && CloseSession(s).signing == s.signing
    ensures forall id :: id in s.ops ==> id in CloseSession(s).ops
  {
    hide Struck;
  }

  lemma PerformKeeps(s: State, bound: bool, decrypt: bool, a: Admission)
    ensures Beside(s, Perform(s, bound, decrypt, a))
  {
    hide NewOp, Respond, Reopened;
  }

  lemma OnOpenedKeeps(s: State, id: nat, display: bool)
    requires s.login.inProgress && id in s.ops && s.ops[id].openResult.Some?
    ensures var t := OnOpened(s, id, display);
            && (t.login == s.login
                || t.login == s.login.(waiters := Some(Waiters(s.login) + [id])))
            && s.opening - multiset{id} <= t.opening && t.signing == s.signing
  {
    var s1 := s.(opening := s.opening - multiset{id});
    hide Fail, FailByToken, StartLogin, RunOperation, OpenOperation, Joined;
    if s.ops[id].cancelled {
      FailKeeps(s1, id, RequestCancelled);
    } else if s.ops[id].openResult.value.OpenFailed? {
      FailByTokenKeeps(s1, id, s.ops[id].openResult.value.reason);
    } else if Unauthorised(s, false).Some? {
      FailKeeps(s1, id, Unauthorised(s, false).value);
    }
  }

  lemma OnSignedKeeps(s: State, id: nat, encodes: bool)
    requires id in s.ops && s.ops[id].signResult.Some?
    ensures Beside(s, OnSigned(s, id, encodes))
  {
    var s1 := s.(signing := s.signing - multiset{id});
    hide Fail, FailByToken, ApplyOutcome, Respond, OpenOperation, Retried;
    if s.ops[id].cancelled {
      FailKeeps(s1, id, RequestCancelled);
    } else {
      match s.ops[id].signResult.value
      case Stale =>
        if s.ops[id].retriedOpen {
          FailKeeps(s1, id, NotSettled);
        } else {
          OpenKeeps(Put(s1, id, Retried(s.ops[id])), id);
        }
      case SignFailed(reason) =>
        ApplyKeeps(s1, id, s.ops[id].context);
        FailByTokenKeeps(s1, id, reason);
      case Produced => FailKeeps(s1, id, NotEncodable);
    }
  }

  /** The workers, and the login's own news, move nobody. */
  lemma WorkersKeep(s: State, e: Event)
    requires e.OpenWorker? || e.SignWorker? || e.ContextPin? || e.LoginWorker? || e.ReleaseWorker?
             || e.PinDeferred? || e.OpCancelled? || e.Expiring? || e.ClosedRelease?
    ensures var t := Step(s, e);
            Waiters(t.login) == Waiters(s.login) && t.opening == s.opening
  {
    hide OpenVisit, SignVisit, ContextVisit, LoginVisit, CancelledOp, Closed, Stamped;
  }

  lemma {:induction false} WithoutOthers(ids: seq<nat>, id: nat, x: nat)
    requires x in ids && x != id
    ensures x in Pin.Without(ids, id)
  {
    if ids[0] != id && ids[0] != x {
      WithoutOthers(ids[1..], id, x);
    }
  }

  lemma EndingSteps(s: State, e: Event)
    requires Ending(s, e).Some?
    ensures Step(s, e) == FinishLogin(s, Ending(s, e).value)
  {
    hide FinishLogin;
  }

  /** What does not end a login adds to its waiters at most, unless one leaves. */
  lemma WaitersStay(s: State, e: Event, id: nat)
    requires Consistent(s) && s.login.inProgress && id in Waiters(s.login)
    requires Ending(s, e).None? && e != WaiterCancelled(id)
    ensures id in Waiters(Step(s, e).login)
  {
    hide Consistent, FinishLogin, CloseSession, OnOpened, OnSigned, OpenThread, SignThread,
         ContextDone, LoginThread, Perform, PinDefers, ReleaseThread, CancelledOp, Respond, Detached;
    if Enabled(s, e) {
      match e
      case OpenReturned(x, display) => OnOpenedKeeps(s, x, display);
      case SignReturned(x, encodes) => OnSignedKeeps(s, x, encodes);
      case WaiterCancelled(x) =>
        WithoutOthers(Waiters(s.login), x, id);
      case SessionClosing => ClosingKeeps(s);
      case Requested(bound, decrypt, admission) => PerformKeeps(s, bound, decrypt, admission);
      case PinAnswered(outcome) =>
      case ReleaseReturned =>
      case _ => WorkersKeep(s, e);
    }
  }

  /** Waiters are resumed by the end of the login and by nothing else. */
  lemma EndingIsFinish(s: State, e: Event, id: nat)
    requires Consistent(s) && id in Waiters(s.login)
    ensures Ending(s, e).Some? ==> Step(s, e) == FinishLogin(s, Ending(s, e).value)
    ensures Ending(s, e).None? && e != WaiterCancelled(id) ==> id in Waiters(Step(s, e).login)
  {
    assert s.login.inProgress;
    hide Consistent, Step, FinishLogin;
    if Ending(s, e).Some? {
      EndingSteps(s, e);
    } else if e != WaiterCancelled(id) {
      WaitersStay(s, e, id);
    }
  }

  /** A login that C_Login performed and that ends in anything but success has had
      its session closed before a waiter is resumed or another login can start. */
  lemma ThrownAwayIsClosed(s: State, e: Event)
    requires Consistent(s) && s.login.inProgress && Ending(s, e).Some?
    ensures var i := s.login.interaction.value;
            Ending(s, e) != Some(Pin.Ok) && i.performed.Some? ==>
              i.performed.value in s.device.closed
    ensures Ending(s, e) == Some(Pin.Ok) ==>
              s.login.interaction.value.succeeded && s.login.cancellable == Some(false)
  {
  }

  /** Whatever happens to others, an outstanding open stays outstanding. */
  lemma OpeningStays(s: State, e: Event, id: nat)
    requires Consistent(s) && s.login.inProgress && id in s.ops && s.opening[id] > 0
    requires !(e.OpenReturned? && e.id == id)
    ensures Step(s, e).opening[id] >= s.opening[id]
  {
    WhereIs(s, id);
    hide Consistent, CloseSession, OnOpened, OnSigned, OpenThread, SignThread, ContextDone,
         LoginThread, Perform, FinishLogin, WaiterIdle, PinDefers, ReleaseThread, CancelledOp;
    if Enabled(s, e) {
      match e
      case Requested(bound, decrypt, admission) => PerformKeeps(s, bound, decrypt, admission);
      case OpenReturned(x, display) => OnOpenedKeeps(s, x, display);
      case SignReturned(x, encodes) => OnSignedKeeps(s, x, encodes);
      case SessionClosing => ClosingKeeps(s);
      case PinAnswered(outcome) => FinishKeeps(s, Settled(s.login, outcome), id);
      case ReleaseReturned => FinishKeeps(s, s.login.interaction.value.outcome, id);
      case WaiterCancelled(x) => IdleKeeps(s, x);
      case _ => WorkersKeep(s, e);
    }
  }

  lemma IdleKeeps(s: State, id: nat)
    requires id in s.ops
    ensures WaiterIdle(s, id).opening == s.opening
  {
    hide Respond, Detached, Left;
  }

  lemma FinishKeeps(s: State, outcome: Pin.Outcome, id: nat)
    requires id in s.ops && id !in Waiters(s.login)
    ensures Untouched(s, FinishLogin(s, outcome), id, outcome)
  {
    ResumeOther(s.(login := Over(s.login)), Waiters(s.login), outcome, id);
    hide Resume, Struck;
  }

  /** While a login is in progress no operation moves from opening to signing. */
  lemma NoSigningMeanwhile(s: State, e: Event, id: nat)
    requires Consistent(s) && s.login.inProgress && s.opening[id] > 0
    ensures Step(s, e).signing[id] == 0
  {
    var t := Step(s, e);
    StepConsistent(s, e);
    assert OpAt(s, QueueOf(s.login), id) && OpAt(t, QueueOf(t.login), id);
    hide Consistent, Step, OpGood;
    if e.OpenReturned? && e.id == id {
      ReturnedStays(s, id, e.display);
    } else {
      OpeningStays(s, e, id);
      assert id in t.ops;
      WhereIs(t, id);
    }
  }

  lemma ReturnedStays(s: State, id: nat, display: bool)
    requires Consistent(s) && s.login.inProgress && s.opening[id] > 0
    ensures Step(s, OpenReturned(id, display)).signing[id] == 0
  {
    assert OpAt(s, QueueOf(s.login), id);
    hide Consistent, OnOpened;
    if Enabled(s, OpenReturned(id, display)) {
      OnOpenedKeeps(s, id, display);
    }
  }

  /** In every run, whatever happens next: a waiter keeps waiting until it leaves or
      the login ends; when it ends, a session whose login is thrown away has already
      been closed, and the waiter gets the outcome or, having joined after the
      cancellation began, is opened again. Meanwhile nobody moves from opening to
      signing, and one who leaves cancels the prompt only if nobody is left. */
  lemma RunsAreFair(rebinds: bool, loginRequired: bool, events: seq<Event>, e: Event, id: nat)
    requires id in Waiters(Run(rebinds, loginRequired, events).login)
    ensures var s := Run(rebinds, loginRequired, events);
            var t := Run(rebinds, loginRequired, events + [e]);
            && id in s.ops && s.login.interaction.Some?
            && var i := s.login.interaction.value;
            if Ending(s, e).Some? then
              && id in t.ops
              && Resumed(s.ops[id], Ending(s, e).value, t.opening[id], t.signing[id], t.ops[id])
              && (s.ops[id].retryLogin
                  <==> i.began.Some? && i.began.value < s.ops[id].trace.joinedAt)
              && (Ending(s, e) != Some(Pin.Ok) && i.performed.Some? ==>
                    i.performed.value in s.device.closed)
            else e != WaiterCancelled(id) ==> id in Waiters(t.login)
    ensures var s := Run(rebinds, loginRequired, events);
            var t := Run(rebinds, loginRequired, events + [e]);
            && (forall x: nat :: s.opening[x] > 0 ==> t.signing[x] == 0)
            && (e.WaiterCancelled? && Enabled(s, e) ==>
                  && e.id in t.ops && t.ops[e.id].answer == Some(Failure(RequestCancelled))
                  && (t.login.cancellable == Some(true)
                      <==> Waiters(t.login) == [] || s.login.cancellable == Some(true)))
  {
    var s := Run(rebinds, loginRequired, events);
    assert (events + [e])[..|events|] == events;
    assert Run(rebinds, loginRequired, events + [e]) == Step(s, e);
    RunConsistent(rebinds, loginRequired, events);
    hide Run, Core, Step, FinishLogin, Resumed, WaiterIdle;
    assert s.login.inProgress;
    EndingIsFinish(s, e, id);
    FinishIsFair(s, if Ending(s, e).Some? then Ending(s, e).value else Pin.Ok, id);
    if Ending(s, e).Some? {
      ThrownAwayIsClosed(s, e);
    }
    NobodySigns(s, e);
    if e.WaiterCancelled? && Enabled(s, e) {
      LeavingSparesOthers(s, e.id);
      LeavingStep(s, e.id);
    }
  }

  lemma LeavingStep(s: State, id: nat)
    requires Enabled(s, WaiterCancelled(id))
    ensures Step(s, WaiterCancelled(id)) == WaiterIdle(s, id) && id in WaiterIdle(s, id).ops
  {
    hide Respond, Detached, Left;
  }

  lemma NobodySigns(s: State, e: Event)
    requires Consistent(s) && s.login.inProgress
    ensures forall x: nat :: s.opening[x] > 0 ==> Step(s, e).signing[x] == 0
  {
    hide Consistent, Step;
    forall x: nat | s.opening[x] > 0 ensures Step(s, e).signing[x] == 0 {
      NoSigningMeanwhile(s, e, x);
    }
  }
}
