/** Whose work is done in the shared login, and for whom: nobody is answered with
    another's result, and nothing reaches the token for an operation that has been
    cancelled, a session that is closed or a grant that has run out
    (src/broker/operations.c). */
module LoginBrokerWork {
  import opened Optional
  import opened TokenDevice
  import Pin = PinPrompts
  import opened LoginBroker
  import opened LoginBrokerInvariant

  // ----- What the coordinator alone never brings about -----

  /** The operation has got a result, or a signature to return, that it did not have. */
  predicate Gains(o: Op, o': Op) {
    || (o'.answer == Some(Success) && o.answer != Some(Success))
    || (o'.signResult == Some(Produced) && o.signResult != Some(Produced))
  }

  /** No operation gains anything, and the device and its user are left alone. */
  ghost predicate NothingGained(s: State, t: State) {
    && t.device == s.device && t.signer == s.signer
    && (forall id :: id in s.ops ==> id in t.ops && !Gains(s.ops[id], t.ops[id]))
    && (forall id :: id in t.ops && id !in s.ops ==> t.ops[id].signResult != Some(Produced))
  }

  lemma NoneThenNone(s: State, t: State, u: State)
    requires NothingGained(s, t) && NothingGained(t, u)
    ensures NothingGained(s, u)
  {
  }

  lemma SameNone(s: State, t: State)
    requires t.ops == s.ops && t.device == s.device && t.signer == s.signer
    ensures NothingGained(s, t)
  {
  }

  lemma OneNone(s: State, id: nat, o: Op, t: State)
    requires t.ops == s.ops[id := o] && t.device == s.device && t.signer == s.signer
    requires if id in s.ops then !Gains(s.ops[id], o) else o.signResult != Some(Produced)
    ensures NothingGained(s, t)
  {
  }

  lemma SmallStepsNone(s: State, id: nat, reason: Reason)
    requires id in s.ops
    ensures NothingGained(s, Fail(s, id, reason)) && NothingGained(s, OpenOperation(s, id))
    ensures NothingGained(s, RunOperation(s, id)) && NothingGained(s, CloseSession(s))
    ensures id in CloseSession(s).ops
  {
    var o := s.ops[id];
    CloseNone(s);
    OneNone(s, id, Respond(o, Failure(reason)), Fail(s, id, reason));
    OneNone(s, id, Reopened(o, s.login.generation), OpenOperation(s, id));
    OneNone(s, id, o.(signResult := None), RunOperation(s, id));
    hide NothingGained, CloseSession;
  }

  lemma StruckGains(o: Op)
    ensures !Gains(o, Struck(o)) && !Gains(o, o)
  {
  }

  lemma CloseNone(s: State)
    ensures NothingGained(s, CloseSession(s)) && CloseSession(s).ops.Keys == s.ops.Keys
  {
    hide Struck, Gains;
    forall id | id in s.ops ensures !Gains(s.ops[id], s.ops[id]) && !Gains(s.ops[id], Struck(s.ops[id])) {
      StruckGains(s.ops[id]);
    }
  }

  lemma ClosedFailNone(s: State, id: nat, reason: Reason)
    requires id in s.ops
    ensures id in CloseSession(s).ops && NothingGained(s, Fail(CloseSession(s), id, reason))
  {
    hide Fail, CloseSession, NothingGained;
    SmallStepsNone(s, id, reason);
    SmallStepsNone(CloseSession(s), id, reason);
    NoneThenNone(s, CloseSession(s), Fail(CloseSession(s), id, reason));
  }

  lemma ApplyNone(s: State, id: nat, outcome: Pin.Outcome)
    requires id in s.ops
    ensures NothingGained(s, ApplyOutcome(s, id, outcome))
  {
    hide Fail, RunOperation, CloseSession, NothingGained;
    SmallStepsNone(s, id, RequestCancelled);
    SmallStepsNone(s, id, LoginEnded(outcome));
    ClosedFailNone(s, id, LoginEnded(outcome));
  }

  lemma ByTokenNone(s: State, id: nat, reason: Reason)
    requires id in s.ops
    ensures NothingGained(s, FailByToken(s, id, reason))
  {
    hide Fail, CloseSession, NothingGained;
    SmallStepsNone(s, id, reason);
    ClosedFailNone(s, id, reason);
  }

  lemma ResumeOneNone(s: State, id: nat, outcome: Pin.Outcome)
    requires id in s.ops
    ensures NothingGained(s, ResumeOne(s, id, outcome))
  {
    var o := Detached(s.ops[id]);
    assert !Gains(s.ops[id], o) && !Gains(s.ops[id], o.(retryLogin := false));
    hide ApplyOutcome, OpenOperation, Detached, Gains, NothingGained, Fail, RunOperation, CloseSession;
    if o.retryLogin {
      var s2 := Put(s, id, o.(retryLogin := false));
      OneNone(s, id, o.(retryLogin := false), s2);
      SmallStepsNone(s2, id, RequestCancelled);
      NoneThenNone(s, s2, OpenOperation(s2, id));
    } else {
      var s1 := Put(s, id, o);
      OneNone(s, id, o, s1);
      ApplyNone(s1, id, outcome);
      NoneThenNone(s, s1, ApplyOutcome(s1, id, outcome));
    }
  }

  lemma {:induction false} ResumeNone(s: State, waiters: seq<nat>, outcome: Pin.Outcome)
    ensures NothingGained(s, Resume(s, waiters, outcome))
    decreases |waiters|
  {
    if waiters != [] && waiters[0] in s.ops {
      ResumeOneNone(s, waiters[0], outcome);
      hide ResumeOne, NothingGained;
      ResumeNone(ResumeOne(s, waiters[0], outcome), waiters[1..], outcome);
      NoneThenNone(s, ResumeOne(s, waiters[0], outcome),
                   Resume(ResumeOne(s, waiters[0], outcome), waiters[1..], outcome));
    }
  }

  lemma PinDoneNone(s: State, outcome: Pin.Outcome)
    requires s.login.interaction.Some?
    ensures NothingGained(s, PinDone(s, outcome))
    ensures NothingGained(s, FinishLogin(s, outcome))
  {
    ResumeNone(s.(login := Over(s.login)), Waiters(s.login), outcome);
    ResumeNone(s.(login := Over(s.login)), Waiters(s.login), Settled(s.login, outcome));
    hide Resume;
  }

  lemma JoinNone(s: State, id: nat)
    requires id in s.ops
    ensures NothingGained(s, Join(s, id))
  {
    var o := Joined(s.ops[id], Cancelling(s.login), s.clock);
    assert !Gains(s.ops[id], o);
    hide Joined, Cancelling, Waiters, Gains, NothingGained;
    OneNone(s, id, o, Join(s, id));
  }

  lemma StartedNone(s: State, id: nat)
    requires id in s.ops
    ensures var s1 := StartLogin(s, id, true);
            && s1.login.interaction.Some? && NothingGained(s, s1)
            && StartLogin(s, id, false) == PinDone(s1, Pin.NoDisplay)
  {
    var o := Joined(s.ops[id], s.ops[id].retryLogin, s.clock);
    assert !Gains(s.ops[id], o);
    hide Joined, Waiters, Gains, NothingGained, PinDone;
    OneNone(s, id, o, StartLogin(s, id, true));
  }

  lemma StartNone(s: State, id: nat, display: bool)
    requires id in s.ops
    ensures NothingGained(s, StartLogin(s, id, display))
  {
    StartedNone(s, id);
    hide PinDone, StartLogin, NothingGained;
    if !display {
      var s1 := StartLogin(s, id, true);
      PinDoneNone(s1, Pin.NoDisplay);
      NoneThenNone(s, s1, PinDone(s1, Pin.NoDisplay));
    }
  }

  lemma ProceedNone(s: State, id: nat, needsLogin: bool, display: bool)
    requires id in s.ops
    ensures NothingGained(s, Proceed(s, id, needsLogin, display))
  {
    hide Fail, OpenOperation, RunOperation, Join, PinDone, StartLogin, NothingGained, CloseSession;
    if s.login.inProgress {
      JoinNone(s, id);
    } else {
      SmallStepsNone(s, id, RequestCancelled);
      StartNone(s, id, display);
    }
  }

  lemma OnOpenedNone(s: State, id: nat, display: bool)
    requires id in s.ops && s.ops[id].openResult.Some?
    ensures NothingGained(s, OnOpened(s, id, display))
  {
    var s1 := s.(opening := s.opening - multiset{id});
    hide Fail, FailByToken, Proceed, NothingGained;
    if s.ops[id].cancelled {
      SmallStepsNone(s1, id, RequestCancelled);
    } else if s.ops[id].openResult.value.OpenFailed? {
      ByTokenNone(s1, id, s.ops[id].openResult.value.reason);
    } else if Unauthorised(s, false).Some? {
      SmallStepsNone(s1, id, Unauthorised(s, false).value);
    } else {
      ProceedNone(s1, id, s.ops[id].openResult.value.needsLogin, display);
    }
    SameNone(s, s1);
    NoneThenNone(s, s1, OnOpened(s, id, display));
  }

  lemma UnsettledNone(s: State, id: nat)
    requires id in s.ops
    ensures NothingGained(s, Unsettled(s, id))
  {
    var s1 := Put(s, id, Retried(s.ops[id]));
    OneNone(s, id, Retried(s.ops[id]), s1);
    SmallStepsNone(s, id, NotSettled);
    SmallStepsNone(s1, id, NotSettled);
    NoneThenNone(s, s1, OpenOperation(s1, id));
    hide Fail, OpenOperation, NothingGained, Retried;
  }

  lemma OnSignedNone(s: State, id: nat, encodes: bool)
    requires id in s.ops && s.ops[id].signResult.Some?
    ensures var t := OnSigned(s, id, encodes);
            || NothingGained(s, t)
            || (!s.ops[id].cancelled && s.ops[id].signResult == Some(Produced) && encodes
                && t.device == s.device && t.signer == s.signer
                && t.ops == s.ops[id := Respond(s.ops[id], Success)])
  {
    var s1 := s.(signing := s.signing - multiset{id});
    var o := s.ops[id];
    SameNone(s, s1);
    hide Fail, FailByToken, ApplyOutcome, Unsettled, Respond, NothingGained;
    if o.cancelled {
      SmallStepsNone(s1, id, RequestCancelled);
      NoneThenNone(s, s1, Fail(s1, id, RequestCancelled));
    } else {
      match o.signResult.value
      case Stale =>
        UnsettledNone(s1, id);
        NoneThenNone(s, s1, Unsettled(s1, id));
      case SignFailed(reason) =>
        ApplyNone(s1, id, o.context);
        ByTokenNone(s1, id, reason);
        NoneThenNone(s, s1, OnSigned(s, id, encodes));
      case Produced =>
        if !encodes {
          SmallStepsNone(s1, id, NotEncodable);
          NoneThenNone(s, s1, Fail(s1, id, NotEncodable));
        }
    }
  }

  lemma PutTwice(ops: map<nat, Op>, id: nat, o: Op, o': Op)
    ensures ops[id := o][id := o'] == ops[id := o']
  {
  }

  lemma PerformNone(s: State, bound: bool, decrypt: bool, a: Admission)
    requires s.next !in s.ops
    ensures NothingGained(s, Perform(s, bound, decrypt, a))
  {
    var o := NewOp(bound, decrypt, s.login.generation);
    var refused, entered := Respond(o, Failure(NotAdmitted)), Reopened(o, s.login.generation);
    assert refused.signResult.None? && entered.signResult.None?;
    PutTwice(s.ops, s.next, o, refused);
    PutTwice(s.ops, s.next, o, entered);
    hide NewOp, Respond, Reopened, Admitted, NothingGained, Gains;
    var t := Perform(s, bound, decrypt, a);
    if Admitted(s, decrypt, a) {
      assert t.ops == s.ops[s.next := entered];
      OneNone(s, s.next, entered, t);
    } else {
      assert t.ops == s.ops[s.next := refused];
      OneNone(s, s.next, refused, t);
    }
  }

  lemma CancelledNone(s: State, id: nat)
    requires id in s.ops
    ensures NothingGained(s, Put(s, id, CancelledOp(s.ops[id])))
  {
    hide NothingGained;
    OneNone(s, id, CancelledOp(s.ops[id]), Put(s, id, CancelledOp(s.ops[id])));
  }

  lemma WaiterNone(s: State, id: nat)
    requires id in s.ops
    ensures NothingGained(s, WaiterIdle(s, id))
  {
    var o := s.ops[id];
    assert !Gains(o, o.(cancelIdle := false));
    assert !Gains(o, Respond(Detached(o), Failure(RequestCancelled)));
    hide Left, NothingGained, Gains, Respond, Detached, Waiters;
    if id in Waiters(s.login) {
      OneNone(s, id, Respond(Detached(o), Failure(RequestCancelled)), WaiterIdle(s, id));
    } else {
      OneNone(s, id, o.(cancelIdle := false), WaiterIdle(s, id));
    }
  }

  predicate ByWorker(e: Event) {
    || e.OpenWorker? || e.SignWorker? || e.ContextPin? || e.LoginWorker? || e.ReleaseWorker?
    || e.PinDeferred? || e.Expiring? || e.ClosedRelease?
  }

  /** A callback of the coordinator brings no one a result but the operation whose
      signing task returns, and never touches the device. */
  lemma CoordinatorGains(s: State, e: Event)
    requires Consistent(s) && Enabled(s, e) && !ByWorker(e)
    ensures || NothingGained(s, Step(s, e))
            || (e.SignReturned? && e.encodes && e.id in s.ops && !s.ops[e.id].cancelled
                && s.ops[e.id].signResult == Some(Produced)
                && Step(s, e).device == s.device && Step(s, e).signer == s.signer
                && Step(s, e).ops == s.ops[e.id := Respond(s.ops[e.id], Success)])
  {
    assert s.next !in s.ops by { assert OpAt(s, QueueOf(s.login), s.next); }
    hide Consistent, OnOpened, OnSigned, PinDone, FinishLogin, CloseSession, Respond, Perform,
         WaiterIdle, CancelledOp, NothingGained;
    match e
    case Requested(bound, decrypt, a) => PerformNone(s, bound, decrypt, a);
    case OpenReturned(x, display) => OnOpenedNone(s, x, display);
    case SignReturned(x, encodes) => OnSignedNone(s, x, encodes);
    case PinAnswered(outcome) => PinDoneNone(s, outcome);
    case ReleaseReturned => PinDoneNone(s, s.login.interaction.value.outcome);
    case SessionClosing => CloseNone(s);
    case OpCancelled(x) => CancelledNone(s, x);
    case WaiterCancelled(x) => WaiterNone(s, x);
  }

  lemma TasksAnswerNobody(s: State, e: Event, id: nat)
    requires Enabled(s, e) && id in s.ops && (e.OpenWorker? || e.SignWorker? || e.ContextPin?)
    ensures id in Step(s, e).ops && Step(s, e).ops[id].answer == s.ops[id].answer
  {
    hide OpenVisit, SignVisit, ContextVisit;
  }

  lemma WorkersAnswerNobody(s: State, e: Event, id: nat)
    requires Enabled(s, e) && ByWorker(e) && id in s.ops
    ensures id in Step(s, e).ops && Step(s, e).ops[id].answer == s.ops[id].answer
  {
    if e.OpenWorker? || e.SignWorker? || e.ContextPin? {
      TasksAnswerNobody(s, e, id);
      hide Step, Enabled;
    } else {
      hide Enabled, LoginVisit, Closed, Stamped, Succeeded, OpenThread, SignThread, ContextDone;
    }
  }

  /** In one step an operation is answered with success only by its own signing task,
      with a signature, and only if it has not been cancelled; a cancelled operation
      never gets a result, from the shared login or otherwise. */
  lemma SuccessIsItsOwn(s: State, e: Event, id: nat)
    requires Consistent(s) && id in s.ops && s.ops[id].answer != Some(Success)
    requires id in Step(s, e).ops && Step(s, e).ops[id].answer == Some(Success)
    ensures e == SignReturned(id, true) && !s.ops[id].cancelled
            && s.ops[id].signResult == Some(Produced)
  {
    if Enabled(s, e) {
      hide Consistent, Step, Respond;
      if ByWorker(e) {
        WorkersAnswerNobody(s, e, id);
      } else {
        CoordinatorGains(s, e);
      }
    }
  }

  // ----- What reaches the token -----

  /** The operation may use the token now: nothing has been taken back. */
  predicate Authorised(s: State, id: nat) {
    !s.closed && !s.expired && id in s.ops && !s.ops[id].cancelled
  }

  predicate Signs(s: State, t: State, id: nat) {
    && id in t.ops && t.ops[id].signResult == Some(Produced)
    && (id in s.ops ==> s.ops[id].signResult != Some(Produced))
  }

  /** A token session is opened, a login gained, or an operation set up on the token
      that will ask for a PIN of its own. */
  predicate Touches(s: State, t: State) {
    || t.device.issued > s.device.issued
    || (t.device.loggedIn && !s.device.loggedIn)
    || (t.signer.Some? && t.signer != s.signer)
  }

  /** The step is a worker's, for an operation that is still authorised, or the shared
      login's while somebody waits for it. */
  predicate ByAuthorised(s: State, e: Event) {
    && !s.closed && !s.expired
    && match e
       case OpenWorker(id, _) => Authorised(s, id)
       case SignWorker(id, _, _) => Authorised(s, id)
       case LoginWorker(_, _, _) => s.login.cancellable == Some(false)
       case _ => false
  }

  /** A session is open, with a key, and logged in if the token asks for it. */
  predicate Usable(s: State) {
    s.device.session.Some? && s.device.key && (s.device.loggedIn || !s.loginRequired)
  }

  lemma OpenWorkerTouches(s: State, id: nat, visit: Visit)
    requires Enabled(s, OpenWorker(id, visit))
    ensures var t := Step(s, OpenWorker(id, visit));
            && t.signer == s.signer && (forall x: nat :: !Signs(s, t, x))
            && (Authorised(s, id) || t.device == s.device)
  {
    hide Opened;
  }

  lemma SignVisitFacts(s: State, o: Op, visit: Visit, submission: Submission)
    ensures var (d, found) := SignVisit(s, o, visit, submission);
            && (s.closed || s.expired || o.cancelled ==> d == s.device)
            && (found.None? || found == Some(Produced) ==>
                  && !s.closed && !s.expired && !o.cancelled
                  && d.session.Some? && d.key && (d.loggedIn || !s.loginRequired))
  {
    hide Refreshed;
  }

  lemma SignWorkerTouches(s: State, id: nat, visit: Visit, submission: Submission)
    requires Enabled(s, SignWorker(id, visit, submission))
    ensures var t := Step(s, SignWorker(id, visit, submission));
            && (Authorised(s, id) || (t.device == s.device && t.signer == s.signer))
            && (forall x: nat :: Signs(s, t, x) ==> x == id && Authorised(s, id) && Usable(t))
            && (t.signer != s.signer ==> t.signer == Some((id, t.device.session)) && Usable(t))
  {
    SignVisitFacts(s, s.ops[id], visit, submission);
    hide SignVisit;
  }

  lemma LoginWorkerTouches(s: State, visit: Visit, accepted: bool, removed: bool)
    requires Consistent(s) && Enabled(s, LoginWorker(visit, accepted, removed))
    ensures var e := LoginWorker(visit, accepted, removed);
            var t := Step(s, e);
            && t.signer == s.signer && (forall x: nat :: !Signs(s, t, x))
            && (ByAuthorised(s, e) || t.device == s.device)
  {
    assert s.login.cancellable.Some?;
    hide Consistent, Opened, LoggedIn;
  }

  lemma ContextPinTouches(s: State, outcome: Pin.Outcome, accepted: bool)
    requires Enabled(s, ContextPin(outcome, accepted))
    ensures var t := Step(s, ContextPin(outcome, accepted));
            && t.signer.None? && !Touches(s, t)
            && (forall x: nat :: Signs(s, t, x) ==>
                  && s.signer == Some((x, t.device.session)) && Authorised(s, x)
                  && outcome == Pin.Ok && accepted && t.device.session.Some?)
  {
  }

  lemma OthersTouch(s: State, e: Event)
    requires Enabled(s, e) && (e.ReleaseWorker? || e.PinDeferred? || e.Expiring? || e.ClosedRelease?)
    ensures var t := Step(s, e);
            !Touches(s, t) && t.signer == s.signer && forall x: nat :: !Signs(s, t, x)
  {
    hide Stamped;
  }

  lemma GainsTouch(s: State, t: State)
    requires NothingGained(s, t)
    ensures !Touches(s, t) && forall x: nat :: !Signs(s, t, x)
  {
  }

  /** Only a submission signs without a PIN of its own, and only a context PIN that was
      accepted on the very session the operation was set up on signs with one. */
  predicate SignedBy(s: State, e: Event, t: State, id: nat) {
    && Authorised(s, id) && t.device.session.Some?
    && match e
       case SignWorker(x, _, _) => x == id && Usable(t)
       case ContextPin(outcome, accepted) =>
         s.signer == Some((id, t.device.session)) && outcome == Pin.Ok && accepted
       case _ => false
  }

  lemma CoordinatorTouches(s: State, e: Event)
    requires Consistent(s) && Enabled(s, e) && !ByWorker(e)
    ensures var t := Step(s, e);
            !Touches(s, t) && t.signer == s.signer && forall x: nat :: !Signs(s, t, x)
  {
    hide Consistent, Step, Enabled, Respond, Touches, Signs;
    CoordinatorGains(s, e);
    var t := Step(s, e);
    if NothingGained(s, t) {
      GainsTouch(s, t);
    } else {
      AnsweringTouches(s, e, t);
    }
  }

  lemma StepAuthorised(s: State, e: Event)
    requires Consistent(s)
    ensures var t := Step(s, e);
            && (Touches(s, t) ==> ByAuthorised(s, e))
            && (forall id :: Signs(s, t, id) ==> SignedBy(s, e, t, id))
            && (t.signer.Some? && t.signer != s.signer ==>
                  && e.SignWorker? && Authorised(s, e.id) && Usable(t)
                  && t.signer == Some((e.id, t.device.session)))
  {
    var t := Step(s, e);
    if Enabled(s, e) {
      hide Consistent, Step, Enabled, NothingGained, Respond, Usable;
      match e
      case OpenWorker(id, visit) => OpenWorkerTouches(s, id, visit);
      case SignWorker(id, visit, submission) => SignWorkerTouches(s, id, visit, submission);
      case LoginWorker(visit, accepted, removed) => LoginWorkerTouches(s, visit, accepted, removed);
      case ContextPin(outcome, accepted) => ContextPinTouches(s, outcome, accepted);
      case _ =>
        if ByWorker(e) {
          OthersTouch(s, e);
        } else {
          CoordinatorTouches(s, e);
        }
    }
  }

  lemma AnsweringTouches(s: State, e: Event, t: State)
    requires e.SignReturned? && e.id in s.ops && t.device == s.device && t.signer == s.signer
    requires t.ops == s.ops[e.id := Respond(s.ops[e.id], Success)]
    ensures !Touches(s, t) && forall x: nat :: !Signs(s, t, x)
  {
  }

  /** At step `k` of the run the operation was set up on the token session `handle`,
      with a key and any login the token asks for, and authorised. */
  ghost predicate SetUp(rebinds: bool, loginRequired: bool, events: seq<Event>, k: nat, id: nat,
                        handle: Option<nat>)
  {
    && k < |events| && events[k].SignWorker? && events[k].id == id
    && Authorised(Run(rebinds, loginRequired, events[..k]), id)
    && Usable(Run(rebinds, loginRequired, events[..k + 1]))
    && Run(rebinds, loginRequired, events[..k + 1]).device.session == handle
  }

  lemma SetUpStays(rebinds: bool, loginRequired: bool, events: seq<Event>, e: Event, k: nat,
                   id: nat, handle: Option<nat>)
    requires SetUp(rebinds, loginRequired, events, k, id, handle)
    ensures SetUp(rebinds, loginRequired, events + [e], k, id, handle)
  {
    hide Run, Usable, Authorised;
    assert (events + [e])[..k] == events[..k] && (events + [e])[..k + 1] == events[..k + 1];
  }

  lemma RunStep(rebinds: bool, loginRequired: bool, events: seq<Event>, e: Event)
    ensures Run(rebinds, loginRequired, events + [e])
         == Step(Run(rebinds, loginRequired, events), e)
  {
    hide Step;
    assert (events + [e])[..|events + [e]| - 1] == events;
  }

  /** Whoever waits for a PIN of its own was set up on the session it is bound to. */
  lemma {:induction false} SignerWasSetUp(rebinds: bool, loginRequired: bool, events: seq<Event>)
    returns (k: nat)
    requires Run(rebinds, loginRequired, events).signer.Some?
    ensures var signer := Run(rebinds, loginRequired, events).signer.value;
            SetUp(rebinds, loginRequired, events, k, signer.0, signer.1)
    decreases |events|
  {
    var before, e := events[..|events| - 1], events[|events| - 1];
    assert events == before + [e];
    RunConsistent(rebinds, loginRequired, before);
    RunStep(rebinds, loginRequired, before, e);
    StepAuthorised(Run(rebinds, loginRequired, before), e);
    hide Consistent, Step, Usable, Authorised;
    var s, t := Run(rebinds, loginRequired, before), Run(rebinds, loginRequired, events);
    if t.signer == s.signer {
      k := SignerWasSetUp(rebinds, loginRequired, before);
      SetUpStays(rebinds, loginRequired, before, e, k, s.signer.value.0, s.signer.value.1);
    } else {
      k := |events| - 1;
      assert events[..k] == before && events[..k + 1] == events;
    }
  }

  /** Everything that reaches the token is authorised, in every run and at every next
      event. A session is opened, a login gained or an operation set up only by a
      worker of an operation that has not been cancelled, or by the shared login
      while somebody waits for it, with the session open and the grant in time. A
      signature is made only while that still holds for its own operation, and only in
      the token session on which the operation was set up with a key and any login
      the token asks for, even if a PIN of its own was asked for in between. */
  lemma WorkIsAuthorised(rebinds: bool, loginRequired: bool, events: seq<Event>, e: Event, id: nat)
    ensures var s := Run(rebinds, loginRequired, events);
            var t := Step(s, e);
            && (Touches(s, t) ==> ByAuthorised(s, e))
            && (Signs(s, t, id) ==>
                  && Authorised(s, id) && t.device.session.Some?
                  && exists k :: SetUp(rebinds, loginRequired, events + [e], k, id, t.device.session)
                                 && (k == |events| || e == ContextPin(Pin.Ok, true)))
  {
    RunConsistent(rebinds, loginRequired, events);
    var s := Run(rebinds, loginRequired, events);
    var t := Step(s, e);
    StepAuthorised(s, e);
    RunStep(rebinds, loginRequired, events, e);
    hide Consistent, Step, Run, Usable, Authorised, Touches, ByAuthorised;
    if Signs(s, t, id) {
      if e.SignWorker? {
        assert (events + [e])[..|events|] == events && (events + [e])[..|events| + 1] == events + [e];
        assert SetUp(rebinds, loginRequired, events + [e], |events|, id, t.device.session);
      } else {
        var k := SignerWasSetUp(rebinds, loginRequired, events);
        SetUpStays(rebinds, loginRequired, events, e, k, id, t.device.session);
      }
    }
  }
}
