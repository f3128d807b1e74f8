/** The session's login fields and its operations, updated in place by the callbacks
    and workers of src/broker/operations.c. */
module BrokerSession {
  import opened Optional
  import opened TokenDevice
  import Pin = PinPrompts
  import opened LoginBroker
  import opened LoginBrokerInvariant

  class LoginSession {
    const rebinds: bool
    const loginRequired: bool
    const device: CertificateDevice
    var closed: bool
    var expired: bool
    var decrypts: nat
    var ops: map<nat, Op>
    var next: nat
    var opening: multiset<nat>
    var signing: multiset<nat>
    var inProgress: bool
    var generation: nat
    var waiters: Option<seq<nat>>
    var cancellable: Option<bool>
    var interaction: Option<Interaction>
    var signer: Option<(nat, Option<nat>)>
    var releases: nat
    var clock: nat

    ghost function LoginView(): Login reads this {
      Login(inProgress, generation, waiters, cancellable, interaction)
    }

    ghost function View(): State reads this, device {
      State(rebinds, loginRequired, closed, expired, decrypts, ops, next, opening, signing,
            LoginView(), device.View(), signer, releases, clock)
    }

    ghost predicate Valid() reads this, device { Consistent(View()) }

    constructor (rebinds: bool, loginRequired: bool)
      ensures Valid() && View() == Begin(rebinds, loginRequired) && fresh(device)
    {
      this.rebinds, this.loginRequired := rebinds, loginRequired;
      device := new CertificateDevice();
      closed, expired, decrypts, ops, next := false, false, 0, map[], 0;
      opening, signing := multiset{}, multiset{};
      inProgress, generation, waiters, cancellable, interaction := false, 0, None, None, None;
      signer, releases, clock := None, 0, 0;
      new;
      BeginConsistent(rebinds, loginRequired);
    }

    // ----- One operation -----

    method OperationDone(id: nat, answer: Answered)
      requires id in ops
      modifies this`ops
      ensures View() == Put(old(View()), id, Respond(old(ops)[id], answer))
    {
      var o := ops[id];
      var trace := o.trace.(tries := o.trace.tries + 1);
      if o.answer.Some? {
        ops := ops[id := o.(trace := trace)];
        return;
      }
      ops := ops[id := o.(answer := Some(answer), trace := trace)];
    }

    method OperationFail(id: nat, reason: Reason)
      requires id in ops
      modifies this`ops
      ensures View() == Fail(old(View()), id, reason)
    {
      hide Respond;
      OperationDone(id, Failure(reason));
    }

    method LaunchOpen(id: nat)
      requires id in ops
      modifies this`ops, this`opening
      ensures View() == OpenOperation(old(View()), id)
    {
      ops := ops[id := Reopened(ops[id], generation)];
      opening := opening + multiset{id};
    }

    method LaunchSign(id: nat)
      requires id in ops
      modifies this`ops, this`signing
      ensures View() == RunOperation(old(View()), id)
    {
      ops := ops[id := ops[id].(signResult := None)];
      signing := signing + multiset{id};
    }

    /** Every unanswered request of the session is cancelled, in no particular order. */
    method CancelBound()
      modifies this`ops
      ensures ops == map id | id in old(ops) :: Struck(old(ops)[id])
    {
      hide Struck;
      var todo := ops.Keys;
      while todo != {}
        invariant ops.Keys == old(ops).Keys && todo <= ops.Keys
        invariant forall id :: id in ops ==>
                    ops[id] == if id in todo then old(ops)[id] else Struck(old(ops)[id])
        decreases |todo|
      {
        var id :| id in todo;
        ops := ops[id := Struck(ops[id])];
        todo := todo - {id};
      }
    }

    method CloseInternal()
      modifies this`ops, this`closed, this`releases
      ensures View() == CloseSession(old(View()))
    {
      hide Struck;
      if closed {
        return;
      }
      closed := true;
      CancelBound();
      if device.session.Some? {
        releases := releases + 1;
      }
    }

    method FailWithToken(id: nat, reason: Reason)
      requires id in ops
      modifies this`ops, this`closed, this`releases
      ensures View() == FailByToken(old(View()), id, reason)
    {
      ClosingKnows(View());
      hide CloseSession, Fail;
      if reason == ByToken(true) {
        CloseInternal();
      }
      OperationFail(id, reason);
    }

    method ApplyLoginOutcome(id: nat, outcome: Pin.Outcome)
      requires id in ops
      modifies this`ops, this`signing, this`closed, this`releases
      ensures View() == ApplyOutcome(old(View()), id, outcome)
    {
      ClosingKnows(View());
      hide CloseSession, Fail, RunOperation;
      if ops[id].cancelled {
        OperationFail(id, RequestCancelled);
        return;
      }
      if outcome == Pin.Ok {
        LaunchSign(id);
        return;
      }
      if outcome == Pin.TokenRemoved {
        CloseInternal();
      }
      OperationFail(id, LoginEnded(outcome));
    }

    // ----- The shared login -----

    method ResumeWaiter(id: nat, outcome: Pin.Outcome)
      requires id in ops
      modifies this`ops, this`opening, this`signing, this`closed, this`releases
      ensures View() == ResumeOne(old(View()), id, outcome)
    {
      hide ApplyOutcome, OpenOperation, Detached;
      var o := Detached(ops[id]);
      if o.retryLogin {
        ops := ops[id := o.(retryLogin := false)];
        LaunchOpen(id);
      } else {
        ops := ops[id := o];
        ApplyLoginOutcome(id, outcome);
      }
    }

    method EndLogin()
      modifies this`inProgress, this`generation, this`waiters, this`cancellable, this`interaction
      ensures View() == old(View()).(login := Over(old(LoginView())))
    {
      inProgress, generation, waiters := false, generation + 1, None;
      cancellable, interaction := None, None;
    }

    method FinishInteraction(outcome: Pin.Outcome)
      requires forall id :: id in Waiters(LoginView()) ==> id in ops
      modifies this
      ensures View() == FinishLogin(old(View()), outcome)
    {
      hide ResumeOne;
      var ids := if waiters.Some? then waiters.value else [];
      EndLogin();
      for i := 0 to |ids|
        invariant forall id :: id in ids ==> id in ops
        invariant Resume(View(), ids[i..], outcome) == FinishLogin(old(View()), outcome)
      {
        assert ids[i] == ids[i..][0] && ids[i..][1..] == ids[i + 1..];
        ResumeKnows(View(), ids[i], outcome);
        ResumeWaiter(ids[i], outcome);
      }
    }

    method OnPinDone(outcome: Pin.Outcome)
      requires interaction.Some? && forall id :: id in Waiters(LoginView()) ==> id in ops
      modifies this
      ensures View() == PinDone(old(View()), outcome)
    {
      hide FinishLogin, Stamped;
      var settled := outcome;
      if outcome == Pin.Ok && cancellable == Some(true) {
        settled := Pin.PinCancelled;
      }
      if settled != Pin.Ok && interaction.value.performed.Some? {
        // New requests wait until the cancelled login's session has been closed.
        cancellable := Some(true);
        interaction := Some(Stamped(interaction.value, clock).(outcome := settled,
                                                               releasing := true));
        clock := clock + 1;
        return;
      }
      FinishInteraction(settled);
    }

    method AttachWaiter(id: nat)
      requires id in ops
      modifies this`ops, this`waiters, this`clock
      ensures View() == Join(old(View()), id)
    {
      hide Joined;
      var retry := cancellable == Some(true) || (interaction.Some? && interaction.value.deferring);
      var ids := if waiters.Some? then waiters.value else [];
      ops := ops[id := Joined(ops[id], retry, clock)];
      waiters := Some(ids + [id]);
      clock := clock + 1;
    }

    method MarkLogin(id: nat)
      modifies this`inProgress, this`waiters, this`cancellable, this`interaction
      ensures LoginView() == Prompted(old(LoginView()), id)
    {
      var ids := if waiters.Some? then waiters.value else [];
      waiters := Some(ids + [id]);
      inProgress := true;
      // The session's own cancellable: one request cannot cancel the others' login.
      cancellable := Some(false);
      interaction := Some(Interaction(None, false, false, false, false, Pin.Ok, None));
    }

    method MarkInteraction(id: nat)
      requires id in ops
      modifies this
      ensures View() == StartLogin(old(View()), id, true)
    {
      hide Joined, PinDone, Prompted;
      MarkLogin(id);
      ops := ops[id := Joined(ops[id], ops[id].retryLogin, clock)];
      clock := clock + 1;
    }

    method BeginInteraction(id: nat, display: bool)
      requires id in ops && forall x :: x in Waiters(LoginView()) ==> x in ops
      modifies this
      ensures View() == StartLogin(old(View()), id, display)
    {
      MarkedKnows(View(), id);
      hide PinDone;
      MarkInteraction(id);
      if !display {
        hide StartLogin;
        OnPinDone(Pin.NoDisplay);
      }
    }

    method ProceedOpened(id: nat, needsLogin: bool, display: bool)
      requires id in ops && forall x :: x in Waiters(LoginView()) ==> x in ops
      modifies this
      ensures View() == Proceed(old(View()), id, needsLogin, display)
    {
      hide Join, OpenOperation, StartLogin, RunOperation, Waiters;
      if inProgress {
        AttachWaiter(id);
      } else if needsLogin && ops[id].openGen != generation {
        LaunchOpen(id);
      } else if needsLogin {
        BeginInteraction(id, display);
      } else {
        LaunchSign(id);
      }
    }

    // ----- Completions -----

    method TakeTask(id: nat, signs: bool)
      modifies this`opening, this`signing
      ensures View() == if signs then old(View()).(signing := old(signing) - multiset{id})
                        else old(View()).(opening := old(opening) - multiset{id})
    {
      if signs {
        signing := signing - multiset{id};
      } else {
        opening := opening - multiset{id};
      }
    }

    method OpenTaskDone(id: nat, display: bool)
      requires Valid() && Enabled(View(), OpenReturned(id, display))
      modifies this
      ensures Valid() && View() == OnOpened(old(View()), id, display)
    {
      OnOpenedGood(View(), id, display);
      WaitersKnown(View());
      var o := ops[id];
      var refusal := Authorised(false);
      TakeTask(id, false);
      hide Consistent, Fail, FailByToken, Proceed, Enabled, Waiters, Unauthorised, View;
      if o.cancelled {
        OperationFail(id, RequestCancelled);
        return;
      }
      if o.openResult.value.OpenFailed? {
        FailWithToken(id, o.openResult.value.reason);
        return;
      }
      if refusal.Some? {
        OperationFail(id, refusal.value);
        return;
      }
      ProceedOpened(id, o.openResult.value.needsLogin, display);
    }

    /** One more try when login and session state disagree, not two. */
    method SignWasStale(id: nat)
      requires id in ops && ops[id].signResult == Some(Stale) && !ops[id].cancelled
      modifies this
      ensures View() == Unsettled(old(View()), id)
    {
      hide Fail, OpenOperation, Retried;
      if ops[id].retriedOpen {
        OperationFail(id, NotSettled);
      } else {
        ops := ops[id := Retried(ops[id])];
        LaunchOpen(id);
      }
    }

    method SignTaskDone(id: nat, encodes: bool)
      requires Valid() && Enabled(View(), SignReturned(id, encodes))
      modifies this
      ensures Valid() && View() == OnSigned(old(View()), id, encodes)
    {
      OnSignedGood(View(), id, encodes);
      var o := ops[id];
      TakeTask(id, true);
      assert o == old(View()).ops[id] == View().ops[id];
      hide Consistent, Fail, FailByToken, Unsettled, ApplyOutcome, Respond, Enabled, View;
      if o.cancelled {
        OperationFail(id, RequestCancelled);
        return;
      }
      match o.signResult.value
      case Stale => SignWasStale(id);
      case SignFailed(reason) =>
        if o.context != Pin.Ok {
          ApplyLoginOutcome(id, o.context);
        } else {
          FailWithToken(id, reason);
        }
      case Produced =>
        if encodes {
          OperationDone(id, Success);
        } else {
          OperationFail(id, NotEncodable);
        }
    }

    method ReleaseTaskDone()
      requires Valid() && Enabled(View(), ReleaseReturned)
      modifies this
      ensures Valid() && View() == Step(old(View()), ReleaseReturned)
    {
      FinishingGood(View());
      WaitersKnown(View());
      hide Consistent, FinishLogin;
      FinishInteraction(interaction.value.outcome);
    }

    /** With nobody left to wait for it, the window is closed. */
    method LeaveLogin(id: nat)
      requires waiters.Some? && cancellable.Some? && interaction.Some?
      modifies this`waiters, this`cancellable, this`interaction
      ensures View() == old(View()).(login := Left(old(LoginView()), id, clock))
    {
      hide Stamped;
      waiters := Some(Pin.Without(waiters.value, id));
      if waiters == Some([]) {
        cancellable := Some(true);
        interaction := Some(Stamped(interaction.value, clock));
      }
    }

    method Dismiss(id: nat)
      requires id in ops
      modifies this`ops, this`clock
      ensures View() == Put(old(View()), id, Respond(Detached(old(ops)[id]),
                                                     Failure(RequestCancelled))).(
                          clock := old(clock) + 1)
    {
      hide Respond, Detached;
      ops := ops[id := Respond(Detached(ops[id]), Failure(RequestCancelled))];
      clock := clock + 1;
    }

    method WaiterCancelledIdle(id: nat)
      requires Valid() && Enabled(View(), WaiterCancelled(id))
      modifies this
      ensures Valid() && View() == WaiterIdle(old(View()), id)
    {
      WaiterIdleGood(View(), id);
      IdleWaits(View(), id);
      LoginKnown(View());
      assert View().ops == ops && View().clock == clock && View().login == LoginView();
      hide Consistent, Respond, Detached, Left, Enabled, Waiters, View, LoginView;
      LeaveLogin(id);
      Dismiss(id);
    }

    method Admits(decrypt: bool, a: Admission) returns (ok: bool)
      ensures ok == Admitted(View(), decrypt, a)
    {
      if a.pending || !a.granted || closed || expired {
        return false;
      }
      if decrypt && decrypts >= MAX_DECRYPTS {
        return false;
      }
      ok := a.permitted && a.wellFormed;
    }

    method Register(bound: bool, decrypt: bool) returns (id: nat)
      modifies this`ops, this`next
      ensures id == old(next) && id in ops
      ensures View() == Put(old(View()), id, NewOp(bound, decrypt, generation)).(next := id + 1)
    {
      hide NewOp;
      id := next;
      next := next + 1;
      ops := ops[id := NewOp(bound, decrypt, generation)];
    }

    method Charge(decrypt: bool)
      modifies this`decrypts
      ensures View() == old(View()).(decrypts := if decrypt then old(decrypts) + 1
                                                 else old(decrypts))
    {
      if decrypt {
        decrypts := decrypts + 1;
      }
    }

    method PerformOperation(bound: bool, decrypt: bool, a: Admission) returns (id: nat)
      requires Valid()
      modifies this
      ensures Valid() && View() == Perform(old(View()), bound, decrypt, a) && id == old(next)
    {
      PerformGood(View(), bound, decrypt, a);
      var ok := Admits(decrypt, a);
      assert View().login.generation == generation && View().next == next;
      assert View().decrypts == decrypts;
      hide Consistent, Fail, OpenOperation, NewOp, Admitted, View;
      id := Register(bound, decrypt);
      if !ok {
        OperationFail(id, NotAdmitted);
        return;
      }
      Charge(decrypt);
      LaunchOpen(id);
    }

    // ----- Workers -----

    method Authorised(cancelled: bool) returns (refusal: Option<Reason>)
      ensures refusal == Unauthorised(View(), cancelled)
    {
      if cancelled {
        return Some(RequestCancelled);
      }
      if closed {
        return Some(SessionClosed);
      }
      if expired {
        return Some(GrantExpired);
      }
      refusal := None;
    }

    method VisitToOpen(o: Op, visit: Visit) returns (found: Opening)
      modifies device
      ensures (device.View(), found) == OpenVisit(old(View()), o, visit)
    {
      hide Opened;
      var refusal := Authorised(o.cancelled);
      if refusal.Some? {
        return OpenFailed(refusal.value);
      }
      var verdict := device.Open(rebinds, visit);
      if verdict.Refused? {
        return OpenFailed(ByToken(verdict.removed));
      }
      found := Ready(!device.loggedIn && (loginRequired || !device.key));
    }

    method OpenWorkerThread(id: nat, visit: Visit)
      requires Valid() && Enabled(View(), OpenWorker(id, visit))
      modifies this, device
      ensures Valid() && View() == OpenThread(old(View()), id, visit)
    {
      OpenThreadGood(View(), id, visit);
      hide Consistent, OpenVisit, Enabled;
      var found := VisitToOpen(ops[id], visit);
      ops := ops[id := ops[id].(openResult := Some(found))];
    }

    method VisitToLogIn(visit: Visit, accepted: bool, removed: bool)
      returns (ok: bool, performed: Option<nat>)
      modifies device
      ensures (device.View(), ok, performed) == LoginVisit(old(View()), visit, accepted, removed)
    {
      hide Opened, LoggedIn;
      performed := None;
      var refusal := Authorised(cancellable == Some(true));
      if refusal.Some? {
        return false, None;
      }
      var verdict := device.Open(rebinds, visit);
      if verdict.Refused? {
        return false, None;
      }
      // Another request may have completed the login while the prompt was open.
      if device.loggedIn {
        return true, None;
      }
      verdict := device.Login(accepted, removed, visit.keyAfter);
      if verdict.Refused? {
        return false, None;
      }
      return true, device.session;
    }

    method Succeed(performed: Option<nat>)
      requires interaction.Some?
      modifies this`interaction
      ensures LoginView() == Succeeded(old(LoginView()), performed)
    {
      interaction := Some(interaction.value.(
        succeeded := true,
        performed := if performed.Some? then performed else interaction.value.performed));
    }

    method LoginWorkerThread(visit: Visit, accepted: bool, removed: bool) returns (ok: bool)
      requires Valid() && Enabled(View(), LoginWorker(visit, accepted, removed))
      modifies this, device
      ensures Valid() && View() == LoginThread(old(View()), visit, accepted, removed)
      ensures ok == LoginVisit(old(View()), visit, accepted, removed).1
    {
      LoginThreadGood(View(), visit, accepted, removed);
      hide Consistent, LoginVisit, Enabled;
      var performed;
      ok, performed := VisitToLogIn(visit, accepted, removed);
      if ok {
        hide Succeeded;
        Succeed(performed);
      }
    }

    method ReleaseWorkerThread()
      requires Valid() && Enabled(View(), ReleaseWorker)
      modifies this, device
      ensures Valid() && View() == ReleaseThread(old(View()))
    {
      ReleaseThreadGood(View());
      hide Consistent, Closed, Enabled;
      device.Close();
      interaction := Some(interaction.value.(released := true));
    }

    method VisitToSign(o: Op, visit: Visit, submission: Submission) returns (found: Option<Signing>)
      modifies device
      ensures (device.View(), found) == SignVisit(old(View()), o, visit, submission)
    {
      hide Refreshed, Refusal;
      var refusal := Authorised(o.cancelled);
      if refusal.Some? {
        return Some(SignFailed(refusal.value));
      }
      // A preceding operation may have reset the device while this one waited.
      if device.session.Some? {
        var verdict := device.RefreshLogin(visit);
        if verdict.Refused? {
          return Some(SignFailed(ByToken(verdict.removed)));
        }
      }
      if device.session.None? || (!device.loggedIn && (loginRequired || !device.key)) {
        return Some(Stale);
      }
      if !device.key {
        return Some(Refusal(o.decrypt, false));
      }
      match submission
      case Rejected(removed) => found := Some(Refusal(o.decrypt, removed));
      case Direct => found := Some(Produced);
      case NeedsPin => found := None;
    }

    method SignWorkerThread(id: nat, visit: Visit, submission: Submission)
      requires Valid() && Enabled(View(), SignWorker(id, visit, submission))
      modifies this, device
      ensures Valid() && View() == SignThread(old(View()), id, visit, submission)
    {
      SignThreadGood(View(), id, visit, submission);
      hide Consistent, SignVisit, Enabled;
      var found := VisitToSign(ops[id], visit, submission);
      if found.None? {
        signer := Some((id, device.session));
      } else {
        ops := ops[id := ops[id].(signResult := found)];
      }
    }

    /** Unless the context login held, the initialised operation and any late
        authentication go with the session. */
    method VisitAfterPin(o: Op, handle: Option<nat>, outcome: Pin.Outcome, accepted: bool)
      returns (found: Signing)
      modifies device
      ensures (device.View(), found) == ContextVisit(old(View()), o, handle, outcome, accepted)
    {
      hide Closed, Refusal;
      var refusal := Authorised(o.cancelled);
      if outcome != Pin.Ok {
        found := Refusal(o.decrypt, false);
      } else if refusal.Some? {
        found := if o.decrypt then Refusal(true, false) else SignFailed(refusal.value);
      } else if device.session.None? || device.session != handle {
        found := Refusal(o.decrypt, true);
      } else {
        return if accepted then Produced else Refusal(o.decrypt, false);
      }
      device.Close();
    }

    method ContextPinDone(outcome: Pin.Outcome, accepted: bool)
      requires Valid() && Enabled(View(), ContextPin(outcome, accepted))
      modifies this, device
      ensures Valid() && View() == ContextDone(old(View()), outcome, accepted)
    {
      ContextGood(View(), outcome, accepted);
      hide Consistent, ContextVisit, Enabled;
      var (id, handle) := signer.value;
      var found := VisitAfterPin(ops[id], handle, outcome, accepted);
      signer := None;
      ops := ops[id := ops[id].(context := outcome, signResult := Some(found))];
    }
  }

  lemma ClosingKnows(s: State)
    ensures CloseSession(s).ops.Keys == s.ops.Keys
  {
    hide Struck;
  }

  lemma ApplyKnows(s: State, id: nat, outcome: Pin.Outcome)
    requires id in s.ops
    ensures s.ops.Keys <= ApplyOutcome(s, id, outcome).ops.Keys
  {
    ClosingKnows(s);
    hide CloseSession, Respond;
  }

  lemma ResumeKnows(s: State, id: nat, outcome: Pin.Outcome)
    requires id in s.ops
    ensures s.ops.Keys <= ResumeOne(s, id, outcome).ops.Keys
  {
    ApplyKnows(Put(s, id, Detached(s.ops[id])), id, outcome);
    hide ApplyOutcome, Detached, Reopened;
  }

  lemma MarkedKnows(s: State, id: nat)
    requires id in s.ops && forall x :: x in Waiters(s.login) ==> x in s.ops
    ensures var t := StartLogin(s, id, true);
            && t.login.interaction.Some? && (forall x :: x in Waiters(t.login) ==> x in t.ops)
            && StartLogin(s, id, false) == PinDone(t, Pin.NoDisplay)
  {
    hide Joined, PinDone;
  }

  lemma WaitersKnown(s: State)
    requires Consistent(s)
    ensures forall id :: id in Waiters(s.login) ==> id in s.ops
  {
    forall id | id in Waiters(s.login) ensures id in s.ops {
      assert OpAt(s, QueueOf(s.login), id);
    }
  }

  lemma LoginKnown(s: State)
    requires Consistent(s) && s.login.inProgress
    ensures s.login.waiters.Some? && s.login.cancellable.Some? && s.login.interaction.Some?
  {
  }
}
