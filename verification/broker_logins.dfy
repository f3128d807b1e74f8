/** The end of the shared login, and what cancellation and closing do, said of the
    fields they touch, in every run (src/broker/operations.c, src/core/session.c). */
module LoginBrokerLogins {
  import opened Optional
  import opened TokenDevice
  import Pin = PinPrompts
  import opened LoginBroker
  import opened LoginBrokerInvariant
  import opened LoginBrokerResults
  import opened LoginBrokerSteps
  import opened LoginBrokerSigns

  // ----- The end of a login -----

  /** What becomes of a waiter: one that joined too late opens again, one that has been
      cancelled fails with that, and the others sign, or fail as the login did. */
  predicate Fate(o: Op, outcome: Pin.Outcome, opens: bool, signs: bool, o': Op) {
    if o.retryLogin then
      opens && o'.answer.None? && o'.trace.opens == o.trace.opens + 1
    else if o.cancelled then o'.answer == Some(Failure(RequestCancelled))
    else if outcome == Pin.Ok then signs && o'.answer.None?
    else
      || o'.answer == Some(Failure(LoginEnded(outcome)))
      || (outcome == Pin.TokenRemoved && o.bound && o'.answer == Some(Failure(RequestCancelled)))
  }

  /** The waiters who are told the outcome. */
  predicate Told(s: State, x: nat) {
    x in Waiters(s.login) && x in s.ops && !s.ops[x].retryLogin && !s.ops[x].cancelled
  }

  /** The login is over, every waiter has met its fate and nobody else has been touched,
      unless the token has gone: then the session has been closed, if anyone was told. */
  ghost predicate LoginOver(s: State, t: State, outcome: Pin.Outcome) {
    && !t.login.inProgress && t.login.waiters.None? && t.login.cancellable.None?
    && t.login.interaction.None? && t.login.generation == s.login.generation + 1
    && t.device == s.device && t.next == s.next
    && (forall x :: x in Waiters(s.login) ==>
          && x in s.ops && x in t.ops
          && Fate(s.ops[x], outcome, t.opening[x] == 1, t.signing[x] == 1, t.ops[x]))
    && (forall x :: x in s.ops && x !in Waiters(s.login) ==>
          && x in t.ops && t.opening[x] == s.opening[x] && t.signing[x] == s.signing[x]
          && (t.ops[x] == s.ops[x]
              || (outcome == Pin.TokenRemoved && t.ops[x] == OnClosing(false, s.ops[x]))))
    && (t.closed <==> s.closed || (outcome == Pin.TokenRemoved && exists x :: Told(s, x)))
  }

  lemma ResumedFate(o: Op, outcome: Pin.Outcome, opening: nat, signing: nat, o': Op)
    requires Resumed(o, outcome, opening, signing, o')
    ensures Fate(o, outcome, opening == 1, signing == 1, o')
  {
  }

  lemma StruckIs(o: Op)
    ensures Struck(o) == OnClosing(false, o)
  {
  }

  /** Nobody but `id` has moved; an operation is cancelled only with the session. */
  ghost predicate Beside(s: State, t: State, id: nat) {
    && t.next == s.next && t.device == s.device && t.login == s.login && (s.closed ==> t.closed)
    && forall x :: x in s.ops && x != id ==>
         && x in t.ops && t.ops[x].retryLogin == s.ops[x].retryLogin
         && (t.ops[x].cancelled == s.ops[x].cancelled || t.closed)
         && (s.ops[x].cancelled ==> t.ops[x].cancelled)
  }

  lemma FailBeside(s: State, id: nat, reason: Reason)
    requires id in s.ops
    ensures Beside(s, Fail(s, id, reason), id) && Fail(s, id, reason).closed == s.closed
  {
    hide Respond;
  }

  lemma PutBeside(s: State, id: nat, o: Op)
    requires id in s.ops
    ensures Beside(s, Put(s, id, o), id)
  {
  }

  lemma RunBeside(s: State, id: nat)
    requires id in s.ops
    ensures Beside(s, RunOperation(s, id), id) && RunOperation(s, id).closed == s.closed
  {
  }

  lemma OpenBeside(s: State, id: nat)
    requires id in s.ops
    ensures Beside(s, OpenOperation(s, id), id) && OpenOperation(s, id).closed == s.closed
  {
    hide Reopened;
  }

  lemma CloseBeside(s: State, id: nat)
    requires id in s.ops
    ensures Beside(s, CloseSession(s), id) && CloseSession(s).closed && id in CloseSession(s).ops
  {
    CloseKeeps(s);
    hide CloseSession;
  }

  lemma BesideTwice(s: State, t: State, u: State, id: nat)
    requires Beside(s, t, id) && Beside(t, u, id)
    ensures Beside(s, u, id)
  {
  }

  lemma ClosedByApplying(s: State, id: nat, outcome: Pin.Outcome)
    requires id in s.ops
    ensures var t := ApplyOutcome(s, id, outcome);
            && Beside(s, t, id)
            && (t.closed <==> s.closed || (outcome == Pin.TokenRemoved && !s.ops[id].cancelled))
  {
    FailBeside(s, id, RequestCancelled);
    FailBeside(s, id, LoginEnded(outcome));
    RunBeside(s, id);
    CloseBeside(s, id);
    FailBeside(CloseSession(s), id, LoginEnded(outcome));
    hide Fail, CloseSession, RunOperation, OpenOperation, Put, Beside;
    BesideTwice(s, CloseSession(s), Fail(CloseSession(s), id, LoginEnded(outcome)), id);
  }

  lemma ClosedBy(s: State, id: nat, outcome: Pin.Outcome)
    requires id in s.ops
    ensures var t := ResumeOne(s, id, outcome);
            && Beside(s, t, id)
            && (t.closed <==> s.closed || (outcome == Pin.TokenRemoved && !s.ops[id].retryLogin
                                           && !s.ops[id].cancelled))
  {
    var o := Detached(s.ops[id]);
    assert o.retryLogin == s.ops[id].retryLogin && o.cancelled == s.ops[id].cancelled;
    var s1, s2 := Put(s, id, o), Put(s, id, o.(retryLogin := false));
    PutBeside(s, id, o);
    PutBeside(s, id, o.(retryLogin := false));
    OpenBeside(s2, id);
    ClosedByApplying(s1, id, outcome);
    hide Detached, OpenOperation, ApplyOutcome, Fail, RunOperation, Beside;
    BesideTwice(s, s1, ApplyOutcome(s1, id, outcome), id);
    BesideTwice(s, s2, OpenOperation(s2, id), id);
  }

  lemma CloseKeeps(s: State)
    ensures var t := CloseSession(s);
            && t.closed && t.next == s.next && t.device == s.device && t.login == s.login
            && t.ops.Keys == s.ops.Keys
            && forall x :: x in s.ops ==>
                 && t.ops[x].retryLogin == s.ops[x].retryLogin
                 && (s.ops[x].cancelled ==> t.ops[x].cancelled)
  {
    StruckKeepsAll(s.ops);
    hide Struck;
  }

  lemma StruckKeepsAll(ops: map<nat, Op>)
    ensures forall x :: x in ops ==>
              && Struck(ops[x]).retryLogin == ops[x].retryLogin
              && (ops[x].cancelled ==> Struck(ops[x]).cancelled)
  {
  }

  /** Someone on the list will be told. */
  predicate AnyTold(s: State, ids: seq<nat>) {
    exists x :: x in ids && x in s.ops && !s.ops[x].retryLogin && !s.ops[x].cancelled
  }

  lemma {:induction false} ResumeCloses(s: State, q: Queue, outcome: Pin.Outcome)
    requires Core(s, q) && q.newest < s.login.generation
    ensures var t := Resume(s, q.ids, outcome);
            && t.next == s.next && t.device == s.device && t.login == s.login
            && (t.closed <==> s.closed || (outcome == Pin.TokenRemoved && AnyTold(s, q.ids)))
    decreases |q.ids|
  {
    if q.ids != [] {
      var id, rest := q.ids[0], q.(ids := q.ids[1..]);
      QueuedOnce(s, q, id);
      ResumeOneGood(s, q, outcome);
      ResumeUnrolled(s, q.ids, outcome);
      ClosedBy(s, id, outcome);
      RestNotHead(s, q);
      hide Core, ResumeOne, Resume, AnyTold;
      ResumeCloses(ResumeOne(s, id, outcome), rest, outcome);
      AnyToldHead(s, ResumeOne(s, id, outcome), q.ids, outcome);
    }
  }

  lemma RestNotHead(s: State, q: Queue)
    requires Core(s, q) && q.ids != []
    ensures q.ids[0] !in q.ids[1..] && forall x :: x in q.ids ==> x in s.ops
  {
    QueuedOnce(s, q, q.ids[0]);
    forall x | x in q.ids ensures x in s.ops { QueuedOnce(s, q, x); }
  }

  lemma AnyToldHead(s: State, s1: State, ids: seq<nat>, outcome: Pin.Outcome)
    requires ids != [] && ids[0] !in ids[1..] && forall x :: x in ids ==> x in s.ops
    requires s1.closed <==> s.closed || (outcome == Pin.TokenRemoved && !s.ops[ids[0]].retryLogin
                                         && !s.ops[ids[0]].cancelled)
    requires forall x :: x in s.ops && x != ids[0] ==>
               && x in s1.ops && s1.ops[x].retryLogin == s.ops[x].retryLogin
               && (s1.ops[x].cancelled == s.ops[x].cancelled || s1.closed)
               && (s.ops[x].cancelled ==> s1.ops[x].cancelled)
    ensures s1.closed || (outcome == Pin.TokenRemoved && AnyTold(s1, ids[1..]))
            <==> s.closed || (outcome == Pin.TokenRemoved && AnyTold(s, ids))
  {
    assert forall x :: x in ids <==> x == ids[0] || x in ids[1..];
    if AnyTold(s1, ids[1..]) {
      var x :| x in ids[1..] && x in s1.ops && !s1.ops[x].retryLogin && !s1.ops[x].cancelled;
      assert x in ids && !s.ops[x].cancelled;
    }
    if AnyTold(s, ids) {
      var x :| x in ids && x in s.ops && !s.ops[x].retryLogin && !s.ops[x].cancelled;
      assert x == ids[0] || (x in ids[1..] && (s1.closed || !s1.ops[x].cancelled));
    }
  }

  lemma FinishFates(s: State, outcome: Pin.Outcome)
    requires Consistent(s)
    ensures var t := FinishLogin(s, outcome);
            forall x :: x in Waiters(s.login) ==>
              && x in s.ops && x in t.ops
              && Fate(s.ops[x], outcome, t.opening[x] == 1, t.signing[x] == 1, t.ops[x])
  {
    var t := FinishLogin(s, outcome);
    hide FinishLogin, Resumed, Consistent, Fate;
    forall x | x in Waiters(s.login)
      ensures x in s.ops && x in t.ops
      ensures Fate(s.ops[x], outcome, t.opening[x] == 1, t.signing[x] == 1, t.ops[x])
    {
      FinishIsFair(s, outcome, x);
      ResumedFate(s.ops[x], outcome, t.opening[x], t.signing[x], t.ops[x]);
    }
  }

  lemma FinishSpares(s: State, outcome: Pin.Outcome)
    ensures var t := FinishLogin(s, outcome);
            forall x :: x in s.ops && x !in Waiters(s.login) ==>
              && x in t.ops && t.opening[x] == s.opening[x] && t.signing[x] == s.signing[x]
              && (t.ops[x] == s.ops[x]
                  || (outcome == Pin.TokenRemoved && t.ops[x] == OnClosing(false, s.ops[x])))
  {
    var t := FinishLogin(s, outcome);
    hide FinishLogin, OnClosing;
    forall x | x in s.ops && x !in Waiters(s.login)
      ensures && x in t.ops && t.opening[x] == s.opening[x] && t.signing[x] == s.signing[x]
              && (t.ops[x] == s.ops[x]
                  || (outcome == Pin.TokenRemoved && t.ops[x] == OnClosing(false, s.ops[x])))
    {
      FinishUntouched(s, outcome, x);
    }
  }

  lemma FinishCloses(s: State, outcome: Pin.Outcome)
    requires Consistent(s)
    ensures var t := FinishLogin(s, outcome);
            && t.next == s.next && t.device == s.device && t.login == Over(s.login)
            && (t.closed <==> s.closed || (outcome == Pin.TokenRemoved && exists x :: Told(s, x)))
  {
    var q, s1 := QueueOf(s.login), s.(login := Over(s.login));
    OverGood(s);
    assert q.newest < s1.login.generation;
    AnyToldIs(s, s1);
    hide Core, Resume, Consistent, AnyTold, Told;
    ResumeCloses(s1, q, outcome);
  }

  lemma FinishOver(s: State, outcome: Pin.Outcome)
    requires Consistent(s) && s.login.interaction.Some?
    ensures LoginOver(s, FinishLogin(s, outcome), outcome)
  {
    FinishFates(s, outcome);
    FinishSpares(s, outcome);
    FinishCloses(s, outcome);
    hide FinishLogin, OnClosing, Fate, Consistent, Told, Waiters;
  }

  lemma AnyToldIs(s: State, s1: State)
    requires s1.ops == s.ops
    ensures AnyTold(s1, Waiters(s.login)) <==> exists x :: Told(s, x)
  {
    if AnyTold(s1, Waiters(s.login)) {
      var x :| x in Waiters(s.login) && x in s1.ops && !s1.ops[x].retryLogin && !s1.ops[x].cancelled;
      assert Told(s, x);
    }
  }

  lemma FinishUntouched(s: State, outcome: Pin.Outcome, x: nat)
    requires x in s.ops && x !in Waiters(s.login)
    ensures var t := FinishLogin(s, outcome);
            && x in t.ops && t.opening[x] == s.opening[x] && t.signing[x] == s.signing[x]
            && (t.ops[x] == s.ops[x]
                || (outcome == Pin.TokenRemoved && t.ops[x] == OnClosing(false, s.ops[x])))
  {
    FinishKeeps(s, outcome, x);
    StruckIs(s.ops[x]);
    hide FinishLogin, Struck, OnClosing;
  }

  /** The prompt answers. What it answered counts, but for an Ok that comes after
      everybody gave up. A login that C_Login performed and that is not wanted is released
      first, with nobody resumed; every other is over at once. */
  lemma PromptAnswered(rebinds: bool, loginRequired: bool, events: seq<Event>, outcome: Pin.Outcome)
    requires var s := Run(rebinds, loginRequired, events);
             && s.login.interaction.Some? && !s.login.interaction.value.releasing
             && (outcome == Pin.Ok ==> s.login.interaction.value.succeeded
                                       && !s.login.interaction.value.deferring)
    ensures var s := Run(rebinds, loginRequired, events);
            var t := Run(rebinds, loginRequired, events + [PinAnswered(outcome)]);
            var i := s.login.interaction.value;
            var counts := if outcome == Pin.Ok && s.login.cancellable == Some(true)
                          then Pin.PinCancelled else outcome;
            if counts != Pin.Ok && i.performed.Some? then
              && t == s.(login := t.login, clock := t.clock) && t.login.interaction.Some?
              && t.login == s.login.(cancellable := Some(true), interaction := t.login.interaction)
              && var i' := t.login.interaction.value;
              && i' == i.(outcome := counts, releasing := true, began := i'.began) && i'.began.Some?
            else LoginOver(s, t, counts)
  {
    var s := Run(rebinds, loginRequired, events);
    RunNext(rebinds, loginRequired, events, PinAnswered(outcome));
    hide Run;
    var counts := if outcome == Pin.Ok && s.login.cancellable == Some(true)
                  then Pin.PinCancelled else outcome;
    FinishOver(s, counts);
    hide Consistent, LoginOver;
    PromptStep(s, outcome);
    hide Step;
  }

  lemma PromptStep(s: State, outcome: Pin.Outcome)
    requires s.login.interaction.Some? && !s.login.interaction.value.releasing
    requires outcome == Pin.Ok ==> s.login.interaction.value.succeeded
                                   && !s.login.interaction.value.deferring
    ensures var t, i := Step(s, PinAnswered(outcome)), s.login.interaction.value;
            var counts := if outcome == Pin.Ok && s.login.cancellable == Some(true)
                          then Pin.PinCancelled else outcome;
            if counts != Pin.Ok && i.performed.Some? then
              && t == s.(login := t.login, clock := t.clock) && t.login.interaction.Some?
              && t.login == s.login.(cancellable := Some(true), interaction := t.login.interaction)
              && var i' := t.login.interaction.value;
              && i' == i.(outcome := counts, releasing := true, began := i'.began) && i'.began.Some?
            else t == FinishLogin(s, counts)
  {
    assert Step(s, PinAnswered(outcome)) == PinDone(s, outcome) by { hide PinDone; }
    hide FinishLogin, Step;
  }

  /** The release of a thrown-away login gives the token session back, and when that is
      done the login is over with the outcome it had. */
  lemma ReleaseReports(rebinds: bool, loginRequired: bool, events: seq<Event>)
    requires var s := Run(rebinds, loginRequired, events);
             s.login.interaction.Some? && s.login.interaction.value.releasing
    ensures var s := Run(rebinds, loginRequired, events);
            var i := s.login.interaction.value;
            if !i.released then
              var t := Run(rebinds, loginRequired, events + [ReleaseWorker]);
              && GivenUp(s.device, t.device)
              && t == s.(device := t.device,
                         login := s.login.(interaction := Some(i.(released := true))))
            else LoginOver(s, Run(rebinds, loginRequired, events + [ReleaseReturned]), i.outcome)
  {
    var s := Run(rebinds, loginRequired, events);
    RunNext(rebinds, loginRequired, events, ReleaseWorker);
    RunNext(rebinds, loginRequired, events, ReleaseReturned);
    assert s.device.session.None? ==> !s.device.key && !s.device.loggedIn;
    hide Run;
    FinishOver(s, s.login.interaction.value.outcome);
    GivesUp(s.device);
    ReleaseSteps(s);
    hide Consistent, Step, LoginOver, FinishLogin, GivenUp, Closed;
  }

  lemma ReleaseSteps(s: State)
    requires s.login.interaction.Some? && s.login.interaction.value.releasing
    ensures var i := s.login.interaction.value;
            if !i.released then
              Step(s, ReleaseWorker)
              == s.(device := Closed(s.device),
                    login := s.login.(interaction := Some(i.(released := true))))
            else Step(s, ReleaseReturned) == FinishLogin(s, i.outcome)
  {
    hide FinishLogin, Closed;
  }

  // ----- Cancelling and closing -----

  /** A cancelled operation that waits hears of it through an idle; one whose idle has
      run is answered and leaves the waiters, and the last to leave gives up the prompt. */
  lemma CancellationHeard(rebinds: bool, loginRequired: bool, events: seq<Event>, id: nat)
    requires id in Run(rebinds, loginRequired, events).ops
    ensures var s := Run(rebinds, loginRequired, events);
            var o := s.ops[id];
            Run(rebinds, loginRequired, events + [OpCancelled(id)])
            == s.(ops := s.ops[id := if o.cancelled then o
                                     else o.(cancelled := true,
                                             cancelIdle := o.cancelIdle || o.connected)])
    ensures var s := Run(rebinds, loginRequired, events);
            var t := Run(rebinds, loginRequired, events + [WaiterCancelled(id)]);
            s.ops[id].cancelIdle ==>
              && id in Waiters(s.login) && id in t.ops && t.ops == s.ops[id := t.ops[id]]
              && t.ops[id].answer == Some(Failure(RequestCancelled))
              && t.opening == s.opening && t.signing == s.signing && t.device == s.device
              && t.login.generation == s.login.generation
              && (forall x :: multiset(Waiters(t.login))[x]
                              == multiset(Waiters(s.login))[x] - (if x == id then 1 else 0))
              && (t.login.cancellable == Some(true)
                  <==> Waiters(t.login) == [] || s.login.cancellable == Some(true))
  {
    var s := Run(rebinds, loginRequired, events);
    RunNext(rebinds, loginRequired, events, OpCancelled(id));
    RunNext(rebinds, loginRequired, events, WaiterCancelled(id));
    hide Run;
    if s.ops[id].cancelIdle {
      LeavingSparesOthers(s, id);
      IdleStep(s, id);
    }
    CancelStep(s, id);
    hide Consistent, Step;
  }

  lemma CancelStep(s: State, id: nat)
    requires id in s.ops
    ensures var o := s.ops[id];
            Step(s, OpCancelled(id))
            == s.(ops := s.ops[id := if o.cancelled then o
                                     else o.(cancelled := true,
                                             cancelIdle := o.cancelIdle || o.connected)])
  {
  }

  lemma IdleStep(s: State, id: nat)
    requires id in s.ops && s.ops[id].cancelIdle
    ensures var t := WaiterIdle(s, id);
            && Step(s, WaiterCancelled(id)) == t && id in t.ops && t.ops == s.ops[id := t.ops[id]]
            && t.opening == s.opening && t.signing == s.signing && t.device == s.device
            && t.login.generation == s.login.generation
  {
    hide Respond, Detached;
  }

  /** Closing the session, once; the release of its device; and the end of the grant's
      time, which by itself stops nobody. */
  lemma SessionEnds(rebinds: bool, loginRequired: bool, events: seq<Event>)
    ensures var s := Run(rebinds, loginRequired, events);
            var t := Run(rebinds, loginRequired, events + [SessionClosing]);
            && Closes(s, t) && t == s.(closed := true, ops := t.ops, releases := t.releases)
            && forall x :: x in s.ops ==> t.ops[x] == OnClosing(s.closed, s.ops[x])
    ensures var s := Run(rebinds, loginRequired, events);
            var t := Run(rebinds, loginRequired, events + [ClosedRelease]);
            s.releases > 0 ==>
              GivenUp(s.device, t.device) && t == s.(device := t.device, releases := s.releases - 1)
    ensures var s := Run(rebinds, loginRequired, events);
            Run(rebinds, loginRequired, events + [Expiring]) == s.(expired := true)
  {
    var s := Run(rebinds, loginRequired, events);
    RunNext(rebinds, loginRequired, events, SessionClosing);
    RunNext(rebinds, loginRequired, events, ClosedRelease);
    RunNext(rebinds, loginRequired, events, Expiring);
    assert s.device.session.None? ==> !s.device.key && !s.device.loggedIn;
    hide Run, Consistent;
    CloseCloses(s);
    EndSteps(s);
    GivesUp(s.device);
    hide Step, CloseSession, Closes, OnClosing, GivenUp, Closed;
  }

  lemma EndSteps(s: State)
    ensures Step(s, SessionClosing) == CloseSession(s)
    ensures s.releases > 0 ==>
              Step(s, ClosedRelease) == s.(device := Closed(s.device), releases := s.releases - 1)
    ensures Step(s, Expiring) == s.(expired := true)
  {
    hide CloseSession, Closed;
  }

  lemma GivesUp(d: Device)
    requires d.session.None? ==> !d.key && !d.loggedIn
    ensures GivenUp(d, Closed(d))
  {
    assert d.closed + [] == d.closed;
  }
}
