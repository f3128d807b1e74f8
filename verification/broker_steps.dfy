/** What each report does to the shared login (src/broker/operations.c), said of the
    fields it touches, in every run and for every report that may come next. The
    predicates are written out over the state before and after. */
module LoginBrokerSteps {
  import opened Optional
  import opened TokenDevice
  import Pin = PinPrompts
  import opened LoginBroker
  import opened LoginBrokerInvariant
  import opened LoginBrokerResults

  lemma RunNext(rebinds: bool, loginRequired: bool, events: seq<Event>, e: Event)
    ensures Run(rebinds, loginRequired, events + [e])
         == Step(Run(rebinds, loginRequired, events), e)
    ensures Consistent(Run(rebinds, loginRequired, events))
  {
    hide Step, Consistent;
    assert (events + [e])[..|events|] == events;
    RunConsistent(rebinds, loginRequired, events);
  }

  lemma PutTwice(ops: map<nat, Op>, id: nat, o: Op, o': Op)
    ensures ops[id := o][id := o'] == ops[id := o']
  {
  }

  // ----- Admission -----

  /** A new operation is on record; nothing but its opening and its charge is new. */
  predicate Taken(s: State, t: State, bound: bool, decrypt: bool, admitted: bool) {
    && s.next !in s.ops && s.next in t.ops
    && var o := t.ops[s.next];
    && t == s.(ops := s.ops[s.next := o], next := s.next + 1, opening := t.opening,
               decrypts := t.decrypts)
    && o.bound == bound && o.decrypt == decrypt && !o.cancelled && !o.connected && !o.retryLogin
    && o.signResult.None?
    && (if admitted then
          && o.answer.None? && t.opening == s.opening + multiset{s.next}
          && o.openGen == s.login.generation && o.openResult.None? && !o.retriedOpen
          && t.decrypts == s.decrypts + (if decrypt then 1 else 0)
        else
          && o.answer == Some(Failure(NotAdmitted)) && t.opening == s.opening
          && t.decrypts == s.decrypts)
  }

  /** An operation is admitted if and only if its session has a grant that has been
      delivered, is open, in time, and permits it, and a decryption is within the 32 of
      the grant; it is then charged and opened, and otherwise answered at once. */
  lemma RequestTaken(rebinds: bool, loginRequired: bool, events: seq<Event>, bound: bool,
                     decrypt: bool, a: Admission)
    ensures var s := Run(rebinds, loginRequired, events);
            Taken(s, Run(rebinds, loginRequired, events + [Requested(bound, decrypt, a)]), bound,
                  decrypt,
                  !a.pending && a.granted && !s.closed && !s.expired && a.permitted && a.wellFormed
                  && (decrypt ==> s.decrypts < 32))
  {
    var s := Run(rebinds, loginRequired, events);
    RunNext(rebinds, loginRequired, events, Requested(bound, decrypt, a));
    assert s.next !in s.ops by { assert OpAt(s, QueueOf(s.login), s.next); }
    assert Step(s, Requested(bound, decrypt, a)) == Perform(s, bound, decrypt, a) by { hide Perform; }
    hide Run, Consistent, Step, Taken, Perform;
    PerformTaken(s, bound, decrypt, a);
  }

  lemma PerformIs(s: State, bound: bool, decrypt: bool, a: Admission)
    ensures var o := NewOp(bound, decrypt, s.login.generation);
            Perform(s, bound, decrypt, a)
            == if Admitted(s, decrypt, a) then
                 s.(ops := s.ops[s.next := Reopened(o, s.login.generation)], next := s.next + 1,
                    opening := s.opening + multiset{s.next},
                    decrypts := if decrypt then s.decrypts + 1 else s.decrypts)
               else
                 s.(ops := s.ops[s.next := Respond(o, Failure(NotAdmitted))], next := s.next + 1)
  {
    var o := NewOp(bound, decrypt, s.login.generation);
    PutTwice(s.ops, s.next, o, Reopened(o, s.login.generation));
    PutTwice(s.ops, s.next, o, Respond(o, Failure(NotAdmitted)));
    hide NewOp, Respond, Reopened, Admitted;
  }

  lemma PerformTaken(s: State, bound: bool, decrypt: bool, a: Admission)
    requires s.next !in s.ops
    ensures Taken(s, Perform(s, bound, decrypt, a), bound, decrypt,
                  !a.pending && a.granted && !s.closed && !s.expired && a.permitted && a.wellFormed
                  && (decrypt ==> s.decrypts < 32))
  {
    NewIs(NewOp(bound, decrypt, s.login.generation), bound, decrypt, s.login.generation);
    PerformIs(s, bound, decrypt, a);
    assert Admitted(s, decrypt, a)
      <==> !a.pending && a.granted && !s.closed && !s.expired && a.permitted && a.wellFormed
           && (decrypt ==> s.decrypts < 32);
    hide NewOp, Respond, Reopened, Perform, Admitted;
  }

  lemma NewIs(o: Op, bound: bool, decrypt: bool, generation: nat)
    requires o == NewOp(bound, decrypt, generation)
    ensures var r, p := Respond(o, Failure(NotAdmitted)), Reopened(o, generation);
            && r.answer == Some(Failure(NotAdmitted)) && p.answer.None? && p.openResult.None?
            && p.openGen == generation && !p.retriedOpen
            && (forall x :: x == r || x == p ==>
                  && x.bound == bound && x.decrypt == decrypt && !x.cancelled && !x.connected
                  && !x.retryLogin && x.signResult.None?)
  {
  }

  // ----- The open worker -----

  /** Why a worker is refused: its own cancellation first, then the session, then time. */
  function WhyRefused(s: State, cancelled: bool): Reason {
    if cancelled then RequestCancelled else if s.closed then SessionClosed else GrantExpired
  }

  /** The worker's operation has `found` to return, and the device is `d`. */
  predicate Returns(s: State, t: State, id: nat, found: Option<Opening>, d: Device) {
    id in s.ops && t == s.(device := d, ops := s.ops[id := s.ops[id].(openResult := found)])
  }

  /** A session that is recognised is kept; another is given back before a new one. */
  predicate Kept(s: State) { s.device.session.Some? && s.rebinds }

  /** The key is forgotten with the login it was seen under, and looked for after one. */
  predicate KeyKnown(known: bool, before: bool, visit: Visit, after: bool) {
    && visit.info.Known?
    && (after <==> (known && !(before && !visit.info.loggedIn))
                   || (visit.info.loggedIn && visit.keyAfter))
  }

  /** A visit to the token that finds its session, or opens one. */
  ghost predicate Visited(s: State, visit: Visit, d: Device) {
    && visit.info.Known? && d.loggedIn == visit.info.loggedIn
    && (if Kept(s) then
          && d.session == s.device.session && d.issued == s.device.issued
          && KeyKnown(s.device.key, s.device.loggedIn, visit, d.key)
        else
          && visit.opens && d.session == Some(s.device.issued) && d.issued == s.device.issued + 1
          && KeyKnown(visit.keyAtOpen, false, visit, d.key))
    && (forall h :: h in d.closed <==>
          h in s.device.closed || (!Kept(s) && s.device.session == Some(h)))
  }

  /** Refused, the open worker leaves the device alone. Otherwise it keeps a session that
      is recognised and opens another after giving the old one back; it fails as the
      token does; and it asks for a login if and only if nobody is logged in and the
      token wants a login or the key is not visible. */
  lemma OpenerReports(rebinds: bool, loginRequired: bool, events: seq<Event>, id: nat, visit: Visit)
    requires var s := Run(rebinds, loginRequired, events);
             id in s.ops && s.opening[id] > 0 && s.ops[id].openResult.None?
    ensures var s := Run(rebinds, loginRequired, events);
            var t := Run(rebinds, loginRequired, events + [OpenWorker(id, visit)]);
            if s.ops[id].cancelled || s.closed || s.expired then
              Returns(s, t, id, Some(OpenFailed(WhyRefused(s, s.ops[id].cancelled))), s.device)
            else if !Kept(s) && !visit.opens then
              && Returns(s, t, id, Some(OpenFailed(ByToken(visit.removed))), t.device)
              && t.device.session.None? && t.device.issued == s.device.issued
            else if visit.info.Unknown? then
              && Returns(s, t, id, Some(OpenFailed(ByToken(visit.info.removed))), t.device)
              && t.device.session == if Kept(s) then s.device.session else Some(s.device.issued)
            else
              && Visited(s, visit, t.device)
              && Returns(s, t, id, Some(Ready(!t.device.loggedIn && (s.loginRequired || !t.device.key))),
                         t.device)
  {
    var s := Run(rebinds, loginRequired, events);
    RunNext(rebinds, loginRequired, events, OpenWorker(id, visit));
    hide Run, Consistent;
    OpenedVisits(s, visit);
    OpenStep(s, id, visit);
    hide Step, Opened, Visited;
  }

  lemma OpenStep(s: State, id: nat, visit: Visit)
    requires id in s.ops && s.opening[id] > 0 && s.ops[id].openResult.None?
    ensures var (d, found) := OpenVisit(s, s.ops[id], visit);
            Returns(s, Step(s, OpenWorker(id, visit)), id, Some(found), d)
  {
    hide OpenVisit;
  }

  lemma OpenedVisits(s: State, visit: Visit)
    ensures var (d, verdict) := Opened(s.device, s.rebinds, visit);
            if !Kept(s) && !visit.opens then
              verdict == Refused(visit.removed) && d.session.None? && d.issued == s.device.issued
            else if visit.info.Unknown? then
              && verdict == Refused(visit.info.removed)
              && d.session == if Kept(s) then s.device.session else Some(s.device.issued)
            else verdict == Fine && Visited(s, visit, d)
  {
  }

  // ----- An open that has returned -----

  /** The operation leaves the open workers; `o` is its record from here on. */
  predicate Leaves(s: State, t: State, id: nat, o: Op) {
    id in s.ops && t.ops == s.ops[id := o] && t.next == s.next && t.device == s.device
    && t.closed == s.closed && t.expired == s.expired && t.releases == s.releases
    && t.signer == s.signer && t.decrypts == s.decrypts
  }

  predicate FailedWith(s: State, t: State, id: nat, reason: Reason) {
    && id in t.ops && Leaves(s, t, id, t.ops[id]) && t.ops[id].answer == Some(Failure(reason))
    && t.opening == s.opening - multiset{id} && t.signing == s.signing && t.login == s.login
  }

  /** As a waiter the operation shares the login that is up. */
  predicate Joins(s: State, t: State, id: nat) {
    && id in t.ops && Leaves(s, t, id, t.ops[id]) && t.ops[id].answer.None?
    && t.opening == s.opening - multiset{id} && t.signing == s.signing && t.ops[id].connected
    && t.login == s.login.(waiters := t.login.waiters) && s.login.waiters.Some?
    && t.login.waiters == Some(s.login.waiters.value + [id])
    && (t.ops[id].retryLogin
        <==> s.login.cancellable == Some(true)
             || (s.login.interaction.Some? && s.login.interaction.value.deferring))
  }

  predicate OpensAgain(s: State, t: State, id: nat) {
    && id in t.ops && Leaves(s, t, id, t.ops[id]) && t.ops[id].answer.None?
    && t.opening == s.opening && t.signing == s.signing && t.login == s.login
    && t.ops[id].openGen == s.login.generation && t.ops[id].openResult.None?
    && t.ops[id].trace.opens == s.ops[id].trace.opens + 1
  }

  /** A prompt is up for the operation alone. */
  predicate Prompts(s: State, t: State, id: nat) {
    && id in t.ops && Leaves(s, t, id, t.ops[id]) && t.ops[id].answer.None?
    && t.opening == s.opening - multiset{id} && t.signing == s.signing
    && t.ops[id].connected && !t.ops[id].retryLogin
    && t.login.inProgress && t.login.generation == s.login.generation
    && t.login.waiters == Some([id]) && t.login.cancellable == Some(false)
    && t.login.interaction.Some?
    && var i := t.login.interaction.value;
    && i.performed.None? && !i.succeeded && !i.deferring && !i.releasing && i.began.None?
  }

  /** There is nowhere to ask: the login is over at once, and the operation with it. */
  predicate NowhereToAsk(s: State, t: State, id: nat) {
    && id in t.ops && Leaves(s, t, id, t.ops[id])
    && t.ops[id].answer == Some(Failure(LoginEnded(Pin.NoDisplay)))
    && t.opening == s.opening - multiset{id} && t.signing == s.signing
    && !t.login.inProgress && t.login.waiters.None? && t.login.interaction.None?
    && t.login.generation == s.login.generation + 1
  }

  predicate GoesToSign(s: State, t: State, id: nat) {
    && id in t.ops && Leaves(s, t, id, t.ops[id]) && t.ops[id].answer.None?
    && t.opening == s.opening - multiset{id} && t.signing == s.signing + multiset{id}
    && t.login == s.login && t.ops[id].signResult.None?
  }

  /** Closing a session cancels its bound, unanswered operations, a waiter's through an
      idle, and nobody else's. */
  function OnClosing(closed: bool, o: Op): Op {
    if !closed && o.bound && o.answer.None? && !o.cancelled
    then o.(cancelled := true, cancelIdle := o.cancelIdle || o.connected) else o
  }

  /** The session is closed from here on, and the device due for release. */
  predicate Closes(s: State, t: State) {
    && t.closed && t.ops.Keys == s.ops.Keys
    && t.releases == (if s.closed || s.device.session.None? then s.releases else s.releases + 1)
  }

  /** A session that the token has gone from is closed, and its operation failed. */
  predicate FailedByRemoval(s: State, t: State, id: nat) {
    && id in s.ops && Closes(s, t) && t.opening == s.opening - multiset{id}
    && t.signing == s.signing && t.login == s.login && t.device == s.device
    && t.ops[id].answer == Some(Failure(ByToken(true)))
    && forall x :: x in s.ops && x != id ==> t.ops[x] == OnClosing(s.closed, s.ops[x])
  }

  /** An operation that has been opened fails if it was cancelled, if the token failed,
      if the session is closed or out of time. With a login in progress it joins the
      waiters. Otherwise, if it needs a login, it opens again when a login has finished
      since it looked, and else asks for one, if there is a display; and if it needs
      none it goes to sign. */
  lemma OpenedGoesOn(rebinds: bool, loginRequired: bool, events: seq<Event>, id: nat, display: bool)
    requires var s := Run(rebinds, loginRequired, events);
             id in s.ops && s.opening[id] > 0 && s.ops[id].openResult.Some?
    ensures var s := Run(rebinds, loginRequired, events);
            var t := Run(rebinds, loginRequired, events + [OpenReturned(id, display)]);
            var o, found := s.ops[id], s.ops[id].openResult.value;
            if o.cancelled then FailedWith(s, t, id, RequestCancelled)
            else if found == OpenFailed(ByToken(true)) then FailedByRemoval(s, t, id)
            else if found.OpenFailed? then FailedWith(s, t, id, found.reason)
            else if s.closed then FailedWith(s, t, id, SessionClosed)
            else if s.expired then FailedWith(s, t, id, GrantExpired)
            else if s.login.inProgress then Joins(s, t, id)
            else if !found.needsLogin then GoesToSign(s, t, id)
            else if o.openGen != s.login.generation then OpensAgain(s, t, id)
            else if display then Prompts(s, t, id)
            else NowhereToAsk(s, t, id)
  {
    var s := Run(rebinds, loginRequired, events);
    RunNext(rebinds, loginRequired, events, OpenReturned(id, display));
    var o, found := s.ops[id], s.ops[id].openResult.value;
    OpeningKnown(s, id);
    hide Run, Consistent;
    OpenedStep(s, id, display);
    if o.cancelled {
      FailFails(s, id, RequestCancelled);
    } else if found.OpenFailed? {
      FailFails(s, id, found.reason);
      RemovalFails(s, id);
    } else if s.closed || s.expired {
      FailFails(s, id, SessionClosed);
      FailFails(s, id, GrantExpired);
    } else if s.login.inProgress {
      JoinJoins(s, id);
    } else {
      NoLoginGoes(s, id, found.needsLogin, display);
    }
    hide Step, Joins, GoesToSign, OpensAgain, Prompts, NowhereToAsk, FailedWith, FailedByRemoval,
         Fail, FailByToken, Proceed, CloseSession;
  }

  function Left(s: State, id: nat): State { s.(opening := s.opening - multiset{id}) }

  lemma OpeningKnown(s: State, id: nat)
    requires Consistent(s) && id in s.ops && s.opening[id] > 0
    ensures s.ops[id].answer.None? && !s.ops[id].retryLogin && s.opening[id] == 1 && s.signing[id] == 0
    ensures s.login.inProgress == s.login.waiters.Some? == s.login.interaction.Some?
  {
    assert OpAt(s, QueueOf(s.login), id);
  }

  lemma OpenedStep(s: State, id: nat, display: bool)
    requires id in s.ops && s.opening[id] > 0 && s.ops[id].openResult.Some?
    ensures var t, o, found := Step(s, OpenReturned(id, display)), s.ops[id], s.ops[id].openResult.value;
            && (o.cancelled ==> t == Fail(Left(s, id), id, RequestCancelled))
            && (!o.cancelled && found.OpenFailed? ==>
                  t == FailByToken(Left(s, id), id, found.reason))
            && (!o.cancelled && found.Ready? ==>
                  t == if s.closed then Fail(Left(s, id), id, SessionClosed)
                       else if s.expired then Fail(Left(s, id), id, GrantExpired)
                       else Proceed(Left(s, id), id, found.needsLogin, display))
  {
    hide Fail, FailByToken, Proceed;
  }

  lemma FailFails(s: State, id: nat, reason: Reason)
    requires id in s.ops && s.ops[id].answer.None?
    ensures FailedWith(s, Fail(Left(s, id), id, reason), id, reason)
    ensures reason != ByToken(true) ==>
              FailByToken(Left(s, id), id, reason) == Fail(Left(s, id), id, reason)
  {
    hide CloseSession;
  }

  lemma RemovalFails(s: State, id: nat)
    requires id in s.ops && s.ops[id].answer.None?
    ensures FailedByRemoval(s, FailByToken(Left(s, id), id, ByToken(true)), id)
  {
    var s1 := CloseSession(Left(s, id));
    CloseCloses(Left(s, id));
    assert s1.ops[id].answer.None?;
    FailIs(s1, id, ByToken(true));
    assert FailByToken(Left(s, id), id, ByToken(true)) == Fail(s1, id, ByToken(true)) by {
      hide Fail, CloseSession;
    }
    hide CloseSession, Fail, FailByToken, OnClosing;
  }

  lemma FailIs(s: State, id: nat, reason: Reason)
    requires id in s.ops && s.ops[id].answer.None?
    ensures var t := Fail(s, id, reason);
            && id in t.ops && t == s.(ops := s.ops[id := t.ops[id]])
            && t.ops[id].answer == Some(Failure(reason))
  {
  }

  lemma CloseCloses(s: State)
    ensures var t := CloseSession(s);
            && Closes(s, t) && t == s.(closed := true, ops := t.ops, releases := t.releases)
            && forall x :: x in s.ops ==> t.ops[x] == OnClosing(s.closed, s.ops[x])
  {
  }

  lemma JoinJoins(s: State, id: nat)
    requires id in s.ops && s.ops[id].answer.None? && s.opening[id] > 0
    requires s.login.inProgress && s.login.waiters.Some?
    ensures forall needsLogin, display ::
              Joins(s, Proceed(Left(s, id), id, needsLogin, display), id)
  {
    var s1 := Left(s, id);
    assert Joins(s, Join(s1, id), id);
    hide Joins, Join, OpenOperation, StartLogin, RunOperation;
  }

  lemma NoLoginGoes(s: State, id: nat, needsLogin: bool, display: bool)
    requires Consistent(s)
    requires id in s.ops && s.ops[id].answer.None? && s.opening[id] == 1 && !s.ops[id].retryLogin
    requires !s.login.inProgress && s.login.waiters.None? && s.login.interaction.None?
    requires !s.ops[id].cancelled
    ensures var t := Proceed(Left(s, id), id, needsLogin, display);
            if !needsLogin then GoesToSign(s, t, id)
            else if s.ops[id].openGen != s.login.generation then OpensAgain(s, t, id)
            else if display then Prompts(s, t, id)
            else NowhereToAsk(s, t, id)
  {
    var s1 := Left(s, id);
    hide Consistent;
    if !needsLogin {
      assert s1.signing == s.signing;
      hide GoesToSign, OpensAgain, Prompts, NowhereToAsk, Join, OpenOperation, StartLogin;
      RunGoes(s, id);
      hide RunOperation;
    } else if s.ops[id].openGen != s.login.generation {
      OpenGoes(s, id);
      hide GoesToSign, OpensAgain, Prompts, NowhereToAsk, Join, OpenOperation, StartLogin, RunOperation;
    } else {
      StartGoes(s, id);
      hide GoesToSign, OpensAgain, Prompts, NowhereToAsk, Join, OpenOperation, StartLogin, RunOperation;
    }
  }

  lemma RunGoes(s: State, id: nat)
    requires id in s.ops && s.ops[id].answer.None?
    ensures GoesToSign(s, RunOperation(Left(s, id), id), id)
  {
  }

  lemma OpenGoes(s: State, id: nat)
    requires id in s.ops && s.ops[id].answer.None? && s.opening[id] > 0
    ensures OpensAgain(s, OpenOperation(Left(s, id), id), id)
  {
  }

  lemma StartGoes(s: State, id: nat)
    requires id in s.ops && s.ops[id].answer.None? && s.opening[id] > 0 && !s.ops[id].retryLogin
    requires s.login.waiters.None? && !s.ops[id].cancelled
    ensures Prompts(s, StartLogin(Left(s, id), id, true), id)
    ensures NowhereToAsk(s, StartLogin(Left(s, id), id, false), id)
  {
    var s1 := StartLogin(Left(s, id), id, true);
    assert s1.login.waiters == Some([id]) by {
      assert [] + [id] == [id];
      hide PinDone, Joined;
    }
    assert Prompts(s, s1, id) by { hide PinDone; }
    var t := StartLogin(Left(s, id), id, false);
    assert t == PinDone(s1, Pin.NoDisplay) by { hide PinDone; }
    assert t == Resume(s1.(login := Over(s1.login)), [id], Pin.NoDisplay) by { hide Resume, StartLogin; }
    var o := Detached(s1.ops[id]);
    var s2 := s1.(login := Over(s1.login));
    assert !o.retryLogin && !o.cancelled && o.answer.None?;
    ResumeUnrolled(s2, [id], Pin.NoDisplay);
    assert t == Fail(Put(s2, id, o), id, LoginEnded(Pin.NoDisplay)) by {
      hide Fail, StartLogin, Detached, Over, PinDone;
      assert [id][1..] == [];
    }
    PutTwice(s1.ops, id, o, Respond(o, Failure(LoginEnded(Pin.NoDisplay))));
    PutTwice(s.ops, id, s1.ops[id], Respond(o, Failure(LoginEnded(Pin.NoDisplay))));
    hide StartLogin, Detached, PinDone, Resume;
  }
}
