/** Signing, and the end of a login, said of the fields they touch, in every run
    (src/broker/operations.c). */
module LoginBrokerSigns {
  import opened Optional
  import opened TokenDevice
  import Pin = PinPrompts
  import opened LoginBroker
  import opened LoginBrokerInvariant
  import opened LoginBrokerResults
  import opened LoginBrokerSteps

  // ----- The sign worker -----

  /** The worker's operation has `found` to return, and the device is `d`. */
  predicate Finds(s: State, t: State, id: nat, found: Signing, d: Device) {
    id in s.ops && t == s.(device := d, ops := s.ops[id := s.ops[id].(signResult := Some(found))])
  }

  /** The login state has been read again; the token session is the same. */
  predicate ReadAgain(d: Device, visit: Visit, d': Device) {
    && visit.info.Known? && d.session.Some? && d' == d.(loggedIn := visit.info.loggedIn, key := d'.key)
    && KeyKnown(d.key, d.loggedIn, visit, d'.key)
  }

  /** What the token does with submitted work; a decryption that fails never says why. */
  predicate Submitted(s: State, t: State, id: nat, submission: Submission)
    requires id in s.ops
  {
    match submission
    case Direct => Finds(s, t, id, Produced, t.device)
    case Rejected(removed) =>
      Finds(s, t, id, SignFailed(ByToken(removed && !s.ops[id].decrypt)), t.device)
    case NeedsPin => t == s.(device := t.device, signer := Some((id, t.device.session)))
  }

  /** The sign worker of an operation that is refused leaves the device alone. Otherwise
      it finds the state stale if there is no token session, or if nobody is logged in
      and the token wants a login or the key is not visible; it fails if the key is
      still not visible; and it submits the work in every other case. */
  lemma SignerReports(rebinds: bool, loginRequired: bool, events: seq<Event>, id: nat, visit: Visit,
                      submission: Submission)
    requires var s := Run(rebinds, loginRequired, events);
             && id in s.ops && s.signing[id] > 0 && s.ops[id].signResult.None? && s.signer.None?
    ensures var s := Run(rebinds, loginRequired, events);
            var t := Run(rebinds, loginRequired, events + [SignWorker(id, visit, submission)]);
            if s.ops[id].cancelled || s.closed || s.expired then
              Finds(s, t, id, SignFailed(WhyRefused(s, s.ops[id].cancelled)), s.device)
            else if s.device.session.None? then Finds(s, t, id, Stale, s.device)
            else if visit.info.Unknown? then
              Finds(s, t, id, SignFailed(ByToken(visit.info.removed)), s.device)
            else
              && ReadAgain(s.device, visit, t.device)
              && (if !t.device.loggedIn && (s.loginRequired || !t.device.key) then
                    Finds(s, t, id, Stale, t.device)
                  else if !t.device.key then Finds(s, t, id, SignFailed(ByToken(false)), t.device)
                  else Submitted(s, t, id, submission))
  {
    var s := Run(rebinds, loginRequired, events);
    RunNext(rebinds, loginRequired, events, SignWorker(id, visit, submission));
    hide Run, Consistent;
    SignStep(s, id, visit, submission);
    SignVisits(s, s.ops[id], visit, submission);
    hide Step, SignVisit, ReadAgain;
  }

  lemma SignStep(s: State, id: nat, visit: Visit, submission: Submission)
    requires id in s.ops && s.signing[id] > 0 && s.ops[id].signResult.None? && s.signer.None?
    ensures var (d, found) := SignVisit(s, s.ops[id], visit, submission);
            var t := Step(s, SignWorker(id, visit, submission));
            if found.Some? then Finds(s, t, id, found.value, d)
            else t == s.(device := d, signer := Some((id, d.session)))
  {
    assert Step(s, SignWorker(id, visit, submission)) == SignThread(s, id, visit, submission) by {
      hide SignThread;
    }
    hide SignVisit, Step;
  }

  lemma SignVisits(s: State, o: Op, visit: Visit, submission: Submission)
    ensures var (d, found) := SignVisit(s, o, visit, submission);
            if o.cancelled || s.closed || s.expired then
              d == s.device && found == Some(SignFailed(WhyRefused(s, o.cancelled)))
            else if s.device.session.None? then d == s.device && found == Some(Stale)
            else if visit.info.Unknown? then
              d == s.device && found == Some(SignFailed(ByToken(visit.info.removed)))
            else
              && ReadAgain(s.device, visit, d)
              && (if !d.loggedIn && (s.loginRequired || !d.key) then found == Some(Stale)
                  else if !d.key then found == Some(SignFailed(ByToken(false)))
                  else
                    match submission
                    case Direct => found == Some(Produced)
                    case Rejected(removed) =>
                      found == Some(SignFailed(ByToken(removed && !o.decrypt)))
                    case NeedsPin => found.None?)
  {
  }

  // ----- A PIN for one operation -----

  /** Nothing is kept of the token session; it is given back. */
  predicate GivenUp(d: Device, d': Device) {
    && d'.session.None? && !d'.key && !d'.loggedIn && d'.issued == d.issued
    && d'.closed == d.closed + if d.session.Some? then [d.session.value] else []
  }

  /** The PIN a key asks for has been asked for. The signature is made if and only if
      the PIN was taken, the operation is not refused, the token session is the one it
      was set up on and the token signs; unless only the token declined, the session is
      given up; and a decryption that fails never says why. */
  lemma ContextAnswered(rebinds: bool, loginRequired: bool, events: seq<Event>, outcome: Pin.Outcome,
                        accepted: bool)
    requires var s := Run(rebinds, loginRequired, events);
             s.signer.Some? && s.signer.value.0 in s.ops
    ensures var s := Run(rebinds, loginRequired, events);
            var t := Run(rebinds, loginRequired, events + [ContextPin(outcome, accepted)]);
            var (id, handle) := s.signer.value;
            var o := s.ops[id];
            var refused := o.cancelled || s.closed || s.expired;
            var moved := s.device.session.None? || s.device.session != handle;
            var found := if outcome != Pin.Ok then SignFailed(ByToken(false))
                         else if refused then
                           SignFailed(if o.decrypt then ByToken(false) else WhyRefused(s, o.cancelled))
                         else if moved then SignFailed(ByToken(!o.decrypt))
                         else if accepted then Produced else SignFailed(ByToken(false));
            && t == s.(device := t.device, signer := None,
                       ops := s.ops[id := o.(context := outcome, signResult := Some(found))])
            && (if outcome != Pin.Ok || refused || moved then GivenUp(s.device, t.device)
                else t.device == s.device)
  {
    var s := Run(rebinds, loginRequired, events);
    RunNext(rebinds, loginRequired, events, ContextPin(outcome, accepted));
    assert s.device.session.None? ==> !s.device.key && !s.device.loggedIn;
    assert s.device.closed + [] == s.device.closed;
    hide Run, Consistent;
    ContextStep(s, outcome, accepted);
    hide Step;
  }

  lemma ContextStep(s: State, outcome: Pin.Outcome, accepted: bool)
    requires s.signer.Some? && s.signer.value.0 in s.ops
    ensures var (id, handle) := s.signer.value;
            var (d, found) := ContextVisit(s, s.ops[id], handle, outcome, accepted);
            Step(s, ContextPin(outcome, accepted))
            == s.(device := d, signer := None,
                  ops := s.ops[id := s.ops[id].(context := outcome, signResult := Some(found))])
  {
    hide ContextVisit;
  }

  // ----- A signing that has returned -----

  /** The operation leaves the sign workers with `reason`, or with success. */
  predicate SigningEnds(s: State, t: State, id: nat, answer: Answered) {
    && id in s.ops && id in t.ops
    && t == s.(signing := s.signing - multiset{id}, ops := s.ops[id := t.ops[id]])
    && t.ops[id].answer == Some(answer)
  }

  predicate SigningEndsByRemoval(s: State, t: State, id: nat, reason: Reason) {
    && id in s.ops && Closes(s, t) && t.signing == s.signing - multiset{id}
    && t.opening == s.opening && t.login == s.login && t.device == s.device
    && t.ops[id].answer == Some(Failure(reason))
    && forall x :: x in s.ops && x != id ==> t.ops[x] == OnClosing(s.closed, s.ops[x])
  }

  /** One more open, the only one for a state that did not settle. */
  predicate OpensOnceMore(s: State, t: State, id: nat) {
    && id in s.ops && id in t.ops && !s.ops[id].retriedOpen
    && t == s.(signing := s.signing - multiset{id}, opening := s.opening + multiset{id},
               ops := s.ops[id := t.ops[id]])
    && t.ops[id].retriedOpen && t.ops[id].answer.None? && t.ops[id].openResult.None?
    && t.ops[id].openGen == s.login.generation
    && t.ops[id].trace.opens == s.ops[id].trace.opens + 1
  }

  /** A signing that returns after a cancellation fails with it. Stale state opens the
      operation once more, and the second time fails it. A failure is what the PIN of
      its own ended with, if that was not Ok, and otherwise the token's; a token that is
      gone closes the session. A signature succeeds if and only if it can be encoded. */
  lemma SignedGoesOn(rebinds: bool, loginRequired: bool, events: seq<Event>, id: nat, encodes: bool)
    requires var s := Run(rebinds, loginRequired, events);
             id in s.ops && s.signing[id] > 0 && s.ops[id].signResult.Some?
    ensures var s := Run(rebinds, loginRequired, events);
            var t := Run(rebinds, loginRequired, events + [SignReturned(id, encodes)]);
            var o := s.ops[id];
            if o.cancelled then SigningEnds(s, t, id, Failure(RequestCancelled))
            else
              match o.signResult.value
              case Produced =>
                SigningEnds(s, t, id, if encodes then Success else Failure(NotEncodable))
              case Stale =>
                if o.retriedOpen then SigningEnds(s, t, id, Failure(NotSettled))
                else OpensOnceMore(s, t, id)
              case SignFailed(reason) =>
                if o.context == Pin.TokenRemoved then
                  SigningEndsByRemoval(s, t, id, LoginEnded(Pin.TokenRemoved))
                else if o.context != Pin.Ok then SigningEnds(s, t, id, Failure(LoginEnded(o.context)))
                else if reason == ByToken(true) then SigningEndsByRemoval(s, t, id, reason)
                else SigningEnds(s, t, id, Failure(reason))
  {
    var s := Run(rebinds, loginRequired, events);
    RunNext(rebinds, loginRequired, events, SignReturned(id, encodes));
    SigningKnown(s, id);
    hide Run, Consistent;
    var o := s.ops[id];
    SignedStep(s, id, encodes);
    SigningFails(s, id, RequestCancelled);
    SigningFails(s, id, NotSettled);
    SigningFails(s, id, NotEncodable);
    SigningFails(s, id, LoginEnded(o.context));
    if o.signResult.value.SignFailed? {
      SigningFails(s, id, o.signResult.value.reason);
    }
    SigningSucceeds(s, id);
    if !o.retriedOpen {
      SigningOpensAgain(s, id);
    }
    hide Step, SigningEnds, SigningEndsByRemoval, OpensOnceMore, Fail, OpenOperation, CloseSession,
         Respond, Retried;
  }

  function Signed(s: State, id: nat): State { s.(signing := s.signing - multiset{id}) }

  lemma SigningKnown(s: State, id: nat)
    requires Consistent(s) && id in s.ops && s.signing[id] > 0
    ensures s.ops[id].answer.None? && s.opening[id] == 0
  {
    assert OpAt(s, QueueOf(s.login), id);
  }

  lemma SignedStep(s: State, id: nat, encodes: bool)
    requires id in s.ops && s.signing[id] > 0 && s.ops[id].signResult.Some?
    ensures var t, o, s1 := Step(s, SignReturned(id, encodes)), s.ops[id], Signed(s, id);
            if o.cancelled then t == Fail(s1, id, RequestCancelled)
            else
              match o.signResult.value
              case Produced =>
                t == if encodes then Put(s1, id, Respond(o, Success)) else Fail(s1, id, NotEncodable)
              case Stale =>
                t == if o.retriedOpen then Fail(s1, id, NotSettled)
                     else OpenOperation(Put(s1, id, Retried(o)), id)
              case SignFailed(reason) =>
                t == if o.context == Pin.TokenRemoved then
                       Fail(CloseSession(s1), id, LoginEnded(Pin.TokenRemoved))
                     else if o.context != Pin.Ok then Fail(s1, id, LoginEnded(o.context))
                     else if reason == ByToken(true) then Fail(CloseSession(s1), id, reason)
                     else Fail(s1, id, reason)
  {
    hide Fail, CloseSession, OpenOperation, Respond, Retried, RunOperation;
  }

  lemma SigningFails(s: State, id: nat, reason: Reason)
    requires id in s.ops && s.ops[id].answer.None?
    ensures SigningEnds(s, Fail(Signed(s, id), id, reason), id, Failure(reason))
    ensures id in CloseSession(Signed(s, id)).ops
    ensures SigningEndsByRemoval(s, Fail(CloseSession(Signed(s, id)), id, reason), id, reason)
  {
    FailIs(Signed(s, id), id, reason);
    var s1 := CloseSession(Signed(s, id));
    CloseCloses(Signed(s, id));
    assert s1.ops[id].answer.None?;
    FailIs(s1, id, reason);
    hide Fail, CloseSession, OnClosing;
  }

  lemma SigningSucceeds(s: State, id: nat)
    requires id in s.ops && s.ops[id].answer.None?
    ensures SigningEnds(s, Put(Signed(s, id), id, Respond(s.ops[id], Success)), id, Success)
  {
  }

  lemma SigningOpensAgain(s: State, id: nat)
    requires id in s.ops && s.ops[id].answer.None? && !s.ops[id].retriedOpen
    ensures OpensOnceMore(s, OpenOperation(Put(Signed(s, id), id, Retried(s.ops[id])), id), id)
  {
    PutTwice(s.ops, id, Retried(s.ops[id]), Reopened(Retried(s.ops[id]), s.login.generation));
    hide Signed;
  }

  // ----- The login worker -----

  /** A visit, and then a login that the token took. */
  ghost predicate VisitedAndLoggedIn(s: State, visit: Visit, d: Device) {
    exists d1: Device ::
      Visited(s, visit, d1) && d == d1.(loggedIn := true, key := d1.key || visit.keyAfter)
  }

  /** The login worker of a prompt nobody waits for, of a closed session or an expired
      grant does nothing. Otherwise it makes sure of the token session; if somebody is
      logged in already that is success, and if not it logs in, and notes the session
      if and only if the token accepted. */
  lemma LoginReports(rebinds: bool, loginRequired: bool, events: seq<Event>, visit: Visit,
                     accepted: bool, removed: bool)
    requires var s := Run(rebinds, loginRequired, events);
             && s.login.interaction.Some? && !s.login.interaction.value.releasing
             && !s.login.interaction.value.succeeded
    ensures var s := Run(rebinds, loginRequired, events);
            var t := Run(rebinds, loginRequired, events + [LoginWorker(visit, accepted, removed)]);
            var d, i, i' := t.device, s.login.interaction.value, t.login.interaction;
            && t == s.(device := d, login := s.login.(interaction := i'))
            && (if s.login.cancellable == Some(true) || s.closed || s.expired then t == s
                else if !Kept(s) && !visit.opens then
                  d.session.None? && d.issued == s.device.issued && i' == Some(i)
                else if visit.info.Unknown? then
                  && d.session == (if Kept(s) then s.device.session else Some(s.device.issued))
                  && i' == Some(i)
                else if visit.info.loggedIn then
                  Visited(s, visit, d) && i' == Some(i.(succeeded := true))
                else if !accepted then Visited(s, visit, d) && i' == Some(i)
                else
                  && VisitedAndLoggedIn(s, visit, d)
                  && i' == Some(i.(succeeded := true, performed := d.session)))
  {
    var s := Run(rebinds, loginRequired, events);
    RunNext(rebinds, loginRequired, events, LoginWorker(visit, accepted, removed));
    hide Run, Consistent;
    LoginStep(s, visit, accepted, removed);
    LoginVisits(s, visit, accepted, removed);
    hide Step, LoginVisit, Visited, VisitedAndLoggedIn;
  }

  lemma LoginVisits(s: State, visit: Visit, accepted: bool, removed: bool)
    ensures var (d, ok, performed) := LoginVisit(s, visit, accepted, removed);
            if s.login.cancellable == Some(true) || s.closed || s.expired then
              d == s.device && !ok
            else if !Kept(s) && !visit.opens then
              d.session.None? && d.issued == s.device.issued && !ok
            else if visit.info.Unknown? then
              !ok && d.session == (if Kept(s) then s.device.session else Some(s.device.issued))
            else if visit.info.loggedIn then Visited(s, visit, d) && ok && performed.None?
            else if !accepted then Visited(s, visit, d) && !ok
            else VisitedAndLoggedIn(s, visit, d) && ok && performed == d.session && performed.Some?
  {
    OpenedVisits(s, visit);
    var (d, verdict) := Opened(s.device, s.rebinds, visit);
    if verdict.Fine? {
      VisitedFacts(s, visit, d);
      assert !visit.info.loggedIn && accepted ==>
          VisitedAndLoggedIn(s, visit, d.(loggedIn := true, key := d.key || visit.keyAfter));
    }
    hide Opened, Visited, VisitedAndLoggedIn;
  }

  lemma VisitedFacts(s: State, visit: Visit, d: Device)
    requires Visited(s, visit, d)
    ensures d.session.Some? && d.loggedIn == visit.info.loggedIn
  {
  }

  lemma LoginStep(s: State, visit: Visit, accepted: bool, removed: bool)
    requires s.login.interaction.Some? && !s.login.interaction.value.releasing
    requires !s.login.interaction.value.succeeded
    ensures var (d, ok, performed) := LoginVisit(s, visit, accepted, removed);
            var i := s.login.interaction.value;
            Step(s, LoginWorker(visit, accepted, removed))
            == s.(device := d,
                  login := if !ok then s.login
                           else s.login.(interaction :=
                             Some(i.(succeeded := true,
                                     performed := if performed.Some? then performed else i.performed))))
  {
    hide LoginVisit;
  }
}
