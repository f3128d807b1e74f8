/** The shared login broker (src/broker/operations.c): many operations of one
    session wait for one PIN prompt while workers open, sign and release.

    Every step below is one callback or one stretch under the device lock; what
    the token and the user answer are parameters of the step. */
module LoginBroker {
  import opened Optional
  import opened TokenDevice
  import Pin = PinPrompts

  const MAX_DECRYPTS := 32

  datatype Reason =
    | RequestCancelled | SessionClosed | GrantExpired | NotAdmitted
    | ByToken(removed: bool) | NotSettled | LoginEnded(outcome: Pin.Outcome) | NotEncodable

  datatype Answered = Success | Failure(reason: Reason)

  datatype Opening = Ready(needsLogin: bool) | OpenFailed(reason: Reason)
  datatype Signing = Produced | Stale | SignFailed(reason: Reason)

  /** History: attempts to answer, opens started, the login generation when the
      operation began, and when it last joined the waiters. */
  datatype Trace = Trace(tries: nat, opens: nat, startGen: nat, joinedAt: nat)

  /** `bound` operations are cancelled when the session closes. The results
      are what the last worker of each kind returned. */
  datatype Op = Op(
    bound: bool, decrypt: bool, cancelled: bool, connected: bool, cancelIdle: bool,
    retryLogin: bool, retriedOpen: bool, context: Pin.Outcome, openGen: nat,
    openResult: Option<Opening>, signResult: Option<Signing>, answer: Option<Answered>, trace: Trace)

  /** `performed` is the handle C_Login succeeded on, if this interaction called it;
      `began` is when its cancellation began. */
  datatype Interaction = Interaction(
    performed: Option<nat>, succeeded: bool, deferring: bool, releasing: bool, released: bool,
    outcome: Pin.Outcome, began: Option<nat>)

  datatype Login = Login(
    inProgress: bool, generation: nat, waiters: Option<seq<nat>>, cancellable: Option<bool>,
    interaction: Option<Interaction>)

  const NO_LOGIN := Login(false, 0, None, None, None)

  /** `opening` and `signing` are the outstanding tasks, `signer` the holder of the
      operation lock with the session it initialised, `releases` the device releases
      of a closed session that have not run. */
  datatype State = State(
    rebinds: bool, loginRequired: bool,
    closed: bool, expired: bool, decrypts: nat,
    ops: map<nat, Op>, next: nat, opening: multiset<nat>, signing: multiset<nat>,
    login: Login, device: Device, signer: Option<(nat, Option<nat>)>, releases: nat, clock: nat)

  function Begin(rebinds: bool, loginRequired: bool): State {
    State(rebinds, loginRequired, false, false, 0, map[], 0, multiset{}, multiset{},
          NO_LOGIN, UNUSED, None, 0, 0)
  }

  function Put(s: State, id: nat, o: Op): State { s.(ops := s.ops[id := o]) }

  // ----- Answering, opening, running -----

  function Respond(o: Op, answer: Answered): Op {
    o.(answer := if o.answer.Some? then o.answer else Some(answer),
       trace := o.trace.(tries := o.trace.tries + 1))
  }

  function Fail(s: State, id: nat, reason: Reason): State
    requires id in s.ops
  {
    Put(s, id, Respond(s.ops[id], Failure(reason)))
  }

  function Reopened(o: Op, generation: nat): Op {
    o.(openResult := None, openGen := generation, trace := o.trace.(opens := o.trace.opens + 1))
  }

  function OpenOperation(s: State, id: nat): State
    requires id in s.ops
  {
    Put(s, id, Reopened(s.ops[id], s.login.generation)).(opening := s.opening + multiset{id})
  }

  function RunOperation(s: State, id: nat): State
    requires id in s.ops
  {
    Put(s, id, s.ops[id].(signResult := None)).(signing := s.signing + multiset{id})
  }

  /** A connected operation hears of its cancellation through an idle. */
  function CancelledOp(o: Op): Op {
    if o.cancelled then o else o.(cancelled := true, cancelIdle := o.cancelIdle || o.connected)
  }

  function Struck(o: Op): Op {
    if o.bound && o.answer.None? then CancelledOp(o) else o
  }

  function CloseSession(s: State): State {
    if s.closed then s
    else s.(closed := true, ops := map id | id in s.ops :: Struck(s.ops[id]),
            releases := if s.device.session.None? then s.releases else s.releases + 1)
  }

  function Unauthorised(s: State, cancelled: bool): Option<Reason> {
    if cancelled then Some(RequestCancelled)
    else if s.closed then Some(SessionClosed)
    else if s.expired then Some(GrantExpired)
    else None
  }

  function FailByToken(s: State, id: nat, reason: Reason): State
    requires id in s.ops
  {
    Fail(if reason == ByToken(true) then CloseSession(s) else s, id, reason)
  }

  /** A cancelled waiter does not get a result from the shared login. */
  function ApplyOutcome(s: State, id: nat, outcome: Pin.Outcome): State
    requires id in s.ops
  {
    if s.ops[id].cancelled then Fail(s, id, RequestCancelled)
    else if outcome == Pin.Ok then RunOperation(s, id)
    else if outcome == Pin.TokenRemoved then Fail(CloseSession(s), id, LoginEnded(Pin.TokenRemoved))
    else Fail(s, id, LoginEnded(outcome))
  }

  // ----- The shared login -----

  function Detached(o: Op): Op { o.(connected := false, cancelIdle := false) }

  function ResumeOne(s: State, id: nat, outcome: Pin.Outcome): State
    requires id in s.ops
  {
    var o := Detached(s.ops[id]);
    if o.retryLogin then OpenOperation(Put(s, id, o.(retryLogin := false)), id)
    else ApplyOutcome(Put(s, id, o), id, outcome)
  }

  function Resume(s: State, waiters: seq<nat>, outcome: Pin.Outcome): State
    decreases waiters
  {
    if waiters == [] || waiters[0] !in s.ops then s
    else Resume(ResumeOne(s, waiters[0], outcome), waiters[1..], outcome)
  }

  function Waiters(l: Login): seq<nat> {
    if l.waiters.Some? then l.waiters.value else []
  }

  function Over(l: Login): Login { Login(false, l.generation + 1, None, None, None) }

  function FinishLogin(s: State, outcome: Pin.Outcome): State {
    Resume(s.(login := Over(s.login)), Waiters(s.login), outcome)
  }

  function Stamped(i: Interaction, clock: nat): Interaction {
    if i.began.Some? then i else i.(began := Some(clock))
  }

  function Releasing(l: Login, outcome: Pin.Outcome, clock: nat): Login
    requires l.interaction.Some?
  {
    l.(cancellable := Some(true),
       interaction := Some(Stamped(l.interaction.value, clock).(outcome := outcome,
                                                                releasing := true)))
  }

  /** The cancellation of the prompt may not have been noticed yet. */
  function Settled(l: Login, outcome: Pin.Outcome): Pin.Outcome {
    if outcome == Pin.Ok && l.cancellable == Some(true) then Pin.PinCancelled else outcome
  }

  function PinDone(s: State, outcome: Pin.Outcome): State
    requires s.login.interaction.Some?
  {
    var settled := Settled(s.login, outcome);
    if settled != Pin.Ok && s.login.interaction.value.performed.Some? then
      s.(login := Releasing(s.login, settled, s.clock), clock := s.clock + 1)
    else FinishLogin(s, settled)
  }

  predicate Cancelling(l: Login) {
    l.cancellable == Some(true) || (l.interaction.Some? && l.interaction.value.deferring)
  }

  function Joined(o: Op, retry: bool, clock: nat): Op {
    o.(connected := true, retryLogin := retry, trace := o.trace.(joinedAt := clock))
  }

  function Join(s: State, id: nat): State
    requires id in s.ops
  {
    Put(s, id, Joined(s.ops[id], Cancelling(s.login), s.clock)).(
      login := s.login.(waiters := Some(Waiters(s.login) + [id])), clock := s.clock + 1)
  }

  function Prompted(l: Login, id: nat): Login {
    Login(true, l.generation, Some(Waiters(l) + [id]), Some(false),
          Some(Interaction(None, false, false, false, false, Pin.Ok, None)))
  }

  function StartLogin(s: State, id: nat, display: bool): State
    requires id in s.ops
  {
    var s1 := Put(s, id, Joined(s.ops[id], s.ops[id].retryLogin, s.clock)).(
      login := Prompted(s.login, id), clock := s.clock + 1);
    if display then s1 else PinDone(s1, Pin.NoDisplay)
  }

  // ----- Completions of the workers, on the coordinator -----

  function Proceed(s: State, id: nat, needsLogin: bool, display: bool): State
    requires id in s.ops
  {
    if s.login.inProgress then Join(s, id)
    else if needsLogin && s.ops[id].openGen != s.login.generation then OpenOperation(s, id)
    else if needsLogin then StartLogin(s, id, display)
    else RunOperation(s, id)
  }

  /** A task whose cancellable is cancelled reports that, whatever it returned. */
  function OnOpened(s: State, id: nat, display: bool): State
    requires id in s.ops && s.ops[id].openResult.Some?
  {
    var o := s.ops[id];
    var s1 := s.(opening := s.opening - multiset{id});
    if o.cancelled then Fail(s1, id, RequestCancelled)
    else
      match o.openResult.value
      case OpenFailed(reason) => FailByToken(s1, id, reason)
      case Ready(needsLogin) =>
        if Unauthorised(s, false).Some? then Fail(s1, id, Unauthorised(s, false).value)
        else Proceed(s1, id, needsLogin, display)
  }

  function Retried(o: Op): Op { o.(retriedOpen := true) }

  /** One more open when login and session state disagree, not two. */
  function Unsettled(s: State, id: nat): State
    requires id in s.ops
  {
    if s.ops[id].retriedOpen then Fail(s, id, NotSettled)
    else OpenOperation(Put(s, id, Retried(s.ops[id])), id)
  }

  function OnSigned(s: State, id: nat, encodes: bool): State
    requires id in s.ops && s.ops[id].signResult.Some?
  {
    var o := s.ops[id];
    var s1 := s.(signing := s.signing - multiset{id});
    if o.cancelled then Fail(s1, id, RequestCancelled)
    else
      match o.signResult.value
      case Stale => Unsettled(s1, id)
      case SignFailed(reason) =>
        if o.context != Pin.Ok then ApplyOutcome(s1, id, o.context) else FailByToken(s1, id, reason)
      case Produced =>
        if encodes then Put(s1, id, Respond(o, Success)) else Fail(s1, id, NotEncodable)
  }

  /** What the checks of a new operation find, other than the session's own state. */
  datatype Admission = Admission(pending: bool, granted: bool, permitted: bool, wellFormed: bool)

  predicate Admitted(s: State, decrypt: bool, a: Admission) {
    && !a.pending && a.granted && !s.closed && !s.expired
    && !(decrypt && s.decrypts >= MAX_DECRYPTS) && a.permitted && a.wellFormed
  }

  function NewOp(bound: bool, decrypt: bool, generation: nat): Op {
    Op(bound, decrypt, false, false, false, false, false, Pin.Ok, generation, None, None, None,
       Trace(0, 0, generation, 0))
  }

  function Perform(s: State, bound: bool, decrypt: bool, a: Admission): State {
    var id := s.next;
    var s1 := Put(s, id, NewOp(bound, decrypt, s.login.generation)).(next := id + 1);
    if !Admitted(s, decrypt, a) then Fail(s1, id, NotAdmitted)
    else OpenOperation(s1.(decrypts := if decrypt then s.decrypts + 1 else s.decrypts), id)
  }

  // ----- Workers, under the device lock -----

  predicate NeedsLogin(s: State, d: Device) { !d.loggedIn && (s.loginRequired || !d.key) }

  function Worked(s: State, id: nat, o: Op, d: Device): State {
    s.(ops := s.ops[id := o], device := d)
  }

  /** What one worker leaves of the device, and what it returns. */
  function OpenVisit(s: State, o: Op, visit: Visit): (Device, Opening) {
    if Unauthorised(s, o.cancelled).Some? then
      (s.device, OpenFailed(Unauthorised(s, o.cancelled).value))
    else
      var (d, verdict) := Opened(s.device, s.rebinds, visit);
      match verdict
      case Refused(removed) => (d, OpenFailed(ByToken(removed)))
      case Fine => (d, Ready(NeedsLogin(s, d)))
  }

  function OpenThread(s: State, id: nat, visit: Visit): State
    requires id in s.ops
  {
    var (d, found) := OpenVisit(s, s.ops[id], visit);
    Worked(s, id, s.ops[id].(openResult := Some(found)), d)
  }

  /** How the token takes the submitted work. */
  datatype Submission = Rejected(removed: bool) | Direct | NeedsPin

  /** A decryption that fails never says why. */
  function Refusal(decrypt: bool, removed: bool): Signing {
    SignFailed(ByToken(removed && !decrypt))
  }

  function SignVisit(s: State, o: Op, visit: Visit, submission: Submission)
    : (Device, Option<Signing>)
  {
    var (d, verdict) := if s.device.session.Some? then Refreshed(s.device, visit)
                        else (s.device, Fine);
    if Unauthorised(s, o.cancelled).Some? then
      (s.device, Some(SignFailed(Unauthorised(s, o.cancelled).value)))
    else if verdict.Refused? then (d, Some(SignFailed(ByToken(verdict.removed))))
    else if d.session.None? || NeedsLogin(s, d) then (d, Some(Stale))
    else if !d.key then (d, Some(Refusal(o.decrypt, false)))
    else
      match submission
      case Rejected(removed) => (d, Some(Refusal(o.decrypt, removed)))
      case Direct => (d, Some(Produced))
      case NeedsPin => (d, None)
  }

  function SignThread(s: State, id: nat, visit: Visit, submission: Submission): State
    requires id in s.ops
  {
    var (d, found) := SignVisit(s, s.ops[id], visit, submission);
    if found.None? then s.(device := d, signer := Some((id, d.session)))
    else Worked(s, id, s.ops[id].(signResult := found), d)
  }

  /** The context PIN has been asked for; a session that has gone away in between
      takes the initialised operation with it. */
  function ContextVisit(s: State, o: Op, handle: Option<nat>, outcome: Pin.Outcome, accepted: bool)
    : (Device, Signing)
  {
    if outcome != Pin.Ok then (Closed(s.device), Refusal(o.decrypt, false))
    else if Unauthorised(s, o.cancelled).Some? then
      (Closed(s.device), if o.decrypt then Refusal(true, false)
                         else SignFailed(Unauthorised(s, o.cancelled).value))
    else if s.device.session.None? || s.device.session != handle then
      (Closed(s.device), Refusal(o.decrypt, true))
    else (s.device, if accepted then Produced else Refusal(o.decrypt, false))
  }

  function ContextDone(s: State, outcome: Pin.Outcome, accepted: bool): State
    requires s.signer.Some? && s.signer.value.0 in s.ops
  {
    var (id, handle) := s.signer.value;
    var (d, found) := ContextVisit(s, s.ops[id], handle, outcome, accepted);
    Worked(s, id, s.ops[id].(context := outcome, signResult := Some(found)), d).(signer := None)
  }

  /** Whether the interaction has logged in, and on which handle if C_Login did it. */
  function LoginVisit(s: State, visit: Visit, accepted: bool, removed: bool)
    : (Device, bool, Option<nat>)
  {
    if Unauthorised(s, s.login.cancellable == Some(true)).Some? then (s.device, false, None)
    else
      var (d, verdict) := Opened(s.device, s.rebinds, visit);
      if verdict.Refused? then (d, false, None)
      else if d.loggedIn then (d, true, None)
      else
        var (d1, verdict1) := LoggedIn(d, accepted, removed, visit.keyAfter);
        if verdict1.Refused? then (d1, false, None) else (d1, true, d1.session)
  }

  function LoginThread(s: State, visit: Visit, accepted: bool, removed: bool): State
    requires s.login.interaction.Some?
  {
    var (d, ok, performed) := LoginVisit(s, visit, accepted, removed);
    s.(device := d, login := if ok then Succeeded(s.login, performed) else s.login)
  }

  function Succeeded(l: Login, performed: Option<nat>): Login
    requires l.interaction.Some?
  {
    l.(interaction := Some(l.interaction.value.(
      succeeded := true,
      performed := if performed.Some? then performed else l.interaction.value.performed)))
  }

  function ReleaseThread(s: State): State
    requires s.login.interaction.Some?
  {
    s.(device := Closed(s.device),
       login := s.login.(interaction := Some(s.login.interaction.value.(released := true))))
  }

  // ----- Cancellation -----

  function PinDefers(s: State): State
    requires s.login.interaction.Some?
  {
    s.(login := s.login.(interaction :=
         Some(Stamped(s.login.interaction.value, s.clock).(deferring := true))),
       clock := s.clock + 1)
  }

  function Left(l: Login, id: nat, clock: nat): Login {
    var waiters := Pin.Without(Waiters(l), id);
    var l1 := l.(waiters := Some(waiters));
    if waiters == [] && l.cancellable.Some? && l.interaction.Some?
    then l1.(cancellable := Some(true), interaction := Some(Stamped(l.interaction.value, clock)))
    else l1
  }

  function WaiterIdle(s: State, id: nat): State
    requires id in s.ops
  {
    var s1 := Put(s, id, s.ops[id].(cancelIdle := false));
    if id !in Waiters(s.login) then s1
    else
      Put(s, id, Respond(Detached(s.ops[id]), Failure(RequestCancelled))).(
        login := Left(s.login, id, s.clock), clock := s.clock + 1)
  }

  // ----- Steps and runs -----

  datatype Event =
    | Requested(bound: bool, decrypt: bool, admission: Admission)
    | OpenWorker(id: nat, visit: Visit)
    | OpenReturned(id: nat, display: bool)
    | SignWorker(id: nat, visit: Visit, submission: Submission)
    | ContextPin(outcome: Pin.Outcome, accepted: bool)
    | SignReturned(id: nat, encodes: bool)
    | LoginWorker(visit: Visit, accepted: bool, removed: bool)
    | PinDeferred
    | PinAnswered(outcome: Pin.Outcome)
    | ReleaseWorker
    | ReleaseReturned
    | OpCancelled(id: nat)
    | WaiterCancelled(id: nat)
    | SessionClosing
    | Expiring
    | ClosedRelease

  predicate Prompting(s: State) {
    s.login.interaction.Some? && !s.login.interaction.value.releasing
  }

  /** A prompt answers Ok only for a login that succeeded and was not given up on:
      this is Pin.OkIsEarned, with `deferring` for a recorded first deferral. */
  predicate Answerable(s: State, outcome: Pin.Outcome) {
    Prompting(s) &&
    (outcome == Pin.Ok ==>
       s.login.interaction.value.succeeded && !s.login.interaction.value.deferring)
  }

  predicate Enabled(s: State, e: Event) {
    match e
    case Requested(_, _, _) => true
    case OpenWorker(id, _) => id in s.ops && s.opening[id] > 0 && s.ops[id].openResult.None?
    case OpenReturned(id, _) => id in s.ops && s.opening[id] > 0 && s.ops[id].openResult.Some?
    case SignWorker(id, _, _) =>
      id in s.ops && s.signing[id] > 0 && s.ops[id].signResult.None? && s.signer.None?
    case ContextPin(_, _) => s.signer.Some? && s.signer.value.0 in s.ops
    case SignReturned(id, _) => id in s.ops && s.signing[id] > 0 && s.ops[id].signResult.Some?
    case LoginWorker(_, _, _) => Prompting(s) && !s.login.interaction.value.succeeded
    case PinDeferred => Prompting(s)
    case PinAnswered(outcome) => Answerable(s, outcome)
    case ReleaseWorker =>
      s.login.interaction.Some? && s.login.interaction.value.releasing
      && !s.login.interaction.value.released
    case ReleaseReturned => s.login.interaction.Some? && s.login.interaction.value.released
    case OpCancelled(id) => id in s.ops
    case WaiterCancelled(id) => id in s.ops && s.ops[id].cancelIdle
    case SessionClosing => true
    case Expiring => true
    case ClosedRelease => s.releases > 0
  }

  function Step(s: State, e: Event): State {
    if !Enabled(s, e) then s
    else
      match e
      case Requested(bound, decrypt, admission) => Perform(s, bound, decrypt, admission)
      case OpenWorker(id, visit) => OpenThread(s, id, visit)
      case OpenReturned(id, display) => OnOpened(s, id, display)
      case SignWorker(id, visit, submission) => SignThread(s, id, visit, submission)
      case ContextPin(outcome, accepted) => ContextDone(s, outcome, accepted)
      case SignReturned(id, encodes) => OnSigned(s, id, encodes)
      case LoginWorker(visit, accepted, removed) => LoginThread(s, visit, accepted, removed)
      case PinDeferred => PinDefers(s)
      case PinAnswered(outcome) => PinDone(s, outcome)
      case ReleaseWorker => ReleaseThread(s)
      case ReleaseReturned => FinishLogin(s, s.login.interaction.value.outcome)
      case OpCancelled(id) => Put(s, id, CancelledOp(s.ops[id]))
      case WaiterCancelled(id) => WaiterIdle(s, id)
      case SessionClosing => CloseSession(s)
      case Expiring => s.(expired := true)
      case ClosedRelease => s.(device := Closed(s.device), releases := s.releases - 1)
  }

  function Run(rebinds: bool, loginRequired: bool, events: seq<Event>): State {
    if events == [] then Begin(rebinds, loginRequired)
    else Step(Run(rebinds, loginRequired, events[..|events| - 1]), events[|events| - 1])
  }
}
