/** Requests, grants and shutdown (src/core/context.c, src/core/session.c and the two
    ends of src/core/acquire.c): the coordinator and the desktop thread talk through
    two queues, and what is posted to a context that has stopped is refused. */
module RequestContext {
  import opened Optional

  datatype Code =
    | Fine | Cancelled | OwnerGone | BackendGone | NoSuchSession | InvalidRequest | DeviceError
    | TokenRemoved | OtherError

  datatype Kind = Acquire | Other

  /** What a session holds for the credential it was granted. */
  datatype Grant = Grant(
    granted: bool, candidate: Option<nat>, purpose: nat, generic: bool, maySign: bool,
    mayDecrypt: bool, decrypts: nat, lifetime: nat, expiresAt: nat, timer: bool)

  const UNGRANTED := Grant(false, None, 0, false, false, false, 0, 0, 0, false)

  /** History: `owner` is the acquisition the grant was made for, `acquiring` the one
      that has started and not been answered. */
  datatype Session = Session(
    generation: nat, closed: bool, invalidating: bool, device: bool, pending: bool, grant: Grant,
    owner: Option<nat>, acquiring: Option<nat>)

  /** `dones` is the history of what the caller's callback was given. */
  datatype Request = Request(
    kind: Kind, session: Option<nat>, generation: nat, answered: bool, detached: bool,
    cancelled: bool, cancelledCode: Code, intent: Option<Code>, error: Code, hasCandidate: bool,
    acked: bool, dones: seq<Code>)

  /** Functions posted to the coordinator that concern no one request's place. */
  datatype Call =
    | CancelCall(id: nat, code: Code) | GenerationCall(generation: nat) | SessionCall(sid: nat)
    | ShutdownStart

  /** `starts`, `acks`, `rollbacks` and `calls` are what has been posted to the
      coordinator and not run; `completions` and `stops` what has been dispatched to
      the desktop. `busy` counts what the interface still holds: interactions,
      deliveries and handles. `stopsDelivered` is history. */
  datatype Context = Context(
    requests: map<nat, Request>, next: nat, registered: set<nat>,
    sessions: map<nat, Session>, listed: seq<nat>,
    starts: multiset<nat>, acks: multiset<nat>, rollbacks: multiset<nat>, calls: multiset<Call>,
    completions: multiset<nat>, stops: nat,
    generation: nat, busy: nat, releases: nat,
    shutdownStarted: bool, stopping: bool, watchStopped: bool, shutdownPosted: bool,
    stopsDelivered: nat)

  const NEW := Context(map[], 0, {}, map[], [], multiset{}, multiset{}, multiset{}, multiset{},
                       multiset{}, 0, 0, 0, 0, false, false, false, false, 0)

  // ----- The coordinator's queue and the end of the context -----

  function TryCall(c: Context, call: Call): Context {
    if c.shutdownPosted then c else c.(calls := c.calls + multiset{call})
  }

  predicate NothingPosted(c: Context) {
    && c.starts == multiset{} && c.acks == multiset{} && c.rollbacks == multiset{}
    && c.calls == multiset{}
  }

  predicate Drained(c: Context) {
    && c.stopping && c.watchStopped && !c.shutdownPosted && c.registered == {}
    && NothingPosted(c) && c.busy == 0 && c.releases == 0
  }

  function CheckShutdown(c: Context): Context {
    if !Drained(c) then c
    else c.(shutdownPosted := true, listed := [], stops := c.stops + 1)
  }

  // ----- One request -----

  function Put(c: Context, id: nat, r: Request): Context {
    c.(requests := c.requests[id := r])
  }

  function PutSession(c: Context, sid: nat, s: Session): Context {
    c.(sessions := c.sessions[sid := s])
  }

  function Answer(r: Request, code: Code): Request {
    r.(answered := true,
       error := if r.cancelledCode != Fine then r.cancelledCode
                else if r.cancelled then Cancelled else code)
  }

  /** The acquisition is no longer in progress. */
  function Settled(s: Session, id: nat): Session {
    if s.acquiring == Some(id) then s.(acquiring := None) else s
  }

  function SettledIn(sessions: map<nat, Session>, session: Option<nat>, id: nat)
    : map<nat, Session>
  {
    if session.Some? && session.value in sessions
    then sessions[session.value := Settled(sessions[session.value], id)] else sessions
  }

  function Complete(c: Context, id: nat, code: Code): Context
    requires id in c.requests
  {
    var r := c.requests[id];
    if r.answered then c
    else c.(requests := c.requests[id := Answer(r, code)],
            completions := c.completions + multiset{id},
            sessions := SettledIn(c.sessions, r.session, id))
  }

  function NewRequest(kind: Kind, session: Option<nat>, generation: nat): Request {
    Request(kind, session, generation, false, false, false, Fine, None, Fine, false, false, [])
  }

  /** A context that has stopped answers at once, without ever registering. */
  function Schedule(c: Context, kind: Kind, session: Option<nat>, generation: nat): Context {
    var id := c.next;
    var r := NewRequest(kind, session, generation);
    if c.shutdownPosted then
      Complete(Put(c, id, r.(detached := true)).(next := id + 1), id, BackendGone)
    else Put(c, id, r).(next := id + 1, starts := c.starts + multiset{id})
  }

  function Validate(c: Context, r: Request, verdict: Code): Code {
    if c.stopping then BackendGone
    else if r.intent.Some? then Cancelled
    else if r.cancelledCode != Fine then r.cancelledCode
    else if r.cancelled then Cancelled
    else verdict
  }

  /** Another acquisition of the same session is registered and unanswered. */
  predicate Rival(c: Context, id: nat, sid: nat) {
    exists x :: x in c.registered && x != id && x in c.requests && LiveAcquire(c.requests[x], sid)
  }

  predicate LiveAcquire(r: Request, sid: nat) {
    r.kind == Acquire && r.session == Some(sid) && !r.answered
  }

  function Acquiring(s: Session, id: nat): Session { s.(acquiring := Some(id)) }

  /** A registered request begins its work, or is refused. */
  function Begun(c: Context, id: nat, code: Code): Context
    requires id in c.requests
  {
    var r := c.requests[id];
    if code != Fine then Complete(c, id, code)
    else if r.kind == Acquire && r.session.Some? && r.session.value in c.sessions then
      var sid := r.session.value;
      if c.sessions[sid].grant.granted || Rival(c, id, sid) then Complete(c, id, InvalidRequest)
      else PutSession(c, sid, Acquiring(c.sessions[sid], id))
    else c
  }

  /** `verdict` is the request's own validation and the check of its principal. */
  function RunStart(c: Context, id: nat, verdict: Code): Context
    requires id in c.requests
  {
    var c1 := c.(registered := c.registered + {id});
    Begun(c1, id, Validate(c1, c.requests[id], verdict))
  }

  /** The user's choice is turned into a grant that nobody can use yet. */
  function Granted(s: Session, id: nat, grant: Grant): Session {
    s.(pending := true, grant := grant.(granted := true, mayDecrypt := false, decrypts := 0,
                                        timer := true),
       owner := Some(id))
  }

  function Accepted(r: Request): Request { r.(hasCandidate := true) }

  function MakeGrant(c: Context, id: nat, sid: nat, grant: Grant): Context
    requires id in c.requests && sid in c.sessions
  {
    c.(requests := c.requests[id := Accepted(c.requests[id])],
       sessions := c.sessions[sid := Granted(c.sessions[sid], id, grant)])
  }

  function FinishAcquire(c: Context, id: nat, serial: bool, grant: Grant): Context
    requires id in c.requests && c.requests[id].session.Some?
    requires c.requests[id].session.value in c.sessions
  {
    var r := c.requests[id];
    var sid := r.session.value;
    if r.intent.Some? then Complete(c, id, Cancelled)
    else if c.sessions[sid].closed then Complete(c, id, NoSuchSession)
    else if !serial then Complete(c, id, DeviceError)
    else Complete(MakeGrant(c, id, sid, grant), id, Fine)
  }

  function RolledBack(s: Session): Session {
    s.(grant := UNGRANTED, pending := false, owner := None)
  }

  function Undone(r: Request): Request { r.(hasCandidate := false) }

  /** Back on the coordinator; the completion is dispatched a second time. */
  function RunRollback(c: Context, id: nat): Context
    requires id in c.requests && c.requests[id].session.Some?
    requires c.requests[id].session.value in c.sessions
  {
    var sid := c.requests[id].session.value;
    c.(requests := c.requests[id := Undone(c.requests[id])],
       sessions := c.sessions[sid := RolledBack(c.sessions[sid])],
       completions := c.completions + multiset{id})
  }

  // ----- The desktop -----

  function Overridden(r: Request): Request {
    if r.intent.Some? then r.(error := r.intent.value) else r
  }

  function Delivered(r: Request): Request { r.(dones := r.dones + [r.error]) }

  function Usable(s: Session): Session { s.(pending := false) }

  function UsableIn(sessions: map<nat, Session>, r: Request): map<nat, Session> {
    if r.kind == Acquire && r.hasCandidate && r.session.Some? && r.session.value in sessions
    then sessions[r.session.value := Usable(sessions[r.session.value])] else sessions
  }

  /** A post is refused once the context has stopped. */
  function Posting(c: Context, queue: multiset<nat>, id: nat): multiset<nat> {
    if c.shutdownPosted then queue else queue + multiset{id}
  }

  function SendBack(c: Context, id: nat, r: Request): Context {
    c.(completions := c.completions - multiset{id}, requests := c.requests[id := r],
       rollbacks := Posting(c, c.rollbacks, id))
  }

  function CallDone(c: Context, id: nat, r: Request): Context {
    c.(completions := c.completions - multiset{id}, requests := c.requests[id := Delivered(r)],
       sessions := UsableIn(c.sessions, r),
       acks := if r.detached then c.acks else Posting(c, c.acks, id))
  }

  /** A cancellation that arrived first wins; a grant is then undone before the
      caller hears of it. */
  function Deliver(c: Context, id: nat): Context
    requires id in c.requests
  {
    var r := Overridden(c.requests[id]);
    if r.kind == Acquire && r.hasCandidate && r.error != Fine then SendBack(c, id, r)
    else CallDone(c, id, r)
  }

  function RunAck(c: Context, id: nat): Context
    requires id in c.requests
  {
    Put(c, id, c.requests[id].(acked := true)).(registered := c.registered - {id})
  }

  // ----- Cancellation -----

  /** `force` replaces an earlier reason; `stops` also cancels what is running. */
  function Struck(r: Request, code: Code, force: bool, stops: bool): Request {
    var r1 := r.(intent := if force || r.intent.None? then Some(code) else r.intent);
    if r.answered then r1
    else r1.(cancelledCode := if force || r.cancelledCode == Fine then code else r.cancelledCode,
             cancelled := r.cancelled || stops)
  }

  function CancelledBy(r: Request, code: Code): Request {
    if r.answered then r
    else r.(cancelledCode := if r.cancelledCode == Fine then code else r.cancelledCode,
            cancelled := true)
  }

  /** The desktop marks the request at once and asks the coordinator to stop it. */
  function RequestCancel(c: Context, id: nat, code: Code): Context
    requires id in c.requests
  {
    if c.stopping then c
    else
      var r := c.requests[id];
      TryCall(Put(c, id, r.(intent := if r.intent.None? then Some(code) else r.intent)),
              CancelCall(id, code))
  }

  function StruckOf(requests: map<nat, Request>, registered: set<nat>, sid: nat, code: Code,
                    stops: bool): map<nat, Request>
  {
    map id | id in requests ::
      if id in registered && requests[id].session == Some(sid)
      then Struck(requests[id], code, false, stops) else requests[id]
  }

  function StrikeSession(c: Context, sid: nat, code: Code, stops: bool): Context {
    c.(requests := StruckOf(c.requests, c.registered, sid, code, stops))
  }

  function ClosedSession(s: Session): Session {
    s.(closed := true, device := false, grant := s.grant.(timer := false))
  }

  function Without(listed: seq<nat>, sid: nat): seq<nat> {
    if listed == [] then []
    else if listed[0] == sid then listed[1..]
    else [listed[0]] + Without(listed[1..], sid)
  }

  function CloseSession(c: Context, sid: nat): Context
    requires sid in c.sessions
  {
    var s := c.sessions[sid];
    if s.closed then c
    else
      PutSession(StrikeSession(c, sid, NoSuchSession, true), sid, ClosedSession(s)).(
        releases := if s.device then c.releases + 1 else c.releases,
        listed := Without(c.listed, sid))
  }

  function Invalidating(s: Session): Session { s.(invalidating := true) }

  function Invalidate(c: Context, sid: nat, code: Code): Context
    requires sid in c.sessions
  {
    var s := c.sessions[sid];
    if s.closed || s.invalidating then c
    else CloseSession(StrikeSession(PutSession(c, sid, Invalidating(s)), sid, code, false), sid)
  }

  predicate Foreign(sessions: map<nat, Session>, generation: nat, r: Request) {
    (if r.session.Some? && r.session.value in sessions
     then sessions[r.session.value].generation else r.generation) != generation
  }

  function StruckAll(requests: map<nat, Request>, registered: set<nat>,
                     sessions: map<nat, Session>, generation: nat, code: Code, all: bool)
    : map<nat, Request>
  {
    map id | id in requests ::
      if id in registered && (all || Foreign(sessions, generation, requests[id]))
      then Struck(requests[id], code, true, true) else requests[id]
  }

  function StrikeAll(c: Context, code: Code, all: bool): Context {
    c.(requests := StruckAll(c.requests, c.registered, c.sessions, c.generation, code, all))
  }

  function CloseEach(c: Context, sids: seq<nat>): Context
    decreases sids
  {
    if sids == [] then c
    else
      var c1 := if sids[0] in c.sessions && c.sessions[sids[0]].generation != c.generation
                then CloseSession(c, sids[0]) else c;
      CloseEach(c1, sids[1..])
  }

  function InvalidateEach(c: Context, sids: seq<nat>, code: Code): Context
    decreases sids
  {
    if sids == [] then c
    else
      var c1 := if sids[0] in c.sessions then Invalidate(c, sids[0], code) else c;
      InvalidateEach(c1, sids[1..], code)
  }

  function RunGeneration(c: Context, generation: nat): Context {
    var c1 := StrikeAll(c.(generation := generation), OwnerGone, false);
    CloseEach(c1, c1.listed)
  }

  function RunShutdown(c: Context): Context {
    var c1 := StrikeAll(c.(stopping := true), BackendGone, true);
    InvalidateEach(c1, c1.listed, BackendGone)
  }

  function NewSession(c: Context, sid: nat, generation: nat): Context {
    if sid in c.sessions || c.stopping || generation != c.generation then c
    else c.(sessions := c.sessions[sid := Session(generation, false, false, false, false,
                                                  UNGRANTED, None, None)],
            listed := c.listed + [sid])
  }

  // ----- Steps and runs -----

  datatype Event =
    | Scheduled(kind: Kind, session: Option<nat>, generation: nat)
    | CancelRequested(id: nat, code: Code)
    | GenerationSet(generation: nat)
    | CloseAsked(sid: nat)
    | ShutdownAsked
    | StartRun(id: nat, verdict: Code)        // the coordinator runs what was posted
    | AckRun(id: nat)
    | RollbackRun(id: nat)
    | CallRun(call: Call)
    | Answered(id: nat, code: Code)           // a worker, prompt or chooser of a live request
    | Chosen(id: nat, serial: bool, grant: Grant)
    | Completed(id: nat)                      // the desktop runs what was dispatched
    | StopDelivered
    | SessionMade(sid: nat, generation: nat)
    | TokenGone(sid: nat)
    | Expired(sid: nat)
    | DeviceUsed(sid: nat)
    | UiHeld
    | UiLetGo
    | LoginThrownAway                         // its release is counted with the others
    | Released
    | WatchStopped
    | Polled

  predicate Live(c: Context, id: nat) {
    id in c.requests && id in c.registered && !c.requests[id].answered
  }

  predicate OfSession(c: Context, id: nat) {
    id in c.requests && c.requests[id].session.Some? && c.requests[id].session.value in c.sessions
  }

  predicate Enabled(c: Context, e: Event) {
    match e
    case Scheduled(kind, session, _) =>
      (kind == Acquire ==> session.Some?) && (session.Some? ==> session.value in c.sessions)
    case CancelRequested(id, code) => id in c.requests && code != Fine
    case GenerationSet(_) => true
    case CloseAsked(sid) => sid in c.sessions
    case ShutdownAsked => true
    case StartRun(id, _) => c.starts[id] > 0 && id in c.requests
    case AckRun(id) => c.acks[id] > 0 && id in c.requests
    case RollbackRun(id) => c.rollbacks[id] > 0 && OfSession(c, id)
    case CallRun(call) =>
      c.calls[call] > 0 && (call.CancelCall? ==> call.id in c.requests)
      && (call.SessionCall? ==> call.sid in c.sessions)
    case Answered(id, code) =>
      Live(c, id) && (c.requests[id].kind == Acquire ==> code != Fine)
    case Chosen(id, _, grant) =>
      Live(c, id) && OfSession(c, id) && c.requests[id].kind == Acquire
    case Completed(id) => c.completions[id] > 0 && id in c.requests
    case StopDelivered => c.stops > 0
    case SessionMade(_, _) => !c.shutdownPosted
    case TokenGone(sid) => sid in c.sessions && !c.shutdownPosted
    case Expired(sid) => sid in c.sessions && c.sessions[sid].grant.timer && !c.shutdownPosted
    case DeviceUsed(sid) => sid in c.sessions && !c.sessions[sid].closed && !c.shutdownPosted
    case UiHeld => !c.shutdownPosted
    case UiLetGo => c.busy > 0
    case LoginThrownAway => c.busy > 0        // the prompt it was asked for is still held
    case Released => c.releases > 0
    case WatchStopped => c.stopping && !c.watchStopped
    case Polled => c.stopping
  }

  function RunCall(c: Context, call: Call): Context
    requires Enabled(c, CallRun(call))
  {
    var c1 := c.(calls := c.calls - multiset{call});
    match call
    case CancelCall(id, code) => Put(c1, id, CancelledBy(c.requests[id], code))
    case GenerationCall(generation) => RunGeneration(c1, generation)
    case SessionCall(sid) => CloseSession(c1, sid)
    case ShutdownStart => RunShutdown(c1)
  }

  function ExpiredTimer(s: Session): Session { s.(grant := s.grant.(timer := false)) }

  function Used(s: Session): Session { s.(device := true) }

  function Step(c: Context, e: Event): Context {
    if !Enabled(c, e) then c
    else
      match e
      case Scheduled(kind, session, generation) => Schedule(c, kind, session, generation)
      case CancelRequested(id, code) => RequestCancel(c, id, code)
      case GenerationSet(generation) => TryCall(c, GenerationCall(generation))
      case CloseAsked(sid) =>
        if c.sessions[sid].closed then c else TryCall(c, SessionCall(sid))
      case ShutdownAsked =>
        if c.shutdownStarted then c else TryCall(c.(shutdownStarted := true), ShutdownStart)
      case StartRun(id, verdict) =>
        CheckShutdown(RunStart(c.(starts := c.starts - multiset{id}), id, verdict))
      case AckRun(id) => CheckShutdown(RunAck(c.(acks := c.acks - multiset{id}), id))
      case RollbackRun(id) =>
        CheckShutdown(RunRollback(c.(rollbacks := c.rollbacks - multiset{id}), id))
      case CallRun(call) => CheckShutdown(RunCall(c, call))
      case Answered(id, code) => Complete(c, id, code)
      case Chosen(id, serial, grant) => FinishAcquire(c, id, serial, grant)
      case Completed(id) => Deliver(c, id)
      case StopDelivered => c.(stops := c.stops - 1, stopsDelivered := c.stopsDelivered + 1)
      case SessionMade(sid, generation) => NewSession(c, sid, generation)
      case TokenGone(sid) => Invalidate(c, sid, TokenRemoved)
      case Expired(sid) =>
        Invalidate(PutSession(c, sid, ExpiredTimer(c.sessions[sid])), sid, DeviceError)
      case DeviceUsed(sid) => PutSession(c, sid, Used(c.sessions[sid]))
      case UiHeld => c.(busy := c.busy + 1)
      case UiLetGo => c.(busy := c.busy - 1)
      case LoginThrownAway => c.(releases := c.releases + 1)
      case Released => c.(releases := c.releases - 1)
      case WatchStopped => CheckShutdown(c.(watchStopped := true))
      case Polled => CheckShutdown(c)
  }

  function RunFrom(c: Context, events: seq<Event>): Context {
    if events == [] then c
    else Step(RunFrom(c, events[..|events| - 1]), events[|events| - 1])
  }

  function Run(events: seq<Event>): Context { RunFrom(NEW, events) }

  /** What signing asks of the session before it starts. */
  predicate MayOperate(s: Session) { !s.pending && s.grant.granted && !s.closed }
}
