/** What every step of the coordinator and of the desktop keeps. */
module RequestInvariant {
  import opened Optional
  import opened RequestContext

  /** Where a request is: how often it is in each queue, whether it is registered,
      and whether the context has stopped taking posts. */
  datatype Place = Place(start: nat, ack: nat, rollback: nat, completion: nat, registered: bool,
                         stopped: bool)

  function PlaceOf(c: Context, id: nat): Place {
    Place(c.starts[id], c.acks[id], c.rollbacks[id], c.completions[id], id in c.registered,
          c.shutdownPosted)
  }

  function One(b: bool): nat { if b then 1 else 0 }

  /** Exactly one thing is still to come, or has come: the start, an answer, its
      delivery, a rollback, the callback. */
  predicate Placed(r: Request, p: Place) {
    && p.start + One(p.registered && !r.answered) + p.completion + p.rollback + |r.dones| == 1
    && (p.start > 0 ==> !r.answered)
    && (p.completion > 0 || p.rollback > 0 || r.dones != [] ==> r.answered)
    && (p.stopped ==> p.start == 0 && p.ack == 0 && p.rollback == 0 && !p.registered)
    && (if r.detached then
          p.start == 0 && p.ack == 0 && p.rollback == 0 && !p.registered && r.answered && !r.acked
        else
          && p.start + One(p.registered) + One(r.acked) == 1
          && (r.acked ==> |r.dones| == 1)
          && p.ack == One(p.registered && |r.dones| == 1))
  }

  /** A grant is provisional from the choice until the callback, and after it there
      is a grant exactly if the callback said so. */
  predicate Owned(r: Request, id: nat, p: Place, s: Session) {
    && (r.hasCandidate ==>
          && r.answered && !r.detached && s.owner == Some(id)
          && (if r.dones == [] then s.pending else r.dones == [Fine] && !s.pending))
    && (p.rollback > 0 ==> r.hasCandidate)
    && (r.answered && r.error == Fine ==> r.hasCandidate)
    && (p.registered && !r.answered ==> s.owner.None? && s.acquiring == Some(id))
    && (!r.answered && p.start > 0 ==> !r.hasCandidate)
  }

  predicate ReqGood(r: Request, id: nat, p: Place, s: Option<Session>) {
    && Placed(r, p)
    && (r.session.Some? <==> s.Some?)
    && (r.intent.Some? ==> r.intent.value != Fine)
    && (p.rollback > 0 ==> r.kind == Acquire && r.error != Fine)
    && (r.dones != [] ==> r.error == r.dones[0])
    && (r.hasCandidate ==> r.kind == Acquire)
    && (r.kind == Acquire ==> s.Some? && Owned(r, id, p, s.value))
  }

  function SessionOf(c: Context, r: Request): Option<Session> {
    if r.session.Some? && r.session.value in c.sessions then Some(c.sessions[r.session.value])
    else None
  }

  ghost predicate ReqAt(c: Context, id: nat) {
    if id in c.requests then
      id < c.next && ReqGood(c.requests[id], id, PlaceOf(c, id), SessionOf(c, c.requests[id]))
    else PlaceOf(c, id) == Place(0, 0, 0, 0, false, c.shutdownPosted)
  }

  predicate OwnerGood(s: Session) {
    && (s.owner.None? ==> s.grant == UNGRANTED && !s.pending)
    && (s.owner.Some? ==> s.grant.granted && s.acquiring.None?)
  }

  /** The two requests a session names. */
  predicate NamesGood(c: Context, sid: nat, s: Session) {
    && (s.owner.Some? ==>
          s.owner.value in c.requests
          && var r := c.requests[s.owner.value];
          r.kind == Acquire && r.session == Some(sid) && r.hasCandidate)
    && (s.acquiring.Some? ==>
          s.acquiring.value in c.requests && s.acquiring.value in c.registered
          && LiveAcquire(c.requests[s.acquiring.value], sid))
  }

  predicate SessAt(c: Context, sid: nat) {
    sid in c.sessions ==> OwnerGood(c.sessions[sid]) && NamesGood(c, sid, c.sessions[sid])
  }

  predicate Addressed(c: Context, call: Call) {
    match call
    case CancelCall(id, code) => id in c.requests && code != Fine
    case SessionCall(sid) => sid in c.sessions
    case _ => true
  }

  predicate CallAt(c: Context, call: Call) { c.calls[call] > 0 ==> Addressed(c, call) }

  /** The context stops once, when nothing is left, and nothing comes after. */
  predicate FlagsGood(c: Context) {
    && c.calls[ShutdownStart] + One(c.stopping) == One(c.shutdownStarted)
    && c.stops + c.stopsDelivered == One(c.shutdownPosted)
    && (c.shutdownPosted ==>
          c.stopping && c.watchStopped && NothingPosted(c) && c.registered == {}
          && c.busy == 0 && c.releases == 0)
  }

  ghost predicate Consistent(c: Context) {
    && (forall id :: ReqAt(c, id)) && (forall sid :: SessAt(c, sid))
    && (forall p :: CallAt(c, p)) && FlagsGood(c)
  }

  lemma NewConsistent()
    ensures Consistent(NEW)
  {
  }

  // ----- Changes that no rule looks at -----

  predicate SameBut(r: Request, r': Request) {
    && r' == r.(intent := r'.intent, cancelledCode := r'.cancelledCode, cancelled := r'.cancelled)
    && (r.intent.Some? || r'.intent.None? || r'.intent.value != Fine)
    && (r.intent.Some? && r'.intent.Some? && r'.intent != r.intent ==> r'.intent.value != Fine)
  }

  lemma StruckSame(r: Request, code: Code, force: bool, stops: bool)
    requires code != Fine
    ensures SameBut(r, Struck(r, code, force, stops)) && SameBut(r, CancelledBy(r, code))
  {
  }

  lemma SameGood(r: Request, r': Request, id: nat, p: Place, s: Option<Session>)
    requires ReqGood(r, id, p, s) && SameBut(r, r')
    ensures ReqGood(r', id, p, s)
  {
  }

  /** Requests are cancelled, at most. */
  ghost predicate OnlyCancels(c: Context, c': Context) {
    && c' == c.(requests := c'.requests) && c'.requests.Keys == c.requests.Keys
    && forall id :: id in c.requests ==> SameBut(c.requests[id], c'.requests[id])
  }

  lemma CancelsGood(c: Context, c': Context)
    requires Consistent(c) && OnlyCancels(c, c')
    ensures Consistent(c')
  {
    forall id ensures ReqAt(c', id) {
      assert ReqAt(c, id);
      assert PlaceOf(c', id) == PlaceOf(c, id);
      if id in c.requests {
        assert SessionOf(c', c'.requests[id]) == SessionOf(c, c.requests[id]);
        SameGood(c.requests[id], c'.requests[id], id, PlaceOf(c, id), SessionOf(c, c.requests[id]));
      }
      hide ReqGood, PlaceOf, SessionOf;
    }
    forall sid ensures SessAt(c', sid) { assert SessAt(c, sid); }
    forall p ensures CallAt(c', p) { assert CallAt(c, p); }
  }

  // ----- Changes of one request and its session -----

  /** Nobody but `id` has a claim on this session's grant. */
  predicate Mine(s: Session, id: nat) {
    s.owner == Some(id) || (s.owner.None? && (s.acquiring.None? || s.acquiring == Some(id)))
  }

  lemma ClaimGood(r: Request, x: nat, p: Place, s: Session, s': Session, id: nat)
    requires ReqGood(r, x, p, Some(s)) && x != id && OwnerGood(s) && Mine(s, id)
    ensures ReqGood(r, x, p, Some(s'))
  {
  }

  /** Only `id` and the session `sid` have changed. */
  ghost predicate Apart(c: Context, c': Context, id: nat, sid: Option<nat>) {
    && c.next <= c'.next
    && (forall x :: x != id ==>
          && (x in c'.requests <==> x in c.requests)
          && (x in c.requests ==> c'.requests[x] == c.requests[x])
          && PlaceOf(c', x) == PlaceOf(c, x))
    && c'.sessions.Keys == c.sessions.Keys
    && (forall t :: t in c.sessions && sid != Some(t) ==> c'.sessions[t] == c.sessions[t])
  }

  lemma OtherRequest(c: Context, c': Context, id: nat, sid: Option<nat>, x: nat)
    requires Consistent(c) && Apart(c, c', id, sid) && x != id
    requires sid.Some? && sid.value in c.sessions && c'.sessions != c.sessions ==>
               Mine(c.sessions[sid.value], id)
    ensures ReqAt(c', x)
  {
    assert ReqAt(c, x);
    if x in c.requests {
      var r := c.requests[x];
      assert PlaceOf(c', x) == PlaceOf(c, x);
      if r.session.Some? && r.session == sid && sid.value in c.sessions
         && c'.sessions != c.sessions {
        assert SessAt(c, sid.value);
        ClaimGood(r, x, PlaceOf(c, x), c.sessions[sid.value], c'.sessions[sid.value], id);
      } else {
        assert SessionOf(c', r) == SessionOf(c, r);
      }
    }
    hide ReqGood, PlaceOf;
  }

  lemma OtherSession(c: Context, c': Context, id: nat, sid: Option<nat>, t: nat)
    requires Consistent(c) && Apart(c, c', id, sid) && sid != Some(t)
    requires id in c.requests ==> c.requests[id].session == sid
    ensures SessAt(c', t)
  {
    assert SessAt(c, t);
    if t in c.sessions {
      var s := c.sessions[t];
      if s.owner.Some? {
        assert PlaceOf(c', s.owner.value) == PlaceOf(c, s.owner.value);
      }
      if s.acquiring.Some? {
        assert PlaceOf(c', s.acquiring.value) == PlaceOf(c, s.acquiring.value);
      }
    }
  }

  lemma OneStep(c: Context, c': Context, id: nat, sid: Option<nat>)
    requires Consistent(c) && Apart(c, c', id, sid) && ReqAt(c', id) && FlagsGood(c')
    requires sid.Some? ==> SessAt(c', sid.value)
    requires sid.Some? && sid.value in c.sessions && c'.sessions != c.sessions ==>
               Mine(c.sessions[sid.value], id)
    requires id in c.requests ==> c.requests[id].session == sid
    requires forall p :: CallAt(c', p)
    ensures Consistent(c')
  {
    forall x | x != id ensures ReqAt(c', x) { OtherRequest(c, c', id, sid, x); }
    forall t: nat | sid != Some(t) ensures SessAt(c', t) { OtherSession(c, c', id, sid, t); }
  }

  lemma CallsGood(c: Context, c': Context)
    requires Consistent(c) && c.requests.Keys <= c'.requests.Keys
    requires c.sessions.Keys <= c'.sessions.Keys && c'.calls <= c.calls
    ensures forall p :: CallAt(c', p)
  {
    forall p ensures CallAt(c', p) { assert CallAt(c, p); }
  }

  function SettledOf(s: Option<Session>, id: nat): Option<Session> {
    if s.Some? then Some(Settled(s.value, id)) else None
  }

  // ----- One request, its place and its session, as values -----

  /** The parts of a step that concern the request `id`, and its session if it has one. */
  ghost predicate Becomes(c: Context, c': Context, id: nat, r': Request, s': Option<Session>) {
    && c'.requests == c.requests[id := r']
    && c'.sessions == (if r'.session.Some? && s'.Some? && r'.session.value in c.sessions
                       then c.sessions[r'.session.value := s'.value] else c.sessions)
    && (forall x :: x != id ==> PlaceOf(c', x) == PlaceOf(c, x))
    && c.next <= c'.next && id < c'.next
    && (id in c.requests ==> c.requests[id].session == r'.session)
    && (r'.session.Some? ==> r'.session.value in c.sessions)
    && c'.calls == c.calls
  }

  predicate SessionStep(s: Session, s': Session, id: nat, r': Request, live: bool) {
    && (s' == s || Mine(s, id)) && OwnerGood(s')
    && (s'.owner == Some(id) ==> r'.kind == Acquire && r'.hasCandidate)
    && (s'.acquiring == Some(id) ==> r'.kind == Acquire && live && !r'.answered)
    && (s'.owner.None? || s'.owner == Some(id) || s'.owner == s.owner)
    && (s'.acquiring.None? || s'.acquiring == Some(id) || s'.acquiring == s.acquiring)
  }

  lemma BecomesSession(c: Context, c': Context, id: nat, r': Request, s': Session, sid: nat)
    requires Consistent(c) && Becomes(c, c', id, r', Some(s')) && r'.session == Some(sid)
    requires SessionStep(c.sessions[sid], s', id, r', id in c'.registered)
    ensures SessAt(c', sid)
  {
    assert SessAt(c, sid);
    var s := c.sessions[sid];
    if s.acquiring.Some? && s.acquiring.value != id {
      assert PlaceOf(c', s.acquiring.value) == PlaceOf(c, s.acquiring.value);
    }
    hide ReqAt, CallAt, FlagsGood, OwnerGood, Mine;
  }

  lemma BecomesRequest(c: Context, c': Context, id: nat, r': Request, s': Option<Session>, p': Place)
    requires Consistent(c) && Becomes(c, c', id, r', s') && (r'.session.Some? <==> s'.Some?)
    requires ReqGood(r', id, p', s') && PlaceOf(c', id) == p'
    ensures ReqAt(c', id) && Apart(c, c', id, r'.session)
  {
    hide ReqGood, PlaceOf;
  }

  lemma BecomesGood(c: Context, c': Context, id: nat, r': Request, s': Option<Session>, p': Place)
    requires Consistent(c) && Becomes(c, c', id, r', s') && (r'.session.Some? <==> s'.Some?)
    requires ReqGood(r', id, p', s') && PlaceOf(c', id) == p' && FlagsGood(c')
    requires s'.Some? ==>
               SessionStep(c.sessions[r'.session.value], s'.value, id, r', id in c'.registered)
    ensures Consistent(c')
  {
    BecomesRequest(c, c', id, r', s', p');
    CallsGood(c, c');
    if s'.Some? {
      BecomesSession(c, c', id, r', s'.value, r'.session.value);
      assert c'.sessions != c.sessions ==> Mine(c.sessions[r'.session.value], id);
    }
    hide Consistent, ReqAt, SessAt, CallAt, FlagsGood, Apart, ReqGood, Mine, PlaceOf;
    OneStep(c, c', id, r'.session);
  }

  // ----- Answering and granting -----

  predicate NamedBy(s: Session, id: nat, r: Request) {
    && (s.owner == Some(id) ==> r.kind == Acquire && r.hasCandidate)
    && (s.acquiring == Some(id) ==> r.kind == Acquire && !r.answered)
  }

  lemma AnswerValues(r: Request, id: nat, p: Place, s: Option<Session>, code: Code)
    requires ReqGood(r, id, p, s) && p.registered && !r.answered
    requires r.kind == Acquire ==> code != Fine
    ensures ReqGood(Answer(r, code), id, p.(completion := p.completion + 1), SettledOf(s, id))
    ensures s.Some? && OwnerGood(s.value) && NamedBy(s.value, id, r) ==>
              SessionStep(s.value, Settled(s.value, id), id, Answer(r, code), true)
    ensures Answer(r, code).session == r.session
  {
  }

  lemma CompleteGood(c: Context, id: nat, code: Code)
    requires Consistent(c) && Live(c, id) && (c.requests[id].kind == Acquire ==> code != Fine)
    ensures Consistent(Complete(c, id, code))
  {
    var c' := Complete(c, id, code);
    var r, p := c.requests[id], PlaceOf(c, id);
    KnownGood(c, id);
    AnswerValues(r, id, p, SessionOf(c, r), code);
    assert FlagsGood(c');
    hide Consistent, ReqGood, SessionStep, OwnerGood, NamedBy, Answer, Settled, FlagsGood;
    BecomesGood(c, c', id, Answer(r, code), SettledOf(SessionOf(c, r), id),
                p.(completion := p.completion + 1));
  }

  lemma KnownGood(c: Context, id: nat)
    requires Consistent(c) && id in c.requests
    ensures id < c.next && FlagsGood(c)
    ensures var r := c.requests[id];
            && ReqGood(r, id, PlaceOf(c, id), SessionOf(c, r))
            && (r.session.Some? ==>
                  r.session.value in c.sessions
                  && OwnerGood(c.sessions[r.session.value])
                  && NamedBy(c.sessions[r.session.value], id, r))
  {
    assert ReqAt(c, id);
    if c.requests[id].session.Some? {
      assert SessAt(c, c.requests[id].session.value);
    }
  }

  /** A chosen credential: the grant is made and the request answered in one step. */
  lemma GrantGood(c: Context, id: nat, sid: nat, grant: Grant)
    requires Consistent(c) && Live(c, id) && c.requests[id].kind == Acquire
    requires c.requests[id].session == Some(sid) && sid in c.sessions
    ensures Consistent(Complete(MakeGrant(c, id, sid, grant), id, Fine))
  {
    var c' := Complete(MakeGrant(c, id, sid, grant), id, Fine);
    var r, s, p := c.requests[id], c.sessions[sid], PlaceOf(c, id);
    KnownGood(c, id);
    GrantValues(r, id, p, s, grant);
    assert FlagsGood(c');
    var s' := Settled(Granted(s, id, grant), id);
    var r' := Answer(Accepted(r), Fine);
    assert Accepted(r).session == r.session && Accepted(r).answered == r.answered;
    assert c'.requests == c.requests[id := r'] && c'.sessions == c.sessions[sid := s'];
    hide Consistent, ReqGood, SessionStep, OwnerGood, NamedBy, Granted, Answer, Accepted, Settled, FlagsGood;
    BecomesGood(c, c', id, r', Some(s'), p.(completion := p.completion + 1));
  }

  lemma GrantValues(r: Request, id: nat, p: Place, s: Session, grant: Grant)
    requires ReqGood(r, id, p, Some(s)) && OwnerGood(s) && r.kind == Acquire
    requires p.registered && !r.answered
    ensures var r', s' := Answer(Accepted(r), Fine), Settled(Granted(s, id, grant), id);
            && ReqGood(r', id, p.(completion := p.completion + 1), Some(s'))
            && SessionStep(s, s', id, r', true) && r'.session == r.session
  {
  }

  lemma FinishAcquireGood(c: Context, id: nat, serial: bool, grant: Grant)
    requires Consistent(c) && Enabled(c, Chosen(id, serial, grant))
    ensures Consistent(FinishAcquire(c, id, serial, grant))
  {
    var r := c.requests[id];
    hide Consistent, Complete, MakeGrant;
    if r.intent.Some? {
      CompleteGood(c, id, Cancelled);
    } else if c.sessions[r.session.value].closed {
      CompleteGood(c, id, NoSuchSession);
    } else if !serial {
      CompleteGood(c, id, DeviceError);
    } else {
      GrantGood(c, id, r.session.value, grant);
    }
  }

  // ----- Posted functions -----

  function TakenStart(c: Context, id: nat): Context { c.(starts := c.starts - multiset{id}) }

  /** A start that finds the request cancelled, invalid or beaten answers at once. */
  lemma RefusedGood(c: Context, id: nat, code: Code)
    requires Consistent(c) && id in c.requests && c.starts[id] > 0 && code != Fine
    ensures Consistent(Complete(TakenStart(c, id).(registered := c.registered + {id}), id, code))
  {
    var c1 := TakenStart(c, id).(registered := c.registered + {id});
    var c' := Complete(c1, id, code);
    var r, p := c.requests[id], PlaceOf(c, id);
    KnownGood(c, id);
    RefusedValues(r, id, p, SessionOf(c, r), code);
    assert !r.answered by { assert Placed(r, p); }
    RefusedMoves(c, id, code);
    hide Consistent, ReqGood, SessionStep, OwnerGood, NamedBy, Answer, Settled, FlagsGood, Becomes,
         Complete;
    assert id in c'.registered by { assert PlaceOf(c', id).registered; }
    BecomesGood(c, c', id, Answer(r, code), SettledOf(SessionOf(c, r), id), PlaceOf(c', id));
  }

  lemma RefusedMoves(c: Context, id: nat, code: Code)
    requires Consistent(c) && id in c.requests && c.starts[id] > 0
    requires !c.requests[id].answered
    ensures var c' := Complete(TakenStart(c, id).(registered := c.registered + {id}), id, code);
            var r, p := c.requests[id], PlaceOf(c, id);
            && Becomes(c, c', id, Answer(r, code), SettledOf(SessionOf(c, r), id))
            && PlaceOf(c', id) == p.(start := p.start - 1, registered := true,
                                     completion := p.completion + 1)
            && FlagsGood(c')
  {
    KnownGood(c, id);
    assert Answer(c.requests[id], code).session == c.requests[id].session;
    hide ReqGood, OwnerGood, NamedBy, Consistent, Answer, Settled;
  }

  lemma RefusedValues(r: Request, id: nat, p: Place, s: Option<Session>, code: Code)
    requires ReqGood(r, id, p, s) && p.start > 0 && code != Fine
    ensures ReqGood(Answer(r, code), id, p.(start := p.start - 1, registered := true,
                                            completion := p.completion + 1), SettledOf(s, id))
    ensures s.Some? && OwnerGood(s.value) && NamedBy(s.value, id, r) ==>
              SessionStep(s.value, Settled(s.value, id), id, Answer(r, code), true)
    ensures Answer(r, code).session == r.session
  {
  }

  function AcquiringOf(s: Option<Session>, id: nat, r: Request): Option<Session> {
    if s.Some? && r.kind == Acquire then Some(Acquiring(s.value, id)) else s
  }

  function AcquiringIn(sessions: map<nat, Session>, r: Request, id: nat): map<nat, Session> {
    if r.kind == Acquire && r.session.Some? && r.session.value in sessions
    then sessions[r.session.value := Acquiring(sessions[r.session.value], id)] else sessions
  }

  function StartedAt(c: Context, id: nat): Context
    requires id in c.requests
  {
    TakenStart(c, id).(registered := c.registered + {id},
                       sessions := AcquiringIn(c.sessions, c.requests[id], id))
  }

  lemma StartedMoves(c: Context, id: nat)
    requires Consistent(c) && id in c.requests && c.starts[id] > 0
    ensures var c', r, p := StartedAt(c, id), c.requests[id], PlaceOf(c, id);
            && Becomes(c, c', id, r, AcquiringOf(SessionOf(c, r), id, r))
            && PlaceOf(c', id) == p.(start := p.start - 1, registered := true)
            && FlagsGood(c')
  {
    var r := c.requests[id];
    KnownGood(c, id);
    assert c.requests == c.requests[id := r];
    assert r.session.Some? ==> c.sessions == c.sessions[r.session.value := SessionOf(c, r).value];
    hide ReqGood, OwnerGood, NamedBy, Consistent, Acquiring;
  }

  lemma StartedGood(c: Context, id: nat)
    requires Consistent(c) && id in c.requests && c.starts[id] > 0
    requires c.requests[id].kind == Acquire ==>
               c.requests[id].session.Some? && c.requests[id].session.value in c.sessions
               && !c.sessions[c.requests[id].session.value].grant.granted
               && c.sessions[c.requests[id].session.value].acquiring.None?
    ensures Consistent(StartedAt(c, id))
  {
    var r, p := c.requests[id], PlaceOf(c, id);
    KnownGood(c, id);
    StartedValues(r, id, p, SessionOf(c, r));
    StartedMoves(c, id);
    assert id in StartedAt(c, id).registered;
    hide Consistent, ReqGood, SessionStep, OwnerGood, NamedBy, FlagsGood, Acquiring, Becomes,
         StartedAt;
    BecomesGood(c, StartedAt(c, id), id, r, AcquiringOf(SessionOf(c, r), id, r),
                p.(start := p.start - 1, registered := true));
  }

  lemma StartedValues(r: Request, id: nat, p: Place, s: Option<Session>)
    requires ReqGood(r, id, p, s) && p.start > 0
    requires r.kind == Acquire ==> s.Some? && !s.value.grant.granted && s.value.acquiring.None?
    requires s.Some? ==> OwnerGood(s.value) && NamedBy(s.value, id, r)
    ensures var s' := AcquiringOf(s, id, r);
            && ReqGood(r, id, p.(start := p.start - 1, registered := true), s')
            && (s.Some? ==> SessionStep(s.value, s'.value, id, r, true))
  {
  }

  /** The search for a rival finds one exactly if the session is being acquired. */
  lemma RivalIff(c: Context, id: nat, sid: nat)
    requires Consistent(c) && id in c.requests && c.starts[id] > 0 && sid in c.sessions
    ensures Rival(c.(registered := c.registered + {id}), id, sid)
            <==> c.sessions[sid].acquiring.Some?
  {
    var c1 := c.(registered := c.registered + {id});
    assert ReqAt(c, id) && SessAt(c, sid);
    var s := c.sessions[sid];
    if s.acquiring.Some? {
      assert s.acquiring.value != id;
      assert s.acquiring.value in c1.registered;
    }
    forall x | x in c1.registered && x != id && x in c.requests && LiveAcquire(c.requests[x], sid)
      ensures s.acquiring.Some?
    {
      assert ReqAt(c, x);
    }
  }

  lemma RivalTaken(c: Context, id: nat, sid: nat)
    ensures Rival(TakenStart(c, id).(registered := c.registered + {id}), id, sid)
            <==> Rival(c.(registered := c.registered + {id}), id, sid)
  {
  }

  lemma RunStartGood(c: Context, id: nat, verdict: Code)
    requires Consistent(c) && id in c.requests && c.starts[id] > 0
    ensures Consistent(RunStart(TakenStart(c, id), id, verdict))
  {
    var r := c.requests[id];
    var c1 := TakenStart(c, id).(registered := c.registered + {id});
    KnownGood(c, id);
    assert r.kind == Acquire ==> r.session.Some? by {
      assert ReqGood(r, id, PlaceOf(c, id), SessionOf(c, r));
    }
    var code := Validate(c1, r, verdict);
    hide Consistent, ReqGood, Complete, Rival, Validate, Acquiring;
    if code != Fine {
      RefusedGood(c, id, code);
    } else if r.kind == Acquire {
      RivalIff(c, id, r.session.value);
      RivalTaken(c, id, r.session.value);
      if c.sessions[r.session.value].grant.granted || Rival(c1, id, r.session.value) {
        RefusedGood(c, id, InvalidRequest);
      } else {
        StartedGood(c, id);
      }
    } else {
      StartedGood(c, id);
    }
  }

  /** The grant that is undone is the provisional one of this very request. */
  lemma RollbackValues(r: Request, id: nat, p: Place, s: Session)
    requires ReqGood(r, id, p, Some(s)) && OwnerGood(s) && p.rollback > 0
    ensures s.pending && s.owner == Some(id)
    ensures var s' := RolledBack(s);
            && ReqGood(Undone(r), id, p.(rollback := p.rollback - 1,
                                         completion := p.completion + 1), Some(s'))
            && SessionStep(s, s', id, Undone(r), p.registered)
  {
  }

  lemma RunRollbackGood(c: Context, id: nat)
    requires Consistent(c) && OfSession(c, id) && c.rollbacks[id] > 0
    ensures Consistent(RunRollback(c.(rollbacks := c.rollbacks - multiset{id}), id))
  {
    var c' := RunRollback(c.(rollbacks := c.rollbacks - multiset{id}), id);
    var r, p := c.requests[id], PlaceOf(c, id);
    var sid := r.session.value;
    KnownGood(c, id);
    RollbackValues(r, id, p, c.sessions[sid]);
    assert FlagsGood(c') && Undone(r).session == r.session;
    hide Consistent, ReqGood, SessionStep, OwnerGood, NamedBy, FlagsGood, Undone, RolledBack;
    BecomesGood(c, c', id, Undone(r), Some(RolledBack(c.sessions[sid])),
                p.(rollback := p.rollback - 1, completion := p.completion + 1));
  }

  lemma AckValues(r: Request, id: nat, p: Place, s: Option<Session>)
    requires ReqGood(r, id, p, s) && p.ack > 0
    ensures ReqGood(r.(acked := true), id, p.(ack := p.ack - 1, registered := false), s)
    ensures s.Some? && OwnerGood(s.value) && NamedBy(s.value, id, r) ==>
              SessionStep(s.value, s.value, id, r.(acked := true), false)
  {
  }

  lemma RunAckGood(c: Context, id: nat)
    requires Consistent(c) && id in c.requests && c.acks[id] > 0
    ensures Consistent(RunAck(c.(acks := c.acks - multiset{id}), id))
  {
    var c' := RunAck(c.(acks := c.acks - multiset{id}), id);
    var r, p := c.requests[id], PlaceOf(c, id);
    KnownGood(c, id);
    AckValues(r, id, p, SessionOf(c, r));
    assert FlagsGood(c');
    hide Consistent, ReqGood, SessionStep, OwnerGood, NamedBy, FlagsGood;
    var s := SessionOf(c, r);
    assert r.session.Some? ==> c.sessions == c.sessions[r.session.value := s.value];
    BecomesGood(c, c', id, r.(acked := true), s, p.(ack := p.ack - 1, registered := false));
  }

  // ----- The desktop -----

  lemma NewPlace(c: Context)
    requires Consistent(c)
    ensures c.next !in c.requests && PlaceOf(c, c.next) == Place(0, 0, 0, 0, false, c.shutdownPosted)
    ensures forall sid :: sid in c.sessions ==>
              c.sessions[sid].acquiring != Some(c.next) && c.sessions[sid].owner != Some(c.next)
              && OwnerGood(c.sessions[sid])
  {
    assert ReqAt(c, c.next);
    forall sid | sid in c.sessions
      ensures c.sessions[sid].acquiring != Some(c.next) && c.sessions[sid].owner != Some(c.next)
              && OwnerGood(c.sessions[sid])
    {
      assert SessAt(c, sid);
    }
  }

  lemma ScheduleGood(c: Context, kind: Kind, session: Option<nat>, generation: nat)
    requires Consistent(c) && Enabled(c, Scheduled(kind, session, generation))
    ensures Consistent(Schedule(c, kind, session, generation))
  {
    var c', id := Schedule(c, kind, session, generation), c.next;
    NewPlace(c);
    var r := NewRequest(kind, session, generation);
    var r1 := Answer(r.(detached := true), BackendGone);
    var p := PlaceOf(c, id);
    var s := SessionOf(c, r);
    assert FlagsGood(c');
    assert s.Some? ==> Settled(s.value, id) == s.value;
    assert session.Some? ==> c.sessions == c.sessions[session.value := s.value];
    var r' := if c.shutdownPosted then r1 else r;
    assert SettledIn(c.sessions, session, id) == c.sessions;
    assert c'.requests == c.requests[id := r'] && c'.sessions == c.sessions;
    NewValues(r, r1, id, c.shutdownPosted, s);
    assert r'.session == session;
    hide Consistent, ReqGood, SessionStep, OwnerGood, FlagsGood, Answer, Settled, NewRequest,
         Schedule, SettledIn, SessionOf;
    if c.shutdownPosted {
      BecomesGood(c, c', id, r1, s, p.(completion := 1));
    } else {
      BecomesGood(c, c', id, r, s, p.(start := 1));
    }
  }

  lemma NewValues(r: Request, r1: Request, id: nat, stopped: bool, s: Option<Session>)
    requires r == NewRequest(r.kind, r.session, r.generation)
    requires r1 == Answer(r.(detached := true), BackendGone)
    requires (r.session.Some? <==> s.Some?) && (r.kind == Acquire ==> s.Some?)
    requires s.Some? ==> OwnerGood(s.value) && s.value.acquiring != Some(id) && s.value.owner != Some(id)
    ensures !stopped ==> ReqGood(r, id, Place(1, 0, 0, 0, false, stopped), s)
    ensures stopped ==> ReqGood(r1, id, Place(0, 0, 0, 1, false, stopped), s)
    ensures r1.session == r.session
    ensures s.Some? ==> SessionStep(s.value, s.value, id, r, false)
                        && SessionStep(s.value, s.value, id, r1, false)
  {
  }

  /** Overridden, and then either sent back for a rollback or delivered. */
  predicate SentBack(r: Request) {
    r.kind == Acquire && r.hasCandidate && Overridden(r).error != Fine
  }

  lemma DeliverValues(r: Request, id: nat, p: Place, s: Option<Session>)
    requires ReqGood(r, id, p, s) && p.completion > 0
    ensures p.stopped ==> r.detached
    ensures SentBack(r) ==>
              !p.stopped
              && ReqGood(Overridden(r), id, p.(completion := p.completion - 1,
                                               rollback := p.rollback + 1), s)
    ensures !SentBack(r) ==>
              ReqGood(Delivered(Overridden(r)), id,
                      p.(completion := p.completion - 1,
                         ack := if r.detached then p.ack else p.ack + 1), UsableOf(s, r))
    ensures Overridden(r).session == r.session && Overridden(r).kind == r.kind
    ensures Overridden(r).hasCandidate == r.hasCandidate && Overridden(r).detached == r.detached
  {
  }

  function UsableOf(s: Option<Session>, r: Request): Option<Session> {
    if s.Some? && r.kind == Acquire && r.hasCandidate then Some(Usable(s.value)) else s
  }

  lemma UsableStep(r: Request, id: nat, p: Place, s: Option<Session>)
    requires ReqGood(r, id, p, s) && p.completion > 0 && s.Some?
    requires OwnerGood(s.value) && NamedBy(s.value, id, r)
    ensures SessionStep(s.value, s.value, id, Overridden(r), p.registered)
    ensures SessionStep(s.value, UsableOf(s, r).value, id, Delivered(Overridden(r)), p.registered)
  {
  }

  lemma DeliverFlags(c: Context, id: nat)
    requires FlagsGood(c) && id in c.requests
    requires c.shutdownPosted ==> c.requests[id].detached && !SentBack(c.requests[id])
    ensures FlagsGood(Deliver(c, id))
  {
    assert Overridden(c.requests[id]).detached == c.requests[id].detached;
    hide Delivered, UsableIn;
  }

  lemma OverriddenKeeps(r: Request)
    ensures var r' := Overridden(r);
            && r'.session == r.session && r'.kind == r.kind && r'.detached == r.detached
            && r'.hasCandidate == r.hasCandidate && Delivered(r').session == r.session
  {
  }

  lemma SentBackMoves(c: Context, id: nat)
    requires Consistent(c) && id in c.requests && c.completions[id] > 0
    requires SentBack(c.requests[id]) && !c.shutdownPosted
    ensures var c', r, p := Deliver(c, id), c.requests[id], PlaceOf(c, id);
            && Becomes(c, c', id, Overridden(r), SessionOf(c, r))
            && PlaceOf(c', id) == p.(completion := p.completion - 1, rollback := p.rollback + 1)
            && FlagsGood(c')
  {
    var r := c.requests[id];
    KnownGood(c, id);
    DeliverFlags(c, id);
    OverriddenKeeps(r);
    hide ReqGood, OwnerGood, NamedBy, FlagsGood, Consistent, Overridden, Delivered;
    assert r.session.Some? ==> c.sessions == c.sessions[r.session.value := SessionOf(c, r).value];
  }

  lemma DonePlaces(c: Context, id: nat, r: Request, x: nat)
    requires id in c.requests && c.completions[id] > 0 && (c.shutdownPosted ==> r.detached)
    ensures var c', p := CallDone(c, id, r), PlaceOf(c, x);
            PlaceOf(c', x)
            == if x != id then p
               else p.(completion := p.completion - 1,
                       ack := if r.detached then p.ack else p.ack + 1)
  {
    hide Delivered, UsableIn;
  }

  lemma DoneMoves(c: Context, id: nat, r: Request)
    requires Consistent(c) && id in c.requests && c.completions[id] > 0
    requires r.session == c.requests[id].session && r.session == Delivered(r).session
    requires c.shutdownPosted ==> r.detached
    ensures var c', p := CallDone(c, id, r), PlaceOf(c, id);
            && Becomes(c, c', id, Delivered(r), UsableOf(SessionOf(c, r), r))
            && PlaceOf(c', id) == p.(completion := p.completion - 1,
                                     ack := if r.detached then p.ack else p.ack + 1)
  {
    KnownGood(c, id);
    hide Consistent, ReqGood, OwnerGood, NamedBy, Delivered, UsableIn, UsableOf, FlagsGood, PlaceOf;
    UsableMap(c, r);
    forall x ensures x != id ==> PlaceOf(CallDone(c, id, r), x) == PlaceOf(c, x) {
      DonePlaces(c, id, r, x);
    }
    DonePlaces(c, id, r, id);
  }

  lemma UsableMap(c: Context, r: Request)
    requires r.session.Some? ==> r.session.value in c.sessions
    ensures var s' := UsableOf(SessionOf(c, r), r);
            UsableIn(c.sessions, r)
            == if r.session.Some? && s'.Some? && r.session.value in c.sessions
               then c.sessions[r.session.value := s'.value] else c.sessions
  {
    assert r.session.Some? ==> c.sessions == c.sessions[r.session.value := SessionOf(c, r).value];
    hide Usable;
  }

  lemma DeliveredMoves(c: Context, id: nat)
    requires Consistent(c) && id in c.requests && c.completions[id] > 0
    requires !SentBack(c.requests[id]) && (c.shutdownPosted ==> c.requests[id].detached)
    ensures var c', r, p := Deliver(c, id), c.requests[id], PlaceOf(c, id);
            && Becomes(c, c', id, Delivered(Overridden(r)), UsableOf(SessionOf(c, r), r))
            && PlaceOf(c', id) == p.(completion := p.completion - 1,
                                     ack := if r.detached then p.ack else p.ack + 1)
            && FlagsGood(c')
  {
    var r := c.requests[id];
    assert FlagsGood(c);
    DeliverFlags(c, id);
    OverriddenKeeps(r);
    DoneMoves(c, id, Overridden(r));
    assert SessionOf(c, Overridden(r)) == SessionOf(c, r);
    assert UsableOf(SessionOf(c, r), Overridden(r)) == UsableOf(SessionOf(c, r), r);
    hide FlagsGood, Consistent, Overridden, Delivered, CallDone, Becomes, PlaceOf, UsableOf;
  }

  lemma DeliverStep(c: Context, id: nat)
    requires Consistent(c) && id in c.requests && c.completions[id] > 0
    ensures var r, p := c.requests[id], PlaceOf(c, id);
            var s := SessionOf(c, r);
            && (s.Some? <==> r.session.Some?)
            && (p.stopped ==> r.detached && !SentBack(r))
            && (s.Some? ==>
                  && SessionStep(s.value, s.value, id, Overridden(r), p.registered)
                  && SessionStep(s.value, UsableOf(s, r).value, id, Delivered(Overridden(r)),
                                 p.registered)
                  && r.session.value in c.sessions && c.sessions[r.session.value] == s.value)
            && (SentBack(r) ==>
                  ReqGood(Overridden(r), id, p.(completion := p.completion - 1,
                                                rollback := p.rollback + 1), s))
            && (!SentBack(r) ==>
                  ReqGood(Delivered(Overridden(r)), id,
                          p.(completion := p.completion - 1,
                             ack := if r.detached then p.ack else p.ack + 1), UsableOf(s, r)))
  {
    KnownGood(c, id);
    DeliverValues(c.requests[id], id, PlaceOf(c, id), SessionOf(c, c.requests[id]));
    if c.requests[id].session.Some? {
      UsableStep(c.requests[id], id, PlaceOf(c, id), SessionOf(c, c.requests[id]));
    }
    hide Consistent, ReqGood, SessionStep, OwnerGood, NamedBy, Overridden, Delivered, FlagsGood;
  }

  lemma DeliverGood(c: Context, id: nat)
    requires Consistent(c) && id in c.requests && c.completions[id] > 0
    ensures Consistent(Deliver(c, id))
  {
    var c', r, p := Deliver(c, id), c.requests[id], PlaceOf(c, id);
    var s := SessionOf(c, r);
    DeliverStep(c, id);
    assert Overridden(r).session == r.session == Delivered(Overridden(r)).session;
    assert PlaceOf(c', id).registered == p.registered == (id in c'.registered);
    hide Consistent, Deliver, SentBack, Becomes, PlaceOf, FlagsGood, ReqGood, SessionStep,
         Overridden, Delivered;
    if SentBack(r) {
      SentBackMoves(c, id);
      BecomesGood(c, c', id, Overridden(r), s, PlaceOf(c', id));
    } else {
      DeliveredMoves(c, id);
      BecomesGood(c, c', id, Delivered(Overridden(r)), UsableOf(s, r), PlaceOf(c', id));
    }
  }

  // ----- Cancellation -----

  lemma OneCancelGood(c: Context, id: nat, r: Request)
    requires Consistent(c) && id in c.requests && SameBut(c.requests[id], r)
    ensures Consistent(Put(c, id, r))
  {
    forall x | x in c.requests ensures SameBut(c.requests[x], Put(c, id, r).requests[x]) {}
    hide Consistent, SameBut;
    CancelsGood(c, Put(c, id, r));
  }

  lemma SamePlaces(c: Context, c': Context)
    requires Consistent(c) && FlagsGood(c') && (forall p :: CallAt(c', p))
    requires c'.requests == c.requests && c'.sessions == c.sessions && c'.next == c.next
    requires forall id :: PlaceOf(c', id) == PlaceOf(c, id)
    ensures Consistent(c')
  {
    forall id ensures ReqAt(c', id) {
      assert ReqAt(c, id) && PlaceOf(c', id) == PlaceOf(c, id);
      hide ReqGood, PlaceOf;
    }
    forall sid ensures SessAt(c', sid) {
      assert SessAt(c, sid);
      if sid in c.sessions && c.sessions[sid].acquiring.Some? {
        assert PlaceOf(c', c.sessions[sid].acquiring.value)
            == PlaceOf(c, c.sessions[sid].acquiring.value);
      }
    }
  }

  lemma CallTaken(c: Context, call: Call)
    requires Consistent(c) && c.calls[call] > 0 && call != ShutdownStart
    ensures Consistent(c.(calls := c.calls - multiset{call})) && Addressed(c, call)
  {
    var t := c.(calls := c.calls - multiset{call});
    assert CallAt(c, call);
    CallsGood(c, t);
    assert FlagsGood(t);
    hide Consistent, FlagsGood, CallAt;
    SamePlaces(c, t);
  }

  lemma CallPosted(c: Context, call: Call)
    requires Consistent(c) && Addressed(c, call) && call != ShutdownStart
    ensures Consistent(TryCall(c, call))
  {
    forall q ensures CallAt(TryCall(c, call), q) { assert CallAt(c, q); }
    assert FlagsGood(TryCall(c, call));
    hide Consistent, FlagsGood, CallAt;
    SamePlaces(c, TryCall(c, call));
  }

  lemma StrikeSessionGood(c: Context, sid: nat, code: Code, stops: bool)
    requires Consistent(c) && code != Fine
    ensures Consistent(StrikeSession(c, sid, code, stops))
  {
    var t := StrikeSession(c, sid, code, stops);
    hide Consistent, Struck, SameBut;
    forall id | id in c.requests ensures SameBut(c.requests[id], t.requests[id]) {
      StruckSame(c.requests[id], code, false, stops);
      SameItself(c.requests[id]);
    }
    CancelsGood(c, t);
  }

  lemma StrikeAllGood(c: Context, code: Code, all: bool)
    requires Consistent(c) && code != Fine
    ensures Consistent(StrikeAll(c, code, all))
  {
    var t := StrikeAll(c, code, all);
    hide Consistent, Struck, SameBut, Foreign;
    forall id | id in c.requests ensures SameBut(c.requests[id], t.requests[id]) {
      StruckSame(c.requests[id], code, true, true);
      SameItself(c.requests[id]);
    }
    CancelsGood(c, t);
  }

  lemma SameItself(r: Request)
    ensures SameBut(r, r)
  {
  }

  /** Closing, invalidating and using a session leave its grant to its owner. */
  predicate QuietSession(s: Session, s': Session) {
    && s' == s.(closed := s'.closed, invalidating := s'.invalidating, device := s'.device,
                grant := s.grant.(timer := s'.grant.timer))
    && (s'.grant.timer ==> s.grant.timer)
  }

  lemma QuietValues(r: Request, id: nat, p: Place, s: Session, s': Session)
    requires QuietSession(s, s')
    ensures ReqGood(r, id, p, Some(s)) ==> ReqGood(r, id, p, Some(s'))
    ensures OwnerGood(s) ==> OwnerGood(s')
  {
  }

  lemma QuietSessionGood(c: Context, sid: nat, s': Session, releases: nat, listed: seq<nat>)
    requires Consistent(c) && sid in c.sessions && QuietSession(c.sessions[sid], s')
    requires c.shutdownPosted ==> releases == c.releases
    ensures Consistent(PutSession(c, sid, s').(releases := releases, listed := listed))
  {
    var c', s := PutSession(c, sid, s').(releases := releases, listed := listed), c.sessions[sid];
    forall id ensures ReqAt(c', id) {
      assert ReqAt(c, id) && PlaceOf(c', id) == PlaceOf(c, id);
      if id in c.requests {
        QuietValues(c.requests[id], id, PlaceOf(c, id), s, s');
      }
      hide ReqGood, QuietSession, PlaceOf;
    }
    QuietValues(NewRequest(Other, None, 0), 0, Place(0, 0, 0, 0, false, false), s, s');
    forall t ensures SessAt(c', t) {
      assert SessAt(c, t);
      hide OwnerGood;
    }
    forall p ensures CallAt(c', p) { assert CallAt(c, p); }
  }

  lemma CloseSessionGood(c: Context, sid: nat)
    requires Consistent(c) && sid in c.sessions && !c.shutdownPosted
    ensures Consistent(CloseSession(c, sid)) && !CloseSession(c, sid).shutdownPosted
    ensures CloseSession(c, sid).sessions.Keys == c.sessions.Keys
  {
    if !c.sessions[sid].closed {
      StrikeSessionGood(c, sid, NoSuchSession, true);
      var s := c.sessions[sid];
      assert QuietSession(s, ClosedSession(s));
      hide Consistent, QuietSession, Struck, ClosedSession;
      QuietSessionGood(StrikeSession(c, sid, NoSuchSession, true), sid, ClosedSession(s),
                       if s.device then c.releases + 1 else c.releases, Without(c.listed, sid));
    }
  }

  lemma InvalidateGood(c: Context, sid: nat, code: Code)
    requires Consistent(c) && sid in c.sessions && !c.shutdownPosted && code != Fine
    ensures Consistent(Invalidate(c, sid, code)) && !Invalidate(c, sid, code).shutdownPosted
    ensures Invalidate(c, sid, code).sessions.Keys == c.sessions.Keys
  {
    var s := c.sessions[sid];
    if !s.closed && !s.invalidating {
      var c1 := PutSession(c, sid, Invalidating(s));
      QuietSessionGood(c, sid, Invalidating(s), c.releases, c.listed);
      assert c1 == c1.(releases := c.releases, listed := c.listed);
      hide Consistent, Struck, CloseSession, Invalidating;
      StrikeSessionGood(c1, sid, code, false);
      CloseSessionGood(StrikeSession(c1, sid, code, false), sid);
    }
  }

  lemma {:induction false} CloseEachGood(c: Context, sids: seq<nat>)
    requires Consistent(c) && !c.shutdownPosted
    ensures Consistent(CloseEach(c, sids))
    decreases |sids|
  {
    hide Consistent, CloseSession;
    if sids != [] {
      var closes := sids[0] in c.sessions && c.sessions[sids[0]].generation != c.generation;
      if closes {
        CloseSessionGood(c, sids[0]);
      }
      CloseEachGood(if closes then CloseSession(c, sids[0]) else c, sids[1..]);
    }
  }

  lemma {:induction false} InvalidateEachGood(c: Context, sids: seq<nat>, code: Code)
    requires Consistent(c) && !c.shutdownPosted && code != Fine
    ensures Consistent(InvalidateEach(c, sids, code))
    decreases |sids|
  {
    hide Consistent, Invalidate;
    if sids != [] {
      if sids[0] in c.sessions {
        InvalidateGood(c, sids[0], code);
      }
      InvalidateEachGood(if sids[0] in c.sessions then Invalidate(c, sids[0], code) else c,
                         sids[1..], code);
    }
  }

  /** Flags and counters on their own. */
  lemma FlagsOnly(c: Context, c': Context)
    requires Consistent(c) && FlagsGood(c') && c'.calls <= c.calls
    requires c'.requests == c.requests && c'.sessions == c.sessions && c'.next == c.next
    requires c'.registered == c.registered && c'.starts == c.starts && c'.acks == c.acks
    requires c'.rollbacks == c.rollbacks && c'.completions == c.completions
    requires c'.shutdownPosted == c.shutdownPosted
    ensures Consistent(c')
  {
    CallsGood(c, c');
    hide Consistent, FlagsGood, CallAt;
    SamePlaces(c, c');
  }

  lemma RunGenerationGood(c: Context, generation: nat)
    requires Consistent(c) && !c.shutdownPosted
    ensures Consistent(RunGeneration(c, generation))
  {
    var c1 := c.(generation := generation);
    FlagsOnly(c, c1);
    hide Consistent, Struck, CloseEach;
    StrikeAllGood(c1, OwnerGone, false);
    var c2 := StrikeAll(c1, OwnerGone, false);
    CloseEachGood(c2, c2.listed);
  }

  lemma RunShutdownGood(c: Context)
    requires Consistent(c) && c.calls[ShutdownStart] > 0
    ensures Consistent(RunShutdown(c.(calls := c.calls - multiset{ShutdownStart})))
  {
    var c1 := c.(calls := c.calls - multiset{ShutdownStart}, stopping := true);
    assert c.calls != multiset{};
    FlagsOnly(c, c1);
    assert !c.shutdownPosted;
    hide Consistent, Struck, InvalidateEach;
    StrikeAllGood(c1, BackendGone, true);
    var c2 := StrikeAll(c1, BackendGone, true);
    InvalidateEachGood(c2, c2.listed, BackendGone);
  }

  lemma CheckShutdownGood(c: Context)
    requires Consistent(c)
    ensures Consistent(CheckShutdown(c))
  {
    if Drained(c) {
      var c' := CheckShutdown(c);
      forall id ensures ReqAt(c', id) {
        assert ReqAt(c, id);
        assert PlaceOf(c', id) == PlaceOf(c, id).(stopped := true);
      }
      forall sid ensures SessAt(c', sid) { assert SessAt(c, sid); }
      forall p ensures CallAt(c', p) { assert CallAt(c, p); }
    }
  }

  lemma NewSessionGood(c: Context, sid: nat, generation: nat)
    requires Consistent(c)
    ensures Consistent(NewSession(c, sid, generation))
  {
    var c' := NewSession(c, sid, generation);
    forall id ensures ReqAt(c', id) {
      assert ReqAt(c, id) && PlaceOf(c', id) == PlaceOf(c, id);
      hide PlaceOf, Placed, Owned;
    }
    forall t ensures SessAt(c', t) { assert SessAt(c, t); }
    forall p ensures CallAt(c', p) { assert CallAt(c, p); }
  }

  // ----- Every step -----

  lemma RunCallGood(c: Context, call: Call)
    requires Consistent(c) && Enabled(c, CallRun(call))
    ensures Consistent(RunCall(c, call))
  {
    assert !c.shutdownPosted;
    if call == ShutdownStart {
      RunShutdownGood(c);
    } else {
      CallTaken(c, call);
      var c1 := c.(calls := c.calls - multiset{call});
      hide Consistent, RunGeneration, CloseSession, RunShutdown, CancelledBy;
      match call
      case CancelCall(id, code) =>
        StruckSame(c.requests[id], code, false, true);
        OneCancelGood(c1, id, CancelledBy(c.requests[id], code));
      case GenerationCall(generation) => RunGenerationGood(c1, generation);
      case SessionCall(sid) => CloseSessionGood(c1, sid);
    }
  }

  lemma RequestCancelGood(c: Context, id: nat, code: Code)
    requires Consistent(c) && id in c.requests && code != Fine
    ensures Consistent(RequestCancel(c, id, code))
  {
    if !c.stopping {
      var r := c.requests[id];
      var r' := r.(intent := if r.intent.None? then Some(code) else r.intent);
      assert SameBut(r, r');
      hide Consistent, SameBut;
      OneCancelGood(c, id, r');
      CallPosted(Put(c, id, r'), CancelCall(id, code));
    }
  }

  lemma ExpiredGood(c: Context, sid: nat)
    requires Consistent(c) && sid in c.sessions && !c.shutdownPosted
    ensures Consistent(Invalidate(PutSession(c, sid, ExpiredTimer(c.sessions[sid])), sid, DeviceError))
  {
    var c1 := PutSession(c, sid, ExpiredTimer(c.sessions[sid]));
    QuietSessionGood(c, sid, ExpiredTimer(c.sessions[sid]), c.releases, c.listed);
    assert c1 == c1.(releases := c.releases, listed := c.listed);
    hide Consistent, Invalidate;
    InvalidateGood(c1, sid, DeviceError);
  }

  lemma UsedGood(c: Context, sid: nat)
    requires Consistent(c) && sid in c.sessions
    ensures Consistent(PutSession(c, sid, Used(c.sessions[sid])))
  {
    QuietSessionGood(c, sid, Used(c.sessions[sid]), c.releases, c.listed);
    var c1 := PutSession(c, sid, Used(c.sessions[sid]));
    assert c1 == c1.(releases := c.releases, listed := c.listed);
  }

  lemma CountersMove(c: Context, e: Event)
    requires e.UiHeld? || e.UiLetGo? || e.LoginThrownAway? || e.Released? || e.StopDelivered?
    ensures var t := Step(c, e);
            t == c.(busy := t.busy, releases := t.releases, stops := t.stops,
                    stopsDelivered := t.stopsDelivered)
    ensures FlagsGood(c) ==> FlagsGood(Step(c, e))
  {
    hide Schedule, RequestCancel, TryCall, RunStart, RunAck, RunRollback, RunCall, CheckShutdown,
         Complete, FinishAcquire, Deliver, NewSession, Invalidate, Used, PutSession, ExpiredTimer;
  }

  lemma CountersGood(c: Context, e: Event)
    requires Consistent(c)
    requires e.UiHeld? || e.UiLetGo? || e.LoginThrownAway? || e.Released? || e.StopDelivered?
    ensures Consistent(Step(c, e))
  {
    assert FlagsGood(c);
    CountersMove(c, e);
    hide Consistent, Step, FlagsGood;
    FlagsOnly(c, Step(c, e));
  }

  lemma ShutdownAskedGood(c: Context)
    requires Consistent(c)
    ensures Consistent(Step(c, ShutdownAsked))
  {
    if !c.shutdownStarted {
      var c' := TryCall(c.(shutdownStarted := true), ShutdownStart);
      forall q ensures CallAt(c', q) { assert CallAt(c, q); }
      assert FlagsGood(c') && Step(c, ShutdownAsked) == c';
      hide Consistent, FlagsGood, Step, CallAt;
      SamePlaces(c, c');
    }
  }

  lemma StepConsistent(c: Context, e: Event)
    requires Consistent(c)
    ensures Consistent(Step(c, e))
  {
    if e.UiHeld? || e.UiLetGo? || e.LoginThrownAway? || e.Released? || e.StopDelivered? {
      CountersGood(c, e);
    } else if e.ShutdownAsked? {
      ShutdownAskedGood(c);
    } else if Enabled(c, e) {
      assert FlagsGood(c);
      EnabledGood(c, e);
    }
    hide Consistent, Step;
  }

  lemma EnabledGood(c: Context, e: Event)
    requires Consistent(c) && Enabled(c, e)
    requires !(e.UiHeld? || e.UiLetGo? || e.LoginThrownAway? || e.Released? || e.StopDelivered?
               || e.ShutdownAsked?)
    ensures Consistent(Step(c, e))
  {
    assert FlagsGood(c);
    if e.WatchStopped? {
      FlagsOnly(c, c.(watchStopped := true));
    }
    hide Consistent, Schedule, RequestCancel, TryCall, RunStart, RunAck, RunRollback, RunCall,
         CheckShutdown, Complete, FinishAcquire, Deliver, NewSession, Invalidate, Used, PutSession,
         FlagsGood, ExpiredTimer;
    match e
    case Scheduled(kind, session, generation) => ScheduleGood(c, kind, session, generation);
    case CancelRequested(id, code) => RequestCancelGood(c, id, code);
    case GenerationSet(generation) => CallPosted(c, GenerationCall(generation));
    case CloseAsked(sid) => CallPosted(c, SessionCall(sid));
    case StartRun(id, verdict) =>
      RunStartGood(c, id, verdict);
      CheckShutdownGood(RunStart(c.(starts := c.starts - multiset{id}), id, verdict));
    case AckRun(id) =>
      RunAckGood(c, id);
      CheckShutdownGood(RunAck(c.(acks := c.acks - multiset{id}), id));
    case RollbackRun(id) =>
      RunRollbackGood(c, id);
      CheckShutdownGood(RunRollback(c.(rollbacks := c.rollbacks - multiset{id}), id));
    case CallRun(call) =>
      RunCallGood(c, call);
      CheckShutdownGood(RunCall(c, call));
    case Answered(id, code) => CompleteGood(c, id, code);
    case Chosen(id, serial, grant) => FinishAcquireGood(c, id, serial, grant);
    case Completed(id) => DeliverGood(c, id);
    case SessionMade(sid, generation) => NewSessionGood(c, sid, generation);
    case TokenGone(sid) => InvalidateGood(c, sid, TokenRemoved);
    case Expired(sid) => ExpiredGood(c, sid);
    case DeviceUsed(sid) => UsedGood(c, sid);
    case WatchStopped => CheckShutdownGood(c.(watchStopped := true));
    case Polled => CheckShutdownGood(c);
  }

  lemma {:induction false} RunFromConsistent(c: Context, events: seq<Event>)
    requires Consistent(c)
    ensures Consistent(RunFrom(c, events))
    decreases |events|
  {
    hide Consistent, Step;
    if events != [] {
      RunFromConsistent(c, events[..|events| - 1]);
      StepConsistent(RunFrom(c, events[..|events| - 1]), events[|events| - 1]);
    }
  }

  lemma RunConsistent(events: seq<Event>)
    ensures Consistent(Run(events))
  {
    NewConsistent();
    hide Consistent;
    RunFromConsistent(NEW, events);
  }
}
