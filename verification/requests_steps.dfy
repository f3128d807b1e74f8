/** What each function of the coordinator and of the desktop does to requests, sessions
    and grants, said of the fields, in every run (src/core/context.c, src/core/session.c,
    src/core/acquire.c). */
module RequestSteps {
  import opened Optional
  import opened RequestContext
  import opened RequestInvariant
  import opened RequestResults

  lemma RunNext(events: seq<Event>, e: Event)
    ensures Run(events + [e]) == Step(Run(events), e) && Consistent(Run(events))
  {
    RunConsistent(events);
    assert (events + [e])[..|events|] == events;
    hide Step, Consistent;
  }

  /** `t` is `s`, but that the context may have reported that it has stopped, which
      takes every session off its list. */
  predicate UpToStop(s: Context, t: Context) {
    t == s.(shutdownPosted := t.shutdownPosted, stops := t.stops,
            listed := if t.shutdownPosted && !s.shutdownPosted then [] else s.listed)
  }

  lemma StopChecked(c: Context)
    ensures UpToStop(c, CheckShutdown(c))
    ensures !c.stopping ==> CheckShutdown(c) == c
  {
  }

  /** The functions posted to the coordinator, and its watch's end. */
  predicate OnCoordinator(e: Event) {
    e.StartRun? || e.AckRun? || e.RollbackRun? || e.CallRun? || e.WatchStopped? || e.Polled?
  }

  /** The stop is reported as soon as there is nothing left: by the first function of the
      coordinator that ends with shutdown begun, the watch gone, nothing registered,
      nothing posted, nothing held and nothing to release. */
  lemma StopIsReported(events: seq<Event>, e: Event)
    requires Enabled(Run(events), e)
    ensures var c := Run(events);
            var t := Run(events + [e]);
            && t.stops + t.stopsDelivered == c.stops + c.stopsDelivered
               + (if t.shutdownPosted && !c.shutdownPosted then 1 else 0)
            && (c.shutdownPosted ==> t.shutdownPosted)
            && (!c.shutdownPosted ==>
                  (t.shutdownPosted <==>
                     && OnCoordinator(e) && t.stopping && t.watchStopped && t.registered == {}
                     && t.starts == multiset{} && t.acks == multiset{}
                     && t.rollbacks == multiset{} && t.calls == multiset{}
                     && t.busy == 0 && t.releases == 0))
  {
    RunNext(events, e);
    hide Run, Consistent;
    StopStep(Run(events), e);
    hide Step;
  }

  /** Work on one request or session leaves the report of the stop alone. */
  predicate SameStop(c: Context, t: Context) {
    && t.shutdownPosted == c.shutdownPosted && t.stops == c.stops
    && t.stopsDelivered == c.stopsDelivered
  }

  lemma CompleteSameStop(c: Context, id: nat, code: Code)
    requires id in c.requests
    ensures SameStop(c, Complete(c, id, code))
  {
    hide SettledIn, Answer;
  }

  lemma StartSameStop(c: Context, id: nat, verdict: Code)
    requires id in c.requests
    ensures SameStop(c, RunStart(c, id, verdict))
  {
    var c1 := c.(registered := c.registered + {id});
    CompleteSameStop(c1, id, Validate(c1, c.requests[id], verdict));
    CompleteSameStop(c1, id, InvalidRequest);
    hide Complete, Validate, Rival;
  }

  lemma CloseSameStop(c: Context, sid: nat)
    requires sid in c.sessions
    ensures SameStop(c, CloseSession(c, sid))
  {
    hide StruckOf, Without;
  }

  lemma InvalidateSameStop(c: Context, sid: nat, code: Code)
    requires sid in c.sessions
    ensures SameStop(c, Invalidate(c, sid, code))
  {
    CloseSameStop(StrikeSession(PutSession(c, sid, Invalidating(c.sessions[sid])), sid, code, false), sid);
    hide StruckOf, CloseSession;
  }

  lemma {:induction false} CloseEachSameStop(c: Context, sids: seq<nat>)
    ensures SameStop(c, CloseEach(c, sids))
    decreases |sids|
  {
    hide CloseSession;
    if sids != [] {
      var closes := sids[0] in c.sessions && c.sessions[sids[0]].generation != c.generation;
      if closes {
        CloseSameStop(c, sids[0]);
      }
      CloseEachSameStop(if closes then CloseSession(c, sids[0]) else c, sids[1..]);
    }
  }

  lemma {:induction false} InvalidateEachSameStop(c: Context, sids: seq<nat>, code: Code)
    ensures SameStop(c, InvalidateEach(c, sids, code))
    decreases |sids|
  {
    hide Invalidate;
    if sids != [] {
      if sids[0] in c.sessions {
        InvalidateSameStop(c, sids[0], code);
      }
      InvalidateEachSameStop(if sids[0] in c.sessions then Invalidate(c, sids[0], code) else c,
                             sids[1..], code);
    }
  }

  lemma CallSameStop(c: Context, call: Call)
    requires Enabled(c, CallRun(call))
    ensures SameStop(c, RunCall(c, call))
  {
    hide StruckAll, CloseEach, InvalidateEach, CloseSession, CancelledBy;
    var c1 := c.(calls := c.calls - multiset{call});
    match call
    case CancelCall(id, code) =>
    case GenerationCall(generation) =>
      var c2 := StrikeAll(c1.(generation := generation), OwnerGone, false);
      CloseEachSameStop(c2, c2.listed);
    case SessionCall(sid) => CloseSameStop(c1, sid);
    case ShutdownStart =>
      var c2 := StrikeAll(c1.(stopping := true), BackendGone, true);
      InvalidateEachSameStop(c2, c2.listed, BackendGone);
  }

  predicate AllGone(c: Context) {
    && c.stopping && c.watchStopped && c.registered == {}
    && c.starts == multiset{} && c.acks == multiset{} && c.rollbacks == multiset{}
    && c.calls == multiset{} && c.busy == 0 && c.releases == 0
  }

  lemma CheckStops(c: Context, c1: Context)
    requires SameStop(c, c1)
    ensures var t := CheckShutdown(c1);
            && t.stops + t.stopsDelivered == c.stops + c.stopsDelivered
               + (if t.shutdownPosted && !c.shutdownPosted then 1 else 0)
            && (c.shutdownPosted ==> t.shutdownPosted)
            && (!c.shutdownPosted ==> (t.shutdownPosted <==> AllGone(t)))
  {
  }

  lemma StopStep(c: Context, e: Event)
    requires Enabled(c, e)
    ensures var t := Step(c, e);
            && t.stops + t.stopsDelivered == c.stops + c.stopsDelivered
               + (if t.shutdownPosted && !c.shutdownPosted then 1 else 0)
            && (c.shutdownPosted ==> t.shutdownPosted)
            && (!c.shutdownPosted ==> (t.shutdownPosted <==> OnCoordinator(e) && AllGone(t)))
  {
    hide RunStart, RunCall, RunAck, RunRollback, Complete, FinishAcquire, Deliver, Invalidate,
         Schedule, RequestCancel, CheckShutdown, ExpiredTimer, Used, AllGone;
    if OnCoordinator(e) {
      CoordinatorStops(c, e);
    } else {
      OtherSameStop(c, e);
    }
  }

  lemma CoordinatorStops(c: Context, e: Event)
    requires Enabled(c, e) && OnCoordinator(e)
    ensures var t := Step(c, e);
            && t.stops + t.stopsDelivered == c.stops + c.stopsDelivered
               + (if t.shutdownPosted && !c.shutdownPosted then 1 else 0)
            && (c.shutdownPosted ==> t.shutdownPosted)
            && (!c.shutdownPosted ==> (t.shutdownPosted <==> AllGone(t)))
  {
    hide RunStart, RunCall, RunRollback, CheckShutdown, AllGone;
    if e.StartRun? {
      var c1 := c.(starts := c.starts - multiset{e.id});
      StartSameStop(c1, e.id, e.verdict);
      CheckStops(c, RunStart(c1, e.id, e.verdict));
    } else if e.AckRun? {
      CheckStops(c, RunAck(c.(acks := c.acks - multiset{e.id}), e.id));
    } else if e.RollbackRun? {
      var c1 := c.(rollbacks := c.rollbacks - multiset{e.id});
      assert SameStop(c1, RunRollback(c1, e.id)) by { RollbackSameStop(c1, e.id); }
      CheckStops(c, RunRollback(c1, e.id));
    } else if e.CallRun? {
      CallSameStop(c, e.call);
      CheckStops(c, RunCall(c, e.call));
    } else if e.WatchStopped? {
      CheckStops(c, c.(watchStopped := true));
    } else {
      CheckStops(c, c);
    }
  }

  lemma RollbackSameStop(c: Context, id: nat)
    requires OfSession(c, id)
    ensures SameStop(c, RunRollback(c, id))
  {
  }

  lemma ChosenSameStop(c: Context, id: nat, serial: bool, grant: Grant)
    requires Enabled(c, Chosen(id, serial, grant))
    ensures SameStop(c, FinishAcquire(c, id, serial, grant))
  {
    CompleteSameStop(c, id, Cancelled);
    CompleteSameStop(c, id, NoSuchSession);
    CompleteSameStop(c, id, DeviceError);
    CompleteSameStop(MakeGrant(c, id, c.requests[id].session.value, grant), id, Fine);
    hide Complete, Granted, Accepted;
  }

  lemma DeliverSameStop(c: Context, id: nat)
    requires id in c.requests
    ensures SameStop(c, Deliver(c, id))
  {
    hide Overridden, Delivered, UsableIn, Posting;
  }

  lemma ScheduleSameStop(c: Context, kind: Kind, session: Option<nat>, generation: nat)
    ensures SameStop(c, Schedule(c, kind, session, generation))
  {
    var id := c.next;
    var r := NewRequest(kind, session, generation);
    CompleteSameStop(Put(c, id, r.(detached := true)).(next := id + 1), id, BackendGone);
    hide Complete, NewRequest;
  }

  lemma OtherSameStop(c: Context, e: Event)
    requires Enabled(c, e) && !OnCoordinator(e)
    ensures var t := Step(c, e);
            && t.shutdownPosted == c.shutdownPosted
            && t.stops + t.stopsDelivered == c.stops + c.stopsDelivered
  {
    hide Complete, FinishAcquire, Deliver, Invalidate, Schedule, ExpiredTimer, Used;
    if e.Scheduled? {
      ScheduleSameStop(c, e.kind, e.session, e.generation);
    } else if e.Answered? {
      CompleteSameStop(c, e.id, e.code);
    } else if e.Chosen? {
      ChosenSameStop(c, e.id, e.serial, e.grant);
    } else if e.Completed? {
      DeliverSameStop(c, e.id);
    } else if e.TokenGone? {
      InvalidateSameStop(c, e.sid, TokenRemoved);
    } else if e.Expired? {
      InvalidateSameStop(PutSession(c, e.sid, ExpiredTimer(c.sessions[e.sid])), e.sid, DeviceError);
    }
  }

  // ----- One request at a time -----

  /** An earlier cancellation decides what a request is answered with. */
  predicate AnsweredAs(r: Request, code: Code, r': Request) {
    && r' == r.(answered := true, error := r'.error, hasCandidate := r'.hasCandidate)
    && (r.cancelledCode != Fine ==> r'.error == r.cancelledCode)
    && (r.cancelledCode == Fine && r.cancelled ==> r'.error == Cancelled)
    && (r.cancelledCode == Fine && !r.cancelled ==> r'.error == code)
  }

  /** `id` is answered, its completion dispatched, and its session is not being acquired
      by it any more; nothing else has changed. */
  predicate Concluded(s: Context, t: Context, id: nat, code: Code) {
    && id in s.requests && id in t.requests && t.requests == s.requests[id := t.requests[id]]
    && AnsweredAs(s.requests[id], code, t.requests[id])
    && t.requests[id].hasCandidate == s.requests[id].hasCandidate
    && t.sessions.Keys == s.sessions.Keys
    && (forall x :: x in s.sessions ==>
          t.sessions[x] == if s.sessions[x].acquiring == Some(id)
                           then s.sessions[x].(acquiring := None) else s.sessions[x])
    && UpToStop(s.(requests := t.requests, sessions := t.sessions,
                   completions := s.completions + multiset{id}), t)
  }

  /** Only the session a request names is being acquired by it. */
  lemma AcquiringIsNamed(c: Context, id: nat, sid: nat)
    requires Consistent(c) && id in c.requests && sid in c.sessions
    requires c.sessions[sid].acquiring == Some(id)
    ensures c.requests[id].session == Some(sid)
  {
    assert SessAt(c, sid);
  }

  lemma CompleteConcludes(c: Context, id: nat, code: Code)
    requires id in c.requests && !c.requests[id].answered
    requires forall x :: x in c.sessions && c.sessions[x].acquiring == Some(id) ==>
               c.requests[id].session == Some(x)
    ensures Concluded(c, Complete(c, id, code), id, code)
  {
    var t := Complete(c, id, code);
    assert t.requests[id] == Answer(c.requests[id], code);
    hide SettledIn;
    forall x | x in c.sessions
      ensures x in t.sessions
              && t.sessions[x] == if c.sessions[x].acquiring == Some(id)
                                  then c.sessions[x].(acquiring := None) else c.sessions[x]
    {
      SettledAt(c.sessions, c.requests[id].session, id, x);
    }
    assert t.sessions.Keys == c.sessions.Keys by {
      forall x ensures x in t.sessions <==> x in c.sessions {
        SettledKeys(c.sessions, c.requests[id].session, id, x);
      }
    }
  }

  lemma SettledKeys(sessions: map<nat, Session>, session: Option<nat>, id: nat, x: nat)
    ensures x in SettledIn(sessions, session, id) <==> x in sessions
  {
  }

  lemma SettledAt(sessions: map<nat, Session>, session: Option<nat>, id: nat, x: nat)
    requires x in sessions && (sessions[x].acquiring == Some(id) ==> session == Some(x))
    ensures var t := SettledIn(sessions, session, id);
            x in t && t[x] == if sessions[x].acquiring == Some(id)
                              then sessions[x].(acquiring := None) else sessions[x]
  {
  }

  lemma ConcludesHere(c: Context, id: nat, code: Code)
    requires Consistent(c) && id in c.requests && !c.requests[id].answered
    ensures Concluded(c, Complete(c, id, code), id, code)
  {
    forall x | x in c.sessions && c.sessions[x].acquiring == Some(id)
      ensures c.requests[id].session == Some(x)
    {
      AcquiringIsNamed(c, id, x);
    }
    hide Consistent, Complete, Concluded;
    CompleteConcludes(c, id, code);
  }

  /** A worker, a prompt or a chooser answers a live request. */
  lemma AnswerCounts(events: seq<Event>, id: nat, code: Code)
    requires var c := Run(events);
             && id in c.requests && id in c.registered && !c.requests[id].answered
             && (c.requests[id].kind == Acquire ==> code != Fine)
    ensures Concluded(Run(events), Run(events + [Answered(id, code)]), id, code)
  {
    var c := Run(events);
    RunNext(events, Answered(id, code));
    hide Run;
    ConcludesHere(c, id, code);
    assert Step(c, Answered(id, code)) == Complete(c, id, code) by { hide Consistent, Complete; }
    hide Step, Complete, Consistent, Concluded;
  }

  /** Another acquisition of the session is under way. */
  predicate Contested(c: Context, session: Option<nat>) {
    exists x :: x in c.registered && x in c.requests && c.requests[x].kind == Acquire
                && c.requests[x].session == session && !c.requests[x].answered
  }

  /** Nothing is stopping, nobody has cancelled the request, and it is valid. */
  predicate Welcome(c: Context, r: Request, verdict: Code) {
    !c.stopping && r.intent.None? && r.cancelledCode == Fine && !r.cancelled && verdict == Fine
  }

  /** An acquisition finds its session granted, or being acquired. */
  predicate Taken(c: Context, r: Request) {
    r.kind == Acquire && r.session.Some? && r.session.value in c.sessions
    && (c.sessions[r.session.value].grant.granted || Contested(c, r.session))
  }

  function Refusal(c: Context, r: Request, verdict: Code): Code {
    if c.stopping then BackendGone else if r.intent.Some? then Cancelled
    else if verdict != Fine then verdict else InvalidRequest
  }

  /** A posted start goes to work exactly if the request is welcome and, for an
      acquisition, its session is not taken, and from then on it is being acquired.
      Otherwise the request is answered with the first reason against it. */
  lemma StartAnswered(events: seq<Event>, id: nat, verdict: Code)
    requires id in Run(events).requests && Run(events).starts[id] > 0
    ensures var c := Run(events);
            var t := Run(events + [StartRun(id, verdict)]);
            var s := c.(starts := c.starts - multiset{id}, registered := c.registered + {id});
            var r := c.requests[id];
            if !Welcome(c, r, verdict) || Taken(c, r) then Concluded(s, t, id, Refusal(c, r, verdict))
            else if r.kind == Acquire then
              && r.session.Some? && r.session.value in c.sessions
              && var sid := r.session.value;
              UpToStop(s.(sessions := c.sessions[sid := c.sessions[sid].(acquiring := Some(id))]), t)
            else UpToStop(s, t)
  {
    var c := Run(events);
    RunNext(events, StartRun(id, verdict));
    hide Run;
    StartIsFresh(c, id);
    hide Consistent;
    StartStep(c, id, verdict);
    hide Step, Welcome, Taken, Refusal, Concluded, UpToStop;
  }

  /** A start about to run: not registered yet, not answered, acquiring nothing. */
  ghost predicate Fresh(c: Context, id: nat) {
    && id in c.requests && id !in c.registered && !c.requests[id].answered
    && (forall x :: x in c.sessions ==> c.sessions[x].acquiring != Some(id))
    && (c.requests[id].kind == Acquire ==>
          c.requests[id].session.Some? && c.requests[id].session.value in c.sessions)
  }

  lemma StartUnwelcome(c: Context, id: nat, verdict: Code)
    requires Fresh(c, id) && !Welcome(c, c.requests[id], verdict)
    ensures var t := RunStart(c, id, verdict);
            Concluded(c.(registered := c.registered + {id}), t, id, Refusal(c, c.requests[id], verdict))
            && t.shutdownPosted == c.shutdownPosted && t.listed == c.listed
  {
    var s := c.(registered := c.registered + {id});
    var code := Validate(s, c.requests[id], verdict);
    assert code != Fine;
    CompleteConcludes(s, id, code);
    var t := Complete(s, id, code);
    assert RunStart(c, id, verdict) == t by { hide Validate, Complete, Rival, Acquiring; }
    hide RunStart, Complete;
    RefusedAs(s, s.requests[id], verdict, t.requests[id]);
    hide AnsweredAs, Validate;
  }

  lemma StartTaken(c: Context, id: nat, verdict: Code)
    requires Fresh(c, id) && Welcome(c, c.requests[id], verdict) && Taken(c, c.requests[id])
    ensures var t := RunStart(c, id, verdict);
            Concluded(c.(registered := c.registered + {id}), t, id, InvalidRequest)
            && t.shutdownPosted == c.shutdownPosted && t.listed == c.listed
  {
    var s := c.(registered := c.registered + {id});
    RivalIsContest(c, id, c.requests[id].session.value);
    CompleteConcludes(s, id, InvalidRequest);
    hide Rival, Contested;
    assert RunStart(c, id, verdict) == Complete(s, id, InvalidRequest) by { hide Complete; }
    hide RunStart, AnsweredAs;
  }

  lemma StartGoes(c: Context, id: nat, verdict: Code)
    requires Fresh(c, id) && Welcome(c, c.requests[id], verdict) && !Taken(c, c.requests[id])
    ensures var t, s := RunStart(c, id, verdict), c.(registered := c.registered + {id});
            var r := c.requests[id];
            if r.kind == Acquire then
              var sid := r.session.value;
              t == s.(sessions := c.sessions[sid := c.sessions[sid].(acquiring := Some(id))])
            else t == s
  {
    if c.requests[id].kind == Acquire {
      RivalIsContest(c, id, c.requests[id].session.value);
    }
    hide Rival, Contested, Complete;
  }

  lemma StartIsFresh(c: Context, id: nat)
    requires Consistent(c) && id in c.requests && c.starts[id] > 0
    ensures Fresh(c, id)
  {
    KnownGood(c, id);
    forall x | x in c.sessions ensures c.sessions[x].acquiring != Some(id) {
      assert SessAt(c, x);
    }
  }

  lemma StartStep(c: Context, id: nat, verdict: Code)
    requires Fresh(c, id) && Enabled(c, StartRun(id, verdict))
    ensures var t := Step(c, StartRun(id, verdict));
            var s := c.(starts := c.starts - multiset{id}, registered := c.registered + {id});
            var r := c.requests[id];
            if !Welcome(c, r, verdict) || Taken(c, r) then Concluded(s, t, id, Refusal(c, r, verdict))
            else if r.kind == Acquire then
              && r.session.Some? && r.session.value in c.sessions
              && var sid := r.session.value;
              UpToStop(s.(sessions := c.sessions[sid := c.sessions[sid].(acquiring := Some(id))]), t)
            else UpToStop(s, t)
  {
    var c0 := c.(starts := c.starts - multiset{id});
    var u := RunStart(c0, id, verdict);
    assert Step(c, StartRun(id, verdict)) == CheckShutdown(u) by { hide RunStart, CheckShutdown; }
    hide Step;
    StopChecked(u);
    hide CheckShutdown, Concluded;
    SameForStart(c, c0, c.requests[id], verdict);
    if !Welcome(c, c.requests[id], verdict) || Taken(c, c.requests[id]) {
      StartRefused(c0, CheckShutdown(u), id, verdict);
      hide RunStart, Welcome, Taken, Refusal, UpToStop;
    } else {
      StartGoes(c0, id, verdict);
      hide RunStart, Welcome, Taken, Refusal;
    }
  }

  lemma SameForStart(c: Context, c0: Context, r: Request, verdict: Code)
    requires c0 == c.(starts := c0.starts)
    ensures Welcome(c0, r, verdict) == Welcome(c, r, verdict) && Taken(c0, r) == Taken(c, r)
    ensures Refusal(c0, r, verdict) == Refusal(c, r, verdict)
  {
  }

  lemma StartRefused(c: Context, t: Context, id: nat, verdict: Code)
    requires Fresh(c, id) && UpToStop(RunStart(c, id, verdict), t)
    requires !Welcome(c, c.requests[id], verdict) || Taken(c, c.requests[id])
    ensures Concluded(c.(registered := c.registered + {id}), t, id,
                      Refusal(c, c.requests[id], verdict))
  {
    var s, r := c.(registered := c.registered + {id}), c.requests[id];
    var u := RunStart(c, id, verdict);
    if !Welcome(c, r, verdict) {
      StartUnwelcome(c, id, verdict);
    } else {
      StartTaken(c, id, verdict);
      assert Refusal(c, r, verdict) == InvalidRequest;
    }
    hide RunStart, UpToStop, Taken, Welcome, Concluded, Refusal, Fresh;
    StopConcludes(s, u, t, id, Refusal(c, r, verdict));
  }

  lemma RivalIsContest(c: Context, id: nat, sid: nat)
    requires id !in c.registered
    ensures Rival(c.(registered := c.registered + {id}), id, sid) <==> Contested(c, Some(sid))
  {
    var c1 := c.(registered := c.registered + {id});
    if Contested(c, Some(sid)) {
      var x :| x in c.registered && x in c.requests && c.requests[x].kind == Acquire
               && c.requests[x].session == Some(sid) && !c.requests[x].answered;
      assert x in c1.registered && LiveAcquire(c1.requests[x], sid);
    }
  }

  /** What decides the answer of a request that is refused when it starts. */
  lemma RefusedAs(c: Context, r: Request, verdict: Code, r': Request)
    requires Validate(c, r, verdict) != Fine
    requires AnsweredAs(r, Validate(c, r, verdict), r')
    ensures AnsweredAs(r, Refusal(c, r, verdict), r')
  {
  }

  lemma StopConcludes(s: Context, u: Context, t: Context, id: nat, code: Code)
    requires Concluded(s, u, id, code) && UpToStop(u, t)
    requires u.shutdownPosted == s.shutdownPosted && u.listed == s.listed
    ensures Concluded(s, t, id, code)
  {
    hide AnsweredAs;
  }

  /** The user's choice becomes a grant nobody can use yet, if the request has not been
      cancelled, the session is open and the token can be found again; otherwise it is
      refused, for the first of these that fails. */
  lemma ChoiceCounts(events: seq<Event>, id: nat, serial: bool, grant: Grant)
    requires var c := Run(events);
             && id in c.requests && id in c.registered && !c.requests[id].answered
             && c.requests[id].kind == Acquire && c.requests[id].session.Some?
             && c.requests[id].session.value in c.sessions
    ensures var c := Run(events);
            var t := Run(events + [Chosen(id, serial, grant)]);
            var r, sid := c.requests[id], c.requests[id].session.value;
            if r.intent.Some? then Concluded(c, t, id, Cancelled)
            else if c.sessions[sid].closed then Concluded(c, t, id, NoSuchSession)
            else if !serial then Concluded(c, t, id, DeviceError)
            else
              && id in t.requests && AnsweredAs(r, Fine, t.requests[id]) && t.requests[id].hasCandidate
              && t == c.(requests := c.requests[id := t.requests[id]],
                         completions := c.completions + multiset{id},
                         sessions := c.sessions[sid := c.sessions[sid].(
                           acquiring := None, pending := true, owner := Some(id),
                           grant := grant.(granted := true, mayDecrypt := false, decrypts := 0,
                                           timer := true))])
  {
    var c := Run(events);
    RunNext(events, Chosen(id, serial, grant));
    hide Run, Consistent, Concluded, Complete, Step, MakeGrant, AnsweredAs;
    var sid := c.requests[id].session.value;
    assert c.sessions[sid].acquiring == Some(id) by { KnownGood(c, id); }
    ConcludesHere(c, id, Cancelled);
    ConcludesHere(c, id, NoSuchSession);
    ConcludesHere(c, id, DeviceError);
    GrantIsMade(c, id, sid, grant);
    ChosenStep(c, id, serial, grant);
  }

  lemma ChosenStep(c: Context, id: nat, serial: bool, grant: Grant)
    requires Enabled(c, Chosen(id, serial, grant))
    ensures var t := Step(c, Chosen(id, serial, grant));
            var r, sid := c.requests[id], c.requests[id].session.value;
            if r.intent.Some? then t == Complete(c, id, Cancelled)
            else if c.sessions[sid].closed then t == Complete(c, id, NoSuchSession)
            else if !serial then t == Complete(c, id, DeviceError)
            else t == Complete(MakeGrant(c, id, sid, grant), id, Fine)
  {
    assert Step(c, Chosen(id, serial, grant)) == FinishAcquire(c, id, serial, grant) by {
      hide FinishAcquire;
    }
    hide Step, Complete, MakeGrant;
  }

  lemma GrantIsMade(c: Context, id: nat, sid: nat, grant: Grant)
    requires id in c.requests && sid in c.sessions && !c.requests[id].answered
    requires c.requests[id].session == Some(sid) && c.sessions[sid].acquiring == Some(id)
    ensures var t := Complete(MakeGrant(c, id, sid, grant), id, Fine);
            && id in t.requests && AnsweredAs(c.requests[id], Fine, t.requests[id])
            && t.requests[id].hasCandidate
            && t == c.(requests := c.requests[id := t.requests[id]],
                       completions := c.completions + multiset{id},
                       sessions := c.sessions[sid := c.sessions[sid].(
                         acquiring := None, pending := true, owner := Some(id),
                         grant := grant.(granted := true, mayDecrypt := false, decrypts := 0,
                                         timer := true))])
  {
    var t := Complete(MakeGrant(c, id, sid, grant), id, Fine);
    assert t.requests == c.requests[id := t.requests[id]];
    assert t.sessions == c.sessions[sid := t.sessions[sid]];
  }

  /** On the desktop a cancellation mark replaces the result. A grant with an error then
      goes back to the coordinator and nobody is called; otherwise the caller is, its
      grant may be used from now on, and the coordinator is told. */
  lemma CompletionDelivered(events: seq<Event>, id: nat)
    requires id in Run(events).requests && Run(events).completions[id] > 0
    ensures var c := Run(events);
            var t := Run(events + [Completed(id)]);
            var r := c.requests[id];
            var error := if r.intent.Some? then r.intent.value else r.error;
            var s := c.(completions := c.completions - multiset{id});
            if r.hasCandidate && error != Fine then
              t == s.(requests := c.requests[id := r.(error := error)],
                      rollbacks := c.rollbacks + multiset{id})
            else
              && (r.hasCandidate ==> r.session.Some? && r.session.value in c.sessions)
              && t == s.(requests := c.requests[id := r.(error := error, dones := r.dones + [error])],
                         acks := if r.detached then c.acks else c.acks + multiset{id},
                         sessions := if r.hasCandidate
                                     then c.sessions[r.session.value :=
                                            c.sessions[r.session.value].(pending := false)]
                                     else c.sessions)
  {
    var c := Run(events);
    RunNext(events, Completed(id));
    hide Run;
    Undelivered(c, id);
    DeliverStep(c, id);
    hide Consistent, Step;
    var r := c.requests[id];
    var error := if r.intent.Some? then r.intent.value else r.error;
    if r.hasCandidate && error != Fine {
      GoesBack(c, id, error);
    } else {
      IsCalled(c, id, error);
    }
    hide Deliver;
  }

  lemma Undelivered(c: Context, id: nat)
    requires Consistent(c) && id in c.requests && c.completions[id] > 0
    ensures var r := c.requests[id];
            && (r.hasCandidate || !r.detached ==> !c.shutdownPosted)
            && (r.hasCandidate ==>
                  r.kind == Acquire && r.session.Some? && r.session.value in c.sessions)
  {
    KnownGood(c, id);
  }

  lemma DeliverStep(c: Context, id: nat)
    requires Enabled(c, Completed(id))
    ensures Step(c, Completed(id)) == Deliver(c, id)
  {
    hide Deliver;
  }

  lemma GoesBack(c: Context, id: nat, error: Code)
    requires id in c.requests && c.requests[id].hasCandidate && c.requests[id].kind == Acquire
    requires !c.shutdownPosted && error != Fine
    requires error == if c.requests[id].intent.Some? then c.requests[id].intent.value
                      else c.requests[id].error
    ensures Deliver(c, id) == c.(completions := c.completions - multiset{id},
                                 requests := c.requests[id := c.requests[id].(error := error)],
                                 rollbacks := c.rollbacks + multiset{id})
  {
  }

  lemma IsCalled(c: Context, id: nat, error: Code)
    requires id in c.requests && (c.requests[id].hasCandidate ==> error == Fine)
    requires !c.requests[id].detached ==> !c.shutdownPosted
    requires error == if c.requests[id].intent.Some? then c.requests[id].intent.value
                      else c.requests[id].error
    requires c.requests[id].hasCandidate ==>
               c.requests[id].kind == Acquire && c.requests[id].session.Some?
               && c.requests[id].session.value in c.sessions
    ensures var r := c.requests[id];
            Deliver(c, id)
            == c.(completions := c.completions - multiset{id},
                  requests := c.requests[id := r.(error := error, dones := r.dones + [error])],
                  acks := if r.detached then c.acks else c.acks + multiset{id},
                  sessions := if r.hasCandidate
                              then c.sessions[r.session.value :=
                                     c.sessions[r.session.value].(pending := false)]
                              else c.sessions)
  {
    var r := c.requests[id];
    assert Overridden(r) == r.(error := error);
    assert Deliver(c, id) == CallDone(c, id, r.(error := error)) by { hide CallDone, Overridden; }
    hide Deliver, Overridden;
  }

  /** A grant that goes back leaves nothing in the session, and its completion goes out
      again; an acknowledged request leaves the list. */
  lemma RollbackAndAck(events: seq<Event>, id: nat)
    requires id in Run(events).requests
    ensures var c := Run(events);
            c.rollbacks[id] > 0 ==>
              var r := c.requests[id];
              && r.session.Some? && r.session.value in c.sessions
              && UpToStop(c.(rollbacks := c.rollbacks - multiset{id},
                             completions := c.completions + multiset{id},
                             requests := c.requests[id := r.(hasCandidate := false)],
                             sessions := c.sessions[r.session.value := c.sessions[r.session.value].(
                               pending := false, owner := None,
                               grant := Grant(false, None, 0, false, false, false, 0, 0, 0, false))]),
                          Run(events + [RollbackRun(id)]))
    ensures var c := Run(events);
            c.acks[id] > 0 ==>
              UpToStop(c.(acks := c.acks - multiset{id}, registered := c.registered - {id},
                          requests := c.requests[id := c.requests[id].(acked := true)]),
                       Run(events + [AckRun(id)]))
  {
    RunNext(events, RollbackRun(id));
    RunNext(events, AckRun(id));
    hide Run, Consistent;
    var c := Run(events);
    KnownGood(c, id);
    if c.rollbacks[id] > 0 {
      RollbackStep(c, id);
    }
    if c.acks[id] > 0 {
      AckStep(c, id);
    }
    hide Step, UpToStop;
  }

  lemma RollbackStep(c: Context, id: nat)
    requires Enabled(c, RollbackRun(id))
    ensures var r := c.requests[id];
            UpToStop(c.(rollbacks := c.rollbacks - multiset{id},
                        completions := c.completions + multiset{id},
                        requests := c.requests[id := r.(hasCandidate := false)],
                        sessions := c.sessions[r.session.value := c.sessions[r.session.value].(
                          pending := false, owner := None,
                          grant := Grant(false, None, 0, false, false, false, 0, 0, 0, false))]),
                     Step(c, RollbackRun(id)))
  {
    StopChecked(RunRollback(c.(rollbacks := c.rollbacks - multiset{id}), id));
    hide CheckShutdown;
  }

  lemma AckStep(c: Context, id: nat)
    requires Enabled(c, AckRun(id))
    ensures UpToStop(c.(acks := c.acks - multiset{id}, registered := c.registered - {id},
                        requests := c.requests[id := c.requests[id].(acked := true)]),
                     Step(c, AckRun(id)))
  {
    StopChecked(RunAck(c.(acks := c.acks - multiset{id}), id));
    hide CheckShutdown;
  }

  /** Cancelling marks the request at once, unless something marked it before, and posts
      the rest, which reaches a request that has not been answered yet. */
  lemma CancelReaches(events: seq<Event>, id: nat, code: Code)
    requires id in Run(events).requests
    ensures var c := Run(events);
            var r := c.requests[id];
            code != Fine ==>
              Run(events + [CancelRequested(id, code)])
              == if c.stopping then c
                 else c.(requests := c.requests[id := if r.intent.Some? then r
                                                      else r.(intent := Some(code))],
                         calls := c.calls + multiset{CancelCall(id, code)})
    ensures var c := Run(events);
            var r := c.requests[id];
            c.calls[CancelCall(id, code)] > 0 ==>
              UpToStop(c.(calls := c.calls - multiset{CancelCall(id, code)},
                          requests := c.requests[id :=
                            if r.answered then r
                            else r.(cancelled := true,
                                    cancelledCode := if r.cancelledCode == Fine then code
                                                     else r.cancelledCode)]),
                       Run(events + [CallRun(CancelCall(id, code))]))
  {
    var c := Run(events);
    RunNext(events, CancelRequested(id, code));
    RunNext(events, CallRun(CancelCall(id, code)));
    assert c.shutdownPosted ==> c.stopping by { hide Run; }
    hide Run, Consistent;
    if code != Fine {
      MarkStep(c, id, code);
    }
    if c.calls[CancelCall(id, code)] > 0 {
      CancelStep(c, id, code);
    }
    hide Step, UpToStop;
  }

  lemma MarkStep(c: Context, id: nat, code: Code)
    requires id in c.requests && code != Fine && (c.shutdownPosted ==> c.stopping)
    ensures var r := c.requests[id];
            Step(c, CancelRequested(id, code))
            == if c.stopping then c
               else c.(requests := c.requests[id := if r.intent.Some? then r
                                                    else r.(intent := Some(code))],
                       calls := c.calls + multiset{CancelCall(id, code)})
  {
  }

  lemma CancelStep(c: Context, id: nat, code: Code)
    requires Enabled(c, CallRun(CancelCall(id, code)))
    ensures var r := c.requests[id];
            UpToStop(c.(calls := c.calls - multiset{CancelCall(id, code)},
                        requests := c.requests[id :=
                          if r.answered then r
                          else r.(cancelled := true,
                                  cancelledCode := if r.cancelledCode == Fine then code
                                                   else r.cancelledCode)]),
                     Step(c, CallRun(CancelCall(id, code))))
  {
    StopChecked(RunCall(c, CancelCall(id, code)));
    hide CheckShutdown;
  }

  /** A request that is made gets a place of its own. A context that has stopped answers
      it at once, and nobody will acknowledge it. */
  lemma RequestMade(events: seq<Event>, kind: Kind, session: Option<nat>, generation: nat)
    requires kind == Acquire ==> session.Some?
    requires session.Some? ==> session.value in Run(events).sessions
    ensures var c := Run(events);
            var t := Run(events + [Scheduled(kind, session, generation)]);
            var r := Request(kind, session, generation, false, false, false, Fine, None, Fine, false,
                             false, []);
            && c.next !in c.requests
            && t == if c.shutdownPosted
                    then c.(next := c.next + 1, completions := c.completions + multiset{c.next},
                            requests := c.requests[c.next := r.(answered := true, detached := true,
                                                                error := BackendGone)])
                    else c.(next := c.next + 1, starts := c.starts + multiset{c.next},
                            requests := c.requests[c.next := r])
  {
    var c := Run(events);
    RunNext(events, Scheduled(kind, session, generation));
    hide Run;
    NewPlace(c);
    hide Consistent, OwnerGood;
    ScheduleStep(c, kind, session, generation);
    hide Step;
  }

  lemma ScheduleStep(c: Context, kind: Kind, session: Option<nat>, generation: nat)
    requires Enabled(c, Scheduled(kind, session, generation))
    requires forall sid :: sid in c.sessions ==> c.sessions[sid].acquiring != Some(c.next)
    ensures var r := Request(kind, session, generation, false, false, false, Fine, None, Fine, false,
                             false, []);
            Step(c, Scheduled(kind, session, generation))
            == if c.shutdownPosted
               then c.(next := c.next + 1, completions := c.completions + multiset{c.next},
                       requests := c.requests[c.next := r.(answered := true, detached := true,
                                                           error := BackendGone)])
               else c.(next := c.next + 1, starts := c.starts + multiset{c.next},
                       requests := c.requests[c.next := r])
  {
    assert Step(c, Scheduled(kind, session, generation)) == Schedule(c, kind, session, generation) by {
      hide Schedule;
    }
    hide Step;
    NothingSettled(c.sessions, session, c.next);
    hide SettledIn;
  }

  lemma NothingSettled(sessions: map<nat, Session>, session: Option<nat>, id: nat)
    requires forall sid :: sid in sessions ==> sessions[sid].acquiring != Some(id)
    ensures SettledIn(sessions, session, id) == sessions
  {
  }

  /** What is asked of the coordinator is posted, a close only while the session is open
      and a shutdown only once. A session is made unless it is known already, the context
      is stopping or the owner has changed. */
  lemma RequestsPosted(events: seq<Event>, sid: nat, generation: nat)
    ensures var c := Run(events);
            Run(events + [GenerationSet(generation)])
            == if c.shutdownPosted then c
               else c.(calls := c.calls + multiset{GenerationCall(generation)})
    ensures var c := Run(events);
            sid in c.sessions ==>
              Run(events + [CloseAsked(sid)])
              == if c.shutdownPosted || c.sessions[sid].closed then c
                 else c.(calls := c.calls + multiset{SessionCall(sid)})
    ensures var c := Run(events);
            Run(events + [ShutdownAsked])
            == if c.shutdownStarted then c
               else c.(shutdownStarted := true, calls := c.calls + multiset{ShutdownStart})
    ensures var c := Run(events);
            Run(events + [SessionMade(sid, generation)])
            == if c.stopping || sid in c.sessions || generation != c.generation then c
               else c.(listed := c.listed + [sid],
                       sessions := c.sessions[sid :=
                         Session(generation, false, false, false, false,
                                 Grant(false, None, 0, false, false, false, 0, 0, 0, false),
                                 None, None)])
  {
    var c := Run(events);
    RunNext(events, GenerationSet(generation));
    RunNext(events, CloseAsked(sid));
    RunNext(events, ShutdownAsked);
    RunNext(events, SessionMade(sid, generation));
    assert c.shutdownPosted ==> c.stopping && c.shutdownStarted by { hide Run; }
    hide Run, Consistent;
    PostSteps(c, sid, generation);
    hide Step;
  }

  lemma PostSteps(c: Context, sid: nat, generation: nat)
    requires c.shutdownPosted ==> c.stopping && c.shutdownStarted
    ensures Step(c, GenerationSet(generation))
            == if c.shutdownPosted then c
               else c.(calls := c.calls + multiset{GenerationCall(generation)})
    ensures sid in c.sessions ==>
              Step(c, CloseAsked(sid))
              == if c.shutdownPosted || c.sessions[sid].closed then c
                 else c.(calls := c.calls + multiset{SessionCall(sid)})
    ensures Step(c, ShutdownAsked)
            == if c.shutdownStarted then c
               else c.(shutdownStarted := true, calls := c.calls + multiset{ShutdownStart})
    ensures Step(c, SessionMade(sid, generation))
            == if c.stopping || sid in c.sessions || generation != c.generation then c
               else c.(listed := c.listed + [sid],
                       sessions := c.sessions[sid :=
                         Session(generation, false, false, false, false,
                                 Grant(false, None, 0, false, false, false, 0, 0, 0, false),
                                 None, None)])
  {
  }

  /** What blocks the end of a shutdown is counted one by one: what the interface holds,
      devices to release, the watch. */
  lemma HeldCounted(events: seq<Event>)
    ensures var c := Run(events);
            !c.shutdownPosted ==> Run(events + [UiHeld]) == c.(busy := c.busy + 1)
    ensures var c := Run(events);
            c.busy > 0 ==>
              && Run(events + [UiLetGo]) == c.(busy := c.busy - 1)
              && Run(events + [LoginThrownAway]) == c.(releases := c.releases + 1)
    ensures var c := Run(events);
            c.releases > 0 ==> Run(events + [Released]) == c.(releases := c.releases - 1)
    ensures var c := Run(events);
            c.stops > 0 ==>
              Run(events + [StopDelivered])
              == c.(stops := c.stops - 1, stopsDelivered := c.stopsDelivered + 1)
    ensures var c := Run(events);
            if c.stopping && !c.watchStopped
            then UpToStop(c.(watchStopped := true), Run(events + [WatchStopped]))
            else Run(events + [WatchStopped]) == c
  {
    RunNext(events, UiHeld);
    RunNext(events, UiLetGo);
    RunNext(events, LoginThrownAway);
    RunNext(events, Released);
    RunNext(events, StopDelivered);
    RunNext(events, WatchStopped);
    hide Run, Consistent;
    var c := Run(events);
    BusyCounted(c);
    ReleasesCounted(c);
    EndCounted(c);
    hide Step, UpToStop;
  }

  /** A use of an open session's device opens it. */
  lemma DeviceOpens(events: seq<Event>, sid: nat)
    requires var c := Run(events);
             sid in c.sessions && !c.sessions[sid].closed && !c.shutdownPosted
    ensures var c := Run(events);
            Run(events + [DeviceUsed(sid)])
            == c.(sessions := c.sessions[sid := c.sessions[sid].(device := true)])
  {
    RunNext(events, DeviceUsed(sid));
    hide Run, Consistent;
    DeviceCounted(Run(events), sid);
    hide Step;
  }

  lemma BusyCounted(c: Context)
    ensures !c.shutdownPosted ==> Step(c, UiHeld) == c.(busy := c.busy + 1)
    ensures c.busy > 0 ==> Step(c, UiLetGo) == c.(busy := c.busy - 1)
  {
  }

  lemma ReleasesCounted(c: Context)
    ensures c.busy > 0 ==> Step(c, LoginThrownAway) == c.(releases := c.releases + 1)
    ensures c.releases > 0 ==> Step(c, Released) == c.(releases := c.releases - 1)
  {
  }

  lemma EndCounted(c: Context)
    ensures c.stops > 0 ==>
              Step(c, StopDelivered) == c.(stops := c.stops - 1, stopsDelivered := c.stopsDelivered + 1)
    ensures if c.stopping && !c.watchStopped
            then UpToStop(c.(watchStopped := true), Step(c, WatchStopped))
            else Step(c, WatchStopped) == c
  {
    StopChecked(c.(watchStopped := true));
    hide CheckShutdown;
  }

  lemma DeviceCounted(c: Context, sid: nat)
    requires sid in c.sessions && !c.sessions[sid].closed && !c.shutdownPosted
    ensures Step(c, DeviceUsed(sid))
            == c.(sessions := c.sessions[sid := c.sessions[sid].(device := true)])
  {
  }
}
