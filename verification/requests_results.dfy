/** What callers, sessions and the context's owner can rely on, in every interleaving
    of the coordinator and the desktop thread. */
module RequestResults {
  import opened Optional
  import opened RequestContext
  import opened RequestInvariant

  /** The events that carry an unfinished request forward. */
  predicate Moves(c: Context, id: nat, e: Event) {
    && Enabled(c, e)
    && match e
       case StartRun(x, _) => x == id
       case Answered(x, _) => x == id
       case Completed(x) => x == id
       case RollbackRun(x) => x == id
       case _ => false
  }

  /** Of every request exactly one thing is still to come or has happened: its start
      runs, its work goes on, its completion or its rollback is on the way, or its
      caller has been called, once. Until then something can always carry it on. */
  lemma DoneOnce(events: seq<Event>, id: nat)
    requires id in Run(events).requests
    ensures var c := Run(events);
            var r := c.requests[id];
            && c.starts[id] + One(Live(c, id)) + c.completions[id] + c.rollbacks[id] + |r.dones| == 1
            && (r.dones == [] <==> exists e :: Moves(c, id, e))
  {
    RunConsistent(events);
    var c := Run(events);
    var r := c.requests[id];
    hide Run;
    KnownGood(c, id);
    if c.starts[id] > 0 {
      assert Moves(c, id, StartRun(id, Fine));
    } else if Live(c, id) {
      assert Moves(c, id, Answered(id, Cancelled));
    } else if c.completions[id] > 0 {
      assert Moves(c, id, Completed(id));
    } else if c.rollbacks[id] > 0 {
      assert Moves(c, id, RollbackRun(id));
    }
  }

  /** An acquisition delivers success exactly if its grant stays: then the session
      holds it and may be used; otherwise nothing of the grant is left by the time
      the caller is called. A rollback only ever finds its own provisional grant. */
  lemma GrantTransactional(events: seq<Event>, id: nat)
    requires id in Run(events).requests && Run(events).requests[id].kind == Acquire
    ensures var c := Run(events);
            var r := c.requests[id];
            && r.session.Some? && r.session.value in c.sessions
            && var s := c.sessions[r.session.value];
            && (r.dones == [Fine] <==> r.dones != [] && s.owner == Some(id))
            && (r.dones == [Fine] ==> s.grant.granted && !s.pending)
            && (s.owner.None? ==> s.grant == UNGRANTED && !s.pending)
            && (c.rollbacks[id] > 0 ==> s.pending && s.owner == Some(id))
  {
    RunConsistent(events);
    var c := Run(events);
    hide Run;
    KnownGood(c, id);
    var s := c.sessions[c.requests[id].session.value];
    assert ReqAt(c, id) && SessAt(c, c.requests[id].session.value);
    hide Consistent;
  }

  /** A grant is provisional exactly until its acquisition's caller has been called, and
      an operation may start on an open session exactly from then on. */
  lemma NothingOnProvisionalGrant(events: seq<Event>, sid: nat)
    requires sid in Run(events).sessions
    ensures var c := Run(events);
            var s := c.sessions[sid];
            && (s.owner.Some? ==>
                  s.owner.value in c.requests
                  && c.requests[s.owner.value].session == Some(sid)
                  && c.requests[s.owner.value].dones == (if s.pending then [] else [Fine]))
            && (s.grant.granted <==> s.owner.Some?)
            && (MayOperate(s) <==> s.owner.Some? && !s.closed
                                   && s.owner.value in c.requests
                                   && c.requests[s.owner.value].dones == [Fine])
  {
    RunConsistent(events);
    var c := Run(events);
    hide Run;
    assert SessAt(c, sid);
    if c.sessions[sid].owner.Some? {
      KnownGood(c, c.sessions[sid].owner.value);
    }
    hide Consistent;
  }

  /** A session is never acquired twice at once, nor while it holds a grant. */
  lemma OneAcquisition(events: seq<Event>, a: nat, b: nat, sid: nat)
    requires Live(Run(events), a) && LiveAcquire(Run(events).requests[a], sid)
    ensures var c := Run(events);
            && sid in c.sessions && !c.sessions[sid].grant.granted
            && (Live(c, b) && LiveAcquire(c.requests[b], sid) ==> a == b)
  {
    RunConsistent(events);
    var c := Run(events);
    hide Run;
    KnownGood(c, a);
    if Live(c, b) {
      KnownGood(c, b);
    }
    hide Consistent;
  }

  /** The context reports that it has stopped at most once, and only when every
      request it accepted has been called back and acknowledged, nothing is posted,
      the interface holds nothing and no device release is outstanding. */
  lemma StopsDrained(events: seq<Event>)
    ensures var c := Run(events);
            && c.stopsDelivered <= 1
            && (c.stopsDelivered == 1 || c.stops > 0 ==>
                  && NothingPosted(c) && c.registered == {} && c.busy == 0 && c.releases == 0
                  && (forall id :: id in c.requests && !c.requests[id].detached ==>
                        |c.requests[id].dones| == 1 && c.requests[id].acked))
  {
    RunConsistent(events);
    var c := Run(events);
    hide Run;
    forall id | id in c.requests && !c.requests[id].detached && c.shutdownPosted
      ensures |c.requests[id].dones| == 1 && c.requests[id].acked
    {
      KnownGood(c, id);
    }
  }

  // ----- Cancellation against delivery -----

  /** What may happen to a request in one step: a mark stays, callbacks are added at
      the end, and a marked request is not called back with success. */
  predicate Later(r: Request, r': Request) {
    && (r.intent.Some? ==> r'.intent.Some?)
    && r.dones <= r'.dones
    && (r.intent.Some? && r'.dones != r.dones ==> |r'.dones| == |r.dones| + 1
                                                  && r'.dones[|r.dones|] != Fine)
  }

  ghost predicate AllLater(c: Context, c': Context) {
    forall id :: id in c.requests ==> id in c'.requests && Later(c.requests[id], c'.requests[id])
  }

  lemma AnswersLater(r: Request, code: Code)
    ensures Later(r, r) && Later(r, Answer(r, code)) && Later(r, Answer(Accepted(r), code))
    ensures Later(r, Undone(r)) && Later(r, r.(acked := true))
  {
  }

  lemma MarksAreLater(r: Request, code: Code)
    ensures Later(r, CancelledBy(r, code))
    ensures Later(r, r.(intent := if r.intent.None? then Some(code) else r.intent))
  {
  }

  lemma DeliveriesLater(r: Request)
    requires r.intent.Some? ==> r.intent.value != Fine
    ensures Later(r, Overridden(r)) && Later(r, Delivered(Overridden(r)))
  {
  }

  lemma OneLater(c: Context, c': Context, id: nat)
    requires forall x :: x in c.requests && x != id ==> x in c'.requests && c'.requests[x] == c.requests[x]
    requires id in c.requests ==> id in c'.requests && Later(c.requests[id], c'.requests[id])
    ensures AllLater(c, c')
  {
    forall x | x in c.requests ensures Later(c.requests[x], c'.requests[x]) {
      AnswersLater(c.requests[x], Fine);
    }
  }

  /** Cancelling in bulk marks requests and calls nobody. */
  ghost predicate Marks(c: Context, c': Context) {
    forall id :: id in c.requests ==>
      id in c'.requests && c'.requests[id].dones == c.requests[id].dones
      && (c.requests[id].intent.Some? ==> c'.requests[id].intent.Some?)
  }

  lemma MarksLater(c: Context, c': Context)
    requires Marks(c, c')
    ensures AllLater(c, c')
  {
  }

  lemma StruckMarks(r: Request, code: Code, force: bool, stops: bool)
    ensures Struck(r, code, force, stops).dones == r.dones
    ensures r.intent.Some? ==> Struck(r, code, force, stops).intent.Some?
  {
  }

  lemma StrikeSessionMarks(c: Context, sid: nat, code: Code, stops: bool)
    ensures Marks(c, StrikeSession(c, sid, code, stops))
  {
    hide Struck;
    forall id | id in c.requests
      ensures Struck(c.requests[id], code, false, stops).dones == c.requests[id].dones
      ensures c.requests[id].intent.Some? ==> Struck(c.requests[id], code, false, stops).intent.Some?
    {
      StruckMarks(c.requests[id], code, false, stops);
    }
  }

  lemma StrikeAllMarks(c: Context, code: Code, all: bool)
    ensures Marks(c, StrikeAll(c, code, all))
  {
    hide Struck, Foreign;
    forall id | id in c.requests
      ensures Struck(c.requests[id], code, true, true).dones == c.requests[id].dones
      ensures c.requests[id].intent.Some? ==> Struck(c.requests[id], code, true, true).intent.Some?
    {
      StruckMarks(c.requests[id], code, true, true);
    }
  }

  lemma CloseMarks(c: Context, sid: nat)
    requires sid in c.sessions
    ensures Marks(c, CloseSession(c, sid))
  {
    StrikeSessionMarks(c, sid, NoSuchSession, true);
    hide Struck, ClosedSession, Without;
  }

  lemma InvalidateMarks(c: Context, sid: nat, code: Code)
    requires sid in c.sessions
    ensures Marks(c, Invalidate(c, sid, code))
  {
    var c1 := PutSession(c, sid, Invalidating(c.sessions[sid]));
    StrikeSessionMarks(c1, sid, code, false);
    CloseMarks(StrikeSession(c1, sid, code, false), sid);
    hide Struck, CloseSession, Invalidating;
  }

  lemma {:induction false} CloseEachMarks(c: Context, sids: seq<nat>)
    ensures Marks(c, CloseEach(c, sids))
    decreases |sids|
  {
    hide CloseSession;
    if sids != [] {
      var closes := sids[0] in c.sessions && c.sessions[sids[0]].generation != c.generation;
      if closes {
        CloseMarks(c, sids[0]);
      }
      CloseEachMarks(if closes then CloseSession(c, sids[0]) else c, sids[1..]);
    }
  }

  lemma {:induction false} InvalidateEachMarks(c: Context, sids: seq<nat>, code: Code)
    ensures Marks(c, InvalidateEach(c, sids, code))
    decreases |sids|
  {
    hide Invalidate;
    if sids != [] {
      if sids[0] in c.sessions {
        InvalidateMarks(c, sids[0], code);
      }
      InvalidateEachMarks(if sids[0] in c.sessions then Invalidate(c, sids[0], code) else c,
                          sids[1..], code);
    }
  }

  lemma CallLater(c: Context, call: Call)
    requires Enabled(c, CallRun(call))
    ensures AllLater(c, RunCall(c, call))
  {
    var c1 := c.(calls := c.calls - multiset{call});
    match call
    case CancelCall(id, code) =>
      MarksAreLater(c.requests[id], code);
      hide CancelledBy, Later;
      OneLater(c, RunCall(c, call), id);
    case GenerationCall(generation) =>
      hide CloseEach, Struck, Foreign;
      var c2 := StrikeAll(c1.(generation := generation), OwnerGone, false);
      StrikeAllMarks(c1.(generation := generation), OwnerGone, false);
      CloseEachMarks(c2, c2.listed);
      hide StrikeAll, Later;
      MarksLater(c, RunCall(c, call));
    case SessionCall(sid) =>
      hide CloseSession, Later;
      CloseMarks(c1, sid);
      MarksLater(c, RunCall(c, call));
    case ShutdownStart =>
      hide InvalidateEach, Struck;
      var c2 := StrikeAll(c1.(stopping := true), BackendGone, true);
      StrikeAllMarks(c1.(stopping := true), BackendGone, true);
      InvalidateEachMarks(c2, c2.listed, BackendGone);
      hide StrikeAll, Later;
      MarksLater(c, RunCall(c, call));
  }

  lemma AnswerLater(c: Context, c1: Context, id: nat, code: Code)
    requires id in c.requests && c1.requests == c.requests
    ensures AllLater(c, Complete(c1, id, code))
  {
    AnswersLater(c.requests[id], code);
    hide Answer, Later, Settled;
    OneLater(c, Complete(c1, id, code), id);
  }

  lemma StartLater(c: Context, id: nat, verdict: Code)
    requires id in c.requests
    ensures AllLater(c, RunStart(c.(starts := c.starts - multiset{id}), id, verdict))
  {
    var c0 := c.(starts := c.starts - multiset{id});
    var c1 := c0.(registered := c0.registered + {id});
    var code := Validate(c1, c.requests[id], verdict);
    assert Validate(c0, c.requests[id], verdict) == code;
    AnswerLater(c, c1, id, code);
    AnswerLater(c, c1, id, InvalidRequest);
    RequestsSame(c, RunStart(c0, id, verdict));
    hide Complete, Validate, Acquiring, Later, Rival, AllLater;
  }

  lemma RequestsSame(c: Context, c': Context)
    ensures c'.requests == c.requests ==> AllLater(c, c')
  {
  }

  lemma ChosenLater(c: Context, id: nat, serial: bool, grant: Grant)
    requires Enabled(c, Chosen(id, serial, grant))
    ensures AllLater(c, FinishAcquire(c, id, serial, grant))
  {
    AnswerLater(c, c, id, Cancelled);
    AnswerLater(c, c, id, NoSuchSession);
    AnswerLater(c, c, id, DeviceError);
    AnswersLater(c.requests[id], Fine);
    assert Accepted(c.requests[id]).answered == c.requests[id].answered;
    var c' := Complete(MakeGrant(c, id, c.requests[id].session.value, grant), id, Fine);
    assert c'.requests == c.requests[id := Answer(Accepted(c.requests[id]), Fine)];
    hide Complete, MakeGrant, Later, Answer, Accepted;
    OneLater(c, c', id);
  }

  lemma DeliverLater(c: Context, id: nat)
    requires Consistent(c) && id in c.requests
    ensures AllLater(c, Deliver(c, id))
  {
    KnownGood(c, id);
    assert c.requests[id].intent.Some? ==> c.requests[id].intent.value != Fine;
    hide Consistent, ReqGood, Overridden, Delivered, Later, UsableIn, OwnerGood, NamedBy, FlagsGood;
    DeliveriesLater(c.requests[id]);
    OneLater(c, Deliver(c, id), id);
  }

  lemma ScheduleLater(c: Context, kind: Kind, session: Option<nat>, generation: nat)
    requires Consistent(c)
    ensures AllLater(c, Schedule(c, kind, session, generation))
  {
    NewPlace(c);
    hide Consistent, Answer, NewRequest, Later, Settled, OwnerGood;
    OneLater(c, Schedule(c, kind, session, generation), c.next);
  }

  lemma ChecksLater(c: Context, c': Context)
    requires AllLater(c, c')
    ensures AllLater(c, CheckShutdown(c'))
  {
    hide Later;
  }

  lemma RollbackLater(c: Context, c1: Context, id: nat)
    requires OfSession(c, id) && c1.requests == c.requests && c1.sessions == c.sessions
    ensures AllLater(c, RunRollback(c1, id)) && AllLater(c, RunAck(c1, id))
  {
    AnswersLater(c.requests[id], Fine);
    hide Later, Undone, RolledBack;
    OneLater(c, RunRollback(c1, id), id);
    OneLater(c, RunAck(c1, id), id);
  }

  lemma AckLater(c: Context, c1: Context, id: nat)
    requires id in c.requests && c1.requests == c.requests
    ensures AllLater(c, RunAck(c1, id))
  {
    AnswersLater(c.requests[id], Fine);
    hide Later;
    OneLater(c, RunAck(c1, id), id);
  }

  lemma CancelLater(c: Context, id: nat, code: Code)
    requires id in c.requests
    ensures AllLater(c, RequestCancel(c, id, code))
  {
    MarksAreLater(c.requests[id], code);
    AnswersLater(c.requests[id], code);
    hide Later;
    OneLater(c, RequestCancel(c, id, code), id);
  }

  lemma ExpiredLater(c: Context, sid: nat)
    requires sid in c.sessions
    ensures AllLater(c, Invalidate(PutSession(c, sid, ExpiredTimer(c.sessions[sid])), sid, DeviceError))
    ensures AllLater(c, Invalidate(c, sid, TokenRemoved))
  {
    InvalidateMarks(c, sid, TokenRemoved);
    var c1 := PutSession(c, sid, ExpiredTimer(c.sessions[sid]));
    InvalidateMarks(c1, sid, DeviceError);
    hide Invalidate, Later, ExpiredTimer;
    MarksLater(c, Invalidate(c, sid, TokenRemoved));
    MarksLater(c, Invalidate(c1, sid, DeviceError));
  }

  lemma PostedLater(c: Context, e: Event)
    requires Consistent(c) && Enabled(c, e)
    requires e.StartRun? || e.AckRun? || e.RollbackRun? || e.CallRun?
    ensures AllLater(c, Step(c, e))
  {
    hide Consistent, RunStart, RunCall, RunAck, RunRollback, AllLater, CheckShutdown;
    match e
    case StartRun(id, verdict) =>
      StartLater(c, id, verdict);
      ChecksLater(c, RunStart(c.(starts := c.starts - multiset{id}), id, verdict));
    case AckRun(id) =>
      AckLater(c, c.(acks := c.acks - multiset{id}), id);
      ChecksLater(c, RunAck(c.(acks := c.acks - multiset{id}), id));
    case RollbackRun(id) =>
      RollbackLater(c, c.(rollbacks := c.rollbacks - multiset{id}), id);
      ChecksLater(c, RunRollback(c.(rollbacks := c.rollbacks - multiset{id}), id));
    case CallRun(call) =>
      CallLater(c, call);
      ChecksLater(c, RunCall(c, call));
  }

  lemma StepLater(c: Context, e: Event)
    requires Consistent(c)
    ensures AllLater(c, Step(c, e))
  {
    hide Consistent, RunStart, RunCall, RunAck, RunRollback, Complete, FinishAcquire, Deliver,
         Invalidate, Schedule, RequestCancel, AllLater, CheckShutdown, ExpiredTimer, Used;
    RequestsSame(c, Step(c, e));
    if Enabled(c, e) {
      match e
      case Scheduled(kind, session, generation) => ScheduleLater(c, kind, session, generation);
      case CancelRequested(id, code) => CancelLater(c, id, code);
      case StartRun(_, _) => PostedLater(c, e);
      case AckRun(_) => PostedLater(c, e);
      case RollbackRun(_) => PostedLater(c, e);
      case CallRun(_) => PostedLater(c, e);
      case Answered(id, code) => AnswerLater(c, c, id, code);
      case Chosen(id, serial, grant) => ChosenLater(c, id, serial, grant);
      case Completed(id) => DeliverLater(c, id);
      case TokenGone(sid) => ExpiredLater(c, sid);
      case Expired(sid) => ExpiredLater(c, sid);
      case WatchStopped =>
        RequestsSame(c, c.(watchStopped := true));
        ChecksLater(c, c.(watchStopped := true));
      case Polled =>
        RequestsSame(c, c);
        ChecksLater(c, c);
      case _ =>
    }
  }

  /** A request that is marked cancelled before its caller has been called is never
      answered with success, whatever happens after. */
  lemma {:induction false} MarkWins(before: seq<Event>, after: seq<Event>, id: nat)
    requires id in Run(before).requests && Run(before).requests[id].dones == []
    requires Run(before).requests[id].intent.Some?
    ensures var c := RunFrom(Run(before), after);
            && id in c.requests && c.requests[id].intent.Some?
            && (c.requests[id].dones != [] ==> c.requests[id].dones[0] != Fine)
    decreases |after|
  {
    if after != [] {
      var prefix := after[..|after| - 1];
      MarkWins(before, prefix, id);
      RunConsistent(before);
      hide Consistent, Step, Run;
      RunFromConsistent(Run(before), prefix);
      StepLater(RunFrom(Run(before), prefix), after[|after| - 1]);
    }
  }
}
