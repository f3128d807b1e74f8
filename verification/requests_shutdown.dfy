/** A context that has been asked to stop can always stop: from every reachable state,
    whatever is posted, running or held, what is already under way leads to the end. */
module RequestShutdown {
  import opened RequestContext
  import opened RequestInvariant

  /** Nothing new is asked for: the threads run what they have been given, workers and
      prompts report, the interface and the devices let go. */
  predicate Settles(e: Event) {
    match e
    case StartRun(_, _) => true
    case CallRun(_) => true
    case Answered(_, _) => true
    case Completed(_) => true
    case RollbackRun(_) => true
    case AckRun(_) => true
    case UiLetGo => true
    case Released => true
    case WatchStopped => true
    case Polled => true
    case StopDelivered => true
    case _ => false
  }

  predicate AllSettle(events: seq<Event>) { forall e :: e in events ==> Settles(e) }

  lemma {:induction false} RunFromAppend(c: Context, before: seq<Event>, after: seq<Event>)
    ensures RunFrom(c, before + after) == RunFrom(RunFrom(c, before), after)
    decreases |after|
  {
    hide Step;
    if after == [] {
      assert before + after == before;
    } else {
      var shorter := after[..|after| - 1];
      assert (before + after)[..|before + after| - 1] == before + shorter;
      RunFromAppend(c, before, shorter);
    }
  }

  lemma RunFromOne(c: Context, e: Event)
    ensures RunFrom(c, [e]) == Step(c, e)
  {
    hide Step;
    assert [e][..0] == [];
  }

  // ----- How far the context has come -----

  ghost predicate Ending(c: Context) { Consistent(c) && c.shutdownStarted }

  /** The requests somebody still works for, and those whose caller is still to hear. */
  function Working(c: Context): set<nat> { set id | id in c.registered && Live(c, id) }

  function Uncalled(c: Context): set<nat> {
    set id | id in c.requests && c.requests[id].dones == []
  }

  /** One thing after the other comes to an end and none of them comes back. */
  datatype Stage = Start | Calls | Workers | Callbacks | Acks | Counters

  ghost predicate Past(c: Context, stage: Stage) {
    && Ending(c)
    && (stage != Start ==> c.starts == multiset{})
    && (stage != Start && stage != Calls ==> c.calls == multiset{})
    && (stage.Callbacks? || stage.Acks? || stage.Counters? ==> Working(c) == {})
    && (stage.Acks? || stage.Counters? ==> Uncalled(c) == {})
    && (stage.Counters? ==> c.acks == multiset{})
  }

  /** A tail of settling events leads from `c` past the stage. */
  ghost predicate Leads(c: Context, tail: seq<Event>, stage: Stage) {
    AllSettle(tail) && Past(RunFrom(c, tail), stage)
  }

  lemma LeadsOn(c: Context, e: Event, rest: seq<Event>, stage: Stage)
    requires Settles(e) && Leads(Step(c, e), rest, stage)
    ensures Leads(c, [e] + rest, stage)
  {
    hide Step, Past;
    RunFromOne(c, e);
    RunFromAppend(c, [e], rest);
  }

  lemma LeadsNowhere(c: Context, stage: Stage)
    requires Past(c, stage)
    ensures Leads(c, [], stage)
  {
    hide Past;
  }

  lemma LeadsThrough(c: Context, first: seq<Event>, stage: Stage, next: seq<Event>, later: Stage)
    requires Leads(c, first, stage) && Leads(RunFrom(c, first), next, later)
    ensures Leads(c, first + next, later)
  {
    hide Step, Past;
    RunFromAppend(c, first, next);
  }

  // ----- What is posted -----

  /** The queues and the list of requests, which bulk cancellation leaves alone. */
  predicate SameQueues(c: Context, d: Context) {
    && d.starts == c.starts && d.calls == c.calls && d.acks == c.acks
    && d.shutdownStarted == c.shutdownStarted
  }

  lemma CloseQueues(c: Context, sid: nat)
    requires sid in c.sessions
    ensures SameQueues(c, CloseSession(c, sid))
  {
    hide StruckOf, ClosedSession, Without;
  }

  lemma InvalidateQueues(c: Context, sid: nat, code: Code)
    requires sid in c.sessions
    ensures SameQueues(c, Invalidate(c, sid, code))
  {
    var c1 := StrikeSession(PutSession(c, sid, Invalidating(c.sessions[sid])), sid, code, false);
    CloseQueues(c1, sid);
    hide StruckOf, CloseSession, Invalidating;
  }

  lemma {:induction false} CloseEachQueues(c: Context, sids: seq<nat>)
    ensures SameQueues(c, CloseEach(c, sids))
    decreases |sids|
  {
    hide CloseSession, Invalidate;
    if sids != [] {
      var closes := sids[0] in c.sessions && c.sessions[sids[0]].generation != c.generation;
      if closes {
        CloseQueues(c, sids[0]);
      }
      CloseEachQueues(if closes then CloseSession(c, sids[0]) else c, sids[1..]);
    }
  }

  lemma {:induction false} InvalidateEachQueues(c: Context, sids: seq<nat>, code: Code)
    ensures SameQueues(c, InvalidateEach(c, sids, code))
    decreases |sids|
  {
    hide CloseSession, Invalidate;
    if sids != [] {
      var ends := sids[0] in c.sessions;
      if ends {
        InvalidateQueues(c, sids[0], code);
      }
      InvalidateEachQueues(if ends then Invalidate(c, sids[0], code) else c, sids[1..], code);
    }
  }

  lemma CheckQueues(c: Context)
    ensures SameQueues(c, CheckShutdown(c))
  {
    hide Drained;
  }

  lemma CallQueues(c: Context, call: Call)
    requires Enabled(c, CallRun(call))
    ensures SameQueues(c.(calls := c.calls - multiset{call}), RunCall(c, call))
  {
    hide CloseEach, InvalidateEach, CloseSession, StruckAll, CancelledBy;
    var c1 := c.(calls := c.calls - multiset{call});
    match call
    case CancelCall(id, code) =>
    case GenerationCall(generation) =>
      var c2 := StrikeAll(c1.(generation := generation), OwnerGone, false);
      CloseEachQueues(c2, c2.listed);
    case SessionCall(sid) => CloseQueues(c1, sid);
    case ShutdownStart =>
      var c2 := StrikeAll(c1.(stopping := true), BackendGone, true);
      InvalidateEachQueues(c2, c2.listed, BackendGone);
  }

  lemma CallTakes(c: Context, call: Call)
    requires Enabled(c, CallRun(call))
    ensures SameQueues(c.(calls := c.calls - multiset{call}), Step(c, CallRun(call)))
  {
    CallQueues(c, call);
    CheckQueues(RunCall(c, call));
    hide RunCall, CheckShutdown, Enabled;
  }

  lemma CompleteQueues(c: Context, id: nat, code: Code)
    requires id in c.requests
    ensures SameQueues(c, Complete(c, id, code))
  {
    hide Answer, SettledIn;
  }

  lemma BegunQueues(c: Context, id: nat, code: Code)
    requires id in c.requests
    ensures SameQueues(c, Begun(c, id, code))
  {
    CompleteQueues(c, id, code);
    CompleteQueues(c, id, InvalidRequest);
    hide Complete, Rival, Acquiring;
  }

  lemma StartTakes(c: Context, id: nat)
    requires Enabled(c, StartRun(id, Fine))
    ensures SameQueues(c.(starts := c.starts - multiset{id}), Step(c, StartRun(id, Fine)))
  {
    var c1 := c.(starts := c.starts - multiset{id});
    var c2 := c1.(registered := c.registered + {id});
    var code := Validate(c2, c.requests[id], Fine);
    BegunQueues(c2, id, code);
    assert RunStart(c1, id, Fine) == Begun(c2, id, code) by { hide Begun, Validate; }
    CheckQueues(RunStart(c1, id, Fine));
    assert Step(c, StartRun(id, Fine)) == CheckShutdown(RunStart(c1, id, Fine)) by {
      hide RunStart, CheckShutdown;
    }
    hide Begun, RunStart, CheckShutdown, Validate, Step;
  }

  lemma StartsRun(c: Context) returns (tail: seq<Event>)
    requires Past(c, Start)
    ensures Leads(c, tail, Calls)
    decreases |c.starts|
  {
    hide Consistent, Step, Leads;
    if c.starts == multiset{} {
      tail := [];
      LeadsNowhere(c, Calls);
    } else {
      var id :| id in c.starts;
      assert id in c.requests by { StartKnown(c, id); }
      var e := StartRun(id, Fine);
      StepConsistent(c, e);
      StartTakes(c, id);
      var rest := StartsRun(Step(c, e));
      tail := [e] + rest;
      LeadsOn(c, e, rest, Calls);
    }
  }

  lemma StartKnown(c: Context, id: nat)
    requires Consistent(c) && (id in c.starts || id in c.acks)
    ensures id in c.requests
  {
    assert ReqAt(c, id);
  }

  lemma CallKnown(c: Context, call: Call)
    requires Consistent(c) && call in c.calls
    ensures Enabled(c, CallRun(call))
  {
    assert CallAt(c, call);
  }

  lemma CallsRun(c: Context) returns (tail: seq<Event>)
    requires Past(c, Calls)
    ensures Leads(c, tail, Workers)
    decreases |c.calls|
  {
    hide Consistent, Step, Leads, Enabled;
    if c.calls == multiset{} {
      tail := [];
      LeadsNowhere(c, Workers);
    } else {
      var call :| call in c.calls;
      CallKnown(c, call);
      StepConsistent(c, CallRun(call));
      CallTakes(c, call);
      var rest := CallsRun(Step(c, CallRun(call)));
      tail := [CallRun(call)] + rest;
      LeadsOn(c, CallRun(call), rest, Workers);
    }
  }

  // ----- Answers, callbacks and acknowledgements -----

  /** Only the request `id` and the session it belongs to have changed. */
  predicate OnlyOne(c: Context, d: Context, id: nat) {
    && id in c.requests && id in d.requests && d.requests == c.requests[id := d.requests[id]]
    && d.starts == c.starts && d.calls == c.calls && d.registered == c.registered
    && d.shutdownStarted == c.shutdownStarted
  }

  lemma WorkerReports(c: Context, id: nat)
    requires Past(c, Workers) && id in Working(c)
    ensures var d := Step(c, Answered(id, Cancelled));
            OnlyOne(c, d, id) && Past(d, Workers) && Working(d) == Working(c) - {id}
  {
    var d := Step(c, Answered(id, Cancelled));
    StepConsistent(c, Answered(id, Cancelled));
    hide Consistent, Settled;
    assert OnlyOne(c, d, id) && d.requests[id].answered;
  }

  lemma WorkersReport(c: Context) returns (tail: seq<Event>)
    requires Past(c, Workers)
    ensures Leads(c, tail, Callbacks)
    decreases |Working(c)|
  {
    hide Consistent, Step, Leads;
    if Working(c) == {} {
      tail := [];
      LeadsNowhere(c, Callbacks);
    } else {
      var id :| id in Working(c);
      WorkerReports(c, id);
      var rest := WorkersReport(Step(c, Answered(id, Cancelled)));
      tail := [Answered(id, Cancelled)] + rest;
      LeadsOn(c, Answered(id, Cancelled), rest, Callbacks);
    }
  }

  /** What is left for a request that is not worked on: its delivery, a rollback and
      a second delivery, or a delivery without a grant. */
  function Left(c: Context, id: nat): nat
    requires id in c.requests
  {
    if c.requests[id].dones != [] then 0
    else if c.rollbacks[id] > 0 then 2
    else if c.requests[id].hasCandidate then 3
    else 1
  }

  function Next(c: Context, id: nat): Event {
    if c.rollbacks[id] > 0 then RollbackRun(id) else Completed(id)
  }

  lemma OnlyOnePast(c: Context, d: Context, id: nat)
    requires Past(c, Callbacks) && Ending(d) && OnlyOne(c, d, id)
    requires d.requests[id].answered == c.requests[id].answered
    requires c.requests[id].dones <= d.requests[id].dones
    ensures Past(d, Callbacks)
    ensures Uncalled(d) == if d.requests[id].dones == [] then Uncalled(c) else Uncalled(c) - {id}
  {
    hide Consistent;
    forall x | x in Working(d) ensures x in Working(c) {}
  }

  lemma DeliveryMoves(c: Context, id: nat)
    requires id in c.requests && c.completions[id] > 0
    ensures var d := Step(c, Completed(id));
            && OnlyOne(c, d, id) && d.requests[id].answered == c.requests[id].answered
            && c.requests[id].dones <= d.requests[id].dones
            && (d.requests[id].dones == [] ==>
                  c.requests[id].hasCandidate && (d.rollbacks[id] > 0 || c.shutdownPosted))
  {
    DeliveredKeeps(c.requests[id]);
    hide UsableIn, Overridden, Delivered;
  }

  lemma DeliveredKeeps(r: Request)
    ensures var r' := Overridden(r);
            && r'.answered == r.answered && r'.dones == r.dones && r'.hasCandidate == r.hasCandidate
            && Delivered(r').answered == r.answered && Delivered(r').dones == r.dones + [r'.error]
  {
  }

  lemma RollbackMoves(c: Context, id: nat)
    requires OfSession(c, id) && c.rollbacks[id] == 1 && c.requests[id].dones == []
    ensures var d := Step(c, RollbackRun(id));
            && OnlyOne(c, d, id) && d.requests[id].answered == c.requests[id].answered
            && d.requests[id].dones == [] && !d.requests[id].hasCandidate && d.rollbacks[id] == 0
  {
    hide RolledBack;
  }

  /** Where an uncalled request can be when nothing is posted or worked on. */
  lemma UncalledAt(c: Context, id: nat)
    requires Past(c, Callbacks) && id in Uncalled(c)
    ensures c.completions[id] + c.rollbacks[id] == 1
    ensures c.rollbacks[id] > 0 ==> OfSession(c, id)
    ensures c.shutdownPosted ==> c.rollbacks[id] == 0
    ensures c.shutdownPosted ==> !c.requests[id].hasCandidate
  {
    KnownGood(c, id);
    hide Consistent, NamedBy, OwnerGood;
    assert !Live(c, id) by { assert id !in Working(c); }
  }

  lemma CallbackMoves(c: Context, id: nat)
    requires Past(c, Callbacks) && id in Uncalled(c)
    ensures var d := Step(c, Next(c, id));
            && OnlyOne(c, d, id) && Past(d, Callbacks) && Left(d, id) < Left(c, id)
            && Uncalled(d) == if d.requests[id].dones == [] then Uncalled(c) else Uncalled(c) - {id}
  {
    var d := Step(c, Next(c, id));
    UncalledAt(c, id);
    StepConsistent(c, Next(c, id));
    hide Consistent, Step, Enabled;
    if c.rollbacks[id] > 0 {
      RollbackMoves(c, id);
    } else {
      DeliveryMoves(c, id);
    }
    OnlyOnePast(c, d, id);
  }

  lemma OneCalled(c: Context, id: nat) returns (tail: seq<Event>)
    requires Past(c, Callbacks) && id in Uncalled(c)
    ensures Leads(c, tail, Callbacks) && Uncalled(RunFrom(c, tail)) == Uncalled(c) - {id}
    decreases Left(c, id)
  {
    hide Consistent, Step, Leads, Past;
    CallbackMoves(c, id);
    var e := Next(c, id);
    var d := Step(c, e);
    var rest := [];
    if id in Uncalled(d) {
      rest := OneCalled(d, id);
    } else {
      LeadsNowhere(d, Callbacks);
    }
    tail := [e] + rest;
    LeadsOn(c, e, rest, Callbacks);
    RunFromOne(c, e);
    RunFromAppend(c, [e], rest);
  }

  lemma AllCalled(c: Context) returns (tail: seq<Event>)
    requires Past(c, Callbacks)
    ensures Leads(c, tail, Acks)
    decreases |Uncalled(c)|
  {
    hide Consistent, Step;
    if Uncalled(c) == {} {
      tail := [];
      LeadsNowhere(c, Acks);
    } else {
      var id :| id in Uncalled(c);
      var first := OneCalled(c, id);
      var rest := AllCalled(RunFrom(c, first));
      tail := first + rest;
      LeadsThrough(c, first, Callbacks, rest, Acks);
    }
  }

  lemma AckMoves(c: Context, id: nat)
    requires id in c.acks && id in c.requests
    ensures var d := Step(c, AckRun(id));
            && d.requests == c.requests[id := c.requests[id].(acked := true)]
            && d.registered == c.registered - {id} && d.acks == c.acks - multiset{id}
            && d.starts == c.starts && d.calls == c.calls && d.shutdownStarted == c.shutdownStarted
  {
    hide Drained;
  }

  lemma AckTakes(c: Context, id: nat)
    requires Past(c, Acks) && id in c.acks && id in c.requests
    ensures var d := Step(c, AckRun(id));
            Past(d, Acks) && d.acks == c.acks - multiset{id}
  {
    var d := Step(c, AckRun(id));
    StepConsistent(c, AckRun(id));
    AckMoves(c, id);
    hide Consistent, Step;
    assert d.requests[id].dones == c.requests[id].dones;
    forall x | x in Working(d) ensures x in Working(c) {}
    forall x | x in Uncalled(d) ensures x in Uncalled(c) {}
  }

  lemma AcksRun(c: Context) returns (tail: seq<Event>)
    requires Past(c, Acks)
    ensures Leads(c, tail, Counters)
    decreases |c.acks|
  {
    hide Consistent, Step, Leads;
    if c.acks == multiset{} {
      tail := [];
      LeadsNowhere(c, Counters);
    } else {
      var id :| id in c.acks;
      StartKnown(c, id);
      AckTakes(c, id);
      var rest := AcksRun(Step(c, AckRun(id)));
      tail := [AckRun(id)] + rest;
      LeadsOn(c, AckRun(id), rest, Counters);
    }
  }

  // ----- What is held, and the end -----

  /** Every caller has been called once, and the owner of the context told. */
  predicate Stopped(c: Context) {
    && c.stopsDelivered == 1
    && forall id :: id in c.requests ==> |c.requests[id].dones| == 1
  }

  lemma NothingLeft(c: Context)
    requires Past(c, Counters)
    ensures c.stopping && NothingPosted(c) && c.registered == {}
    ensures forall id :: id in c.requests ==> |c.requests[id].dones| == 1
  {
    assert FlagsGood(c);
    forall id ensures c.rollbacks[id] == 0 && id !in c.registered {
      assert ReqAt(c, id);
      assert id in c.requests ==> id !in Uncalled(c) && id !in Working(c);
    }
    assert c.rollbacks == multiset{};
    forall id | id in c.requests ensures |c.requests[id].dones| == 1 {
      assert ReqAt(c, id) && id !in Uncalled(c);
    }
  }

  function Held(c: Context): nat { c.busy + c.releases + One(!c.watchStopped) }

  /** What is still held, or the end itself. */
  function Closing(c: Context): Event {
    if c.busy > 0 then UiLetGo
    else if c.releases > 0 then Released
    else if !c.watchStopped then WatchStopped
    else Polled
  }

  lemma HeldShrinks(c: Context)
    requires Past(c, Counters) && c.stopping && Held(c) > 0
    ensures var d := Step(c, Closing(c));
            Past(d, Counters) && Held(d) < Held(c)
  {
    StepConsistent(c, Closing(c));
    hide Consistent;
  }

  lemma PollEnds(c: Context)
    requires Past(c, Counters) && Held(c) == 0
    ensures var d := Step(Step(c, Polled), StopDelivered);
            d.stopsDelivered == 1 && d.requests == c.requests
  {
    NothingLeft(c);
    StepConsistent(c, Polled);
    assert FlagsGood(c) && FlagsGood(Step(c, Polled));
    hide Consistent;
  }

  lemma LastSteps(c: Context) returns (tail: seq<Event>)
    requires Past(c, Counters)
    ensures AllSettle(tail) && Stopped(RunFrom(c, tail))
    decreases Held(c)
  {
    NothingLeft(c);
    hide Consistent, Step, Past, NothingPosted;
    if Held(c) == 0 {
      tail := [Polled] + [StopDelivered];
      PollEnds(c);
      RunFromOne(c, Polled);
      RunFromOne(Step(c, Polled), StopDelivered);
      RunFromAppend(c, [Polled], [StopDelivered]);
      hide RunFrom;
    } else {
      var e := Closing(c);
      hide RunFrom;
      HeldShrinks(c);
      var rest := LastSteps(Step(c, e));
      tail := [e] + rest;
      RunFromOne(c, e);
      RunFromAppend(c, [e], rest);
    }
  }

  lemma Settle(c: Context) returns (tail: seq<Event>)
    requires Ending(c)
    ensures AllSettle(tail) && Stopped(RunFrom(c, tail))
  {
    hide Consistent, Step, Stopped;
    var starts := StartsRun(c);
    var c1 := RunFrom(c, starts);
    var calls := CallsRun(c1);
    var c2 := RunFrom(c1, calls);
    var answers := WorkersReport(c2);
    var c3 := RunFrom(c2, answers);
    var callbacks := AllCalled(c3);
    var c4 := RunFrom(c3, callbacks);
    var acks := AcksRun(c4);
    var rest := LastSteps(RunFrom(c4, acks));
    hide Past, RunFrom;
    RunFromAppend(c, starts, calls);
    RunFromAppend(c, starts + calls, answers);
    RunFromAppend(c, starts + calls + answers, callbacks);
    RunFromAppend(c, starts + calls + answers + callbacks, acks);
    RunFromAppend(c, starts + calls + answers + callbacks + acks, rest);
    tail := starts + calls + answers + callbacks + acks + rest;
  }

  /** A context that has been asked to stop can always stop, in every run: with nothing
      new asked for, the threads running what they were given, workers reporting and
      the interface and devices letting go lead to the report that it has stopped,
      with every caller called exactly once. */
  lemma ShutdownCompletes(events: seq<Event>)
    requires Run(events).shutdownStarted
    ensures exists tail ::
              AllSettle(tail) && Run(events + tail).stopsDelivered == 1
              && forall id :: id in Run(events + tail).requests ==>
                   |Run(events + tail).requests[id].dones| == 1
  {
    RunConsistent(events);
    var tail := Settle(Run(events));
    hide Consistent, RunFrom;
    RunFromAppend(NEW, events, tail);
    assert Stopped(Run(events + tail));
  }
}
