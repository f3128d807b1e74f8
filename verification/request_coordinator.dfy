/** The context's and its sessions' fields, updated in place by the functions that run
    on the coordinator and on the desktop thread. */
module RequestCoordinator {
  import opened Optional
  import opened RequestContext
  import opened RequestInvariant

  class Coordinator {
    var requests: map<nat, Request>
    var next: nat
    var registered: set<nat>
    var sessions: map<nat, Session>
    var listed: seq<nat>
    var starts: multiset<nat>
    var acks: multiset<nat>
    var rollbacks: multiset<nat>
    var calls: multiset<Call>
    var completions: multiset<nat>
    var stops: nat
    var generation: nat
    var busy: nat
    var releases: nat
    var shutdownStarted: bool
    var stopping: bool
    var watchStopped: bool
    var shutdownPosted: bool
    ghost var stopsDelivered: nat

    ghost function View(): Context reads this {
      Context(requests, next, registered, sessions, listed, starts, acks, rollbacks, calls,
              completions, stops, generation, busy, releases, shutdownStarted, stopping,
              watchStopped, shutdownPosted, stopsDelivered)
    }

    ghost predicate Valid() reads this { Consistent(View()) }

    constructor ()
      ensures Valid() && View() == NEW
    {
      requests, next, registered, sessions, listed := map[], 0, {}, map[], [];
      starts, acks, rollbacks, calls := multiset{}, multiset{}, multiset{}, multiset{};
      completions, stops, generation, busy, releases := multiset{}, 0, 0, 0, 0;
      shutdownStarted, stopping, watchStopped, shutdownPosted := false, false, false, false;
      stopsDelivered := 0;
      new;
      assert View() == NEW;
      hide View, Consistent;
      NewConsistent();
    }

    // ----- The fields, one at a time -----

    method SetRequest(id: nat, r: Request)
      modifies this`requests
      ensures View() == Put(old(View()), id, r) && id in requests
      ensures old(requests).Keys <= requests.Keys
    {
      requests := requests[id := r];
    }

    method SetSession(sid: nat, s: Session)
      modifies this`sessions
      ensures View() == PutSession(old(View()), sid, s) && sid in sessions
    {
      sessions := sessions[sid := s];
    }

    method DispatchCompletion(id: nat)
      modifies this`completions
      ensures View() == old(View()).(completions := old(completions) + multiset{id})
    {
      completions := completions + multiset{id};
    }

    method TakeCompletion(id: nat)
      modifies this`completions
      ensures View() == old(View()).(completions := old(completions) - multiset{id})
    {
      completions := completions - multiset{id};
    }

    method TakeRollback(id: nat)
      modifies this`rollbacks
      ensures View() == old(View()).(rollbacks := old(rollbacks) - multiset{id})
    {
      rollbacks := rollbacks - multiset{id};
    }

    method PostRollback(id: nat)
      modifies this`rollbacks
      ensures View() == old(View()).(rollbacks := Posting(old(View()), old(rollbacks), id))
    {
      if !shutdownPosted {
        rollbacks := rollbacks + multiset{id};
      }
    }

    method PostAck(id: nat)
      modifies this`acks
      ensures View() == old(View()).(acks := Posting(old(View()), old(acks), id))
    {
      if !shutdownPosted {
        acks := acks + multiset{id};
      }
    }

    // ----- Posting and stopping -----

    method PostCall(call: Call) returns (accepted: bool)
      modifies this`calls
      ensures View() == TryCall(old(View()), call) && accepted == !shutdownPosted
    {
      if shutdownPosted {
        return false;
      }
      calls := calls + multiset{call};
      accepted := true;
    }

    method CheckStopped()
      modifies this`shutdownPosted, this`listed, this`stops
      ensures View() == CheckShutdown(old(View()))
    {
      if !stopping || !watchStopped || shutdownPosted || registered != {} {
        return;
      }
      if starts != multiset{} || acks != multiset{} || rollbacks != multiset{} || calls != multiset{} {
        return;
      }
      if busy != 0 || releases != 0 {
        return;
      }
      shutdownPosted := true;
      listed := [];
      stops := stops + 1;
    }

    // ----- Requests -----

    method CompleteRequest(id: nat, code: Code)
      requires id in requests
      modifies this`requests, this`completions, this`sessions
      ensures View() == Complete(old(View()), id, code)
    {
      var r := requests[id];
      assert View().requests == requests && View().sessions == sessions;
      assert View().completions == completions;
      hide Answer, Settled, View;
      if r.answered {
        return;
      }
      if r.session.Some? && r.session.value in sessions {
        SetSession(r.session.value, Settled(sessions[r.session.value], id));
      }
      SetRequest(id, Answer(r, code));
      DispatchCompletion(id);
    }

    method Enrol(r: Request, starting: bool) returns (id: nat)
      modifies this`requests, this`next, this`starts
      ensures id == old(next) && id in requests
      ensures View() == Put(old(View()), id, r).(
                          next := id + 1,
                          starts := if starting then old(starts) + multiset{id} else old(starts))
    {
      id := next;
      next := next + 1;
      if starting {
        starts := starts + multiset{id};
      }
      hide View;
      requests := requests[id := r];
    }

    method ScheduleRequest(kind: Kind, session: Option<nat>, owner: nat) returns (id: nat)
      requires Valid() && Enabled(View(), Scheduled(kind, session, owner))
      modifies this
      ensures Valid() && View() == Schedule(old(View()), kind, session, owner) && id == old(next)
    {
      ScheduleGood(View(), kind, session, owner);
      assert View().shutdownPosted == shutdownPosted && View().next == next;
      assert View().starts == starts;
      var r := NewRequest(kind, session, owner);
      hide Consistent, Complete, NewRequest, Enabled, View;
      if shutdownPosted {
        // Never registered, and answered at once.
        id := Enrol(r.(detached := true), false);
        CompleteRequest(id, BackendGone);
      } else {
        id := Enrol(r, true);
      }
    }

    /** Looks for another acquisition of the session that has not been answered. */
    method FindRival(id: nat, sid: nat) returns (found: bool)
      ensures found == Rival(View(), id, sid)
    {
      var todo := registered;
      while todo != {}
        invariant todo <= registered
        invariant forall x :: x in registered && x !in todo && x != id && x in requests ==>
                    !LiveAcquire(requests[x], sid)
        decreases |todo|
      {
        var x :| x in todo;
        if x != id && x in requests && LiveAcquire(requests[x], sid) {
          return true;
        }
        todo := todo - {x};
      }
      found := false;
    }

    method ValidateRequest(id: nat, verdict: Code) returns (code: Code)
      requires id in requests
      ensures code == Validate(View(), requests[id], verdict)
    {
      var r := requests[id];
      if stopping {
        return BackendGone;
      }
      if r.intent.Some? {
        return Cancelled;
      }
      if r.cancelledCode != Fine {
        return r.cancelledCode;
      }
      if r.cancelled {
        return Cancelled;
      }
      code := verdict;
    }

    method TakeStart(id: nat)
      modifies this`starts
      ensures View() == old(View()).(starts := old(starts) - multiset{id})
    {
      starts := starts - multiset{id};
    }

    method Register(id: nat)
      modifies this`registered
      ensures View() == old(View()).(registered := old(registered) + {id})
    {
      registered := registered + {id};
    }

    method StartAcquiring(id: nat, sid: nat)
      requires id in requests && sid in sessions
      modifies this`requests, this`completions, this`sessions
      ensures View() == (if old(sessions)[sid].grant.granted || Rival(old(View()), id, sid)
                         then Complete(old(View()), id, InvalidRequest)
                         else PutSession(old(View()), sid, Acquiring(old(sessions)[sid], id)))
    {
      hide Complete, Rival, Acquiring;
      var rival := FindRival(id, sid);
      if sessions[sid].grant.granted || rival {
        CompleteRequest(id, InvalidRequest);
      } else {
        hide View;
        SetSession(sid, Acquiring(sessions[sid], id));
      }
    }

    method BeginOrRefuse(id: nat, code: Code)
      requires id in requests
      modifies this`requests, this`completions, this`sessions
      ensures View() == Begun(old(View()), id, code)
    {
      var r := requests[id];
      assert View().sessions == sessions && View().requests == requests;
      hide Complete, Rival, View, Acquiring;
      if code != Fine {
        CompleteRequest(id, code);
      } else if r.kind == Acquire && r.session.Some? && r.session.value in sessions {
        StartAcquiring(id, r.session.value);
      }
    }

    method RunRequest(id: nat, verdict: Code)
      requires id in requests
      modifies this`registered, this`starts, this`requests, this`completions, this`sessions
      ensures View() == RunStart(old(View()).(starts := old(starts) - multiset{id}), id, verdict)
    {
      assert View().registered == registered && View().requests == requests;
      hide Begun, Validate, View;
      TakeStart(id);
      Register(id);
      var code := ValidateRequest(id, verdict);
      BeginOrRefuse(id, code);
    }

    method StartRequest(id: nat, verdict: Code)
      requires Valid() && Enabled(View(), StartRun(id, verdict))
      modifies this
      ensures Valid() && View() == Step(old(View()), StartRun(id, verdict))
    {
      RunStartGood(View(), id, verdict);
      StartStep(View(), id, verdict);
      assert View().starts == starts;
      hide Consistent, RunStart, Enabled, View, Step, CheckShutdown;
      RunRequest(id, verdict);
      CheckStopped();
    }

    method StoreGrant(id: nat, sid: nat, grant: Grant)
      requires id in requests && sid in sessions
      modifies this`requests, this`sessions
      ensures View() == MakeGrant(old(View()), id, sid, grant) && id in requests
    {
      assert View().requests == requests && View().sessions == sessions;
      hide Accepted, Granted, View;
      SetSession(sid, Granted(sessions[sid], id, grant));
      SetRequest(id, Accepted(requests[id]));
    }

    method FinishAcquisition(id: nat, serial: bool, grant: Grant)
      requires Valid() && Enabled(View(), Chosen(id, serial, grant))
      modifies this
      ensures Valid() && View() == FinishAcquire(old(View()), id, serial, grant)
    {
      FinishAcquireGood(View(), id, serial, grant);
      var r := requests[id];
      var closed := sessions[r.session.value].closed;
      assert View().sessions == sessions && View().requests == requests;
      hide Consistent, Complete, MakeGrant, Enabled, View;
      if r.intent.Some? {
        CompleteRequest(id, Cancelled);
      } else if closed {
        CompleteRequest(id, NoSuchSession);
      } else if !serial {
        // Tokens without serials cannot be rebound reliably when the key is used.
        CompleteRequest(id, DeviceError);
      } else {
        StoreGrant(id, r.session.value, grant);
        CompleteRequest(id, Fine);
      }
    }

    method RollbackAcquisition(id: nat)
      requires Valid() && Enabled(View(), RollbackRun(id))
      modifies this
      ensures Valid() && View() == Step(old(View()), RollbackRun(id))
    {
      RunRollbackGood(View(), id);
      RollbackStep(View(), id);
      hide Consistent, Undone, RolledBack, Step, Enabled, CheckShutdown;
      UndoGrant(id, requests[id].session.value);
      CheckStopped();
    }

    method UndoGrant(id: nat, sid: nat)
      requires id in requests && sid in sessions
      requires requests[id].session == Some(sid)
      requires sessions[sid].pending
      modifies this`rollbacks, this`sessions, this`requests, this`completions
      ensures View() == RunRollback(old(View()).(rollbacks := old(rollbacks) - multiset{id}), id)
    {
      assert View().requests == requests && View().sessions == sessions;
      assert View().completions == completions;
      hide Undone, RolledBack, View;
      TakeRollback(id);
      SetSession(sid, RolledBack(sessions[sid]));
      SetRequest(id, Undone(requests[id]));
      DispatchCompletion(id);
    }

    method AckCompletion(id: nat)
      requires Valid() && Enabled(View(), AckRun(id))
      modifies this
      ensures Valid() && View() == Step(old(View()), AckRun(id))
    {
      RunAckGood(View(), id);
      AckStep(View(), id);
      hide Consistent, Step, Enabled, CheckShutdown;
      Retire(id);
      CheckStopped();
    }

    method TakeAck(id: nat)
      modifies this`acks
      ensures View() == old(View()).(acks := old(acks) - multiset{id})
    {
      acks := acks - multiset{id};
    }

    method Unregister(id: nat)
      modifies this`registered
      ensures View() == old(View()).(registered := old(registered) - {id})
    {
      registered := registered - {id};
    }

    method Retire(id: nat)
      requires id in requests
      modifies this`acks, this`registered, this`requests
      ensures View() == RunAck(old(View()).(acks := old(acks) - multiset{id}), id)
    {
      assert View().requests == requests && View().registered == registered;
      hide View;
      TakeAck(id);
      SetRequest(id, requests[id].(acked := true));
      Unregister(id);
    }

    // ----- The desktop -----

    method SendItBack(id: nat, r: Request)
      modifies this`completions, this`requests, this`rollbacks
      ensures View() == SendBack(old(View()), id, r)
    {
      assert View().completions == completions && View().rollbacks == rollbacks;
      assert View().shutdownPosted == shutdownPosted;
      hide View;
      TakeCompletion(id);
      SetRequest(id, r);
      PostRollback(id);
    }

    /** From here on the grant may be used. */
    method ReleaseGrant(r: Request)
      modifies this`sessions
      ensures View() == old(View()).(sessions := UsableIn(old(sessions), r))
    {
      assert View() == View().(sessions := sessions);
      assert View().sessions == sessions;
      hide Usable, View;
      if r.kind == Acquire && r.hasCandidate && r.session.Some? && r.session.value in sessions {
        SetSession(r.session.value, Usable(sessions[r.session.value]));
      }
    }

    method AskForAck(id: nat, r: Request)
      modifies this`acks
      ensures View() == old(View()).(acks := if r.detached then old(acks)
                                             else Posting(old(View()), old(acks), id))
    {
      assert View() == View().(acks := acks);
      hide Posting, View;
      if !r.detached {
        PostAck(id);
      }
    }

    method CallOwner(id: nat, r: Request)
      modifies this`completions, this`requests, this`sessions, this`acks
      ensures View() == CallDone(old(View()), id, r)
    {
      assert View().completions == completions && View().acks == acks;
      assert View().sessions == sessions && View().shutdownPosted == shutdownPosted;
      hide Usable, Delivered, View, UsableIn;
      TakeCompletion(id);
      ReleaseGrant(r);
      SetRequest(id, Delivered(r));
      AskForAck(id, r);
    }

    method DeliverCompletion(id: nat)
      requires Valid() && Enabled(View(), Completed(id))
      modifies this
      ensures Valid() && View() == Deliver(old(View()), id)
    {
      DeliverGood(View(), id);
      var r := Overridden(requests[id]);
      hide Consistent, Overridden, Enabled, SendBack, CallDone, View;
      if r.kind == Acquire && r.hasCandidate && r.error != Fine {
        SendItBack(id, r);
      } else {
        CallOwner(id, r);
      }
    }

    // ----- Cancellation -----

    method CancelRequest(id: nat, code: Code)
      requires Valid() && Enabled(View(), CancelRequested(id, code))
      modifies this
      ensures Valid() && View() == RequestCancel(old(View()), id, code)
    {
      RequestCancelGood(View(), id, code);
      assert View().requests == requests && View().stopping == stopping;
      hide Consistent, Enabled, TryCall, View;
      if stopping {
        return;
      }
      var r := requests[id];
      SetRequest(id, r.(intent := if r.intent.None? then Some(code) else r.intent));
      var _ := PostCall(CancelCall(id, code));
    }

    /** Marks the registered requests of one session, in no particular order. */
    method StrikeOfSession(sid: nat, code: Code, halts: bool)
      modifies this`requests
      ensures requests == StruckOf(old(requests), registered, sid, code, halts)
    {
      hide Struck;
      var todo := registered;
      while todo != {}
        invariant requests.Keys == old(requests).Keys && todo <= registered
        invariant forall id :: id in requests ==>
                    requests[id]
                    == if id in registered && id !in todo && old(requests)[id].session == Some(sid)
                       then Struck(old(requests)[id], code, false, halts) else old(requests)[id]
        decreases |todo|
      {
        var id :| id in todo;
        if id in requests && requests[id].session == Some(sid) {
          requests := requests[id := Struck(requests[id], code, false, halts)];
        }
        todo := todo - {id};
      }
    }

    method StrikeIt(sid: nat, code: Code, halts: bool)
      modifies this`requests
      ensures View() == StrikeSession(old(View()), sid, code, halts)
    {
      hide StruckOf;
      StrikeOfSession(sid, code, halts);
    }

    method Unlist(sid: nat)
      modifies this`listed
      ensures listed == Without(old(listed), sid)
    {
      for i := 0 to |listed|
        invariant listed == old(listed)
        invariant Without(listed, sid) == listed[..i] + Without(listed[i..], sid)
      {
        if listed[i] == sid {
          listed := listed[..i] + listed[i + 1..];
          return;
        }
        assert listed[..i + 1] == listed[..i] + [listed[i]];
      }
    }

    method CountRelease(sid: nat)
      requires sid in sessions
      modifies this`releases
      ensures View() == old(View()).(releases := if sessions[sid].device then old(releases) + 1
                                                 else old(releases))
    {
      if sessions[sid].device {
        releases := releases + 1;
      }
    }

    method Forget(sid: nat)
      modifies this`listed
      ensures View() == old(View()).(listed := Without(old(listed), sid))
    {
      hide Without;
      Unlist(sid);
    }

    method MarkClosed(sid: nat)
      requires sid in sessions
      modifies this`sessions, this`releases, this`listed
      ensures View() == PutSession(old(View()), sid, ClosedSession(old(sessions)[sid])).(
                          releases := if old(sessions)[sid].device then old(releases) + 1
                                      else old(releases),
                          listed := Without(old(listed), sid))
    {
      hide ClosedSession, View, Without;
      CountRelease(sid);
      SetSession(sid, ClosedSession(sessions[sid]));
      Forget(sid);
    }

    method CloseInternal(sid: nat)
      requires sid in sessions
      modifies this`requests, this`sessions, this`releases, this`listed
      ensures View() == CloseSession(old(View()), sid)
    {
      assert View().sessions == sessions && View().releases == releases && View().listed == listed;
      hide StrikeSession, ClosedSession, Without, View;
      if sessions[sid].closed {
        return;
      }
      assert StrikeSession(View(), sid, NoSuchSession, true)
          == View().(requests := StrikeSession(View(), sid, NoSuchSession, true).requests) by {
        StrikeOnly(View(), sid, NoSuchSession, true);
      }
      StrikeIt(sid, NoSuchSession, true);
      MarkClosed(sid);
    }

    method InvalidateInternal(sid: nat, code: Code)
      requires sid in sessions
      modifies this`requests, this`sessions, this`releases, this`listed
      ensures View() == Invalidate(old(View()), sid, code)
    {
      assert View().sessions == sessions;
      hide StrikeSession, CloseSession, Invalidating, View;
      if sessions[sid].closed || sessions[sid].invalidating {
        return;
      }
      SetSession(sid, Invalidating(sessions[sid]));
      StrikeIt(sid, code, false);
      CloseInternal(sid);
    }

    // ----- Everybody at once -----

    method StrikeRegistered(code: Code, all: bool)
      modifies this`requests
      ensures requests == StruckAll(old(requests), registered, sessions, generation, code, all)
    {
      hide Struck, Foreign;
      var todo := registered;
      while todo != {}
        invariant requests.Keys == old(requests).Keys && todo <= registered
        invariant forall id :: id in requests ==>
                    requests[id]
                    == if id in registered && id !in todo
                          && (all || Foreign(sessions, generation, old(requests)[id]))
                       then Struck(old(requests)[id], code, true, true) else old(requests)[id]
        decreases |todo|
      {
        var id :| id in todo;
        if id in requests && (all || Foreign(sessions, generation, requests[id])) {
          requests := requests[id := Struck(requests[id], code, true, true)];
        }
        todo := todo - {id};
      }
    }

    method StrikeThem(code: Code, all: bool)
      modifies this`requests
      ensures View() == StrikeAll(old(View()), code, all)
    {
      hide StruckAll;
      StrikeRegistered(code, all);
    }

    method CloseStale()
      modifies this`requests, this`sessions, this`releases, this`listed
      ensures View() == CloseEach(old(View()), old(listed))
    {
      var ids := listed;
      for i := 0 to |ids|
        invariant CloseEach(View(), ids[i..]) == CloseEach(old(View()), ids)
      {
        assert ids[i..][1..] == ids[i + 1..];
        assert View().sessions == sessions && View().generation == generation;
        hide CloseSession, View;
        if ids[i] in sessions && sessions[ids[i]].generation != generation {
          CloseInternal(ids[i]);
        }
      }
    }

    method InvalidateListed(code: Code)
      modifies this`requests, this`sessions, this`releases, this`listed
      ensures View() == InvalidateEach(old(View()), old(listed), code)
    {
      var ids := listed;
      for i := 0 to |ids|
        invariant InvalidateEach(View(), ids[i..], code) == InvalidateEach(old(View()), ids, code)
      {
        assert ids[i..][1..] == ids[i + 1..];
        assert View().sessions == sessions;
        hide Invalidate, View;
        if ids[i] in sessions {
          InvalidateInternal(ids[i], code);
        }
      }
    }

    method OwnerGenerationChanged(owner: nat)
      modifies this`generation, this`requests, this`sessions, this`releases, this`listed
      ensures View() == RunGeneration(old(View()), owner)
    {
      hide StrikeAll, CloseEach;
      ghost var before := View();
      generation := owner;
      assert View() == before.(generation := owner);
      StrikeThem(OwnerGone, false);
      CloseStale();
    }

    method ShutdownBegins()
      modifies this`stopping, this`requests, this`sessions, this`releases, this`listed
      ensures View() == RunShutdown(old(View()))
    {
      hide StrikeAll, InvalidateEach;
      ghost var before := View();
      stopping := true;
      assert View() == before.(stopping := true);
      StrikeThem(BackendGone, true);
      InvalidateListed(BackendGone);
    }
  }

  lemma StrikeOnly(c: Context, sid: nat, code: Code, stops: bool)
    ensures StrikeSession(c, sid, code, stops)
         == c.(requests := StrikeSession(c, sid, code, stops).requests)
  {
    hide StruckOf;
  }

  lemma StartStep(c: Context, id: nat, verdict: Code)
    requires Enabled(c, StartRun(id, verdict)) && Consistent(c)
    ensures var t := RunStart(c.(starts := c.starts - multiset{id}), id, verdict);
            Step(c, StartRun(id, verdict)) == CheckShutdown(t)
            && (Consistent(t) ==> Consistent(CheckShutdown(t)))
  {
    var t := RunStart(c.(starts := c.starts - multiset{id}), id, verdict);
    hide Consistent, CheckShutdown, RunStart;
    if Consistent(t) {
      CheckShutdownGood(t);
    }
  }

  lemma RollbackStep(c: Context, id: nat)
    requires Enabled(c, RollbackRun(id)) && Consistent(c)
    ensures var t := RunRollback(c.(rollbacks := c.rollbacks - multiset{id}), id);
            Step(c, RollbackRun(id)) == CheckShutdown(t)
            && (Consistent(t) ==> Consistent(CheckShutdown(t)))
    ensures c.sessions[c.requests[id].session.value].pending
  {
    KnownGood(c, id);
    assert c.sessions[c.requests[id].session.value].pending;
    var t := RunRollback(c.(rollbacks := c.rollbacks - multiset{id}), id);
    hide Consistent, CheckShutdown, RunRollback;
    if Consistent(t) {
      CheckShutdownGood(t);
    }
  }

  lemma AckStep(c: Context, id: nat)
    requires Enabled(c, AckRun(id)) && Consistent(c)
    ensures var t := RunAck(c.(acks := c.acks - multiset{id}), id);
            Step(c, AckRun(id)) == CheckShutdown(t)
            && (Consistent(t) ==> Consistent(CheckShutdown(t)))
  {
    var t := RunAck(c.(acks := c.acks - multiset{id}), id);
    hide Consistent, CheckShutdown, RunAck;
    if Consistent(t) {
      CheckShutdownGood(t);
    }
  }
}
