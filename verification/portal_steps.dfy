/** What each callback of the portal client does, said of the fields of its requests, in
    every run (src/module/portal.c). */
module PortalRequestSteps {
  import opened Optional
  import opened PortalRequests

  lemma RunNext(events: seq<Event>, e: Event)
    ensures Run(events + [e]) == Step(Run(events), e) && Consistent(Run(events))
  {
    RunConsistent(events);
    assert (events + [e])[..|events|] == events;
    hide Step, Consistent;
  }

  /** A request has ended, once. If it was sent, was not answered by a Response and may
      exist at the portal, it is closed there: under the path the method returned, or the
      predicted one. No signal and no timer reach it any more. */
  predicate Ends(r: Request, t: Request, error: Option<Failure>, responded: bool, final: bool) {
    && t.closes == (if r.sent && !responded && !final
                    then [if r.returned.Some? then r.returned.value else r.predicted] else [])
    && t == r.(completed := true, completions := 1, error := error, responded := responded,
               methodFailed := final, timeoutArmed := false, subscribed := None,
               closes := t.closes, closed := if t.closes == [] then None else Some(t.closes[0]))
  }

  /** One request has ended, and is live no more. */
  predicate OneEnds(c: Client, t: Client, id: nat, error: Option<Failure>, responded: bool) {
    && id in c.requests && id in t.requests && Ends(c.requests[id], t.requests[id], error, responded, false)
    && t == c.(requests := c.requests[id := t.requests[id]], live := t.live)
    && multiset(t.live) == multiset(c.live) - multiset{id}
  }

  lemma {:induction false} WithoutIs(s: seq<nat>, id: nat)
    ensures multiset(Without(s, id)) == multiset(s) - multiset{id}
  {
    if s != [] {
      assert s == [s[0]] + s[1..];
      if s[0] != id {
        WithoutIs(s[1..], id);
        assert Without(s, id) == [s[0]] + Without(s[1..], id);
      }
    }
  }

  lemma CompleteEnds(r: Request)
    requires !r.completed && r.completions == 0 && r.closes == [] && r.closed == None
    ensures Ends(r, Complete(r), r.error, r.responded, r.methodFailed)
  {
  }

  /** An unfinished request of a run. */
  lemma Unfinished(c: Client, id: nat)
    requires Consistent(c) && id in c.requests && !c.requests[id].completed
    ensures var r := c.requests[id];
            && r.completions == 0 && r.closes == [] && r.closed == None && r.error == None
            && !r.responded && !r.methodFailed
  {
    assert Coherent(c.requests[id]);
  }

  lemma PutEnds(c: Client, id: nat, t: Request)
    requires id in c.requests && t.completed
    ensures var c' := Put(c, id, t);
            && c' == c.(requests := c.requests[id := t], live := c'.live)
            && multiset(c'.live) == multiset(c.live) - multiset{id}
  {
    WithoutIs(c.live, id);
  }

  /** A request is sent exactly if nothing has been cancelled, the portal is there and it
      is the portal the request was made for; otherwise it fails on the spot. */
  lemma StartSends(events: seq<Event>, id: nat)
    requires !Run(events).stopped && id in Run(events).requests
    requires !Run(events).requests[id].sent && !Run(events).requests[id].completed
    ensures var c := Run(events);
            var t := Run(events + [Start(id)]);
            var r := c.requests[id];
            if !c.cancelled && c.owner.Some? && c.ownerGeneration == r.generation then
              t == c.(requests := c.requests[id := r.(sent := true, subscribed := Some(r.predicted),
                                                      callPending := true, timeoutArmed := true)],
                      live := [id] + c.live, calls := c.calls + 1)
            else OneEnds(c, t, id, Some(if c.cancelled then Cancelled else Invalidated), false)
  {
    var c := Run(events);
    RunNext(events, Start(id));
    hide Run;
    Unfinished(c, id);
    hide Consistent;
    var why := if c.cancelled then Cancelled else Invalidated;
    CompleteEnds(c.requests[id].(error := Some(why)));
    PutEnds(c, id, Fail(c.requests[id], why));
    hide Complete, Put;
  }

  /** A Response ends the request and forestalls every Close; a timeout fails it. */
  lemma SignalEnds(events: seq<Event>, id: nat, path: Path)
    ensures var c := Run(events);
            var t := Run(events + [Response(id, path)]);
            if !c.stopped && id in c.requests && c.requests[id].subscribed == Some(path)
            then OneEnds(c, t, id, None, true) else t == c
    ensures var c := Run(events);
            var t := Run(events + [Timeout(id)]);
            if !c.stopped && id in c.requests && c.requests[id].timeoutArmed
            then OneEnds(c, t, id, Some(TimedOut), false) else t == c
  {
    var c := Run(events);
    RunNext(events, Response(id, path));
    RunNext(events, Timeout(id));
    hide Run;
    if !c.stopped && id in c.requests
       && (c.requests[id].subscribed.Some? || c.requests[id].timeoutArmed) {
      Facts(c, id);
      Unfinished(c, id);
      hide Consistent, Step, OneEnds;
      if c.requests[id].subscribed == Some(path) {
        ResponseStep(c, id, path);
      }
      if c.requests[id].timeoutArmed {
        TimeoutStep(c, id);
      }
    }
    NoSignal(c, id, path);
    hide Consistent, Step, OneEnds;
  }

  /** A signal that is not subscribed to, or a timer that is not armed. */
  lemma NoSignal(c: Client, id: nat, path: Path)
    ensures c.stopped || id !in c.requests || c.requests[id].subscribed != Some(path) ==>
              Step(c, Response(id, path)) == c
    ensures c.stopped || id !in c.requests || !c.requests[id].timeoutArmed ==>
              Step(c, Timeout(id)) == c
  {
  }

  /** Nothing has happened to the request but that it may have been sent. */
  predicate Untouched(r: Request) {
    && !r.completed && r.completions == 0 && r.closes == [] && r.closed == None && r.error == None
    && !r.responded && !r.methodFailed
  }

  lemma OnePut(c: Client, id: nat, t: Request, error: Option<Failure>, responded: bool)
    requires id in c.requests && Ends(c.requests[id], t, error, responded, false)
    ensures OneEnds(c, Put(c, id, t), id, error, responded)
  {
    PutEnds(c, id, t);
    hide Put;
  }

  lemma ResponseStep(c: Client, id: nat, path: Path)
    requires id in c.requests && Untouched(c.requests[id]) && !c.stopped
    requires c.requests[id].subscribed == Some(path)
    ensures OneEnds(c, Step(c, Response(id, path)), id, None, true)
  {
    var r := c.requests[id].(responded := true);
    assert Step(c, Response(id, path)) == Put(c, id, Complete(r)) by { hide Complete, Put; }
    hide Step;
    CompleteEnds(r);
    hide Complete, Put;
    OnePut(c, id, Complete(r), r.error, r.responded);
  }

  lemma TimeoutStep(c: Client, id: nat)
    requires id in c.requests && Untouched(c.requests[id]) && !c.stopped
    requires c.requests[id].timeoutArmed
    ensures OneEnds(c, Step(c, Timeout(id)), id, Some(TimedOut), false)
  {
    var r := c.requests[id].(timeoutArmed := false, error := Some(TimedOut));
    assert Step(c, Timeout(id)) == Put(c, id, Complete(r)) by { hide Complete, Put; }
    hide Step;
    CompleteEnds(r);
    hide Complete, Put;
    OnePut(c, id, Complete(r), r.error, r.responded);
  }

  /** One callback less to wait for: the loop stops with the last one if it drains. */
  predicate CalledBack(c: Client, t: Client, id: nat) {
    && c.calls > 0 && id in t.requests
    && t == c.(requests := c.requests[id := t.requests[id]], live := t.live, calls := c.calls - 1,
               stopped := c.draining && c.calls == 1)
  }

  /** The method returns a path: an unfinished request listens there from now on, and one
      that has ended without a Response is closed there, unless it has been already. */
  lemma ReplyArrives(events: seq<Event>, id: nat, path: Path)
    requires !Run(events).stopped && id in Run(events).requests && Run(events).requests[id].callPending
    ensures var c := Run(events);
            var t := Run(events + [Reply(id, path)]);
            var r := c.requests[id].(callPending := false, replied := Some(path));
            && CalledBack(c, t, id) && t.live == c.live
            && t.requests[id] == if !r.completed
                                 then r.(returned := Some(path),
                                         subscribed := if path != r.predicted then Some(path)
                                                       else r.subscribed)
                                 else if r.responded || r.closed == Some(path) then r
                                 else r.(closed := Some(path), closes := r.closes + [path])
  {
    var c := Run(events);
    RunNext(events, Reply(id, path));
    hide Run;
    Facts(c, id);
    assert id in Pending(c.requests);
    hide Consistent;
    ReplyStep(c, id, path);
    hide Step;
  }

  lemma ReplyStep(c: Client, id: nat, path: Path)
    requires !c.stopped && Enabled(c, Reply(id, path))
    requires c.requests[id].completed ==> id !in c.live
    ensures var t := Step(c, Reply(id, path));
            var r := c.requests[id].(callPending := false, replied := Some(path));
            && CalledBack(c, t, id) && t.live == c.live
            && t.requests[id] == if !r.completed
                                 then r.(returned := Some(path),
                                         subscribed := if path != r.predicted then Some(path)
                                                       else r.subscribed)
                                 else if r.responded || r.closed == Some(path) then r
                                 else r.(closed := Some(path), closes := r.closes + [path])
  {
    WithoutAbsent(c.live, id);
    hide Without;
  }

  /** The method fails: the request with it, and there is nothing to close if the portal
      can have no such request. */
  lemma ErrorArrives(events: seq<Event>, id: nat, final: bool)
    requires !Run(events).stopped && id in Run(events).requests && Run(events).requests[id].callPending
    ensures var c := Run(events);
            var t := Run(events + [ReplyError(id, final)]);
            var r := c.requests[id].(callPending := false);
            && CalledBack(c, t, id)
            && if r.completed then t.requests[id] == r && t.live == c.live
               else
                 && Ends(r, t.requests[id], Some(CallFailed), false, final)
                 && multiset(t.live) == multiset(c.live) - multiset{id}
  {
    var c := Run(events);
    RunNext(events, ReplyError(id, final));
    hide Run;
    Facts(c, id);
    assert id in Pending(c.requests);
    if !c.requests[id].completed {
      Unfinished(c, id);
    }
    hide Consistent;
    ErrorStep(c, id, final);
    hide Step, Ends;
  }

  lemma ErrorStep(c: Client, id: nat, final: bool)
    requires !c.stopped && Enabled(c, ReplyError(id, final))
    requires var r := c.requests[id];
             if r.completed then id !in c.live
             else
               && r.completions == 0 && r.closes == [] && r.closed == None
               && !r.responded && !r.methodFailed
    ensures var t := Step(c, ReplyError(id, final));
            var r := c.requests[id].(callPending := false);
            && CalledBack(c, t, id)
            && if r.completed then t.requests[id] == r && t.live == c.live
               else
                 && Ends(r, t.requests[id], Some(CallFailed), false, final)
                 && multiset(t.live) == multiset(c.live) - multiset{id}
  {
    var u := RepliedError(c.requests[id], final);
    assert Step(c, ReplyError(id, final)) == CallFinished(Put(c, id, u)) by {
      hide CallFinished, Put, RepliedError;
    }
    hide Step;
    ErrorIs(c.requests[id], final);
    WithoutAbsent(c.live, id);
    hide RepliedError, Without, Ends;
    if !c.requests[id].completed {
      PutEnds(c, id, u);
      hide Put;
    }
  }

  lemma ErrorIs(r: Request, final: bool)
    requires !r.completed ==> r.completions == 0 && r.closes == [] && r.closed == None
                              && !r.responded && !r.methodFailed
    ensures var r0, u := r.(callPending := false), RepliedError(r, final);
            if r.completed then u == r0
            else u.completed && Ends(r0, u, Some(CallFailed), false, final)
  {
    if !r.completed {
      CompleteEnds(r.(callPending := false, methodFailed := final, error := Some(CallFailed)));
      hide Complete;
    }
  }

  // ----- Many at once -----

  /** Every live request fails for this reason, and no other changes. */
  ghost predicate AllFail(c: Client, t: Client, why: Failure) {
    && t == c.(requests := t.requests, live := []) && t.requests.Keys == c.requests.Keys
    && forall id :: id in c.requests ==>
         if c.requests[id].sent && !c.requests[id].completed
         then Ends(c.requests[id], t.requests[id], Some(why), false, false)
         else t.requests[id] == c.requests[id]
  }

  lemma {:induction false} FailLiveFails(c: Client, why: Failure)
    requires LiveExactly(c) && AllCoherent(c.requests)
    ensures AllFail(c, FailLive(c, c.live, why), why)
    decreases |c.live|
  {
    if c.live == [] {
      assert forall id :: id in c.requests ==> !c.requests[id].sent || c.requests[id].completed;
    } else {
      var id := c.live[0];
      FailHead(c, why);
      var u := Put(c, id, Fail(c.requests[id], why));
      HeadEnds(c, u, why);
      hide Put, Fail, LiveExactly, FailLive, AllCoherent, AllFail, Ends;
      FailLiveFails(u, why);
      FailsOn(c, u, FailLive(u, u.live, why), why);
    }
  }

  lemma FailsOn(c: Client, u: Client, t: Client, why: Failure)
    requires c.live != [] && c.live[0] in c.requests && c.live[0] in u.requests
    requires c.requests[c.live[0]].sent && !c.requests[c.live[0]].completed
    requires u.requests[c.live[0]].completed
    requires Ends(c.requests[c.live[0]], u.requests[c.live[0]], Some(why), false, false)
    requires u == c.(requests := c.requests[c.live[0] := u.requests[c.live[0]]], live := u.live)
    requires AllFail(u, t, why)
    ensures AllFail(c, t, why)
  {
    hide Ends;
  }

  lemma HeadEnds(c: Client, u: Client, why: Failure)
    requires LiveExactly(c) && AllCoherent(c.requests) && c.live != [] && c.live[0] in c.requests
    requires u == Put(c, c.live[0], Fail(c.requests[c.live[0]], why))
    ensures var id := c.live[0];
            && c.requests[id].sent && !c.requests[id].completed
            && id in u.requests && u.requests[id].completed && AllCoherent(u.requests)
            && Ends(c.requests[id], u.requests[id], Some(why), false, false)
            && u == c.(requests := c.requests[id := u.requests[id]], live := u.live)
  {
    var id := c.live[0];
    assert id in c.live && Coherent(c.requests[id]);
    CompleteEnds(c.requests[id].(error := Some(why)));
    FailCoherent(c.requests[id], why);
    hide Complete, Coherent, Without;
  }

  /** Cancellation, and a change of the portal's owner, fail every request that is under
      way; the same owner again changes nothing. */
  lemma EveryoneFails(events: seq<Event>, name: Option<string>)
    requires !Run(events).stopped
    ensures var c := Run(events);
            AllFail(c.(cancelled := true), Run(events + [CancelAll]), Cancelled)
    ensures var c := Run(events);
            var t := Run(events + [Owner(name)]);
            if name == c.owner then t == c
            else AllFail(c.(owner := name, ownerGeneration := c.ownerGeneration + 1), t, Invalidated)
  {
    var c := Run(events);
    RunNext(events, CancelAll);
    RunNext(events, Owner(name));
    hide Run;
    assert LiveExactly(c) && AllCoherent(c.requests);
    hide Consistent, AllFail, FailLive, AllCoherent, Coherent;
    FailLiveFails(c.(cancelled := true), Cancelled);
    FailLiveFails(c.(owner := name, ownerGeneration := c.ownerGeneration + 1), Invalidated);
    FailSteps(c, name);
    hide Step, LiveExactly;
  }

  lemma FailSteps(c: Client, name: Option<string>)
    requires !c.stopped
    ensures Step(c, CancelAll) == FailLive(c.(cancelled := true), c.live, Cancelled)
    ensures Step(c, Owner(name))
            == if name == c.owner then c
               else FailLive(c.(owner := name, ownerGeneration := c.ownerGeneration + 1), c.live,
                             Invalidated)
  {
    hide FailLive;
  }

  /** Draining stops at once if nothing is outstanding; a grace period that runs out
      stops the loop the second time. A request is made with nothing in it yet. */
  lemma DrainsAndMakes(events: seq<Event>, id: nat, predicted: Path, generation: nat)
    requires !Run(events).stopped
    ensures var c := Run(events);
            Run(events + [BeginDrain])
            == c.(cancelled := true, draining := true, stopped := c.calls == 0)
    ensures var c := Run(events);
            c.draining ==>
              Run(events + [DrainExpired])
              == c.(expiries := c.expiries + 1, stopped := c.expiries >= 1)
    ensures var c := Run(events);
            id !in c.requests ==>
              Run(events + [Create(id, predicted, generation)])
              == c.(requests := c.requests[id :=
                      Request(predicted, generation, false, false, false, false, None, None, None,
                              None, false, false, 0, [], None)])
  {
    RunNext(events, BeginDrain);
    RunNext(events, DrainExpired);
    RunNext(events, Create(id, predicted, generation));
    hide Run, Consistent, FailLive, StartRequest;
  }
}
