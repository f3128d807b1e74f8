/** What closes sessions and cancels requests in bulk - a close, a token that is gone, a
    grant that has expired, a change of owner, shutdown - said of every request and every
    session, in every run (src/core/context.c, src/core/session.c). */
module RequestClosing {
  import opened Optional
  import opened RequestContext
  import opened RequestInvariant
  import opened RequestSteps

  /** A request hears that its session is gone: the first reason stays, and what is
      running is cancelled. */
  predicate Told(r: Request, code: Code, r': Request) {
    && r' == r.(intent := r'.intent, cancelledCode := r'.cancelledCode, cancelled := r'.cancelled)
    && r'.intent == (if r.intent.Some? then r.intent else Some(code))
    && (if r.answered then r'.cancelledCode == r.cancelledCode && r'.cancelled == r.cancelled
        else
          && r'.cancelled
          && r'.cancelledCode == (if r.cancelledCode == Fine then code else r.cancelledCode))
  }

  /** A request hears that its owner or the backend is gone, whatever it heard before. */
  predicate Overruled(r: Request, code: Code, r': Request) {
    && r' == r.(intent := Some(code), cancelledCode := r'.cancelledCode, cancelled := r'.cancelled)
    && (if r.answered then r'.cancelledCode == r.cancelledCode && r'.cancelled == r.cancelled
        else r'.cancelled && r'.cancelledCode == code)
  }

  /** An open session becomes a closed one. */
  function Shut(s: Session): Session {
    s.(closed := true, device := false, grant := s.grant.(timer := false))
  }

  ghost function Devices(c: Context): set<nat> {
    set x | x in c.sessions && c.sessions[x].device
  }

  predicate InList(c: Context, x: nat) { x in c.listed }

  /** The session is closed, its registered requests have been told, its device is to be
      released and it is off the list; nothing else has changed. */
  ghost predicate SessionOver(c: Context, t: Context, sid: nat, code: Code, invalid: bool) {
    && sid in c.sessions && t.requests.Keys == c.requests.Keys
    && t == c.(requests := t.requests, listed := t.listed,
               releases := if c.sessions[sid].device then c.releases + 1 else c.releases,
               sessions := c.sessions[sid := Shut(if invalid then c.sessions[sid].(invalidating := true)
                                                  else c.sessions[sid])])
    && multiset(t.listed) == multiset(c.listed) - multiset{sid}
    && forall id :: id in c.requests ==>
         if id in c.registered && c.requests[id].session == Some(sid)
         then Told(c.requests[id], code, t.requests[id]) else t.requests[id] == c.requests[id]
  }

  lemma StruckTells(r: Request, code: Code)
    ensures Told(r, code, Struck(r, code, false, true))
    ensures Overruled(r, code, Struck(r, code, true, true))
  {
  }

  lemma {:induction false} WithoutIs(listed: seq<nat>, sid: nat)
    ensures multiset(Without(listed, sid)) == multiset(listed) - multiset{sid}
  {
    if listed != [] {
      var rest := listed[1..];
      assert listed == [listed[0]] + rest;
      if listed[0] != sid {
        WithoutIs(rest, sid);
        assert Without(listed, sid) == [listed[0]] + Without(rest, sid);
      }
    }
  }

  lemma CloseIs(c: Context, sid: nat)
    requires sid in c.sessions && !c.sessions[sid].closed
    ensures SessionOver(c, CloseSession(c, sid), sid, NoSuchSession, false)
  {
    WithoutIs(c.listed, sid);
    forall id | id in c.requests
      ensures Told(c.requests[id], NoSuchSession, Struck(c.requests[id], NoSuchSession, false, true))
    {
      StruckTells(c.requests[id], NoSuchSession);
    }
    hide Struck, Without, Told;
  }

  /** The reason that was given first is the one that counts. */
  lemma ToldAfter(r: Request, code: Code, r': Request)
    requires code != Fine && Told(Struck(r, code, false, false), NoSuchSession, r')
    ensures Told(r, code, r')
  {
  }

  lemma InvalidateIs(c: Context, sid: nat, code: Code)
    requires sid in c.sessions && !c.sessions[sid].closed && !c.sessions[sid].invalidating
    requires code != Fine
    ensures SessionOver(c, Invalidate(c, sid, code), sid, code, true)
  {
    var c1 := StrikeSession(PutSession(c, sid, Invalidating(c.sessions[sid])), sid, code, false);
    var t := CloseSession(c1, sid);
    CloseIs(c1, sid);
    assert Invalidate(c, sid, code) == t by { hide CloseSession, StrikeSession; }
    hide CloseSession, Invalidate;
    assert c1 == c.(requests := c1.requests,
                    sessions := c.sessions[sid := c.sessions[sid].(invalidating := true)]) by {
      hide StruckOf;
    }
    InvalidatedTold(c, c1, t, sid, code);
    hide StrikeSession, Told, SessionOver;
    OverAfter(c, c1, t, sid, code);
  }

  lemma OverAfter(c: Context, c1: Context, t: Context, sid: nat, code: Code)
    requires sid in c.sessions && SessionOver(c1, t, sid, NoSuchSession, false)
    requires c1 == c.(requests := c1.requests,
                      sessions := c.sessions[sid := c.sessions[sid].(invalidating := true)])
    requires t.requests.Keys == c.requests.Keys
    requires forall id :: id in c.requests ==>
               if id in c.registered && c.requests[id].session == Some(sid)
               then Told(c.requests[id], code, t.requests[id]) else t.requests[id] == c.requests[id]
    ensures SessionOver(c, t, sid, code, true)
  {
    hide Told;
  }

  lemma InvalidatedTold(c: Context, c1: Context, t: Context, sid: nat, code: Code)
    requires code != Fine && c1.requests == StruckOf(c.requests, c.registered, sid, code, false)
    requires c1.registered == c.registered && SessionOver(c1, t, sid, NoSuchSession, false)
    ensures t.requests.Keys == c.requests.Keys
    ensures forall id :: id in c.requests ==>
              if id in c.registered && c.requests[id].session == Some(sid)
              then Told(c.requests[id], code, t.requests[id]) else t.requests[id] == c.requests[id]
  {
    hide Struck, Told;
    forall id | id in c.requests
      ensures if id in c.registered && c.requests[id].session == Some(sid)
              then Told(c.requests[id], code, t.requests[id]) else t.requests[id] == c.requests[id]
    {
      StruckSession(c.requests[id], code);
      if id in c.registered && c.requests[id].session == Some(sid) {
        ToldAfter(c.requests[id], code, t.requests[id]);
      }
    }
  }

  lemma StruckSession(r: Request, code: Code)
    ensures Struck(r, code, false, false).session == r.session
  {
  }

  /** A close that was asked for happens, unless the session has been closed meanwhile. */
  lemma CloseCloses(events: seq<Event>, sid: nat)
    requires sid in Run(events).sessions && Run(events).calls[SessionCall(sid)] > 0
    ensures var c := Run(events);
            var t := Run(events + [CallRun(SessionCall(sid))]);
            var c1 := c.(calls := c.calls - multiset{SessionCall(sid)});
            if c.sessions[sid].closed then UpToStop(c1, t)
            else exists u :: SessionOver(c1, u, sid, NoSuchSession, false) && UpToStop(u, t)
  {
    var c := Run(events);
    RunNext(events, CallRun(SessionCall(sid)));
    hide Run, Consistent;
    var c1 := c.(calls := c.calls - multiset{SessionCall(sid)});
    var u := CloseSession(c1, sid);
    assert Step(c, CallRun(SessionCall(sid))) == CheckShutdown(u) by {
      hide CheckShutdown, CloseSession;
    }
    hide Step;
    StopChecked(u);
    hide CheckShutdown;
    if !c.sessions[sid].closed {
      CloseIs(c1, sid);
      hide CloseSession, SessionOver, UpToStop;
    }
  }

  /** A token that is gone, and a grant whose time is over, close the session, and its
      requests hear of that reason, unless the session is closed already. */
  lemma InvalidationCloses(events: seq<Event>, sid: nat)
    requires sid in Run(events).sessions
    ensures var c := Run(events);
            !c.shutdownPosted ==>
              var t := Run(events + [TokenGone(sid)]);
              if c.sessions[sid].closed || c.sessions[sid].invalidating then t == c
              else SessionOver(c, t, sid, TokenRemoved, true)
    ensures var c := Run(events);
            !c.shutdownPosted && c.sessions[sid].grant.timer ==>
              var t := Run(events + [Expired(sid)]);
              var s := c.sessions[sid].(grant := c.sessions[sid].grant.(timer := false));
              var c1 := c.(sessions := c.sessions[sid := s]);
              if s.closed || s.invalidating then t == c1
              else SessionOver(c1, t, sid, DeviceError, true)
  {
    var c := Run(events);
    RunNext(events, TokenGone(sid));
    RunNext(events, Expired(sid));
    hide Run, Consistent, SessionOver;
    if !c.shutdownPosted {
      GoneStep(c, sid);
    }
    if !c.shutdownPosted && c.sessions[sid].grant.timer {
      ExpiredStep(c, sid);
    }
    hide Step;
  }

  lemma GoneStep(c: Context, sid: nat)
    requires Enabled(c, TokenGone(sid))
    ensures var t := Step(c, TokenGone(sid));
            if c.sessions[sid].closed || c.sessions[sid].invalidating then t == c
            else SessionOver(c, t, sid, TokenRemoved, true)
  {
    assert Step(c, TokenGone(sid)) == Invalidate(c, sid, TokenRemoved) by { hide Invalidate; }
    hide Step, SessionOver, CloseSession, StrikeSession, PutSession, Told, Shut;
    if !c.sessions[sid].closed && !c.sessions[sid].invalidating {
      InvalidateIs(c, sid, TokenRemoved);
    }
  }

  lemma ExpiredStep(c: Context, sid: nat)
    requires Enabled(c, Expired(sid))
    ensures var t := Step(c, Expired(sid));
            var s := c.sessions[sid].(grant := c.sessions[sid].grant.(timer := false));
            var c1 := c.(sessions := c.sessions[sid := s]);
            if s.closed || s.invalidating then t == c1
            else SessionOver(c1, t, sid, DeviceError, true)
  {
    var c1 := PutSession(c, sid, ExpiredTimer(c.sessions[sid]));
    assert Step(c, Expired(sid)) == Invalidate(c1, sid, DeviceError) by {
      hide Invalidate, PutSession, ExpiredTimer;
    }
    hide Step, SessionOver, CloseSession, StrikeSession;
    if !c.sessions[sid].closed && !c.sessions[sid].invalidating {
      InvalidateIs(c1, sid, DeviceError);
    }
  }

  // ----- Many at once -----

  /** Nothing is left to tell the request. */
  predicate Heard(r: Request) {
    r.intent.Some? && (!r.answered ==> r.cancelled && r.cancelledCode != Fine)
  }

  lemma HeardStays(r: Request, code: Code, r': Request)
    requires Heard(r) && Told(r, code, r')
    ensures r' == r
  {
  }

  lemma OverruledHeard(r: Request, code: Code, r': Request)
    requires Overruled(r, code, r') && code != Fine
    ensures Heard(r')
  {
  }

  function Count(c: Context, x: nat): nat { multiset(c.listed)[x] }

  /** `s` was open and is closed now, or nothing has happened to it. */
  predicate ClosedOrSame(s: Session, s': Session, invalid: bool) {
    s' == s || (!s.closed && s' == Shut(if invalid then s.(invalidating := true) else s))
  }

  /** A session leaves the list when it is closed, and only then. */
  predicate ListedOrOff(c: Context, t: Context, x: nat)
    requires x in c.sessions && x in t.sessions
  {
    Count(t, x) == if t.sessions[x].closed && !c.sessions[x].closed && Count(c, x) > 0
                   then Count(c, x) - 1 else Count(c, x)
  }

  /** Sessions have been closed, each once, their devices are to be released, and no
      request had anything more to hear. */
  ghost predicate ManyClosed(c: Context, t: Context, invalid: bool) {
    && t == c.(sessions := t.sessions, listed := t.listed, releases := t.releases)
    && t.sessions.Keys == c.sessions.Keys
    && t.releases + |Devices(t)| == c.releases + |Devices(c)|
    && forall x :: x in c.sessions ==>
         ClosedOrSame(c.sessions[x], t.sessions[x], invalid) && ListedOrOff(c, t, x)
  }

  lemma ManyNone(c: Context, invalid: bool)
    ensures ManyClosed(c, c, invalid)
  {
  }

  ghost predicate AllHeard(c: Context, sid: nat) {
    forall id :: id in c.registered && id in c.requests && c.requests[id].session == Some(sid) ==>
      Heard(c.requests[id])
  }

  lemma OneClosed(c: Context, t: Context, sid: nat, code: Code, invalid: bool)
    requires SessionOver(c, t, sid, code, invalid) && !c.sessions[sid].closed && AllHeard(c, sid)
    ensures ManyClosed(c, t, invalid)
  {
    NothingNew(c, t, sid, code, invalid);
    DevicesCounted(c, t, sid);
    hide Told, Devices, AllHeard;
  }

  lemma NothingNew(c: Context, t: Context, sid: nat, code: Code, invalid: bool)
    requires SessionOver(c, t, sid, code, invalid) && AllHeard(c, sid)
    ensures t.requests == c.requests
  {
    hide Told, Heard, Shut;
    forall id | id in c.requests ensures t.requests[id] == c.requests[id] {
      if id in c.registered && c.requests[id].session == Some(sid) {
        HeardStays(c.requests[id], code, t.requests[id]);
      }
    }
  }

  lemma DevicesCounted(c: Context, t: Context, sid: nat)
    requires sid in c.sessions && t.sessions.Keys == c.sessions.Keys && !t.sessions[sid].device
    requires forall x :: x in c.sessions && x != sid ==> t.sessions[x] == c.sessions[x]
    ensures |Devices(t)| + (if c.sessions[sid].device then 1 else 0) == |Devices(c)|
  {
    assert Devices(t) == Devices(c) - {sid};
    assert c.sessions[sid].device <==> sid in Devices(c);
  }

  lemma ManyAndOne(c: Context, u: Context, t: Context, invalid: bool)
    requires ManyClosed(c, u, invalid) && ManyClosed(u, t, invalid)
    ensures ManyClosed(c, t, invalid)
  {
    forall x | x in c.sessions
      ensures ClosedOrSame(c.sessions[x], t.sessions[x], invalid) && ListedOrOff(c, t, x)
    {
      assert ClosedOrSame(c.sessions[x], u.sessions[x], invalid) && ListedOrOff(c, u, x);
      assert ClosedOrSame(u.sessions[x], t.sessions[x], invalid) && ListedOrOff(u, t, x);
    }
    hide Devices, Count;
  }

  /** A session of another owner. */
  predicate Elsewhere(c: Context, x: nat) {
    x in c.sessions && c.sessions[x].generation != c.generation
  }

  /** The sessions on the list that belong to another owner are closed, and no other. */
  lemma {:induction false} CloseEachIs(c: Context, sids: seq<nat>)
    requires forall x :: Elsewhere(c, x) ==> AllHeard(c, x)
    ensures var t := CloseEach(c, sids);
            && ManyClosed(c, t, false)
            && forall x :: x in c.sessions ==>
                 (t.sessions[x].closed
                  <==> c.sessions[x].closed || (x in sids && Elsewhere(c, x)))
    decreases |sids|
  {
    hide CloseSession, ManyClosed, SessionOver, AllHeard;
    ManyNone(c, false);
    if sids != [] {
      var sid := sids[0];
      var u := if Elsewhere(c, sid) then CloseSession(c, sid) else c;
      CloseOne(c, sid);
      assert ManyClosed(c, u, false);
      assert forall x :: Elsewhere(u, x) ==> AllHeard(u, x);
      CloseEachIs(u, sids[1..]);
      ManyAndOne(c, u, CloseEach(u, sids[1..]), false);
      assert forall x :: x in sids <==> x == sid || x in sids[1..];
      assert CloseEach(c, sids) == CloseEach(u, sids[1..]) by { CloseUnrolled(c, sids); }
      hide CloseEach;
    }
  }

  lemma CloseUnrolled(c: Context, sids: seq<nat>)
    requires sids != []
    ensures CloseEach(c, sids)
            == CloseEach(if Elsewhere(c, sids[0]) then CloseSession(c, sids[0]) else c, sids[1..])
  {
    hide CloseSession;
  }

  lemma CloseOne(c: Context, sid: nat)
    requires forall x :: Elsewhere(c, x) ==> AllHeard(c, x)
    ensures var u := if Elsewhere(c, sid) then CloseSession(c, sid) else c;
            && ManyClosed(c, u, false)
            && (forall x :: Elsewhere(u, x) ==> AllHeard(u, x))
            && (forall x :: Elsewhere(u, x) <==> Elsewhere(c, x))
            && u.sessions.Keys == c.sessions.Keys
            && (forall x :: x in c.sessions ==>
                  (u.sessions[x].closed
                   <==> c.sessions[x].closed || (x == sid && Elsewhere(c, x))))
  {
    hide AllHeard;
    ManyNone(c, false);
    if Elsewhere(c, sid) && !c.sessions[sid].closed {
      var u := CloseSession(c, sid);
      CloseIs(c, sid);
      hide CloseSession;
      OneClosed(c, u, sid, NoSuchSession, false);
      NothingNew(c, u, sid, NoSuchSession, false);
      OverElsewhere(c, u, sid, NoSuchSession, false);
      hide SessionOver, ManyClosed, Shut;
      forall x ensures AllHeard(u, x) <==> AllHeard(c, x) { SameHeard(c, u, x); }
    }
  }

  lemma OverElsewhere(c: Context, t: Context, sid: nat, code: Code, invalid: bool)
    requires SessionOver(c, t, sid, code, invalid)
    ensures t.registered == c.registered && t.generation == c.generation
    ensures t.sessions.Keys == c.sessions.Keys && t.sessions[sid].closed
    ensures forall x :: x in c.sessions ==> t.sessions[x].generation == c.sessions[x].generation
    ensures forall x :: x in c.sessions && x != sid ==> t.sessions[x] == c.sessions[x]
  {
    hide Told;
  }

  lemma SameHeard(c: Context, u: Context, x: nat)
    requires u.requests == c.requests && u.registered == c.registered
    ensures AllHeard(u, x) <==> AllHeard(c, x)
  {
    hide Heard;
  }

  /** Every session on the list that is open and not being invalidated is closed. */
  lemma {:induction false} InvalidateEachIs(c: Context, sids: seq<nat>, code: Code)
    requires code != Fine && forall x :: AllHeard(c, x)
    ensures var t := InvalidateEach(c, sids, code);
            && ManyClosed(c, t, true)
            && forall x :: x in c.sessions ==>
                 (t.sessions[x].closed
                  <==> c.sessions[x].closed || (x in sids && !c.sessions[x].invalidating))
    decreases |sids|
  {
    hide Invalidate, ManyClosed, SessionOver, AllHeard;
    ManyNone(c, true);
    if sids != [] {
      var sid := sids[0];
      var u := if sid in c.sessions then Invalidate(c, sid, code) else c;
      InvalidateOne(c, sid, code);
      assert ManyClosed(c, u, true) && forall x :: AllHeard(u, x);
      InvalidateEachIs(u, sids[1..], code);
      ManyAndOne(c, u, InvalidateEach(u, sids[1..], code), true);
      assert forall x :: x in sids <==> x == sid || x in sids[1..];
      assert InvalidateEach(c, sids, code) == InvalidateEach(u, sids[1..], code);
      hide InvalidateEach;
    }
  }

  lemma InvalidateOne(c: Context, sid: nat, code: Code)
    requires code != Fine && forall x :: AllHeard(c, x)
    ensures var u := if sid in c.sessions then Invalidate(c, sid, code) else c;
            && ManyClosed(c, u, true) && (forall x :: AllHeard(u, x))
            && u.sessions.Keys == c.sessions.Keys
            && (forall x :: x in c.sessions && x != sid ==> u.sessions[x] == c.sessions[x])
            && (sid in c.sessions ==>
                  if c.sessions[sid].closed || c.sessions[sid].invalidating then u == c
                  else u.sessions[sid].closed)
  {
    hide AllHeard;
    ManyNone(c, true);
    if sid in c.sessions && !c.sessions[sid].closed && !c.sessions[sid].invalidating {
      var u := Invalidate(c, sid, code);
      InvalidateIs(c, sid, code);
      hide Invalidate;
      OneClosed(c, u, sid, code, true);
      NothingNew(c, u, sid, code, true);
      OverElsewhere(c, u, sid, code, true);
      hide SessionOver, ManyClosed, Shut;
      forall x ensures AllHeard(u, x) { SameHeard(c, u, x); }
    }
    hide CloseSession, StrikeSession;
  }

  // ----- A change of owner, and shutdown -----

  /** The new owner's generation is in force, and sessions have been closed. */
  ghost predicate Swept(c: Context, t: Context, requests: map<nat, Request>, invalid: bool) {
    && t == c.(requests := requests, sessions := t.sessions, listed := t.listed,
               releases := t.releases, shutdownPosted := t.shutdownPosted, stops := t.stops)
    && t.sessions.Keys == c.sessions.Keys
    && t.releases + |Devices(t)| == c.releases + |Devices(c)|
    && (forall x :: x in c.sessions ==>
          && ClosedOrSame(c.sessions[x], t.sessions[x], invalid)
          && (t.shutdownPosted || ListedOrOff(c, t, x)))
  }

  lemma SweptUpToStop(c: Context, c1: Context, u: Context, t: Context, invalid: bool)
    requires ManyClosed(c1, u, invalid) && UpToStop(u, t) && c1 == c.(requests := c1.requests)
    ensures Swept(c, t, c1.requests, invalid)
  {
    assert Devices(c1) == Devices(c) && Devices(u) == Devices(t);
    forall x | x in c.sessions
      ensures ClosedOrSame(c.sessions[x], t.sessions[x], invalid)
              && (t.shutdownPosted || ListedOrOff(c, t, x))
    {
      assert ClosedOrSame(c1.sessions[x], u.sessions[x], invalid) && ListedOrOff(c1, u, x);
    }
  }

  /** In any state: when the frontend's owner changes, exactly the registered requests of
      another number - their session's if they have one, else their own - hear that their
      owner is gone, and exactly the listed sessions of another number are closed, if they
      are not closed already. When the context shuts down, every registered request hears
      that the backend is gone, and every listed session is closed that is open and not
      being invalidated already. */
  lemma OwnerChangeReachesAll(c: Context, generation: nat, id: nat, sid: nat)
    requires id in c.requests && sid in c.sessions
    ensures var t := RunGeneration(c, generation);
            var r, s := c.requests[id], c.sessions[sid];
            && id in t.requests && sid in t.sessions
            && (if id in c.registered
                   && (if r.session.Some? && r.session.value in c.sessions
                       then c.sessions[r.session.value].generation else r.generation) != generation
                then Overruled(r, OwnerGone, t.requests[id]) else t.requests[id] == r)
            && (t.sessions[sid].closed
                <==> s.closed || (sid in c.listed && s.generation != generation))
    ensures var t := RunShutdown(c);
            && id in t.requests && sid in t.sessions
            && (if id in c.registered then Overruled(c.requests[id], BackendGone, t.requests[id])
                else t.requests[id] == c.requests[id])
            && (t.sessions[sid].closed
                <==> c.sessions[sid].closed || (sid in c.listed && !c.sessions[sid].invalidating))
  {
    hide CloseEach, InvalidateEach, StruckAll, Overruled;
    var g, d := c.(generation := generation), c.(stopping := true);
    StrikeAllIs(g, OwnerGone, false);
    StrikeAllIs(d, BackendGone, true);
    CloseEachIs(StrikeAll(g, OwnerGone, false), c.listed);
    InvalidateEachIs(StrikeAll(d, BackendGone, true), c.listed, BackendGone);
  }

  /** The same in every run, with all else that the change does: the new number is in
      force, each session that is closed leaves the list, and its device is to be
      released. */
  lemma OwnerChanges(events: seq<Event>, generation: nat)
    requires Run(events).calls[GenerationCall(generation)] > 0
    ensures var c := Run(events);
            var t := Run(events + [CallRun(GenerationCall(generation))]);
            && Swept(c.(generation := generation,
                        calls := c.calls - multiset{GenerationCall(generation)}),
                     t, t.requests, false)
            && t.requests.Keys == c.requests.Keys
            && (forall id :: id in c.requests ==>
                  var r := c.requests[id];
                  if id in c.registered
                     && (if r.session.Some? && r.session.value in c.sessions
                         then c.sessions[r.session.value].generation else r.generation) != generation
                  then Overruled(r, OwnerGone, t.requests[id])
                  else t.requests[id] == r)
            && (forall sid :: sid in c.sessions ==>
                  (t.sessions[sid].closed
                   <==> c.sessions[sid].closed
                        || (sid in c.listed && c.sessions[sid].generation != generation)))
  {
    var c := Run(events);
    var call := GenerationCall(generation);
    RunNext(events, CallRun(call));
    hide Run, Consistent;
    var c0 := c.(generation := generation, calls := c.calls - multiset{call});
    var c1 := StrikeAll(c0, OwnerGone, false);
    var u := CloseEach(c1, c1.listed);
    GenerationStep(c, generation);
    hide Step, CloseEach, ManyClosed, Swept, UpToStop, Overruled, StrikeAll, Enabled;
    StrikeAllIs(c0, OwnerGone, false);
    CloseEachIs(c1, c1.listed);
    var t := Step(c, CallRun(call));
    SweptUpToStop(c0, c1, u, t, false);
    SweptParts(c0, t, c1.requests, false);
    SessionsUpToStop(u, t);
  }

  lemma SessionsUpToStop(u: Context, t: Context)
    requires UpToStop(u, t)
    ensures t.sessions == u.sessions
  {
  }

  lemma GenerationStep(c: Context, generation: nat)
    requires Enabled(c, CallRun(GenerationCall(generation)))
    ensures var c0 := c.(generation := generation,
                         calls := c.calls - multiset{GenerationCall(generation)});
            var c1 := StrikeAll(c0, OwnerGone, false);
            UpToStop(CloseEach(c1, c1.listed), Step(c, CallRun(GenerationCall(generation))))
  {
    var c0 := c.(generation := generation, calls := c.calls - multiset{GenerationCall(generation)});
    var c1 := StrikeAll(c0, OwnerGone, false);
    hide CheckShutdown, CloseEach, StruckAll, UpToStop;
    StopChecked(CloseEach(c1, c1.listed));
  }

  lemma SweptParts(c: Context, t: Context, requests: map<nat, Request>, invalid: bool)
    requires Swept(c, t, requests, invalid)
    ensures t.requests == requests && t.sessions.Keys == c.sessions.Keys
  {
  }

  lemma StrikeAllIs(c: Context, code: Code, all: bool)
    requires code != Fine
    ensures var t := StrikeAll(c, code, all);
            && t == c.(requests := t.requests) && t.requests.Keys == c.requests.Keys
            && (forall id :: id in c.requests ==>
                  var r := c.requests[id];
                  if id in c.registered
                     && (all || (if r.session.Some? && r.session.value in c.sessions
                                 then c.sessions[r.session.value].generation else r.generation)
                                != c.generation)
                  then Overruled(r, code, t.requests[id]) else t.requests[id] == r)
            && (forall x :: all || Elsewhere(c, x) ==> AllHeard(t, x))
  {
    var t := StrikeAll(c, code, all);
    hide Struck, Overruled, Heard;
    forall id | id in c.requests
      ensures Overruled(c.requests[id], code, Struck(c.requests[id], code, true, true))
      ensures Heard(Struck(c.requests[id], code, true, true))
      ensures Struck(c.requests[id], code, true, true).session == c.requests[id].session
    {
      StruckTells(c.requests[id], code);
      OverruledHeard(c.requests[id], code, Struck(c.requests[id], code, true, true));
      StruckSame(c.requests[id], code, true, true);
    }
  }

  /** Shutdown: every registered request hears that the backend is gone, and every listed
      session is closed that is open and not being invalidated already. */
  lemma ShutdownReaches(events: seq<Event>)
    requires Run(events).calls[ShutdownStart] > 0
    ensures var c := Run(events);
            var t := Run(events + [CallRun(ShutdownStart)]);
            && Swept(c.(stopping := true, calls := c.calls - multiset{ShutdownStart}),
                     t, t.requests, true)
            && t.requests.Keys == c.requests.Keys
            && (forall id :: id in c.requests ==>
                  if id in c.registered then Overruled(c.requests[id], BackendGone, t.requests[id])
                  else t.requests[id] == c.requests[id])
            && (forall sid :: sid in c.sessions ==>
                  (t.sessions[sid].closed
                   <==> c.sessions[sid].closed
                        || (sid in c.listed && !c.sessions[sid].invalidating)))
  {
    var c := Run(events);
    RunNext(events, CallRun(ShutdownStart));
    hide Run, Consistent;
    var c0 := c.(stopping := true, calls := c.calls - multiset{ShutdownStart});
    var c1 := StrikeAll(c0, BackendGone, true);
    var u := InvalidateEach(c1, c1.listed, BackendGone);
    assert Step(c, CallRun(ShutdownStart)) == CheckShutdown(u) by {
      hide CheckShutdown, InvalidateEach, StruckAll;
    }
    hide Step;
    StopChecked(u);
    hide CheckShutdown, InvalidateEach, ManyClosed, Swept, UpToStop, Overruled, StrikeAll;
    StrikeAllIs(c0, BackendGone, true);
    InvalidateEachIs(c1, c1.listed, BackendGone);
    SweptUpToStop(c0, c1, u, CheckShutdown(u), true);
    SweptParts(c0, CheckShutdown(u), c1.requests, true);
  }
}
