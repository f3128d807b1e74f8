/** What each call of the PKCS#11 module does, said of the module's variables, in every
    run (src/module/module.c). */
module PortalModuleSteps {
  import opened Optional
  import opened PortalModule
  import opened PortalModuleInvariant

  lemma RunNext(events: seq<Event>, e: Event)
    ensures Run(events + [e]) == Step(Run(events), e) && Good(Run(events))
  {
    RunGood(events);
    assert (events + [e])[..|events|] == events;
    hide Step, Good;
  }

  /** There is a grant that neither the portal nor its time has ended. */
  predicate InForce(m: Pkcs) {
    m.grant.Some? && m.grant.value !in m.gone && m.grant.value !in m.expired
  }

  /** The end of a grant is noticed: every session goes with it, and it is given back if
      it was its time that ended it. A grant in force, or none, changes nothing. */
  predicate Checked(m: Pkcs, t: Pkcs) {
    if m.grant.None? || InForce(m) then t == m
    else
      t == m.(grant := None, objects := None, sessions := map[], loggedIn := false,
              ids := m.ids.(generation := m.ids.generation + 1),
              released := if m.grant.value in m.gone then m.released
                          else m.released + multiset{m.grant.value})
  }

  /** The grant is let go: it is given back unless the portal has ended it, its objects
      are gone, and no operation that began with it can go on. */
  ghost predicate LetGo(m: Pkcs, t: Pkcs) {
    && t == m.(grant := None, objects := None, sessions := t.sessions,
               ids := m.ids.(generation := m.ids.generation + 1),
               released := if m.grant.Some? && m.grant.value !in m.gone
                           then m.released + multiset{m.grant.value} else m.released)
    && t.sessions.Keys == m.sessions.Keys
    && forall h :: h in m.sessions ==>
         t.sessions[h] == m.sessions[h].(sign := None, decrypt := None)
  }

  lemma CheckChecks(m: Pkcs)
    ensures Checked(m, Check(m))
  {
    hide ResetAll;
  }

  lemma ReleaseLetsGo(m: Pkcs)
    ensures LetGo(m, Release(m))
  {
  }

  // ----- Operations -----

  /** The handle of the private key of the grant in force. */
  predicate IsKey(m: Pkcs, key: nat) { key == m.ids.generation * 16 % 0x1_0000_0000 + 3 }

  /** An operation starts exactly if the session is there, has none of its kind, the
      grant is in force, the handle is that of its private key, and it is permitted.
      Otherwise nothing happens but that the end of the grant is noticed. */
  lemma OperationStarts(events: seq<Event>, handle: nat, key: nat, permitted: bool)
    requires Run(events).initialized
    ensures var m := Run(events);
            var t := Run(events + [SignBegins(handle, key, permitted)]);
            if InForce(m) && IsKey(m, key) && permitted && handle in m.sessions
               && m.sessions[handle].sign.None?
            then t == m.(sessions := m.sessions[handle := m.sessions[handle].(sign := m.grant)])
            else Checked(m, t)
    ensures var m := Run(events);
            var t := Run(events + [DecryptBegins(handle, key, permitted)]);
            if InForce(m) && IsKey(m, key) && permitted && handle in m.sessions
               && m.sessions[handle].decrypt.None?
            then t == m.(sessions := m.sessions[handle := m.sessions[handle].(decrypt := m.grant)])
            else Checked(m, t)
  {
    var m := Run(events);
    RunNext(events, SignBegins(handle, key, permitted));
    RunNext(events, DecryptBegins(handle, key, permitted));
    hide Run;
    assert GrantGood(m);
    hide Good;
    BeginSteps(m, handle, key, permitted);
    hide Step, Checked;
  }

  lemma BeginSteps(m: Pkcs, handle: nat, key: nat, permitted: bool)
    requires m.initialized && GrantGood(m)
    ensures var t := Step(m, SignBegins(handle, key, permitted));
            if InForce(m) && IsKey(m, key) && permitted && handle in m.sessions
               && m.sessions[handle].sign.None?
            then t == m.(sessions := m.sessions[handle := m.sessions[handle].(sign := m.grant)])
            else Checked(m, t)
    ensures var t := Step(m, DecryptBegins(handle, key, permitted));
            if InForce(m) && IsKey(m, key) && permitted && handle in m.sessions
               && m.sessions[handle].decrypt.None?
            then t == m.(sessions := m.sessions[handle := m.sessions[handle].(decrypt := m.grant)])
            else Checked(m, t)
  {
    CheckChecks(m);
    assert m.objects.Some? ==> (IsKey(m, key) <==> key == ObjectHandle(m.objects.value, PRIVATE_KEY));
    hide IsKey, ObjectHandle, Check;
    assert Check(m).grant.Some? ==> Check(m) == m;
  }

  /** The end of an operation or of a search is the session's own. */
  lemma EndsAreOwn(events: seq<Event>, handle: nat)
    requires Run(events).initialized
    ensures var m := Run(events);
            var t := Run(events + [OperationEnds(handle)]);
            exists u :: && Checked(m, u)
                        && t == if handle !in u.sessions then u
                                else u.(sessions := u.sessions[handle :=
                                          u.sessions[handle].(sign := None, decrypt := None)])
    ensures var m := Run(events);
            var t := Run(events + [SearchEnds(handle)]);
            exists u :: && Checked(m, u)
                        && t == if handle !in u.sessions then u
                                else u.(sessions := u.sessions[handle :=
                                          u.sessions[handle].(found := None)])
  {
    var m := Run(events);
    RunNext(events, OperationEnds(handle));
    RunNext(events, SearchEnds(handle));
    hide Run, Good;
    CheckChecks(m);
    hide Check, Checked;
  }

  // ----- Searching -----

  /** The session instance a search began with is there and not busy. */
  predicate Awaits(m: Pkcs, call: Call) {
    && call.handle in m.sessions && m.sessions[call.handle].serial == call.serial
    && m.sessions[call.handle].found.None?
  }

  /** The results of a search, over the objects of this generation if any. */
  function Results(m: Pkcs, call: Call, objects: Option<nat>): Pkcs
    requires call.handle in m.sessions
  {
    m.(sessions := m.sessions[call.handle := m.sessions[call.handle].(found := Some(Find(call, objects)))])
  }

  function Asking(m: Pkcs, call: Call): Pkcs
    requires m.client.Some?
  {
    m.(acquiring := true,
       acquirers := m.acquirers + multiset{Acquirer(call, m.client.value, m.ids.generation)})
  }

  /** A search that begins: refused if the module is down or going down, or if its session
      is gone or busy; waiting if another
      thread acquires; with the objects of the grant in force; without any if nobody is
      to be asked; otherwise it acquires. */
  lemma SearchStarts(events: seq<Event>, handle: nat, asks: bool)
    ensures var m := Run(events);
            var t := Run(events + [SearchBegins(handle, asks)]);
            if !m.initialized || m.finalizing then t == m
            else if m.grant.Some? && !InForce(m) then Checked(m, t)
            else if handle !in m.sessions || m.sessions[handle].found.Some? then t == m
            else
              var call := Call(handle, m.ids.lifecycle, m.sessions[handle].serial);
              if m.acquiring then t == m.(waiting := m.waiting + multiset{call})
              else if InForce(m) then t == Results(m, call, m.objects)
              else if !asks || m.client.None? then t == Results(m, call, None)
              else t == Asking(m, call)
  {
    var m := Run(events);
    RunNext(events, SearchBegins(handle, asks));
    hide Run, Good;
    CheckChecks(m);
    CheckChecks(Check(m));
    hide Check;
  }

  /** A search that has waited: nothing happens if the module is going down or has been
      set up anew; and its session must be the very instance it began with. */
  lemma SearchGoesOn(events: seq<Event>, call: Call, asks: bool)
    requires Run(events).waiting[call] > 0
    requires Run(events).finalizing || !Run(events).acquiring
    ensures var m := Run(events);
            var t := Run(events + [SearchWakes(call, asks)]);
            var w := m.(waiting := m.waiting - multiset{call});
            if m.finalizing || !m.initialized || m.ids.lifecycle != call.lifecycle then t == w
            else if m.grant.Some? && !InForce(m) then Checked(w, t)
            else if call.handle !in m.sessions || m.sessions[call.handle].serial != call.serial then t == w
            else if m.grant.None? && asks && m.client.Some? then t == Asking(w, call)
            else if m.sessions[call.handle].found.Some? then t == w
            else t == Results(w, call, m.objects)
  {
    var m := Run(events);
    RunNext(events, SearchWakes(call, asks));
    hide Run;
    assert m.grant.None? ==> m.objects.None?;
    hide Good;
    WakeStep(m, call, asks);
    hide Step, Checked;
  }

  lemma WakeStep(m: Pkcs, call: Call, asks: bool)
    requires Enabled(m, SearchWakes(call, asks)) && (m.grant.None? ==> m.objects.None?)
    ensures var t := Step(m, SearchWakes(call, asks));
            var w := m.(waiting := m.waiting - multiset{call});
            if m.finalizing || !m.initialized || m.ids.lifecycle != call.lifecycle then t == w
            else if m.grant.Some? && !InForce(m) then Checked(w, t)
            else if call.handle !in m.sessions || m.sessions[call.handle].serial != call.serial then t == w
            else if m.grant.None? && asks && m.client.Some? then t == Asking(w, call)
            else if m.sessions[call.handle].found.Some? then t == w
            else t == Results(w, call, m.objects)
  {
    var w := m.(waiting := m.waiting - multiset{call});
    assert Step(m, SearchWakes(call, asks)) == Ensure(w, call, asks) by { hide Ensure; }
    hide Step;
    CheckChecks(w);
    CheckChecks(Check(w));
    hide Check;
  }

  // ----- An acquisition returns -----

  /** The search ends without a grant of its own: with no objects, if its session still
      awaits results, and not at all while the module goes down. */
  predicate EndsBare(m: Pkcs, t: Pkcs, call: Call) {
    if m.finalizing then t == m
    else if m.grant.Some? && !InForce(m) then Checked(m, t)
    else if !Awaits(m, call) then t == m
    else t == Results(m, call, None)
  }

  /** The acquisition is over and its grant, if there is one, has been counted. */
  function Over(m: Pkcs, a: Acquirer, grants: nat): Pkcs {
    m.(acquiring := false, acquirers := m.acquirers - multiset{a}, ids := m.ids.(grants := grants))
  }

  /** A grant that arrives is put in force exactly if nothing has been released since its
      acquisition began, the module is not going down, the session instance is still
      there and the objects of the certificate could be made; the search then has them.
      Otherwise the grant goes back to the portal, on the spot or as it is let go again,
      and the search ends without. Either way the next acquisition may begin. */
  lemma AcquisitionLands(events: seq<Event>, a: Acquirer, made: bool)
    requires Run(events).acquirers[a] > 0
    ensures var m := Run(events);
            var t := Run(events + [AcquisitionReturns(a, Some(made))]);
            Placement(m, t, a, made)
  {
    var m := Run(events);
    RunNext(events, AcquisitionReturns(a, Some(made)));
    hide Run;
    LandsReady(m, a);
    LandStep(m, a, made);
    hide Good, Step, Placement, Landing, Arrived;
    if m.ids.generation == a.generation && !m.finalizing && Same(m, a.call) {
      PlacedIs(m, a, made);
    } else {
      GoesBack(m, a, made);
    }
  }

  lemma LandStep(m: Pkcs, a: Acquirer, made: bool)
    requires m.acquirers[a] > 0
    ensures Step(m, AcquisitionReturns(a, Some(made)))
            == Arrived(Over(m, a, m.ids.grants + 1), a, m.ids.grants, made)
  {
    hide Arrived;
  }

  predicate Same(m: Pkcs, call: Call) {
    call.handle in m.sessions && m.sessions[call.handle].serial == call.serial
  }

  ghost predicate Placement(m: Pkcs, t: Pkcs, a: Acquirer, made: bool) {
    var g, n := m.ids.grants, m.ids.generation + 1;
    var l := Over(m, a, g + 1);
    if m.ids.generation == a.generation && !m.finalizing && Same(m, a.call) then
      if made then
        var i := l.(grant := Some(g), objects := Some(n), ids := l.ids.(generation := n),
                    installed := m.installed + [(g, n)]);
        if !InForce(i) then Checked(i, t)
        else t == if m.sessions[a.call.handle].found.Some? then i else Results(i, a.call, Some(n))
      else
        EndsBare(l.(released := if g in m.gone then m.released else m.released + multiset{g},
                    ids := l.ids.(generation := n + 1), installed := m.installed + [(g, n)]),
                 t, a.call)
    else EndsBare(l.(released := m.released + multiset{g}), t, a.call)
  }

  /** What holds when an acquisition returns. */
  ghost predicate Landing(m: Pkcs, a: Acquirer) {
    && m.initialized && m.client == Some(a.client) && a.call.lifecycle == m.ids.lifecycle
    && (a.generation == m.ids.generation ==>
          m.grant.None? && m.objects.None?
          && forall h :: h in m.sessions ==> m.sessions[h].sign.None? && m.sessions[h].decrypt.None?)
  }

  lemma LandsReady(m: Pkcs, a: Acquirer)
    requires Good(m) && m.acquirers[a] > 0
    ensures Landing(m, a)
  {
    assert AcquirerGood(m, a);
    if a.generation == m.ids.generation {
      forall h | h in m.sessions ensures m.sessions[h].sign.None? && m.sessions[h].decrypt.None? {
        assert SessionGood(m.sessions[h], h, m);
      }
    }
  }

  lemma StoreBare(m: Pkcs, call: Call)
    requires m.initialized && m.ids.lifecycle == call.lifecycle
    ensures EndsBare(m, Store(m, call, false), call)
  {
    CheckChecks(m);
    hide Check;
  }

  /** Not put in force. */
  lemma GoesBack(m: Pkcs, a: Acquirer, made: bool)
    requires Landing(m, a)
    requires !(m.ids.generation == a.generation && !m.finalizing && Same(m, a.call))
    ensures Placement(m, Arrived(Over(m, a, m.ids.grants + 1), a, m.ids.grants, made), a, made)
  {
    var l := Over(m, a, m.ids.grants + 1);
    ArrivedBack(l, a, m.ids.grants, made);
    StoreBare(l.(released := m.released + multiset{m.ids.grants}), a.call);
    hide Arrived, Store, EndsBare, Landing;
    BackIsPlaced(m, Arrived(l, a, m.ids.grants, made), a, made);
  }

  lemma BackIsPlaced(m: Pkcs, t: Pkcs, a: Acquirer, made: bool)
    requires !(m.ids.generation == a.generation && !m.finalizing && Same(m, a.call))
    requires EndsBare(Over(m, a, m.ids.grants + 1).(released := m.released + multiset{m.ids.grants}),
                      t, a.call)
    ensures Placement(m, t, a, made)
  {
    hide EndsBare;
  }

  lemma ArrivedBack(l: Pkcs, a: Acquirer, g: nat, made: bool)
    requires Landing(l, a)
    requires !(l.ids.generation == a.generation && !l.finalizing && Same(l, a.call))
    ensures Arrived(l, a, g, made)
            == Store(l.(released := l.released + multiset{g}), a.call, false)
  {
    CheckChecks(l);
    hide Store, Placed, Check;
  }

  lemma PlacedIs(m: Pkcs, a: Acquirer, made: bool)
    requires Landing(m, a) && m.ids.generation == a.generation && !m.finalizing && Same(m, a.call)
    ensures Placement(m, Arrived(Over(m, a, m.ids.grants + 1), a, m.ids.grants, made), a, made)
  {
    var g := m.ids.grants;
    var l := Over(m, a, g + 1);
    ArrivedIs(l, a, g, made);
    hide Arrived, Placement, Store, Install, Landing;
    if made {
      PlacedMade(m, a);
    } else {
      PlacedUnmade(m, a);
    }
  }

  lemma PlacedMade(m: Pkcs, a: Acquirer)
    requires Landing(m, a) && m.ids.generation == a.generation && !m.finalizing && Same(m, a.call)
    ensures Placement(m, Store(Install(Over(m, a, m.ids.grants + 1), m.ids.grants, true), a.call, true),
                      a, true)
  {
    StoreFull(Install(Over(m, a, m.ids.grants + 1), m.ids.grants, true), a.call);
    hide Store, Release, Checked, EndsBare;
  }

  lemma PlacedUnmade(m: Pkcs, a: Acquirer)
    requires Landing(m, a) && m.ids.generation == a.generation && !m.finalizing && Same(m, a.call)
    ensures Placement(m, Store(Install(Over(m, a, m.ids.grants + 1), m.ids.grants, false), a.call, false),
                      a, false)
  {
    var l := Over(m, a, m.ids.grants + 1);
    LetGoAtOnce(l, m.ids.grants);
    hide Install, Store, EndsBare;
    StoreBare(Install(l, m.ids.grants, false), a.call);
  }

  lemma ArrivedIs(l: Pkcs, a: Acquirer, g: nat, made: bool)
    requires Landing(l, a) && l.ids.generation == a.generation && !l.finalizing && Same(l, a.call)
    ensures Arrived(l, a, g, made) == Store(Install(l, g, made), a.call, made)
  {
    CheckChecks(l);
    hide Store, Install, Check;
  }

  lemma LetGoAtOnce(l: Pkcs, g: nat)
    requires l.grant.None? && l.objects.None?
    requires forall h :: h in l.sessions ==> l.sessions[h].sign.None? && l.sessions[h].decrypt.None?
    ensures var n := l.ids.generation + 1;
            Install(l, g, false)
            == l.(released := if g in l.gone then l.released else l.released + multiset{g},
                  ids := l.ids.(generation := n + 1), installed := l.installed + [(g, n)])
  {
    assert ResetAll(l.sessions) == l.sessions;
    hide ResetAll;
  }

  lemma StoreFull(i: Pkcs, call: Call)
    requires i.initialized && !i.finalizing && i.ids.lifecycle == call.lifecycle && Same(i, call)
    requires i.grant.Some?
    ensures var t := Store(i, call, true);
            if !InForce(i) then Checked(i, t)
            else t == if i.sessions[call.handle].found.Some? then i else Results(i, call, i.objects)
  {
    CheckChecks(i);
    hide Check;
  }

  /** An acquisition that failed. */
  lemma AcquisitionFails(events: seq<Event>, a: Acquirer)
    requires Run(events).acquirers[a] > 0
    ensures var m := Run(events);
            EndsBare(Over(m, a, m.ids.grants), Run(events + [AcquisitionReturns(a, None)]), a.call)
  {
    var m := Run(events);
    RunNext(events, AcquisitionReturns(a, None));
    hide Run;
    LandsReady(m, a);
    hide Good;
    var l := Over(m, a, m.ids.grants);
    assert Step(m, AcquisitionReturns(a, None)) == Store(l, a.call, false) by { hide Store; }
    hide Step;
    StoreBare(l, a.call);
    hide Store, EndsBare;
  }

  // ----- Sessions and the life of the module -----

  /** Opening a session takes the next handle and a serial never used before. */
  lemma SessionOpens(events: seq<Event>)
    requires Run(events).initialized && !Run(events).finalizing && Run(events).client.Some?
    ensures var m := Run(events);
            exists u :: Checked(m, u)
                        && Run(events + [SessionOpened])
                           == u.(ids := u.ids.(nextSession := m.ids.nextSession + 1,
                                               serial := m.ids.serial + 1),
                                 sessions := u.sessions[m.ids.nextSession :=
                                   Session(m.ids.serial + 1, None, None, None)])
  {
    RunNext(events, SessionOpened);
    hide Run, Good;
    OpenStep(Run(events));
    hide Step, Checked;
  }

  /** Closing a session removes it, and the last one to go logs out; closing all lets the
      grant go. */
  lemma SessionsClose(events: seq<Event>, handle: nat)
    requires Run(events).initialized
    ensures var m := Run(events);
            Run(events + [SessionClosed(handle)])
            == m.(sessions := m.sessions - {handle},
                  loggedIn := m.loggedIn && !(m.sessions.Keys == {handle}))
    ensures var m := Run(events);
            LetGo(m.(sessions := map[], loggedIn := false), Run(events + [AllClosed]))
  {
    var m := Run(events);
    RunNext(events, SessionClosed(handle));
    RunNext(events, AllClosed);
    hide Run, Good;
    CloseStep(m, handle);
    CloseAllStep(m);
    hide Step, Checked, LetGo;
  }

  /** Logging in is noted; logging out lets the grant go and keeps the sessions. */
  lemma LoginsComeAndGo(events: seq<Event>, handle: nat)
    requires Run(events).initialized
    ensures var m := Run(events);
            exists u :: Checked(m, u)
                        && Run(events + [LoggedIn(handle)])
                           == if handle in u.sessions then u.(loggedIn := true) else u
    ensures var m := Run(events);
            exists u :: Checked(m, u)
                        && if handle in u.sessions
                           then LetGo(u.(loggedIn := false), Run(events + [LoggedOut(handle)]))
                           else Run(events + [LoggedOut(handle)]) == u
  {
    var m := Run(events);
    RunNext(events, LoggedIn(handle));
    RunNext(events, LoggedOut(handle));
    hide Run, Good;
    LoginSteps(m, handle);
    hide Step, Checked, LetGo;
  }

  lemma OpenStep(m: Pkcs)
    requires m.initialized && !m.finalizing && m.client.Some?
    ensures exists u :: Checked(m, u)
                        && Step(m, SessionOpened)
                           == u.(ids := u.ids.(nextSession := m.ids.nextSession + 1,
                                               serial := m.ids.serial + 1),
                                 sessions := u.sessions[m.ids.nextSession :=
                                   Session(m.ids.serial + 1, None, None, None)])
  {
    CheckChecks(m);
    assert Check(m).ids == m.ids.(generation := Check(m).ids.generation);
    hide Check, Checked;
  }

  lemma CloseStep(m: Pkcs, handle: nat)
    requires m.initialized
    ensures Step(m, SessionClosed(handle))
            == m.(sessions := m.sessions - {handle},
                  loggedIn := m.loggedIn && !(m.sessions.Keys == {handle}))
  {
    LastOne(m.sessions, handle);
  }

  lemma LastOne(sessions: map<nat, Session>, handle: nat)
    ensures handle in sessions && sessions - {handle} == map[] <==> sessions.Keys == {handle}
  {
    var rest := sessions - {handle};
    assert rest.Keys == sessions.Keys - {handle};
    if handle in sessions && rest == map[] {
      assert sessions.Keys == {handle} + rest.Keys;
    }
    if sessions.Keys == {handle} {
      assert handle in sessions && rest.Keys == {};
    }
  }

  lemma CloseAllStep(m: Pkcs)
    requires m.initialized
    ensures LetGo(m.(sessions := map[], loggedIn := false), Step(m, AllClosed))
  {
    ReleaseLetsGo(m.(sessions := map[]));
    hide Release;
  }

  lemma LoginSteps(m: Pkcs, handle: nat)
    requires m.initialized
    ensures exists u :: Checked(m, u)
                        && Step(m, LoggedIn(handle))
                           == if handle in u.sessions then u.(loggedIn := true) else u
    ensures exists u :: Checked(m, u)
                        && if handle in u.sessions
                           then LetGo(u.(loggedIn := false), Step(m, LoggedOut(handle)))
                           else Step(m, LoggedOut(handle)) == u
  {
    CheckChecks(m);
    ReleaseLetsGo(Check(m).(loggedIn := false));
    hide Check, Checked, Release, LetGo;
  }

  /** Setting the module up, once, and taking it down: at once, or when nobody acquires any
      more. */
  lemma LifeGoesOn(events: seq<Event>, hasClient: bool)
    ensures var m := Run(events);
            Run(events + [Initialize(hasClient)])
            == if m.initialized then m
               else m.(initialized := true, finalizing := false, loggedIn := false, sessions := map[],
                       client := if hasClient then Some(m.ids.clients) else None,
                       ids := m.ids.(lifecycle := m.ids.lifecycle + 1, nextSession := 1,
                                     clients := m.ids.clients + 1))
    ensures var m := Run(events);
            var t := Run(events + [FinalizeBegins]);
            if !m.initialized || m.finalizing then t == m
            else if m.acquiring then t == m.(finalizing := true)
            else TakenDown(m, t)
    ensures var m := Run(events);
            var t := Run(events + [FinalizeEnds]);
            if m.finalizing && !m.acquiring then TakenDown(m, t) else t == m
  {
    var m := Run(events);
    RunNext(events, Initialize(hasClient));
    RunNext(events, FinalizeBegins);
    RunNext(events, FinalizeEnds);
    hide Run, Good;
    ReleaseLetsGo(m);
    ReleaseLetsGo(m.(finalizing := true));
    DownSteps(m);
    hide Release, LetGo;
  }

  /** The grant is let go, and the sessions and the client are gone. */
  ghost predicate TakenDown(m: Pkcs, t: Pkcs) {
    exists u :: LetGo(m, u)
                && t == u.(sessions := map[], client := None, loggedIn := false, finalizing := false,
                           initialized := false)
  }

  lemma DownSteps(m: Pkcs)
    ensures Release(m.(finalizing := true)) == Release(m).(finalizing := true)
  {
    hide ResetAll;
  }
}
