/** What every call of the PKCS#11 module keeps (src/module/module.c). */
module PortalModuleInvariant {
  import opened Optional
  import opened PortalModule

  function One(b: bool): nat { if b then 1 else 0 }

  predicate SessionGood(s: Session, h: nat, m: Pkcs) {
    && h < m.ids.nextSession && s.serial <= m.ids.serial
    && (s.sign.Some? ==> s.sign == m.grant) && (s.decrypt.Some? ==> s.decrypt == m.grant)
    && (s.found.Some? ==> s.found.value.call == Call(h, m.ids.lifecycle, s.serial))
  }

  ghost predicate SessionsGood(m: Pkcs) {
    && (forall h :: h in m.sessions ==> SessionGood(m.sessions[h], h, m))
    && (forall h, h' :: h in m.sessions && h' in m.sessions && h != h' ==>
          m.sessions[h].serial != m.sessions[h'].serial)
  }

  predicate GrantGood(m: Pkcs) {
    && (m.grant.Some? <==> m.objects.Some?)
    && (m.grant.Some? ==>
          m.grant.value < m.ids.grants && m.released[m.grant.value] == 0
          && m.objects == Some(m.ids.generation)
          && m.installed != [] && m.installed[|m.installed| - 1] == (m.grant.value, m.ids.generation))
    && (!m.initialized ==> m.sessions == map[] && m.grant.None? && m.client.None?
                           && !m.finalizing && !m.acquiring)
  }

  /** Where a grant the portal handed out has gone. */
  predicate Accounted(m: Pkcs, g: nat) {
    && m.released[g] <= One(g < m.ids.grants)
    && (g < m.ids.grants ==> m.released[g] == 1 || g in m.gone || m.grant == Some(g))
  }

  predicate AcquirerGood(m: Pkcs, a: Acquirer) {
    m.acquirers[a] > 0 ==>
      && m.initialized && m.client == Some(a.client) && a.call.lifecycle == m.ids.lifecycle
      && a.generation <= m.ids.generation
      && (a.generation == m.ids.generation ==> m.grant.None?)
  }

  ghost predicate InstalledGood(m: Pkcs) {
    && (forall i :: 0 <= i < |m.installed| ==>
          m.installed[i].0 < m.ids.grants && m.installed[i].1 <= m.ids.generation)
    && (forall i, j :: 0 <= i < j < |m.installed| ==>
          m.installed[i].0 < m.installed[j].0 && m.installed[i].1 < m.installed[j].1)
  }

  ghost predicate Good(m: Pkcs) {
    && SessionsGood(m) && GrantGood(m) && InstalledGood(m)
    && (forall g :: Accounted(m, g)) && (forall a :: AcquirerGood(m, a))
    && |m.acquirers| == One(m.acquiring)
  }

  lemma ReleaseGood(m: Pkcs, sessions: map<nat, Session>)
    requires Good(m) && m.initialized
    requires forall h :: h in sessions ==> h in m.sessions && sessions[h] == Reset(m.sessions[h])
    ensures Good(Release(m).(sessions := sessions))
    ensures Release(m).grant.None? && Release(m).acquirers == m.acquirers
  {
    var t := Release(m).(sessions := sessions);
    assert SessionsGood(t);
    hide SessionsGood;
    forall g ensures Accounted(t, g) { assert Accounted(m, g); }
    forall a ensures AcquirerGood(t, a) { assert AcquirerGood(m, a); }
  }

  lemma ReleasedGood(m: Pkcs)
    requires Good(m) && m.initialized
    ensures Good(Release(m))
  {
    ReleaseGood(m, ResetAll(m.sessions));
    assert Release(m).(sessions := ResetAll(m.sessions)) == Release(m);
  }

  /** `loggedIn` is looked at by nothing that is promised here. */
  lemma LoginGood(m: Pkcs, loggedIn: bool)
    requires Good(m)
    ensures Good(m.(loggedIn := loggedIn))
  {
    var t := m.(loggedIn := loggedIn);
    forall g ensures Accounted(t, g) { assert Accounted(m, g); }
    forall a ensures AcquirerGood(t, a) { assert AcquirerGood(m, a); }
  }

  lemma CheckGood(m: Pkcs)
    requires Good(m)
    ensures Good(Check(m)) && !Ended(Check(m))
    ensures var t := Check(m);
            && t.initialized == m.initialized && t.finalizing == m.finalizing
            && t.acquiring == m.acquiring && t.acquirers == m.acquirers && t.client == m.client
            && t.ids == m.ids.(generation := t.ids.generation) && m.ids.generation <= t.ids.generation
            && (t.ids.generation == m.ids.generation ==> t == m)
  {
    if Ended(m) {
      ReleaseGood(m, map[]);
      hide Good;
      LoginGood(Release(m).(sessions := map[]), false);
    }
  }

  lemma ChangedGood(m: Pkcs, h: nat, s: Session)
    requires Good(m) && h in m.sessions && SessionGood(s, h, m)
    requires s.serial == m.sessions[h].serial
    ensures Good(Changed(m, h, s))
  {
    var t := Changed(m, h, s);
    forall g ensures Accounted(t, g) { assert Accounted(m, g); }
    forall a ensures AcquirerGood(t, a) { assert AcquirerGood(m, a); }
  }

  lemma WaitingGood(m: Pkcs, waiting: multiset<Call>)
    requires Good(m)
    ensures Good(m.(waiting := waiting))
  {
    var t := m.(waiting := waiting);
    forall g ensures Accounted(t, g) { assert Accounted(m, g); }
    forall a ensures AcquirerGood(t, a) { assert AcquirerGood(m, a); }
  }

  lemma RevalidatedGood(m: Pkcs, call: Call)
    requires Good(m)
    ensures Good(Revalidated(m, call))
    ensures Valid(m, call) ==>
              var t := Revalidated(m, call);
              call.handle in t.sessions && t.sessions[call.handle].serial == call.serial
              && t.ids.lifecycle == call.lifecycle && t.initialized && !Ended(t)
              && t.acquiring == m.acquiring && t.acquirers == m.acquirers && t.client == m.client
              && (t.ids.generation == m.ids.generation ==> t == m) && Current(t, call)
  {
    CheckGood(m);
    hide Good;
  }

  /** Results are stored only in the session instance the search began with, and, if
      it had a grant, from objects that are there. */
  lemma StoreGood(m: Pkcs, call: Call, acquired: bool)
    requires Good(m) && (acquired ==> m.grant.Some?)
    ensures Good(Store(m, call, acquired))
    ensures Valid(m, call) && acquired ==> Revalidated(m, call).objects.Some?
  {
    RevalidatedGood(m, call);
    var m1 := Revalidated(m, call);
    if Valid(m, call) {
      var found := Find(call, if acquired then m1.objects else None);
      var s := m1.sessions[call.handle].(found := Some(found));
      assert SessionGood(m1.sessions[call.handle], call.handle, m1);
      assert SessionGood(s, call.handle, m1) && GrantGood(m1);
      hide Good, SessionGood;
      ChangedGood(m1, call.handle, s);
    }
  }

  lemma AcquiringGood(m: Pkcs, call: Call)
    requires Good(m) && !m.acquiring && m.initialized && m.client.Some? && m.grant.None?
    requires call.lifecycle == m.ids.lifecycle
    ensures Good(StartAcquiring(m, call))
  {
    var t := StartAcquiring(m, call);
    forall g ensures Accounted(t, g) { assert Accounted(m, g); }
    forall a ensures AcquirerGood(t, a) { assert AcquirerGood(m, a); }
  }

  lemma ContinuedGood(m: Pkcs, call: Call, asks: bool)
    requires Good(m) && !m.acquiring && m.initialized && call.lifecycle == m.ids.lifecycle
    ensures Good(Continued(m, call, asks))
  {
    CheckGood(m);
    var m1 := Check(m);
    assert StillGood(m) ==> m1.grant.Some?;
    assert !StillGood(m) ==> m1.grant.None?;
    hide Good, Store, StartAcquiring, Check;
    if StillGood(m) {
      StoreGood(m1, call, true);
    } else if !asks || m1.client.None? {
      StoreGood(m1, call, false);
    } else {
      AcquiringGood(m1, call);
    }
  }

  lemma EnsureGood(m: Pkcs, call: Call, asks: bool)
    requires Good(m)
    ensures Good(Ensure(m, call, asks))
  {
    RevalidatedGood(m, call);
    var m1 := Revalidated(m, call);
    hide Good, Store, Continued, Revalidated, Valid;
    if m.acquiring {
      StoreGood(m, call, false);
    } else if !Valid(m, call) {
      StoreGood(m1, call, false);
    } else {
      ContinuedGood(m1, call, asks);
    }
  }

  lemma SearchBegunGood(m: Pkcs, handle: nat, asks: bool)
    requires Good(m)
    ensures Good(SearchBegun(m, handle, asks))
  {
    CheckGood(m);
    var m1 := Check(m);
    hide Good, Check, Ensure;
    if handle in m1.sessions && m1.sessions[handle].found.None? {
      var call := Call(handle, m1.ids.lifecycle, m1.sessions[handle].serial);
      WaitingGood(m1, m1.waiting + multiset{call});
      if !m1.acquiring {
        EnsureGood(m1, call, asks);
      }
    }
  }

  // ----- The acquisition returns -----

  lemma {:induction false} OnlyOne(acquirers: multiset<Acquirer>, a: Acquirer)
    requires |acquirers| == 1 && acquirers[a] > 0
    ensures acquirers - multiset{a} == multiset{}
  {
    var rest := acquirers - multiset{a};
    assert acquirers == rest + multiset{a};
    assert |acquirers| == |rest| + 1;
  }

  /** The lock is taken again; nothing acquires any more. */
  lemma LandedGood(m: Pkcs, a: Acquirer)
    requires Good(m) && m.acquirers[a] > 0
    ensures m.acquiring && m.initialized && m.client == Some(a.client)
    ensures m.ids.generation == a.generation ==> m.grant.None?
    ensures var t := Landed(m, a);
            && Good(t) && t.acquirers == multiset{} && t.grant == m.grant && t.ids == m.ids
            && t.initialized
  {
    assert AcquirerGood(m, a);
    assert |m.acquirers| > 0;
    OnlyOne(m.acquirers, a);
    var t := Landed(m, a);
    forall g ensures Accounted(t, g) { assert Accounted(m, g); }
  }

  /** A new grant that is given back at once. */
  lemma GivingBackGood(m: Pkcs)
    requires Good(m)
    ensures Good(GivingBack(m.(ids := m.ids.(grants := m.ids.grants + 1)), m.ids.grants))
  {
    var t := GivingBack(m.(ids := m.ids.(grants := m.ids.grants + 1)), m.ids.grants);
    assert Accounted(m, m.ids.grants);
    forall g ensures Accounted(t, g) { assert Accounted(m, g); }
    forall a ensures AcquirerGood(t, a) { assert AcquirerGood(m, a); }
  }

  lemma InstallGood(m: Pkcs, made: bool)
    requires Good(m) && m.initialized && m.grant.None? && m.acquirers == multiset{}
    ensures Good(Install(m.(ids := m.ids.(grants := m.ids.grants + 1)), m.ids.grants, made))
  {
    var m1 := m.(ids := m.ids.(grants := m.ids.grants + 1));
    var t := Install(m1, m.ids.grants, true);
    assert Accounted(m, m.ids.grants);
    forall g ensures Accounted(t, g) { assert Accounted(m, g); }
    assert SessionsGood(t);
    hide SessionsGood;
    assert Good(t);
    hide Good, Release;
    if !made {
      ReleasedGood(t);
    }
  }

  /** Counting the new grant and checking the old one can be done in either order. */
  lemma CountThenCheck(m: Pkcs, call: Call)
    ensures var m1 := Revalidated(m, call);
            Revalidated(Counted(m), call) == Counted(m1) && m1.ids.grants == m.ids.grants
            && (Valid(Counted(m), call) <==> Valid(m, call))
  {
    hide ResetAll;
  }

  /** With nothing in force, which is so unless there has been a release. */
  lemma ArrivedGood(m: Pkcs, a: Acquirer, made: bool)
    requires Good(m) && m.initialized && m.acquirers == multiset{}
    requires m.ids.generation == a.generation ==> m.grant.None?
    ensures Good(Arrived(Counted(m), a, m.ids.grants, made))
  {
    RevalidatedGood(m, a.call);
    CountThenCheck(m, a.call);
    var m1 := Revalidated(m, a.call);
    GivingBackGood(m);
    GivingBackGood(m1);
    assert m.client == Counted(m).client && m.ids.generation == Counted(m).ids.generation;
    assert m.grant.None? ==> m1 == m by { if m.grant.None? { NothingInForce(m, a.call); } }
    assert Counted(m) == m.(ids := m.ids.(grants := m.ids.grants + 1));
    assert Counted(m1) == m1.(ids := m1.ids.(grants := m1.ids.grants + 1));
    hide Good, Store, Placed, Revalidated, Valid, GivingBack, Counted;
    if m.client != Some(a.client) || m.ids.generation != a.generation {
      StoreGood(GivingBack(Counted(m), m.ids.grants), a.call, false);
    } else if !Valid(m, a.call) {
      StoreGood(GivingBack(Counted(m1), m.ids.grants), a.call, false);
    } else {
      PlacedGood(m, a.call, made);
    }
  }

  lemma PlacedGood(m: Pkcs, call: Call, made: bool)
    requires Good(m) && m.initialized && m.grant.None? && m.acquirers == multiset{}
    ensures Good(Placed(Counted(m), call, m.ids.grants, made))
  {
    InstallGood(m, made);
    InstallGives(Counted(m), m.ids.grants, made);
    hide Good, Store, Install;
    StoreGood(Install(Counted(m), m.ids.grants, made), call, made);
  }

  lemma AcquireReturnedGood(m: Pkcs, a: Acquirer, result: Option<bool>)
    requires Good(m) && m.acquirers[a] > 0
    ensures Good(AcquireReturned(m, a, result))
  {
    LandedGood(m, a);
    hide Good, Store, Arrived, Landed, Counted;
    if result.None? {
      StoreGood(Landed(m, a), a.call, false);
    } else {
      ArrivedGood(Landed(m, a), a, result.value);
    }
  }

  lemma NothingInForce(m: Pkcs, call: Call)
    requires m.grant.None?
    ensures Revalidated(m, call) == m
  {
  }

  lemma InstallGives(m: Pkcs, grant: nat, made: bool)
    ensures made ==> Install(m, grant, made).grant.Some?
  {
  }

  // ----- The other calls -----

  lemma LifeGood(m: Pkcs, hasClient: bool)
    requires Good(m)
    ensures !m.initialized ==> Good(Initialized(m, hasClient))
    ensures m.initialized && !m.acquiring ==> Good(Finalized(m))
    ensures m.initialized ==> Good(m.(finalizing := true))
  {
    if !m.initialized {
      var t := Initialized(m, hasClient);
      forall g ensures Accounted(t, g) { assert Accounted(m, g); }
      forall a ensures AcquirerGood(t, a) { assert AcquirerGood(m, a); }
    } else {
      FinalizingGood(m);
      if !m.acquiring {
        FinalizedGood(m);
      }
    }
  }

  lemma FinalizingGood(m: Pkcs)
    requires Good(m) && m.initialized
    ensures Good(m.(finalizing := true))
  {
    var t := m.(finalizing := true);
    forall g ensures Accounted(t, g) { assert Accounted(m, g); }
    forall a ensures AcquirerGood(t, a) { assert AcquirerGood(m, a); }
  }

  lemma FinalizedGood(m: Pkcs)
    requires Good(m) && m.initialized && !m.acquiring
    ensures Good(Finalized(m))
  {
    ReleaseGood(m, map[]);
    var r, t := Release(m).(sessions := map[]), Finalized(m);
    assert m.acquirers == multiset{};
    hide Release, ResetAll;
    forall g ensures Accounted(t, g) { assert Accounted(r, g); }
    forall a ensures AcquirerGood(t, a) { assert AcquirerGood(r, a); }
  }

  lemma OpenedGood(m: Pkcs)
    requires Good(m) && m.initialized
    ensures Good(OpenSession(m))
  {
    CheckGood(m);
    var m1, t := Check(m), OpenSession(m);
    hide Check;
    assert m1.ids.nextSession !in m1.sessions by {
      forall h | h in m1.sessions ensures h < m1.ids.nextSession {
        assert SessionGood(m1.sessions[h], h, m1);
      }
    }
    assert SessionsGood(t) by {
      forall h | h in t.sessions ensures SessionGood(t.sessions[h], h, t) {
        if h != m1.ids.nextSession {
          assert SessionGood(m1.sessions[h], h, m1);
        }
      }
    }
    forall g ensures Accounted(t, g) { assert Accounted(m1, g); }
    forall a ensures AcquirerGood(t, a) { assert AcquirerGood(m1, a); }
  }

  lemma ClosedGood(m: Pkcs, sessions: map<nat, Session>)
    requires Good(m) && m.initialized
    requires forall h :: h in sessions ==> h in m.sessions && sessions[h] == m.sessions[h]
    ensures Good(m.(sessions := sessions))
  {
    var t := m.(sessions := sessions);
    forall g ensures Accounted(t, g) { assert Accounted(m, g); }
    forall a ensures AcquirerGood(t, a) { assert AcquirerGood(m, a); }
  }

  lemma CloseSessionGood(m: Pkcs, handle: nat)
    requires Good(m) && m.initialized
    ensures Good(CloseSession(m, handle))
  {
    ClosedGood(m, m.sessions - {handle});
    LoginGood(m.(sessions := m.sessions - {handle}), CloseSession(m, handle).loggedIn);
  }

  lemma CloseAllGood(m: Pkcs)
    requires Good(m) && m.initialized
    ensures Good(CloseAll(m))
  {
    ClosedGood(m, map[]);
    ReleasedGood(m.(sessions := map[]));
    hide Good, Release;
    LoginGood(Release(m.(sessions := map[])), false);
  }

  lemma LogGood(m: Pkcs, handle: nat)
    requires Good(m) && m.initialized
    ensures Good(Logout(m, handle)) && Good(Login(m, handle))
  {
    CheckGood(m);
    hide Good, Check, Release;
    LoginGood(Check(m), true);
    LoginGood(Check(m), false);
    ReleasedGood(Check(m).(loggedIn := false));
  }

  lemma BeginsGood(m: Pkcs, handle: nat, key: nat, permitted: bool)
    requires Good(m)
    ensures Good(SignInit(m, handle, key, permitted)) && Good(DecryptInit(m, handle, key, permitted))
  {
    CheckGood(m);
    var m1 := Check(m);
    if handle in m1.sessions {
      var s := m1.sessions[handle];
      assert SessionGood(s, handle, m1);
      assert SessionGood(s.(sign := m1.grant), handle, m1);
      assert SessionGood(s.(decrypt := m1.grant), handle, m1);
      hide Good, Check, SessionGood, KeyOf;
      ChangedGood(m1, handle, s.(sign := m1.grant));
      ChangedGood(m1, handle, s.(decrypt := m1.grant));
    }
  }

  lemma EndedGood(m: Pkcs, handle: nat)
    requires Good(m)
    ensures Good(OperationEnded(m, handle)) && Good(SearchEnded(m, handle))
  {
    CheckGood(m);
    var m1 := Check(m);
    if handle in m1.sessions {
      var s := m1.sessions[handle];
      assert SessionGood(s, handle, m1);
      assert SessionGood(Reset(s), handle, m1) && SessionGood(s.(found := None), handle, m1);
      assert Reset(s).serial == s.serial;
      hide Good, Check, SessionGood, Reset;
      ChangedGood(m1, handle, Reset(s));
      ChangedGood(m1, handle, s.(found := None));
    }
  }

  lemma EndsGood(m: Pkcs, gone: set<nat>, expired: set<nat>)
    requires Good(m) && m.gone <= gone
    ensures Good(m.(gone := gone, expired := expired))
  {
    var t := m.(gone := gone, expired := expired);
    forall g ensures Accounted(t, g) { assert Accounted(m, g); }
    forall a ensures AcquirerGood(t, a) { assert AcquirerGood(m, a); }
  }

  lemma GrantEndsGood(m: Pkcs, grant: nat)
    requires Good(m)
    ensures Good(m.(gone := m.gone + {grant})) && Good(m.(expired := m.expired + {grant}))
  {
    hide Good;
    EndsGood(m, m.gone + {grant}, m.expired);
    assert m.(gone := m.gone + {grant}, expired := m.expired) == m.(gone := m.gone + {grant});
    EndsGood(m, m.gone, m.expired + {grant});
    assert m.(gone := m.gone, expired := m.expired + {grant})
        == m.(expired := m.expired + {grant});
  }

  lemma LifeStepGood(m: Pkcs, e: Event)
    requires Good(m) && Enabled(m, e)
    requires e.Initialize? || e.FinalizeBegins? || e.FinalizeEnds? || e.PortalEnds? || e.GrantExpires?
    ensures Good(Step(m, e))
  {
    assert m.finalizing ==> m.initialized;
    hide Good, Initialized, Finalized;
    match e
    case Initialize(hasClient) => LifeGood(m, hasClient);
    case FinalizeBegins =>
      LifeGood(m, false);
      LifeGood(m.(finalizing := true), false);
    case FinalizeEnds => LifeGood(m, false);
    case PortalEnds(grant) => GrantEndsGood(m, grant);
    case GrantExpires(grant) => GrantEndsGood(m, grant);
  }

  lemma SessionStepGood(m: Pkcs, e: Event)
    requires Good(m) && Enabled(m, e)
    requires e.SessionOpened? || e.SessionClosed? || e.AllClosed? || e.LoggedIn? || e.LoggedOut?
    ensures Good(Step(m, e))
  {
    hide Good, OpenSession, CloseSession, CloseAll, Login, Logout;
    match e
    case SessionOpened => OpenedGood(m);
    case SessionClosed(handle) => CloseSessionGood(m, handle);
    case AllClosed => CloseAllGood(m);
    case LoggedIn(handle) => LogGood(m, handle);
    case LoggedOut(handle) => LogGood(m, handle);
  }

  lemma UseStepGood(m: Pkcs, e: Event)
    requires Good(m) && Enabled(m, e)
    requires e.SearchBegins? || e.SearchWakes? || e.AcquisitionReturns? || e.SearchEnds?
             || e.SignBegins? || e.DecryptBegins? || e.OperationEnds?
    ensures Good(Step(m, e))
  {
    hide Good, SearchBegun, SearchWoken, AcquireReturned, SignInit, DecryptInit, OperationEnded,
         SearchEnded;
    match e
    case SearchBegins(handle, asks) => SearchBegunGood(m, handle, asks);
    case SearchWakes(call, asks) => WokenGood(m, call, asks);
    case AcquisitionReturns(a, result) => AcquireReturnedGood(m, a, result);
    case SearchEnds(handle) => EndedGood(m, handle);
    case SignBegins(handle, key, permitted) => BeginsGood(m, handle, key, permitted);
    case DecryptBegins(handle, key, permitted) => BeginsGood(m, handle, key, permitted);
    case OperationEnds(handle) => EndedGood(m, handle);
  }

  lemma StepGood(m: Pkcs, e: Event)
    requires Good(m)
    ensures Good(Step(m, e))
  {
    if !Enabled(m, e) {
      assert Step(m, e) == m;
    } else if e.Initialize? || e.FinalizeBegins? || e.FinalizeEnds? || e.PortalEnds? || e.GrantExpires? {
      LifeStepGood(m, e);
    } else if e.SessionOpened? || e.SessionClosed? || e.AllClosed? || e.LoggedIn? || e.LoggedOut? {
      SessionStepGood(m, e);
    } else {
      UseStepGood(m, e);
    }
    hide Good, Step, Enabled;
  }

  lemma WokenGood(m: Pkcs, call: Call, asks: bool)
    requires Good(m)
    ensures Good(SearchWoken(m, call, asks))
  {
    WaitingGood(m, m.waiting - multiset{call});
    hide Good, Ensure;
    EnsureGood(m.(waiting := m.waiting - multiset{call}), call, asks);
  }

  lemma {:induction false} RunGood(events: seq<Event>)
    ensures Good(Run(events))
  {
    if events == [] {
      forall g ensures Accounted(FRESH, g) {}
      forall a ensures AcquirerGood(FRESH, a) {}
      assert Good(FRESH);
    } else {
      hide Good, Step;
      RunGood(events[..|events| - 1]);
      StepGood(Run(events[..|events| - 1]), events[|events| - 1]);
    }
  }
}
