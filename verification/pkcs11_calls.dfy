/** The module's process-wide variables, updated in place by the calls of
    src/module/module.c; each method is one stretch under the module's lock. */
module PortalModuleCalls {
  import opened Optional
  import opened PortalModule
  import opened PortalModuleInvariant

  class CryptokiModule {
    var initialized: bool
    var finalizing: bool
    var acquiring: bool
    var loggedIn: bool
    var ids: Ids
    var client: Option<nat>
    var grant: Option<nat>
    var objects: Option<nat>
    var sessions: map<nat, Session>
    var waiting: multiset<Call>
    var acquirers: multiset<Acquirer>
    var gone: set<nat>
    var expired: set<nat>
    var released: multiset<nat>
    ghost var installed: seq<(nat, nat)>

    ghost function View(): Pkcs reads this {
      Pkcs(initialized, finalizing, acquiring, loggedIn, ids, client, grant, objects, sessions,
           waiting, acquirers, gone, expired, released, installed)
    }

    ghost predicate Intact() reads this { Good(View()) }

    constructor ()
      ensures View() == FRESH
    {
      initialized, finalizing, acquiring, loggedIn := false, false, false, false;
      ids := Ids(0, 0, 1, 0, 0, 0);
      client, grant, objects, sessions := None, None, None, map[];
      waiting, acquirers, gone, expired := multiset{}, multiset{}, {}, {};
      released, installed := multiset{}, [];
    }

    // ----- The grant in force -----

    method ResetSessions()
      modifies this`sessions
      ensures sessions == ResetAll(old(sessions))
    {
      hide Reset;
      var todo := sessions.Keys;
      while todo != {}
        invariant sessions.Keys == old(sessions).Keys && todo <= sessions.Keys
        invariant forall h :: h in sessions ==>
                    sessions[h] == if h in todo then old(sessions)[h] else Reset(old(sessions)[h])
        decreases |todo|
      {
        var h :| h in todo;
        sessions := sessions[h := Reset(sessions[h])];
        todo := todo - {h};
      }
    }

    method DropObjects()
      modifies this`sessions, this`objects, this`grant
      ensures View() == old(View()).(sessions := ResetAll(old(sessions)), objects := None,
                                     grant := None)
    {
      hide ResetAll;
      ResetSessions();
      objects := None;
      grant := None;
    }

    method GiveBack()
      modifies this`ids, this`released
      ensures View() == old(View()).(ids := old(ids).(generation := old(ids).generation + 1),
                                     released := GivenBack(old(View())))
    {
      ids := ids.(generation := ids.generation + 1);
      if grant.Some? && grant.value !in gone {
        released := released + multiset{grant.value};
      }
    }

    method ReleaseGrant()
      modifies this`ids, this`released, this`sessions, this`objects, this`grant
      ensures View() == Release(old(View()))
    {
      assert View().sessions == sessions;
      hide ResetAll, GivenBack, View;
      GiveBack();
      DropObjects();
    }

    method ForgetSessions()
      modifies this`sessions, this`loggedIn
      ensures View() == old(View()).(sessions := map[], loggedIn := false)
    {
      sessions := map[];
      loggedIn := false;
    }

    method GrantStillGood() returns (good: bool)
      modifies this`ids, this`released, this`sessions, this`objects, this`grant, this`loggedIn
      ensures View() == Check(old(View())) && good == StillGood(old(View()))
    {
      assert View().grant == grant && View().gone == gone && View().expired == expired;
      hide Release, View;
      if grant.None? {
        return false;
      }
      if grant.value !in gone && grant.value !in expired {
        return true;
      }
      // The end of the grant invalidates every session.
      ReleaseGrant();
      ForgetSessions();
      good := false;
    }

    method SessionRevalidate(call: Call) returns (valid: bool)
      modifies this`ids, this`released, this`sessions, this`objects, this`grant, this`loggedIn
      ensures View() == Revalidated(old(View()), call) && valid == Valid(old(View()), call)
      ensures valid ==> call.handle in sessions
    {
      hide Check;
      if finalizing || !initialized || ids.lifecycle != call.lifecycle {
        return false;
      }
      var _ := GrantStillGood();
      valid := call.handle in sessions && sessions[call.handle].serial == call.serial;
    }

    // ----- Searching -----

    method StoreFound(call: Call, acquired: bool)
      modifies this`ids, this`released, this`sessions, this`objects, this`grant, this`loggedIn
      ensures View() == Store(old(View()), call, acquired)
    {
      hide Revalidated, Valid;
      var valid := SessionRevalidate(call);
      if !valid || sessions[call.handle].found.Some? {
        return;
      }
      var found := Find(call, if acquired then objects else None);
      sessions := sessions[call.handle := sessions[call.handle].(found := Some(found))];
    }

    method NoteAcquirer(call: Call)
      requires client.Some?
      modifies this`acquiring, this`acquirers
      ensures View() == StartAcquiring(old(View()), call)
    {
      acquiring := true;
      acquirers := acquirers + multiset{Acquirer(call, client.value, ids.generation)};
    }

    /** Returns with the lock dropped when it starts an acquisition. */
    method EnsureGrant(call: Call, asks: bool)
      modifies this
      ensures View() == Ensure(old(View()), call, asks)
    {
      assert View().acquiring == acquiring;
      hide Revalidated, Valid, Store, StartAcquiring, StillGood, View;
      if acquiring {
        StoreFound(call, false);
        return;
      }
      var valid := SessionRevalidate(call);
      if !valid {
        StoreFound(call, false);
        return;
      }
      ContinueSearch(call, asks);
    }

    method ContinueSearch(call: Call, asks: bool)
      modifies this
      ensures View() == Continued(old(View()), call, asks)
    {
      ghost var before := View();
      var good := GrantStillGood();
      CheckTwice(before);
      assert View().client == client;
      hide Check, Store, StartAcquiring, StillGood, View;
      if good {
        StoreFound(call, true);
      } else if !asks || client.None? {
        StoreFound(call, false);
      } else {
        NoteAcquirer(call);
      }
    }

    method FindObjectsInit(handle: nat, asks: bool)
      requires Intact() && Enabled(View(), SearchBegins(handle, asks))
      modifies this
      ensures Intact() && View() == SearchBegun(old(View()), handle, asks)
    {
      SearchBegunGood(View(), handle, asks);
      var _ := GrantStillGood();
      assert View().sessions == sessions && View().ids == ids && View().acquiring == acquiring;
      assert View().waiting == waiting;
      hide Good, Check, Ensure, Enabled, View;
      if handle !in sessions || sessions[handle].found.Some? {
        return;
      }
      var call := Call(handle, ids.lifecycle, sessions[handle].serial);
      if acquiring {
        Wait(call);
      } else {
        EnsureGrant(call, asks);
      }
    }

    method Wait(call: Call)
      modifies this`waiting
      ensures View() == old(View()).(waiting := old(waiting) + multiset{call})
    {
      waiting := waiting + multiset{call};
    }

    method Wake(call: Call)
      modifies this`waiting
      ensures View() == old(View()).(waiting := old(waiting) - multiset{call})
    {
      waiting := waiting - multiset{call};
    }

    method FindObjectsResumed(call: Call, asks: bool)
      requires Intact() && Enabled(View(), SearchWakes(call, asks))
      modifies this
      ensures Intact() && View() == SearchWoken(old(View()), call, asks)
    {
      WokenGood(View(), call, asks);
      assert View().waiting == waiting;
      hide Good, Ensure, Enabled, View;
      Wake(call);
      EnsureGrant(call, asks);
    }

    // ----- The acquisition returns -----

    method Land(a: Acquirer)
      modifies this`acquiring, this`acquirers
      ensures View() == Landed(old(View()), a)
    {
      acquiring := false;
      acquirers := acquirers - multiset{a};
    }

    method CountGrant() returns (id: nat)
      modifies this`ids
      ensures id == old(ids).grants
      ensures View() == Counted(old(View()))
    {
      id := ids.grants;
      ids := ids.(grants := id + 1);
    }

    method ReleaseAtOnce(id: nat)
      modifies this`released
      ensures View() == GivingBack(old(View()), id)
    {
      released := released + multiset{id};
    }

    method InstallGrant(id: nat, made: bool)
      modifies this`grant, this`ids, this`objects, this`installed, this`released, this`sessions
      ensures View() == Install(old(View()), id, made)
    {
      hide Release;
      grant := Some(id);
      ids := ids.(generation := ids.generation + 1);
      objects := Some(ids.generation);
      installed := installed + [(id, ids.generation)];
      if !made {
        ReleaseGrant();
      }
    }

    method GrantArrived(a: Acquirer, id: nat, made: bool)
      modifies this
      ensures View() == Arrived(old(View()), a, id, made)
    {
      assert View().client == client && View().ids == ids;
      hide Revalidated, Valid, Store, Install, GivingBack, Check, StillGood, View;
      // A release in the meantime is a release of this grant too.
      if client != Some(a.client) || ids.generation != a.generation {
        ReleaseAtOnce(id);
        StoreFound(a.call, false);
        return;
      }
      var valid := SessionRevalidate(a.call);
      if !valid {
        ReleaseAtOnce(id);
        StoreFound(a.call, false);
        return;
      }
      FirstCome(a.call, id, made);
    }

    method FirstCome(call: Call, id: nat, made: bool)
      modifies this
      ensures View() == Placed(old(View()), call, id, made)
    {
      assert View().grant == grant;
      hide Store, Install, GivingBack, Check, StillGood, View;
      if grant.Some? {
        ReleaseAtOnce(id);
        ghost var before := View();
        var good := GrantStillGood();
        CheckTwice(before);
        StoreFound(call, good);
        return;
      }
      InstallGrant(id, made);
      StoreFound(call, made);
    }

    method AcquisitionDone(a: Acquirer, result: Option<bool>)
      requires Intact() && Enabled(View(), AcquisitionReturns(a, result))
      modifies this
      ensures Intact() && View() == AcquireReturned(old(View()), a, result)
    {
      AcquireReturnedGood(View(), a, result);
      hide Good, AcquireReturned, Enabled, View;
      Returned(a, result);
    }

    method Returned(a: Acquirer, result: Option<bool>)
      modifies this
      ensures View() == AcquireReturned(old(View()), a, result)
    {
      assert View().ids == ids;
      hide Store, Arrived, View, Landed, Counted;
      Land(a);
      if result.None? {
        StoreFound(a.call, false);
        return;
      }
      var id := CountGrant();
      GrantArrived(a, id, result.value);
    }

    // ----- Life of the module -----

    method Dismantle()
      modifies this`sessions, this`client, this`loggedIn, this`finalizing, this`initialized
      ensures View() == old(View()).(sessions := map[], client := None, loggedIn := false,
                                     finalizing := false, initialized := false)
    {
      sessions := map[];
      client := None;
      loggedIn := false;
      finalizing := false;
      initialized := false;
    }

    /** The second half of finalization, when nobody acquires any more. */
    method FinishFinalize()
      requires Intact() && Enabled(View(), FinalizeEnds)
      modifies this
      ensures Intact() && View() == Finalized(old(View()))
    {
      LifeGood(View(), false);
      assert initialized;
      hide Good, Release, View, Enabled;
      ReleaseGrant();
      Dismantle();
    }

    method BeginFinalize()
      modifies this`finalizing
      ensures View() == old(View()).(finalizing := true)
    {
      // From here on no acquisition starts; one that runs is cancelled and waited for.
      finalizing := true;
    }

    method OpenCryptokiSession() returns (handle: nat)
      requires Intact() && Enabled(View(), SessionOpened)
      modifies this
      ensures Intact() && View() == OpenSession(old(View()))
      ensures handle in sessions && sessions[handle].serial == ids.serial
    {
      OpenedGood(View());
      hide Good, Check, Enabled;
      // Old sessions go before a new one can acquire a replacement grant.
      var _ := GrantStillGood();
      handle := ids.nextSession;
      ids := ids.(nextSession := handle + 1, serial := ids.serial + 1);
      sessions := sessions[handle := Session(ids.serial, None, None, None)];
    }

    method CloseAllSessions()
      requires Intact() && initialized
      modifies this
      ensures Intact() && View() == CloseAll(old(View()))
    {
      CloseAllGood(View());
      hide Good, Release;
      sessions := map[];
      ReleaseGrant();
      loggedIn := false;
    }

    method LogOut(handle: nat)
      requires Intact() && initialized
      modifies this
      ensures Intact() && View() == Logout(old(View()), handle)
    {
      LogGood(View(), handle);
      hide Good, Release, Check;
      var _ := GrantStillGood();
      if handle !in sessions {
        return;
      }
      loggedIn := false;
      ReleaseGrant();
    }

    method SignInitialize(handle: nat, key: nat, permitted: bool)
      requires Intact()
      modifies this
      ensures Intact() && View() == SignInit(old(View()), handle, key, permitted)
    {
      BeginsGood(View(), handle, key, permitted);
      hide Good, Check, ObjectHandle;
      var _ := GrantStillGood();
      if handle !in sessions || sessions[handle].sign.Some? {
        return;
      }
      if grant.None? || objects.None? || key != ObjectHandle(objects.value, PRIVATE_KEY) {
        return;
      }
      if !permitted {
        return;
      }
      sessions := sessions[handle := sessions[handle].(sign := grant)];
    }
  }

  lemma CheckTwice(m: Pkcs)
    ensures Check(Check(m)) == Check(m)
    ensures StillGood(Check(m)) == StillGood(m)
  {
    hide ResetAll, GivenBack;
  }
}
