/** What an application with several threads can rely on (src/module/module.c). */
module PortalModuleResults {
  import opened Optional
  import opened PortalModule
  import opened PortalModuleInvariant

  /** Every grant the portal handed out is in force, was given back exactly once, or
      was ended by the portal; none is given back while it is in force. */
  lemma NoGrantLeaks(events: seq<Event>, g: nat)
    ensures var m := Run(events);
            && m.released[g] <= 1 && (m.released[g] == 1 ==> g < m.ids.grants)
            && (g < m.ids.grants ==> m.grant == Some(g) || m.released[g] == 1 || g in m.gone)
            && (m.grant == Some(g) ==> g < m.ids.grants && m.released[g] == 0)
  {
    RunGood(events);
    var m := Run(events);
    hide Run;
    assert Accounted(m, g);
  }

  /** At most one thread acquires at a time; the client it uses is the module's own
      until it returns, and finalization cannot complete before. If nothing was
      released meanwhile, there is no grant in force that its own could displace. */
  lemma OneAcquisition(events: seq<Event>, a: Acquirer)
    ensures var m := Run(events);
            && |m.acquirers| == One(m.acquiring)
            && (m.acquirers[a] > 0 ==>
                  && m.acquiring && m.client == Some(a.client) && m.initialized
                  && !Enabled(m, FinalizeEnds) && m.ids.lifecycle == a.call.lifecycle
                  && (m.ids.generation == a.generation ==> m.grant.None?))
  {
    RunGood(events);
    var m := Run(events);
    hide Run;
    assert AcquirerGood(m, a);
    if m.acquirers[a] > 0 {
      assert |m.acquirers| > 0;
    }
  }

  /** A search that waits for another thread's acquisition can always go on, as soon
      as that thread returns. */
  lemma WaitersWake(events: seq<Event>, call: Call)
    requires Run(events).waiting[call] > 0
    ensures var m := Run(events);
            || Enabled(m, SearchWakes(call, false))
            || exists a :: Enabled(m, AcquisitionReturns(a, None))
  {
    RunGood(events);
    var m := Run(events);
    hide Run;
    if m.acquiring {
      assert |m.acquirers| > 0;
      var a :| a in m.acquirers;
      assert Enabled(m, AcquisitionReturns(a, None));
    }
  }

  /** An active operation was initialised with the grant in force, and the results a
      session reads are those of a search that began with this very session, of this
      life of the module. */
  lemma SessionsMatch(events: seq<Event>, h: nat, h': nat)
    requires h in Run(events).sessions
    ensures var m := Run(events);
            var s := m.sessions[h];
            && (s.sign.Some? ==> m.grant == s.sign) && (s.decrypt.Some? ==> m.grant == s.decrypt)
            && (s.found.Some? ==> s.found.value.call == Call(h, m.ids.lifecycle, s.serial))
            && (h' in m.sessions && h' != h ==> m.sessions[h'].serial != s.serial)
  {
    RunGood(events);
    var m := Run(events);
    hide Run;
    assert SessionGood(m.sessions[h], h, m);
  }

  // ----- A resumed search -----

  /** No session appears, and search results change only in the instance of the call's
      session, in the life of the module the call belongs to. */
  ghost predicate Touched(m: Pkcs, t: Pkcs, call: Call) {
    && t.ids.lifecycle == m.ids.lifecycle && t.initialized == m.initialized
    && t.finalizing == m.finalizing
    && forall h :: h in t.sessions ==>
         && h in m.sessions && t.sessions[h].serial == m.sessions[h].serial
         && (t.sessions[h].found == m.sessions[h].found
             || (Current(m, call) && h == call.handle && m.sessions[h].serial == call.serial))
  }

  lemma TouchedThen(m: Pkcs, t: Pkcs, u: Pkcs, call: Call)
    requires Touched(m, t, call) && Touched(t, u, call)
    ensures Touched(m, u, call)
  {
  }

  lemma ChecksTouch(m: Pkcs, call: Call)
    ensures Touched(m, m, call) && Touched(m, Check(m), call)
    ensures Touched(m, Revalidated(m, call), call) && Touched(m, Release(m), call)
  {
  }

  lemma StoreTouches(m: Pkcs, call: Call, acquired: bool)
    ensures Touched(m, Store(m, call, acquired), call)
  {
    ChecksTouch(m, call);
    hide Check;
  }

  lemma InstallTouches(m: Pkcs, grant: nat, made: bool, call: Call)
    ensures Touched(m, Install(m, grant, made), call)
  {
    ChecksTouch(Install(m, grant, true), call);
    hide Release;
  }

  lemma ContinuedTouches(m: Pkcs, call: Call, asks: bool)
    ensures Touched(m, Continued(m, call, asks), call)
  {
    ChecksTouch(m, call);
    StoreTouches(Check(m), call, true);
    StoreTouches(Check(m), call, false);
    TouchedThen(m, Check(m), Store(Check(m), call, true), call);
    TouchedThen(m, Check(m), Store(Check(m), call, false), call);
    hide Check, Store;
  }

  lemma EnsureTouches(m: Pkcs, call: Call, asks: bool)
    ensures Touched(m, Ensure(m, call, asks), call)
  {
    var m1 := Revalidated(m, call);
    ChecksTouch(m, call);
    StoreTouches(m, call, false);
    StoreTouches(m1, call, false);
    ContinuedTouches(m1, call, asks);
    TouchedThen(m, m1, Store(m1, call, false), call);
    TouchedThen(m, m1, Continued(m1, call, asks), call);
    hide Touched, Revalidated, Store, Continued, Valid;
  }

  lemma PlacedTouches(m: Pkcs, call: Call, grant: nat, made: bool)
    ensures Touched(m, Placed(m, call, grant, made), call)
  {
    var m1 := GivingBack(m, grant);
    assert Touched(m, m1, call);
    ChecksTouch(m1, call);
    StoreTouches(Check(m1), call, StillGood(m1));
    TouchedThen(m, m1, Check(m1), call);
    TouchedThen(m, Check(m1), Store(Check(m1), call, StillGood(m1)), call);
    InstallTouches(m, grant, made, call);
    StoreTouches(Install(m, grant, made), call, made);
    TouchedThen(m, Install(m, grant, made), Store(Install(m, grant, made), call, made), call);
    hide Touched, Store, Install, Check, GivingBack, StillGood;
  }

  lemma ArrivedTouches(m: Pkcs, a: Acquirer, grant: nat, made: bool)
    ensures Touched(m, Arrived(m, a, grant, made), a.call)
  {
    var m1 := Revalidated(m, a.call);
    var g, g1 := GivingBack(m, grant), GivingBack(m1, grant);
    assert Touched(m, g, a.call) && Touched(m1, g1, a.call);
    ChecksTouch(m, a.call);
    StoreTouches(g, a.call, false);
    StoreTouches(g1, a.call, false);
    TouchedThen(m, g, Store(g, a.call, false), a.call);
    TouchedThen(m, m1, g1, a.call);
    TouchedThen(m, g1, Store(g1, a.call, false), a.call);
    PlacedTouches(m1, a.call, grant, made);
    TouchedThen(m, m1, Placed(m1, a.call, grant, made), a.call);
    hide Touched, Store, Placed, Revalidated, Valid, GivingBack;
  }

  /** Whatever happened while the lock was dropped, a search that goes on, or whose
      acquisition returns, changes the search results of the session instance it began
      with and of no other, and of none in another life of the module. */
  lemma ResumedTouchesOwn(m: Pkcs, call: Call, a: Acquirer, asks: bool, result: Option<bool>)
    ensures Touched(m, SearchWoken(m, call, asks), call)
    ensures Touched(m, AcquireReturned(m, a, result), a.call)
  {
    var w := m.(waiting := m.waiting - multiset{call});
    assert Touched(m, w, call) && Touched(m, Landed(m, a), a.call);
    assert Touched(m, Counted(Landed(m, a)), a.call);
    EnsureTouches(w, call, asks);
    TouchedThen(m, w, Ensure(w, call, asks), call);
    StoreTouches(Landed(m, a), a.call, false);
    TouchedThen(m, Landed(m, a), Store(Landed(m, a), a.call, false), a.call);
    if result.Some? {
      ArrivedTouches(Counted(Landed(m, a)), a, m.ids.grants, result.value);
      TouchedThen(m, Counted(Landed(m, a)),
                  Arrived(Counted(Landed(m, a)), a, m.ids.grants, result.value), a.call);
    }
    hide Touched, Ensure, Store, Arrived, Landed, Counted;
  }

  // ----- Object handles -----

  const PERIOD := 0x1000_0000

  predicate Index(i: nat) { 1 <= i <= 3 }

  lemma HandleParts(generation: nat, i: nat)
    requires Index(i)
    ensures ObjectHandle(generation, i) == (generation % PERIOD) * 16 + i
    ensures ObjectHandle(generation, i) % 16 == i && ObjectHandle(generation, i) / 16 == generation % PERIOD
  {
    var q, r := generation / PERIOD, generation % PERIOD;
    assert generation * 16 == q * HANDLES + r * 16;
    assert r * 16 < HANDLES;
    Remainder(q, r * 16);
  }

  lemma Remainder(q: nat, r: nat)
    requires r < HANDLES
    ensures (q * HANDLES + r) % HANDLES == r
  {
    assert q * HANDLES + r == r + HANDLES * q;
  }

  /** Handles of two generations coincide exactly if they are the same object's of
      generations that are a multiple of 2^28 apart. */
  lemma HandlesCoincide(a: nat, i: nat, b: nat, j: nat)
    requires Index(i) && Index(j)
    ensures ObjectHandle(a, i) == ObjectHandle(b, j) <==> i == j && a % PERIOD == b % PERIOD
    ensures 0 < ObjectHandle(a, i) < HANDLES
  {
    HandleParts(a, i);
    HandleParts(b, j);
  }

  /** While the generation is below 2^28 no handle of one grant's objects is a handle
      of another's, in this life of the module or a later one: a key handle kept from
      an earlier grant is never taken for the key of the grant in force. */
  lemma HandlesNeverReused(events: seq<Event>, a: nat, b: nat, i: nat, j: nat)
    requires a < b < |Run(events).installed| && Index(i) && Index(j)
    requires Run(events).ids.generation < PERIOD
    ensures var m := Run(events);
            var key := ObjectHandle(m.installed[a].1, i);
            && key != ObjectHandle(m.installed[b].1, j)
            && (forall h, permitted ::
                  SignInit(m, h, key, permitted) == Check(m)
                  && DecryptInit(m, h, key, permitted) == Check(m))
  {
    RunGood(events);
    var m := Run(events);
    hide Run;
    assert m.installed[a].1 < m.installed[b].1 <= m.ids.generation;
    HandlesCoincide(m.installed[a].1, i, m.installed[b].1, j);
    HandlesCoincide(m.installed[a].1, i, m.ids.generation, PRIVATE_KEY);
    assert !KeyOf(Check(m), ObjectHandle(m.installed[a].1, i));
  }
}
