/** The PKCS#11 module's process-wide state (src/module/module.c): calls of several
    threads share one grant, and the lock is dropped while a grant is acquired. */
module PortalModule {
  import opened Optional

  /** A search that has begun: the session instance it began with. */
  datatype Call = Call(handle: nat, lifecycle: nat, serial: nat)

  /** A search whose results are being read: the objects it looked through, named by
      their generation, if there were any. */
  datatype Find = Find(call: Call, objects: Option<nat>)

  /** `sign` and `decrypt` are the grant an active operation was initialised with. */
  datatype Session = Session(serial: nat, sign: Option<nat>, decrypt: Option<nat>,
                             found: Option<Find>)

  /** A thread inside the portal client's acquisition, with what it noted before it
      dropped the lock. */
  datatype Acquirer = Acquirer(call: Call, client: nat, generation: nat)

  /** Counters that only grow. */
  datatype Ids = Ids(lifecycle: nat, serial: nat, nextSession: nat, generation: nat, clients: nat,
                     grants: nat)

  /** `gone` and `expired` are the grants the portal has ended; `released` those the
      module gave back and `installed` those it installed, with the generation of
      their objects (history). */
  datatype Pkcs = Pkcs(
    initialized: bool, finalizing: bool, acquiring: bool, loggedIn: bool, ids: Ids,
    client: Option<nat>, grant: Option<nat>, objects: Option<nat>, sessions: map<nat, Session>,
    waiting: multiset<Call>, acquirers: multiset<Acquirer>, gone: set<nat>, expired: set<nat>,
    released: multiset<nat>, installed: seq<(nat, nat)>)

  const FRESH := Pkcs(false, false, false, false, Ids(0, 0, 1, 0, 0, 0), None, None, None, map[],
                      multiset{}, multiset{}, {}, {}, multiset{}, [])

  // ----- The grant in force -----

  function Reset(s: Session): Session { s.(sign := None, decrypt := None) }

  /** Pending operations must never use a replacement grant. */
  function ResetAll(sessions: map<nat, Session>): map<nat, Session> {
    map h | h in sessions :: Reset(sessions[h])
  }

  function GivenBack(m: Pkcs): multiset<nat> {
    if m.grant.Some? && m.grant.value !in m.gone then m.released + multiset{m.grant.value}
    else m.released
  }

  function Release(m: Pkcs): Pkcs {
    m.(ids := m.ids.(generation := m.ids.generation + 1), released := GivenBack(m),
       sessions := ResetAll(m.sessions), objects := None, grant := None)
  }

  predicate Ended(m: Pkcs) {
    m.grant.Some? && (m.grant.value in m.gone || m.grant.value in m.expired)
  }

  /** The end of a grant takes every session with it. */
  function Check(m: Pkcs): Pkcs {
    if Ended(m) then Release(m).(sessions := map[], loggedIn := false) else m
  }

  predicate StillGood(m: Pkcs) { m.grant.Some? && !Ended(m) }

  /** After a wait the session must be the very instance the search began with. */
  predicate Current(m: Pkcs, call: Call) {
    !m.finalizing && m.initialized && m.ids.lifecycle == call.lifecycle
  }

  function Revalidated(m: Pkcs, call: Call): Pkcs {
    if Current(m, call) then Check(m) else m
  }

  predicate Valid(m: Pkcs, call: Call) {
    && Current(m, call)
    && call.handle in Check(m).sessions && Check(m).sessions[call.handle].serial == call.serial
  }

  // ----- Searching -----

  /** The search stores its results, if its session is still there and not busy. */
  function Store(m: Pkcs, call: Call, acquired: bool): Pkcs {
    var m1 := Revalidated(m, call);
    if !Valid(m, call) || m1.sessions[call.handle].found.Some? then m1
    else
      var found := Find(call, if acquired then m1.objects else None);
      m1.(sessions := m1.sessions[call.handle := m1.sessions[call.handle].(found := Some(found))])
  }

  function StartAcquiring(m: Pkcs, call: Call): Pkcs
    requires m.client.Some?
  {
    m.(acquiring := true,
       acquirers := m.acquirers + multiset{Acquirer(call, m.client.value, m.ids.generation)})
  }

  /** `asks` is whether the portal is there, the template wants a credential and the
      user has not just refused one. */
  function Continued(m: Pkcs, call: Call, asks: bool): Pkcs {
    var m1 := Check(m);
    if StillGood(m) then Store(m1, call, true)
    else if !asks || m1.client.None? then Store(m1, call, false)
    else StartAcquiring(m1, call)
  }

  function Ensure(m: Pkcs, call: Call, asks: bool): Pkcs {
    if m.acquiring then Store(m, call, false)
    else if !Valid(m, call) then Store(Revalidated(m, call), call, false)
    else Continued(Revalidated(m, call), call, asks)
  }

  function SearchBegun(m: Pkcs, handle: nat, asks: bool): Pkcs {
    var m1 := Check(m);
    if handle !in m1.sessions || m1.sessions[handle].found.Some? then m1
    else
      var call := Call(handle, m1.ids.lifecycle, m1.sessions[handle].serial);
      if m1.acquiring then m1.(waiting := m1.waiting + multiset{call}) else Ensure(m1, call, asks)
  }

  function SearchWoken(m: Pkcs, call: Call, asks: bool): Pkcs {
    Ensure(m.(waiting := m.waiting - multiset{call}), call, asks)
  }

  function Install(m: Pkcs, grant: nat, made: bool): Pkcs {
    var generation := m.ids.generation + 1;
    var m1 := m.(grant := Some(grant), ids := m.ids.(generation := generation),
                 objects := Some(generation), installed := m.installed + [(grant, generation)]);
    if made then m1 else Release(m1)
  }

  /** The first grant to arrive is installed; another would displace it. */
  function Placed(m: Pkcs, call: Call, grant: nat, made: bool): Pkcs {
    if m.grant.Some? then
      var m1 := GivingBack(m, grant);
      Store(Check(m1), call, StillGood(m1))
    else Store(Install(m, grant, made), call, made)
  }

  /** Unless nothing was released meanwhile and the search's session is still there,
      the grant is not installed. */
  function Arrived(m: Pkcs, a: Acquirer, grant: nat, made: bool): Pkcs {
    if m.client != Some(a.client) || m.ids.generation != a.generation then
      Store(GivingBack(m, grant), a.call, false)
    else if !Valid(m, a.call) then
      Store(GivingBack(Revalidated(m, a.call), grant), a.call, false)
    else Placed(Revalidated(m, a.call), a.call, grant, made)
  }

  function Landed(m: Pkcs, a: Acquirer): Pkcs {
    m.(acquiring := false, acquirers := m.acquirers - multiset{a})
  }

  function Counted(m: Pkcs): Pkcs { m.(ids := m.ids.(grants := m.ids.grants + 1)) }

  /** `result` is whether the certificate objects of the new grant could be made. */
  function AcquireReturned(m: Pkcs, a: Acquirer, result: Option<bool>): Pkcs {
    if result.None? then Store(Landed(m, a), a.call, false)
    else Arrived(Counted(Landed(m, a)), a, m.ids.grants, result.value)
  }

  /** Not installed: the grant goes back to the portal on the spot. */
  function GivingBack(m: Pkcs, grant: nat): Pkcs {
    m.(released := m.released + multiset{grant})
  }

  // ----- Life of the module and of its sessions -----

  function Initialized(m: Pkcs, hasClient: bool): Pkcs {
    m.(initialized := true, finalizing := false, loggedIn := false, sessions := map[],
       ids := m.ids.(lifecycle := m.ids.lifecycle + 1, nextSession := 1,
                     clients := m.ids.clients + 1),
       client := if hasClient then Some(m.ids.clients) else None)
  }

  function Finalized(m: Pkcs): Pkcs {
    Release(m).(sessions := map[], client := None, loggedIn := false, finalizing := false,
                initialized := false)
  }

  function OpenSession(m: Pkcs): Pkcs {
    var m1 := Check(m);
    m1.(ids := m1.ids.(nextSession := m1.ids.nextSession + 1, serial := m1.ids.serial + 1),
        sessions := m1.sessions[m1.ids.nextSession := Session(m1.ids.serial + 1, None, None, None)])
  }

  function CloseSession(m: Pkcs, handle: nat): Pkcs {
    var sessions := m.sessions - {handle};
    m.(sessions := sessions,
       loggedIn := m.loggedIn && !(handle in m.sessions && sessions == map[]))
  }

  function CloseAll(m: Pkcs): Pkcs { Release(m.(sessions := map[])).(loggedIn := false) }

  function Logout(m: Pkcs, handle: nat): Pkcs {
    var m1 := Check(m);
    if handle !in m1.sessions then m1 else Release(m1.(loggedIn := false))
  }

  function Login(m: Pkcs, handle: nat): Pkcs {
    var m1 := Check(m);
    if handle in m1.sessions then m1.(loggedIn := true) else m1
  }

  // ----- Objects and operations -----

  const HANDLES := 0x1_0000_0000

  /** Three objects of each grant, told apart by the low four bits. */
  function ObjectHandle(generation: nat, index: nat): nat {
    (generation * 16) % HANDLES + index
  }

  const PRIVATE_KEY := 3

  function Changed(m: Pkcs, handle: nat, s: Session): Pkcs {
    m.(sessions := m.sessions[handle := s])
  }

  predicate KeyOf(m: Pkcs, key: nat) {
    m.grant.Some? && m.objects.Some? && key == ObjectHandle(m.objects.value, PRIVATE_KEY)
  }

  /** `permitted` is the check of the grant's operations and of the mechanism. */
  function SignInit(m: Pkcs, handle: nat, key: nat, permitted: bool): Pkcs {
    var m1 := Check(m);
    if handle !in m1.sessions || m1.sessions[handle].sign.Some? || !KeyOf(m1, key) || !permitted
    then m1
    else Changed(m1, handle, m1.sessions[handle].(sign := m1.grant))
  }

  function DecryptInit(m: Pkcs, handle: nat, key: nat, permitted: bool): Pkcs {
    var m1 := Check(m);
    if handle !in m1.sessions || m1.sessions[handle].decrypt.Some? || !KeyOf(m1, key)
       || !permitted
    then m1
    else Changed(m1, handle, m1.sessions[handle].(decrypt := m1.grant))
  }

  function OperationEnded(m: Pkcs, handle: nat): Pkcs {
    var m1 := Check(m);
    if handle !in m1.sessions then m1 else Changed(m1, handle, Reset(m1.sessions[handle]))
  }

  function SearchEnded(m: Pkcs, handle: nat): Pkcs {
    var m1 := Check(m);
    if handle !in m1.sessions then m1
    else Changed(m1, handle, m1.sessions[handle].(found := None))
  }

  // ----- Steps and runs -----

  datatype Event =
    | Initialize(hasClient: bool)
    | FinalizeBegins
    | FinalizeEnds
    | SessionOpened
    | SessionClosed(handle: nat)
    | AllClosed
    | LoggedIn(handle: nat)
    | LoggedOut(handle: nat)
    | SearchBegins(handle: nat, asks: bool)
    | SearchWakes(call: Call, asks: bool)
    | AcquisitionReturns(acquirer: Acquirer, result: Option<bool>)
    | SearchEnds(handle: nat)
    | SignBegins(handle: nat, key: nat, permitted: bool)
    | DecryptBegins(handle: nat, key: nat, permitted: bool)
    | OperationEnds(handle: nat)
    | PortalEnds(grant: nat)
    | GrantExpires(grant: nat)

  predicate Enabled(m: Pkcs, e: Event) {
    match e
    case Initialize(_) => !m.initialized
    case FinalizeBegins => m.initialized && !m.finalizing
    case FinalizeEnds => m.finalizing && !m.acquiring
    case SessionOpened => m.initialized && !m.finalizing && m.client.Some?
    case SearchBegins(_, _) => m.initialized && !m.finalizing
    case SearchWakes(call, _) => m.waiting[call] > 0 && (m.finalizing || !m.acquiring)
    case AcquisitionReturns(a, _) => m.acquirers[a] > 0
    case PortalEnds(_) => true
    case GrantExpires(_) => true
    case _ => m.initialized
  }

  function Step(m: Pkcs, e: Event): Pkcs {
    if !Enabled(m, e) then m
    else
      match e
      case Initialize(hasClient) => Initialized(m, hasClient)
      case FinalizeBegins =>
        if m.acquiring then m.(finalizing := true) else Finalized(m.(finalizing := true))
      case FinalizeEnds => Finalized(m)
      case SessionOpened => OpenSession(m)
      case SessionClosed(handle) => CloseSession(m, handle)
      case AllClosed => CloseAll(m)
      case LoggedIn(handle) => Login(m, handle)
      case LoggedOut(handle) => Logout(m, handle)
      case SearchBegins(handle, asks) => SearchBegun(m, handle, asks)
      case SearchWakes(call, asks) => SearchWoken(m, call, asks)
      case AcquisitionReturns(a, result) => AcquireReturned(m, a, result)
      case SearchEnds(handle) => SearchEnded(m, handle)
      case SignBegins(handle, key, permitted) => SignInit(m, handle, key, permitted)
      case DecryptBegins(handle, key, permitted) => DecryptInit(m, handle, key, permitted)
      case OperationEnds(handle) => OperationEnded(m, handle)
      case PortalEnds(grant) => m.(gone := m.gone + {grant})
      case GrantExpires(grant) => m.(expired := m.expired + {grant})
  }

  function Run(events: seq<Event>): Pkcs {
    if events == [] then FRESH else Step(Run(events[..|events| - 1]), events[|events| - 1])
  }
}
