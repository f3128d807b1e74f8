/** One token session of a grant (src/broker/device.c). The PKCS#11 module is an
    oracle: its answers are parameters, and the handles it gives out are counted. */
module TokenDevice {
  import opened Optional

  /** What C_GetSessionInfo answers. */
  datatype Info = Known(loggedIn: bool) | Unknown(removed: bool)

  /** What one visit to the token finds: whether C_OpenSession succeeds, whether the
      private key is visible in a new session, the session's state, and whether the
      key is visible once the user is logged in. */
  datatype Visit = Visit(opens: bool, removed: bool, keyAtOpen: bool, info: Info, keyAfter: bool)

  datatype Verdict = Fine | Refused(removed: bool)

  /** `issued` is how many handles the token has given out, each a new number;
      `closed` lists those given back, in order, and is history. */
  datatype Device = Device(session: Option<nat>, key: bool, loggedIn: bool,
                           issued: nat, closed: seq<nat>)

  const UNUSED := Device(None, false, false, 0, [])

  function Closed(d: Device): Device {
    if d.session.None? then d
    else Device(None, false, false, d.issued, d.closed + [d.session.value])
  }

  function Started(d: Device, keyAtOpen: bool): Device {
    d.(session := Some(d.issued), issued := d.issued + 1, key := keyAtOpen, loggedIn := false)
  }

  function Refreshed(d: Device, visit: Visit): (Device, Verdict) {
    if d.session.None? then (d, Refused(true))
    else
      match visit.info
      case Unknown(removed) => (d, Refused(removed))
      case Known(loggedIn) =>
        var key := d.key && !(d.loggedIn && !loggedIn);
        (d.(key := key || (loggedIn && visit.keyAfter), loggedIn := loggedIn), Fine)
  }

  /** `rebinds` is whether the credential is recognised as the one the session was
      opened for, which needs a token with a serial number. */
  function Opened(d: Device, rebinds: bool, visit: Visit): (Device, Verdict) {
    if d.session.Some? && rebinds then Refreshed(d, visit)
    else
      var d1 := Closed(d).(key := false);
      if !visit.opens then (d1, Refused(visit.removed))
      else Refreshed(Started(d1, visit.keyAtOpen), visit)
  }

  function LoggedIn(d: Device, accepted: bool, removed: bool, keyAfter: bool): (Device, Verdict) {
    if d.session.None? then (d, Refused(true))
    else if !accepted then (d, Refused(removed))
    else (d.(loggedIn := true, key := d.key || keyAfter), Fine)
  }

  /** The handle in use is the newest, every older one has been given back once and
      in order, and nothing is known of a token that is not open. */
  ghost predicate Sound(d: Device) {
    && d.issued == |d.closed| + (if d.session.Some? then 1 else 0)
    && (d.session.Some? ==> d.session.value == d.issued - 1)
    && (forall i :: 0 <= i < |d.closed| ==> d.closed[i] == i)
    && (d.session.None? ==> !d.key && !d.loggedIn)
  }

  /** The state of the original's device record, changed in place. */
  class CertificateDevice {
    var session: Option<nat>
    var key: bool
    var loggedIn: bool
    var issued: nat
    ghost var closed: seq<nat>

    ghost function View(): Device reads this {
      Device(session, key, loggedIn, issued, closed)
    }

    constructor ()
      ensures View() == UNUSED
    {
      session, key, loggedIn, issued, closed := None, false, false, 0, [];
    }

    method Close()
      modifies this
      ensures View() == Closed(old(View()))
    {
      if session.None? {
        return;
      }
      closed := closed + [session.value];
      session, key, loggedIn := None, false, false;
    }

    method RefreshLogin(visit: Visit) returns (verdict: Verdict)
      modifies this
      ensures (View(), verdict) == Refreshed(old(View()), visit)
    {
      if session.None? {
        return Refused(true);
      }
      if visit.info.Unknown? {
        return Refused(visit.info.removed);
      }
      if loggedIn && !visit.info.loggedIn {
        key := false;
      }
      loggedIn := visit.info.loggedIn;
      if loggedIn && !key {
        key := visit.keyAfter;
      }
      verdict := Fine;
    }

    method Open(rebinds: bool, visit: Visit) returns (verdict: Verdict)
      modifies this
      ensures (View(), verdict) == Opened(old(View()), rebinds, visit)
    {
      if session.Some? {
        if rebinds {
          verdict := RefreshLogin(visit);
          return;
        }
        // Another credential needs a session and a login of its own.
        Close();
      }
      key := false;
      if !visit.opens {
        return Refused(visit.removed);
      }
      session, key, loggedIn := Some(issued), visit.keyAtOpen, false;
      issued := issued + 1;
      verdict := RefreshLogin(visit);
    }

    /** An empty PIN selects the token's own entry path; either way the token answers. */
    method Login(accepted: bool, removed: bool, keyAfter: bool) returns (verdict: Verdict)
      modifies this
      ensures (View(), verdict) == LoggedIn(old(View()), accepted, removed, keyAfter)
    {
      if session.None? {
        return Refused(true);
      }
      if !accepted {
        return Refused(removed);
      }
      loggedIn := true;
      if !key {
        key := keyAfter;
      }
      verdict := Fine;
    }
  }

  /** Every change of the record keeps it in order, gives back only what was open,
      and never takes back a handle that was given back. */
  lemma DeviceSound(d: Device, rebinds: bool, visit: Visit, accepted: bool, removed: bool)
    requires Sound(d)
    ensures Sound(Closed(d)) && d.closed <= Closed(d).closed && Closed(d).issued == d.issued
    ensures var (t, _) := Refreshed(d, visit);
            Sound(t) && t.closed == d.closed && t.issued == d.issued
    ensures var (t, _) := Opened(d, rebinds, visit);
            Sound(t) && d.closed <= t.closed && d.issued <= t.issued
    ensures var (t, _) := LoggedIn(d, accepted, removed, visit.keyAfter);
            Sound(t) && t.closed == d.closed && t.issued == d.issued
  {
  }

  /** Closing leaves no handle open, of all that were ever given out. */
  lemma CloseReleasesAll(d: Device, handle: nat)
    requires Sound(d) && handle < d.issued
    ensures handle in Closed(d).closed
    ensures handle in d.closed <==> d.session != Some(handle)
  {
    assert Closed(d).closed[handle] == handle;
    if d.session != Some(handle) {
      assert d.closed[handle] == handle;
    }
  }

  /** A session survives opening only for the same credential, recognised by its
      token's serial number; otherwise it is given back before another is asked for. */
  lemma OpenReplaces(d: Device, rebinds: bool, visit: Visit)
    requires Sound(d) && d.session.Some?
    ensures var (t, _) := Opened(d, rebinds, visit);
            && (rebinds <==> d.session.value !in t.closed)
            && (rebinds ==> t.session == d.session)
            && (!rebinds && visit.opens ==> t.session == Some(d.session.value + 1))
            && (!rebinds && !visit.opens ==> t.session.None?)
  {
    var (t, _) := Opened(d, rebinds, visit);
    if rebinds {
      CloseReleasesAll(d, d.session.value);
    } else {
      assert Closed(d).closed[d.session.value] == d.session.value;
    }
  }
}
