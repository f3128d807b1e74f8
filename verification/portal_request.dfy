/** Requests the PKCS#11 module sends to the portal (src/module/portal.c). A
    method reply, a Response signal, a timeout, a cancellation and a change of
    the portal's owner may come in any order; every request completes once and a
    request the portal may still be working on is closed there once. */
module PortalRequests {
  import opened Optional

  type Path = string

  datatype Failure = TimedOut | Cancelled | Invalidated | CallFailed

  /** `returned` and `closed` are the source's returned_path and closed_path.
      The last three fields are history: they record what happened. */
  datatype Request = Request(
    predicted: Path, generation: nat,
    sent: bool, completed: bool, responded: bool, methodFailed: bool,
    returned: Option<Path>, closed: Option<Path>, error: Option<Failure>,
    subscribed: Option<Path>, timeoutArmed: bool, callPending: bool,
    completions: nat, closes: seq<Path>, replied: Option<Path>)

  function Fresh(predicted: Path, generation: nat): Request {
    Request(predicted, generation, false, false, false, false, None, None, None,
            None, false, false, 0, [], None)
  }

  datatype Client = Client(
    requests: map<nat, Request>, live: seq<nat>, calls: nat,
    cancelled: bool, owner: Option<string>, ownerGeneration: nat,
    draining: bool, expiries: nat, stopped: bool)

  const START := Client(map[], [], 0, false, None, 0, false, 0, false)

  datatype Event =
    | Create(id: nat, predicted: Path, generation: nat)
    | Start(id: nat)
    | Response(id: nat, path: Path)
    | Timeout(id: nat)
    | Reply(id: nat, path: Path)                 // the method returned a path
    | ReplyError(id: nat, final: bool)           // final: no request can exist at the portal
    | CancelAll
    | Owner(name: Option<string>)
    | BeginDrain
    | DrainExpired

  // ----- One request -----

  function CloseAtPortal(r: Request, path: Path): Request {
    if r.closed == Some(path) then r
    else r.(closed := Some(path), closes := r.closes + [path])
  }

  function Complete(r: Request): Request {
    if r.completed then r
    else
      var r1 := r.(completed := true, completions := r.completions + 1);
      var r2 := if r.sent && !r.responded && !r.methodFailed
                then CloseAtPortal(r1, if r.returned.Some? then r.returned.value else r.predicted)
                else r1;
      r2.(timeoutArmed := false, subscribed := None)
  }

  function Fail(r: Request, why: Failure): Request {
    Complete(r.(error := Some(why)))
  }

  function Responded(r: Request): Request {
    if r.completed then r else Complete(r.(responded := true))
  }

  function Replied(r: Request, path: Path): Request {
    var r0 := r.(callPending := false, replied := Some(path));
    if r.completed then if r.responded then r0 else CloseAtPortal(r0, path)
    else r0.(returned := Some(path),
             subscribed := if path != r.predicted then Some(path) else r.subscribed)
  }

  function RepliedError(r: Request, final: bool): Request {
    var r0 := r.(callPending := false);
    if r.completed then r0 else Fail(r0.(methodFailed := final), CallFailed)
  }

  // ----- The client -----

  function Put(c: Client, id: nat, r: Request): Client
  {
    var c1 := c.(requests := c.requests[id := r]);
    if r.completed then c1.(live := Without(c.live, id)) else c1
  }

  /** g_slist_remove: the first occurrence. */
  function Without(s: seq<nat>, id: nat): seq<nat> {
    if s == [] then []
    else if s[0] == id then s[1..]
    else [s[0]] + Without(s[1..], id)
  }

  /** Every live request ends with the same failure, first to last. */
  function FailLive(c: Client, live: seq<nat>, why: Failure): Client
    decreases |live|
  {
    if live == [] then c
    else if live[0] !in c.requests then FailLive(c, live[1..], why)
    else FailLive(Put(c, live[0], Fail(c.requests[live[0]], why)), live[1..], why)
  }

  predicate Current(c: Client, r: Request) {
    c.owner.Some? && c.ownerGeneration == r.generation
  }

  function StartRequest(c: Client, id: nat, r: Request): Client {
    if c.cancelled || !Current(c, r) then
      Put(c, id, Fail(r, if c.cancelled then Cancelled else Invalidated))
    else
      c.(requests := c.requests[id := r.(sent := true, subscribed := Some(r.predicted),
                                         callPending := true, timeoutArmed := true)],
         live := [id] + c.live, calls := c.calls + 1)
  }

  /** The loop may stop once the last outstanding callback has run. */
  function CallFinished(c: Client): Client
    requires c.calls > 0
  {
    var c1 := c.(calls := c.calls - 1);
    if c1.draining && c1.calls == 0 then c1.(stopped := true) else c1
  }

  predicate Enabled(c: Client, e: Event) {
    match e
    case Create(id, _, _) => id !in c.requests
    case Start(id) => id in c.requests && !c.requests[id].sent && !c.requests[id].completed
    case Response(id, path) => id in c.requests && c.requests[id].subscribed == Some(path)
    case Timeout(id) => id in c.requests && c.requests[id].timeoutArmed
    case Reply(id, _) => id in c.requests && c.requests[id].callPending && c.calls > 0
    case ReplyError(id, _) => id in c.requests && c.requests[id].callPending && c.calls > 0
    case CancelAll => true
    case Owner(_) => true
    case BeginDrain => true
    case DrainExpired => c.draining
  }

  /** One callback of the client's thread; an event that cannot occur changes nothing. */
  function Step(c: Client, e: Event): Client {
    if c.stopped || !Enabled(c, e) then c
    else
      match e
      case Create(id, predicted, generation) =>
        c.(requests := c.requests[id := Fresh(predicted, generation)])
      case Start(id) => StartRequest(c, id, c.requests[id])
      case Response(id, _) => Put(c, id, Responded(c.requests[id]))
      case Timeout(id) => Put(c, id, Fail(c.requests[id].(timeoutArmed := false), TimedOut))
      case Reply(id, path) => CallFinished(Put(c, id, Replied(c.requests[id], path)))
      case ReplyError(id, final) => CallFinished(Put(c, id, RepliedError(c.requests[id], final)))
      case CancelAll => FailLive(c.(cancelled := true), c.live, Cancelled)
      case Owner(name) =>
        if name == c.owner then c
        else
          FailLive(c.(owner := name, ownerGeneration := c.ownerGeneration + 1), c.live, Invalidated)
      case BeginDrain => c.(cancelled := true, draining := true, stopped := c.calls == 0)
      // The first grace period cancels the calls, the second gives up on them.
      case DrainExpired => c.(expiries := c.expiries + 1, stopped := c.expiries > 0)
  }

  function Run(events: seq<Event>): Client {
    if events == [] then START
    else Step(Run(events[..|events| - 1]), events[|events| - 1])
  }

  // ----- The client's thread, updated in place -----

  class PortalClient {
    var requests: map<nat, Request>
    var live: seq<nat>
    var calls: nat
    var cancelled: bool
    var owner: Option<string>
    var ownerGeneration: nat
    var draining: bool
    var expiries: nat
    var stopped: bool

    ghost function View(): Client reads this {
      Client(requests, live, calls, cancelled, owner, ownerGeneration, draining, expiries, stopped)
    }

    ghost predicate Valid() reads this { Consistent(View()) }

    constructor ()
      ensures Valid() && View() == START
    {
      requests, live, calls := map[], [], 0;
      cancelled, owner, ownerGeneration := false, None, 0;
      draining, expiries, stopped := false, 0, false;
      new;
      RunConsistent([]);
    }

    method RemoveLive(id: nat)
      modifies this`live
      ensures live == Without(old(live), id)
    {
      for i := 0 to |live|
        invariant live == old(live)
        invariant Without(live, id) == live[..i] + Without(live[i..], id)
      {
        if live[i] == id {
          live := live[..i] + live[i + 1..];
          return;
        }
        assert live[..i + 1] == live[..i] + [live[i]];
      }
    }

    /** `r` is the record as the caller has just changed it. */
    method RequestComplete(id: nat, r: Request)
      requires id in requests && !r.completed
      modifies this`requests, this`live
      ensures View() == Put(old(View()), id, Complete(r))
    {
      var done := r.(completed := true, completions := r.completions + 1);
      RemoveLive(id);
      if done.sent && !done.responded && !done.methodFailed {
        done := CloseAtPortal(done, if r.returned.Some? then r.returned.value else r.predicted);
      }
      done := done.(timeoutArmed := false);
      done := done.(subscribed := None);
      requests := requests[id := done];
    }

    method OnResponse(id: nat, path: Path)
      requires Valid() && !stopped && Enabled(View(), Response(id, path))
      modifies this
      ensures Valid() && View() == Step(old(View()), Response(id, path))
    {
      hide Consistent;
      StepConsistent(View(), Response(id, path));
      Facts(View(), id);
      RequestComplete(id, requests[id].(responded := true));
    }

    method OnTimeout(id: nat)
      requires Valid() && !stopped && Enabled(View(), Timeout(id))
      modifies this
      ensures Valid() && View() == Step(old(View()), Timeout(id))
    {
      hide Consistent;
      StepConsistent(View(), Timeout(id));
      Facts(View(), id);
      RequestComplete(id, requests[id].(timeoutArmed := false, error := Some(TimedOut)));
    }

    method FinishCall()
      requires calls > 0
      modifies this`calls, this`stopped
      ensures View() == CallFinished(old(View()))
    {
      calls := calls - 1;
      if !draining || calls > 0 {
        return;
      }
      stopped := true;
    }

    /** A late reply may name a request path that still needs closing. */
    method LateReply(id: nat, path: Path)
      requires id in requests && requests[id].completed && id !in live
      modifies this`requests
      ensures View() == Put(old(View()), id, Replied(old(requests)[id], path))
    {
      WithoutAbsent(live, id);
      var r := requests[id].(callPending := false, replied := Some(path));
      if !r.responded {
        r := CloseAtPortal(r, path);
      }
      requests := requests[id := r];
    }

    method FirstReply(id: nat, path: Path)
      requires id in requests && !requests[id].completed
      modifies this`requests
      ensures View() == Put(old(View()), id, Replied(old(requests)[id], path))
    {
      var r := requests[id].(callPending := false, replied := Some(path), returned := Some(path));
      if path != r.predicted {
        r := r.(subscribed := Some(path));
      }
      requests := requests[id := r];
    }

    method ErrorReply(id: nat, final: bool)
      requires id in requests && (requests[id].completed ==> id !in live)
      modifies this`requests, this`live
      ensures View() == Put(old(View()), id, RepliedError(old(requests)[id], final))
    {
      WithoutAbsent(live, id);
      var r := requests[id].(callPending := false);
      if r.completed {
        requests := requests[id := r];
      } else {
        RequestComplete(id, r.(methodFailed := final, error := Some(CallFailed)));
      }
    }

    /** `reply` is the returned path, or None with `final` for an error. */
    method OnMethodReturned(id: nat, reply: Option<Path>, final: bool)
      requires Valid() && !stopped && id in requests && requests[id].callPending && calls > 0
      modifies this
      ensures Valid()
      ensures View() == Step(old(View()),
                             if reply.Some? then Reply(id, reply.value) else ReplyError(id, final))
    {
      hide Consistent;
      StepConsistent(View(), if reply.Some? then Reply(id, reply.value) else ReplyError(id, final));
      Facts(View(), id);
      if reply.None? {
        ErrorReply(id, final);
      } else if requests[id].completed {
        LateReply(id, reply.value);
      } else {
        FirstReply(id, reply.value);
      }
      FinishCall();
    }

    method RequestStart(id: nat)
      requires Valid() && !stopped && Enabled(View(), Start(id))
      modifies this
      ensures Valid() && View() == Step(old(View()), Start(id))
    {
      hide Consistent;
      StepConsistent(View(), Start(id));
      Facts(View(), id);
      var r := requests[id];
      var current := owner.Some? && ownerGeneration == r.generation;
      if cancelled || !current {
        RequestComplete(id, r.(error := Some(if cancelled then Cancelled else Invalidated)));
        return;
      }
      live := [id] + live;
      r := r.(sent := true);
      r := r.(subscribed := Some(r.predicted));
      calls := calls + 1;
      r := r.(callPending := true);
      r := r.(timeoutArmed := true);
      requests := requests[id := r];
    }

    /** The loop of cancel_requests and owner_changed: complete the head until
        nothing is live. */
    method FailAll(why: Failure)
      requires LiveExactly(View())
      modifies this`requests, this`live
      ensures View() == FailLive(old(View()), old(live), why)
    {
      ghost var start := View();
      while live != []
        invariant LiveExactly(View())
        invariant FailLive(start, start.live, why) == FailLive(View(), live, why)
        decreases |live|
      {
        var id := live[0];
        assert id in live;
        FailHead(View(), why);
        RequestComplete(id, requests[id].(error := Some(why)));
      }
    }

    method CancelRequests()
      requires Valid() && !stopped
      modifies this
      ensures Valid() && View() == Step(old(View()), CancelAll)
    {
      hide Consistent;
      StepConsistent(View(), CancelAll);
      LiveFacts(View());
      cancelled := true;
      assert LiveExactly(View());
      FailAll(Cancelled);
    }

    method OwnerChanged(name: Option<string>)
      requires Valid() && !stopped
      modifies this
      ensures Valid() && View() == Step(old(View()), Owner(name))
    {
      hide Consistent;
      StepConsistent(View(), Owner(name));
      LiveFacts(View());
      if name == owner {
        return;
      }
      owner := name;
      ownerGeneration := ownerGeneration + 1;
      assert LiveExactly(View());
      FailAll(Invalidated);
    }
  }

  // ----- Invariants -----

  /** What one request looks like between callbacks: which Close messages it has
      sent is determined by how it ended and by the method's reply. */
  ghost predicate Coherent(r: Request) {
    && r.completions == (if r.completed then 1 else 0)
    && (r.callPending ==> r.sent && r.replied == None)
    && (r.timeoutArmed ==> r.sent && !r.completed)
    && (r.subscribed.Some? ==> r.sent && !r.completed)
    && (!r.sent ==> r.closes == [] && !r.responded && !r.methodFailed && r.replied == None)
    && (!r.completed ==> r.closes == [] && r.closed == None && r.error == None
                         && !r.responded && !r.methodFailed && r.returned == r.replied)
    && (!r.completed && r.sent && !r.callPending ==> r.replied.Some?)
    && (r.returned.Some? ==> r.returned == r.replied)
    && (r.methodFailed ==> r.completed && !r.callPending && r.replied == None)
    && (r.completed && r.sent ==>
          && r.closes == ClosesFor(r)
          && (r.closes != [] ==> r.closed == Some(r.closes[|r.closes| - 1])))
  }

  /** The Close messages a completed request has sent so far. */
  function ClosesFor(r: Request): seq<Path> {
    if r.responded || r.methodFailed then []
    else if r.returned.Some? then [r.returned.value]
    else if r.replied.Some? && r.replied.value != r.predicted then [r.predicted, r.replied.value]
    else [r.predicted]
  }

  ghost predicate Unique(s: seq<nat>) {
    forall i, j :: 0 <= i < j < |s| ==> s[i] != s[j]
  }

  ghost predicate LiveExactly(c: Client) {
    && Unique(c.live)
    && (forall id :: id in c.live <==>
          id in c.requests && c.requests[id].sent && !c.requests[id].completed)
  }

  ghost predicate AllCoherent(requests: map<nat, Request>) {
    forall id :: id in requests ==> Coherent(requests[id])
  }

  function Pending(requests: map<nat, Request>): set<nat> {
    set id | id in requests && requests[id].callPending
  }

  ghost predicate Consistent(c: Client) {
    && LiveExactly(c)
    && AllCoherent(c.requests)
    && c.calls == |Pending(c.requests)|
    && (c.stopped ==> c.draining && (c.calls == 0 || c.expiries == 2))
    && c.expiries <= (if c.stopped then 2 else 1)
    && (c.draining && c.calls == 0 ==> c.stopped)
  }

  lemma LiveFacts(c: Client)
    requires Consistent(c)
    ensures LiveExactly(c)
  {
  }

  lemma Facts(c: Client, id: nat)
    requires Consistent(c) && id in c.requests
    ensures c.requests[id].completed ==> id !in c.live
    ensures c.requests[id].subscribed.Some? || c.requests[id].timeoutArmed ==> !c.requests[id].completed
  {
    assert Coherent(c.requests[id]);
  }

  /** One turn of the loop over the live list. */
  lemma FailHead(c: Client, why: Failure)
    requires LiveExactly(c) && c.live != []
    ensures var id := c.live[0];
            && id in c.requests && !c.requests[id].completed
            && var c' := Put(c, id, Fail(c.requests[id], why));
            && c'.live == c.live[1..]
            && LiveExactly(c')
            && FailLive(c, c.live, why) == FailLive(c', c'.live, why)
  {
    var id := c.live[0];
    assert id in c.live;
    PutCompletedKeepsLive(c, id, Fail(c.requests[id], why));
  }

  lemma {:induction false} WithoutAbsent(s: seq<nat>, id: nat)
    ensures id !in s ==> Without(s, id) == s
    ensures forall x :: x != id ==> (x in Without(s, id) <==> x in s)
  {
    if s != [] {
      WithoutAbsent(s[1..], id);
      assert s == [s[0]] + s[1..];
    }
  }

  lemma {:induction false} WithoutUnique(s: seq<nat>, id: nat)
    requires Unique(s)
    ensures Unique(Without(s, id))
    ensures forall x :: x in Without(s, id) <==> x in s && x != id
  {
    if s != [] {
      assert s[0] !in s[1..];
      WithoutUnique(s[1..], id);
      var t := Without(s, id);
      if s[0] != id {
        assert t == [s[0]] + Without(s[1..], id);
      }
    }
  }

  lemma PutCompletedKeepsLive(c: Client, id: nat, r: Request)
    requires LiveExactly(c) && r.completed
    ensures LiveExactly(Put(c, id, r))
  {
    WithoutUnique(c.live, id);
  }

  /** Completing leaves exactly the messages that `ClosesFor` names. */
  lemma CompleteCoherent(r: Request)
    requires !r.completed && r.completions == 0 && r.closes == [] && r.closed == None
    requires r.returned == r.replied
    requires r.callPending ==> r.sent && r.replied == None
    requires !r.sent ==> !r.responded && !r.methodFailed && r.replied == None
    requires r.methodFailed ==> !r.callPending && r.replied == None
    ensures Complete(r).completed && Coherent(Complete(r))
    ensures Complete(r).callPending == r.callPending && Complete(r).sent == r.sent
  {
  }

  /** What replacing one record does to the parts of the invariant. */
  lemma PutParts(c: Client, id: nat, r: Request)
    requires AllCoherent(c.requests) && Coherent(r) && id in c.requests
    ensures var c' := Put(c, id, r);
            && c'.requests == c.requests[id := r]
            && AllCoherent(c'.requests)
            && Pending(c'.requests) == if r.callPending then Pending(c.requests) + {id}
                                       else Pending(c.requests) - {id}
  {
    hide Coherent;
  }

  lemma PutLive(c: Client, id: nat, r: Request)
    requires LiveExactly(c) && id in c.requests
    requires r.completed || (r.sent == c.requests[id].sent && !c.requests[id].completed)
    ensures LiveExactly(Put(c, id, r))
  {
    if r.completed {
      PutCompletedKeepsLive(c, id, r);
    }
  }

  lemma PutConsistent(c: Client, id: nat, r: Request)
    requires Consistent(c) && id in c.requests && Coherent(r)
    requires r.callPending == c.requests[id].callPending
    requires r.completed || (r.sent == c.requests[id].sent && !c.requests[id].completed)
    ensures Consistent(Put(c, id, r))
  {
    PutParts(c, id, r);
    PutLive(c, id, r);
    assert Pending(Put(c, id, r).requests) == Pending(c.requests);
  }

  lemma {:induction false} FailLiveConsistent(c: Client, live: seq<nat>, why: Failure)
    requires Consistent(c) && Unique(live)
    requires forall id :: id in live ==> id in c.requests && !c.requests[id].completed
    ensures Consistent(FailLive(c, live, why))
    decreases |live|
  {
    if live != [] {
      var id := live[0];
      assert id in live;
      FailCoherent(c.requests[id], why);
      PutConsistent(c, id, Fail(c.requests[id], why));
      assert forall x :: x in live[1..] ==> x in live && x != id;
      FailLiveConsistent(Put(c, id, Fail(c.requests[id], why)), live[1..], why);
    }
  }

  lemma FailCoherent(r: Request, why: Failure)
    requires Coherent(r) && !r.completed
    ensures var f := Fail(r, why);
            && Coherent(f) && f.completed && f.callPending == r.callPending && f.sent == r.sent
  {
    CompleteCoherent(r.(error := Some(why)));
  }

  /** The method callback of one request: one call less. */
  lemma ReturnConsistent(c: Client, id: nat, r: Request)
    requires Consistent(c) && !c.stopped && id in c.requests && Coherent(r)
    requires c.requests[id].callPending && !r.callPending
    requires r.completed || (r.sent == c.requests[id].sent && !c.requests[id].completed)
    ensures c.calls > 0 && Consistent(CallFinished(Put(c, id, r)))
  {
    PutParts(c, id, r);
    PutLive(c, id, r);
    assert id in Pending(c.requests);
    assert Pending(Put(c, id, r).requests) == Pending(c.requests) - {id};
  }

  lemma StartSent(c: Client, id: nat)
    requires Consistent(c) && !c.stopped && Enabled(c, Start(id))
    requires !c.cancelled && Current(c, c.requests[id])
    ensures Consistent(StartRequest(c, id, c.requests[id]))
  {
    var c1 := StartRequest(c, id, c.requests[id]);
    assert id !in Pending(c.requests);
    assert Pending(c1.requests) == Pending(c.requests) + {id};
    assert AllCoherent(c1.requests);
    assert id !in c.live;
    assert Unique(c1.live);
  }

  lemma StartConsistent(c: Client, id: nat)
    requires Consistent(c) && !c.stopped && Enabled(c, Start(id))
    ensures Consistent(StartRequest(c, id, c.requests[id]))
  {
    if c.cancelled || !Current(c, c.requests[id]) {
      var why := if c.cancelled then Cancelled else Invalidated;
      FailCoherent(c.requests[id], why);
      PutConsistent(c, id, Fail(c.requests[id], why));
    } else {
      StartSent(c, id);
    }
  }

  lemma ReplyConsistent(c: Client, id: nat, path: Path)
    requires Consistent(c) && !c.stopped && Enabled(c, Reply(id, path))
    ensures Consistent(Step(c, Reply(id, path)))
  {
    var r := c.requests[id];
    assert Coherent(Replied(r, path));
    ReturnConsistent(c, id, Replied(r, path));
  }

  lemma ReplyErrorConsistent(c: Client, id: nat, final: bool)
    requires Consistent(c) && !c.stopped && Enabled(c, ReplyError(id, final))
    ensures Consistent(Step(c, ReplyError(id, final)))
  {
    var r := c.requests[id];
    if !r.completed {
      CompleteCoherent(r.(callPending := false, methodFailed := final, error := Some(CallFailed)));
    }
    ReturnConsistent(c, id, RepliedError(r, final));
  }

  lemma ResponseConsistent(c: Client, id: nat, path: Path)
    requires Consistent(c) && !c.stopped && Enabled(c, Response(id, path))
    ensures Consistent(Step(c, Response(id, path)))
  {
    assert Coherent(c.requests[id]);
    CompleteCoherent(c.requests[id].(responded := true));
    PutConsistent(c, id, Responded(c.requests[id]));
  }

  lemma TimeoutConsistent(c: Client, id: nat)
    requires Consistent(c) && !c.stopped && Enabled(c, Timeout(id))
    ensures Consistent(Step(c, Timeout(id)))
  {
    assert Coherent(c.requests[id]);
    CompleteCoherent(c.requests[id].(timeoutArmed := false, error := Some(TimedOut)));
    PutConsistent(c, id, Fail(c.requests[id].(timeoutArmed := false), TimedOut));
  }

  lemma CreateConsistent(c: Client, id: nat, predicted: Path, generation: nat)
    requires Consistent(c) && !c.stopped && Enabled(c, Create(id, predicted, generation))
    ensures Consistent(Step(c, Create(id, predicted, generation)))
  {
    assert Pending(c.requests[id := Fresh(predicted, generation)]) == Pending(c.requests);
  }

  lemma EndingConsistent(c: Client, e: Event)
    requires Consistent(c) && !c.stopped && (e.BeginDrain? || e.DrainExpired? || e.CancelAll? || e.Owner?)
    ensures Consistent(Step(c, e))
  {
    hide AllCoherent, Pending;
    match e
    case CancelAll => FailLiveConsistent(c.(cancelled := true), c.live, Cancelled);
    case Owner(name) =>
      if name != c.owner {
        FailLiveConsistent(c.(owner := name, ownerGeneration := c.ownerGeneration + 1), c.live,
                           Invalidated);
      }
    case _ => hide FailLive;
  }

  lemma StepConsistent(c: Client, e: Event)
    requires Consistent(c)
    ensures Consistent(Step(c, e))
  {
    if !c.stopped && Enabled(c, e) {
      hide Consistent, StartRequest, Replied, RepliedError, Responded, Fail, FailLive, Put;
      match e
      case Create(id, predicted, generation) => CreateConsistent(c, id, predicted, generation);
      case Start(id) => StartConsistent(c, id);
      case Response(id, path) => ResponseConsistent(c, id, path);
      case Timeout(id) => TimeoutConsistent(c, id);
      case Reply(id, path) => ReplyConsistent(c, id, path);
      case ReplyError(id, final) => ReplyErrorConsistent(c, id, final);
      case _ => EndingConsistent(c, e);
    }
  }

  lemma {:induction false} RunConsistent(events: seq<Event>)
    ensures Consistent(Run(events))
  {
    if events == [] {
      assert Pending(START.requests) == {};
    } else {
      RunConsistent(events[..|events| - 1]);
      StepConsistent(Run(events[..|events| - 1]), events[|events| - 1]);
    }
  }

  // ----- Main results -----

  function Times(paths: seq<Path>, path: Path): nat {
    multiset(paths)[path]
  }

  /** In every run and for every request: it completes at most once; answered by
      a Response it sends no Close; otherwise, once it has completed and its method
      callback has run, the path the method named, if it named one, has been closed
      exactly once, and nothing but that path and the predicted one was closed. */
  lemma ClosedOnce(events: seq<Event>, id: nat)
    requires id in Run(events).requests
    ensures var r := Run(events).requests[id];
            && r.completions <= 1
            && (r.responded ==> r.closes == [])
            && (r.completed && !r.callPending && !r.responded && r.replied.Some? ==>
                  Times(r.closes, r.replied.value) == 1)
            && (forall p :: p in r.closes ==> p == r.predicted || r.replied == Some(p))
            && (r.completed && r.sent && !r.callPending && !r.responded && r.replied.None? ==>
                  r.closes == if r.methodFailed then [] else [r.predicted])
  {
    RunConsistent(events);
    assert Coherent(Run(events).requests[id]);
  }

  lemma EndsLive(c: Client, id: nat, e: Event)
    requires !c.stopped && id in c.requests && id in c.live
    requires e == CancelAll || (e.Owner? && e.name != c.owner)
    ensures id in Step(c, e).requests && Step(c, e).requests[id].completed
  {
    hide FailLive, Coherent;
    if e == CancelAll {
      FailsAll(c.(cancelled := true), c.live, Cancelled, id);
    } else {
      FailsAll(c.(owner := e.name, ownerGeneration := c.ownerGeneration + 1), c.live, Invalidated, id);
    }
  }

  /** Nothing stays open without a reason: a request that was sent is ended by
      cancellation and by a change of owner, if nothing ended it before. */
  lemma EveryLiveRequestEnds(events: seq<Event>, id: nat, e: Event)
    requires !Run(events).stopped && id in Run(events).requests && Run(events).requests[id].sent
    requires !Run(events).requests[id].completed
    requires e == CancelAll || (e.Owner? && e.name != Run(events).owner)
    ensures var c' := Step(Run(events), e);
            id in c'.requests && c'.requests[id].completed && id !in c'.live
  {
    hide Run, Step, Consistent;
    RunConsistent(events);
    LiveFacts(Run(events));
    EndsLive(Run(events), id, e);
    StepConsistent(Run(events), e);
    LiveFacts(Step(Run(events), e));
  }

  lemma FailEnds(r: Request, why: Failure)
    ensures Fail(r, why).completed
  {
  }

  lemma {:induction false} FailsAll(c: Client, live: seq<nat>, why: Failure, id: nat)
    requires id in c.requests
    ensures id in FailLive(c, live, why).requests
    ensures id in live || c.requests[id].completed ==> FailLive(c, live, why).requests[id].completed
    decreases |live|
  {
    if live != [] {
      if live[0] in c.requests {
        FailEnds(c.requests[live[0]], why);
      }
      hide Fail, Complete;
      if live[0] in c.requests {
        FailsAll(Put(c, live[0], Fail(c.requests[live[0]], why)), live[1..], why, id);
      } else {
        FailsAll(c, live[1..], why, id);
      }
    }
  }

  /** The loop stops only when every method callback has run, or two grace periods
      have run out; one is not enough. */
  lemma StopsDrained(events: seq<Event>)
    ensures var c := Run(events);
            && c.expiries <= 2
            && (c.stopped ==>
                  || c.expiries == 2
                  || forall id :: id in c.requests ==> !c.requests[id].callPending)
  {
    RunConsistent(events);
    var c := Run(events);
    if c.stopped && c.expiries < 2 {
      forall id | id in c.requests ensures !c.requests[id].callPending {
        assert id !in Pending(c.requests);
      }
    }
  }
}
