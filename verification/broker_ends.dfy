/** The shared login's work comes to an end (src/broker/operations.c): whatever workers,
    prompts and the token answer and in whatever order, only so many of their reports
    are still ahead, and when none is left everybody has been answered. */
module LoginBrokerEnds {
  import opened Optional
  import opened TokenDevice
  import Pin = PinPrompts
  import opened LoginBroker
  import opened LoginBrokerInvariant

  /** A worker, a prompt or an idle reports, and so carries somebody's work on. A login
      attempt is part of its prompt, and nothing else that happens is waited for. */
  predicate Carries(e: Event) {
    match e
    case OpenWorker(_, _) => true
    case OpenReturned(_, _) => true
    case SignWorker(_, _, _) => true
    case ContextPin(_, _) => true
    case SignReturned(_, _) => true
    case PinAnswered(_) => true
    case ReleaseWorker => true
    case ReleaseReturned => true
    case WaiterCancelled(_) => true
    case ClosedRelease => true
    case _ => false
  }

  // ----- How much is ahead -----

  /** One login weighs more than anything it can set going again. */
  function Unit(s: State): nat { 13 * s.next + 4 }

  function Units(k: nat, unit: nat): nat
    requires k <= 2
  {
    if k == 2 then unit + unit else if k == 1 then unit else 0
  }

  /** How many logins an operation may still start from where it opens. */
  function Logins(o: Op): nat { if o.retriedOpen then 1 else 2 }

  function OpeningAhead(o: Op, generation: nat): nat {
    (if o.openGen == generation then 6 else 8) + (if o.openResult.None? then 1 else 0)
  }

  function SigningAhead(o: Op, holds: bool): nat {
    if o.signResult.Some? then 10 else if holds then 11 else 12
  }

  function Weight(o: Op, opens: bool, signs: bool, holds: bool, generation: nat, unit: nat): nat {
    if o.answer.Some? then 0
    else if opens then Units(Logins(o), unit) + OpeningAhead(o, generation)
    else if signs then Units(Logins(o) - 1, unit) + SigningAhead(o, holds)
    else Units(if o.retryLogin then Logins(o) else Logins(o) - 1, unit) + 1
  }

  predicate Holds(s: State, id: nat) { s.signer.Some? && s.signer.value.0 == id }

  function WeightAt(s: State, id: nat): nat {
    if id in s.ops then
      Weight(s.ops[id], s.opening[id] > 0, s.signing[id] > 0, Holds(s, id), s.login.generation,
             Unit(s))
    else 0
  }

  function Total(s: State, n: nat): nat {
    if n == 0 then 0 else Total(s, n - 1) + WeightAt(s, n - 1)
  }

  function PromptAhead(s: State): nat {
    if s.login.interaction.None? then 0
    else
      Unit(s) + (if !s.login.interaction.value.releasing then 3
                 else if !s.login.interaction.value.released then 2 else 1)
  }

  function Rest(s: State): nat { PromptAhead(s) + (if s.closed then 0 else 2) + s.releases }

  /** A bound on the reports that are still to come. */
  function Ahead(s: State): nat { Total(s, s.next) + Rest(s) }

  // ----- Sums -----

  lemma {:induction false} TotalOne(s: State, t: State, id: nat, n: nat)
    requires forall x: nat :: x != id ==> WeightAt(t, x) == WeightAt(s, x)
    ensures Total(t, n) + (if id < n then WeightAt(s, id) else 0)
         == Total(s, n) + (if id < n then WeightAt(t, id) else 0)
  {
    hide WeightAt;
    if n > 0 {
      TotalOne(s, t, id, n - 1);
    }
  }

  lemma {:induction false} TotalEach(s: State, t: State, n: nat)
    requires forall x: nat :: WeightAt(t, x) <= WeightAt(s, x) + 2
    ensures Total(t, n) <= Total(s, n) + 2 * n
  {
    hide WeightAt;
    if n > 0 {
      TotalEach(s, t, n - 1);
    }
  }

  /** Nobody's weight but that of `id` has changed. */
  ghost predicate Apart(s: State, t: State, id: nat) {
    t.next == s.next && forall x: nat :: x != id ==> WeightAt(t, x) == WeightAt(s, x)
  }

  lemma Falls(s: State, t: State, id: nat)
    requires Apart(s, t, id) && id < s.next
    requires WeightAt(t, id) + Rest(t) < WeightAt(s, id) + Rest(s)
    ensures Ahead(t) < Ahead(s)
  {
    TotalOne(s, t, id, s.next);
    hide WeightAt, Rest, Total;
  }

  lemma FallsNoFurther(s: State, t: State, id: nat)
    requires Apart(s, t, id) && WeightAt(t, id) <= WeightAt(s, id) && Rest(t) <= Rest(s)
    ensures Ahead(t) <= Ahead(s)
  {
    TotalOne(s, t, id, s.next);
    hide WeightAt, Rest, Total;
  }

  lemma PutApart(s: State, t: State, id: nat, o: Op)
    requires t.next == s.next && t.login.generation == s.login.generation
    requires t.ops == s.ops[id := o]
    requires forall x: nat :: x != id ==>
               t.opening[x] == s.opening[x] && t.signing[x] == s.signing[x]
    requires t.signer == s.signer || (forall x: nat :: x != id ==> !Holds(s, x) && !Holds(t, x))
    ensures Apart(s, t, id)
  {
    forall x: nat | x != id ensures WeightAt(t, x) == WeightAt(s, x) {
      hide Weight;
    }
  }

  lemma ApartTwice(s: State, t: State, u: State, id: nat)
    requires Apart(s, t, id) && Apart(t, u, id)
    ensures Apart(s, u, id)
  {
    hide WeightAt;
  }

  // ----- Answering and closing -----

  lemma StruckWeighs(o: Op, opens: bool, signs: bool, holds: bool, generation: nat, unit: nat)
    ensures Weight(Struck(o), opens, signs, holds, generation, unit)
         == Weight(o, opens, signs, holds, generation, unit)
    ensures Weight(CancelledOp(o), opens, signs, holds, generation, unit)
         == Weight(o, opens, signs, holds, generation, unit)
  {
  }

  lemma CloseFalls(s: State, id: nat)
    ensures var t := CloseSession(s);
            && t.next == s.next && Apart(s, t, id) && WeightAt(t, id) == WeightAt(s, id)
            && Rest(t) <= Rest(s)
            && (id in s.ops ==> id in t.ops && t.ops[id].answer == s.ops[id].answer)
  {
    var t := CloseSession(s);
    forall x: nat ensures WeightAt(t, x) == WeightAt(s, x) {
      if x in s.ops {
        StruckWeighs(s.ops[x], s.opening[x] > 0, s.signing[x] > 0, Holds(s, x),
                     s.login.generation, Unit(s));
      }
      hide Weight, Struck;
    }
  }

  lemma FailApart(s: State, id: nat, reason: Reason)
    requires id in s.ops
    ensures var t := Fail(s, id, reason);
            Apart(s, t, id) && WeightAt(t, id) == 0 && Rest(t) == Rest(s)
  {
    var o := Respond(s.ops[id], Failure(reason));
    assert o.answer.Some?;
    hide Respond;
    PutApart(s, Fail(s, id, reason), id, o);
  }

  lemma ByTokenApart(s: State, id: nat, reason: Reason)
    requires id in s.ops
    ensures var t := FailByToken(s, id, reason);
            Apart(s, t, id) && WeightAt(t, id) == 0 && Rest(t) <= Rest(s)
  {
    CloseFalls(s, id);
    FailApart(s, id, reason);
    FailApart(CloseSession(s), id, reason);
    hide Fail, CloseSession, WeightAt, Rest, Apart;
    ApartTwice(s, CloseSession(s), Fail(CloseSession(s), id, reason), id);
  }

  lemma ClosedFailApart(s: State, id: nat, reason: Reason)
    requires id in s.ops
    ensures id in CloseSession(s).ops
    ensures var t := Fail(CloseSession(s), id, reason);
            Apart(s, t, id) && WeightAt(t, id) == 0 && Rest(t) <= Rest(s)
  {
    CloseFalls(s, id);
    FailApart(CloseSession(s), id, reason);
    hide Fail, CloseSession, WeightAt, Rest, Apart;
    ApartTwice(s, CloseSession(s), Fail(CloseSession(s), id, reason), id);
  }

  /** Applying an outcome answers the operation, or lets it sign. */
  lemma ApplyApart(s: State, id: nat, outcome: Pin.Outcome)
    requires id in s.ops && s.ops[id].answer.None? && s.opening[id] == 0 && s.signing[id] == 0
    requires !Holds(s, id)
    ensures var t := ApplyOutcome(s, id, outcome);
            && Apart(s, t, id) && Rest(t) <= Rest(s)
            && WeightAt(t, id) <= (if outcome == Pin.Ok
                                   then Units(Logins(s.ops[id]) - 1, Unit(s)) + 12 else 0)
  {
    FailApart(s, id, RequestCancelled);
    FailApart(s, id, LoginEnded(outcome));
    ClosedFailApart(s, id, LoginEnded(outcome));
    RunApart(s, id);
    hide Fail, CloseSession, RunOperation, WeightAt, Rest, Apart, Logins;
  }

  lemma RunApart(s: State, id: nat)
    requires id in s.ops && s.ops[id].answer.None? && s.opening[id] == 0 && s.signing[id] == 0
    requires !Holds(s, id)
    ensures var t := RunOperation(s, id);
            && Apart(s, t, id) && Rest(t) == Rest(s)
            && WeightAt(t, id) == Units(Logins(s.ops[id]) - 1, Unit(s)) + 12
  {
    var o := s.ops[id].(signResult := None);
    PutApart(s, RunOperation(s, id), id, o);
  }

  lemma OpenApart(s: State, id: nat)
    requires id in s.ops && s.ops[id].answer.None?
    ensures var t := OpenOperation(s, id);
            && Apart(s, t, id) && Rest(t) == Rest(s)
            && WeightAt(t, id) == Units(Logins(s.ops[id]), Unit(s)) + 7
  {
    var o := Reopened(s.ops[id], s.login.generation);
    assert o.answer.None? && o.openResult.None? && o.openGen == s.login.generation
           && o.retriedOpen == s.ops[id].retriedOpen;
    PutApart(s, OpenOperation(s, id), id, o);
    hide Reopened;
  }

  // ----- The end of a login -----

  lemma DetachedSame(o: Op)
    ensures var d := Detached(o);
            && d.answer == o.answer && d.retryLogin == o.retryLogin && Logins(d) == Logins(o)
            && Logins(d.(retryLogin := false)) == Logins(o)
  {
  }

  lemma RetryRises(s: State, id: nat)
    requires id in s.ops && s.ops[id].answer.None? && s.ops[id].retryLogin
    ensures var t := OpenOperation(Put(s, id, Detached(s.ops[id]).(retryLogin := false)), id);
            && Apart(s, t, id) && Rest(t) == Rest(s)
            && WeightAt(t, id) == Units(Logins(s.ops[id]), Unit(s)) + 7
  {
    var o := Detached(s.ops[id]).(retryLogin := false);
    DetachedSame(s.ops[id]);
    var s1 := Put(s, id, o);
    PutApart(s, s1, id, o);
    OpenApart(s1, id);
    assert Rest(s1) == Rest(s);
    hide Detached, OpenOperation, WeightAt, Rest, Apart, Logins;
    ApartTwice(s, s1, OpenOperation(s1, id), id);
  }

  lemma DetachedApart(s: State, id: nat)
    requires id in s.ops
    ensures var t := Put(s, id, Detached(s.ops[id]));
            && Apart(s, t, id) && Rest(t) == Rest(s) && t.next == s.next && t.signer == s.signer
            && t.opening == s.opening && t.signing == s.signing && id in t.ops
            && t.ops[id].answer == s.ops[id].answer && Logins(t.ops[id]) == Logins(s.ops[id])
  {
    DetachedSame(s.ops[id]);
    hide Detached, Apart, Logins;
    PutApart(s, Put(s, id, Detached(s.ops[id])), id, Detached(s.ops[id]));
  }

  lemma GivenRises(s: State, id: nat, outcome: Pin.Outcome)
    requires id in s.ops && s.ops[id].answer.None? && s.opening[id] == 0 && s.signing[id] == 0
    requires !Holds(s, id)
    ensures var t := ApplyOutcome(Put(s, id, Detached(s.ops[id])), id, outcome);
            && Apart(s, t, id) && Rest(t) <= Rest(s)
            && WeightAt(t, id) <= Units(Logins(s.ops[id]) - 1, Unit(s)) + 12
  {
    DetachedApart(s, id);
    hide Detached, ApplyOutcome, WeightAt, Rest, Apart, Logins, Put, Units;
    var s1 := Put(s, id, Detached(s.ops[id]));
    ApplyApart(s1, id, outcome);
    ApartTwice(s, s1, ApplyOutcome(s1, id, outcome), id);
  }

  /** An operation that is resumed may have more ahead, but not a login more. */
  lemma ResumeOneRises(s: State, id: nat, outcome: Pin.Outcome)
    requires id in s.ops && s.ops[id].answer.None? && s.opening[id] == 0 && s.signing[id] == 0
    requires !Holds(s, id)
    ensures var t := ResumeOne(s, id, outcome);
            Apart(s, t, id) && WeightAt(t, id) <= WeightAt(s, id) + 11 && Rest(t) <= Rest(s)
  {
    var o := s.ops[id];
    DetachedSame(o);
    assert WeightAt(s, id) == Units(if o.retryLogin then Logins(o) else Logins(o) - 1, Unit(s)) + 1;
    hide Detached, OpenOperation, ApplyOutcome, WeightAt, Rest, Apart, Logins, Units, Put;
    if o.retryLogin {
      RetryRises(s, id);
    } else {
      GivenRises(s, id, outcome);
    }
  }

  lemma QueuedKnown(s: State, q: Queue)
    requires Core(s, q) && q.ids != []
    ensures var id := q.ids[0];
            && id in s.ops && id < s.next && s.ops[id].answer.None?
            && s.opening[id] == 0 && s.signing[id] == 0 && !Holds(s, id)
  {
    assert OpAt(s, q, q.ids[0]);
    TakeHead(q.ids);
  }

  lemma {:induction false} ResumeRises(s: State, q: Queue, outcome: Pin.Outcome)
    requires Core(s, q) && q.newest < s.login.generation
    ensures var t := Resume(s, q.ids, outcome);
            t.next == s.next && Total(t, s.next) <= Total(s, s.next) + 11 * |q.ids| && Rest(t) <= Rest(s)
    decreases |q.ids|
  {
    if q.ids != [] {
      var id, rest := q.ids[0], q.(ids := q.ids[1..]);
      QueuedKnown(s, q);
      ResumeOneGood(s, q, outcome);
      ResumeOneRises(s, id, outcome);
      var s1 := ResumeOne(s, id, outcome);
      TotalOne(s, s1, id, s.next);
      hide Core, ResumeOne, WeightAt, Rest, Total;
      ResumeRises(s1, rest, outcome);
    }
  }

  function Times(ids: seq<nat>, x: nat): nat { multiset(ids)[x] }

  lemma TakeOut(ids: seq<nat>, k: nat, x: nat)
    requires k < |ids|
    ensures Times(ids, x) == Times(ids[..k] + ids[k + 1..], x) + (if x == ids[k] then 1 else 0)
  {
    assert ids == ids[..k] + [ids[k]] + ids[k + 1..];
  }

  /** Different numbers below a bound are not more than the bound. */
  lemma {:induction false} DistinctBelow(ids: seq<nat>, n: nat)
    requires forall x: nat :: Times(ids, x) <= (if x < n then 1 else 0)
    ensures |ids| <= n
    decreases n
  {
    if ids != [] {
      assert Times(ids, ids[0]) > 0;
      var k: nat := 0;
      if last :| 0 <= last < |ids| && ids[last] == n - 1 {
        k := last;
      }
      var others := ids[..k] + ids[k + 1..];
      forall x: nat ensures Times(others, x) <= (if x < n - 1 then 1 else 0) {
        TakeOut(ids, k, x);
        assert x in others ==> x in ids;
        assert Times(others, x) > 0 <==> x in others;
      }
      DistinctBelow(others, n - 1);
    }
  }

  lemma WaitersFew(s: State)
    requires Core(s, QueueOf(s.login))
    ensures |Waiters(s.login)| <= s.next
  {
    var q := QueueOf(s.login);
    forall x: nat ensures Times(q.ids, x) <= (if x < s.next then 1 else 0) {
      assert OpAt(s, q, x);
    }
    DistinctBelow(q.ids, s.next);
  }

  lemma OverRises(s: State)
    requires s.login.interaction.Some?
    ensures var t := s.(login := Over(s.login));
            t.next == s.next && Total(t, s.next) <= Total(s, s.next) + 2 * s.next
            && Rest(t) + Unit(s) < Rest(s)
  {
    var t := s.(login := Over(s.login));
    forall x: nat ensures WeightAt(t, x) <= WeightAt(s, x) + 2 {}
    TotalEach(s, t, s.next);
    hide WeightAt, Total;
  }

  /** A login that ends takes more off than all it resumes can put on. */
  lemma FinishFalls(s: State, outcome: Pin.Outcome)
    requires Core(s, QueueOf(s.login)) && s.login.interaction.Some?
    ensures Ahead(FinishLogin(s, outcome)) < Ahead(s) && FinishLogin(s, outcome).next == s.next
  {
    var s1 := s.(login := Over(s.login));
    OverRises(s);
    OverGood(s);
    WaitersFew(s);
    assert QueueOf(s.login).newest < s1.login.generation;
    hide Core, Resume, Rest, Total;
    ResumeRises(s1, QueueOf(s.login), outcome);
  }

  lemma PinDoneFalls(s: State, outcome: Pin.Outcome)
    requires Core(s, QueueOf(s.login)) && s.login.interaction.Some?
    requires !s.login.interaction.value.releasing && !s.login.interaction.value.released
    ensures Ahead(PinDone(s, outcome)) < Ahead(s) && PinDone(s, outcome).next == s.next
  {
    var settled := Settled(s.login, outcome);
    hide Core, FinishLogin, Stamped;
    if settled != Pin.Ok && s.login.interaction.value.performed.Some? {
      var t := PinDone(s, outcome);
      assert forall x: nat :: WeightAt(t, x) == WeightAt(s, x) by { hide Weight; }
      TotalOne(s, t, 0, s.next);
      hide WeightAt, Total;
    } else {
      FinishFalls(s, settled);
    }
  }

  // ----- Each report -----

  lemma Unanswered(s: State, id: nat)
    requires Consistent(s) && id in s.ops
    requires s.opening[id] > 0 || s.signing[id] > 0 || s.ops[id].cancelIdle
    ensures var o := s.ops[id];
            && id < s.next && o.answer.None? && WeightAt(s, id) > 0
            && s.opening[id] + s.signing[id] <= 1
            && (s.opening[id] > 0 || s.signing[id] > 0 ==> !o.retryLogin)
            && (Holds(s, id) ==> s.signing[id] > 0)
  {
    assert OpAt(s, QueueOf(s.login), id);
    hide OpAt;
  }

  lemma OpenWorkerFalls(s: State, id: nat, visit: Visit)
    requires Consistent(s) && Enabled(s, OpenWorker(id, visit))
    ensures Ahead(Step(s, OpenWorker(id, visit))) < Ahead(s)
  {
    Unanswered(s, id);
    var t := Step(s, OpenWorker(id, visit));
    hide Consistent, OpenVisit;
    PutApart(s, t, id, t.ops[id]);
    Falls(s, t, id);
  }

  lemma PutBack(ops: map<nat, Op>, id: nat)
    requires id in ops
    ensures ops == ops[id := ops[id]]
  {
  }

  lemma Leaving(s: State, id: nat)
    requires id in s.ops
    ensures var s1 := s.(opening := s.opening - multiset{id});
            Apart(s, s1, id) && Rest(s1) == Rest(s)
    ensures var s1 := s.(signing := s.signing - multiset{id});
            Apart(s, s1, id) && Rest(s1) == Rest(s)
  {
    PutBack(s.ops, id);
    hide Apart, WeightAt;
    PutApart(s, s.(opening := s.opening - multiset{id}), id, s.ops[id]);
    PutApart(s, s.(signing := s.signing - multiset{id}), id, s.ops[id]);
  }

  lemma JoinApart(s: State, id: nat)
    requires id in s.ops && s.ops[id].answer.None? && s.opening[id] == 0 && s.signing[id] == 0
    ensures var t := Join(s, id);
            && Apart(s, t, id) && Rest(t) == Rest(s)
            && WeightAt(t, id) <= Units(Logins(s.ops[id]), Unit(s)) + 1
  {
    var o := Joined(s.ops[id], Cancelling(s.login), s.clock);
    assert o.answer.None? && o.retriedOpen == s.ops[id].retriedOpen;
    PutApart(s, Join(s, id), id, o);
    hide Joined, Cancelling;
  }

  lemma StartedApart(s: State, id: nat)
    requires id in s.ops && s.ops[id].answer.None? && s.opening[id] == 0 && s.signing[id] == 0
    requires s.login.interaction.None? && !s.ops[id].retryLogin
    ensures var t := StartLogin(s, id, true);
            && Apart(s, t, id) && Rest(t) == Rest(s) + Unit(s) + 3
            && WeightAt(t, id) == Units(Logins(s.ops[id]) - 1, Unit(s)) + 1
  {
    var o := Joined(s.ops[id], s.ops[id].retryLogin, s.clock);
    assert o.answer.None? && o.retriedOpen == s.ops[id].retriedOpen && !o.retryLogin;
    PutApart(s, StartLogin(s, id, true), id, o);
    hide Joined;
  }

  /** The login that is started uses up one the operation could start. */
  lemma StartFalls(s: State, s1: State, id: nat, display: bool)
    requires Consistent(s) && id in s.ops && s.opening[id] > 0 && s.ops[id].openResult.Some?
    requires s1 == s.(opening := s.opening - multiset{id})
    requires !s.login.inProgress && !s.ops[id].cancelled && s.ops[id].openGen == s.login.generation
    ensures Ahead(StartLogin(s1, id, display)) < Ahead(s)
  {
    var t := StartLogin(s1, id, true);
    var o := s.ops[id];
    Unanswered(s, id);
    Leaving(s, id);
    StartedApart(s1, id);
    assert WeightAt(s, id) == Units(Logins(o), Unit(s)) + OpeningAhead(o, s.login.generation);
    assert Ahead(t) < Ahead(s) by {
      hide Consistent, StartLogin, WeightAt, Rest, Apart;
      ApartTwice(s, s1, t, id);
      Falls(s, t, id);
    }
    if !display {
      OpeningLoose(s, id);
      StartLoginGood(s1, id, true);
      PinDoneFalls(t, Pin.NoDisplay);
      hide Consistent, PinDone, Ahead, Core;
      StartedThenDone(s1, id);
    }
  }

  lemma StartedThenDone(s: State, id: nat)
    requires id in s.ops
    ensures var t := StartLogin(s, id, true);
            && t.login.interaction.Some? && !t.login.interaction.value.releasing
            && !t.login.interaction.value.released
            && StartLogin(s, id, false) == PinDone(t, Pin.NoDisplay)
  {
    hide PinDone, Joined;
  }

  /** What opened goes on: it fails, waits, opens again, starts a login or signs. */
  lemma ProceedFalls(s: State, id: nat, needsLogin: bool, display: bool)
    requires Consistent(s) && id in s.ops && s.opening[id] > 0 && s.ops[id].openResult.Some?
    requires !s.ops[id].cancelled
    ensures Ahead(Proceed(s.(opening := s.opening - multiset{id}), id, needsLogin, display)) < Ahead(s)
  {
    var s1 := s.(opening := s.opening - multiset{id});
    var o := s.ops[id];
    Unanswered(s, id);
    Leaving(s, id);
    assert WeightAt(s, id) == Units(Logins(o), Unit(s)) + OpeningAhead(o, s.login.generation);
    if s.login.inProgress {
      JoinApart(s1, id);
      hide Consistent, Join, WeightAt, Rest, Apart;
      ApartTwice(s, s1, Join(s1, id), id);
      Falls(s, Join(s1, id), id);
    } else if needsLogin && o.openGen != s.login.generation {
      OpenApart(s1, id);
      hide Consistent, OpenOperation, WeightAt, Rest, Apart;
      ApartTwice(s, s1, OpenOperation(s1, id), id);
      Falls(s, OpenOperation(s1, id), id);
    } else if needsLogin {
      StartFalls(s, s1, id, display);
    } else {
      RunApart(s1, id);
      hide Consistent, RunOperation, WeightAt, Rest, Apart;
      ApartTwice(s, s1, RunOperation(s1, id), id);
      Falls(s, RunOperation(s1, id), id);
    }
  }

  /** Once answered, nothing is ahead of an operation. */
  lemma AnsweredFalls(s: State, s1: State, t: State, id: nat)
    requires Apart(s, s1, id) && Rest(s1) == Rest(s) && Apart(s1, t, id) && Rest(t) <= Rest(s1)
    requires WeightAt(t, id) == 0 && WeightAt(s, id) > 0 && id < s.next
    ensures Ahead(t) < Ahead(s)
  {
    hide WeightAt, Rest, Apart;
    ApartTwice(s, s1, t, id);
    Falls(s, t, id);
  }

  lemma OnOpenedFalls(s: State, id: nat, display: bool)
    requires Consistent(s) && Enabled(s, OpenReturned(id, display))
    ensures Ahead(OnOpened(s, id, display)) < Ahead(s)
  {
    var s1 := s.(opening := s.opening - multiset{id});
    var o := s.ops[id];
    Unanswered(s, id);
    Leaving(s, id);
    hide Consistent, Proceed, Fail, FailByToken, WeightAt, Rest, Apart, Ahead;
    if o.cancelled {
      FailApart(s1, id, RequestCancelled);
      AnsweredFalls(s, s1, Fail(s1, id, RequestCancelled), id);
    } else if o.openResult.value.OpenFailed? {
      ByTokenApart(s1, id, o.openResult.value.reason);
      AnsweredFalls(s, s1, FailByToken(s1, id, o.openResult.value.reason), id);
    } else if Unauthorised(s, false).Some? {
      FailApart(s1, id, Unauthorised(s, false).value);
      AnsweredFalls(s, s1, Fail(s1, id, Unauthorised(s, false).value), id);
    } else {
      ProceedFalls(s, id, o.openResult.value.needsLogin, display);
    }
  }

  lemma SignWorkerMoves(s: State, id: nat, visit: Visit, submission: Submission)
    requires Enabled(s, SignWorker(id, visit, submission))
    ensures var t := Step(s, SignWorker(id, visit, submission));
            && id in t.ops && t.ops == s.ops[id := t.ops[id]] && t.next == s.next
            && t.opening == s.opening && t.signing == s.signing && t.login == s.login
            && Rest(t) == Rest(s) && t.ops[id].answer == s.ops[id].answer
            && t.ops[id].retriedOpen == s.ops[id].retriedOpen
            && (Holds(t, id) || (t.signer == s.signer && t.ops[id].signResult.Some?))
  {
    PutBack(s.ops, id);
    hide SignVisit;
  }

  lemma SignWorkerFalls(s: State, id: nat, visit: Visit, submission: Submission)
    requires Consistent(s) && Enabled(s, SignWorker(id, visit, submission))
    ensures Ahead(Step(s, SignWorker(id, visit, submission))) < Ahead(s)
  {
    Unanswered(s, id);
    SignWorkerMoves(s, id, visit, submission);
    var t := Step(s, SignWorker(id, visit, submission));
    hide Consistent, Step, Rest;
    PutApart(s, t, id, t.ops[id]);
    Falls(s, t, id);
  }

  lemma ContextFalls(s: State, outcome: Pin.Outcome, accepted: bool)
    requires Consistent(s) && Enabled(s, ContextPin(outcome, accepted))
    ensures Ahead(Step(s, ContextPin(outcome, accepted))) < Ahead(s)
  {
    var id := s.signer.value.0;
    assert s.signing[id] > 0 && s.ops[id].signResult.None?;
    Unanswered(s, id);
    var t := Step(s, ContextPin(outcome, accepted));
    hide Consistent, ContextVisit;
    PutApart(s, t, id, t.ops[id]);
    Falls(s, t, id);
  }

  lemma UnsettledFalls(s: State, id: nat)
    requires Consistent(s) && id in s.ops && s.signing[id] > 0 && s.ops[id].signResult.Some?
    ensures Ahead(Unsettled(s.(signing := s.signing - multiset{id}), id)) < Ahead(s)
  {
    var s1 := s.(signing := s.signing - multiset{id});
    var o := s.ops[id];
    Unanswered(s, id);
    Leaving(s, id);
    if o.retriedOpen {
      FailApart(s1, id, NotSettled);
      hide Consistent, Fail, WeightAt, Rest, Apart, Ahead;
      AnsweredFalls(s, s1, Fail(s1, id, NotSettled), id);
    } else {
      var s2 := Put(s1, id, Retried(o));
      PutApart(s1, s2, id, Retried(o));
      OpenApart(s2, id);
      assert WeightAt(s, id) == Units(1, Unit(s)) + 10;
      assert Rest(s2) == Rest(s1);
      hide Consistent, OpenOperation, WeightAt, Rest, Apart;
      assert Logins(Retried(o)) == 1;
      ApartTwice(s, s1, s2, id);
      ApartTwice(s, s2, OpenOperation(s2, id), id);
      Falls(s, OpenOperation(s2, id), id);
    }
  }

  lemma OnSignedFalls(s: State, id: nat, encodes: bool)
    requires Consistent(s) && Enabled(s, SignReturned(id, encodes))
    ensures Ahead(OnSigned(s, id, encodes)) < Ahead(s)
  {
    var s1 := s.(signing := s.signing - multiset{id});
    var o := s.ops[id];
    Unanswered(s, id);
    Leaving(s, id);
    SignerElsewhere(s, id);
    hide Consistent, Unsettled, Fail, FailByToken, ApplyOutcome, Respond, WeightAt, Rest, Apart, Ahead;
    if o.cancelled {
      FailApart(s1, id, RequestCancelled);
      AnsweredFalls(s, s1, Fail(s1, id, RequestCancelled), id);
    } else {
      match o.signResult.value
      case Stale => UnsettledFalls(s, id);
      case SignFailed(reason) =>
        if o.context != Pin.Ok {
          ApplyApart(s1, id, o.context);
          AnsweredFalls(s, s1, ApplyOutcome(s1, id, o.context), id);
        } else {
          ByTokenApart(s1, id, reason);
          AnsweredFalls(s, s1, FailByToken(s1, id, reason), id);
        }
      case Produced =>
        if encodes {
          SuccessApart(s1, id);
          AnsweredFalls(s, s1, Put(s1, id, Respond(o, Success)), id);
        } else {
          FailApart(s1, id, NotEncodable);
          AnsweredFalls(s, s1, Fail(s1, id, NotEncodable), id);
        }
    }
  }

  lemma SignerElsewhere(s: State, id: nat)
    requires Consistent(s) && id in s.ops && s.ops[id].signResult.Some?
    ensures !Holds(s, id)
  {
  }

  lemma SuccessApart(s: State, id: nat)
    requires id in s.ops
    ensures var t := Put(s, id, Respond(s.ops[id], Success));
            Apart(s, t, id) && WeightAt(t, id) == 0 && Rest(t) == Rest(s)
  {
    var o := Respond(s.ops[id], Success);
    assert o.answer.Some?;
    hide Respond;
    PutApart(s, Put(s, id, o), id, o);
  }

  lemma WaiterFalls(s: State, id: nat)
    requires Consistent(s) && Enabled(s, WaiterCancelled(id))
    ensures Ahead(WaiterIdle(s, id)) < Ahead(s)
  {
    IdleWaits(s, id);
    Unanswered(s, id);
    var o := Respond(Detached(s.ops[id]), Failure(RequestCancelled));
    assert o.answer.Some?;
    hide Consistent, Respond, Detached, Stamped;
    PutApart(s, WaiterIdle(s, id), id, o);
    Falls(s, WaiterIdle(s, id), id);
  }

  lemma ReleaseFalls(s: State, e: Event)
    requires Consistent(s) && Enabled(s, e) && (e.ReleaseWorker? || e.ClosedRelease?)
    ensures Ahead(Step(s, e)) < Ahead(s)
  {
    var t := Step(s, e);
    hide Consistent;
    assert forall x: nat :: WeightAt(t, x) == WeightAt(s, x) by { hide Weight; }
    TotalOne(s, t, 0, s.next);
    hide WeightAt, Total;
  }

  /** Every report that carries on somebody's work leaves less ahead. */
  lemma CarriedFalls(s: State, e: Event)
    requires Consistent(s) && Carries(e) && Enabled(s, e)
    ensures Ahead(Step(s, e)) < Ahead(s)
  {
    hide Ahead, OnOpened, OnSigned, PinDone, FinishLogin, WaiterIdle, OpenThread, SignThread,
         ContextDone, ReleaseThread, Core;
    match e
    case OpenWorker(id, visit) => OpenWorkerFalls(s, id, visit);
    case OpenReturned(id, display) => OnOpenedFalls(s, id, display);
    case SignWorker(id, visit, submission) => SignWorkerFalls(s, id, visit, submission);
    case ContextPin(outcome, accepted) => ContextFalls(s, outcome, accepted);
    case SignReturned(id, encodes) => OnSignedFalls(s, id, encodes);
    case PinAnswered(outcome) => PinDoneFalls(s, outcome);
    case ReleaseWorker => ReleaseFalls(s, e);
    case ReleaseReturned => FinishFalls(s, s.login.interaction.value.outcome);
    case WaiterCancelled(id) => WaiterFalls(s, id);
    case ClosedRelease => ReleaseFalls(s, e);
  }

  /** Whatever else happens, short of a new request, adds nothing. */
  lemma OthersAdd(s: State, e: Event)
    requires Enabled(s, e) && !Carries(e) && !e.Requested?
    ensures Ahead(Step(s, e)) <= Ahead(s)
  {
    if e.OpCancelled? {
      CancelledAdds(s, e.id);
    } else if e.SessionClosing? {
      CloseFalls(s, 0);
      hide WeightAt, Rest, CloseSession, Apart;
      FallsNoFurther(s, CloseSession(s), 0);
    } else {
      NewsAdds(s, e);
    }
  }

  lemma NewsAdds(s: State, e: Event)
    requires Enabled(s, e) && (e.LoginWorker? || e.PinDeferred? || e.Expiring?)
    ensures Ahead(Step(s, e)) <= Ahead(s)
  {
    var t := Step(s, e);
    assert forall x: nat :: WeightAt(t, x) == WeightAt(s, x) by { hide Weight, LoginVisit, Stamped; }
    assert Rest(t) == Rest(s) by { hide LoginVisit, Stamped; }
    assert t.next == s.next;
    hide WeightAt, Rest, Step;
    FallsNoFurther(s, t, 0);
  }

  lemma CancelledAdds(s: State, id: nat)
    requires id in s.ops
    ensures Ahead(Put(s, id, CancelledOp(s.ops[id]))) <= Ahead(s)
  {
    var o := CancelledOp(s.ops[id]);
    var t := Put(s, id, o);
    PutApart(s, t, id, o);
    StruckWeighs(s.ops[id], s.opening[id] > 0, s.signing[id] > 0, Holds(s, id), s.login.generation,
                 Unit(s));
    hide CancelledOp, Weight;
    FallsNoFurther(s, t, id);
  }

  // ----- Runs -----

  /** Everybody has been answered, and no worker, prompt or release is outstanding. */
  predicate AtRest(s: State) {
    && (forall id :: id in s.ops ==> s.ops[id].answer.Some?)
    && s.opening == multiset{} && s.signing == multiset{} && s.signer.None?
    && !s.login.inProgress && s.login.interaction.None? && Waiters(s.login) == []
    && s.releases == 0
  }

  /** Somebody reports next unless everything is at rest. */
  lemma NextReport(s: State) returns (e: Event)
    requires Consistent(s) && !AtRest(s)
    ensures Carries(e) && Enabled(s, e)
  {
    var visit := Visit(false, false, false, Known(false), false);
    if s.releases > 0 {
      e := ClosedRelease;
    } else if s.signer.Some? {
      e := ContextPin(Pin.PinCancelled, false);
    } else if s.opening != multiset{} {
      var id :| id in s.opening;
      assert OpAt(s, QueueOf(s.login), id);
      e := if s.ops[id].openResult.None? then OpenWorker(id, visit) else OpenReturned(id, true);
    } else if s.signing != multiset{} {
      var id :| id in s.signing;
      assert OpAt(s, QueueOf(s.login), id);
      e := if s.ops[id].signResult.None? then SignWorker(id, visit, Direct) else SignReturned(id, true);
    } else {
      forall id | id in s.ops && s.ops[id].answer.None? ensures id in Waiters(s.login) {
        assert OpAt(s, QueueOf(s.login), id);
      }
      e := if !s.login.interaction.value.releasing then PinAnswered(Pin.PinCancelled)
           else if s.login.interaction.value.released then ReleaseReturned else ReleaseWorker;
    }
  }

  lemma RestIsSilent(s: State, e: Event)
    requires Consistent(s) && AtRest(s) && Carries(e)
    ensures !Enabled(s, e)
  {
    if e.WaiterCancelled? && e.id in s.ops {
      assert OpAt(s, QueueOf(s.login), e.id);
    }
  }

  function After(s: State, events: seq<Event>): State
    decreases |events|
  {
    if events == [] then s else After(Step(s, events[0]), events[1..])
  }

  /** How many of the events were reports that somebody was waiting for. */
  function Reports(s: State, events: seq<Event>): nat
    decreases |events|
  {
    if events == [] then 0
    else (if Carries(events[0]) && Enabled(s, events[0]) then 1 else 0)
         + Reports(Step(s, events[0]), events[1..])
  }

  lemma {:induction false} RunAfter(rebinds: bool, loginRequired: bool, events: seq<Event>,
                                    tail: seq<Event>)
    ensures Run(rebinds, loginRequired, events + tail)
         == After(Run(rebinds, loginRequired, events), tail)
    decreases |tail|
  {
    hide Step;
    if tail == [] {
      assert events + tail == events;
    } else {
      assert events + tail == (events + [tail[0]]) + tail[1..];
      assert (events + [tail[0]])[..|events|] == events;
      RunAfter(rebinds, loginRequired, events + [tail[0]], tail[1..]);
    }
  }

  lemma {:induction false} ReportsBounded(s: State, events: seq<Event>)
    requires Consistent(s) && forall e :: e in events ==> !e.Requested?
    ensures Reports(s, events) + Ahead(After(s, events)) <= Ahead(s)
    decreases |events|
  {
    hide Consistent, Step, Ahead, Enabled;
    if events != [] {
      var e := events[0];
      StepConsistent(s, e);
      if !Enabled(s, e) {
        NothingHappens(s, e);
      } else if Carries(e) {
        CarriedFalls(s, e);
      } else {
        OthersAdd(s, e);
      }
      ReportsBounded(Step(s, e), events[1..]);
    }
  }

  lemma NothingHappens(s: State, e: Event)
    requires !Enabled(s, e)
    ensures Step(s, e) == s
  {
    hide Enabled;
  }

  lemma {:induction false} Settles(s: State) returns (tail: seq<Event>)
    requires Consistent(s)
    ensures (forall e :: e in tail ==> Carries(e)) && AtRest(After(s, tail))
    decreases Ahead(s)
  {
    hide Consistent, Step, Ahead, AtRest;
    if AtRest(s) {
      tail := [];
    } else {
      var e := NextReport(s);
      StepConsistent(s, e);
      CarriedFalls(s, e);
      var rest := Settles(Step(s, e));
      tail := [e] + rest;
    }
  }

  /** Whatever is answered and in whatever order, the work that is under way ends: after
      any run, and short of new requests, at most so many reports can follow, whatever
      comes in between; and as long as any operation is unanswered or a worker, a
      prompt or a release outstanding, and no longer, there is one to come. */
  lemma WorkEnds(rebinds: bool, loginRequired: bool, events: seq<Event>, tail: seq<Event>)
    requires forall e :: e in tail ==> !e.Requested?
    ensures Reports(Run(rebinds, loginRequired, events), tail)
         <= Ahead(Run(rebinds, loginRequired, events))
    ensures var t := Run(rebinds, loginRequired, events + tail);
            AtRest(t) <==> !exists e :: Carries(e) && Enabled(t, e)
  {
    RunConsistent(rebinds, loginRequired, events);
    ReportsBounded(Run(rebinds, loginRequired, events), tail);
    RunConsistent(rebinds, loginRequired, events + tail);
    var t := Run(rebinds, loginRequired, events + tail);
    hide Consistent, Run, Enabled, AtRest, Ahead, Reports;
    if AtRest(t) {
      forall e | Carries(e) ensures !Enabled(t, e) { RestIsSilent(t, e); }
    } else {
      var e := NextReport(t);
    }
  }

  /** From every run reports alone lead to rest. */
  lemma AlwaysSettles(rebinds: bool, loginRequired: bool, events: seq<Event>)
    ensures exists tail ::
              (forall e :: e in tail ==> Carries(e))
              && AtRest(Run(rebinds, loginRequired, events + tail))
  {
    RunConsistent(rebinds, loginRequired, events);
    var tail := Settles(Run(rebinds, loginRequired, events));
    hide Consistent, Run, AtRest;
    RunAfter(rebinds, loginRequired, events, tail);
  }
}
