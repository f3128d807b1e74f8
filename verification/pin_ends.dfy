/** Every prompt can be brought to its end (src/core/pin.c): the active one always has
    a worker to wait for or something on the screen to answer, and each answer lets the
    queue move on. */
module PinPromptsEnd {
  import opened Optional
  import opened PinPrompts

  // ----- The active prompt -----

  /** The active prompt, if it is unfinished, has a worker running or is on the screen. */
  predicate OnScreen(s: System) {
    s.active.Some? && s.active.value in s.prompts && !s.prompts[s.active.value].finished ==>
      Occupied(s.prompts[s.active.value])
  }

  /** No prompt comes or goes, and a finished one stays finished. */
  ghost predicate Stays(s: System, t: System) {
    && t.prompts.Keys == s.prompts.Keys
    && forall x :: x in s.prompts && s.prompts[x].finished ==> t.prompts[x].finished
  }

  lemma StaysTwice(s: System, t: System, u: System)
    requires Stays(s, t) && Stays(t, u)
    ensures Stays(s, u)
  {
  }

  lemma PutStays(s: System, id: nat, p: Prompt)
    requires id in s.prompts && (s.prompts[id].finished ==> p.finished)
    ensures Stays(s, Put(s, id, p))
  {
  }

  lemma ClosedFinished(p: Prompt, outcome: Outcome)
    ensures Closed(p, outcome).finished
  {
  }

  lemma FinishEnds(s: System, id: nat, outcome: Outcome)
    requires id in s.prompts && (OnScreen(s) || s.active == Some(id))
    ensures var t := Finish(s, id, outcome);
            OnScreen(t) && Stays(s, t) && id in t.prompts && t.prompts[id].finished
    decreases |s.queue|, 0
  {
    var p := Closed(s.prompts[id], outcome);
    var s1 := Put(s, id, p);
    ClosedFinished(s.prompts[id], outcome);
    PutStays(s, id, p);
    hide Closed, Occupied;
    if s1.active == Some(id) && s1.queue != [] {
      var s2 := s1.(active := None, queue := s1.queue[1..]);
      StartEnds(s2, s1.queue[0]);
      hide Start;
      StaysTwice(s, s2, Start(s2, s1.queue[0]));
    }
  }

  lemma AnswerEnds(s: System, id: nat, outcome: Outcome)
    requires id in s.prompts
    requires OnScreen(s) || (s.active == Some(id) && !Occupied(s.prompts[id]))
    ensures var t := Answer(s, id, outcome);
            && OnScreen(t) && Stays(s, t) && id in t.prompts
            && (!s.prompts[id].refreshing && !s.prompts[id].loggingIn ==> t.prompts[id].finished)
    decreases |s.queue|, 1
  {
    var p := s.prompts[id];
    if !p.finished && !p.refreshing && !p.loggingIn {
      FinishEnds(s, id, outcome);
    }
    hide Finish;
  }

  lemma ShowEnds(s: System, id: nat)
    requires id in s.prompts && (OnScreen(s) || s.active == Some(id))
    ensures var t := Show(s, id);
            OnScreen(t) && Stays(s, t)
    decreases |s.queue|, 2
  {
    if s.prompts[id].flags.locked {
      AnswerEnds(s, id, Locked);
    } else {
      PutStays(s, id, s.prompts[id].(shown := true));
    }
    hide Answer;
  }

  lemma StartEnds(s: System, id: nat)
    requires OnScreen(s)
    ensures OnScreen(Start(s, id)) && Stays(s, Start(s, id))
    decreases |s.queue|, 3
  {
    if id in s.prompts {
      var s1 := s.(active := Some(id), started := s.started + [id]);
      var p := s.prompts[id];
      if p.cancelled {
        AnswerEnds(s1, id, PinCancelled);
      } else if !p.config.hasRefresh {
        ShowEnds(s1, id);
      } else {
        PutStays(s1, id, p.(refreshing := true));
      }
      hide Answer, Show;
    }
  }

  // ----- Every callback leaves it so -----

  lemma PutOnScreen(s: System, id: nat, p: Prompt)
    requires OnScreen(s) && id in s.prompts
    requires p.finished == s.prompts[id].finished && (Occupied(s.prompts[id]) ==> Occupied(p))
    ensures OnScreen(Put(s, id, p)) && Stays(s, Put(s, id, p))
  {
  }

  lemma SubmitOccupied(p: Prompt, timeouts: bool)
    ensures var q := Submit(p, timeouts);
            q.finished == p.finished && q.shown == p.shown && q.refreshing == p.refreshing
            && (Occupied(p) ==> Occupied(q))
  {
    var q := LoggingIn(p, timeouts);
    assert q.finished == p.finished && q.shown == p.shown && q.refreshing == p.refreshing && q.loggingIn;
    hide LoggingIn;
  }

  lemma InputOccupied(p: Prompt, secret: bool, timeouts: bool)
    ensures var q := SubmitReply(p, secret, timeouts);
            q.finished == p.finished && (Occupied(p) ==> Occupied(q))
    ensures var q := ReadyReply(p, timeouts);
            q.finished == p.finished && (Occupied(p) ==> Occupied(q))
  {
    SubmitOccupied(p, timeouts);
    SubmitOccupied(p.(hasSecret := true), timeouts);
    SubmitOccupied(p.(ready := true), timeouts);
    hide Submit;
  }

  lemma WarningEnds(s: System, id: nat, accepted: bool, timeouts: bool)
    requires OnScreen(s) && id in s.prompts
    ensures OnScreen(WarningReply(s, id, accepted, timeouts))
  {
    var p := s.prompts[id];
    var d, c := Dismissed(p), Confirmed(p);
    assert d.finished == p.finished && (Occupied(p) ==> Occupied(d));
    assert c.finished == p.finished && (Occupied(p) ==> Occupied(c));
    SubmitOccupied(c, timeouts);
    hide Dismissed, Confirmed, Submit, Occupied;
    if accepted {
      PutOnScreen(s, id, Submit(c, timeouts));
    } else {
      PutOnScreen(s, id, d);
      AnswerEnds(Put(s, id, d), id, PinCancelled);
    }
    hide Answer, Put;
  }

  lemma AfterOccupied(p: Prompt, login: Login, flags: Flags)
    requires Sound(p) && p.loggingIn
    ensures var q := AfterLogin(p, login, flags);
            && q.finished == p.finished == false && q.shown && !q.refreshing && !q.loggingIn
            && q.deferred == p.deferred
  {
  }

  /** The login worker has returned: its prompt is answered, or may be tried again. */
  lemma LoginDoneEnds(s: System, id: nat, login: Login, flags: Flags)
    requires Consistent(s) && OnScreen(s) && id in s.prompts && s.prompts[id].loggingIn
    ensures var t := LoginDone(s, id, login, flags);
            && OnScreen(t) && Stays(s, t) && id in t.prompts
            && (login == Rejected(ErrorCancelled) ==> t.prompts[id].finished)
  {
    SoundOf(s, id);
    var p := AfterLogin(s.prompts[id], login, flags);
    AfterOccupied(s.prompts[id], login, flags);
    hide Consistent, Sound, AfterLogin, Answer;
    if p.deferred.Some? {
      ReturnedEnds(s, id, p.(deferred := None), p.deferred.value);
    } else if login.Accepted? {
      ReturnedEnds(s, id, p, Ok);
    } else {
      var p1 := p.(busy := false);
      match LoginVerdict(p1, login)
      case Some(outcome) => ReturnedEnds(s, id, p1, outcome);
      case None => PutOnScreen(s, id, p1.(hasSecret := false));
    }
  }

  lemma ReturnedEnds(s: System, id: nat, p: Prompt, outcome: Outcome)
    requires OnScreen(s) && id in s.prompts && !s.prompts[id].finished
    requires !p.finished && p.shown && !p.refreshing && !p.loggingIn
    ensures var t := Answer(Put(s, id, p), id, outcome);
            OnScreen(t) && Stays(s, t) && id in t.prompts && t.prompts[id].finished
  {
    PutOnScreen(s, id, p);
    AnswerEnds(Put(s, id, p), id, outcome);
    hide Answer;
    StaysTwice(s, Put(s, id, p), Answer(Put(s, id, p), id, outcome));
  }

  /** The refresh has returned: its prompt is answered or on the screen. */
  lemma RefreshDoneEnds(s: System, id: nat, flags: Flags)
    requires Consistent(s) && OnScreen(s) && id in s.prompts && s.prompts[id].refreshing
    ensures var t := RefreshDone(s, id, flags);
            OnScreen(t) && Stays(s, t)
    ensures var t := RefreshDone(s, id, Flags(false, false));
            && id in t.prompts
            && (t.prompts[id].finished
                || (t.active == Some(id) && t.prompts[id].shown && !t.prompts[id].refreshing
                    && !t.prompts[id].loggingIn))
  {
    RefreshedEnds(s, id, flags);
    RefreshedEnds(s, id, Flags(false, false));
  }

  lemma RefreshedEnds(s: System, id: nat, flags: Flags)
    requires Consistent(s) && id in s.prompts && s.prompts[id].refreshing
    ensures var t := RefreshDone(s, id, flags);
            && OnScreen(t) && Stays(s, t) && id in t.prompts
            && (t.prompts[id].finished
                || (t.active == Some(id) && t.prompts[id].shown && !t.prompts[id].refreshing
                    && !t.prompts[id].loggingIn))
  {
    BusyIsActive(s, id);
    SoundOf(s, id);
    var p := s.prompts[id].(refreshing := false, flags := flags);
    assert !p.finished && !p.shown && !p.loggingIn;
    hide Consistent, Sound, Answer;
    var q := p.(deferred := None);
    PutStays(s, id, p);
    PutStays(s, id, q);
    if p.deferred.Some? {
      AnswerEnds(Put(s, id, q), id, p.deferred.value);
      StaysTwice(s, Put(s, id, q), RefreshDone(s, id, flags));
    } else if p.cancelled {
      AnswerEnds(Put(s, id, p), id, PinCancelled);
      StaysTwice(s, Put(s, id, p), RefreshDone(s, id, flags));
    } else if flags.locked {
      AnswerEnds(Put(s, id, p), id, Locked);
      StaysTwice(s, Put(s, id, p), RefreshDone(s, id, flags));
    } else {
      assert RefreshDone(s, id, flags) == Put(Put(s, id, p), id, p.(shown := true));
    }
  }

  lemma CancelEnds(s: System, id: nat)
    requires OnScreen(s) && id in s.prompts
    ensures OnScreen(Cancel(s, id))
  {
    var p := s.prompts[id];
    hide OnScreen, Put;
    PutOnScreen(s, id, p.(cancelled := true, cancelIdle := p.cancelIdle || !p.finished));
  }

  lemma IdleEnds(s: System, id: nat)
    requires OnScreen(s) && id in s.prompts
    ensures OnScreen(CancelledIdle(s, id))
  {
    var idle := s.prompts[id].(cancelIdle := false);
    hide OnScreen, Answer;
    PutOnScreen(s, id, idle);
    AnswerEnds(Put(s, id, idle), id, PinCancelled);
  }

  lemma TimeoutEnds(s: System, id: nat)
    requires OnScreen(s) && id in s.prompts
    ensures OnScreen(LoginTimeout(s, id))
  {
    var disarmed := s.prompts[id].(timeoutArmed := false);
    hide OnScreen, Answer;
    PutOnScreen(s, id, disarmed);
    AnswerEnds(Put(s, id, disarmed), id, TimedOut);
  }

  lemma BeginEnds(s: System, config: Config, flags: Flags, cancelled: bool, display: bool)
    requires Consistent(s) && OnScreen(s)
    ensures OnScreen(Begin(s, config, flags, cancelled, display))
  {
    assert s.active.Some? ==> s.active.value in s.prompts && s.active.value < s.next;
    var p := Fresh(config, flags, cancelled);
    hide Consistent, Start, Fresh, Undisplayed, Occupied;
    if display && s.active.None? {
      StartEnds(Joined(s, p), s.next);
    }
  }

  lemma StepOnScreen(s: System, e: Event)
    requires Consistent(s) && OnScreen(s)
    ensures OnScreen(Step(s, e))
  {
    hide Consistent, OnScreen, Answer, LoginDone, RefreshDone, WarningReply, Begin, ReadyReply,
         SubmitReply, LoginTimeout, CancelledIdle, Cancel, Put;
    if Enabled(s, e) {
      match e
      case NewPrompt(config, flags, cancelled, display) =>
        BeginEnds(s, config, flags, cancelled, display);
      case Ready(id, timeouts) =>
        InputOccupied(s.prompts[id], true, timeouts);
        PutOnScreen(s, id, ReadyReply(s.prompts[id], timeouts));
      case Submitted(id, secret, timeouts) =>
        InputOccupied(s.prompts[id], secret, timeouts);
        PutOnScreen(s, id, SubmitReply(s.prompts[id], secret, timeouts));
      case Warned(id, accepted, timeouts) => WarningEnds(s, id, accepted, timeouts);
      case UiEnded(id, outcome) => AnswerEnds(s, id, outcome);
      case Cancelled(id) => CancelEnds(s, id);
      case Idle(id) => IdleEnds(s, id);
      case Timeout(id) => TimeoutEnds(s, id);
      case LoginReturned(id, login, flags) => LoginDoneEnds(s, id, login, flags);
      case RefreshReturned(id, flags) => RefreshDoneEnds(s, id, flags);
      case TokenChanged(id, flags) => PutOnScreen(s, id, s.prompts[id].(flags := flags));
    }
  }

  lemma {:induction false} RunOnScreen(events: seq<Event>)
    ensures OnScreen(Run(events))
  {
    hide Consistent, Step;
    if events != [] {
      RunOnScreen(events[..|events| - 1]);
      RunConsistent(events[..|events| - 1]);
      hide OnScreen;
      StepOnScreen(Run(events[..|events| - 1]), events[|events| - 1]);
    }
  }

  // ----- Bringing every prompt to its end -----

  /** A worker returns, a timer or an idle runs, or the user's interface answers. */
  predicate Replies(e: Event) { !e.NewPrompt? && !e.Cancelled? && !e.TokenChanged? }

  function Unfinished(s: System): set<nat> {
    set id | id in s.prompts && !s.prompts[id].finished
  }

  function After(s: System, events: seq<Event>): System
    decreases |events|
  {
    if events == [] then s else After(Step(s, events[0]), events[1..])
  }

  lemma {:induction false} RunAfter(events: seq<Event>, tail: seq<Event>)
    ensures Run(events + tail) == After(Run(events), tail)
    decreases |tail|
  {
    hide Step;
    if tail == [] {
      assert events + tail == events;
    } else {
      assert events + tail == (events + [tail[0]]) + tail[1..];
      assert (events + [tail[0]])[..|events|] == events;
      RunAfter(events + [tail[0]], tail[1..]);
    }
  }

  lemma {:induction false} AfterAppend(s: System, a: seq<Event>, b: seq<Event>)
    ensures After(s, a + b) == After(After(s, a), b)
    decreases |a|
  {
    hide Step;
    if a == [] {
      assert a + b == b;
    } else {
      assert (a + b)[1..] == a[1..] + b;
      AfterAppend(Step(s, a[0]), a[1..], b);
    }
  }

  lemma AfterOne(s: System, e: Event)
    ensures After(s, [e]) == Step(s, e)
  {
    hide Step;
  }

  lemma StepKeeps(s: System, e: Event)
    requires Consistent(s) && OnScreen(s)
    ensures Consistent(Step(s, e)) && OnScreen(Step(s, e))
  {
    StepConsistent(s, e);
    StepOnScreen(s, e);
  }

  /** A prompt on the screen with nothing under way ends when its window is closed. */
  lemma CloseEnds(s: System, id: nat)
    requires Consistent(s) && OnScreen(s) && id in s.prompts && s.prompts[id].shown
    requires !s.prompts[id].refreshing && !s.prompts[id].loggingIn
    ensures var t := Step(s, UiEnded(id, PinCancelled));
            && Consistent(t) && OnScreen(t) && Stays(s, t) && id in t.prompts
            && t.prompts[id].finished
  {
    StepKeeps(s, UiEnded(id, PinCancelled));
    AnswerEnds(s, id, PinCancelled);
    hide Consistent, OnScreen, Answer;
  }

  lemma WorkerSteps(s: System, id: nat, login: Login, flags: Flags)
    requires id in s.prompts
    ensures s.prompts[id].loggingIn ==>
              Step(s, LoginReturned(id, login, flags)) == LoginDone(s, id, login, flags)
    ensures s.prompts[id].refreshing ==>
              Step(s, RefreshReturned(id, flags)) == RefreshDone(s, id, flags)
  {
    hide LoginDone, RefreshDone;
  }

  lemma LoginEnds(s: System, id: nat)
    requires Consistent(s) && OnScreen(s) && id in s.prompts && s.prompts[id].loggingIn
    ensures var t := Step(s, LoginReturned(id, Rejected(ErrorCancelled), s.prompts[id].flags));
            && Consistent(t) && OnScreen(t) && Stays(s, t) && id in t.prompts
            && t.prompts[id].finished
  {
    StepKeeps(s, LoginReturned(id, Rejected(ErrorCancelled), s.prompts[id].flags));
    LoginDoneEnds(s, id, Rejected(ErrorCancelled), s.prompts[id].flags);
    WorkerSteps(s, id, Rejected(ErrorCancelled), s.prompts[id].flags);
    hide Consistent, OnScreen, LoginDone, Step, Stays;
  }

  lemma RefreshEnds(s: System, id: nat)
    requires Consistent(s) && OnScreen(s) && id in s.prompts && s.prompts[id].refreshing
    ensures var t := Step(s, RefreshReturned(id, Flags(false, false)));
            && Consistent(t) && OnScreen(t) && Stays(s, t) && id in t.prompts
            && (t.prompts[id].finished
                || (t.prompts[id].shown && !t.prompts[id].refreshing && !t.prompts[id].loggingIn))
  {
    StepKeeps(s, RefreshReturned(id, Flags(false, false)));
    RefreshDoneEnds(s, id, Flags(false, false));
    WorkerSteps(s, id, Accepted, Flags(false, false));
    hide Consistent, OnScreen, RefreshDone, Step, Stays;
  }

  ghost predicate Ended(s: System, t: System, id: nat) {
    Consistent(t) && OnScreen(t) && Stays(s, t) && id in t.prompts && t.prompts[id].finished
  }

  lemma EndedLater(s: System, t: System, u: System, id: nat)
    requires Stays(s, t) && Ended(t, u, id)
    ensures Ended(s, u, id)
  {
    hide Consistent, OnScreen;
    StaysTwice(s, t, u);
  }

  lemma AfterFirst(s: System, e: Event, rest: seq<Event>)
    ensures After(s, [e] + rest) == After(Step(s, e), rest)
  {
    hide Step;
    assert ([e] + rest)[1..] == rest;
  }

  predicate AllReply(events: seq<Event>) { forall e :: e in events ==> Replies(e) }

  lemma FirstReplies(e: Event, rest: seq<Event>)
    requires Replies(e) && AllReply(rest)
    ensures AllReply([e] + rest)
  {
  }

  lemma CloseLeads(s: System, id: nat) returns (tail: seq<Event>)
    requires Consistent(s) && OnScreen(s) && id in s.prompts && s.prompts[id].shown
    requires !s.prompts[id].refreshing && !s.prompts[id].loggingIn
    ensures AllReply(tail) && |tail| <= 1 && Ended(s, After(s, tail), id)
  {
    CloseEnds(s, id);
    tail := [UiEnded(id, PinCancelled)];
    AfterOne(s, UiEnded(id, PinCancelled));
    hide Consistent, OnScreen, Step, After, Stays;
  }

  lemma LoginLeads(s: System, id: nat) returns (tail: seq<Event>)
    requires Consistent(s) && OnScreen(s) && id in s.prompts && s.prompts[id].loggingIn
    ensures AllReply(tail) && |tail| <= 1 && Ended(s, After(s, tail), id)
  {
    LoginEnds(s, id);
    tail := [LoginReturned(id, Rejected(ErrorCancelled), s.prompts[id].flags)];
    AfterOne(s, LoginReturned(id, Rejected(ErrorCancelled), s.prompts[id].flags));
    hide Consistent, OnScreen, Step, After, Stays;
  }

  lemma RefreshLeads(s: System, id: nat) returns (tail: seq<Event>)
    requires Consistent(s) && OnScreen(s) && id in s.prompts && s.prompts[id].refreshing
    ensures AllReply(tail) && |tail| <= 2 && Ended(s, After(s, tail), id)
  {
    var refreshed := RefreshReturned(id, Flags(false, false));
    RefreshEnds(s, id);
    var t := Step(s, refreshed);
    var rest := [];
    hide Consistent, OnScreen, Step, Stays;
    if !t.prompts[id].finished {
      rest := CloseLeads(t, id);
    }
    assert Ended(t, After(t, rest), id) by { SelfStays(t); }
    hide After, AllReply, Ended;
    EndedLater(s, t, After(t, rest), id);
    FirstReplies(refreshed, rest);
    AfterFirst(s, refreshed, rest);
    tail := [refreshed] + rest;
  }

  lemma SelfStays(s: System)
    ensures Stays(s, s)
  {
  }

  /** At most two replies bring the active prompt to its end. */
  lemma ActiveEnds(s: System) returns (tail: seq<Event>)
    requires Consistent(s) && OnScreen(s) && s.active.Some?
    ensures AllReply(tail) && |tail| <= 2 && Ended(s, After(s, tail), s.active.value)
  {
    var id := s.active.value;
    assert id in s.prompts && !s.prompts[id].finished;
    SoundOf(s, id);
    assert Occupied(s.prompts[id]);
    hide Consistent, Sound, OnScreen, Step, After, Stays, AllReply, Ended;
    if s.prompts[id].loggingIn {
      tail := LoginLeads(s, id);
    } else if s.prompts[id].refreshing {
      tail := RefreshLeads(s, id);
    } else {
      tail := CloseLeads(s, id);
    }
  }

  lemma SomebodyActive(s: System)
    requires Consistent(s)
    ensures s.active.None? ==> Unfinished(s) == {}
    ensures Unfinished(s) == {} ==> s.active.None? && s.queue == []
    ensures s.active.Some? ==> s.active.value in Unfinished(s)
  {
    if s.queue != [] {
      assert s.queue[0] in s.queue;
      assert s.queue[0] in Unfinished(s);
    }
    if s.active.Some? {
      assert s.active.value in Unfinished(s);
    }
  }

  lemma {:induction false} Smaller(a: set<nat>, b: set<nat>)
    requires a <= b
    ensures |a| <= |b|
    decreases a
  {
    if a != {} {
      var x :| x in a;
      Smaller(a - {x}, b - {x});
    }
  }

  lemma {:induction false} AllEnd(s: System) returns (tail: seq<Event>)
    requires Consistent(s) && OnScreen(s)
    ensures AllReply(tail) && |tail| <= 2 * |Unfinished(s)|
    ensures var t := After(s, tail);
            Consistent(t) && Unfinished(t) == {} && t.prompts.Keys == s.prompts.Keys
    decreases |Unfinished(s)|
  {
    SomebodyActive(s);
    hide Consistent, OnScreen, Step;
    if s.active.None? {
      tail := [];
    } else {
      var first := ActiveEnds(s);
      var t := After(s, first);
      Smaller(Unfinished(t), Unfinished(s) - {s.active.value});
      var rest := AllEnd(t);
      tail := first + rest;
      AfterAppend(s, first, rest);
    }
  }

  /** Nothing is on the screen or queued, and each owner has been called once, and then
      once more at most, to undo a login. */
  ghost predicate AllOver(s: System) {
    && s.active.None? && s.queue == []
    && forall id :: id in s.prompts ==>
         && s.prompts[id].outcome.Some?
         && var done := Done(id, s.prompts[id].outcome.value);
         Heard(s.log, id) == [done] || Heard(s.log, id) == [done, Abandoned(id)]
  }

  /** From every run, at most two replies for each unfinished prompt, of workers, timers
      or the interface, bring every prompt to its end. */
  lemma EveryPromptEnds(events: seq<Event>)
    ensures exists tail ::
              && AllReply(tail) && |tail| <= 2 * |Unfinished(Run(events))|
              && Run(events + tail).prompts.Keys == Run(events).prompts.Keys
              && AllOver(Run(events + tail))
  {
    RunConsistent(events);
    RunOnScreen(events);
    var tail := AllEnd(Run(events));
    RunAfter(events, tail);
    var s := Run(events + tail);
    SomebodyActive(s);
    hide Consistent, OnScreen, Run, Heard;
    forall id | id in s.prompts
      ensures s.prompts[id].outcome.Some?
              && (Heard(s.log, id) == [Done(id, s.prompts[id].outcome.value)]
                  || Heard(s.log, id) == [Done(id, s.prompts[id].outcome.value), Abandoned(id)])
    {
      AnsweredOnce(events + tail, id);
      assert id !in Unfinished(s);
    }
    assert AllOver(s);
  }
}
