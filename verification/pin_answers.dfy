/** What each reply does to a PIN prompt (src/core/pin.c, src/core/ui.c), said of the
    prompt's fields, in every run and for every reply that may come next. */
module PinAnswers {
  import opened Optional
  import opened PinPrompts

  // ----- The queue moves on -----

  /** A prompt that is over the moment it is activated. */
  predicate OverAtOnce(p: Prompt) { p.cancelled || (!p.config.hasRefresh && p.flags.locked) }

  /** Of the prompts in line the first `k` are answered on the spot, the next one becomes
      active, and the rest stay in line. */
  ghost predicate Moved(s: System, t: System, line: seq<nat>, k: nat) {
    && k <= |line| && t.prompts.Keys == s.prompts.Keys
    && (forall j :: 0 <= j < k ==>
          && line[j] in s.prompts && OverAtOnce(s.prompts[line[j]])
          && t.prompts[line[j]].outcome
             == Some(if s.prompts[line[j]].cancelled then PinCancelled else Locked))
    && (if k == |line| then t.active.None? && t.queue == []
        else
          && t.active == Some(line[k]) && t.queue == line[k + 1..]
          && line[k] in s.prompts && !OverAtOnce(s.prompts[line[k]])
          && t.prompts[line[k]]
             == if s.prompts[line[k]].config.hasRefresh then s.prompts[line[k]].(refreshing := true)
                else s.prompts[line[k]].(shown := true))
    && (forall x :: x in s.prompts && x !in line ==> t.prompts[x] == s.prompts[x])
    && (forall j :: k < j < |line| && line[j] in s.prompts ==>
          t.prompts[line[j]] == s.prompts[line[j]])
  }

  ghost predicate MovesOn(s: System, t: System, line: seq<nat>) {
    exists k :: Moved(s, t, line, k)
  }

  lemma ClosedOutcome(p: Prompt, outcome: Outcome)
    ensures Closed(p, outcome).outcome == Some(outcome) && Closed(p, outcome).finished
  {
  }

  /** The first in line has been answered on the spot. */
  lemma MovedOn(s: System, s1: System, t: System, line: seq<nat>, k: nat)
    requires line != [] && line[0] in s.prompts && line[0] !in line[1..]
    requires line[0] in s1.prompts && s1.prompts == s.prompts[line[0] := s1.prompts[line[0]]]
    requires OverAtOnce(s.prompts[line[0]])
    requires s1.prompts[line[0]].outcome
             == Some(if s.prompts[line[0]].cancelled then PinCancelled else Locked)
    requires Moved(s1, t, line[1..], k)
    ensures Moved(s, t, line, k + 1)
  {
    hide OverAtOnce;
    assert forall j :: 0 < j < |line| ==> line[j] == line[1..][j - 1];
    forall j | 0 < j < |line| ensures line[j] != line[0] { assert line[1..][j - 1] in line[1..]; }
    assert line[1..][k..] == line[k + 1..];
    if k < |line| - 1 {
      assert line[1..][k + 1..] == line[k + 2..];
    }
  }

  lemma {:induction false} StartMoves(s: System, id: nat) returns (k: nat)
    requires Startable(s, id)
    ensures Moved(s, Start(s, id), [id] + s.queue, k)
    decreases |s.queue|, 1
  {
    var p, line := s.prompts[id], [id] + s.queue;
    assert line[1..] == s.queue;
    if !OverAtOnce(p) {
      k := 0;
    } else {
      var outcome := if p.cancelled then PinCancelled else Locked;
      var s1 := s.(active := Some(id), started := s.started + [id]);
      Activated(s, id);
      assert Start(s, id) == Answer(s1, id, outcome) == Finish(s1, id, outcome) by { hide Finish; }
      k := FinishMoves(s1, id, outcome);
      var closed := Put(s1, id, Closed(p, outcome));
      ClosedOutcome(p, outcome);
      hide Startable, Finish, Start, Closed, Consistent;
      MovedOn(s, closed, Finish(s1, id, outcome), line, k);
      k := k + 1;
    }
  }

  /** When the active prompt ends, the line moves on. */
  lemma {:induction false} FinishMoves(s: System, id: nat, outcome: Outcome) returns (k: nat)
    requires Nearly(s, id) && Closable(s.prompts[id], outcome) && s.active == Some(id)
    ensures Moved(Put(s, id, Closed(s.prompts[id], outcome)), Finish(s, id, outcome), s.queue, k)
    decreases |s.queue|, 0
  {
    var s1 := Put(s, id, Closed(s.prompts[id], outcome));
    if s.queue == [] {
      hide Nearly, Closed;
      k := 0;
    } else {
      TakeHead(s, id, outcome);
      var s2 := s1.(active := None, queue := s.queue[1..]);
      assert [s.queue[0]] + s.queue[1..] == s.queue;
      FinishUnrolled(s, id, outcome);
      hide Nearly, Closed, Closable, Finish, Start, Startable;
      k := StartMoves(s2, s.queue[0]);
      SamePromptsMove(s2, s1, Start(s2, s.queue[0]), Finish(s, id, outcome), s.queue, k);
    }
  }

  lemma FinishUnrolled(s: System, id: nat, outcome: Outcome)
    requires id in s.prompts && s.active == Some(id) && s.queue != []
    ensures var s1 := Put(s, id, Closed(s.prompts[id], outcome));
            var t := Start(s1.(active := None, queue := s.queue[1..]), s.queue[0]);
            Finish(s, id, outcome) == t.(log := t.log + Calls(id, s.prompts[id], outcome))
  {
    hide Start, Closed, Calls;
  }

  lemma SamePromptsMove(s: System, s1: System, t: System, t1: System, line: seq<nat>, k: nat)
    requires Moved(s, t, line, k) && s1.prompts == s.prompts
    requires t1.prompts == t.prompts && t1.active == t.active && t1.queue == t.queue
    ensures Moved(s1, t1, line, k)
  {
    hide OverAtOnce;
  }

  // ----- The end of one prompt -----

  /** The prompt `id` ends with `outcome`, a login having succeeded or not, and nobody
      else is touched but by the line moving on, if it was active. */
  ghost predicate EndsWith(s: System, t: System, id: nat, outcome: Outcome, succeeded: bool) {
    && id in s.prompts && id in t.prompts
    && t.prompts[id].outcome == Some(outcome) && t.prompts[id].succeeded == succeeded
    && (if s.active == Some(id) then
          MovesOn(s.(prompts := s.prompts[id := t.prompts[id]]), t, s.queue)
        else
          && t.active == s.active && t.prompts == s.prompts[id := t.prompts[id]]
          && (forall x :: x in t.queue <==> x in s.queue && x != id))
  }

  /** Only the record of `id` changes. */
  predicate Becomes(s: System, t: System, id: nat, p: Prompt) {
    t == s.(prompts := s.prompts[id := p])
  }

  lemma FinishEndsWith(s: System, s1: System, id: nat, p: Prompt, outcome: Outcome)
    requires id in s.prompts && s1 == Put(s, id, p)
    requires Nearly(s1, id) && Closable(p, outcome)
    ensures EndsWith(s, Finish(s1, id, outcome), id, outcome, p.succeeded)
  {
    var t := Finish(s1, id, outcome);
    var closed := Closed(p, outcome);
    assert closed.outcome == Some(outcome) && closed.succeeded == p.succeeded;
    if s.active == Some(id) {
      NotInLine(s1, id);
      var k := FinishMoves(s1, id, outcome);
      hide Nearly, Closable, Closed, Finish;
      var s2 := s.(prompts := s.prompts[id := closed]);
      assert Put(s1, id, closed).prompts == s2.prompts;
      SamePromptsMove(Put(s1, id, closed), s2, t, t, s.queue, k);
      assert t.prompts[id] == closed;
    } else {
      QueueWithout(s1.queue, id);
      hide Nearly, Closable, Closed;
      assert t.prompts == s.prompts[id := closed];
    }
  }

  lemma NotInLine(s: System, id: nat)
    requires Nearly(s, id) && s.active == Some(id)
    ensures id !in s.queue
  {
  }

  lemma {:induction false} QueueWithout(queue: seq<nat>, id: nat)
    requires Increasing(queue)
    ensures forall x :: x in Without(queue, id) <==> x in queue && x != id
  {
    if queue != [] {
      QueueWithout(queue[1..], id);
      assert forall x :: x in queue <==> x == queue[0] || x in queue[1..];
    }
  }

  // ----- Login and refresh workers -----

  function Ending(login: Login, flags: Flags): Outcome {
    if login == Accepted then Ok
    else if login == Rejected(ErrorCancelled) then PinCancelled
    else if login == Rejected(ErrorLocked) then Locked
    else if login == Rejected(ErrorRemoved) then TokenRemoved
    else if login == Rejected(ErrorOther) then DeviceError
    else if flags.locked then Locked else Incorrect
  }

  /** The login worker returns. Its prompt goes on for another try if and only if
      nothing has been put off meanwhile, the PIN was wrong, the token is not locked by
      what is then known of it, the PIN is entered on the screen and it was not the
      third; it then waits, on the screen, for a new entry. Otherwise it ends, with
      what was put off first or with what the token said. */
  lemma LoginAnswered(events: seq<Event>, id: nat, login: Login, flags: Flags)
    requires id in Run(events).prompts && Run(events).prompts[id].loggingIn
    ensures var s := Run(events);
            var t := Run(events + [LoginReturned(id, login, flags)]);
            var p := s.prompts[id];
            var known := if p.config.hasRefresh && login in {Accepted, Rejected(ErrorIncorrect)}
                         then flags else p.flags;
            if p.deferred.None? && login == Rejected(ErrorIncorrect) && !known.locked
               && !p.config.isProtected && p.attempts < 3
            then
              && Becomes(s, t, id, p.(loggingIn := false, busy := false, hasSecret := false,
                                      timeoutArmed := false, flags := known))
              && t.active == Some(id) && p.shown && !p.finished
            else
              EndsWith(s, t, id,
                       if p.deferred.Some? then p.deferred.value
                       else if login == Accepted then Ok
                       else if login == Rejected(ErrorCancelled) then PinCancelled
                       else if login == Rejected(ErrorLocked) then Locked
                       else if login == Rejected(ErrorRemoved) then TokenRemoved
                       else if login == Rejected(ErrorOther) then DeviceError
                       else if known.locked then Locked else Incorrect,
                       login == Accepted)
  {
    var s, e := Run(events), LoginReturned(id, login, flags);
    RunNext(events, e);
    RunConsistent(events);
    BusyIsActive(s, id);
    SoundOf(s, id);
    hide Run, Step;
    LoginStep(s, id, login, flags);
    LoginDoneAnswers(s, id, login, flags);
  }

  lemma RunNext(events: seq<Event>, e: Event)
    ensures Run(events + [e]) == Step(Run(events), e)
  {
    hide Step;
    assert (events + [e])[..|events|] == events;
  }

  lemma LoginStep(s: System, id: nat, login: Login, flags: Flags)
    requires id in s.prompts && s.prompts[id].loggingIn
    ensures Step(s, LoginReturned(id, login, flags)) == LoginDone(s, id, login, flags)
  {
    hide LoginDone;
  }

  lemma ReturnedAnswers(s: System, id: nat, p: Prompt, outcome: Outcome)
    requires Consistent(s) && id in s.prompts && s.active == Some(id) && !s.prompts[id].finished
    requires Closable(p, outcome)
    ensures EndsWith(s, Answer(Put(s, id, p), id, outcome), id, outcome, p.succeeded)
  {
    assert id !in s.queue;
    assert Nearly(Put(s, id, p), id);
    FinishEndsWith(s, Put(s, id, p), id, p, outcome);
    hide Finish, EndsWith;
  }

  function Known(p: Prompt, login: Login, flags: Flags): Flags {
    if p.config.hasRefresh && login in {Accepted, Rejected(ErrorIncorrect)} then flags else p.flags
  }

  predicate TriesAgain(p: Prompt, login: Login, flags: Flags) {
    && p.deferred.None? && login == Rejected(ErrorIncorrect) && !Known(p, login, flags).locked
    && !p.config.isProtected && p.attempts < 3
  }

  lemma AfterLoginIs(p: Prompt, login: Login, flags: Flags)
    requires !p.succeeded
    ensures AfterLogin(p, login, flags)
         == p.(loggingIn := false, timeoutArmed := false, succeeded := login == Accepted,
               flags := Known(p, login, flags))
  {
  }

  lemma VerdictIs(p: Prompt, login: Login)
    requires login != Accepted
    ensures LoginVerdict(p, login)
         == if login == Rejected(ErrorIncorrect) && !p.flags.locked && !p.config.isProtected
               && p.attempts < 3 then None
            else Some(Ending(login, p.flags))
  {
  }

  lemma LoginDoneAnswers(s: System, id: nat, login: Login, flags: Flags)
    requires Consistent(s) && id in s.prompts && s.prompts[id].loggingIn && s.active == Some(id)
    ensures var t, p := LoginDone(s, id, login, flags), s.prompts[id];
            if TriesAgain(p, login, flags) then
              Becomes(s, t, id, p.(loggingIn := false, busy := false, hasSecret := false,
                                   timeoutArmed := false, flags := Known(p, login, flags)))
            else
              EndsWith(s, t, id,
                       if p.deferred.Some? then p.deferred.value
                       else Ending(login, Known(p, login, flags)),
                       login == Accepted)
  {
    SoundOf(s, id);
    var p := AfterLogin(s.prompts[id], login, flags);
    AfterLoginIs(s.prompts[id], login, flags);
    LoginClosable(s.prompts[id], login, flags);
    hide Consistent, Sound, Answer, EndsWith, AfterLogin, Known, Closable, LoginVerdict, Ending;
    if p.deferred.Some? {
      ReturnedAnswers(s, id, p.(deferred := None), p.deferred.value);
    } else if login.Accepted? {
      ReturnedAnswers(s, id, p, Ok);
      EndingAccepted(p.flags);
    } else {
      var p1 := p.(busy := false);
      VerdictIs(p1, login);
      if LoginVerdict(p1, login).Some? {
        ReturnedAnswers(s, id, p1, LoginVerdict(p1, login).value);
      }
    }
  }

  lemma EndingAccepted(flags: Flags)
    ensures Ending(Accepted, flags) == Ok
  {
  }

  /** What the prompt may be closed with once its worker is back. */
  lemma LoginClosable(p: Prompt, login: Login, flags: Flags)
    requires Sound(p) && p.loggingIn
    ensures var q := AfterLogin(p, login, flags);
            && !q.finished && q.shown
            && (q.deferred.Some? ==> Closable(q.(deferred := None), q.deferred.value))
            && (q.deferred.None? && login == Accepted ==> Closable(q, Ok))
            && (q.deferred.None? && login != Accepted ==>
                  forall outcome :: outcome != Ok ==> Closable(q.(busy := false), outcome))
  {
  }

  /** The refresh worker returns: the prompt ends with what was put off first, or
      because it has been cancelled, or because the token is locked, and otherwise
      comes on the screen. */
  lemma RefreshAnswered(events: seq<Event>, id: nat, flags: Flags)
    requires id in Run(events).prompts && Run(events).prompts[id].refreshing
    ensures var s := Run(events);
            var t := Run(events + [RefreshReturned(id, flags)]);
            var p := s.prompts[id];
            if p.deferred.Some? then EndsWith(s, t, id, p.deferred.value, false)
            else if p.cancelled then EndsWith(s, t, id, PinCancelled, false)
            else if flags.locked then EndsWith(s, t, id, Locked, false)
            else
              && Becomes(s, t, id, p.(refreshing := false, flags := flags, shown := true))
              && t.active == Some(id) && !p.finished
  {
    var s, e := Run(events), RefreshReturned(id, flags);
    RunNext(events, e);
    RunConsistent(events);
    BusyIsActive(s, id);
    hide Run, Step;
    RefreshStep(s, id, flags);
    RefreshDoneAnswers(s, id, flags);
  }

  lemma RefreshStep(s: System, id: nat, flags: Flags)
    requires id in s.prompts && s.prompts[id].refreshing
    ensures Step(s, RefreshReturned(id, flags)) == RefreshDone(s, id, flags)
  {
    hide RefreshDone;
  }

  lemma RefreshDoneAnswers(s: System, id: nat, flags: Flags)
    requires Consistent(s) && id in s.prompts && s.prompts[id].refreshing && s.active == Some(id)
    ensures var t, p := RefreshDone(s, id, flags), s.prompts[id];
            if p.deferred.Some? then EndsWith(s, t, id, p.deferred.value, false)
            else if p.cancelled then EndsWith(s, t, id, PinCancelled, false)
            else if flags.locked then EndsWith(s, t, id, Locked, false)
            else Becomes(s, t, id, p.(refreshing := false, flags := flags, shown := true))
  {
    SoundOf(s, id);
    var p := s.prompts[id].(refreshing := false, flags := flags);
    assert !p.finished && !p.succeeded && !p.loggingIn;
    hide Consistent, EndsWith, Answer, Finish;
    if p.deferred.Some? {
      ReturnedAnswers(s, id, p.(deferred := None), p.deferred.value);
    } else if p.cancelled {
      ReturnedAnswers(s, id, p, PinCancelled);
    } else if flags.locked {
      ReturnedAnswers(s, id, p, Locked);
    } else {
      assert s.prompts[id := p][id := p.(shown := true)] == s.prompts[id := p.(shown := true)];
    }
  }

  // ----- Being asked to end -----

  /** While a worker runs the first demand is kept for later; otherwise the prompt ends
      with it. */
  ghost predicate Demanded(s: System, t: System, id: nat, p: Prompt, outcome: Outcome) {
    if p.refreshing || p.loggingIn then
      Becomes(s, t, id, if p.deferred.Some? then p
                        else p.(deferred := Some(outcome), firstDeferred := Some(outcome)))
    else EndsWith(s, t, id, outcome, false)
  }

  lemma PutNearly(s: System, id: nat, p: Prompt)
    requires Consistent(s) && id in s.prompts && !p.finished && !s.prompts[id].finished
    requires id in s.queue ==> Waiting(p)
    ensures Nearly(Put(s, id, p), id)
  {
  }

  lemma DemandClosable(p: Prompt, outcome: Outcome)
    requires Sound(p) && !p.finished && !p.refreshing && !p.loggingIn && outcome != Ok
    ensures Closable(p, outcome) && !p.succeeded
  {
  }

  lemma AnswerIs(s: System, id: nat, p: Prompt, outcome: Outcome)
    requires id in s.prompts && !p.finished
    ensures var t := Answer(Put(s, id, p), id, outcome);
            if p.refreshing || p.loggingIn then
              t == Put(s, id, if p.deferred.Some? then p
                              else p.(deferred := Some(outcome),
                                      firstDeferred := if p.firstDeferred.Some? then p.firstDeferred
                                                       else Some(outcome)))
            else t == Finish(Put(s, id, p), id, outcome)
  {
    AnswerUnrolled(Put(s, id, p), id, outcome);
    hide Answer, Finish;
    var q := Defer(p, outcome);
    assert s.prompts[id := p][id := q] == s.prompts[id := q];
  }

  lemma AnswerUnrolled(s: System, id: nat, outcome: Outcome)
    requires id in s.prompts && !s.prompts[id].finished
    ensures var p := s.prompts[id];
            Answer(s, id, outcome) == if p.refreshing || p.loggingIn then Put(s, id, Defer(p, outcome))
                                      else Finish(s, id, outcome)
  {
    hide Finish, Defer, Put;
  }

  lemma AnswerDemanded(s: System, id: nat, p: Prompt, outcome: Outcome)
    requires Consistent(s) && id in s.prompts && !s.prompts[id].finished && outcome != Ok
    requires Sound(p) && !p.finished && (id in s.queue ==> Waiting(p))
    ensures Demanded(s, Answer(Put(s, id, p), id, outcome), id, p, outcome)
  {
    assert p.deferred == p.firstDeferred;
    PutNearly(s, id, p);
    AnswerIs(s, id, p, outcome);
    hide Consistent, Nearly, Waiting, Finish, EndsWith, Answer;
    if !p.refreshing && !p.loggingIn {
      DemandClosable(p, outcome);
      hide Sound, Closable;
      FinishEndsWith(s, Put(s, id, p), id, p, outcome);
    }
  }

  /** The user's interface goes away, the cancellation is heard, or the login takes too
      long: each is a demand to end, with an outcome of its own; a timeout of a login
      that has returned is none. */
  lemma EndDemanded(events: seq<Event>, id: nat, outcome: Outcome)
    requires id in Run(events).prompts
    ensures var s := Run(events);
            var p := s.prompts[id];
            && (p.shown && outcome in {PinCancelled, NoDisplay, DeviceError} ==>
                  Demanded(s, Run(events + [UiEnded(id, outcome)]), id, p, outcome))
            && (p.cancelIdle ==>
                  Demanded(s, Run(events + [Idle(id)]), id, p.(cancelIdle := false), PinCancelled))
            && (p.timeoutArmed && p.loggingIn ==>
                  Demanded(s, Run(events + [Timeout(id)]), id, p.(timeoutArmed := false), TimedOut))
            && (p.timeoutArmed && !p.loggingIn ==>
                  Becomes(s, Run(events + [Timeout(id)]), id, p.(timeoutArmed := false)))
  {
    var s := Run(events);
    var p := s.prompts[id];
    RunConsistent(events);
    SoundOf(s, id);
    FlagsSound(p, p.flags, false);
    RunNext(events, UiEnded(id, outcome));
    RunNext(events, Idle(id));
    RunNext(events, Timeout(id));
    assert s.prompts == s.prompts[id := p];
    WaitingStays(s, id);
    hide Run, Consistent, Sound, Answer, EndsWith, Waiting, Becomes;
    if !p.finished {
      if outcome != Ok {
        AnswerDemanded(s, id, p, outcome);
      }
      AnswerDemanded(s, id, p.(cancelIdle := false), PinCancelled);
      AnswerDemanded(s, id, p.(timeoutArmed := false), TimedOut);
    }
    DemandSteps(s, id, outcome);
    TimeoutSteps(s, id);
  }

  /** A cancellation is noted at once, and heard later if the prompt is not over. */
  lemma CancellationNoted(events: seq<Event>, id: nat)
    requires id in Run(events).prompts
    ensures var s := Run(events);
            var p := s.prompts[id];
            Run(events + [Cancelled(id)])
            == s.(prompts := s.prompts[id := if p.finished then p.(cancelled := true)
                                             else p.(cancelled := true, cancelIdle := true)])
  {
    RunNext(events, Cancelled(id));
    hide Run;
  }

  lemma WaitingStays(s: System, id: nat)
    requires Consistent(s) && id in s.prompts
    ensures id in s.queue ==> Waiting(s.prompts[id]) && Waiting(s.prompts[id].(cancelIdle := false))
                              && Waiting(s.prompts[id].(timeoutArmed := false))
    ensures var p := s.prompts[id]; p.shown || p.cancelIdle || p.timeoutArmed ==> !p.finished
  {
    SoundOf(s, id);
  }

  lemma DemandSteps(s: System, id: nat, outcome: Outcome)
    requires id in s.prompts
    ensures var p := s.prompts[id];
            && (p.shown && outcome in {PinCancelled, NoDisplay, DeviceError} ==>
                  Step(s, UiEnded(id, outcome)) == Answer(Put(s, id, p), id, outcome))
            && (p.cancelIdle ==>
                  Step(s, Idle(id)) == Answer(Put(s, id, p.(cancelIdle := false)), id, PinCancelled))
  {
    assert s.prompts == s.prompts[id := s.prompts[id]];
    assert s == Put(s, id, s.prompts[id]);
    hide Answer;
  }

  lemma TimeoutSteps(s: System, id: nat)
    requires id in s.prompts
    ensures var p := s.prompts[id];
            && (p.timeoutArmed && p.loggingIn ==>
                  Step(s, Timeout(id)) == Answer(Put(s, id, p.(timeoutArmed := false)), id, TimedOut))
            && (p.timeoutArmed && !p.loggingIn ==>
                  Becomes(s, Step(s, Timeout(id)), id, p.(timeoutArmed := false)))
  {
    hide Answer;
  }

  // ----- Entry -----

  /** A login is sent off, or a protected prompt on its last try first warns. */
  predicate SendsOff(s: System, t: System, id: nat, p: Prompt, timeouts: bool) {
    if p.config.isProtected && p.flags.finalTry && !p.confirmed then
      Becomes(s, t, id, p.(warningPending := true))
    else
      Becomes(s, t, id, p.(loggingIn := true, busy := true, hasSecret := false,
                           attempts := p.attempts + 1, timeoutArmed := timeouts || p.timeoutArmed))
  }

  lemma SubmitSendsOff(s: System, id: nat, p: Prompt, timeouts: bool)
    requires id in s.prompts && !p.busy && !p.finished && !p.loggingIn
    requires p.config.isProtected || p.hasSecret
    requires (p.confirmed <==> p.warningsAccepted > 0) && !p.riskySubmit
    ensures SendsOff(s, Put(s, id, Submit(p, timeouts)), id, p, timeouts)
  {
  }

  /** An entry counts only on a prompt that is ready and has nothing under way or put
      off; without a PIN nothing is sent, unless the token's own keypad is used. */
  lemma EntryAnswered(events: seq<Event>, id: nat, secret: bool, timeouts: bool)
    requires id in Run(events).prompts && Run(events).prompts[id].shown
    ensures var s := Run(events);
            var t := Run(events + [Submitted(id, secret, timeouts)]);
            var p := s.prompts[id];
            if p.ready && !p.loggingIn && p.deferred.None? && (p.config.isProtected || secret)
            then SendsOff(s, t, id, p.(hasSecret := p.hasSecret || !p.config.isProtected), timeouts)
            else t == s
  {
    var s := Run(events);
    var p := s.prompts[id];
    RunConsistent(events);
    SoundOf(s, id);
    WaitingStays(s, id);
    RunNext(events, Submitted(id, secret, timeouts));
    assert s.prompts == s.prompts[id := p];
    assert p == p.(hasSecret := p.hasSecret);
    SubmitSteps(s, id, secret, timeouts);
    hide Run, Consistent, Step, Submit;
    if p.config.isProtected {
      if !p.busy {
        SubmitSendsOff(s, id, p, timeouts);
      }
    } else if !p.busy {
      SubmitSendsOff(s, id, p.(hasSecret := true), timeouts);
    }
  }

  lemma SubmitSteps(s: System, id: nat, secret: bool, timeouts: bool)
    requires id in s.prompts
    ensures var p := s.prompts[id];
            && (p.shown ==>
                  && Step(s, Submitted(id, secret, timeouts)) == Put(s, id, SubmitReply(p, secret, timeouts))
                  && Step(s, Ready(id, timeouts)) == Put(s, id, ReadyReply(p, timeouts)))
            && (p.shown && p.warningPending ==>
                  Step(s, Warned(id, secret, timeouts)) == WarningReply(s, id, secret, timeouts))
  {
    hide SubmitReply, ReadyReply, WarningReply;
  }

  /** A prompt becomes ready once, unless it has been cancelled; on the token's own
      keypad that sends the login off. */
  lemma ReadyAnswered(events: seq<Event>, id: nat, timeouts: bool)
    requires id in Run(events).prompts && Run(events).prompts[id].shown
    ensures var s := Run(events);
            var t := Run(events + [Ready(id, timeouts)]);
            var p := s.prompts[id];
            if p.ready || p.cancelled then t == s
            else if p.config.isProtected && !p.loggingIn then
              SendsOff(s, t, id, p.(ready := true), timeouts)
            else Becomes(s, t, id, p.(ready := true))
  {
    var s := Run(events);
    var p := s.prompts[id];
    RunConsistent(events);
    SoundOf(s, id);
    WaitingStays(s, id);
    RunNext(events, Ready(id, timeouts));
    assert s.prompts == s.prompts[id := p];
    SubmitSteps(s, id, true, timeouts);
    var r := p.(ready := true);
    hide Run, Consistent, Step;
    if p.config.isProtected && !p.loggingIn && !p.ready && !p.cancelled {
      SubmitSendsOff(s, id, r, timeouts);
    }
  }

  /** The warning of a last try, taken, sends the login off; refused, it is a demand to
      end. */
  lemma WarningAnswered(events: seq<Event>, id: nat, accepted: bool, timeouts: bool)
    requires id in Run(events).prompts && Run(events).prompts[id].shown
    requires Run(events).prompts[id].warningPending
    ensures var s := Run(events);
            var t := Run(events + [Warned(id, accepted, timeouts)]);
            var p := s.prompts[id];
            if !p.config.isProtected || p.loggingIn then t == s
            else if accepted then
              SendsOff(s, t, id, p.(warningPending := false, confirmed := true,
                                    warningsAccepted := p.warningsAccepted + 1), timeouts)
            else Demanded(s, t, id, p.(warningPending := false), PinCancelled)
  {
    var s := Run(events);
    var p := s.prompts[id];
    RunConsistent(events);
    SoundOf(s, id);
    WaitingStays(s, id);
    RunNext(events, Warned(id, accepted, timeouts));
    SubmitSteps(s, id, accepted, timeouts);
    BusyIsActive(s, id);
    var c, d := Confirmed(p), Dismissed(p);
    assert Sound(d) && !d.finished;
    assert c.confirmed && c.warningsAccepted > 0 && !c.riskySubmit;
    hide Run, Step, Answer, Submit, EndsWith;
    if p.config.isProtected && !p.loggingIn {
      if accepted {
        SubmitSendsOff(s, id, c, timeouts);
      } else {
        AnswerDemanded(s, id, d, PinCancelled);
      }
    }
  }

  // ----- New prompts -----

  /** A new prompt: without a display it is over, behind an active one it waits at the
      end of the line, and otherwise it is the line. */
  lemma NewAnswered(events: seq<Event>, config: Config, flags: Flags, cancelled: bool, display: bool)
    ensures var s := Run(events);
            var t := Run(events + [NewPrompt(config, flags, cancelled, display)]);
            var newcomer := Prompt(config, flags, cancelled, cancelled, false, false, false, false, None,
                                false, false, false, 0, false, false, false, false, None, None, 0,
                                false);
            && s.next !in s.prompts && s.next in t.prompts && t.next == s.next + 1
            && (if !display then
                  && t.prompts == s.prompts[s.next := t.prompts[s.next]] && t.queue == s.queue
                  && t.active == s.active
                  && t.prompts[s.next]
                     == newcomer.(finished := true, cancelIdle := false, outcome := Some(NoDisplay))
                  && t.log == s.log + [Done(s.next, NoDisplay)]
                else if s.active.Some? then
                  t == s.(next := t.next, prompts := s.prompts[s.next := newcomer],
                          queue := s.queue + [s.next])
                else
                  s.queue == []
                  && MovesOn(s.(prompts := s.prompts[s.next := newcomer]), t, [s.next]))
  {
    var s := Run(events);
    RunConsistent(events);
    RunNext(events, NewPrompt(config, flags, cancelled, display));
    hide Run, Step, Consistent, MovesOn;
    NewIsNext(s);
    BeginIs(s, config, flags, cancelled, display);
    if display && s.active.None? {
      FirstStarts(s, Fresh(config, flags, cancelled));
    }
    hide Start, Joined, Begin, Undisplayed;
  }

  lemma NewIsNext(s: System)
    requires Consistent(s)
    ensures s.next !in s.prompts && (s.active.None? ==> s.queue == [])
  {
  }

  lemma BeginIs(s: System, config: Config, flags: Flags, cancelled: bool, display: bool)
    ensures var p := Fresh(config, flags, cancelled);
            Step(s, NewPrompt(config, flags, cancelled, display))
            == if !display then
                 s.(next := s.next + 1, log := s.log + [Done(s.next, NoDisplay)],
                    prompts := s.prompts[s.next := p.(finished := true, cancelIdle := false,
                                                     outcome := Some(NoDisplay))])
               else if s.active.Some? then
                 s.(next := s.next + 1, prompts := s.prompts[s.next := p], queue := s.queue + [s.next])
               else Start(Joined(s, p), s.next)
  {
    hide Start, Fresh;
  }

  lemma FirstStarts(s: System, p: Prompt)
    requires Consistent(s) && s.next !in s.prompts && s.active.None? && s.queue == []
    requires p == Fresh(p.config, p.flags, p.cancelled)
    ensures var t := Start(Joined(s, p), s.next);
            && s.next in t.prompts && t.next == s.next + 1
            && MovesOn(s.(prompts := s.prompts[s.next := p]), t, [s.next])
  {
    var s1 := Joined(s, p);
    assert Sound(p) && Waiting(p);
    BeginStarted(s, p);
    var k := StartMoves(s1, s.next);
    hide Consistent, Start, Startable, Fresh;
    assert [s.next] + s1.queue == [s.next];
    var t := Start(s1, s.next);
    SamePromptsMove(s1, s.(prompts := s1.prompts), t, t, [s.next], k);
    StartNext(s1, s.next);
    assert s.next in t.prompts;
  }

  lemma {:induction false} StartNext(s: System, id: nat)
    ensures Start(s, id).next == s.next
    decreases |s.queue|, 3
  {
    if id in s.prompts {
      var s1 := s.(active := Some(id), started := s.started + [id]);
      var p := s.prompts[id];
      AnswerNext(s1, id, PinCancelled);
      AnswerNext(s1, id, Locked);
    }
  }

  lemma {:induction false} AnswerNext(s: System, id: nat, outcome: Outcome)
    requires id in s.prompts
    ensures Answer(s, id, outcome).next == s.next
    decreases |s.queue|, 1
  {
    if s.active == Some(id) && s.queue != [] {
      var s1 := Put(s, id, Closed(s.prompts[id], outcome));
      StartNext(s1.(active := None, queue := s.queue[1..]), s.queue[0]);
    }
  }
}
