/** PIN prompts (src/core/pin.c, reply gating in src/core/ui.c): a process shows
    one prompt at a time, answers each once, and never while a worker still
    borrows the caller's data. */
module PinPrompts {
  import opened Optional

  const MAX_ATTEMPTS := 3

  datatype Outcome = Ok | Incorrect | Locked | PinCancelled | DeviceError | TokenRemoved
                   | NoDisplay | TimedOut

  datatype LoginError = ErrorCancelled | ErrorIncorrect | ErrorLocked | ErrorRemoved | ErrorOther

  datatype Login = Accepted | Rejected(error: LoginError)

  /** What the token reports about its PIN, re-read by the workers. */
  datatype Flags = Flags(finalTry: bool, locked: bool)

  /** What the caller asks for. */
  datatype Config = Config(isProtected: bool, hasRefresh: bool, hasAbandon: bool)

  /** `deferred` is cancel_deferred with its outcome. The last four fields are
      history. */
  datatype Prompt = Prompt(
    config: Config, flags: Flags, cancelled: bool, cancelIdle: bool,
    finished: bool, busy: bool, refreshing: bool, loggingIn: bool, deferred: Option<Outcome>,
    succeeded: bool, hasSecret: bool, timeoutArmed: bool, attempts: nat,
    confirmed: bool, warningPending: bool, shown: bool, ready: bool,
    outcome: Option<Outcome>, firstDeferred: Option<Outcome>,
    warningsAccepted: nat, riskySubmit: bool)

  function Fresh(config: Config, flags: Flags, cancelled: bool): Prompt {
    Prompt(config, flags, cancelled, cancelled, false, false, false, false, None,
           false, false, false, 0, false, false, false, false, None, None, 0, false)
  }

  datatype Call = Done(id: nat, outcome: Outcome) | Abandoned(id: nat)

  /** `active` and `queue` are the process-wide globals; `started` and `log` are
      the history of activations and of callbacks into the prompts' owners. */
  datatype System = System(prompts: map<nat, Prompt>, active: Option<nat>, queue: seq<nat>,
                           next: nat, started: seq<nat>, log: seq<Call>)

  const IDLE := System(map[], None, [], 0, [], [])

  function Put(s: System, id: nat, p: Prompt): System {
    s.(prompts := s.prompts[id := p])
  }

  // ----- Answering and starting, which call each other -----

  function Closed(p: Prompt, outcome: Outcome): Prompt {
    p.(finished := true, outcome := Some(outcome), cancelIdle := false, timeoutArmed := false,
       hasSecret := false, shown := false)
  }

  predicate Abandons(p: Prompt, outcome: Outcome) {
    p.succeeded && outcome != Ok && p.config.hasAbandon
  }

  function Without(s: seq<nat>, id: nat): seq<nat> {
    if s == [] then []
    else if s[0] == id then s[1..]
    else [s[0]] + Without(s[1..], id)
  }

  function Calls(id: nat, p: Prompt, outcome: Outcome): seq<Call> {
    [Done(id, outcome)] + if Abandons(p, outcome) then [Abandoned(id)] else []
  }

  /** The prompt's owner hears last, after the next prompt has been started. */
  function Finish(s: System, id: nat, outcome: Outcome): System
    requires id in s.prompts
    decreases |s.queue|, 0
  {
    var p := s.prompts[id];
    var s1 := Put(s, id, Closed(p, outcome));
    var s2 :=
      if s1.active == Some(id) then
        var s1' := s1.(active := None);
        if s1.queue == [] then s1' else Start(s1'.(queue := s1.queue[1..]), s1.queue[0])
      else s1.(queue := Without(s1.queue, id));
    s2.(log := s2.log + Calls(id, p, outcome))
  }

  function Defer(p: Prompt, outcome: Outcome): Prompt {
    if p.deferred.Some? then p
    else p.(deferred := Some(outcome),
            firstDeferred := if p.firstDeferred.Some? then p.firstDeferred else Some(outcome))
  }

  function Answer(s: System, id: nat, outcome: Outcome): System
    requires id in s.prompts
    decreases |s.queue|, 1
  {
    var p := s.prompts[id];
    if p.finished then s
    else if p.refreshing || p.loggingIn then Put(s, id, Defer(p, outcome))
    else Finish(s, id, outcome)
  }

  function Show(s: System, id: nat): System
    requires id in s.prompts
    decreases |s.queue|, 2
  {
    var p := s.prompts[id];
    if p.flags.locked then Answer(s, id, Locked) else Put(s, id, p.(shown := true))
  }

  function Start(s: System, id: nat): System
    decreases |s.queue|, 3
  {
    if id !in s.prompts then s
    else
      var s1 := s.(active := Some(id), started := s.started + [id]);
      var p := s.prompts[id];
      if p.cancelled then Answer(s1, id, PinCancelled)
      else if !p.config.hasRefresh then Show(s1, id)
      else Put(s1, id, p.(refreshing := true))
  }

  // ----- Input, workers and timers -----

  function Submit(p: Prompt, timeouts: bool): Prompt {
    if p.busy || p.finished || p.loggingIn then p
    else if p.config.isProtected && p.flags.finalTry && !p.confirmed then p.(warningPending := true)
    else if !p.config.isProtected && !p.hasSecret then p
    else LoggingIn(p, timeouts)
  }

  /** The secret goes to the worker, which now borrows the caller's data. */
  function LoggingIn(p: Prompt, timeouts: bool): Prompt {
    p.(hasSecret := false, attempts := p.attempts + 1, loggingIn := true, busy := true,
       timeoutArmed := timeouts || p.timeoutArmed,
       riskySubmit := p.riskySubmit || (p.config.isProtected && p.flags.finalTry
                                        && p.warningsAccepted == 0))
  }

  /** A reply of the desktop carrying a PIN of acceptable length, or none. */
  function SubmitReply(p: Prompt, secret: bool, timeouts: bool): Prompt {
    if p.finished || p.deferred.Some? || p.busy || p.loggingIn || !p.ready then p
    else if p.config.isProtected then Submit(p, timeouts)
    else if !secret then p
    else Submit(p.(hasSecret := true), timeouts)
  }

  function ReadyReply(p: Prompt, timeouts: bool): Prompt {
    if p.ready || p.finished || p.cancelled then p
    else if p.config.isProtected then Submit(p.(ready := true), timeouts)
    else p.(ready := true)
  }

  function Dismissed(p: Prompt): Prompt { p.(warningPending := false) }

  function Confirmed(p: Prompt): Prompt {
    p.(warningPending := false, confirmed := true, warningsAccepted := p.warningsAccepted + 1)
  }

  function WarningReply(s: System, id: nat, accepted: bool, timeouts: bool): System
    requires id in s.prompts
  {
    var p := s.prompts[id];
    if !p.config.isProtected || p.finished || p.loggingIn || !p.warningPending then s
    else if !accepted then Answer(Put(s, id, Dismissed(p)), id, PinCancelled)
    else Put(s, id, Submit(Confirmed(p), timeouts))
  }

  function LoginVerdict(p: Prompt, login: Login): Option<Outcome> {
    match login
    case Accepted => Some(Ok)
    case Rejected(ErrorCancelled) => Some(PinCancelled)
    case Rejected(ErrorIncorrect) =>
      if p.flags.locked then Some(Locked)
      else if p.config.isProtected then Some(Incorrect)
      else if p.attempts >= MAX_ATTEMPTS then Some(Incorrect)
      else None   // the user may try again
    case Rejected(ErrorLocked) => Some(Locked)
    case Rejected(ErrorRemoved) => Some(TokenRemoved)
    case Rejected(ErrorOther) => Some(DeviceError)
  }

  /** The worker re-reads the flags after a success or a refused PIN. */
  function AfterLogin(p: Prompt, login: Login, flags: Flags): Prompt {
    p.(loggingIn := false, timeoutArmed := false,
       succeeded := p.succeeded || login.Accepted?,
       flags := if p.config.hasRefresh && (login.Accepted? || login == Rejected(ErrorIncorrect))
                then flags else p.flags)
  }

  function LoginDone(s: System, id: nat, login: Login, flags: Flags): System
    requires id in s.prompts
  {
    var p := AfterLogin(s.prompts[id], login, flags);
    if p.deferred.Some? then Answer(Put(s, id, p.(deferred := None)), id, p.deferred.value)
    else if p.finished then Put(s, id, p)
    else if login.Accepted? then Answer(Put(s, id, p), id, Ok)
    else
      var p1 := p.(busy := false);
      match LoginVerdict(p1, login)
      case Some(outcome) => Answer(Put(s, id, p1), id, outcome)
      case None => Put(s, id, p1.(hasSecret := false))
  }

  function RefreshDone(s: System, id: nat, flags: Flags): System
    requires id in s.prompts
  {
    var p := s.prompts[id].(refreshing := false, flags := flags);
    if p.deferred.Some? then Answer(Put(s, id, p.(deferred := None)), id, p.deferred.value)
    else if p.cancelled then Answer(Put(s, id, p), id, PinCancelled)
    else if !p.finished then Show(Put(s, id, p), id)
    else Put(s, id, p)
  }

  function LoginTimeout(s: System, id: nat): System
    requires id in s.prompts
  {
    var p := s.prompts[id].(timeoutArmed := false);
    if !p.loggingIn then Put(s, id, p) else Answer(Put(s, id, p), id, TimedOut)
  }

  /** Cancellation may come from any thread and only queues an idle. */
  function Cancel(s: System, id: nat): System
    requires id in s.prompts
  {
    var p := s.prompts[id];
    Put(s, id, p.(cancelled := true, cancelIdle := p.cancelIdle || !p.finished))
  }

  function CancelledIdle(s: System, id: nat): System
    requires id in s.prompts
  {
    Answer(Put(s, id, s.prompts[id].(cancelIdle := false)), id, PinCancelled)
  }

  /** Answered on the spot, without ever being a prompt on the screen. */
  function Undisplayed(p: Prompt): Prompt {
    p.(finished := true, cancelIdle := false, outcome := Some(NoDisplay))
  }

  function Joined(s: System, p: Prompt): System {
    s.(next := s.next + 1, prompts := s.prompts[s.next := p])
  }

  function Begin(s: System, config: Config, flags: Flags, cancelled: bool, display: bool): System {
    var p := Fresh(config, flags, cancelled);
    if !display then
      var s1 := Joined(s, Undisplayed(p));
      s1.(log := s.log + [Done(s.next, NoDisplay)])
    else
      var s1 := Joined(s, p);
      if s.active.Some? then s1.(queue := s.queue + [s.next]) else Start(s1, s.next)
  }

  datatype Event =
    | NewPrompt(config: Config, flags: Flags, cancelled: bool, display: bool)
    | Ready(id: nat, timeouts: bool)
    | Submitted(id: nat, secret: bool, timeouts: bool)
    | Warned(id: nat, accepted: bool, timeouts: bool)
    | UiEnded(id: nat, outcome: Outcome)       // closed, failed or without a display
    | Cancelled(id: nat)
    | Idle(id: nat)
    | Timeout(id: nat)
    | LoginReturned(id: nat, login: Login, flags: Flags)
    | RefreshReturned(id: nat, flags: Flags)
    | TokenChanged(id: nat, flags: Flags)      // another prompt's worker shares the token

  predicate Enabled(s: System, e: Event) {
    e.NewPrompt? ||
    (e.id in s.prompts &&
     var p := s.prompts[e.id];
     match e
     case NewPrompt(_, _, _, _) => true
     case Ready(_, _) => p.shown
     case Submitted(_, _, _) => p.shown
     case Warned(_, _, _) => p.shown && p.warningPending
     case UiEnded(_, outcome) => p.shown && outcome in {PinCancelled, NoDisplay, DeviceError}
     case Cancelled(_) => true
     case Idle(_) => p.cancelIdle
     case Timeout(_) => p.timeoutArmed
     case LoginReturned(_, _, _) => p.loggingIn
     case RefreshReturned(_, _) => p.refreshing
     case TokenChanged(_, _) => !p.finished)
  }

  function Step(s: System, e: Event): System {
    if !Enabled(s, e) then s
    else
      match e
      case NewPrompt(config, flags, cancelled, display) => Begin(s, config, flags, cancelled, display)
      case Ready(id, timeouts) => Put(s, id, ReadyReply(s.prompts[id], timeouts))
      case Submitted(id, secret, timeouts) =>
        Put(s, id, SubmitReply(s.prompts[id], secret, timeouts))
      case Warned(id, accepted, timeouts) => WarningReply(s, id, accepted, timeouts)
      case UiEnded(id, outcome) => Answer(s, id, outcome)
      case Cancelled(id) => Cancel(s, id)
      case Idle(id) => CancelledIdle(s, id)
      case Timeout(id) => LoginTimeout(s, id)
      case LoginReturned(id, login, flags) => LoginDone(s, id, login, flags)
      case RefreshReturned(id, flags) => RefreshDone(s, id, flags)
      case TokenChanged(id, flags) => Put(s, id, s.prompts[id].(flags := flags))
  }

  function Run(events: seq<Event>): System {
    if events == [] then IDLE else Step(Run(events[..|events| - 1]), events[|events| - 1])
  }

  // ----- The process-wide state, updated in place -----

  class PinQueue {
    var prompts: map<nat, Prompt>
    var active: Option<nat>
    var queue: seq<nat>
    var next: nat
    ghost var started: seq<nat>
    ghost var log: seq<Call>

    ghost function View(): System reads this {
      System(prompts, active, queue, next, started, log)
    }

    ghost predicate Valid() reads this { Consistent(View()) }

    constructor ()
      ensures Valid() && View() == IDLE
    {
      prompts, active, queue, next := map[], None, [], 0;
      started, log := [], [];
      new;
      IdleConsistent();
    }

    method RemoveQueued(id: nat)
      modifies this`queue
      ensures queue == Without(old(queue), id)
    {
      for i := 0 to |queue|
        invariant queue == old(queue)
        invariant Without(queue, id) == queue[..i] + Without(queue[i..], id)
      {
        if queue[i] == id {
          queue := queue[..i] + queue[i + 1..];
          return;
        }
        assert queue[..i + 1] == queue[..i] + [queue[i]];
      }
    }

    method FinishPrompt(id: nat, outcome: Outcome)
      requires id in prompts
      modifies this
      ensures View() == Finish(old(View()), id, outcome)
      decreases |queue|, 0
    {
      hide Start, Closed, Without, Calls;
      var p := prompts[id];
      // Disconnect, then drop the idle, the timer, the secret and the window.
      prompts := prompts[id := Closed(p, outcome)];
      if active == Some(id) {
        active := None;
        if queue != [] {
          var head := queue[0];
          queue := queue[1..];
          StartPrompt(head);
        }
      } else {
        RemoveQueued(id);
      }
      CallOwner(id, p, outcome);
    }

    /** `done`, and after it the request to undo a login that is not wanted. */
    method CallOwner(id: nat, p: Prompt, outcome: Outcome)
      modifies this`log
      ensures log == old(log) + Calls(id, p, outcome)
    {
      log := log + [Done(id, outcome)];
      if p.succeeded && outcome != Ok && p.config.hasAbandon {
        log := log + [Abandoned(id)];
      }
    }

    method AnswerPrompt(id: nat, outcome: Outcome)
      requires id in prompts
      modifies this
      ensures View() == Answer(old(View()), id, outcome)
      decreases |queue|, 1
    {
      hide Finish;
      var p := prompts[id];
      if p.finished {
        return;
      }
      if p.refreshing || p.loggingIn {
        prompts := prompts[id := Defer(p, outcome)];
        return;
      }
      FinishPrompt(id, outcome);
    }

    method ShowPrompt(id: nat)
      requires id in prompts
      modifies this
      ensures View() == Show(old(View()), id)
      decreases |queue|, 2
    {
      hide Answer;
      if prompts[id].flags.locked {
        AnswerPrompt(id, Locked);
        return;
      }
      prompts := prompts[id := prompts[id].(shown := true)];
    }

    method StartPrompt(id: nat)
      modifies this
      ensures View() == Start(old(View()), id)
      decreases |queue|, 3
    {
      hide Answer, Show;
      if id !in prompts {
        return;
      }
      active := Some(id);
      started := started + [id];
      if prompts[id].cancelled {
        AnswerPrompt(id, PinCancelled);
        return;
      }
      if !prompts[id].config.hasRefresh {
        ShowPrompt(id);
        return;
      }
      prompts := prompts[id := prompts[id].(refreshing := true)];
    }

    method SubmitWith(id: nat, p: Prompt, timeouts: bool)
      requires id in prompts
      modifies this`prompts
      ensures prompts == old(prompts)[id := Submit(p, timeouts)]
    {
      hide LoggingIn;
      if p.busy || p.finished || p.loggingIn {
        prompts := prompts[id := p];
        return;
      }
      if p.config.isProtected && p.flags.finalTry && !p.confirmed {
        prompts := prompts[id := p.(warningPending := true)];
        return;
      }
      if !p.config.isProtected && !p.hasSecret {
        prompts := prompts[id := p];
        return;
      }
      prompts := prompts[id := LoggingIn(p, timeouts)];
    }

    /** The record is stored and its prompt answered in one step. */
    method AnswerWith(id: nat, p: Prompt, outcome: Outcome)
      requires id in prompts
      modifies this
      ensures View() == Answer(Put(old(View()), id, p), id, outcome)
    {
      hide Answer;
      prompts := prompts[id := p];
      AnswerPrompt(id, outcome);
    }

    method OnLoginDone(id: nat, login: Login, flags: Flags)
      requires Valid() && id in prompts && prompts[id].loggingIn
      modifies this
      ensures Valid() && View() == LoginDone(old(View()), id, login, flags)
    {
      LoginDoneConsistent(View(), id, login, flags);
      hide Consistent, Answer, AfterLogin, LoginVerdict;
      var p := AfterLogin(prompts[id], login, flags);
      if p.deferred.Some? {
        AnswerWith(id, p.(deferred := None), p.deferred.value);
        return;
      }
      if p.finished {
        // No worker outlives the answer.
        assert false;
      }
      if login.Accepted? {
        AnswerWith(id, p, Ok);
        return;
      }
      p := p.(busy := false);
      var verdict := LoginVerdict(p, login);
      if verdict.Some? {
        AnswerWith(id, p, verdict.value);
        return;
      }
      // Retries require user input after the entry has been cleared.
      prompts := prompts[id := p.(hasSecret := false)];
    }

    method OnRefreshDone(id: nat, flags: Flags)
      requires Valid() && id in prompts && prompts[id].refreshing
      modifies this
      ensures Valid() && View() == RefreshDone(old(View()), id, flags)
    {
      RefreshDoneConsistent(View(), id, flags);
      hide Consistent, Answer, Show;
      var p := prompts[id].(refreshing := false, flags := flags);
      if p.deferred.Some? {
        AnswerWith(id, p.(deferred := None), p.deferred.value);
        return;
      }
      if p.cancelled {
        AnswerWith(id, p, PinCancelled);
        return;
      }
      prompts := prompts[id := p];
      if !p.finished {
        ShowPrompt(id);
      }
    }

    method OnLoginTimeout(id: nat)
      requires Valid() && id in prompts && prompts[id].timeoutArmed
      modifies this
      ensures Valid() && View() == LoginTimeout(old(View()), id)
    {
      TimeoutConsistent(View(), id);
      hide Consistent, Answer;
      var p := prompts[id].(timeoutArmed := false);
      if !p.loggingIn {
        prompts := prompts[id := p];
        return;
      }
      AnswerWith(id, p, TimedOut);
    }

    method OnCancelledIdle(id: nat)
      requires Valid() && id in prompts && prompts[id].cancelIdle
      modifies this
      ensures Valid() && View() == CancelledIdle(old(View()), id)
    {
      IdleAnswered(View(), id);
      hide Consistent, Answer;
      AnswerWith(id, prompts[id].(cancelIdle := false), PinCancelled);
    }

    method OnWarningReply(id: nat, accepted: bool, timeouts: bool)
      requires Valid() && id in prompts && prompts[id].shown && prompts[id].warningPending
      modifies this
      ensures Valid() && View() == WarningReply(old(View()), id, accepted, timeouts)
    {
      WarningConsistent(View(), id, accepted, timeouts);
      hide Consistent, Answer, Submit, Dismissed, Confirmed;
      var p := prompts[id];
      if !p.config.isProtected || p.finished || p.loggingIn || !p.warningPending {
        return;
      }
      if !accepted {
        AnswerWith(id, Dismissed(p), PinCancelled);
        return;
      }
      SubmitWith(id, Confirmed(p), timeouts);
    }

    method OnReadyReply(id: nat, timeouts: bool)
      requires Valid() && id in prompts && prompts[id].shown
      modifies this
      ensures Valid() && View() == Put(old(View()), id, ReadyReply(old(prompts)[id], timeouts))
    {
      ReadyConsistent(View(), id, timeouts);
      hide Consistent, Submit;
      var p := prompts[id];
      if p.ready || p.finished || p.cancelled {
        assert prompts == prompts[id := p];
        return;
      }
      p := p.(ready := true);
      if p.config.isProtected {
        SubmitWith(id, p, timeouts);
      } else {
        prompts := prompts[id := p];
      }
    }

    method OnSubmitReply(id: nat, secret: bool, timeouts: bool)
      requires Valid() && id in prompts && prompts[id].shown
      modifies this
      ensures Valid()
      ensures View() == Put(old(View()), id, SubmitReply(old(prompts)[id], secret, timeouts))
    {
      SubmittedConsistent(View(), id, secret, timeouts);
      hide Consistent, Submit;
      var p := prompts[id];
      assert prompts == prompts[id := p];
      if p.finished || p.deferred.Some? || p.busy || p.loggingIn || !p.ready {
        return;
      }
      if p.config.isProtected {
        SubmitWith(id, p, timeouts);
      } else if secret {
        SubmitWith(id, p.(hasSecret := true), timeouts);
      }
    }

    method Join(p: Prompt) returns (id: nat)
      modifies this`next, this`prompts
      ensures id == old(next) && View() == Joined(old(View()), p)
    {
      id := next;
      next := next + 1;
      prompts := prompts[id := p];
    }

    method LoginFull(config: Config, flags: Flags, cancelled: bool, display: bool)
      requires Valid()
      modifies this
      ensures Valid() && View() == Begin(old(View()), config, flags, cancelled, display)
    {
      BeginConsistent(View(), config, flags, cancelled, display);
      hide Consistent, Start, Fresh, Undisplayed;
      var p := Fresh(config, flags, cancelled);
      if !display {
        var answered := Join(Undisplayed(p));
        log := log + [Done(answered, NoDisplay)];
        return;
      }
      var id := Join(p);
      if active.Some? {
        queue := queue + [id];
        return;
      }
      StartPrompt(id);
    }
  }

  // ----- Invariants -----

  /** One prompt between callbacks. */
  predicate Sound(p: Prompt) {
    && (p.finished <==> p.outcome.Some?)
    && (p.finished ==> !p.refreshing && !p.loggingIn && p.deferred == None && !p.shown
                       && !p.cancelIdle && !p.timeoutArmed)
    && (p.refreshing ==> !p.shown && !p.loggingIn)
    && (p.loggingIn ==> p.shown && !p.succeeded)
    && (!p.finished ==> p.busy == p.loggingIn && !p.succeeded)
    && (p.deferred.Some? ==> p.deferred != Some(Ok) && (p.refreshing || p.loggingIn))
    && p.attempts <= (if p.config.isProtected then 1 else MAX_ATTEMPTS)
    && (!p.finished && !p.loggingIn ==>
          p.attempts < (if p.config.isProtected then 1 else MAX_ATTEMPTS))
    && (!p.finished ==> p.deferred == p.firstDeferred)
    && (p.finished && p.firstDeferred.Some? ==> p.outcome == p.firstDeferred)
    && (p.finished ==> (p.outcome == Some(Ok) <==> p.succeeded && p.firstDeferred.None?))
    && (p.confirmed <==> p.warningsAccepted > 0)
    && !p.riskySubmit
  }

  /** A prompt that has not been activated. */
  predicate Waiting(p: Prompt) {
    !p.finished && !p.refreshing && !p.loggingIn && !p.shown && p.attempts == 0
  }

  ghost predicate Increasing(s: seq<nat>) {
    s != [] ==> (forall x :: x in s[1..] ==> s[0] < x) && Increasing(s[1..])
  }

  ghost predicate AllSound(prompts: map<nat, Prompt>) {
    forall id :: id in prompts ==> Sound(prompts[id])
  }

  /** The queue holds waiting prompts in the order they came, all later than
      every prompt activated so far. */
  ghost predicate QueueSound(s: System) {
    && Increasing(s.queue) && Increasing(s.started)
    && (forall id :: id in s.queue ==> id in s.prompts && Waiting(s.prompts[id]))
    && (forall a, q :: a in s.started && q in s.queue ==> a < q)
    && (forall id :: id in s.started || id in s.prompts ==> id < s.next)
  }

  /** Every unfinished prompt but `apart` is active or queued, and only those. */
  ghost predicate Placed(s: System, apart: Option<nat>) {
    && (s.active.Some? ==> s.active.value in s.prompts && !s.prompts[s.active.value].finished
                           && s.active.value !in s.queue && s.active.value in s.started)
    && (forall id :: id in s.prompts && !s.prompts[id].finished && apart != Some(id) ==>
          s.active == Some(id) || id in s.queue)
    && (forall id :: id in s.prompts && s.prompts[id].finished ==> id !in s.queue)
  }

  ghost predicate Consistent(s: System) {
    && AllSound(s.prompts) && QueueSound(s) && Placed(s, None)
    && (s.active.None? ==> s.queue == [])
  }

  /** A prompt that may be answered with `outcome` now. */
  predicate Closable(p: Prompt, outcome: Outcome) {
    && !p.finished && !p.refreshing && !p.loggingIn && p.deferred == None
    && p.attempts <= (if p.config.isProtected then 1 else MAX_ATTEMPTS)
    && (p.firstDeferred.Some? ==> p.firstDeferred == Some(outcome))
    && (outcome == Ok <==> p.succeeded && p.firstDeferred.None?)
    && (p.confirmed <==> p.warningsAccepted > 0)
    && !p.riskySubmit
  }

  /** Everything is in order except perhaps the record of `id`. */
  ghost predicate Nearly(s: System, id: nat) {
    && id in s.prompts && !s.prompts[id].finished
    && (forall x :: x in s.prompts && x != id ==> Sound(s.prompts[x]))
    && QueueSound(s) && Placed(s, None)
    && (s.active.None? ==> s.queue == [])
  }

  /** `id` has just been taken off the queue. */
  ghost predicate Startable(s: System, id: nat) {
    && s.active.None? && id in s.prompts && id !in s.queue
    && AllSound(s.prompts) && Waiting(s.prompts[id])
    && QueueSound(s) && Placed(s, Some(id))
    && (forall q :: q in s.queue ==> id < q)
    && (forall a :: a in s.started ==> a < id)
  }

  lemma {:induction false} WithoutIncreasing(s: seq<nat>, id: nat)
    requires Increasing(s)
    ensures Increasing(Without(s, id))
    ensures forall x :: x in Without(s, id) <==> x in s && x != id
  {
    if s != [] {
      WithoutIncreasing(s[1..], id);
      assert s == [s[0]] + s[1..];
      var rest := Without(s[1..], id);
      assert ([s[0]] + rest)[1..] == rest;
    }
  }

  lemma {:induction false} AppendIncreasing(s: seq<nat>, id: nat)
    requires Increasing(s) && forall x :: x in s ==> x < id
    ensures Increasing(s + [id])
  {
    if s == [] {
      assert [id][1..] == [] && s + [id] == [id];
    } else {
      assert forall x :: x in s[1..] ==> x in s;
      AppendIncreasing(s[1..], id);
      assert (s + [id])[1..] == s[1..] + [id];
      assert s[0] in s;
    }
  }

  lemma RemoveQueued(s: System, id: nat, p: Prompt)
    requires Nearly(s, id) && Sound(p) && p.finished && s.active != Some(id)
    ensures Consistent(Put(s, id, p).(queue := Without(s.queue, id)))
  {
    hide Sound, Increasing, Without;
    WithoutIncreasing(s.queue, id);
  }

  lemma LogQuiet(s: System, log: seq<Call>)
    requires Consistent(s)
    ensures Consistent(s.(log := log))
  {
    hide Sound, Increasing;
  }

  lemma FinishQueued(s: System, id: nat, outcome: Outcome)
    requires Nearly(s, id) && Closable(s.prompts[id], outcome) && s.active != Some(id)
    ensures Consistent(Finish(s, id, outcome))
  {
    assert Sound(Closed(s.prompts[id], outcome));
    hide Sound, Consistent, Nearly, Without;
    RemoveQueued(s, id, Closed(s.prompts[id], outcome));
    LogQuiet(Put(s, id, Closed(s.prompts[id], outcome)).(queue := Without(s.queue, id)),
             s.log + Calls(id, s.prompts[id], outcome));
  }

  lemma TakeHead(s: System, id: nat, outcome: Outcome)
    requires Nearly(s, id) && Closable(s.prompts[id], outcome)
    requires s.active == Some(id) && s.queue != []
    ensures var s1 := Put(s, id, Closed(s.prompts[id], outcome));
            Startable(s1.(active := None, queue := s.queue[1..]), s.queue[0])
  {
    assert Sound(Closed(s.prompts[id], outcome));
    assert s.queue[0] in s.queue;
    assert forall q :: q in s.queue[1..] ==> q in s.queue && s.queue[0] < q;
    assert forall q :: q in s.queue ==> q == s.queue[0] || q in s.queue[1..];
  }

  lemma FinishConsistent(s: System, id: nat, outcome: Outcome)
    requires Nearly(s, id) && Closable(s.prompts[id], outcome)
    ensures Consistent(Finish(s, id, outcome))
    decreases |s.queue|, 0
  {
    if s.active == Some(id) {
      var s1 := Put(s, id, Closed(s.prompts[id], outcome));
      assert Sound(Closed(s.prompts[id], outcome));
      if s.queue != [] {
        TakeHead(s, id, outcome);
        StartConsistent(s1.(active := None, queue := s.queue[1..]), s.queue[0]);
      }
    } else {
      FinishQueued(s, id, outcome);
    }
  }

  lemma Activated(s: System, id: nat)
    requires Startable(s, id)
    ensures var s1 := s.(active := Some(id), started := s.started + [id]);
            Consistent(s1)
  {
    AppendIncreasing(s.started, id);
  }

  lemma StartConsistent(s: System, id: nat)
    requires Startable(s, id)
    ensures Consistent(Start(s, id))
    decreases |s.queue|, 3
  {
    Activated(s, id);
    var s1 := s.(active := Some(id), started := s.started + [id]);
    var p := s.prompts[id];
    if p.cancelled {
      AnswerConsistent(s1, id, PinCancelled);
    } else if !p.config.hasRefresh {
      ShowConsistent(s1, id);
    } else {
      PutConsistent(s1, id, p.(refreshing := true));
    }
  }

  lemma ShowConsistent(s: System, id: nat)
    requires Consistent(s) && s.active == Some(id) && Waiting(s.prompts[id])
    ensures Consistent(Show(s, id))
    decreases |s.queue|, 2
  {
    if s.prompts[id].flags.locked {
      AnswerConsistent(s, id, Locked);
    } else {
      PutConsistent(s, id, s.prompts[id].(shown := true));
    }
  }

  lemma AnswerConsistent(s: System, id: nat, outcome: Outcome)
    requires Consistent(s) && id in s.prompts && outcome != Ok
    ensures Consistent(Answer(s, id, outcome))
    decreases |s.queue|, 1
  {
    var p := s.prompts[id];
    if !p.finished {
      if p.refreshing || p.loggingIn {
        PutConsistent(s, id, Defer(p, outcome));
      } else {
        FinishConsistent(s, id, outcome);
      }
    }
  }

  lemma PutConsistent(s: System, id: nat, p: Prompt)
    requires Consistent(s) && id in s.prompts && Sound(p)
    requires p.finished == s.prompts[id].finished
    requires id in s.queue ==> Waiting(p)
    ensures Consistent(Put(s, id, p))
  {
  }

  /** Answering right after a worker has returned. */
  lemma AnswerReturned(s: System, id: nat, p: Prompt, outcome: Outcome)
    requires Consistent(s) && id in s.prompts && !s.prompts[id].finished && s.active == Some(id)
    requires Closable(p, outcome)
    ensures Consistent(Answer(Put(s, id, p), id, outcome))
  {
    assert id !in s.queue;
    assert Nearly(Put(s, id, p), id);
    FinishConsistent(Put(s, id, p), id, outcome);
  }

  lemma BusyIsActive(s: System, id: nat)
    requires Consistent(s) && id in s.prompts
    requires var p := s.prompts[id]; p.loggingIn || p.refreshing || p.shown
    ensures s.active == Some(id) && id !in s.queue && !s.prompts[id].finished
  {
    assert Sound(s.prompts[id]);
    assert !s.prompts[id].finished;
  }

  lemma LoggingInSound(p: Prompt, timeouts: bool)
    requires Sound(p) && p.shown && !p.loggingIn && !p.finished
    requires p.config.isProtected && p.flags.finalTry ==> p.confirmed
    ensures Sound(LoggingIn(p, timeouts))
  {
  }

  lemma WarningSound(p: Prompt)
    requires Sound(p)
    ensures Sound(p.(warningPending := true)) && Sound(Dismissed(p)) && Sound(Confirmed(p))
    ensures Dismissed(p).finished == p.finished && Confirmed(p).finished == p.finished
    ensures Confirmed(p).shown == p.shown
  {
    PendingSound(p, true);
    PendingSound(p, false);
    ConfirmedSound(p);
    hide Sound;
  }

  lemma PendingSound(p: Prompt, pending: bool)
    requires Sound(p)
    ensures Sound(p.(warningPending := pending))
  {
  }

  lemma ConfirmedSound(p: Prompt)
    requires Sound(p)
    ensures Sound(Confirmed(p))
  {
  }

  lemma SubmitSound(p: Prompt, timeouts: bool)
    requires Sound(p) && p.shown
    ensures Sound(Submit(p, timeouts))
  {
    WarningSound(p);
    hide Sound, LoggingIn;
    if Submit(p, timeouts) == LoggingIn(p, timeouts) && !(p.busy || p.finished || p.loggingIn)
       && !(p.config.isProtected && p.flags.finalTry && !p.confirmed) {
      LoggingInSound(p, timeouts);
    }
  }

  lemma InputSound(p: Prompt, secret: bool, timeouts: bool)
    requires Sound(p) && p.shown
    ensures Sound(SubmitReply(p, secret, timeouts)) && Sound(ReadyReply(p, timeouts))
  {
    assert Sound(p.(hasSecret := true)) && Sound(p.(ready := true));
    hide Sound, Submit;
    SubmitSound(p, timeouts);
    SubmitSound(p.(hasSecret := true), timeouts);
    SubmitSound(p.(ready := true), timeouts);
  }

  lemma AcceptedConsistent(s: System, id: nat, p: Prompt, timeouts: bool)
    requires Consistent(s) && id in s.prompts && s.prompts[id].shown
    requires Sound(p) && p.shown && p.finished == s.prompts[id].finished
    ensures Consistent(Put(s, id, Submit(p, timeouts)))
  {
    hide Sound, Consistent, Submit;
    SubmitSound(p, timeouts);
    SubmitUnfinished(p, timeouts);
    ShownConsistent(s, id, Submit(p, timeouts));
  }

  lemma RejectedConsistent(s: System, id: nat, p: Prompt)
    requires Consistent(s) && id in s.prompts && s.prompts[id].shown
    requires Sound(p) && p.finished == s.prompts[id].finished
    ensures Consistent(Answer(Put(s, id, p), id, PinCancelled))
  {
    hide Sound, Consistent, Answer;
    ShownConsistent(s, id, p);
    AnswerConsistent(Put(s, id, p), id, PinCancelled);
  }

  lemma WarningConsistent(s: System, id: nat, accepted: bool, timeouts: bool)
    requires Consistent(s) && id in s.prompts && s.prompts[id].shown
    ensures Consistent(WarningReply(s, id, accepted, timeouts))
  {
    SoundOf(s, id);
    var p := s.prompts[id];
    WarningSound(p);
    hide Sound, Consistent, Answer, Submit, Put, Dismissed, Confirmed;
    if p.config.isProtected && !p.finished && !p.loggingIn && p.warningPending {
      if accepted {
        AcceptedConsistent(s, id, Confirmed(p), timeouts);
      } else {
        RejectedConsistent(s, id, Dismissed(p));
      }
    }
  }

  lemma LoggingInUnfinished(p: Prompt, timeouts: bool)
    ensures LoggingIn(p, timeouts).finished == p.finished
  {
  }

  lemma SubmitUnfinished(p: Prompt, timeouts: bool)
    ensures Submit(p, timeouts).finished == p.finished
  {
    hide LoggingIn;
    LoggingInUnfinished(p, timeouts);
  }

  lemma ReplyUnfinished(p: Prompt, secret: bool, timeouts: bool)
    ensures SubmitReply(p, secret, timeouts).finished == p.finished
    ensures ReadyReply(p, timeouts).finished == p.finished
  {
    hide Submit;
    SubmitUnfinished(p, timeouts);
    SubmitUnfinished(p.(hasSecret := true), timeouts);
    SubmitUnfinished(p.(ready := true), timeouts);
  }

  lemma SoundOf(s: System, id: nat)
    requires Consistent(s) && id in s.prompts
    ensures Sound(s.prompts[id])
  {
  }

  lemma LoginDoneConsistent(s: System, id: nat, login: Login, flags: Flags)
    requires Consistent(s) && id in s.prompts && s.prompts[id].loggingIn
    ensures Consistent(LoginDone(s, id, login, flags))
  {
    BusyIsActive(s, id);
    assert Sound(s.prompts[id]);
    var p := AfterLogin(s.prompts[id], login, flags);
    if p.deferred.Some? {
      AnswerReturned(s, id, p.(deferred := None), p.deferred.value);
    } else if login.Accepted? {
      AnswerReturned(s, id, p, Ok);
    } else {
      var p1 := p.(busy := false);
      match LoginVerdict(p1, login)
      case Some(outcome) => AnswerReturned(s, id, p1, outcome);
      case None => PutConsistent(s, id, p1.(hasSecret := false));
    }
  }

  lemma RefreshDoneConsistent(s: System, id: nat, flags: Flags)
    requires Consistent(s) && id in s.prompts && s.prompts[id].refreshing
    ensures Consistent(RefreshDone(s, id, flags))
  {
    BusyIsActive(s, id);
    SoundOf(s, id);
    hide Consistent, Finish;
    var p := s.prompts[id].(refreshing := false, flags := flags);
    if p.deferred.Some? {
      AnswerReturned(s, id, p.(deferred := None), p.deferred.value);
    } else if p.cancelled {
      AnswerReturned(s, id, p, PinCancelled);
    } else if flags.locked {
      AnswerReturned(s, id, p, Locked);
    } else {
      PutConsistent(s, id, p.(shown := true));
      assert s.prompts[id := p][id := p.(shown := true)] == s.prompts[id := p.(shown := true)];
    }
  }

  lemma BeginQueued(s: System, p: Prompt)
    requires Consistent(s) && s.active.Some? && Sound(p) && Waiting(p)
    ensures Consistent(s.(next := s.next + 1, prompts := s.prompts[s.next := p],
                          queue := s.queue + [s.next]))
  {
    assert s.next !in s.queue && s.next !in s.started && s.next !in s.prompts;
    AppendIncreasing(s.queue, s.next);
  }

  lemma BeginStarted(s: System, p: Prompt)
    requires Consistent(s) && s.active.None? && Sound(p) && Waiting(p)
    ensures Startable(s.(next := s.next + 1, prompts := s.prompts[s.next := p]), s.next)
  {
    assert s.next !in s.queue && s.next !in s.started && s.next !in s.prompts;
  }

  lemma BeginAnswered(s: System, p: Prompt, call: Call)
    requires Consistent(s) && Sound(p) && p.finished
    ensures Consistent(s.(next := s.next + 1, prompts := s.prompts[s.next := p],
                          log := s.log + [call]))
  {
    assert s.next !in s.queue && s.next !in s.started && s.next !in s.prompts;
  }

  lemma BeginConsistent(s: System, config: Config, flags: Flags, cancelled: bool, display: bool)
    requires Consistent(s)
    ensures Consistent(Begin(s, config, flags, cancelled, display))
  {
    var p := Fresh(config, flags, cancelled);
    var answered := Undisplayed(p);
    assert Sound(p) && Waiting(p) && Sound(answered);
    hide Consistent, Sound, Start, Startable;
    if !display {
      BeginAnswered(s, answered, Done(s.next, NoDisplay));
    } else if s.active.Some? {
      BeginQueued(s, p);
    } else {
      BeginStarted(s, p);
      StartConsistent(s.(next := s.next + 1, prompts := s.prompts[s.next := p]), s.next);
    }
  }

  lemma FlagsSound(p: Prompt, flags: Flags, timeoutArmed: bool)
    requires Sound(p)
    ensures Sound(p.(flags := flags))
    ensures Sound(p.(cancelIdle := false))
    ensures Sound(p.(timeoutArmed := false))
    ensures Sound(p.(cancelled := true, cancelIdle := p.cancelIdle || !p.finished))
  {
  }

  lemma ShownConsistent(s: System, id: nat, p: Prompt)
    requires Consistent(s) && id in s.prompts && s.prompts[id].shown && Sound(p)
    requires p.finished == s.prompts[id].finished
    ensures Consistent(Put(s, id, p))
  {
    BusyIsActive(s, id);
    PutConsistent(s, id, p);
  }

  /** A change that no rule about waiting prompts looks at. */
  lemma QuietConsistent(s: System, id: nat, p: Prompt)
    requires Consistent(s) && id in s.prompts && Sound(p)
    requires var q := s.prompts[id];
             p.finished == q.finished && p.refreshing == q.refreshing && p.loggingIn == q.loggingIn
             && p.shown == q.shown && p.attempts == q.attempts
    ensures Consistent(Put(s, id, p))
  {
    PutConsistent(s, id, p);
  }

  lemma ReadyConsistent(s: System, id: nat, timeouts: bool)
    requires Consistent(s) && id in s.prompts && s.prompts[id].shown
    ensures Consistent(Put(s, id, ReadyReply(s.prompts[id], timeouts)))
  {
    SoundOf(s, id);
    hide Consistent, Sound, ReadyReply, SubmitReply;
    InputSound(s.prompts[id], false, timeouts);
    ReplyUnfinished(s.prompts[id], false, timeouts);
    ShownConsistent(s, id, ReadyReply(s.prompts[id], timeouts));
  }

  lemma SubmittedConsistent(s: System, id: nat, secret: bool, timeouts: bool)
    requires Consistent(s) && id in s.prompts && s.prompts[id].shown
    ensures Consistent(Put(s, id, SubmitReply(s.prompts[id], secret, timeouts)))
  {
    SoundOf(s, id);
    hide Consistent, Sound, ReadyReply, SubmitReply;
    InputSound(s.prompts[id], secret, timeouts);
    ReplyUnfinished(s.prompts[id], secret, timeouts);
    ShownConsistent(s, id, SubmitReply(s.prompts[id], secret, timeouts));
  }

  lemma TimeoutConsistent(s: System, id: nat)
    requires Consistent(s) && id in s.prompts
    ensures Consistent(LoginTimeout(s, id))
  {
    SoundOf(s, id);
    FlagsSound(s.prompts[id], Flags(false, false), false);
    hide Consistent, Sound, Answer;
    var p := s.prompts[id].(timeoutArmed := false);
    QuietConsistent(s, id, p);
    AnswerConsistent(Put(s, id, p), id, TimedOut);
  }

  lemma IdleAnswered(s: System, id: nat)
    requires Consistent(s) && id in s.prompts
    ensures Consistent(CancelledIdle(s, id))
  {
    SoundOf(s, id);
    FlagsSound(s.prompts[id], Flags(false, false), false);
    hide Consistent, Sound, Answer;
    var p := s.prompts[id].(cancelIdle := false);
    QuietConsistent(s, id, p);
    AnswerConsistent(Put(s, id, p), id, PinCancelled);
  }

  lemma StepConsistent(s: System, e: Event)
    requires Consistent(s)
    ensures Consistent(Step(s, e))
  {
    hide Consistent, Sound, Answer, LoginDone, RefreshDone, WarningReply, Begin,
         ReadyReply, SubmitReply, LoginTimeout, CancelledIdle;
    if Enabled(s, e) {
      if !e.NewPrompt? {
        SoundOf(s, e.id);
        FlagsSound(s.prompts[e.id], Flags(false, false), false);
      }
      match e
      case NewPrompt(config, flags, cancelled, display) =>
        BeginConsistent(s, config, flags, cancelled, display);
      case Ready(id, timeouts) => ReadyConsistent(s, id, timeouts);
      case Submitted(id, secret, timeouts) => SubmittedConsistent(s, id, secret, timeouts);
      case Warned(id, accepted, timeouts) => WarningConsistent(s, id, accepted, timeouts);
      case UiEnded(id, outcome) => AnswerConsistent(s, id, outcome);
      case Cancelled(id) => QuietConsistent(s, id, Cancel(s, id).prompts[id]);
      case Idle(id) => IdleAnswered(s, id);
      case Timeout(id) => TimeoutConsistent(s, id);
      case LoginReturned(id, login, flags) => LoginDoneConsistent(s, id, login, flags);
      case RefreshReturned(id, flags) => RefreshDoneConsistent(s, id, flags);
      case TokenChanged(id, flags) =>
        FlagsSound(s.prompts[id], flags, false);
        QuietConsistent(s, id, s.prompts[id].(flags := flags));
    }
  }

  lemma {:induction false} RunConsistent(events: seq<Event>)
    ensures Consistent(Run(events))
  {
    hide Consistent, Step;
    if events == [] {
      IdleConsistent();
    } else {
      RunConsistent(events[..|events| - 1]);
      StepConsistent(Run(events[..|events| - 1]), events[|events| - 1]);
    }
  }

  lemma IdleConsistent()
    ensures Consistent(IDLE)
  {
  }

  // ----- What the prompts' owners are told -----

  /** The callbacks one prompt's owner has received, in order. */
  function Heard(log: seq<Call>, id: nat): seq<Call> {
    if log == [] then []
    else
      var last := log[|log| - 1];
      Heard(log[..|log| - 1], id) + if last.id == id then [last] else []
  }

  lemma {:induction false} HeardAppend(a: seq<Call>, b: seq<Call>, id: nat)
    ensures Heard(a + b, id) == Heard(a, id) + Heard(b, id)
  {
    if b == [] {
      assert a + b == a;
    } else {
      HeardAppend(a, b[..|b| - 1], id);
      assert (a + b)[..|a + b| - 1] == a + b[..|b| - 1];
    }
  }

  lemma HeardCalls(id: nat, p: Prompt, outcome: Outcome, x: nat)
    ensures Heard(Calls(id, p, outcome), x) == if x == id then Calls(id, p, outcome) else []
  {
    var done := [Done(id, outcome)];
    assert Heard(done, x) == if x == id then done else [];
    if Abandons(p, outcome) {
      HeardAppend(done, [Abandoned(id)], x);
      assert Heard([Abandoned(id)], x) == if x == id then [Abandoned(id)] else [];
    }
  }

  /** What the owner should have heard: nothing before the prompt is finished;
      then its outcome, and after that, when a login that succeeded is being thrown
      away, the request to undo it. */
  function Owed(s: System, id: nat): seq<Call> {
    if id in s.prompts && s.prompts[id].outcome.Some?
    then Calls(id, s.prompts[id], s.prompts[id].outcome.value) else []
  }

  /** True of everyone outside `apart`, the prompts whose callback is still to come. */
  ghost predicate Told(s: System, apart: set<nat>) {
    forall x :: x !in apart ==> Heard(s.log, x) == Owed(s, x)
  }

  /** The prompts of `apart` are left alone. */
  ghost predicate Kept(s: System, t: System, apart: set<nat>) {
    && s.prompts.Keys <= t.prompts.Keys
    && (forall x :: x in apart ==> Heard(t.log, x) == Heard(s.log, x))
    && (forall x :: x in apart && x in s.prompts ==> t.prompts[x] == s.prompts[x])
  }

  ghost predicate AllFinished(s: System, apart: set<nat>) {
    forall x :: x in apart ==> x in s.prompts && s.prompts[x].finished
  }

  lemma PutTold(s: System, id: nat, p: Prompt, apart: set<nat>)
    requires Told(s, apart) && id in s.prompts && id !in apart
    requires s.prompts[id].outcome == None && p.outcome == None
    ensures Told(Put(s, id, p), apart) && Kept(s, Put(s, id, p), apart)
  {
  }

  lemma HeardAfter(log: seq<Call>, id: nat, p: Prompt, outcome: Outcome, x: nat)
    ensures Heard(log + Calls(id, p, outcome), x)
         == if x == id then Heard(log, x) + Calls(id, p, outcome) else Heard(log, x)
  {
    HeardAppend(log, Calls(id, p, outcome), x);
    HeardCalls(id, p, outcome, x);
  }

  lemma OwedClosed(s: System, t: System, id: nat, outcome: Outcome)
    requires id in s.prompts && id in t.prompts && t.prompts[id] == Closed(s.prompts[id], outcome)
    ensures Owed(t, id) == Calls(id, s.prompts[id], outcome)
  {
  }

  lemma CloseHeard(s: System, t: System, id: nat, outcome: Outcome, x: nat)
    requires id in s.prompts && s.prompts[id].outcome == None
    requires Heard(s.log, id) == Owed(s, id) && Heard(t.log, id) == Heard(s.log, id)
    requires id in t.prompts && t.prompts[id] == Closed(s.prompts[id], outcome)
    ensures var t' := t.(log := t.log + Calls(id, s.prompts[id], outcome));
            && Owed(t', x) == Owed(t, x)
            && Heard(t'.log, x) == if x == id then Owed(t', x) else Heard(t.log, x)
  {
    assert Owed(s, id) == [];
    OwedClosed(s, t, id, outcome);
    hide Heard, Calls, Closed;
    HeardAfter(t.log, id, s.prompts[id], outcome, x);
  }

  /** The record is closed first and its owner called last. */
  lemma CloseTold(s: System, t: System, id: nat, outcome: Outcome, apart: set<nat>)
    requires id in s.prompts && s.prompts[id].outcome == None && id !in apart
    requires Told(s, apart)
    requires var s1 := Put(s, id, Closed(s.prompts[id], outcome));
             Told(t, apart + {id}) && Kept(s1, t, apart + {id})
    ensures var t' := t.(log := t.log + Calls(id, s.prompts[id], outcome));
            Told(t', apart) && Kept(s, t', apart)
  {
    hide Heard, Calls, Closed, Owed;
    var t' := t.(log := t.log + Calls(id, s.prompts[id], outcome));
    forall x ensures Owed(t', x) == Owed(t, x)
             ensures Heard(t'.log, x) == if x == id then Owed(t', x) else Heard(t.log, x) {
      CloseHeard(s, t, id, outcome, x);
    }
  }

  lemma ClosedTold(s: System, id: nat, p: Prompt, apart: set<nat>)
    requires Told(s, apart) && id in s.prompts && AllFinished(s, apart) && p.finished
    ensures Told(Put(s, id, p), apart + {id}) && AllFinished(Put(s, id, p), apart + {id})
  {
    hide Heard;
  }

  lemma FinishTold(s: System, id: nat, outcome: Outcome, apart: set<nat>)
    requires Nearly(s, id) && Closable(s.prompts[id], outcome) && s.prompts[id].outcome == None
    requires Told(s, apart) && AllFinished(s, apart)
    ensures var t := Finish(s, id, outcome);
            Told(t, apart) && Kept(s, t, apart)
    decreases |s.queue|, 0, 1
  {
    var p := Closed(s.prompts[id], outcome);
    var s1 := Put(s, id, p);
    assert p.finished && id !in apart;
    ClosedTold(s, id, p, apart);
    if s.active == Some(id) && s.queue != [] {
      TakeHead(s, id, outcome);
      hide Nearly, Closable, Startable, Heard, Calls, Closed, Owed, Start;
      NextTold(s, id, outcome, apart);
    } else {
      var s2 := if s.active == Some(id) then s1.(active := None)
                else s1.(queue := Without(s.queue, id));
      hide Nearly, Closable, Heard, Calls, Closed, Owed, Without;
      QueueTold(s1, s2, apart + {id});
      CloseTold(s, s2, id, outcome, apart);
    }
  }

  lemma NextTold(s: System, id: nat, outcome: Outcome, apart: set<nat>)
    requires id in s.prompts && s.prompts[id].outcome == None && id !in apart && s.queue != []
    requires var s1 := Put(s, id, Closed(s.prompts[id], outcome));
             && Told(s, apart) && Told(s1, apart + {id}) && AllFinished(s1, apart + {id})
             && Startable(s1.(active := None, queue := s.queue[1..]), s.queue[0])
    ensures var s2 := Put(s, id, Closed(s.prompts[id], outcome)).(active := None, queue := s.queue[1..]);
            var started := Start(s2, s.queue[0]);
            var t := started.(log := started.log + Calls(id, s.prompts[id], outcome));
            Told(t, apart) && Kept(s, t, apart)
    decreases |s.queue|, 0, 0
  {
    hide Startable, Heard, Calls, Closed, Owed, Start;
    var s1 := Put(s, id, Closed(s.prompts[id], outcome));
    var s2 := s1.(active := None, queue := s.queue[1..]);
    QueueTold(s1, s2, apart + {id});
    StartTold(s2, s.queue[0], apart + {id});
    CloseTold(s, Start(s2, s.queue[0]), id, outcome, apart);
  }

  lemma QueueTold(s: System, t: System, apart: set<nat>)
    requires Told(s, apart) && AllFinished(s, apart) && t.prompts == s.prompts && t.log == s.log
    ensures Told(t, apart) && AllFinished(t, apart) && Kept(s, t, apart)
  {
    OwedSame(s, t);
    hide Heard, Owed;
  }

  lemma StartTold(s: System, id: nat, apart: set<nat>)
    requires Startable(s, id) && Told(s, apart) && AllFinished(s, apart)
    ensures Told(Start(s, id), apart) && Kept(s, Start(s, id), apart)
    decreases |s.queue|, 3
  {
    Activated(s, id);
    var s1 := s.(active := Some(id), started := s.started + [id]);
    var p := s.prompts[id];
    assert p.outcome == None by { assert Sound(p); }
    hide Consistent, Sound, Owed, Heard;
    assert Told(s1, apart) by { assert forall x :: Owed(s1, x) == Owed(s, x) by { OwedSame(s, s1); } }
    if p.cancelled {
      AnswerTold(s1, id, PinCancelled, apart);
    } else if !p.config.hasRefresh {
      ShowTold(s1, id, apart);
    } else {
      PutTold(s1, id, p.(refreshing := true), apart);
    }
  }

  lemma OwedSame(s: System, t: System)
    requires s.prompts == t.prompts
    ensures forall x :: Owed(t, x) == Owed(s, x)
  {
  }

  lemma ShowTold(s: System, id: nat, apart: set<nat>)
    requires Consistent(s) && s.active == Some(id) && Waiting(s.prompts[id])
    requires Told(s, apart) && AllFinished(s, apart)
    ensures Told(Show(s, id), apart) && Kept(s, Show(s, id), apart)
    decreases |s.queue|, 2
  {
    SoundOf(s, id);
    assert s.prompts[id].outcome == None;
    hide Consistent, Sound, Told;
    if s.prompts[id].flags.locked {
      AnswerTold(s, id, Locked, apart);
    } else {
      PutTold(s, id, s.prompts[id].(shown := true), apart);
    }
  }

  lemma AnswerTold(s: System, id: nat, outcome: Outcome, apart: set<nat>)
    requires Consistent(s) && id in s.prompts && outcome != Ok
    requires Told(s, apart) && AllFinished(s, apart)
    ensures Told(Answer(s, id, outcome), apart) && Kept(s, Answer(s, id, outcome), apart)
    decreases |s.queue|, 1
  {
    SoundOf(s, id);
    var p := s.prompts[id];
    if !p.finished {
      if p.refreshing || p.loggingIn {
        PutTold(s, id, Defer(p, outcome), apart);
      } else {
        FinishTold(s, id, outcome, apart);
      }
    }
  }

  lemma QuietTold(s: System, id: nat, p: Prompt)
    requires Told(s, {}) && id in s.prompts
    requires var q := s.prompts[id];
             p.outcome == q.outcome && p.config == q.config && p.succeeded == q.succeeded
    ensures Told(Put(s, id, p), {})
  {
    hide Heard;
  }

  lemma ReturnedTold(s: System, id: nat, p: Prompt, outcome: Outcome)
    requires Consistent(s) && Told(s, {}) && id in s.prompts && s.active == Some(id)
    requires Closable(p, outcome) && s.prompts[id].outcome == None && p.outcome == None
    ensures Told(Answer(Put(s, id, p), id, outcome), {})
  {
    assert !s.prompts[id].finished && id !in s.queue;
    assert Nearly(Put(s, id, p), id);
    hide Consistent, Nearly, Heard, Finish;
    PutTold(s, id, p, {});
    FinishTold(Put(s, id, p), id, outcome, {});
  }

  lemma LoginDoneTold(s: System, id: nat, login: Login, flags: Flags)
    requires Consistent(s) && Told(s, {}) && id in s.prompts && s.prompts[id].loggingIn
    ensures Told(LoginDone(s, id, login, flags), {})
  {
    BusyIsActive(s, id);
    SoundOf(s, id);
    hide Consistent, Told, Answer;
    var p := AfterLogin(s.prompts[id], login, flags);
    if p.deferred.Some? {
      ReturnedTold(s, id, p.(deferred := None), p.deferred.value);
    } else if login.Accepted? {
      ReturnedTold(s, id, p, Ok);
    } else {
      var p1 := p.(busy := false);
      match LoginVerdict(p1, login)
      case Some(outcome) => ReturnedTold(s, id, p1, outcome);
      case None => PutTold(s, id, p1.(hasSecret := false), {});
    }
  }

  lemma RefreshDoneTold(s: System, id: nat, flags: Flags)
    requires Consistent(s) && Told(s, {}) && id in s.prompts && s.prompts[id].refreshing
    ensures Told(RefreshDone(s, id, flags), {})
  {
    BusyIsActive(s, id);
    SoundOf(s, id);
    hide Consistent, Told, Answer;
    var p := s.prompts[id].(refreshing := false, flags := flags);
    if p.deferred.Some? {
      ReturnedTold(s, id, p.(deferred := None), p.deferred.value);
    } else if p.cancelled {
      ReturnedTold(s, id, p, PinCancelled);
    } else if flags.locked {
      ReturnedTold(s, id, p, Locked);
    } else {
      PutTold(s, id, p, {});
      PutTold(Put(s, id, p), id, p.(shown := true), {});
    }
  }

  lemma NewTold(s: System, p: Prompt, calls: seq<Call>)
    requires Told(s, {}) && s.next !in s.prompts
    requires calls == if p.outcome.Some? then [Done(s.next, p.outcome.value)] else []
    requires !p.succeeded
    ensures Told(s.(next := s.next + 1, prompts := s.prompts[s.next := p], log := s.log + calls), {})
  {
    if calls == [] {
      assert s.log + calls == s.log;
    } else {
      HeardAppendAll(s.log, calls[0]);
    }
    hide Heard;
  }

  lemma BeginTold(s: System, config: Config, flags: Flags, cancelled: bool, display: bool)
    requires Consistent(s) && Told(s, {})
    ensures Told(Begin(s, config, flags, cancelled, display), {})
  {
    var p := Fresh(config, flags, cancelled);
    assert s.next !in s.prompts && Sound(p) && Waiting(p);
    if !display {
      hide Consistent, Sound, Heard, Told, Start;
      var answered := Undisplayed(p);
      NewTold(s, answered, [Done(s.next, NoDisplay)]);
    } else {
      ShownTold(s, p);
      hide Consistent, Sound, Told, Start;
    }
  }

  lemma ShownTold(s: System, p: Prompt)
    requires Consistent(s) && Told(s, {}) && s.next !in s.prompts && Sound(p) && Waiting(p)
    ensures var s1 := s.(next := s.next + 1, prompts := s.prompts[s.next := p]);
            && Told(s1.(queue := s.queue + [s.next]), {})
            && (s.active.None? ==> Told(Start(s1, s.next), {}))
  {
    assert !p.succeeded && p.outcome == None;
    hide Consistent, Sound, Heard, Told, Startable, Owed, Start;
    NewTold(s, p, []);
    assert s.log + [] == s.log;
    var s1 := s.(next := s.next + 1, prompts := s.prompts[s.next := p]);
    assert s.(next := s.next + 1, prompts := s.prompts[s.next := p], log := s.log + []) == s1;
    NoneApart(s1);
    QueueTold(s1, s1.(queue := s.queue + [s.next]), {});
    if s.active.None? {
      BeginStarted(s, p);
      StartTold(s1, s.next, {});
    }
  }

  lemma NoneApart(s: System)
    ensures AllFinished(s, {})
  {
  }

  lemma HeardAppendAll(log: seq<Call>, call: Call)
    ensures forall x :: Heard(log + [call], x) == Heard(log, x) + if call.id == x then [call] else []
  {
    assert (log + [call])[..|log|] == log;
  }

  lemma InputQuiet(p: Prompt, secret: bool, timeouts: bool)
    ensures var q := SubmitReply(p, secret, timeouts);
            q.outcome == p.outcome && q.config == p.config && q.succeeded == p.succeeded
    ensures var q := ReadyReply(p, timeouts);
            q.outcome == p.outcome && q.config == p.config && q.succeeded == p.succeeded
  {
    hide Submit;
    SubmitQuiet(p, timeouts);
    SubmitQuiet(p.(hasSecret := true), timeouts);
    SubmitQuiet(p.(ready := true), timeouts);
  }

  lemma SubmitQuiet(p: Prompt, timeouts: bool)
    ensures var q := Submit(p, timeouts);
            q.outcome == p.outcome && q.config == p.config && q.succeeded == p.succeeded
  {
    var q := LoggingIn(p, timeouts);
    assert q.outcome == p.outcome && q.config == p.config && q.succeeded == p.succeeded;
    hide LoggingIn;
  }

  lemma WarnedTold(s: System, id: nat, accepted: bool, timeouts: bool)
    requires Consistent(s) && Told(s, {}) && id in s.prompts && s.prompts[id].shown
    ensures Told(WarningReply(s, id, accepted, timeouts), {})
  {
    SoundOf(s, id);
    var p := s.prompts[id];
    WarningSound(p);
    hide Consistent, Sound, Told, Answer, Submit;
    if p.config.isProtected && !p.finished && !p.loggingIn && p.warningPending {
      if accepted {
        SubmitQuiet(Confirmed(p), timeouts);
        QuietTold(s, id, Submit(Confirmed(p), timeouts));
      } else {
        QuietTold(s, id, Dismissed(p));
        ShownConsistent(s, id, Dismissed(p));
        AnswerTold(Put(s, id, Dismissed(p)), id, PinCancelled, {});
      }
    }
  }

  lemma StepTold(s: System, e: Event)
    requires Consistent(s) && Told(s, {})
    ensures Told(Step(s, e), {})
  {
    hide Consistent, Sound, Told, Answer, LoginDone, RefreshDone, WarningReply, Begin,
         ReadyReply, SubmitReply;
    if Enabled(s, e) {
      if !e.NewPrompt? {
        SoundOf(s, e.id);
        FlagsSound(s.prompts[e.id], Flags(false, false), false);
      }
      match e
      case NewPrompt(config, flags, cancelled, display) =>
        BeginTold(s, config, flags, cancelled, display);
      case Ready(id, timeouts) =>
        InputQuiet(s.prompts[id], false, timeouts);
        QuietTold(s, id, ReadyReply(s.prompts[id], timeouts));
      case Submitted(id, secret, timeouts) =>
        InputQuiet(s.prompts[id], secret, timeouts);
        QuietTold(s, id, SubmitReply(s.prompts[id], secret, timeouts));
      case Warned(id, accepted, timeouts) => WarnedTold(s, id, accepted, timeouts);
      case UiEnded(id, outcome) => AnswerTold(s, id, outcome, {});
      case Cancelled(id) => QuietTold(s, id, Cancel(s, id).prompts[id]);
      case Idle(id) =>
        var p := s.prompts[id].(cancelIdle := false);
        QuietTold(s, id, p);
        QuietConsistent(s, id, p);
        AnswerTold(Put(s, id, p), id, PinCancelled, {});
      case Timeout(id) =>
        var p := s.prompts[id].(timeoutArmed := false);
        QuietTold(s, id, p);
        QuietConsistent(s, id, p);
        AnswerTold(Put(s, id, p), id, TimedOut, {});
      case LoginReturned(id, login, flags) => LoginDoneTold(s, id, login, flags);
      case RefreshReturned(id, flags) => RefreshDoneTold(s, id, flags);
      case TokenChanged(id, flags) => QuietTold(s, id, s.prompts[id].(flags := flags));
    }
  }

  lemma {:induction false} RunTold(events: seq<Event>)
    ensures Told(Run(events), {})
  {
    if events == [] {
      assert Told(IDLE, {});
    } else {
      hide Told, Step;
      RunTold(events[..|events| - 1]);
      RunConsistent(events[..|events| - 1]);
      StepTold(Run(events[..|events| - 1]), events[|events| - 1]);
    }
  }

  // ----- Main results -----

  /** In every run, the owner of every prompt hears of one outcome, and only when
      no worker holds the owner's data; the outcome is the first that was deferred,
      if any; the request to undo a login follows at once, exactly when a login
      succeeded whose outcome is not Ok and the owner takes such requests. */
  lemma AnsweredOnce(events: seq<Event>, id: nat)
    requires id in Run(events).prompts
    ensures var p := Run(events).prompts[id];
            var undo := p.succeeded && p.outcome != Some(Ok) && p.config.hasAbandon;
            Heard(Run(events).log, id)
            == (if p.outcome.None? then []
                else if undo then [Done(id, p.outcome.value), Abandoned(id)]
                else [Done(id, p.outcome.value)])
    ensures var p := Run(events).prompts[id];
            && (p.finished <==> p.outcome.Some?)
            && (p.finished ==> !p.refreshing && !p.loggingIn)
            && (p.finished && p.firstDeferred.Some? ==> p.outcome == p.firstDeferred)
            && (p.outcome == Some(Ok) ==> p.succeeded)
  {
    RunConsistent(events);
    RunTold(events);
    SoundOf(Run(events), id);
    hide Run, Consistent, Heard;
  }

  /** A prompt answers Ok exactly if its login succeeded and nothing had been deferred
      until then, and no login is attempted after one that succeeded. */
  lemma OkIsEarned(events: seq<Event>, id: nat)
    requires id in Run(events).prompts
    ensures var p := Run(events).prompts[id];
            && (p.finished ==> (p.outcome == Some(Ok) <==> p.succeeded && p.firstDeferred.None?))
            && (p.loggingIn || p.shown || !p.finished ==> !p.succeeded)
  {
    RunConsistent(events);
    SoundOf(Run(events), id);
    hide Run, Consistent;
  }

  /** At most three logins are submitted, at most one on the protected path, and
      there never on the last try without a warning the user accepted. */
  lemma AttemptsBounded(events: seq<Event>, id: nat)
    requires id in Run(events).prompts
    ensures var p := Run(events).prompts[id];
            && p.attempts <= MAX_ATTEMPTS
            && (p.config.isProtected ==> p.attempts <= 1)
            && !p.riskySubmit
  {
    RunConsistent(events);
    SoundOf(Run(events), id);
  }

  /** A worker is running or something is on the screen. */
  predicate Occupied(p: Prompt) { p.loggingIn || p.refreshing || p.shown }

  /** Every unfinished prompt is exactly once either the active prompt or in the
      queue, an idle process has an empty queue, and prompts are activated in the
      order in which they came. */
  lemma OneAtATime(events: seq<Event>)
    ensures var s := Run(events);
            && (forall id :: id in s.prompts && !s.prompts[id].finished ==>
                  (s.active == Some(id)) != (multiset(s.queue)[id] == 1))
            && (forall id :: multiset(s.queue)[id] <= 1)
            && (s.active.None? ==> s.queue == [])
            && Increasing(s.started + s.queue)
            && (forall id :: id in s.prompts && Occupied(s.prompts[id]) ==> s.active == Some(id))
  {
    RunConsistent(events);
    var s := Run(events);
    hide Run;
    forall id ensures multiset(s.queue)[id] == if id in s.queue then 1 else 0 {
      IncreasingOnce(s.queue, id);
    }
    IncreasingJoin(s.started, s.queue);
    forall id | id in s.prompts && Occupied(s.prompts[id]) ensures s.active == Some(id) {
      BusyIsActive(s, id);
    }
  }

  lemma {:induction false} IncreasingOnce(s: seq<nat>, id: nat)
    requires Increasing(s)
    ensures multiset(s)[id] == if id in s then 1 else 0
  {
    if s != [] {
      IncreasingOnce(s[1..], id);
      assert s == [s[0]] + s[1..];
    }
  }

  lemma {:induction false} IncreasingJoin(a: seq<nat>, b: seq<nat>)
    requires Increasing(a) && Increasing(b) && forall x, y :: x in a && y in b ==> x < y
    ensures Increasing(a + b)
  {
    if a == [] {
      assert a + b == b;
    } else {
      assert forall x :: x in a[1..] ==> x in a;
      IncreasingJoin(a[1..], b);
      assert (a + b)[1..] == a[1..] + b;
      assert a[0] in a;
    }
  }
}
