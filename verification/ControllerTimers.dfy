/** When a run is watched by an idle timer. */
module ControllerTimers {
  import opened Wrappers
  import opened AgentEvents
  import opened RunViews
  import opened MessageQueue
  import opened ControllerModel
  import opened ControllerInvariants
  import opened ControllerLocality
  import opened ControllerRequests
  import opened ControllerRecords
  import opened ControllerFlags

  /** A live timer is the handle of the run of s. */
  predicate Armed(c: Controller, s: Scope) {
    s in c.runs && c.runs[s].timer.Some? && Get(c.timers.live, c.runs[s].timer.value) == Some(s)
  }

  /** Armed exactly if a timeout is in force for s. */
  predicate ArmedAsSet(c: Controller, s: Scope) { Armed(c, s) <==> IdleTimeout(c.settings, c.overrides, s).Some? }

  /** No live timer at all is one of s. */
  ghost predicate NoTimer(c: Controller, s: Scope) { forall t <- c.timers.live :: c.timers.live[t] != s }

  lemma ArmArms(c: Controller, s: Scope)
    requires s in c.runs
    ensures ArmedAsSet(ArmTimer(c, s), s)
  {
    CancelFrame(c, s);
  }

  lemma CancelDisarms(c: Controller, s: Scope)
    requires TimersOk(c.runs, c.timers)
    ensures NoTimer(CancelTimer(c, s), s)
  {
    if s in c.runs {
      CancelTimersOk(c, s);
    }
  }

  /** The step begins a run of s, or its consumer goes on to the next event, or an answer was accepted, or
      its timeout is set, or set back to the default. */
  ghost predicate GoesOn(c: Controller, step: Step, s: Scope) {
    match step
    case Start(x, _, _, _) => x == s && s !in c.runs
    case Consume(x, event, _) =>
      && x == s && s in c.consuming && s in c.runs && !c.runs[s].timedOut
      && var e := Effective(c.runs[s], event); !e.IsPause() && !ReduceRunView(c.runs[s].view, e).status.IsTerminal()
    case Reply(x, user, kind, id) => x == s && CanAnswer(c, s, user, kind, id)
    case Timeout(x, _) => x == s && s in c.runs
    case TimeoutDefault(x) => x == s && s in c.runs
    case _ => false
  }

  /** Whenever a run of s goes on, it is watched anew, if and only if a timeout is in force. */
  lemma GoingOnArms(c: Controller, step: Step, s: Scope)
    requires GoesOn(c, step, s)
    ensures ArmedAsSet(Next(c, step), s)
  {
    match step
    case Start(_, user, text, env) =>
      var (c1, run, session) := BeginTurn(c, s, user, text, env);
      ArmArms(OpenRun(c1, s, NewRun(run, user, session, |c1.futures|)), s);
    case Consume(_, event, env) => ArmArms(Observe(c, s, Effective(c.runs[s], event)), s);
    case Reply(_, user, kind, id) =>
      ArmArms(AnsweredState(c, s), s);
    case Timeout(_, seconds) => ArmArms(c.(overrides := c.overrides[s := Some(seconds)]), s);
    case TimeoutDefault(_) => ArmArms(c.(overrides := c.overrides - {s}), s);
  }

  /** The step is a pause, the end of a turn (also one that starts the next from the queue), the end of the
      stream, `/timeout off`, or the timer's own firing. */
  ghost predicate Quiets(c: Controller, step: Step, s: Scope) {
    match step
    case Consume(x, event, _) =>
      && x == s && s in c.consuming && s in c.runs && !c.runs[s].timedOut
      && var e := Effective(c.runs[s], event); (e.IsPause() || ReduceRunView(c.runs[s].view, e).status.IsTerminal())
    case EndStream(x, _) => x == s && s in c.consuming
    case TimeoutOff(x) => x == s
    case Fire(t) => Get(c.timers.live, t) == Some(s)
    case _ => false
  }

  lemma FinishKeepsTimers(c: Controller, s: Scope, status: RunStatus, now: Stamp)
    requires s in c.runs && TimersOk(c.runs, c.timers)
    ensures NoTimer(FinishRun(c, s, status, now), s)
  {
    var c1 := DropQueue(c, s);
    DropFrame(c, s);
    SameTimer(c.runs, c1.runs, c.timers, s);
    CancelDisarms(c1, s);
  }

  lemma EndTurnDisarms(c: Controller, s: Scope, env: TurnEnv)
    requires s in c.runs && TimersOk(c.runs, c.timers)
    ensures NoTimer(EndTurn(c, s, env), s)
  {
    var c1 := CancelTimer(c, s);
    CancelFrame(c, s);
    CancelDisarms(c, s);
    CancelTimersOk(c, s);
    if c1.runs[s].queue != [] {
      var merged := PopNext(c1.runs[s].queue, MERGE_WINDOW).value;
      BeginTurnFrame(c1, s, merged.userId, merged.prompt, env);
    } else {
      FinishKeepsTimers(c1, s, c1.runs[s].view.status, env.now);
    }
  }

  lemma ConsumeDisarms(c: Controller, s: Scope, event: AgentEvent, env: TurnEnv)
    requires Inv(c) && Quiets(c, Consume(s, event, env), s)
    ensures NoTimer(ConsumeEvent(c, s, event, env), s)
  {
    var e := Effective(c.runs[s], event);
    var c1 := Observe(c, s, e);
    SameTimer(c.runs, c1.runs, c.timers, s);
    if e.IsPause() {
      CancelDisarms(c1, s);
    } else {
      EndTurnDisarms(c1, s, env);
    }
  }

  lemma EndStreamDisarms(c: Controller, s: Scope, now: Stamp)
    requires Inv(c) && s in c.consuming
    ensures NoTimer(StreamEnds(c, s, now), s)
  {
    var c1 := CancelTimer(c, s);
    CancelFrame(c, s);
    CancelDisarms(c, s);
    CancelTimersOk(c, s);
    var timedOut, interrupted := ReduceUnlogged(c1, s, RunTimedOut), ReduceUnlogged(c1, s, RunInterrupted);
    SameTimer(c1.runs, timedOut.runs, c1.timers, s);
    SameTimer(c1.runs, interrupted.runs, c1.timers, s);
    FinishKeepsTimers(timedOut, s, TimedOut, now);
    FinishKeepsTimers(interrupted, s, Interrupted, now);
  }

  lemma FireDisarms(c: Controller, t: nat, s: Scope)
    requires Inv(c) && Get(c.timers.live, t) == Some(s)
    ensures NoTimer(TimerFires(c, t), s)
  {
    var c1 := c.(timers := c.timers.(live := c.timers.live - {t}));
    assert NoTimer(c1, s);
    if s in c1.runs && !c1.runs[s].timedOut && c1.runs[s].view.pending.None? {
      DropFrame(c1.(runs := c1.runs[s := c1.runs[s].(timedOut := true)]), s);
    }
  }

  /** After such a step s has no live timer at all. */
  lemma QuietingDisarms(c: Controller, step: Step, s: Scope)
    requires Inv(c) && Quiets(c, step, s)
    ensures NoTimer(Next(c, step), s)
  {
    match step
    case Consume(_, event, env) => ConsumeDisarms(c, s, event, env);
    case EndStream(_, now) => EndStreamDisarms(c, s, now);
    case TimeoutOff(_) => CancelDisarms(c.(overrides := c.overrides[s := None]), s);
    case Fire(t) => FireDisarms(c, t, s);
  }

  // Over whole runs: when a run goes unwatched.

  /** A live timer that a run holds the handle of is its own, and handles are never used twice. */
  ghost predicate Handles(c: Controller) {
    && (forall t <- c.timers.live :: t < c.timers.next)
    && (forall s <- c.runs :: c.runs[s].timer.Some? ==> OwnHandle(c.timers, c.runs[s].timer.value, s))
  }

  ghost predicate OwnHandle(timers: Timers, t: nat, s: Scope) {
    t < timers.next && (t in timers.live ==> timers.live[t] == s)
  }

  /** The live timers of other scopes are the same. */
  ghost predicate OthersTick(timers: Timers, timers1: Timers, x: Scope) {
    forall t, s :: s != x ==> (Get(timers.live, t) == Some(s) <==> Get(timers1.live, t) == Some(s))
  }

  ghost predicate SameTimeouts(c: Controller, c1: Controller) {
    c1.overrides == c.overrides && c1.settings.defaultTimeout == c.settings.defaultTimeout
  }

  ghost predicate Ticks(c: Controller, c1: Controller, x: Scope) {
    Handles(c1) && OthersTick(c.timers, c1.timers, x) && SameTimeouts(c, c1)
  }

  lemma TicksTrans(c: Controller, c1: Controller, c2: Controller, x: Scope)
    requires Ticks(c, c1, x) && Ticks(c1, c2, x)
    ensures Ticks(c, c2, x)
  {
  }

  /** A change that touches neither the timers nor, but for giving it up, any handle. */
  lemma QuietTicks(c: Controller, c1: Controller, x: Scope)
    requires Handles(c) && c1.timers == c.timers && SameTimeouts(c, c1)
    requires forall s <- c1.runs :: c1.runs[s].timer.None? || (s in c.runs && c1.runs[s].timer == c.runs[s].timer)
    ensures Ticks(c, c1, x)
  {
  }

  lemma CancelTicks(c: Controller, x: Scope)
    requires Handles(c)
    ensures Ticks(c, CancelTimer(c, x), x)
  {
  }

  lemma ArmTicks(c: Controller, x: Scope)
    requires Handles(c)
    ensures Ticks(c, ArmTimer(c, x), x)
  {
    CancelTicks(c, x);
    CancelFrame(c, x);
  }

  lemma FinishTicks(c: Controller, x: Scope, status: RunStatus, now: Stamp)
    requires Handles(c) && x in c.runs
    ensures Ticks(c, FinishRun(c, x, status, now), x)
  {
    var c1 := DropQueue(c, x);
    DropFrame(c, x);
    QuietTicks(c, c1, x);
    var c2 := CancelTimer(c1, x);
    CancelTicks(c1, x);
    CancelFrame(c1, x);
    QuietTicks(c2, CloseRun(c2, x, status, now), x);
    TicksTrans(c, c1, c2, x);
    TicksTrans(c, c2, CloseRun(c2, x, status, now), x);
  }

  lemma QueuedTurnTicks(c: Controller, x: Scope, env: TurnEnv)
    requires Handles(c) && x in c.runs && c.runs[x].queue != []
    ensures Ticks(c, StartQueuedNextTurn(c, x, env), x)
  {
    var merged := PopNext(c.runs[x].queue, MERGE_WINDOW).value;
    BeginTurnFrame(c, x, merged.userId, merged.prompt, env);
    BeginKeepsTimeouts(c, x, merged.userId, merged.prompt, env);
    QuietTicks(c, StartQueuedNextTurn(c, x, env), x);
  }

  lemma EndTurnTicks(c: Controller, x: Scope, env: TurnEnv)
    requires Handles(c) && x in c.runs
    ensures Ticks(c, EndTurn(c, x, env), x)
  {
    var c1 := CancelTimer(c, x);
    CancelTicks(c, x);
    CancelFrame(c, x);
    if c1.runs[x].queue != [] {
      QueuedTurnTicks(c1, x, env);
    } else {
      FinishTicks(c1, x, c1.runs[x].view.status, env.now);
    }
    TicksTrans(c, c1, EndTurn(c, x, env), x);
  }

  lemma PauseTicks(c: Controller, x: Scope, id: string, kind: PendingKind)
    requires Handles(c) && x in c.runs
    ensures Ticks(c, Pause(c, x, id, kind), x)
  {
    CancelTicks(c, x);
    CancelFrame(c, x);
    QuietTicks(CancelTimer(c, x), Pause(c, x, id, kind), x);
    TicksTrans(c, CancelTimer(c, x), Pause(c, x, id, kind), x);
  }

  lemma ConsumeTicks(c: Controller, x: Scope, event: AgentEvent, env: TurnEnv)
    requires Handles(c)
    ensures Ticks(c, ConsumeEvent(c, x, event, env), x)
  {
    if x in c.consuming && x in c.runs && !c.runs[x].timedOut {
      var e := Effective(c.runs[x], event);
      var c1 := Observe(c, x, e);
      QuietTicks(c, c1, x);
      if e.IsPause() {
        PauseTicks(c1, x, e.pendingRequestId, if e.UserInputRequested? then UserInput else Approval);
      } else if c1.runs[x].view.status.IsTerminal() {
        EndTurnTicks(c1, x, env);
      } else {
        ArmTicks(c1, x);
      }
      TicksTrans(c, c1, ConsumeEvent(c, x, event, env), x);
    }
  }

  lemma UnloggedTicks(c: Controller, x: Scope, e: AgentEvent, status: RunStatus, now: Stamp)
    requires Handles(c) && x in c.runs
    ensures Ticks(c, EndUnlogged(c, x, e, status, now), x)
  {
    var c1 := ReduceUnlogged(c, x, e);
    QuietTicks(c, c1, x);
    FinishTicks(c1, x, status, now);
    TicksTrans(c, c1, FinishRun(c1, x, status, now), x);
  }

  lemma EndStreamTicks(c: Controller, x: Scope, now: Stamp)
    requires Handles(c)
    ensures Ticks(c, StreamEnds(c, x, now), x)
  {
    if x in c.consuming && x in c.runs {
      var c1 := CancelTimer(c, x);
      CancelTicks(c, x);
      CancelFrame(c, x);
      if c1.runs[x].timedOut {
        UnloggedTicks(c1, x, RunTimedOut, TimedOut, now);
      } else if c1.runs[x].stopRequested {
        UnloggedTicks(c1, x, RunInterrupted, Interrupted, now);
      }
      TicksTrans(c, c1, StreamEnds(c, x, now), x);
    }
  }

  lemma StopTicks(c: Controller, x: Scope, user: string, now: Stamp)
    requires Handles(c)
    ensures Ticks(c, StopRun(c, x, user, now), x)
  {
    if IsActiveFor(c, x, user) {
      FlagFrame(c, x);
      QuietTicks(c, Flag(c, x), x);
      if c.runs[x].view.pending.Some? {
        UnloggedTicks(Flag(c, x), x, RunInterrupted, Interrupted, now);
        TicksTrans(c, Flag(c, x), StopRun(c, x, user, now), x);
      }
    }
  }

  lemma StartTicks(c: Controller, x: Scope, user: string, text: string, env: TurnEnv)
    requires Handles(c)
    ensures Ticks(c, StartTextRun(c, x, user, text, env), x)
  {
    if x !in c.runs {
      var (c1, run, session) := BeginTurn(c, x, user, text, env);
      BeginTurnFrame(c, x, user, text, env);
      BeginKeepsTimeouts(c, x, user, text, env);
      var c2 := OpenRun(c1, x, NewRun(run, user, session, |c1.futures|));
      QuietTicks(c, c2, x);
      ArmTicks(c2, x);
      TicksTrans(c, c2, ArmTimer(c2, x), x);
    }
  }

  lemma AnswerTicks(c: Controller, x: Scope, user: string, kind: PendingKind, id: Option<string>)
    requires Handles(c)
    ensures Ticks(c, Answer(c, x, user, kind, id), x)
  {
    if CanAnswer(c, x, user, kind, id) {
      QuietTicks(c, AnsweredState(c, x), x);
      ArmTicks(AnsweredState(c, x), x);
      TicksTrans(c, AnsweredState(c, x), Answer(c, x, user, kind, id), x);
    }
  }

  lemma FireTicks(c: Controller, t: nat, x: Scope)
    requires Handles(c) && (t in c.timers.live ==> c.timers.live[t] == x)
    ensures Ticks(c, TimerFires(c, t), x)
  {
    if t in c.timers.live {
      var c1 := c.(timers := c.timers.(live := c.timers.live - {t}));
      assert Ticks(c, c1, x);
      if x in c1.runs && !c1.runs[x].timedOut && c1.runs[x].view.pending.None? {
        var c2 := c1.(runs := c1.runs[x := c1.runs[x].(timedOut := true)]);
        DropFrame(c2, x);
        QuietTicks(c1, DropQueue(c2, x), x);
        TicksTrans(c, c1, DropQueue(c2, x), x);
      }
    }
  }

  lemma BeginKeepsTimeouts(c: Controller, x: Scope, user: string, prompt: string, env: TurnEnv)
    ensures SameTimeouts(c, BeginTurn(c, x, user, prompt, env).0)
  {
  }

  lemma NextTicks(c: Controller, step: Step)
    requires Handles(c) && !SetsTimeout(step)
    ensures Ticks(c, Next(c, step), ScopeOf(c, step))
  {
    match step
    case Start(s, user, text, env) => StartTicks(c, s, user, text, env);
    case Consume(s, event, env) => ConsumeTicks(c, s, event, env);
    case EndStream(s, now) => EndStreamTicks(c, s, now);
    case Stop(s, user, now) => StopTicks(c, s, user, now);
    case Reply(s, user, kind, id) => AnswerTicks(c, s, user, kind, id);
    case Fire(t) => FireTicks(c, t, ScopeOf(c, step));
    case Queue(s, user, m) => QuietTicks(c, QueueMessage(c, s, user, m), s);
    case Clear(s) => QuietTicks(c, ClearSelected(c, s), s);
    case ResumeSession(s, user, h) => QuietTicks(c, Resume(c, s, user, h), s);
    case NewSession(s, user, workspace, id) => QuietTicks(c, SelectNewSession(c, s, user, workspace, id), s);
  }

  /** Setting a timeout arms or cancels the timer of that scope only. */
  lemma SettingTicks(c: Controller, step: Step)
    requires Handles(c) && SetsTimeout(step)
    ensures var (c1, x) := (Next(c, step), step.scope);
            && Handles(c1) && OthersTick(c.timers, c1.timers, x)
            && forall s :: s != x ==>
                 IdleTimeout(c1.settings, c1.overrides, s) == IdleTimeout(c.settings, c.overrides, s)
  {
    var x := step.scope;
    var c0 := c.(overrides := if step.Timeout? then c.overrides[x := Some(step.seconds)]
                              else if step.TimeoutOff? then c.overrides[x := None] else c.overrides - {x});
    assert Handles(c0);
    ArmTicks(c0, x);
    CancelTicks(c0, x);
  }

  /** Since its last turn was started from the queue, the run of s has not gone on. */
  ghost predicate Unwatched(c: Controller, steps: seq<Step>, s: Scope) {
    && steps != []
    && var (front, last) := (steps[..|steps| - 1], steps[|steps| - 1]);
       (StartsQueued(Execute(c, front), last, s) || (Unwatched(c, front, s) && !GoesOn(Execute(c, front), last, s)))
  }

  /** The run of s is consumed and not timed out. */
  ghost predicate Runs(c: Controller, s: Scope) { s in c.consuming && s in c.runs && !c.runs[s].timedOut }

  ghost predicate WatchedIff(c: Controller, s: Scope, unwatched: bool) {
    Runs(c, s) ==> (Armed(c, s) <==> IdleTimeout(c.settings, c.overrides, s).Some? && !unwatched)
  }

  /** What keeps the run of s watched, or unwatched. */
  lemma SameWatch(c: Controller, c1: Controller, s: Scope, unwatched: bool)
    requires WatchedIff(c, s, unwatched)
    requires IdleTimeout(c1.settings, c1.overrides, s) == IdleTimeout(c.settings, c.overrides, s)
    requires Runs(c1, s) ==> Runs(c, s) && c1.runs[s].timer == c.runs[s].timer
    requires forall t :: Get(c.timers.live, t) == Some(s) <==> Get(c1.timers.live, t) == Some(s)
    ensures WatchedIff(c1, s, unwatched)
  {
  }

  lemma OthersWatched(c: Controller, step: Step, s: Scope, unwatched: bool)
    requires Inv(c) && FreshIds(c, step) && Handles(c) && ScopeOf(c, step) != s && WatchedIff(c, s, unwatched)
    ensures WatchedIff(Next(c, step), s, unwatched)
  {
    var c1 := Next(c, step);
    if SetsTimeout(step) {
      SettingTicks(c, step);
    } else {
      NextTicks(c, step);
    }
    NextIsLocal(c, step);
    SameWatch(c, c1, s, unwatched);
  }

  /** A consumer that does not go on is no longer at work, unless the next turn comes from the queue. */
  lemma ConsumerLeaves(c: Controller, step: Step, s: Scope)
    requires step.Consume? && step.scope == s && Runs(c, s) && !GoesOn(c, step, s) && !StartsQueued(c, step, s)
    ensures !Runs(Next(c, step), s)
  {
    var e := Effective(c.runs[s], step.event);
    var c1 := Observe(c, s, e);
    CancelFrame(c1, s);
    if !e.IsPause() {
      FinishLeaves(CancelTimer(c1, s), s, c1.runs[s].view.status, step.env.now);
    }
  }

  lemma FinishLeaves(c: Controller, s: Scope, status: RunStatus, now: Stamp)
    requires s in c.runs
    ensures s !in FinishRun(c, s, status, now).runs
  {
    DropFrame(c, s);
    CancelFrame(DropQueue(c, s), s);
  }

  lemma EndStreamLeaves(c: Controller, s: Scope, now: Stamp)
    requires s in c.runs && s in c.consuming
    ensures !Runs(StreamEnds(c, s, now), s)
  {
    CancelFrame(c, s);
    var c1 := CancelTimer(c, s);
    FinishLeaves(ReduceUnlogged(c1, s, RunTimedOut), s, TimedOut, now);
    FinishLeaves(ReduceUnlogged(c1, s, RunInterrupted), s, Interrupted, now);
  }

  lemma StopWatched(c: Controller, s: Scope, user: string, now: Stamp, unwatched: bool)
    requires ConsumersOk(c.runs, c.consuming) && WatchedIff(c, s, unwatched)
    ensures WatchedIff(StopRun(c, s, user, now), s, unwatched)
  {
    if IsActiveFor(c, s, user) {
      FlagFrame(c, s);
      if c.runs[s].view.pending.Some? {
        FinishLeaves(ReduceUnlogged(Flag(c, s), s, RunInterrupted), s, Interrupted, now);
      } else {
        SameWatch(c, Flag(c, s), s, unwatched);
      }
    }
  }

  lemma FireWatched(c: Controller, t: nat, s: Scope, unwatched: bool)
    requires ConsumersOk(c.runs, c.consuming) && WatchedIff(c, s, unwatched) && Get(c.timers.live, t) == Some(s)
    ensures !Runs(TimerFires(c, t), s)
  {
    if s in c.runs {
      FireKeeps(c, t, s);
    }
  }

  /** Steps of s that neither let it go on nor start a queued turn leave it as watched as it was. */
  lemma OwnWatched(c: Controller, step: Step, s: Scope, unwatched: bool)
    requires Inv(c) && WatchedIff(c, s, unwatched) && ScopeOf(c, step) == s && !GoesOn(c, step, s)
    requires !StartsQueued(c, step, s)
    ensures WatchedIff(Next(c, step), s, unwatched)
  {
    if step.Consume? || step.EndStream? {
      ConsumerWatched(c, step, s, unwatched);
    } else if step.Stop? {
      StopWatched(c, s, step.user, step.now, unwatched);
    } else if step.Start? || step.Reply? || (step.Fire? && step.timer !in c.timers.live) {
      RefusedIsNothing(c, step, s);
    } else if step.Fire? {
      FireWatched(c, step.timer, s, unwatched);
    } else if step.TimeoutOff? {
      QuietingDisarms(c, step, s);
    } else if step.Timeout? || step.TimeoutDefault? {
      SettingWatched(c, step, s, unwatched);
    } else {
      SelectionWatched(c, step, s, unwatched);
    }
  }

  lemma RefusedIsNothing(c: Controller, step: Step, s: Scope)
    requires ((step.Start? || step.Reply?) && step.scope == s && !GoesOn(c, step, s)) ||
             (step.Fire? && step.timer !in c.timers.live)
    ensures Next(c, step) == c
  {
  }

  lemma ConsumerWatched(c: Controller, step: Step, s: Scope, unwatched: bool)
    requires (step.Consume? || step.EndStream?) && step.scope == s && !GoesOn(c, step, s) && !StartsQueued(c, step, s)
    requires WatchedIff(c, s, unwatched)
    ensures WatchedIff(Next(c, step), s, unwatched)
  {
    if step.EndStream? {
      if s in c.runs && s in c.consuming {
        EndStreamLeaves(c, s, step.now);
      }
    } else if Runs(c, s) {
      ConsumerLeaves(c, step, s);
    }
  }

  /** A timeout that is set while no run is active. */
  lemma SettingWatched(c: Controller, step: Step, s: Scope, unwatched: bool)
    requires (step.Timeout? || step.TimeoutDefault?) && step.scope == s && s !in c.runs
    ensures WatchedIff(Next(c, step), s, unwatched)
  {
    if step.Timeout? {
      ArmFrame(c.(overrides := c.overrides[s := Some(step.seconds)]), s);
    } else {
      ArmFrame(c.(overrides := c.overrides - {s}), s);
    }
  }

  lemma SelectionWatched(c: Controller, step: Step, s: Scope, unwatched: bool)
    requires WatchedIff(c, s, unwatched) && (step.Queue? || step.Clear? || step.ResumeSession? || step.NewSession?)
    ensures WatchedIff(Next(c, step), s, unwatched)
  {
    match step
    case Queue(x, user, m) => SameWatch(c, QueueMessage(c, x, user, m), s, unwatched);
    case Clear(x) => SameWatch(c, ClearSelected(c, x), s, unwatched);
    case ResumeSession(x, user, h) => SameWatch(c, Resume(c, x, user, h), s, unwatched);
    case NewSession(x, user, workspace, id) => SameWatch(c, SelectNewSession(c, x, user, workspace, id), s, unwatched);
  }

  lemma HandlesStay(c: Controller, step: Step)
    requires Handles(c)
    ensures Handles(Next(c, step))
  {
    if SetsTimeout(step) {
      SettingTicks(c, step);
    } else {
      NextTicks(c, step);
    }
  }

  lemma StepWatched(c: Controller, step: Step, s: Scope, unwatched: bool)
    requires Inv(c) && FreshIds(c, step) && Handles(c) && WatchedIff(c, s, unwatched)
    ensures Handles(Next(c, step))
    ensures WatchedIff(Next(c, step), s, StartsQueued(c, step, s) || (unwatched && !GoesOn(c, step, s)))
  {
    HandlesStay(c, step);
    if GoesOn(c, step, s) {
      GoingOnArms(c, step, s);
    } else if StartsQueued(c, step, s) {
      QuietingDisarms(c, step, s);
    } else if ScopeOf(c, step) == s {
      OwnWatched(c, step, s, unwatched);
    } else {
      OthersWatched(c, step, s, unwatched);
    }
  }

  /** In every reachable state a run that is consumed is watched by a live timer of its own if and only if
      a timeout is in force and it is not a turn from the queue that has not gone on since it started. */
  lemma {:induction false} WatchedExactly(settings: Settings, steps: seq<Step>, s: Scope)
    requires AllFresh(NewController(settings), steps)
    ensures var (c0, c) := (NewController(settings), Execute(NewController(settings), steps));
            && Handles(c)
            && (Runs(c, s) ==>
                  (Armed(c, s) <==> IdleTimeout(c.settings, c.overrides, s).Some? && !Unwatched(c0, steps, s)))
  {
    if steps != [] {
      var c0, front := NewController(settings), steps[..|steps| - 1];
      AllFreshFront(c0, steps);
      ControllersStartOk(settings);
      ReachableKeepsInv(c0, front);
      WatchedExactly(settings, front, s);
      StepWatched(Execute(c0, front), steps[|steps| - 1], s, Unwatched(c0, front, s));
    }
  }

  /** A turn of s, started by this step from c, is at work without a timer. */
  ghost predicate UnwatchedTurn(c: Controller, c1: Controller, s: Scope, env: TurnEnv) {
    && c1.runs.Keys == c.runs.Keys && Runs(c1, s) && c1.runs[s].run.runId == env.runId && NoTimer(c1, s)
    && c1.records.statuses == c.records.statuses[env.runId := Running]
    && c1.settings == c.settings && c1.overrides == c.overrides
  }

  /** The completion of a turn that messages wait on. */
  lemma CompletionFollows(c: Controller, s: Scope, env: TurnEnv)
    requires Runs(c, s) && !c.runs[s].stopRequested && c.runs[s].queue != [] && TimersOk(c.runs, c.timers)
    ensures StartsQueued(c, Consume(s, RunCompleted, env), s)
    ensures UnwatchedTurn(c, ConsumeEvent(c, s, RunCompleted, env), s, env)
  {
    var c1 := Observe(c, s, RunCompleted);
    SameTimer(c.runs, c1.runs, c.timers, s);
    assert ConsumeEvent(c, s, RunCompleted, env) == EndTurn(c1, s, env);
    EndTurnDisarms(c1, s, env);
    EndTurnFollows(c1, s, env);
  }

  /** An accepted message. */
  lemma MessageIsQueued(c: Controller, s: Scope, user: string, m: QueuedMessage)
    requires IsActiveFor(c, s, user) && c.runs[s].view.pending.None?
    ensures var (a, c1) := (c.runs[s], QueueMessage(c, s, user, m));
            c1 == c.(runs := c.runs[s := a.(queue := a.queue + [m])], history := c1.history)
  {
  }

  /** A message, and then the completion of the turn. */
  lemma QueuedTurnFollows(c: Controller, s: Scope, user: string, m: QueuedMessage, env: TurnEnv)
    requires Runs(c, s) && c.runs[s].user == user && c.runs[s].view.pending.None? && !c.runs[s].stopRequested
    requires TimersOk(c.runs, c.timers) && env.runId !in c.records.logs
    ensures var (c1, end) := (QueueMessage(c, s, user, m), Consume(s, RunCompleted, env));
            && FreshIds(c1, end) && StartsQueued(c1, end, s) && c1.runs[s].run == c.runs[s].run
            && UnwatchedTurn(c, ConsumeEvent(c1, s, RunCompleted, env), s, env)
  {
    var c1 := QueueMessage(c, s, user, m);
    MessageIsQueued(c, s, user, m);
    SameTimer(c.runs, c1.runs, c.timers, s);
    CompletionFollows(c1, s, env);
    assert UnwatchedTurn(c1, ConsumeEvent(c1, s, RunCompleted, env), s, env);
  }

  lemma EndTurnFollows(c: Controller, s: Scope, env: TurnEnv)
    requires s in c.runs && c.runs[s].queue != []
    ensures var c1 := EndTurn(c, s, env);
            && c1.runs.Keys == c.runs.Keys && c1.runs[s].run.runId == env.runId && c1.consuming == c.consuming
            && c1.runs[s].timedOut == c.runs[s].timedOut
            && c1.records.statuses == c.records.statuses[env.runId := Running]
            && c1.settings == c.settings && c1.overrides == c.overrides
  {
    var c1 := CancelTimer(c, s);
    CancelFrame(c, s);
    var merged := PopNext(c1.runs[s].queue, MERGE_WINDOW).value;
    BeginTurnFrame(c1, s, merged.userId, merged.prompt, env);
  }

  /** A run of three steps, the last of which starts a turn from the queue. */
  lemma ThirdStartsQueued(c: Controller, step1: Step, step2: Step, step3: Step, s: Scope)
    requires var c2 := Next(Next(c, step1), step2); StartsQueued(c2, step3, s) && FreshIds(c2, step3)
    requires FreshIds(c, step1) && FreshIds(Next(c, step1), step2)
    ensures var (steps, c2) := ([step1, step2, step3], Next(Next(c, step1), step2));
            && AllFresh(c, steps) && Execute(c, steps) == Next(c2, step3) && Unwatched(c, steps, s)
            && c2.runs[s].run.runId in ReplacedBy(c, steps)
  {
    RunOfTwo(c, step1, step2);
    RunOfThree(c, step1, step2, step3);
    assert [step1, step2, step3][..2] == [step1, step2];
  }

  /** A message that is sent during a turn: when the turn completes, its run is over but stays on record as
      running, and the run that follows is at work without a timer, though a timeout is in force. */
  lemma QueuedTurnIsUnwatched(settings: Settings, env: TurnEnv, env1: TurnEnv, m: QueuedMessage)
    requires settings.defaultTimeout.Some? && env1.runId != env.runId
    ensures var steps := [Start("a", "u", "hi", env), Queue("a", "u", m), Consume("a", RunCompleted, env1)];
            var c := Execute(NewController(settings), steps);
            && AllFresh(NewController(settings), steps) && env.runId in ReplacedBy(NewController(settings), steps)
            && !IsActiveRun(c.runs, env.runId) && Get(c.records.statuses, env.runId) == Some(Running)
            && Runs(c, "a") && c.runs["a"].run.runId == env1.runId
            && IdleTimeout(c.settings, c.overrides, "a").Some? && !Armed(c, "a")
            && Unwatched(NewController(settings), steps, "a")
  {
    var start, queue, end := Start("a", "u", "hi", env), Queue("a", "u", m), Consume("a", RunCompleted, env1);
    var c1 := Next(NewController(settings), start);
    FirstRunStarts(settings, "a", "u", "hi", env);
    QueuedTurnFollows(c1, "a", "u", m, env1);
    assert UnwatchedTurn(c1, Next(Next(c1, queue), end), "a", env1);
    ThirdStartsQueued(NewController(settings), start, queue, end, "a");
  }
}
