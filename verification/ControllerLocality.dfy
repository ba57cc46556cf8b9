/** What a step of the controller leaves alone. */
module ControllerLocality {
  import opened Wrappers
  import opened AgentEvents
  import opened RunViews
  import opened MessageQueue
  import opened ControllerModel
  import opened ControllerInvariants

  /** The only run that a run id may belong to after a change of scope x: its own run, or a new one. */
  ghost predicate IsOf(c: Controller, x: Scope, n: Option<string>, runId: string) {
    n == Some(runId) || (x in c.runs && c.runs[x].run.runId == runId)
  }

  ghost predicate LocalRuns(c: Controller, c1: Controller, x: Scope, n: Option<string>) {
    && (forall s <- c.runs :: s != x ==> s in c1.runs && c1.runs[s] == c.runs[s])
    && (forall s <- c1.runs :: s != x ==> s in c.runs)
    && (x in c1.runs ==> IsOf(c, x, n, c1.runs[x].run.runId))
  }

  ghost predicate LocalRecords(c: Controller, c1: Controller, x: Scope, n: Option<string>) {
    && (forall r <- c.records.logs :: !IsOf(c, x, n, r) ==>
          r in c1.records.logs && c1.records.logs[r] == c.records.logs[r])
    && (forall r <- c.records.statuses :: !IsOf(c, x, n, r) ==>
          r in c1.records.statuses && c1.records.statuses[r] == c.records.statuses[r])
  }

  /** Futures are resolved once, with the run they were resolved by. */
  ghost predicate LocalFutures(c: Controller, c1: Controller, x: Scope, n: Option<string>) {
    && |c.futures| <= |c1.futures|
    && (forall f :: 0 <= f < |c.futures| && c.futures[f].Some? ==> c1.futures[f] == c.futures[f])
    && (forall f :: 0 <= f < |c.futures| && c.futures[f].None? && c1.futures[f].Some? ==>
          IsOf(c, x, n, c1.futures[f].value.runId))
    && (forall f :: |c.futures| <= f < |c1.futures| ==> c1.futures[f].None?)
  }

  ghost predicate LocalConsumers(c: Controller, c1: Controller, x: Scope) {
    forall s :: s != x ==> (s in c.consuming <==> s in c1.consuming)
  }

  /** The change concerns scope x, its run and the new run n only. */
  ghost predicate Local(c: Controller, c1: Controller, x: Scope, n: Option<string>) {
    LocalRuns(c, c1, x, n) && LocalRecords(c, c1, x, n) && LocalFutures(c, c1, x, n) && LocalConsumers(c, c1, x)
  }

  lemma LocalTrans(c: Controller, c1: Controller, c2: Controller, x: Scope, n: Option<string>)
    requires Local(c, c1, x, n) && Local(c1, c2, x, n) && |c1.futures| == |c.futures|
    ensures Local(c, c2, x, n)
  {
    assert forall r :: IsOf(c1, x, n, r) ==> IsOf(c, x, n, r);
    forall f | 0 <= f < |c.futures| && c.futures[f].None? && c2.futures[f].Some?
      ensures IsOf(c, x, n, c2.futures[f].value.runId)
    {
      assert c1.futures[f].Some? || IsOf(c1, x, n, c2.futures[f].value.runId);
    }
  }

  lemma QuietIsLocal(c: Controller, c1: Controller, x: Scope, n: Option<string>)
    requires c1.records == c.records && c1.futures == c.futures && c1.consuming == c.consuming
    requires c1.runs == c.runs ||
             (x in c.runs && x in c1.runs && c1.runs == c.runs[x := c1.runs[x]] &&
              c1.runs[x].run.runId == c.runs[x].run.runId)
    ensures Local(c, c1, x, n)
  {
  }

  lemma TimersAreLocal(c: Controller, x: Scope, n: Option<string>)
    ensures Local(c, CancelTimer(c, x), x, n) && Local(c, ArmTimer(c, x), x, n)
  {
    CancelFrame(c, x);
    ArmFrame(c, x);
    QuietIsLocal(c, CancelTimer(c, x), x, n);
    QuietIsLocal(c, ArmTimer(c, x), x, n);
  }

  lemma DropIsLocal(c: Controller, x: Scope, n: Option<string>)
    requires x in c.runs
    ensures Local(c, DropQueue(c, x), x, n)
  {
    DropFrame(c, x);
    QuietIsLocal(c, DropQueue(c, x), x, n);
  }

  lemma CloseIsLocal(c: Controller, x: Scope, status: RunStatus, now: Stamp, n: Option<string>)
    requires x in c.runs
    ensures Local(c, CloseRun(c, x, status, now), x, n)
  {
    var a := c.runs[x];
    if a.view.pending.Some? {
      CloseRequestFrame(c.records, a.view.pending.value.pendingRequestId, Cancelled);
    }
  }

  lemma FinishIsLocal(c: Controller, x: Scope, status: RunStatus, now: Stamp, n: Option<string>)
    requires x in c.runs
    ensures Local(c, FinishRun(c, x, status, now), x, n)
  {
    var c1 := DropQueue(c, x);
    DropFrame(c, x);
    DropIsLocal(c, x, n);
    var c2 := CancelTimer(c1, x);
    CancelFrame(c1, x);
    TimersAreLocal(c1, x, n);
    LocalTrans(c, c1, c2, x, n);
    CloseIsLocal(c2, x, status, now, n);
    LocalTrans(c, c2, CloseRun(c2, x, status, now), x, n);
  }

  lemma ObserveIsLocal(c: Controller, x: Scope, e: AgentEvent, n: Option<string>)
    requires x in c.runs
    ensures Local(c, Observe(c, x, e), x, n)
  {
  }

  lemma PauseIsLocal(c: Controller, x: Scope, id: string, kind: PendingKind, n: Option<string>)
    requires x in c.runs
    ensures Local(c, Pause(c, x, id, kind), x, n)
  {
    CancelFrame(c, x);
  }

  lemma StartIsLocal(c: Controller, x: Scope, user: string, text: string, env: TurnEnv)
    ensures Local(c, StartTextRun(c, x, user, text, env), x, Some(env.runId))
  {
    if x !in c.runs {
      var (c1, run, session) := BeginTurn(c, x, user, text, env);
      BeginTurnFrame(c, x, user, text, env);
      var c2 := OpenRun(c1, x, NewRun(run, user, session, |c1.futures|));
      ArmFrame(c2, x);
      var c3 := ArmTimer(c2, x);
      assert c3.runs[x].run.runId == env.runId && c3.records == c1.records && c3.futures == c.futures + [None];
    }
  }

  lemma QueuedTurnIsLocal(c: Controller, x: Scope, env: TurnEnv)
    requires x in c.runs && c.runs[x].queue != []
    ensures Local(c, StartQueuedNextTurn(c, x, env), x, Some(env.runId))
  {
    var merged := PopNext(c.runs[x].queue, MERGE_WINDOW).value;
    BeginTurnFrame(c, x, merged.userId, merged.prompt, env);
  }

  lemma EndTurnIsLocal(c: Controller, x: Scope, env: TurnEnv)
    requires x in c.runs
    ensures Local(c, EndTurn(c, x, env), x, Some(env.runId))
  {
    var n, c1 := Some(env.runId), CancelTimer(c, x);
    CancelFrame(c, x);
    TimersAreLocal(c, x, n);
    if c1.runs[x].queue != [] {
      QueuedTurnIsLocal(c1, x, env);
    } else {
      FinishIsLocal(c1, x, c1.runs[x].view.status, env.now, n);
    }
    LocalTrans(c, c1, EndTurn(c, x, env), x, n);
  }

  lemma ConsumeIsLocal(c: Controller, x: Scope, event: AgentEvent, env: TurnEnv)
    ensures Local(c, ConsumeEvent(c, x, event, env), x, Some(env.runId))
  {
    var n := Some(env.runId);
    if x in c.consuming && x in c.runs && !c.runs[x].timedOut {
      var e := Effective(c.runs[x], event);
      var c1 := Observe(c, x, e);
      ObserveIsLocal(c, x, e, n);
      if e.IsPause() {
        PauseIsLocal(c1, x, e.pendingRequestId, if e.UserInputRequested? then UserInput else Approval, n);
      } else if c1.runs[x].view.status.IsTerminal() {
        EndTurnIsLocal(c1, x, env);
      } else {
        TimersAreLocal(c1, x, n);
      }
      LocalTrans(c, c1, ConsumeEvent(c, x, event, env), x, n);
    }
  }

  lemma EndUnloggedIsLocal(c: Controller, x: Scope, e: AgentEvent, status: RunStatus, now: Stamp)
    requires x in c.runs
    ensures Local(c, EndUnlogged(c, x, e, status, now), x, None)
  {
    var c1 := ReduceUnlogged(c, x, e);
    QuietIsLocal(c, c1, x, None);
    FinishIsLocal(c1, x, status, now, None);
    LocalTrans(c, c1, FinishRun(c1, x, status, now), x, None);
  }

  lemma EndStreamIsLocal(c: Controller, x: Scope, now: Stamp)
    ensures Local(c, StreamEnds(c, x, now), x, None)
  {
    if x in c.consuming && x in c.runs {
      var c1 := CancelTimer(c, x);
      CancelFrame(c, x);
      TimersAreLocal(c, x, None);
      if c1.runs[x].timedOut {
        EndUnloggedIsLocal(c1, x, RunTimedOut, TimedOut, now);
        LocalTrans(c, c1, StreamEnds(c, x, now), x, None);
      } else if c1.runs[x].stopRequested {
        EndUnloggedIsLocal(c1, x, RunInterrupted, Interrupted, now);
        LocalTrans(c, c1, StreamEnds(c, x, now), x, None);
      }
    }
  }

  lemma FlagFrame(c: Controller, x: Scope)
    requires x in c.runs
    ensures var c1 := Flag(c, x);
            c1 == c.(runs := c.runs[x := c.runs[x].(stopRequested := true, queue := [])], history := c1.history)
  {
    DropFrame(c.(runs := c.runs[x := c.runs[x].(stopRequested := true)]), x);
    assert Flag(c, x).runs == c.runs[x := c.runs[x].(stopRequested := true, queue := [])];
  }

  lemma StopIsLocal(c: Controller, x: Scope, user: string, now: Stamp)
    ensures Local(c, StopRun(c, x, user, now), x, None)
  {
    if IsActiveFor(c, x, user) {
      FlagFrame(c, x);
      QuietIsLocal(c, Flag(c, x), x, None);
      if c.runs[x].view.pending.Some? {
        EndUnloggedIsLocal(Flag(c, x), x, RunInterrupted, Interrupted, now);
        LocalTrans(c, Flag(c, x), StopRun(c, x, user, now), x, None);
      }
    }
  }

  lemma ReplyIsLocal(c: Controller, x: Scope)
    requires x in c.runs && c.runs[x].view.pending.Some?
    ensures Local(c, ResolvePending(c, x), x, None)
  {
    var c1 := AnsweredState(c, x);
    CloseRequestFrame(c.records, c.runs[x].view.pending.value.pendingRequestId, Resolved);
    assert Local(c, c1, x, None);
    TimersAreLocal(c1, x, None);
    LocalTrans(c, c1, ArmTimer(c1, x), x, None);
  }

  lemma AnswerIsLocal(c: Controller, x: Scope, user: string, kind: PendingKind, id: Option<string>)
    ensures Local(c, Answer(c, x, user, kind, id), x, None)
  {
    if CanAnswer(c, x, user, kind, id) {
      ReplyIsLocal(c, x);
    }
  }

  lemma FireIsLocal(c: Controller, t: nat)
    ensures Local(c, TimerFires(c, t), if t in c.timers.live then c.timers.live[t] else "", None)
  {
    if t in c.timers.live {
      LiveTimerIsLocal(c, t);
    }
  }

  lemma LiveTimerIsLocal(c: Controller, t: nat)
    requires t in c.timers.live
    ensures Local(c, TimerFires(c, t), c.timers.live[t], None)
  {
    var x := c.timers.live[t];
    var c1 := c.(timers := c.timers.(live := c.timers.live - {t}));
    QuietIsLocal(c, c1, x, None);
    if x in c1.runs && !c1.runs[x].timedOut && c1.runs[x].view.pending.None? {
      var c2 := c1.(runs := c1.runs[x := c1.runs[x].(timedOut := true)]);
      QuietIsLocal(c1, c2, x, None);
      LocalTrans(c, c1, c2, x, None);
      DropIsLocal(c2, x, None);
      LocalTrans(c, c2, DropQueue(c2, x), x, None);
    }
  }

  lemma QueueIsLocal(c: Controller, x: Scope, user: string, m: QueuedMessage)
    ensures Local(c, QueueMessage(c, x, user, m), x, None)
  {
    QuietIsLocal(c, QueueMessage(c, x, user, m), x, None);
  }

  /** The scope a step concerns. */
  function ScopeOf(c: Controller, step: Step): Scope {
    if step.Fire? then if step.timer in c.timers.live then c.timers.live[step.timer] else "" else step.scope
  }

  function NewRunId(step: Step): Option<string> {
    if step.Start? || step.Consume? then Some(step.env.runId) else None
  }

  lemma TimeoutsAreLocal(c: Controller, x: Scope, seconds: int)
    ensures Local(c, SetTimeout(c, x, seconds), x, None)
    ensures Local(c, DisableTimeout(c, x), x, None) && Local(c, DefaultTimeout(c, x), x, None)
  {
    OverrideIsLocal(c, x, c.overrides[x := Some(seconds)]);
    OverrideIsLocal(c, x, c.overrides[x := None]);
    OverrideIsLocal(c, x, c.overrides - {x});
  }

  lemma OverrideIsLocal(c: Controller, x: Scope, overrides: map<Scope, Option<int>>)
    ensures Local(c, ArmTimer(c.(overrides := overrides), x), x, None)
    ensures Local(c, CancelTimer(c.(overrides := overrides), x), x, None)
  {
    var c1 := c.(overrides := overrides);
    CancelFrame(c1, x);
    ArmFrame(c1, x);
    QuietIsLocal(c, CancelTimer(c1, x), x, None);
    QuietIsLocal(c, ArmTimer(c1, x), x, None);
  }

  lemma TimeoutIsLocal(c: Controller, step: Step)
    requires SetsTimeout(step)
    ensures Local(c, Next(c, step), step.scope, None)
  {
    TimeoutsAreLocal(c, step.scope, if step.Timeout? then step.seconds else 0);
  }

  lemma SelectionIsLocal(c: Controller, step: Step)
    requires IsSelection(step)
    ensures Local(c, Next(c, step), step.scope, None)
  {
    SelectionFrame(c, step);
    QuietIsLocal(c, Next(c, step), step.scope, None);
  }

  lemma CommandIsLocal(c: Controller, step: Step)
    requires step.Stop? || step.Queue? || step.Reply?
    ensures Local(c, Next(c, step), step.scope, None)
  {
    match step
    case Stop(s, user, now) => StopIsLocal(c, s, user, now);
    case Queue(s, user, m) => QueueIsLocal(c, s, user, m);
    case Reply(s, user, kind, id) => AnswerIsLocal(c, s, user, kind, id);
  }

  /** Every step concerns one scope, its run and at most one new run. */
  lemma NextIsLocal(c: Controller, step: Step)
    ensures Local(c, Next(c, step), ScopeOf(c, step), NewRunId(step))
  {
    if step.Start? {
      StartIsLocal(c, step.scope, step.user, step.text, step.env);
    } else if step.Consume? {
      ConsumeIsLocal(c, step.scope, step.event, step.env);
    } else if step.EndStream? {
      EndStreamIsLocal(c, step.scope, step.now);
    } else if step.Fire? {
      FireIsLocal(c, step.timer);
    } else if step.Stop? || step.Queue? || step.Reply? {
      CommandIsLocal(c, step);
    } else if SetsTimeout(step) {
      TimeoutIsLocal(c, step);
    } else {
      SelectionIsLocal(c, step);
    }
  }
}
