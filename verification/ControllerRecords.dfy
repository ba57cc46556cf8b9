/** The status that is on record for a run. */
module ControllerRecords {
  import opened Wrappers
  import opened AgentEvents
  import opened RunViews
  import opened MessageQueue
  import opened ControllerModel
  import opened ControllerInvariants

  ghost predicate IsActiveRun(runs: map<Scope, ActiveRun>, r: string) {
    exists s :: s in runs && runs[s].run.runId == r
  }

  /** An active run is on record as running; one that is over with its final status, unless it was
      replaced by a queued turn, when it is on record as running for good. */
  ghost predicate StatusOk(runs: map<Scope, ActiveRun>, status: RunStatus, replaced: set<string>, r: string) {
    && (IsActiveRun(runs, r) ==> status.Running? && r !in replaced)
    && (!IsActiveRun(runs, r) ==> if r in replaced then status.Running? else status.IsTerminal())
  }

  ghost predicate StatusesOk(runs: map<Scope, ActiveRun>, statuses: map<string, RunStatus>, replaced: set<string>) {
    && (forall s1 <- runs, s2 <- runs :: runs[s1].run.runId == runs[s2].run.runId ==> s1 == s2)
    && (forall s <- runs :: runs[s].run.runId in statuses)
    && (forall r <- replaced :: r in statuses)
    && (forall r <- statuses :: StatusOk(runs, statuses[r], replaced, r))
  }

  /** Every run that has a status has a log. */
  ghost predicate RecordsOk(c: Controller) {
    && StatusesOk(c.runs, c.records.statuses, c.history.replaced)
    && c.records.statuses.Keys <= c.records.logs.Keys
  }

  // The four things that happen to statuses.

  /** The same runs are active. */
  ghost predicate SameIds(runs: map<Scope, ActiveRun>, runs1: map<Scope, ActiveRun>) {
    runs1.Keys == runs.Keys && forall s <- runs :: runs1[s].run.runId == runs[s].run.runId
  }

  lemma NothingHappens(
      runs: map<Scope, ActiveRun>, runs1: map<Scope, ActiveRun>, statuses: map<string, RunStatus>,
      replaced: set<string>)
    requires StatusesOk(runs, statuses, replaced) && SameIds(runs, runs1)
    ensures StatusesOk(runs1, statuses, replaced)
  {
    forall r | r in statuses ensures StatusOk(runs1, statuses[r], replaced, r) {
      assert StatusOk(runs, statuses[r], replaced, r);
      assert forall s <- runs :: runs1[s].run.runId == r <==> runs[s].run.runId == r;
    }
  }

  lemma RunBegins(
      runs: map<Scope, ActiveRun>, statuses: map<string, RunStatus>, replaced: set<string>, s: Scope, a: ActiveRun)
    requires StatusesOk(runs, statuses, replaced) && s !in runs && a.run.runId !in statuses
    ensures StatusesOk(runs[s := a], statuses[a.run.runId := Running], replaced)
  {
    var runs1, statuses1 := runs[s := a], statuses[a.run.runId := Running];
    assert runs1[s].run.runId == a.run.runId;
    forall r | r in statuses1 ensures StatusOk(runs1, statuses1[r], replaced, r) {
      if r != a.run.runId {
        assert StatusOk(runs, statuses[r], replaced, r);
        if x :| x in runs && runs[x].run.runId == r {
          assert runs1[x].run.runId == r;
        }
      }
    }
  }

  lemma RunEnds(
      runs: map<Scope, ActiveRun>, statuses: map<string, RunStatus>, replaced: set<string>, s: Scope,
      status: RunStatus)
    requires StatusesOk(runs, statuses, replaced) && s in runs && status.IsTerminal()
    ensures StatusesOk(runs - {s}, statuses[runs[s].run.runId := status], replaced)
  {
    var runs1, r0 := runs - {s}, runs[s].run.runId;
    var statuses1 := statuses[r0 := status];
    assert StatusOk(runs, statuses[r0], replaced, r0);
    forall r | r in statuses1 ensures StatusOk(runs1, statuses1[r], replaced, r) {
      assert StatusOk(runs, statuses[r], replaced, r);
      if x :| x in runs && runs[x].run.runId == r {
        assert r != r0 ==> x in runs1 && runs1[x].run.runId == r;
      }
    }
  }

  lemma TurnReplaces(
      runs: map<Scope, ActiveRun>, statuses: map<string, RunStatus>, replaced: set<string>, s: Scope, a: ActiveRun)
    requires StatusesOk(runs, statuses, replaced) && s in runs && a.run.runId !in statuses
    ensures StatusesOk(runs[s := a], statuses[a.run.runId := Running], replaced + {runs[s].run.runId})
  {
    var runs1, n, r0 := runs[s := a], a.run.runId, runs[s].run.runId;
    var statuses1, replaced1 := statuses[n := Running], replaced + {r0};
    assert runs1[s].run.runId == n;
    assert StatusOk(runs, statuses[r0], replaced, r0);
    forall r | r in statuses1 ensures StatusOk(runs1, statuses1[r], replaced1, r) {
      if r != n {
        assert StatusOk(runs, statuses[r], replaced, r);
        if x :| x in runs && runs[x].run.runId == r {
          assert r != r0 ==> runs1[x].run.runId == r;
        }
      }
    }
  }

  // The steps.

  /** A change of state in which none of the four happens. */
  lemma QuietKeeps(c: Controller, c1: Controller)
    requires RecordsOk(c) && SameIds(c.runs, c1.runs) && c1.records.statuses == c.records.statuses
    requires c.records.logs.Keys <= c1.records.logs.Keys && c1.history.replaced == c.history.replaced
    ensures RecordsOk(c1)
  {
    NothingHappens(c.runs, c1.runs, c.records.statuses, c.history.replaced);
  }

  lemma DropReplacesNothing(c: Controller, s: Scope)
    requires s in c.runs
    ensures DropQueue(c, s).history.replaced == c.history.replaced
  {
  }

  lemma CloseEnds(c: Controller, s: Scope, status: RunStatus, now: Stamp)
    requires RecordsOk(c) && s in c.runs && status.IsTerminal()
    ensures RecordsOk(CloseRun(c, s, status, now))
  {
    var a := c.runs[s];
    RunEnds(c.runs, c.records.statuses, c.history.replaced, s, status);
    if a.view.pending.Some? {
      CloseRequestFrame(c.records, a.view.pending.value.pendingRequestId, Cancelled);
    }
  }

  lemma CancelIsQuiet(c: Controller, s: Scope)
    requires RecordsOk(c)
    ensures RecordsOk(CancelTimer(c, s))
  {
    CancelFrame(c, s);
    QuietKeeps(c, CancelTimer(c, s));
  }

  lemma ArmIsQuiet(c: Controller, s: Scope)
    requires RecordsOk(c)
    ensures RecordsOk(ArmTimer(c, s))
  {
    ArmFrame(c, s);
    QuietKeeps(c, ArmTimer(c, s));
  }

  lemma FinishEnds(c: Controller, s: Scope, status: RunStatus, now: Stamp)
    requires RecordsOk(c) && s in c.runs && status.IsTerminal()
    ensures RecordsOk(FinishRun(c, s, status, now))
  {
    var c1 := DropQueue(c, s);
    DropFrame(c, s);
    DropReplacesNothing(c, s);
    QuietKeeps(c, c1);
    CancelIsQuiet(c1, s);
    CancelFrame(c1, s);
    CloseEnds(CancelTimer(c1, s), s, status, now);
  }

  lemma BeginRecords(c: Controller, s: Scope, user: string, prompt: string, env: TurnEnv)
    ensures var c1 := BeginTurn(c, s, user, prompt, env).0;
            && c1.runs == c.runs && c1.records.statuses == c.records.statuses[env.runId := Running]
            && c1.records.logs.Keys == c.records.logs.Keys + {env.runId} && c1.history.replaced == c.history.replaced
  {
  }

  lemma QueuedTurnRecords(c: Controller, s: Scope, env: TurnEnv)
    requires RecordsOk(c) && s in c.runs && c.runs[s].queue != [] && env.runId !in c.records.logs
    ensures RecordsOk(StartQueuedNextTurn(c, s, env))
  {
    var merged := PopNext(c.runs[s].queue, MERGE_WINDOW).value;
    BeginRecords(c, s, merged.userId, merged.prompt, env);
    var c1 := StartQueuedNextTurn(c, s, env);
    TurnReplaces(c.runs, c.records.statuses, c.history.replaced, s, c1.runs[s]);
    assert c1.runs == c.runs[s := c1.runs[s]];
  }

  lemma EndTurnRecords(c: Controller, s: Scope, env: TurnEnv)
    requires RecordsOk(c) && s in c.runs && c.runs[s].view.status.IsTerminal() && env.runId !in c.records.logs
    ensures RecordsOk(EndTurn(c, s, env))
  {
    var c1 := CancelTimer(c, s);
    CancelIsQuiet(c, s);
    CancelFrame(c, s);
    if c1.runs[s].queue != [] {
      QueuedTurnRecords(c1, s, env);
    } else {
      FinishEnds(c1, s, c1.runs[s].view.status, env.now);
    }
  }

  lemma StartRecords(c: Controller, s: Scope, user: string, text: string, env: TurnEnv)
    requires RecordsOk(c) && env.runId !in c.records.logs
    ensures RecordsOk(StartTextRun(c, s, user, text, env))
  {
    if s !in c.runs {
      var (c1, run, session) := BeginTurn(c, s, user, text, env);
      BeginRecords(c, s, user, text, env);
      var a := NewRun(run, user, session, |c1.futures|);
      RunBegins(c.runs, c.records.statuses, c.history.replaced, s, a);
      ArmIsQuiet(OpenRun(c1, s, a), s);
    }
  }

  lemma ObserveRecords(c: Controller, s: Scope, e: AgentEvent)
    requires RecordsOk(c) && s in c.runs && c.runs[s].run.runId in c.records.logs
    ensures RecordsOk(Observe(c, s, e)) && Observe(c, s, e).records.logs.Keys == c.records.logs.Keys
  {
    QuietKeeps(c, Observe(c, s, e));
  }

  lemma PauseRecords(c: Controller, s: Scope, id: string, kind: PendingKind)
    requires RecordsOk(c) && s in c.runs
    ensures RecordsOk(Pause(c, s, id, kind))
  {
    CancelFrame(c, s);
    QuietKeeps(c, Pause(c, s, id, kind));
  }

  lemma ConsumeRecords(c: Controller, s: Scope, event: AgentEvent, env: TurnEnv)
    requires RecordsOk(c) && env.runId !in c.records.logs
    requires forall s1 <- c.runs :: c.runs[s1].run.runId in c.records.logs
    ensures RecordsOk(ConsumeEvent(c, s, event, env))
  {
    if s in c.consuming && s in c.runs && !c.runs[s].timedOut {
      var e := Effective(c.runs[s], event);
      var c1 := Observe(c, s, e);
      ObserveRecords(c, s, e);
      if e.IsPause() {
        PauseRecords(c1, s, e.pendingRequestId, if e.UserInputRequested? then UserInput else Approval);
      } else if c1.runs[s].view.status.IsTerminal() {
        EndTurnRecords(c1, s, env);
      } else {
        ArmIsQuiet(c1, s);
      }
    }
  }

  lemma UnloggedRecords(c: Controller, s: Scope, e: AgentEvent, status: RunStatus, now: Stamp)
    requires RecordsOk(c) && s in c.runs && status.IsTerminal()
    ensures RecordsOk(EndUnlogged(c, s, e, status, now))
  {
    QuietKeeps(c, ReduceUnlogged(c, s, e));
    FinishEnds(ReduceUnlogged(c, s, e), s, status, now);
  }

  lemma EndStreamRecords(c: Controller, s: Scope, now: Stamp)
    requires RecordsOk(c)
    ensures RecordsOk(StreamEnds(c, s, now))
  {
    if s in c.consuming && s in c.runs {
      CancelIsQuiet(c, s);
      CancelFrame(c, s);
      UnloggedRecords(CancelTimer(c, s), s, RunTimedOut, TimedOut, now);
      UnloggedRecords(CancelTimer(c, s), s, RunInterrupted, Interrupted, now);
    }
  }

  lemma StopRecords(c: Controller, s: Scope, user: string, now: Stamp)
    requires RecordsOk(c)
    ensures RecordsOk(StopRun(c, s, user, now))
  {
    if IsActiveFor(c, s, user) {
      QuietKeeps(c, Flag(c, s));
      if c.runs[s].view.pending.Some? {
        UnloggedRecords(Flag(c, s), s, RunInterrupted, Interrupted, now);
      }
    }
  }

  lemma AnswerRecords(c: Controller, s: Scope, user: string, kind: PendingKind, id: Option<string>)
    requires RecordsOk(c)
    ensures RecordsOk(Answer(c, s, user, kind, id))
  {
    if CanAnswer(c, s, user, kind, id) {
      var c1 := AnsweredState(c, s);
      QuietKeeps(c, c1);
      ArmIsQuiet(c1, s);
    }
  }

  lemma OthersAreQuiet(c: Controller, step: Step)
    requires !step.Start? && !step.Consume? && !step.EndStream? && !step.Stop? && !step.Reply?
    ensures var c1 := Next(c, step);
            SameIds(c.runs, c1.runs) && c1.records == c.records && c1.history.replaced == c.history.replaced
  {
    match step
    case Timeout(s, seconds) => ArmFrame(c.(overrides := c.overrides[s := Some(seconds)]), s);
    case TimeoutOff(s) => CancelFrame(c.(overrides := c.overrides[s := None]), s);
    case TimeoutDefault(s) => ArmFrame(c.(overrides := c.overrides - {s}), s);
    case Fire(t) => FiringIsQuiet(c, t);
    case Queue(s, user, m) => QueueIsQuiet(c, s, user, m);
    case _ =>
  }

  lemma FiringIsQuiet(c: Controller, t: nat)
    ensures var c1 := TimerFires(c, t);
            SameIds(c.runs, c1.runs) && c1.records == c.records && c1.history.replaced == c.history.replaced
  {
  }

  lemma QueueIsQuiet(c: Controller, s: Scope, user: string, m: QueuedMessage)
    ensures var c1 := QueueMessage(c, s, user, m);
            SameIds(c.runs, c1.runs) && c1.records == c.records && c1.history.replaced == c.history.replaced
  {
  }

  lemma NextKeepsRecords(c: Controller, step: Step)
    requires RecordsOk(c) && FreshIds(c, step) && forall s <- c.runs :: c.runs[s].run.runId in c.records.logs
    ensures RecordsOk(Next(c, step))
  {
    match step
    case Start(s, user, text, env) => StartRecords(c, s, user, text, env);
    case Consume(s, event, env) => ConsumeRecords(c, s, event, env);
    case EndStream(s, now) => EndStreamRecords(c, s, now);
    case Stop(s, user, now) => StopRecords(c, s, user, now);
    case Reply(s, user, kind, id) => AnswerRecords(c, s, user, kind, id);
    case _ =>
      OthersAreQuiet(c, step);
      QuietKeeps(c, Next(c, step));
  }

  // Which runs are replaced.

  /** The step starts a turn of s from its queue. */
  ghost predicate StartsQueued(c: Controller, step: Step, s: Scope) {
    && step.Consume? && step.scope == s && s in c.consuming && s in c.runs && !c.runs[s].timedOut
    && c.runs[s].queue != []
    && var e := Effective(c.runs[s], step.event); !e.IsPause() && ReduceRunView(c.runs[s].view, e).status.IsTerminal()
  }

  /** The run that the step replaces, if any. */
  ghost function ReplacedAt(c: Controller, step: Step): set<string> {
    if step.Consume? && StartsQueued(c, step, step.scope) then {c.runs[step.scope].run.runId} else {}
  }

  /** The runs that some step of the sequence replaces. */
  ghost function ReplacedBy(c: Controller, steps: seq<Step>): set<string> {
    if steps == [] then {}
    else
      var front := steps[..|steps| - 1];
      ReplacedBy(c, front) + ReplacedAt(Execute(c, front), steps[|steps| - 1])
  }

  lemma FinishReplacesNothing(c: Controller, s: Scope, status: RunStatus, now: Stamp)
    requires s in c.runs
    ensures FinishRun(c, s, status, now).history.replaced == c.history.replaced
  {
    DropFrame(c, s);
    DropReplacesNothing(c, s);
    CancelFrame(DropQueue(c, s), s);
  }

  lemma EndTurnReplaces(c: Controller, s: Scope, env: TurnEnv)
    requires s in c.runs
    ensures EndTurn(c, s, env).history.replaced ==
              c.history.replaced + (if c.runs[s].queue != [] then {c.runs[s].run.runId} else {})
  {
    var c1 := CancelTimer(c, s);
    CancelFrame(c, s);
    if c1.runs[s].queue != [] {
      var merged := PopNext(c1.runs[s].queue, MERGE_WINDOW).value;
      BeginRecords(c1, s, merged.userId, merged.prompt, env);
    } else {
      FinishReplacesNothing(c1, s, c1.runs[s].view.status, env.now);
    }
  }

  lemma ConsumeReplaces(c: Controller, s: Scope, event: AgentEvent, env: TurnEnv)
    ensures ConsumeEvent(c, s, event, env).history.replaced ==
              c.history.replaced + ReplacedAt(c, Consume(s, event, env))
  {
    if s in c.consuming && s in c.runs && !c.runs[s].timedOut {
      var e := Effective(c.runs[s], event);
      var c1 := Observe(c, s, e);
      CancelFrame(c1, s);
      ArmFrame(c1, s);
      if !e.IsPause() && c1.runs[s].view.status.IsTerminal() {
        EndTurnReplaces(c1, s, env);
      }
    }
  }

  lemma EndStreamReplacesNothing(c: Controller, s: Scope, now: Stamp)
    ensures StreamEnds(c, s, now).history.replaced == c.history.replaced
  {
    if s in c.consuming && s in c.runs {
      CancelFrame(c, s);
      var c1 := CancelTimer(c, s);
      FinishReplacesNothing(ReduceUnlogged(c1, s, RunTimedOut), s, TimedOut, now);
      FinishReplacesNothing(ReduceUnlogged(c1, s, RunInterrupted), s, Interrupted, now);
    }
  }

  lemma StopReplacesNothing(c: Controller, s: Scope, user: string, now: Stamp)
    ensures StopRun(c, s, user, now).history.replaced == c.history.replaced
  {
    if IsActiveFor(c, s, user) {
      DropReplacesNothing(c.(runs := c.runs[s := c.runs[s].(stopRequested := true)]), s);
      if c.runs[s].view.pending.Some? {
        FinishReplacesNothing(ReduceUnlogged(Flag(c, s), s, RunInterrupted), s, Interrupted, now);
      }
    }
  }

  lemma StartReplacesNothing(c: Controller, s: Scope, user: string, text: string, env: TurnEnv)
    ensures StartTextRun(c, s, user, text, env).history.replaced == c.history.replaced
  {
    if s !in c.runs {
      var (c1, run, session) := BeginTurn(c, s, user, text, env);
      BeginRecords(c, s, user, text, env);
      ArmFrame(OpenRun(c1, s, NewRun(run, user, session, |c1.futures|)), s);
    }
  }

  lemma NextReplaces(c: Controller, step: Step)
    ensures Next(c, step).history.replaced == c.history.replaced + ReplacedAt(c, step)
  {
    match step
    case Start(s, user, text, env) => StartReplacesNothing(c, s, user, text, env);
    case Consume(s, event, env) => ConsumeReplaces(c, s, event, env);
    case EndStream(s, now) => EndStreamReplacesNothing(c, s, now);
    case Stop(s, user, now) => StopReplacesNothing(c, s, user, now);
    case Reply(s, user, kind, id) =>
      if CanAnswer(c, s, user, kind, id) {
        ArmFrame(AnsweredState(c, s), s);
      }
    case _ => OthersAreQuiet(c, step);
  }

  // Whole runs.

  lemma {:induction false} ReachableKeepsRecords(c: Controller, steps: seq<Step>)
    requires Inv(c) && RecordsOk(c) && AllFresh(c, steps)
    ensures var c1 := Execute(c, steps);
            Inv(c1) && RecordsOk(c1) && c1.history.replaced == c.history.replaced + ReplacedBy(c, steps)
  {
    if steps != [] {
      var front, step := steps[..|steps| - 1], steps[|steps| - 1];
      AllFreshFront(c, steps);
      ReachableKeepsRecords(c, front);
      var c1 := Execute(c, front);
      forall s | s in c1.runs ensures c1.runs[s].run.runId in c1.records.logs {
        assert RunOk(c1.runs[s], c1.records);
      }
      NextKeepsInv(c1, step);
      NextKeepsRecords(c1, step);
      NextReplaces(c1, step);
    }
  }

  /** In every reachable state, a run on record that is no longer active has a final status if and only if
      no step ended it while messages were queued; else, and while it is active, it is on record as running. */
  lemma FinalStatusIff(settings: Settings, steps: seq<Step>)
    requires AllFresh(NewController(settings), steps)
    ensures var (c, replaced) := (Execute(NewController(settings), steps), ReplacedBy(NewController(settings), steps));
            && RecordsOk(c) && c.history.replaced == replaced
            && forall r <- c.records.statuses ::
                 if IsActiveRun(c.runs, r) || r in replaced then c.records.statuses[r].Running?
                 else c.records.statuses[r].IsTerminal()
  {
    ControllersStartOk(settings);
    ReachableKeepsRecords(NewController(settings), steps);
    var c := Execute(NewController(settings), steps);
    forall r | r in c.records.statuses
      ensures if IsActiveRun(c.runs, r) || r in c.history.replaced then c.records.statuses[r].Running?
              else c.records.statuses[r].IsTerminal()
    {
      assert StatusOk(c.runs, c.records.statuses[r], c.history.replaced, r);
    }
  }
}
