/** Whatever the agent does afterwards: how a stopped or timed-out run ends, and when. */
module ControllerFlags {
  import opened Wrappers
  import opened AgentEvents
  import opened RunViews
  import opened MessageQueue
  import opened ControllerModel
  import opened ControllerInvariants
  import opened ControllerLocality
  import opened ControllerRequests
  import opened ControllerRecords

  // Fates of a flagged run r with log `log`, whose callers wait on future f. Its consumer is at work.

  /** Still active, and marked as timed out. */
  ghost predicate MarkedTimedOut(c: Controller, s: Scope, f: nat, r: string, log: seq<AgentEvent>) {
    && s in c.runs && s in c.consuming && c.runs[s].timedOut && c.runs[s].completion == f && c.runs[s].run.runId == r
    && Get(c.records.logs, r) == Some(log)
  }

  /** Still active, and stopped. */
  ghost predicate MarkedStopped(c: Controller, s: Scope, f: nat, r: string, log: seq<AgentEvent>) {
    && s in c.runs && s in c.consuming && c.runs[s].stopRequested && !c.runs[s].timedOut
    && c.runs[s].completion == f && c.runs[s].run.runId == r
    && Get(c.records.logs, r) == Some(log)
  }

  ghost predicate Gone(c: Controller, r: string) { forall s <- c.runs :: c.runs[s].run.runId != r }

  ghost predicate Reported(c: Controller, f: nat, r: string, status: RunStatus) {
    && f < |c.futures| && c.futures[f].Some? && c.futures[f].value.runId == r && c.futures[f].value.status == status
  }

  /** Over, recorded and reported with this status. */
  ghost predicate EndedAs(c: Controller, f: nat, r: string, log: seq<AgentEvent>, status: RunStatus) {
    && Gone(c, r) && Get(c.records.logs, r) == Some(log) && Get(c.records.statuses, r) == Some(status)
    && Reported(c, f, r, status)
  }

  /** Over, and followed at once by a turn for later messages: the record keeps its status, and nobody is
      told of this run. */
  ghost predicate Replaced(c: Controller, f: nat, r: string, log: seq<AgentEvent>, before: Option<RunStatus>) {
    && Gone(c, r) && Get(c.records.logs, r) == Some(log) && before.Some? && Get(c.records.statuses, r) == before
    && f < |c.futures| && (c.futures[f].Some? ==> c.futures[f].value.runId != r)
  }

  /** A later turn of s has taken over the future, which is open. */
  ghost predicate TakenOver(c: Controller, s: Scope, f: nat) {
    f < |c.futures| && c.futures[f].None? && s in c.runs && c.runs[s].completion == f
  }

  /** Over as interrupted, and by an event, which the interruption takes the place of in the log; but if
      messages were queued by then, replaced by a turn for those. */
  ghost predicate EndedByEvent(
      c: Controller, f: nat, r: string, log: seq<AgentEvent>, before: Option<RunStatus>, queue: seq<QueuedMessage>)
  {
    if queue == [] then EndedAs(c, f, r, log + [RunInterrupted], Interrupted)
    else Replaced(c, f, r, log + [RunInterrupted], before)
  }

  /** What is over stays as it is. */
  lemma GoneStays(c: Controller, step: Step, f: nat, r: string)
    requires Inv(c) && FreshIds(c, step) && Gone(c, r) && r in c.records.logs && r in c.records.statuses
    requires f < |c.futures|
    ensures var c1 := Next(c, step);
            && Gone(c1, r) && Get(c1.records.logs, r) == Get(c.records.logs, r)
            && Get(c1.records.statuses, r) == Get(c.records.statuses, r)
            && f < |c1.futures|
            && (c.futures[f].Some? ==> c1.futures[f] == c.futures[f])
            && (c.futures[f].None? && c1.futures[f].Some? ==> c1.futures[f].value.runId != r)
  {
    NextIsLocal(c, step);
    assert !IsOf(c, ScopeOf(c, step), NewRunId(step), r);
  }

  lemma ReplacedStays(c: Controller, step: Step, f: nat, r: string, log: seq<AgentEvent>, before: Option<RunStatus>)
    requires Inv(c) && FreshIds(c, step) && Replaced(c, f, r, log, before)
    ensures Replaced(Next(c, step), f, r, log, before)
  {
    GoneStays(c, step, f, r);
  }

  lemma EndedStays(c: Controller, step: Step, f: nat, r: string, log: seq<AgentEvent>, status: RunStatus)
    requires Inv(c) && FreshIds(c, step) && EndedAs(c, f, r, log, status)
    ensures EndedAs(Next(c, step), f, r, log, status)
  {
    GoneStays(c, step, f, r);
  }

  lemma InvGives(c: Controller, s: Scope)
    requires Inv(c) && s in c.runs
    ensures c.runs[s].completion < |c.futures| && c.futures[c.runs[s].completion].None? && DistinctRunIds(c.runs)
    ensures c.runs[s].run.runId in c.records.logs && c.runs[s].run.runId in c.records.statuses
  {
    assert RunOk(c.runs[s], c.records);
  }

  ghost predicate DistinctRunIds(runs: map<Scope, ActiveRun>) {
    forall s1 <- runs, s2 <- runs :: runs[s1].run.runId == runs[s2].run.runId ==> s1 == s2
  }

  /** A step in another scope does not touch a run. */
  lemma OthersStay(c: Controller, step: Step, s: Scope)
    requires Inv(c) && FreshIds(c, step) && s in c.runs && ScopeOf(c, step) != s
    ensures var (c1, r) := (Next(c, step), c.runs[s].run.runId);
            && s in c1.runs && c1.runs[s] == c.runs[s] && (s in c.consuming <==> s in c1.consuming)
            && Get(c1.records.logs, r) == Get(c.records.logs, r)
            && Get(c1.records.statuses, r) == Get(c.records.statuses, r)
  {
    NextIsLocal(c, step);
    InvGives(c, s);
    assert !IsOf(c, ScopeOf(c, step), NewRunId(step), c.runs[s].run.runId);
  }

  /** What finishing leaves behind. */
  lemma FinishResult(c: Controller, s: Scope, status: RunStatus, now: Stamp)
    requires s in c.runs && c.runs[s].completion < |c.futures| && c.futures[c.runs[s].completion].None?
    requires DistinctRunIds(c.runs)
    ensures var (c1, r) := (FinishRun(c, s, status, now), c.runs[s].run.runId);
            && Gone(c1, r) && c1.records.logs == c.records.logs && Get(c1.records.statuses, r) == Some(status)
            && Reported(c1, c.runs[s].completion, r, status)
  {
    DropFrame(c, s);
    CancelFrame(DropQueue(c, s), s);
    var a := c.runs[s];
    if a.view.pending.Some? {
      CloseRequestFrame(c.records, a.view.pending.value.pendingRequestId, Cancelled);
    }
  }

  /** What an end without an announcement leaves behind. */
  lemma UnloggedResult(c: Controller, s: Scope, e: AgentEvent, status: RunStatus, now: Stamp)
    requires s in c.runs && c.runs[s].completion < |c.futures| && c.futures[c.runs[s].completion].None?
    requires DistinctRunIds(c.runs)
    ensures var (c1, r) := (EndUnlogged(CancelTimer(c, s), s, e, status, now), c.runs[s].run.runId);
            && Gone(c1, r) && c1.records.logs == c.records.logs && Get(c1.records.statuses, r) == Some(status)
            && Reported(c1, c.runs[s].completion, r, status)
  {
    CancelFrame(c, s);
    FinishResult(ReduceUnlogged(CancelTimer(c, s), s, e), s, status, now);
  }

  /** Queue, timer and stop flag aside, the run and everything written down are as before. */
  ghost predicate Kept(c: Controller, c1: Controller, s: Scope) {
    && s in c.runs && s in c1.runs && c1.records == c.records && c1.consuming == c.consuming
    && c1.runs[s].run == c.runs[s].run && c1.runs[s].view == c.runs[s].view
    && c1.runs[s].completion == c.runs[s].completion && c1.runs[s].timedOut == c.runs[s].timedOut
    && (c.runs[s].stopRequested ==> c1.runs[s].stopRequested) && c1.runs[s].user == c.runs[s].user
  }

  /** What a step makes of the queue of a run of this user that is at work and goes on: the user's messages
      are added to it, and the user's stops empty it. */
  function QueueNext(queue: seq<QueuedMessage>, step: Step, s: Scope, user: string): seq<QueuedMessage> {
    if step.Stop? && step.scope == s && step.user == user then []
    else if step.Queue? && step.scope == s && step.user == user then queue + [step.message]
    else queue
  }

  lemma CommandKeeps(c: Controller, step: Step, s: Scope)
    requires s in c.runs && c.runs[s].view.pending.None? && !step.Fire? && step.scope == s
    requires !step.Consume? && !step.EndStream?
    ensures Kept(c, Next(c, step), s)
    ensures Next(c, step).runs[s].queue == QueueNext(c.runs[s].queue, step, s, c.runs[s].user)
  {
    match step
    case Start(_, user, text, env) =>
    case Stop(_, user, now) => FlagFrame(c, s);
    case Queue(_, user, m) =>
    case Reply(_, user, kind, id) =>
    case Timeout(_, seconds) => ArmFrame(c.(overrides := c.overrides[s := Some(seconds)]), s);
    case TimeoutOff(_) => CancelFrame(c.(overrides := c.overrides[s := None]), s);
    case TimeoutDefault(_) => ArmFrame(c.(overrides := c.overrides - {s}), s);
    case Clear(_) =>
    case ResumeSession(_, user, h) =>
    case NewSession(_, user, workspace, id) =>
  }

  /** A firing timer touches only the timed-out flag and the queue of its run. */
  lemma FireKeeps(c: Controller, t: nat, s: Scope)
    requires s in c.runs
    ensures var c1 := TimerFires(c, t);
            && s in c1.runs && c1.records == c.records && c1.consuming == c.consuming
            && c1.runs[s].run == c.runs[s].run && c1.runs[s].view == c.runs[s].view
            && c1.runs[s].completion == c.runs[s].completion && c1.runs[s].stopRequested == c.runs[s].stopRequested
            && (c1.runs[s].timedOut <==>
                 c.runs[s].timedOut || (Get(c.timers.live, t) == Some(s) && c.runs[s].view.pending.None?))
            && (Get(c.timers.live, t) != Some(s) ==> c1.runs[s] == c.runs[s])
  {
    if t in c.timers.live {
      var x := c.timers.live[t];
      var c1 := c.(timers := c.timers.(live := c.timers.live - {t}));
      if x in c1.runs && !c1.runs[x].timedOut && c1.runs[x].view.pending.None? {
        DropFrame(c1.(runs := c1.runs[x := c1.runs[x].(timedOut := true)]), x);
      }
    }
  }

  /** The consumer of s sees something: an event, or the end of its stream. */
  predicate Sees(step: Step, s: Scope) { (step.Consume? || step.EndStream?) && step.scope == s }

  predicate IsEndOf(step: Step, s: Scope) { step.EndStream? && step.scope == s }

  /** An idle timer of s fires. */
  predicate FiresFor(c: Controller, step: Step, s: Scope) { step.Fire? && Get(c.timers.live, step.timer) == Some(s) }

  // A run that timed out.

  /** A timed-out run ends when its stream does, and only then. */
  lemma TimedOutStep(c: Controller, step: Step, s: Scope, f: nat, r: string, log: seq<AgentEvent>)
    requires Inv(c) && FreshIds(c, step) && MarkedTimedOut(c, s, f, r, log)
    ensures if IsEndOf(step, s) then EndedAs(Next(c, step), f, r, log, TimedOut)
            else MarkedTimedOut(Next(c, step), s, f, r, log)
  {
    InvGives(c, s);
    if IsEndOf(step, s) {
      CancelFrame(c, s);
      UnloggedResult(c, s, RunTimedOut, TimedOut, step.now);
    } else if step.Fire? {
      FireKeeps(c, step.timer, s);
    } else if step.scope != s {
      OthersStay(c, step, s);
    } else if !step.Consume? {
      CommandKeeps(c, step, s);
    }
  }

  predicate StreamEnded(steps: seq<Step>, s: Scope) {
    steps != [] && (StreamEnded(steps[..|steps| - 1], s) || IsEndOf(steps[|steps| - 1], s))
  }

  /** Once marked as timed out, a run logs nothing more; it goes on exactly until its stream ends, and then
      is over, recorded and reported as timed out for good. */
  lemma {:induction false} TimedOutDominates(
      c: Controller, steps: seq<Step>, s: Scope, f: nat, r: string, log: seq<AgentEvent>)
    requires Inv(c) && AllFresh(c, steps) && MarkedTimedOut(c, s, f, r, log)
    ensures var c1 := Execute(c, steps);
            if StreamEnded(steps, s) then EndedAs(c1, f, r, log, TimedOut) else MarkedTimedOut(c1, s, f, r, log)
  {
    if steps != [] {
      var front, step := steps[..|steps| - 1], steps[|steps| - 1];
      AllFreshFront(c, steps);
      ReachableKeepsInv(c, front);
      TimedOutDominates(c, front, s, f, r, log);
      if StreamEnded(front, s) {
        EndedStays(Execute(c, front), step, f, r, log, TimedOut);
      } else {
        TimedOutStep(Execute(c, front), step, s, f, r, log);
      }
    }
  }

  // A run that was stopped.

  lemma QueuedTurnReplaces(c: Controller, s: Scope, env: TurnEnv)
    requires s in c.runs && c.runs[s].queue != [] && env.runId !in c.records.logs
    requires c.runs[s].run.runId in c.records.logs
    requires DistinctRunIds(c.runs)
    ensures var (c1, r) := (StartQueuedNextTurn(c, s, env), c.runs[s].run.runId);
            && Gone(c1, r) && Get(c1.records.logs, r) == Get(c.records.logs, r) && c1.futures == c.futures
            && c1.records.statuses == c.records.statuses[env.runId := Running]
            && s in c1.runs && c1.runs[s].completion == c.runs[s].completion
  {
    var merged := PopNext(c.runs[s].queue, MERGE_WINDOW).value;
    BeginTurnFrame(c, s, merged.userId, merged.prompt, env);
  }

  /** The end of a turn whose view is interrupted: what happens is up to the queue. */
  lemma EndTurnEndsRun(c: Controller, s: Scope, env: TurnEnv, log: seq<AgentEvent>, before: Option<RunStatus>)
    requires s in c.runs && c.runs[s].completion < |c.futures| && c.futures[c.runs[s].completion].None?
    requires DistinctRunIds(c.runs)
    requires env.runId !in c.records.logs && c.runs[s].view.status == Interrupted
    requires Get(c.records.logs, c.runs[s].run.runId) == Some(log)
    requires before.Some? && Get(c.records.statuses, c.runs[s].run.runId) == before
    ensures var (c1, f, r) := (EndTurn(c, s, env), c.runs[s].completion, c.runs[s].run.runId);
            if c.runs[s].queue == [] then EndedAs(c1, f, r, log, Interrupted)
            else Replaced(c1, f, r, log, before) && TakenOver(c1, s, f)
  {
    var c1 := CancelTimer(c, s);
    CancelFrame(c, s);
    if c1.runs[s].queue != [] {
      QueuedTurnReplaces(c1, s, env);
    } else {
      FinishResult(c1, s, Interrupted, env.now);
    }
  }

  /** What recording the interruption of a stopped run leaves. */
  lemma InterruptionIsObserved(c: Controller, s: Scope, log: seq<AgentEvent>)
    requires s in c.runs && Get(c.records.logs, c.runs[s].run.runId) == Some(log) && DistinctRunIds(c.runs)
    ensures var (c1, r) := (Observe(c, s, RunInterrupted), c.runs[s].run.runId);
            && Get(c1.records.logs, r) == Some(log + [RunInterrupted]) && c1.records.statuses == c.records.statuses
            && c1.records.logs.Keys == c.records.logs.Keys && c1.futures == c.futures && DistinctRunIds(c1.runs)
            && s in c1.runs && c1.runs[s].completion == c.runs[s].completion && c1.runs[s].run == c.runs[s].run
            && c1.runs[s].view.status == Interrupted && c1.runs[s].queue == c.runs[s].queue
  {
    var c1 := Observe(c, s, RunInterrupted);
    assert forall x <- c1.runs :: c1.runs[x].run == c.runs[x].run;
  }

  lemma StoppedConsumer(c: Controller, event: AgentEvent, env: TurnEnv, s: Scope)
    requires s in c.runs && s in c.consuming && c.runs[s].stopRequested && !c.runs[s].timedOut
    ensures ConsumeEvent(c, s, event, env) == EndTurn(Observe(c, s, RunInterrupted), s, env)
  {
    assert Observe(c, s, RunInterrupted).runs[s].view.status == Interrupted;
  }

  /** The next event is replaced by the interruption, which ends the run; but if messages are queued, the
      callers go on waiting for the turn that is started for them. */
  lemma StoppedConsumes(
      c: Controller, event: AgentEvent, env: TurnEnv, s: Scope, f: nat, r: string, log: seq<AgentEvent>)
    requires Inv(c) && FreshIds(c, Consume(s, event, env)) && MarkedStopped(c, s, f, r, log)
    ensures var (c1, queue) := (ConsumeEvent(c, s, event, env), c.runs[s].queue);
            && EndedByEvent(c1, f, r, log, Get(c.records.statuses, r), queue)
            && (queue != [] ==> TakenOver(c1, s, f))
  {
    InvGives(c, s);
    StoppedConsumer(c, event, env, s);
    InterruptionIsObserved(c, s, log);
    EndTurnEndsRun(Observe(c, s, RunInterrupted), s, env, log + [RunInterrupted], Get(c.records.statuses, r));
  }

  /** Without a next event, the end of the stream ends it. */
  lemma StoppedStreamEnds(c: Controller, s: Scope, f: nat, r: string, log: seq<AgentEvent>, now: Stamp)
    requires Inv(c) && MarkedStopped(c, s, f, r, log)
    ensures EndedAs(StreamEnds(c, s, now), f, r, log, Interrupted)
  {
    InvGives(c, s);
    CancelFrame(c, s);
    UnloggedResult(c, s, RunInterrupted, Interrupted, now);
  }

  /** What comes first: its consumer sees an event, or the end of the stream, or its timer fires. The queue
      is the one by then: of the messages of the run's user, those since the last stop. */
  datatype Turnpoint = Waiting(queue: seq<QueuedMessage>) | Event(queue: seq<QueuedMessage>) | End | Fired

  /** c is the state before the step, user the run's. */
  ghost function Afterwards(point: Turnpoint, c: Controller, step: Step, s: Scope, user: string): Turnpoint {
    match point
    case Waiting(queue) =>
      if IsEndOf(step, s) then End
      else if Sees(step, s) then Event(queue)
      else if FiresFor(c, step, s) then Fired
      else Waiting(QueueNext(queue, step, s, user))
    case _ => point
  }

  ghost function First(c: Controller, steps: seq<Step>, s: Scope): Turnpoint
    requires s in c.runs
  {
    if steps == [] then Waiting(c.runs[s].queue)
    else
      var front, last := steps[..|steps| - 1], steps[|steps| - 1];
      Afterwards(First(c, front, s), Execute(c, front), last, s, c.runs[s].user)
  }

  /** The run is stopped and waits, with this queue, and was on record with this status. */
  ghost predicate StillStopped(
      c: Controller, s: Scope, f: nat, r: string, log: seq<AgentEvent>, before: Option<RunStatus>, user: string,
      queue: seq<QueuedMessage>)
  {
    && MarkedStopped(c, s, f, r, log) && Get(c.records.statuses, r) == before
    && c.runs[s].user == user && c.runs[s].queue == queue
  }

  /** How a stopped run stands, exactly, by what came first and by whether a stream has ended. */
  ghost predicate StopOutcome(
      point: Turnpoint, ended: bool, c: Controller, s: Scope, f: nat, r: string, log: seq<AgentEvent>,
      before: Option<RunStatus>, user: string)
  {
    match point
    case Waiting(queue) => StillStopped(c, s, f, r, log, before, user, queue) && !ended
    case Event(queue) => EndedByEvent(c, f, r, log, before, queue)
    case End => EndedAs(c, f, r, log, Interrupted)
    case Fired => if ended then EndedAs(c, f, r, log, TimedOut) else MarkedTimedOut(c, s, f, r, log)
  }

  lemma StoppedSees(
      c: Controller, step: Step, s: Scope, f: nat, r: string, log: seq<AgentEvent>, before: Option<RunStatus>,
      user: string, queue: seq<QueuedMessage>)
    requires Inv(c) && FreshIds(c, step) && StillStopped(c, s, f, r, log, before, user, queue) && Sees(step, s)
    ensures StopOutcome(if step.EndStream? then End else Event(queue), step.EndStream?, Next(c, step), s, f, r, log,
                        before, user)
  {
    if step.EndStream? {
      StoppedStreamEnds(c, s, f, r, log, step.now);
    } else {
      StoppedConsumes(c, step.event, step.env, s, f, r, log);
    }
  }

  lemma StoppedFires(
      c: Controller, step: Step, s: Scope, f: nat, r: string, log: seq<AgentEvent>, before: Option<RunStatus>,
      user: string)
    requires Inv(c) && MarkedStopped(c, s, f, r, log) && FiresFor(c, step, s)
    ensures StopOutcome(Fired, false, Next(c, step), s, f, r, log, before, user)
  {
    InvGives(c, s);
    assert c.runs[s].view.pending.None?;
    FireKeeps(c, step.timer, s);
  }

  /** As long as its consumer sees nothing and no timer fires, a stopped run goes on. */
  lemma StoppedWaits(
      c: Controller, step: Step, s: Scope, f: nat, r: string, log: seq<AgentEvent>, before: Option<RunStatus>,
      user: string, queue: seq<QueuedMessage>)
    requires Inv(c) && FreshIds(c, step) && StillStopped(c, s, f, r, log, before, user, queue)
    requires !Sees(step, s) && !FiresFor(c, step, s)
    ensures StopOutcome(Waiting(QueueNext(queue, step, s, user)), false, Next(c, step), s, f, r, log, before, user)
  {
    InvGives(c, s);
    assert c.runs[s].view.pending.None?;
    if step.Fire? {
      FireKeeps(c, step.timer, s);
    } else if step.scope != s {
      OthersStay(c, step, s);
    } else {
      CommandKeeps(c, step, s);
    }
  }

  /** The step at which it is decided how a stopped run ends. */
  lemma StoppedStep(
      c: Controller, step: Step, s: Scope, f: nat, r: string, log: seq<AgentEvent>, before: Option<RunStatus>,
      user: string, queue: seq<QueuedMessage>)
    requires Inv(c) && FreshIds(c, step) && StillStopped(c, s, f, r, log, before, user, queue)
    ensures StopOutcome(Afterwards(Waiting(queue), c, step, s, user), IsEndOf(step, s), Next(c, step), s, f, r, log,
                        before, user)
  {
    if Sees(step, s) {
      StoppedSees(c, step, s, f, r, log, before, user, queue);
    } else if FiresFor(c, step, s) {
      StoppedFires(c, step, s, f, r, log, before, user);
    } else {
      StoppedWaits(c, step, s, f, r, log, before, user, queue);
    }
  }

  lemma StopOutcomeStep(
      point: Turnpoint, ended: bool, c: Controller, step: Step, s: Scope, f: nat, r: string, log: seq<AgentEvent>,
      before: Option<RunStatus>, user: string)
    requires Inv(c) && FreshIds(c, step) && StopOutcome(point, ended, c, s, f, r, log, before, user)
    ensures StopOutcome(Afterwards(point, c, step, s, user), ended || IsEndOf(step, s), Next(c, step), s, f, r, log,
                        before, user)
  {
    match point
    case Waiting(queue) => StoppedStep(c, step, s, f, r, log, before, user, queue);
    case Event(queue) =>
      if queue == [] {
        EndedStays(c, step, f, r, log + [RunInterrupted], Interrupted);
      } else {
        ReplacedStays(c, step, f, r, log + [RunInterrupted], before);
      }
    case End => EndedStays(c, step, f, r, log, Interrupted);
    case Fired =>
      if ended {
        EndedStays(c, step, f, r, log, TimedOut);
      } else {
        TimedOutStep(c, step, s, f, r, log);
      }
  }

  /** Whatever the agent emits after a stop: the run goes on exactly until its consumer sees an event or
      the end of the stream, or its timer fires. At the end of the stream it is over as interrupted for
      good. At an event it is so too if no message is queued by then, and else a turn for the messages
      takes its place. If its timer fires, it is as if it had only timed out. At most the interruption is
      added to its log. */
  lemma {:induction false} StopDominates(
      c: Controller, steps: seq<Step>, s: Scope, f: nat, r: string, log: seq<AgentEvent>)
    requires Inv(c) && AllFresh(c, steps) && MarkedStopped(c, s, f, r, log)
    ensures StopOutcome(First(c, steps, s), StreamEnded(steps, s), Execute(c, steps), s, f, r, log,
                        Get(c.records.statuses, r), c.runs[s].user)
  {
    if steps != [] {
      var front := steps[..|steps| - 1];
      AllFreshFront(c, steps);
      ReachableKeepsInv(c, front);
      StopDominates(c, front, s, f, r, log);
      StopOutcomeStep(First(c, front, s), StreamEnded(front, s), Execute(c, front), steps[|steps| - 1], s, f, r, log,
                      Get(c.records.statuses, r), c.runs[s].user);
    }
  }

  /** What a stop does at once: a running run is marked, a waiting one is over, its request left open. */
  lemma StopMarks(c: Controller, s: Scope, user: string, now: Stamp)
    requires Inv(c) && IsActiveFor(c, s, user) && !c.runs[s].timedOut
    ensures var (a, c1) := (c.runs[s], StopRun(c, s, user, now));
            var (f, r, log) := (a.completion, a.run.runId, Get(c.records.logs, a.run.runId));
            && log.Some? && c1.records.requests == c.records.requests
            && if s in c.consuming then MarkedStopped(c1, s, f, r, log.value) && c1.runs[s].queue == []
               else a.view.pending.Some? ==> EndedAs(c1, f, r, log.value, Interrupted)
  {
    InvGives(c, s);
    FlagFrame(c, s);
    StopKeeps(c, s, user, now);
    if c.runs[s].view.pending.Some? {
      var c1 := ReduceUnlogged(Flag(c, s), s, RunInterrupted);
      assert DistinctRunIds(c1.runs);
      FinishResult(c1, s, Interrupted, now);
    }
  }

  /** What the outcome says of record and callers of a run that was on record as running. */
  lemma OutcomeSays(
      point: Turnpoint, ended: bool, c: Controller, s: Scope, f: nat, r: string, log: seq<AgentEvent>, user: string)
    requires Inv(c) && RecordsOk(c) && StopOutcome(point, ended, c, s, f, r, log, Some(Running), user)
    ensures f < |c.futures|
    ensures Get(c.records.statuses, r) == Some(Interrupted) <==> point == End || point == Event([])
    ensures Reported(c, f, r, Interrupted) <==> point == End || point == Event([])
  {
    if s in c.runs {
      InvGives(c, s);
      assert IsActiveRun(c.runs, c.runs[s].run.runId);
      assert StatusOk(c.runs, c.records.statuses[c.runs[s].run.runId], c.history.replaced, c.runs[s].run.runId);
    }
  }

  /** The messages that the user of a run sends after its stop decide how the run ends: it is recorded as
      interrupted, and its callers are told so, if and only if what its consumer sees first is the end of
      the stream, or an event before any such message (but for those that another stop dropped). */
  lemma InterruptedIff(c: Controller, s: Scope, user: string, now: Stamp, steps: seq<Step>)
    requires Inv(c) && RecordsOk(c) && IsActiveFor(c, s, user) && s in c.consuming && !c.runs[s].timedOut
    requires AllFresh(StopRun(c, s, user, now), steps)
    ensures var c0 := StopRun(c, s, user, now);
            var (c1, f, r) := (Execute(c0, steps), c.runs[s].completion, c.runs[s].run.runId);
            && s in c0.runs && c0.runs[s].queue == [] && c0.runs[s].user == user && f < |c1.futures|
            && var interrupted := First(c0, steps, s) == End || First(c0, steps, s) == Event([]);
               && (Get(c1.records.statuses, r) == Some(Interrupted) <==> interrupted)
               && (Reported(c1, f, r, Interrupted) <==> interrupted)
  {
    var c0 := StopRun(c, s, user, now);
    var (f, r, log) := (c.runs[s].completion, c.runs[s].run.runId, Get(c.records.logs, c.runs[s].run.runId));
    InvGives(c, s);
    assert IsActiveRun(c.runs, r) && StatusOk(c.runs, c.records.statuses[r], c.history.replaced, r);
    StopMarks(c, s, user, now);
    StopKeepsRun(c, s, user, now);
    StopRecords(c, s, user, now);
    ReachableKeepsRecords(c0, steps);
    StopDominates(c0, steps, s, f, r, log.value);
    OutcomeSays(First(c0, steps, s), StreamEnded(steps, s), Execute(c0, steps), s, f, r, log.value, user);
  }

  lemma StopKeepsRun(c: Controller, s: Scope, user: string, now: Stamp)
    requires Inv(c) && IsActiveFor(c, s, user) && s in c.consuming
    ensures var c1 := StopRun(c, s, user, now);
            Inv(c1) && s in c1.runs && c1.runs[s].user == user && c1.records == c.records
  {
    NextKeepsInv(c, Stop(s, user, now));
    InvGives(c, s);
    CommandKeeps(c, Stop(s, user, now), s);
  }

  /** A stopped run that messages wait on, when its consumer sees an event. */
  lemma StoppedEventReplaces(c: Controller, s: Scope, event: AgentEvent, env: TurnEnv)
    requires s in c.runs && s in c.consuming && c.runs[s].stopRequested && !c.runs[s].timedOut
    requires c.runs[s].queue != []
    ensures var c1 := ConsumeEvent(c, s, event, env);
            && c1.runs.Keys == c.runs.Keys && c1.runs[s].run.runId == env.runId
            && c1.runs[s].completion == c.runs[s].completion && c1.futures == c.futures
            && c1.records.statuses == c.records.statuses[env.runId := Running]
  {
    StoppedConsumer(c, event, env, s);
    var c1 := CancelTimer(Observe(c, s, RunInterrupted), s);
    CancelFrame(Observe(c, s, RunInterrupted), s);
    var merged := PopNext(c1.runs[s].queue, MERGE_WINDOW).value;
    BeginTurnFrame(c1, s, merged.userId, merged.prompt, env);
  }

  lemma StopThenQueue(c: Controller, s: Scope, user: string, now: Stamp, m: QueuedMessage)
    requires IsActiveFor(c, s, user) && c.runs[s].view.pending.None?
    ensures var c1 := QueueMessage(StopRun(c, s, user, now), s, user, m);
            && c1.runs == c.runs[s := c.runs[s].(stopRequested := true, queue := [m])]
            && c1.records == c.records && c1.futures == c.futures && c1.consuming == c.consuming
  {
    FlagFrame(c, s);
    assert StopRun(c, s, user, now).runs[s].queue + [m] == [m];
  }

  /** A stop, a message of the same user, and an event. */
  lemma StopThenMessage(
      c: Controller, s: Scope, user: string, now: Stamp, m: QueuedMessage, event: AgentEvent, env: TurnEnv)
    requires IsActiveFor(c, s, user) && c.runs[s].view.pending.None? && s in c.consuming && !c.runs[s].timedOut
    requires c.runs.Keys == {s} && env.runId !in c.records.logs
    ensures var c2 := Next(Next(c, Stop(s, user, now)), Queue(s, user, m));
            var c3 := Next(c2, Consume(s, event, env));
            && FreshIds(c2, Consume(s, event, env))
            && c3.runs.Keys == {s} && c3.runs[s].run.runId == env.runId
            && c3.runs[s].completion == c.runs[s].completion && c3.futures == c.futures
            && c3.records.statuses == c.records.statuses[env.runId := Running]
  {
    StopThenQueue(c, s, user, now, m);
    StoppedEventReplaces(QueueMessage(StopRun(c, s, user, now), s, user, m), s, event, env);
  }

  /** A stopped run that is neither recorded nor reported as interrupted: its user sends a message after the
      stop. The run stays on record as running, and the callers wait for the next one. */
  lemma StopIsForgotten(settings: Settings, env: TurnEnv, env1: TurnEnv, event: AgentEvent, m: QueuedMessage)
    requires env1.runId != env.runId
    ensures var steps :=
              [Start("a", "u", "hi", env), Stop("a", "u", env.now), Queue("a", "u", m), Consume("a", event, env1)];
            var c := Execute(NewController(settings), steps);
            && AllFresh(NewController(settings), steps)
            && c.runs.Keys == {"a"} && c.runs["a"].run.runId == env1.runId && c.runs["a"].completion == 0
            && Get(c.records.statuses, env.runId) == Some(Running) && c.futures == [None]
  {
    var c0, front := NewController(settings), [Start("a", "u", "hi", env), Stop("a", "u", env.now), Queue("a", "u", m)];
    RunOfThree(c0, front[0], front[1], front[2]);
    FirstRunStarts(settings, "a", "u", "hi", env);
    StopThenMessage(Next(c0, front[0]), "a", "u", env.now, m, event, env1);
    ExecuteAppend(c0, front, Consume("a", event, env1));
    assert front + [Consume("a", event, env1)] ==
           [Start("a", "u", "hi", env), Stop("a", "u", env.now), Queue("a", "u", m), Consume("a", event, env1)];
  }

  // A run whose consumer died: its stream ended without a terminal event, and without a flag.

  ghost predicate Abandoned(c: Controller, s: Scope, r: string) {
    s in c.runs && s !in c.consuming && c.runs[s].view.pending.None? && c.runs[s].run.runId == r
  }

  /** A run is abandoned by the end of its stream exactly if it carries no flag. */
  lemma AbandonedIff(c: Controller, s: Scope, now: Stamp)
    requires Inv(c) && s in c.consuming
    ensures Abandoned(StreamEnds(c, s, now), s, c.runs[s].run.runId) <==>
              !c.runs[s].timedOut && !c.runs[s].stopRequested
  {
    InvGives(c, s);
    CancelFrame(c, s);
    UnloggedResult(c, s, RunTimedOut, TimedOut, now);
    UnloggedResult(c, s, RunInterrupted, Interrupted, now);
  }

  lemma AbandonedStep(c: Controller, step: Step, s: Scope, r: string)
    requires Inv(c) && FreshIds(c, step) && Abandoned(c, s, r)
    ensures Abandoned(Next(c, step), s, r)
  {
    if step.Fire? {
      FireKeeps(c, step.timer, s);
    } else if step.scope != s {
      OthersStay(c, step, s);
    } else if !Sees(step, s) {
      CommandKeeps(c, step, s);
    }
  }

  /** Nothing ends such a run, not even a stop: it stays active, and its callers wait for ever. */
  lemma {:induction false} AbandonedRunsNeverEnd(c: Controller, steps: seq<Step>, s: Scope, r: string)
    requires Inv(c) && AllFresh(c, steps) && Abandoned(c, s, r)
    ensures var c1 := Execute(c, steps);
            Abandoned(c1, s, r) && c1.runs[s].completion < |c1.futures| && c1.futures[c1.runs[s].completion].None?
  {
    ReachableKeepsInv(c, steps);
    if steps != [] {
      var front := steps[..|steps| - 1];
      AllFreshFront(c, steps);
      ReachableKeepsInv(c, front);
      AbandonedRunsNeverEnd(c, front, s, r);
      AbandonedStep(Execute(c, front), steps[|steps| - 1], s, r);
    }
    InvGives(Execute(c, steps), s);
  }
}
