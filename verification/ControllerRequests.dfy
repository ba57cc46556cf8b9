/** What becomes of the requests that an agent makes of its user. */
module ControllerRequests {
  import opened Wrappers
  import opened AgentEvents
  import opened RunViews
  import opened MessageQueue
  import opened ControllerModel
  import opened ControllerInvariants

  type Requests = map<string, Request>

  /** The event of a consuming step that opens a request. */
  function Asks(c: Controller, step: Step): Option<AgentEvent> {
    if step.Consume? && step.scope in c.consuming && step.scope in c.runs && !c.runs[step.scope].timedOut
       && Effective(c.runs[step.scope], step.event).IsPause()
    then Some(Effective(c.runs[step.scope], step.event)) else None
  }

  function Answered(c: Controller, step: Step): Option<string> {
    if step.Reply? && CanAnswer(c, step.scope, step.user, step.kind, step.id)
    then Some(c.runs[step.scope].view.pending.value.pendingRequestId) else None
  }

  /** Requests are opened by the events that ask and resolved by the answers; nothing else touches them. */
  function RequestsAfter(c: Controller, step: Step): Requests {
    var requests := c.records.requests;
    if Asks(c, step).Some? then
      var e := Asks(c, step).value;
      var kind := if e.UserInputRequested? then UserInput else Approval;
      requests[e.pendingRequestId := Request(c.runs[step.scope].run.runId, kind, Open)]
    else if Answered(c, step).Some? && Answered(c, step).value in requests then
      requests[Answered(c, step).value := requests[Answered(c, step).value].(status := Resolved)]
    else requests
  }

  lemma FinishKeeps(c: Controller, s: Scope, status: RunStatus, now: Stamp)
    requires s in c.runs && c.runs[s].view.pending.None?
    ensures FinishRun(c, s, status, now).records.requests == c.records.requests
  {
    DropFrame(c, s);
    CancelFrame(DropQueue(c, s), s);
  }

  lemma EndTurnKeeps(c: Controller, s: Scope, env: TurnEnv)
    requires s in c.runs && c.runs[s].view.pending.None?
    ensures EndTurn(c, s, env).records.requests == c.records.requests
  {
    CancelFrame(c, s);
    var c1 := CancelTimer(c, s);
    if c1.runs[s].queue != [] {
      var merged := PopNext(c1.runs[s].queue, MERGE_WINDOW).value;
      BeginTurnFrame(c1, s, merged.userId, merged.prompt, env);
    } else {
      FinishKeeps(c1, s, c1.runs[s].view.status, env.now);
    }
  }

  lemma EndUnloggedKeeps(c: Controller, s: Scope, e: AgentEvent, status: RunStatus, now: Stamp)
    requires s in c.runs && (e.RunInterrupted? || e.RunTimedOut?)
    ensures EndUnlogged(c, s, e, status, now).records.requests == c.records.requests
  {
    FinishKeeps(ReduceUnlogged(c, s, e), s, status, now);
  }

  /** A run whose consumer sees an event waits for nothing; after an event that asks nothing, neither. */
  lemma ObservedWaitsFor(c: Controller, s: Scope, e: AgentEvent)
    requires ConsumersOk(c.runs, c.consuming) && s in c.consuming && !e.IsPause()
    ensures s in c.runs && Observe(c, s, e).runs[s].view.pending.None?
  {
  }

  lemma PauseOpens(c: Controller, s: Scope, id: string, kind: PendingKind)
    requires s in c.runs
    ensures Pause(c, s, id, kind).records.requests == c.records.requests[id := Request(c.runs[s].run.runId, kind, Open)]
  {
    CancelFrame(c, s);
  }

  lemma ConsumeChanges(c: Controller, s: Scope, event: AgentEvent, env: TurnEnv)
    requires ConsumersOk(c.runs, c.consuming)
    ensures ConsumeEvent(c, s, event, env).records.requests == RequestsAfter(c, Consume(s, event, env))
  {
    if s in c.consuming && s in c.runs && !c.runs[s].timedOut {
      var e := Effective(c.runs[s], event);
      var c1 := Observe(c, s, e);
      if e.IsPause() {
        PauseOpens(c1, s, e.pendingRequestId, if e.UserInputRequested? then UserInput else Approval);
      } else {
        ObservedWaitsFor(c, s, e);
        assert Asks(c, Consume(s, event, env)).None?;
        if c1.runs[s].view.status.IsTerminal() {
          EndTurnKeeps(c1, s, env);
        } else {
          ArmFrame(c1, s);
        }
      }
    }
  }

  lemma EndStreamKeeps(c: Controller, s: Scope, now: Stamp)
    ensures StreamEnds(c, s, now).records.requests == c.records.requests
  {
    CancelFrame(c, s);
    if s in c.consuming && s in c.runs {
      EndUnloggedKeeps(CancelTimer(c, s), s, RunTimedOut, TimedOut, now);
      EndUnloggedKeeps(CancelTimer(c, s), s, RunInterrupted, Interrupted, now);
    }
  }

  lemma StopKeeps(c: Controller, s: Scope, user: string, now: Stamp)
    ensures StopRun(c, s, user, now).records.requests == c.records.requests
  {
    if IsActiveFor(c, s, user) && c.runs[s].view.pending.Some? {
      EndUnloggedKeeps(Flag(c, s), s, RunInterrupted, Interrupted, now);
    }
  }

  lemma StartKeeps(c: Controller, s: Scope, user: string, text: string, env: TurnEnv)
    ensures StartTextRun(c, s, user, text, env).records.requests == c.records.requests
  {
    if s !in c.runs {
      var (c1, run, session) := BeginTurn(c, s, user, text, env);
      BeginTurnFrame(c, s, user, text, env);
      ArmFrame(OpenRun(c1, s, NewRun(run, user, session, |c1.futures|)), s);
    }
  }

  lemma AnswerChanges(c: Controller, s: Scope, user: string, kind: PendingKind, id: Option<string>)
    ensures Answer(c, s, user, kind, id).records.requests == RequestsAfter(c, Reply(s, user, kind, id))
  {
    if CanAnswer(c, s, user, kind, id) {
      ArmFrame(AnsweredState(c, s), s);
    }
  }

  lemma OthersKeep(c: Controller, step: Step)
    requires !step.Start? && !step.Consume? && !step.EndStream? && !step.Stop? && !step.Reply?
    ensures Next(c, step).records == c.records
  {
    match step
    case Queue(s, user, m) =>
    case Fire(t) =>
    case Timeout(s, seconds) => ArmFrame(c.(overrides := c.overrides[s := Some(seconds)]), s);
    case TimeoutOff(s) => CancelFrame(c.(overrides := c.overrides[s := None]), s);
    case TimeoutDefault(s) => ArmFrame(c.(overrides := c.overrides - {s}), s);
    case Clear(s) =>
    case ResumeSession(s, user, h) =>
    case NewSession(s, user, workspace, id) =>
  }

  /** Exactly the events that ask open requests and exactly the answers close them, as resolved. In
      particular no run ever ends with a request to cancel. */
  lemma RequestsChange(c: Controller, step: Step)
    requires ConsumersOk(c.runs, c.consuming)
    ensures Next(c, step).records.requests == RequestsAfter(c, step)
  {
    if step.Start? {
      StartKeeps(c, step.scope, step.user, step.text, step.env);
    } else if step.Consume? {
      ConsumeChanges(c, step.scope, step.event, step.env);
    } else if step.EndStream? {
      EndStreamKeeps(c, step.scope, step.now);
    } else if step.Stop? {
      StopKeeps(c, step.scope, step.user, step.now);
    } else if step.Reply? {
      AnswerChanges(c, step.scope, step.user, step.kind, step.id);
    } else {
      OthersKeep(c, step);
    }
  }

  ghost predicate NoneCancelled(requests: Requests) { forall p <- requests :: !requests[p].status.Cancelled? }

  /** While the controller lives, no request is ever recorded as cancelled. */
  lemma {:induction false} RequestsAreNeverCancelled(c: Controller, steps: seq<Step>)
    requires Inv(c) && AllFresh(c, steps) && NoneCancelled(c.records.requests)
    ensures NoneCancelled(Execute(c, steps).records.requests)
  {
    if steps != [] {
      var front := steps[..|steps| - 1];
      AllFreshFront(c, steps);
      ReachableKeepsInv(c, front);
      RequestsAreNeverCancelled(c, front);
      NextCancelsNone(Execute(c, front), steps[|steps| - 1]);
    }
  }

  lemma NextCancelsNone(c: Controller, step: Step)
    requires ConsumersOk(c.runs, c.consuming) && NoneCancelled(c.records.requests)
    ensures NoneCancelled(Next(c, step).records.requests)
  {
    RequestsChange(c, step);
  }

  /** Nothing is consumed while an answer is awaited. */
  lemma WaitingRunsAreNotConsumed(c: Controller, s: Scope, event: AgentEvent, env: TurnEnv, now: Stamp)
    requires Inv(c) && s in c.runs && c.runs[s].view.pending.Some?
    ensures ConsumeEvent(c, s, event, env) == c && StreamEnds(c, s, now) == c
  {
    assert s !in c.consuming;
  }

  /** An accepted answer has closed the request as resolved, and the run goes on, with its timer armed if
      there is a timeout; a refused one changes nothing. */
  lemma AnswersResolve(c: Controller, s: Scope, user: string, kind: PendingKind, id: Option<string>)
    requires Inv(c)
    ensures var c1 := Answer(c, s, user, kind, id);
            if CanAnswer(c, s, user, kind, id) then
              var p := c.runs[s].view.pending.value.pendingRequestId;
              && Get(c.records.requests, p).Some? && c.records.requests[p].status.Open?
              && Get(c1.records.requests, p) == Some(c.records.requests[p].(status := Resolved))
              && s !in c.consuming && s in c1.consuming && s in c1.runs
              && c1.runs[s].view.pending.None? && c1.runs[s].view.status.Running?
              && (IdleTimeout(c.settings, c.overrides, s).Some? <==>
                    c1.runs[s].timer.Some? && c1.runs[s].timer.value in c1.timers.live)
            else c1 == c
  {
    if CanAnswer(c, s, user, kind, id) {
      assert RunOk(c.runs[s], c.records);
      ArmFrame(AnsweredState(c, s), s);
      CancelFrame(AnsweredState(c, s), s);
    }
  }
}
