/** The controller's methods (core/run_controller.py): each takes the step of ControllerModel, and so keeps
    every invariant that is proved of the runs of that machine. */
module RunControllers {
  import opened Wrappers
  import opened AgentEvents
  import opened RunViews
  import opened MessageQueue
  import opened ControllerModel
  import opened ControllerInvariants
  import opened ControllerQueues
  import opened ControllerLocality
  import opened ControllerRequests
  import opened ControllerRecords
  import opened ControllerFlags
  import opened ControllerTimers
  import opened ControllerSessions

  /** The state of some run of the machine. */
  ghost predicate Reachable(c: Controller) {
    exists settings, steps ::
      AllFresh(NewController(settings), steps) && c == Execute(NewController(settings), steps)
  }

  lemma NewIsReachable(settings: Settings)
    ensures Reachable(NewController(settings))
  {
    assert Execute(NewController(settings), []) == NewController(settings);
    assert AllFresh(NewController(settings), []);
  }

  lemma NextIsReachable(c: Controller, step: Step)
    requires Reachable(c) && FreshIds(c, step)
    ensures Reachable(Next(c, step))
  {
    var settings, steps :| AllFresh(NewController(settings), steps) && c == Execute(NewController(settings), steps);
    AllFreshAppend(NewController(settings), steps, step);
  }

  /** What holds of every such state. */
  lemma ReachableGives(c: Controller)
    requires Reachable(c)
    ensures Inv(c) && QueuesOk(c) && RecordsOk(c)
  {
    var settings, steps :| AllFresh(NewController(settings), steps) && c == Execute(NewController(settings), steps);
    ControllersStartOk(settings);
    ControllersStartEmpty(settings);
    MessagesConserved(NewController(settings), steps);
    FinalStatusIff(settings, steps);
  }

  /** What is called on the stream of a turn to answer its request. */
  datatype AgentCall =
    | GiveText(turnId: string, text: string)
    | GiveDecision(turnId: string, requestId: string, decision: string)

  // What the callers of the methods can rely on.

  /** After a stop: a run at work is marked, one that waits for an answer is over, its request left open. */
  ghost predicate Stopped(c: Controller, c1: Controller, s: Scope)
    requires s in c.runs
  {
    var (a, log) := (c.runs[s], Get(c.records.logs, c.runs[s].run.runId));
    && log.Some? && c1.records.requests == c.records.requests
    && (s in c.consuming ==>
          MarkedStopped(c1, s, a.completion, a.run.runId, log.value) && c1.runs[s].queue == [])
    && (a.view.pending.Some? ==> EndedAs(c1, a.completion, a.run.runId, log.value, Interrupted))
  }

  lemma StopsAsPromised(c: Controller, s: Scope, user: string, now: Stamp)
    requires Reachable(c) && IsActiveFor(c, s, user) && !c.runs[s].timedOut
    ensures Stopped(c, StopRun(c, s, user, now), s)
  {
    ReachableGives(c);
    StopMarks(c, s, user, now);
  }

  /** After an answer: the request is resolved, and the run goes on, watched if a timeout is in force. */
  ghost predicate AnswerTaken(c: Controller, c1: Controller, s: Scope)
    requires s in c.runs && c.runs[s].view.pending.Some?
  {
    var p := c.runs[s].view.pending.value.pendingRequestId;
    && Get(c.records.requests, p).Some? && c.records.requests[p].status.Open?
    && Get(c1.records.requests, p) == Some(c.records.requests[p].(status := Resolved))
    && s in c1.consuming && s in c1.runs && c1.runs[s].view.pending.None? && c1.runs[s].view.status.Running?
    && ArmedAsSet(c1, s)
  }

  lemma AnswersAsPromised(c: Controller, s: Scope, user: string, kind: PendingKind, id: Option<string>)
    requires Reachable(c) && CanAnswer(c, s, user, kind, id)
    ensures AnswerTaken(c, Answer(c, s, user, kind, id), s)
  {
    ReachableGives(c);
    AnswersResolve(c, s, user, kind, id);
    GoingOnArms(c, Reply(s, user, kind, id), s);
  }

  /** After the end of the stream: a flagged run is over, and reported so; any other is left behind. */
  ghost predicate StreamOver(c: Controller, c1: Controller, s: Scope)
    requires s in c.runs
  {
    var a := c.runs[s];
    if a.timedOut then Gone(c1, a.run.runId) && Reported(c1, a.completion, a.run.runId, TimedOut)
    else if a.stopRequested then Gone(c1, a.run.runId) && Reported(c1, a.completion, a.run.runId, Interrupted)
    else Abandoned(c1, s, a.run.runId)
  }

  lemma EndsAsPromised(c: Controller, s: Scope, now: Stamp)
    requires Reachable(c) && s in c.runs && s in c.consuming
    ensures StreamOver(c, StreamEnds(c, s, now), s)
  {
    ReachableGives(c);
    InvGives(c, s);
    CancelFrame(c, s);
    UnloggedResult(c, s, RunTimedOut, TimedOut, now);
    UnloggedResult(c, s, RunInterrupted, Interrupted, now);
    AbandonedIff(c, s, now);
  }

  lemma DisablesAsPromised(c: Controller, s: Scope)
    requires Reachable(c)
    ensures NoTimer(DisableTimeout(c, s), s)
  {
    ReachableGives(c);
    QuietingDisarms(c, TimeoutOff(s), s);
  }

  // Consumption.

  /** The consumer of s stops at this event: it asks something, or ends the turn. */
  predicate StopsAt(c: Controller, s: Scope, event: AgentEvent) {
    && s in c.runs && !c.runs[s].timedOut
    && var e := Effective(c.runs[s], event);
       (e.IsPause() || ReduceRunView(c.runs[s].view, e).status.IsTerminal())
  }

  /** What the consumer then has to say: the waiting run, or the completed one; nothing as long as a turn from
      the queue takes its place. */
  ghost predicate Says(c: Controller, c1: Controller, s: Scope, event: AgentEvent, answer: Option<Run>)
    requires s in c.runs
  {
    var (a, e) := (c.runs[s], Effective(c.runs[s], event));
    if e.IsPause() then
      && s in c1.runs && answer == Some(c1.runs[s].run)
      && answer.value == a.run.(status := if e.UserInputRequested? then PendingUserInput else PendingApproval)
    else if a.queue != [] then answer.None? && s in c1.runs && s in c1.consuming &&
      c1.runs[s].completion == a.completion
    else
      && answer.Some? && answer.value.runId == a.run.runId && answer.value.status == ReduceRunView(a.view, e).status
      && (a.completion < |c.futures| && c.futures[a.completion].None? ==>
           a.completion < |c1.futures| && c1.futures[a.completion] == answer)
  }

  /** How an observed event is dealt with. */
  function Digested(c: Controller, s: Scope, e: AgentEvent, env: TurnEnv): Controller
    requires s in c.runs
  {
    if e.UserInputRequested? then Pause(c, s, e.pendingRequestId, UserInput)
    else if e.ApprovalRequested? then Pause(c, s, e.pendingRequestId, Approval)
    else if c.runs[s].view.status.IsTerminal() then EndTurn(c, s, env)
    else ArmTimer(c, s)
  }

  /** The end of a turn says nothing if the next one is started from the queue, else it says the run. */
  ghost predicate EndSays(c: Controller, c1: Controller, s: Scope, answer: Option<Run>)
    requires s in c.runs
  {
    var a := c.runs[s];
    if a.queue != [] then
      answer.None? && s in c1.runs && c1.consuming == c.consuming && c1.runs[s].completion == a.completion
    else
      && answer.Some? && answer.value.runId == a.run.runId && answer.value.status == a.view.status
      && (a.completion < |c.futures| && c.futures[a.completion].None? ==>
           a.completion < |c1.futures| && c1.futures[a.completion] == answer)
  }

  lemma EndTurnSays(c: Controller, s: Scope, env: TurnEnv)
    requires s in c.runs
    ensures var (a, c1) := (c.runs[s], EndTurn(c, s, env));
            EndSays(c, c1, s, if a.queue != [] then None
                    else Some(a.run.(status := a.view.status, updatedAt := env.now)))
  {
    var c1 := CancelTimer(c, s);
    CancelFrame(c, s);
    if c1.runs[s].queue != [] {
      var merged := PopNext(c1.runs[s].queue, MERGE_WINDOW).value;
      BeginTurnFrame(c1, s, merged.userId, merged.prompt, env);
    } else {
      DropFrame(c1, s);
      CancelFrame(DropQueue(c1, s), s);
    }
  }

  lemma PauseFrames(c: Controller, s: Scope, id: string, kind: PendingKind)
    requires s in c.runs
    ensures var c1 := Pause(c, s, id, kind);
            && s in c1.runs
            && c1.runs[s].run == c.runs[s].run.(status := if kind.UserInput? then PendingUserInput else PendingApproval)
  {
    CancelFrame(c, s);
  }

  /** What follows an event, and what is said then, put in terms of the state before it. */
  lemma ConsumeSays(c: Controller, s: Scope, event: AgentEvent, env: TurnEnv)
    requires s in c.runs && s in c.consuming && !c.runs[s].timedOut
    ensures var (e, c1) := (Effective(c.runs[s], event), ConsumeEvent(c, s, event, env));
            && var c0 := Observe(c, s, e);
            && c1 == Digested(c0, s, e, env)
            && (e.IsPause() ==> s in c1.runs && Says(c, c1, s, event, Some(c1.runs[s].run)))
            && (!e.IsPause() && c0.runs[s].view.status.IsTerminal() ==>
                 forall answer :: EndSays(c0, c1, s, answer) ==> Says(c, c1, s, event, answer))
  {
    var e := Effective(c.runs[s], event);
    if e.IsPause() {
      PauseFrames(Observe(c, s, e), s, e.pendingRequestId, if e.UserInputRequested? then UserInput else Approval);
    }
  }

  /** A started turn has become the active run of its chat. */
  function Entered(c: Controller, s: Scope, user: string, text: string, env: TurnEnv): Controller {
    var (c1, run, session) := BeginTurn(c, s, user, text, env);
    OpenRun(c1, s, NewRun(run, user, session, |c1.futures|))
  }

  /** No other chat waits on a request that these events open. */
  ghost predicate RequestsAreNew(runs: map<Scope, ActiveRun>, s: Scope, events: seq<AgentEvent>) {
    forall e <- events :: e.IsPause() ==> NewRequest(runs, s, e.pendingRequestId)
  }

  ghost predicate NewRequest(runs: map<Scope, ActiveRun>, s: Scope, id: string) {
    forall s1 <- runs :: s1 != s && runs[s1].view.pending.Some? ==> runs[s1].view.pending.value.pendingRequestId != id
  }

  lemma NewRequestsAreFresh(c: Controller, s: Scope, events: seq<AgentEvent>, n: nat, env: TurnEnv)
    requires n < |events| && env.runId !in c.records.logs && RequestsAreNew(c.runs, s, events)
    ensures FreshIds(c, Consume(s, events[n], env))
  {
    assert events[n] in events;
  }

  /** As long as the consumer goes on, no id that was new gets used. */
  lemma GoingOnKeepsNew(c: Controller, s: Scope, events: seq<AgentEvent>, n: nat, env: TurnEnv)
    requires Reachable(c) && s in c.runs && n < |events| && env.runId !in c.records.logs
    requires RequestsAreNew(c.runs, s, events)
    requires !StopsAt(c, s, events[n])
    ensures var c1 := ConsumeEvent(c, s, events[n], env);
            env.runId !in c1.records.logs && RequestsAreNew(c1.runs, s, events)
  {
    ReachableGives(c);
    InvGives(c, s);
    GoesOnFrame(c, s, events[n], env);
    forall e | e in events && e.IsPause()
      ensures NewRequest(ConsumeEvent(c, s, events[n], env).runs, s, e.pendingRequestId)
    {
      assert NewRequest(c.runs, s, e.pendingRequestId);
    }
  }

  lemma GoesOnFrame(c: Controller, s: Scope, event: AgentEvent, env: TurnEnv)
    requires s in c.runs && c.runs[s].run.runId in c.records.logs && !StopsAt(c, s, event)
    ensures var c1 := ConsumeEvent(c, s, event, env);
            && c1.records.logs.Keys == c.records.logs.Keys
            && s in c1.runs && c1.runs == c.runs[s := c1.runs[s]]
  {
    var c1 := Observe(c, s, Effective(c.runs[s], event));
    assert c1.records.logs.Keys == c.records.logs.Keys;
    ArmFrame(c1, s);
  }

  /** The steps of consuming some events, with the same answers at hand for the end of the turn. */
  ghost function Consumption(s: Scope, events: seq<AgentEvent>, env: TurnEnv): seq<Step> {
    if events == [] then [] else Consumption(s, events[..|events| - 1], env) + [Consume(s, events[|events| - 1], env)]
  }

  ghost function Consumed(c: Controller, s: Scope, events: seq<AgentEvent>, env: TurnEnv): Controller {
    Execute(c, Consumption(s, events, env))
  }

  lemma ConsumedAppend(c: Controller, s: Scope, events: seq<AgentEvent>, n: nat, env: TurnEnv)
    requires n < |events|
    ensures Consumed(c, s, events[..n + 1], env) == Next(Consumed(c, s, events[..n], env), Consume(s, events[n], env))
  {
    assert events[..n + 1][..n] == events[..n];
    var front := Consumption(s, events[..n], env);
    assert (front + [Consume(s, events[n], env)])[..|front|] == front;
  }

  class RunController {
    var settings: Settings
    var activeRuns: map<Scope, ActiveRun>
    var freshScopes: set<Scope>
    var selectedSessions: map<Scope, Session>
    var overrides: map<Scope, Option<int>>
    /** What the collaborators hold: waiting consumers, futures, the timers of the scheduler, the records. */
    var consuming: set<Scope>
    var futures: seq<Option<Run>>
    var timers: map<nat, Scope>
    var nextTimer: nat
    var records: Records
    ghost var history: History

    ghost function State(): Controller
      reads this
    {
      Controller(settings, activeRuns, Sessions(freshScopes, selectedSessions), overrides, consuming, futures,
                 Timers(timers, nextTimer), records, history)
    }

    ghost predicate Valid()
      reads this
    {
      Reachable(State())
    }

    /** The invariants of a valid controller. */
    lemma Promises()
      requires Valid()
      ensures Inv(State()) && QueuesOk(State()) && RecordsOk(State())
    {
      ReachableGives(State());
    }

    constructor (settings: Settings)
      ensures Valid() && State() == NewController(settings)
    {
      this.settings := settings;
      activeRuns, freshScopes, selectedSessions, overrides := map[], {}, map[], map[];
      consuming, futures, timers, nextTimer, records := {}, [], map[], 0, Records(map[], map[], map[]);
      history := History([], [], [], [], {});
      new;
      NewIsReachable(settings);
    }

    /** Taking a step keeps a controller valid. */
    twostate lemma KeepsValid(step: Step)
      requires old(Valid()) && FreshIds(old(State()), step) && State() == Next(old(State()), step)
      ensures Valid()
    {
      NextIsReachable(old(State()), step);
    }

    // Timers.

    method CancelIdleTimeout(s: Scope)
      modifies this
      ensures State() == CancelTimer(old(State()), s)
    {
      if s !in activeRuns || activeRuns[s].timer.None? {
        return;
      }
      timers := timers - {activeRuns[s].timer.value};
      activeRuns := activeRuns[s := activeRuns[s].(timer := None)];
    }

    method ArmIdleTimeout(s: Scope)
      modifies this
      ensures State() == ArmTimer(old(State()), s)
    {
      if s !in activeRuns {
        return;
      }
      CancelIdleTimeout(s);
      if IdleTimeout(settings, overrides, s).None? {
        return;
      }
      timers := timers[nextTimer := s];
      activeRuns := activeRuns[s := activeRuns[s].(timer := Some(nextTimer))];
      nextTimer := nextTimer + 1;
    }

    method SetIdleTimeout(s: Scope, seconds: int)
      requires Valid()
      modifies this
      ensures Valid() && State() == Next(old(State()), Timeout(s, seconds))
      ensures s in activeRuns ==> Armed(State(), s)
    {
      ghost var c := State();
      overrides := overrides[s := Some(seconds)];
      if s in activeRuns {
        ArmArms(State(), s);
      }
      ArmIdleTimeout(s);
      assert State() == SetTimeout(c, s, seconds);
      KeepsValid(Timeout(s, seconds));
    }

    method DisableIdleTimeout(s: Scope)
      requires Valid()
      modifies this
      ensures Valid() && State() == Next(old(State()), TimeoutOff(s)) && NoTimer(State(), s)
    {
      ghost var c := State();
      DisablesAsPromised(c, s);
      overrides := overrides[s := None];
      CancelIdleTimeout(s);
      assert State() == DisableTimeout(c, s);
      KeepsValid(TimeoutOff(s));
    }

    method ClearIdleTimeoutOverride(s: Scope)
      requires Valid()
      modifies this
      ensures Valid() && State() == Next(old(State()), TimeoutDefault(s))
      ensures s in activeRuns ==> ArmedAsSet(State(), s)
    {
      ghost var c := State();
      overrides := overrides - {s};
      if s in activeRuns {
        ArmArms(State(), s);
      }
      ArmIdleTimeout(s);
      assert State() == DefaultTimeout(c, s);
      KeepsValid(TimeoutDefault(s));
    }

    /** The scheduler fires timer t. */
    method HandleIdleTimeout(t: nat)
      requires Valid()
      modifies this
      ensures Valid() && State() == Next(old(State()), Fire(t))
      ensures t in old(timers) ==>
                var s := old(timers)[t];
                s in old(activeRuns) && old(activeRuns)[s].view.pending.None? && !old(activeRuns)[s].timedOut ==>
                  s in activeRuns && activeRuns[s].timedOut && activeRuns[s].queue == []
    {
      if t in timers {
        var s := timers[t];
        timers := timers - {t};
        if s in activeRuns && !activeRuns[s].timedOut && activeRuns[s].view.pending.None? {
          FiringEmptiesQueue(old(State()), t, s);
          activeRuns := activeRuns[s := activeRuns[s].(timedOut := true)];
          DiscardQueue(s);
          assert State() == TimerFires(old(State()), t);
        }
      }
      KeepsValid(Fire(t));
    }

    // Sessions.

    method SelectSession(s: Scope, session: Session, isNew: bool)
      modifies this
      ensures State() == Select(old(State()), s, session, isNew)
    {
      selectedSessions := selectedSessions[s := session];
      if isNew {
        history := history.(created := history.created + [session]);
      }
    }

    method SessionFor(s: Scope, user: string, env: TurnEnv) returns (session: Session)
      modifies this
      ensures (State(), session) == SessionForNewTurn(old(State()), s, user, env)
    {
      session := MakeSession(settings, s, user, env.sessionId);
      if s in freshScopes {
        freshScopes := freshScopes - {s};
        SelectSession(s, session, true);
      } else if s in selectedSessions {
        session := selectedSessions[s];
      } else {
        SelectSession(s, session, !env.reused);
      }
    }

    /** A session, an agent turn in it, and the record of its run. */
    method StartTurn(s: Scope, user: string, prompt: string, env: TurnEnv) returns (run: Run, session: Session)
      modifies this
      ensures (State(), run, session) == BeginTurn(old(State()), s, user, prompt, env)
    {
      session := SessionFor(s, user, env);
      if env.notFound {
        session := MakeSession(settings, s, user, env.replacementId);
        SelectSession(s, session, true);
      }
      run := Run(env.runId, s, user, session.id, session.agentName, env.turnId, Running, env.now, env.now);
      if env.runId !in records.logs {
        records := records.(logs := records.logs[env.runId := []]);
      }
      records := records.(statuses := records.statuses[env.runId := Running]);
      history := history.(turns := history.turns + [StartedTurn(s, env.runId, prompt, session, settings)]);
    }

    method ClearSelectedSession(s: Scope)
      requires Valid()
      modifies this
      ensures Valid() && State() == Next(old(State()), Clear(s))
    {
      ghost var c := State();
      ForgetSelection(s, true);
      assert State() == ClearSelected(c, s);
      KeepsValid(Clear(s));
    }

    method ForgetSelection(s: Scope, renew: bool)
      modifies this`freshScopes, this`selectedSessions
      ensures selectedSessions == old(selectedSessions) - {s}
      ensures freshScopes == if renew then old(freshScopes) + {s} else old(freshScopes) - {s}
    {
      selectedSessions := selectedSessions - {s};
      freshScopes := if renew then freshScopes + {s} else freshScopes - {s};
    }

    /** False where the source refuses: the session does not agree with the settings. */
    method ResumeHistorical(s: Scope, user: string, h: Historical) returns (ok: bool)
      requires Valid()
      modifies this
      ensures Valid() && State() == Next(old(State()), ResumeSession(s, user, h))
      ensures if ok then s in selectedSessions && selectedSessions[s].id == h.id &&
              Matches(selectedSessions[s], s, settings)
              else State() == old(State())
      ensures ok == Compatible(settings, h)
    {
      ok := Compatible(settings, h);
      if ok {
        freshScopes := freshScopes - {s};
        var mode := if h.accessMode.Some? then h.accessMode.value else settings.accessMode;
        selectedSessions := selectedSessions[s := Session(h.id, s, user, h.agentName, h.workspace, mode)];
      }
      KeepsValid(ResumeSession(s, user, h));
    }

    /** Clears the selection, moves the workspace if asked to, and selects a new session. */
    method CreateSelectedSession(s: Scope, user: string, workspace: Option<string>, id: string)
      requires Valid()
      modifies this
      ensures Valid() && State() == Next(old(State()), NewSession(s, user, workspace, id))
      ensures s in selectedSessions && selectedSessions[s].id == id && Matches(selectedSessions[s], s, settings)
      ensures workspace.Some? ==> settings.workspace == workspace.value
    {
      ForgetSelection(s, false);
      if workspace.Some? {
        settings := settings.(workspace := workspace.value);
      }
      SelectSession(s, MakeSession(settings, s, user, id), true);
      KeepsValid(NewSession(s, user, workspace, id));
    }

    // Runs.

    /** Refused while a run is active; what the consumption that follows says is what its caller gets. */
    method StartRun(s: Scope, user: string, text: string, env: TurnEnv) returns (ok: bool)
      requires Valid() && FreshIds(State(), Start(s, user, text, env))
      modifies this
      ensures Valid() && State() == Next(old(State()), Start(s, user, text, env)) && ok == (s !in old(activeRuns))
      ensures ok ==> s in activeRuns && s in consuming && activeRuns[s].view == InitialRunView(env.runId)
                     && ArmedAsSet(State(), s)
    {
      ok := s !in activeRuns;
      if ok {
        EnterRun(s, user, text, env);
        ArmArms(State(), s);
        ArmFrame(State(), s);
        ArmIdleTimeout(s);
      }
      KeepsValid(Start(s, user, text, env));
    }

    /** A turn is started, and its run becomes the active one. */
    method EnterRun(s: Scope, user: string, text: string, env: TurnEnv)
      requires s !in activeRuns
      modifies this
      ensures State() == Entered(old(State()), s, user, text, env)
      ensures s in activeRuns && s in consuming && activeRuns[s].view == InitialRunView(env.runId)
    {
      var run, session := StartTurn(s, user, text, env);
      activeRuns := activeRuns[s := NewRun(run, user, session, |futures|)];
      futures := futures + [None];
      consuming := consuming + {s};
      history := history.(accepted := history.accepted + [[]], fates := history.fates + [[]]);
    }

    /** The messages that wait are dropped. */
    method DiscardQueue(s: Scope)
      requires s in activeRuns
      modifies this
      ensures State() == DropQueue(old(State()), s) && s in activeRuns
    {
      var a := activeRuns[s];
      if a.queue != [] {
        history := AddFate(history, a.completion, Dropped(a.queue, a.stopRequested, a.timedOut));
      }
      activeRuns := activeRuns[s := a.(queue := [])];
      assert a.queue == [] ==> activeRuns == old(activeRuns);
    }

    method Finish(s: Scope, status: RunStatus, now: Stamp) returns (run: Run)
      requires s in activeRuns
      modifies this
      ensures State() == FinishRun(old(State()), s, status, now)
      ensures run == old(activeRuns)[s].run.(status := status, updatedAt := now)
    {
      DropFrame(State(), s);
      CancelFrame(DropQueue(State(), s), s);
      DiscardQueue(s);
      CancelIdleTimeout(s);
      run := Close(s, status, now);
    }

    /** The run leaves the map of active runs, and its callers are told. */
    method Close(s: Scope, status: RunStatus, now: Stamp) returns (run: Run)
      requires s in activeRuns
      modifies this
      ensures State() == CloseRun(old(State()), s, status, now)
      ensures run == old(activeRuns)[s].run.(status := status, updatedAt := now)
    {
      var a := activeRuns[s];
      if a.view.pending.Some? {
        records := CloseRequest(records, a.view.pending.value.pendingRequestId, Cancelled);
      }
      records := records.(statuses := records.statuses[a.run.runId := status]);
      activeRuns := activeRuns - {s};
      consuming := consuming - {s};
      run := a.run.(status := status, updatedAt := now);
      if a.completion < |futures| && futures[a.completion].None? {
        futures := futures[a.completion := Some(run)];
      }
    }

    method StartQueuedTurn(s: Scope, env: TurnEnv)
      requires s in activeRuns && activeRuns[s].queue != []
      modifies this
      ensures State() == StartQueuedNextTurn(old(State()), s, env)
    {
      var popped := PopNextMergedPrompt(activeRuns[s].queue, MERGE_WINDOW);
      var merged := popped.value;
      ghost var before, turn := activeRuns[s].queue, |history.turns|;
      ghost var batch :| IsFirstBatch(before, batch, merged.remaining, MERGE_WINDOW) &&
        merged == MergePrompt(batch, merged.remaining);
      PopIsPopNext(before, batch, merged.remaining, MERGE_WINDOW);
      var run, session := StartTurn(s, merged.userId, merged.prompt, env);
      BeginTurnFrame(old(State()), s, merged.userId, merged.prompt, env);
      var a := activeRuns[s];
      history :=
        AddFate(history, a.completion, Sent(before[..BatchSize(before, MERGE_WINDOW)], merged.remaining, turn)).(
        replaced := history.replaced + {a.run.runId});
      activeRuns :=
        activeRuns[s := a.(run := run, view := InitialRunView(run.runId), user := merged.userId, session := session,
                                       queue := merged.remaining, stopRequested := false)];
    }

    method OpenPendingRequest(s: Scope, id: string, kind: PendingKind)
      requires s in activeRuns
      modifies this
      ensures State() == Pause(old(State()), s, id, kind)
    {
      CancelIdleTimeout(s);
      var a := activeRuns[s];
      activeRuns :=
        activeRuns[s := a.(run := a.run.(status := if kind.UserInput? then PendingUserInput else PendingApproval))];
      records := records.(requests := records.requests[id := Request(a.run.runId, kind, Open)]);
      consuming := consuming - {s};
    }

    method EndOfTurn(s: Scope, env: TurnEnv) returns (answer: Option<Run>)
      requires s in activeRuns
      modifies this
      ensures State() == EndTurn(old(State()), s, env)
      ensures EndSays(old(State()), State(), s, answer)
    {
      EndTurnSays(State(), s, env);
      CancelFrame(State(), s);
      CancelIdleTimeout(s);
      if activeRuns[s].queue != [] {
        StartQueuedTurn(s, env);
        answer := None;
      } else {
        var run := Finish(s, activeRuns[s].view.status, env.now);
        answer := Some(run);
      }
    }

    method Record(s: Scope, e: AgentEvent)
      requires s in activeRuns
      modifies this
      ensures State() == Observe(old(State()), s, e)
    {
      var a := activeRuns[s];
      records := LogEvent(records, a.run.runId, e);
      activeRuns := activeRuns[s := a.(view := ReduceRunView(a.view, e))];
    }

    /** What the consumer makes of an event once it is recorded; `done` tells that it returns. */
    method Digest(s: Scope, e: AgentEvent, env: TurnEnv) returns (done: bool, answer: Option<Run>)
      requires s in activeRuns
      modifies this
      ensures State() == Digested(old(State()), s, e, env)
      ensures done <==> e.IsPause() || old(activeRuns)[s].view.status.IsTerminal()
      ensures if e.IsPause() then s in activeRuns && answer == Some(activeRuns[s].run)
              else if done then EndSays(old(State()), State(), s, answer)
              else answer.None? && s in activeRuns && consuming == old(consuming)
    {
      done, answer := true, None;
      if e.UserInputRequested? {
        PauseFrames(State(), s, e.pendingRequestId, UserInput);
        OpenPendingRequest(s, e.pendingRequestId, UserInput);
        answer := Some(activeRuns[s].run);
      } else if e.ApprovalRequested? {
        PauseFrames(State(), s, e.pendingRequestId, Approval);
        OpenPendingRequest(s, e.pendingRequestId, Approval);
        answer := Some(activeRuns[s].run);
      } else if activeRuns[s].view.status.IsTerminal() {
        answer := EndOfTurn(s, env);
      } else {
        done := false;
        ArmFrame(State(), s);
        ArmIdleTimeout(s);
      }
    }

    /** One event of the stream. The consumer returns exactly at a question or at the end of the turn, and
        then says what its callers are to be told. */
    method ConsumeOne(s: Scope, event: AgentEvent, env: TurnEnv) returns (done: bool, answer: Option<Run>)
      requires Valid() && s in activeRuns && s in consuming && FreshIds(State(), Consume(s, event, env))
      modifies this
      ensures Valid() && State() == Next(old(State()), Consume(s, event, env))
      ensures done <==> StopsAt(old(State()), s, event)
      ensures if done then Says(old(State()), State(), s, event, answer)
              else answer.None? && s in activeRuns && s in consuming
    {
      done, answer := false, None;
      if !activeRuns[s].timedOut {
        done, answer := TakeIn(s, event, env);
      }
      KeepsValid(Consume(s, event, env));
    }

    /** An event that is not ignored, or the interruption in its place. */
    method TakeIn(s: Scope, event: AgentEvent, env: TurnEnv) returns (done: bool, answer: Option<Run>)
      requires s in activeRuns && s in consuming && !activeRuns[s].timedOut
      modifies this
      ensures State() == ConsumeEvent(old(State()), s, event, env)
      ensures done <==> StopsAt(old(State()), s, event)
      ensures if done then Says(old(State()), State(), s, event, answer)
              else answer.None? && s in activeRuns && s in consuming
    {
      ConsumeSays(State(), s, event, env);
      var e := if activeRuns[s].stopRequested then RunInterrupted else event;
      Record(s, e);
      done, answer := Digest(s, e, env);
    }

    /** The consumer's loop over the events that are there: it takes them one step each, up to and with the
        first one it stops at. */
    method ConsumeAvailable(
        s: Scope, events: seq<AgentEvent>, env: TurnEnv) returns (n: nat, done: bool, answer: Option<Run>)
      requires Valid() && s in activeRuns && s in consuming && env.runId !in records.logs
      requires RequestsAreNew(activeRuns, s, events)
      modifies this
      ensures Valid() && n <= |events| && State() == Consumed(old(State()), s, events[..n], env)
      ensures forall i :: 0 <= i < n ==>
                (StopsAt(Consumed(old(State()), s, events[..i], env), s, events[i]) <==> done && i == n - 1)
      ensures if done then n > 0 else n == |events| && answer.None?
    {
      n, done, answer := 0, false, None;
      while n < |events| && !done
        invariant n <= |events| && Valid() && State() == Consumed(old(State()), s, events[..n], env)
        invariant if done then n > 0 else answer.None?
        invariant !done ==>
                    && s in activeRuns && s in consuming && env.runId !in records.logs
                    && RequestsAreNew(activeRuns, s, events)
        invariant forall i :: 0 <= i < n ==>
                    (StopsAt(Consumed(old(State()), s, events[..i], env), s, events[i]) <==> done && i == n - 1)
      {
        ghost var c := State();
        NewRequestsAreFresh(c, s, events, n, env);
        ConsumedAppend(old(State()), s, events, n, env);
        done, answer := ConsumeOne(s, events[n], env);
        if !done {
          GoingOnKeepsNew(c, s, events, n, env);
        }
        n := n + 1;
      }
    }

    method FinishUnlogged(s: Scope, e: AgentEvent, status: RunStatus, now: Stamp)
      requires s in activeRuns
      modifies this
      ensures State() == EndUnlogged(old(State()), s, e, status, now)
    {
      activeRuns := activeRuns[s := activeRuns[s].(view := ReduceRunView(activeRuns[s].view, e))];
      var run := Finish(s, status, now);
    }

    /** The stream of the turn is exhausted; `ok` is false where the consumer fails for want of a terminal event. */
    method StreamExhausted(s: Scope, now: Stamp) returns (ok: bool)
      requires Valid() && s in activeRuns && s in consuming
      modifies this
      ensures Valid() && State() == Next(old(State()), EndStream(s, now)) && StreamOver(old(State()), State(), s)
      ensures ok == (old(activeRuns)[s].timedOut || old(activeRuns)[s].stopRequested)
    {
      ok := true;
      EndsAsPromised(State(), s, now);
      CancelFrame(State(), s);
      CancelIdleTimeout(s);
      if activeRuns[s].timedOut {
        FinishUnlogged(s, RunTimedOut, TimedOut, now);
      } else if activeRuns[s].stopRequested {
        FinishUnlogged(s, RunInterrupted, Interrupted, now);
      } else {
        ok := false;
        consuming := consuming - {s};
      }
      KeepsValid(EndStream(s, now));
    }

    // Commands about the active run: false, and nothing changed, where the source refuses them.

    method StopRun(s: Scope, user: string, now: Stamp) returns (ok: bool)
      requires Valid()
      modifies this
      ensures Valid() && State() == Next(old(State()), Stop(s, user, now)) && ok == IsActiveFor(old(State()), s, user)
      ensures ok && !old(activeRuns)[s].timedOut ==> Stopped(old(State()), State(), s)
      ensures !ok ==> State() == old(State())
    {
      ok := s in activeRuns && activeRuns[s].user == user;
      if ok {
        FlagFrame(State(), s);
        if !activeRuns[s].timedOut {
          StopsAsPromised(State(), s, user, now);
        }
        activeRuns := activeRuns[s := activeRuns[s].(stopRequested := true)];
        DiscardQueue(s);
        if activeRuns[s].view.pending.Some? {
          FinishUnlogged(s, RunInterrupted, Interrupted, now);
        }
      }
      KeepsValid(Stop(s, user, now));
    }

    method QueueMessage(s: Scope, user: string, m: QueuedMessage) returns (ok: bool)
      requires Valid()
      modifies this
      ensures Valid() && State() == Next(old(State()), Queue(s, user, m))
      ensures ok == (IsActiveFor(old(State()), s, user) && old(activeRuns)[s].view.pending.None?)
      ensures if ok then s in activeRuns &&
              activeRuns[s] == old(activeRuns)[s].(queue := old(activeRuns)[s].queue + [m])
              else State() == old(State())
    {
      ok := s in activeRuns && activeRuns[s].user == user && activeRuns[s].view.pending.None?;
      if ok {
        var a := activeRuns[s];
        activeRuns := activeRuns[s := a.(queue := a.queue + [m])];
        if a.completion < |history.accepted| {
          history := history.(accepted := history.accepted[a.completion := history.accepted[a.completion] + [m]]);
        }
      }
      KeepsValid(Queue(s, user, m));
    }

    method ResolvePendingRequest(s: Scope)
      requires s in activeRuns && activeRuns[s].view.pending.Some?
      modifies this
      ensures State() == ResolvePending(old(State()), s)
    {
      var a := activeRuns[s];
      records := CloseRequest(records, a.view.pending.value.pendingRequestId, Resolved);
      activeRuns := activeRuns[s := a.(view := a.view.(status := Running, pending := None))];
      consuming := consuming + {s};
      ArmIdleTimeout(s);
    }

    /** `taken` is whether the agent takes the answer; if it raises, nothing changes. */
    method AnswerUserInput(s: Scope, user: string, text: string, taken: bool)
        returns (ok: bool, call: Option<AgentCall>)
      requires Valid()
      modifies this
      ensures var c := old(State());
              && call == (if CanAnswer(c, s, user, UserInput, None) then Some(GiveText(c.runs[s].run.turnId, text))
                          else None)
              && ok == (call.Some? && taken)
              && State() == (if taken then Next(c, Reply(s, user, UserInput, None)) else c)
      ensures Valid() && if ok then AnswerTaken(old(State()), State(), s) else State() == old(State())
    {
      ok, call := false, None;
      if s in activeRuns && activeRuns[s].user == user && activeRuns[s].view.pending.Some?
        && activeRuns[s].view.pending.value.kind.UserInput?
      {
        ok, call := taken, Some(GiveText(activeRuns[s].run.turnId, text));
      }
      if ok {
        AnswersAsPromised(State(), s, user, UserInput, None);
        ResolvePendingRequest(s);
      }
      if taken {
        KeepsValid(Reply(s, user, UserInput, None));
      }
    }

    /** The decision goes to the agent as it is; see AgentDecisions for what the agents make of it. */
    method AnswerApproval(s: Scope, user: string, id: string, decision: string, taken: bool)
        returns (ok: bool, call: Option<AgentCall>)
      requires Valid()
      modifies this
      ensures var c := old(State());
              && call == (if CanAnswer(c, s, user, Approval, Some(id))
                          then Some(GiveDecision(c.runs[s].run.turnId, id, decision)) else None)
              && ok == (call.Some? && taken)
              && State() == (if taken then Next(c, Reply(s, user, Approval, Some(id))) else c)
      ensures Valid() && if ok then AnswerTaken(old(State()), State(), s) else State() == old(State())
    {
      ok, call := false, None;
      if s in activeRuns && activeRuns[s].user == user && activeRuns[s].view.pending.Some? {
        var pending := activeRuns[s].view.pending.value;
        if pending.kind.Approval? && pending.pendingRequestId == id {
          ok, call := taken, Some(GiveDecision(activeRuns[s].run.turnId, id, decision));
        }
      }
      if ok {
        AnswersAsPromised(State(), s, user, Approval, Some(id));
        ResolvePendingRequest(s);
      }
      if taken {
        KeepsValid(Reply(s, user, Approval, Some(id)));
      }
    }
  }
}
