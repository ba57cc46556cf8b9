/** The run controller as a state machine (core/run_controller.py, core/use_cases.py): one step per
    event consumed, command handled or timer fired. */
module ControllerModel {
  import opened Wrappers
  import opened AgentEvents
  import opened RunViews
  import opened MessageQueue

  type Scope = string

  /** A clock reading, ordered as its text form. */
  type Stamp = int

  datatype AccessMode = Full | WorkspaceOnly | ReadOnly

  datatype Session = Session(
    id: string, scope: Scope, user: string, agentName: string, workspace: string, accessMode: AccessMode)

  datatype Historical = Historical(id: string, agentName: string, workspace: string, accessMode: Option<AccessMode>)

  datatype Run = Run(
    runId: string, scope: Scope, user: string, sessionId: string, agentName: string, turnId: string,
    status: RunStatus, createdAt: Stamp, updatedAt: Stamp)

  /** `completion` names the future that the first caller waits on, `timer` the idle timer's handle. */
  datatype ActiveRun = ActiveRun(
    run: Run, view: RunView, user: string, session: Session, queue: seq<QueuedMessage>,
    stopRequested: bool, completion: nat, timer: Option<nat>, timedOut: bool)

  datatype Settings = Settings(
    workspace: string, accessMode: AccessMode, agentName: string, defaultTimeout: Option<int>)

  datatype RequestStatus = Open | Resolved | Cancelled

  datatype Request = Request(runId: string, kind: PendingKind, status: RequestStatus)

  /** What was written through the persistence port. */
  datatype Records = Records(
    logs: map<string, seq<AgentEvent>>, statuses: map<string, RunStatus>, requests: map<string, Request>)

  datatype Sessions = Sessions(freshScopes: set<Scope>, selected: map<Scope, Session>)

  datatype Timers = Timers(live: map<nat, Scope>, next: nat)

  /** A turn handed to the agent, with the settings in force at that moment. */
  datatype StartedTurn = StartedTurn(scope: Scope, runId: string, prompt: string, session: Session, settings: Settings)

  /** What became of accepted messages: sent in a turn as the first batch of the queue, ahead of the rest
      of it, or dropped from a run with these flags. */
  datatype Fate =
    | Sent(batch: seq<QueuedMessage>, rest: seq<QueuedMessage>, turn: nat)
    | Dropped(messages: seq<QueuedMessage>, stopRequested: bool, timedOut: bool)

  /** History variables. `accepted` and `fates` are per completion future, that is, per chain of turns;
      `replaced` has the runs that a queued turn took the place of. */
  datatype History = History(
    created: seq<Session>, turns: seq<StartedTurn>, accepted: seq<seq<QueuedMessage>>, fates: seq<seq<Fate>>,
    replaced: set<string>)

  datatype Controller = Controller(
    settings: Settings, runs: map<Scope, ActiveRun>, sessions: Sessions, overrides: map<Scope, Option<int>>,
    consuming: set<Scope>, futures: seq<Option<Run>>, timers: Timers, records: Records, history: History)

  function NewController(settings: Settings): Controller {
    Controller(settings, map[], Sessions({}, map[]), map[], {}, [], Timers(map[], 0), Records(map[], map[], map[]),
               History([], [], [], [], {}))
  }

  /** The agent's and the factories' answers when a turn is started: the session created or fetched,
      whether a fetched one existed before, whether the agent has forgotten it, and its replacement. */
  datatype TurnEnv = TurnEnv(
    sessionId: string, reused: bool, notFound: bool, replacementId: string, turnId: string, runId: string, now: Stamp)

  // Idle timers.

  /** `get_idle_timeout_seconds` */
  function IdleTimeout(settings: Settings, overrides: map<Scope, Option<int>>, s: Scope): Option<int> {
    if s in overrides then overrides[s] else settings.defaultTimeout
  }

  /** `_cancel_idle_timeout` */
  function CancelTimer(c: Controller, s: Scope): Controller {
    if s !in c.runs || c.runs[s].timer.None? then c
    else c.(timers := c.timers.(live := c.timers.live - {c.runs[s].timer.value}),
            runs := c.runs[s := c.runs[s].(timer := None)])
  }

  /** `_arm_idle_timeout` */
  function ArmTimer(c: Controller, s: Scope): Controller {
    if s !in c.runs then c
    else
      var c1 := CancelTimer(c, s);
      if IdleTimeout(c.settings, c.overrides, s).None? then c1
      else
        var t := c1.timers.next;
        c1.(timers := Timers(c1.timers.live[t := s], t + 1), runs := c1.runs[s := c1.runs[s].(timer := Some(t))])
  }

  // Sessions.

  function MakeSession(settings: Settings, s: Scope, user: string, id: string): Session {
    Session(id, s, user, settings.agentName, settings.workspace, settings.accessMode)
  }

  function Select(c: Controller, s: Scope, session: Session, isNew: bool): Controller {
    c.(sessions := c.sessions.(selected := c.sessions.selected[s := session]),
       history := if isNew then c.history.(created := c.history.created + [session]) else c.history)
  }

  /** `_session_for_new_turn` */
  function SessionForNewTurn(c: Controller, s: Scope, user: string, env: TurnEnv): (Controller, Session) {
    var session := MakeSession(c.settings, s, user, env.sessionId);
    if s in c.sessions.freshScopes then
      var c1 := c.(sessions := c.sessions.(freshScopes := c.sessions.freshScopes - {s}));
      (Select(c1, s, session, true), session)
    else if s in c.sessions.selected then (c, c.sessions.selected[s])
    else (Select(c, s, session, !env.reused), session)
  }

  /** The session handling of `_start_turn_with_session_recovery`. */
  function RecoverSession(
      c: Controller, s: Scope, user: string, session: Session, env: TurnEnv): (Controller, Session)
  {
    if env.notFound then
      var replacement := MakeSession(c.settings, s, user, env.replacementId);
      (Select(c, s, replacement, true), replacement)
    else (c, session)
  }

  /** Starts an agent turn and records its run. */
  function BeginTurn(c: Controller, s: Scope, user: string, prompt: string, env: TurnEnv): (Controller, Run, Session) {
    var (c1, first) := SessionForNewTurn(c, s, user, env);
    var (c2, session) := RecoverSession(c1, s, user, first, env);
    var run := Run(env.runId, s, user, session.id, session.agentName, env.turnId, Running, env.now, env.now);
    var logs := if env.runId in c.records.logs then c.records.logs else c.records.logs[env.runId := []];
    (c2.(records := c2.records.(logs := logs, statuses := c2.records.statuses[env.runId := Running]),
         history := c2.history.(turns := c2.history.turns + [StartedTurn(s, env.runId, prompt, session, c.settings)])),
     run, session)
  }

  // Runs.

  /** Enters a run into the map of active runs, with a future of its own. */
  function OpenRun(c: Controller, s: Scope, a: ActiveRun): Controller {
    c.(runs := c.runs[s := a], futures := c.futures + [None], consuming := c.consuming + {s},
       history := c.history.(accepted := c.history.accepted + [[]], fates := c.history.fates + [[]]))
  }

  /** A run as it becomes active. */
  function NewRun(run: Run, user: string, session: Session, completion: nat): ActiveRun {
    ActiveRun(run, InitialRunView(run.runId), user, session, [], false, completion, None, false)
  }

  /** `start_text_run`, up to the consumption of the first event. */
  function StartTextRun(c: Controller, s: Scope, user: string, text: string, env: TurnEnv): Controller {
    if s in c.runs then c
    else
      var (c1, run, session) := BeginTurn(c, s, user, text, env);
      ArmTimer(OpenRun(c1, s, NewRun(run, user, session, |c1.futures|)), s)
  }

  function AddFate(h: History, chain: nat, fate: Fate): History {
    if chain < |h.fates| then h.(fates := h.fates[chain := h.fates[chain] + [fate]]) else h
  }

  /** Drops the messages that wait on a run that has just been flagged, or whose queue dies with it. */
  function DropQueue(c: Controller, s: Scope): Controller
    requires s in c.runs
  {
    var a := c.runs[s];
    if a.queue == [] then c
    else c.(runs := c.runs[s := a.(queue := [])],
            history := AddFate(c.history, a.completion, Dropped(a.queue, a.stopRequested, a.timedOut)))
  }

  function CloseRequest(records: Records, id: string, status: RequestStatus): Records {
    if id in records.requests then
      records.(requests := records.requests[id := records.requests[id].(status := status)])
    else records
  }

  /** Takes a run out of the map of active runs and completes its future. */
  function CloseRun(c: Controller, s: Scope, status: RunStatus, now: Stamp): Controller
    requires s in c.runs
  {
    var a := c.runs[s];
    var records :=
      if a.view.pending.Some? then CloseRequest(c.records, a.view.pending.value.pendingRequestId, Cancelled)
      else c.records;
    c.(runs := c.runs - {s}, consuming := c.consuming - {s},
       records := records.(statuses := records.statuses[a.run.runId := status]),
       futures := if a.completion < |c.futures| && c.futures[a.completion].None?
                  then c.futures[a.completion := Some(a.run.(status := status, updatedAt := now))] else c.futures)
  }

  /** `_finish`, and the completion of the future that every caller of it adds. */
  function FinishRun(c: Controller, s: Scope, status: RunStatus, now: Stamp): Controller
    requires s in c.runs
  {
    CloseRun(CancelTimer(DropQueue(c, s), s), s, status, now)
  }

  /** `_start_queued_next_turn`: the same active run, and the same future, go on with a new run. */
  function StartQueuedNextTurn(c: Controller, s: Scope, env: TurnEnv): Controller
    requires s in c.runs && c.runs[s].queue != []
  {
    var a := c.runs[s];
    var n := BatchSize(a.queue, MERGE_WINDOW);
    var merged := PopNext(a.queue, MERGE_WINDOW).value;
    var (c1, run, session) := BeginTurn(c, s, merged.userId, merged.prompt, env);
    c1.(runs := c1.runs[s := a.(run := run, view := InitialRunView(run.runId), user := merged.userId,
                                session := session, queue := merged.remaining, stopRequested := false)],
        history := AddFate(c1.history, a.completion, Sent(a.queue[..n], merged.remaining, |c.history.turns|)).(
          replaced := c1.history.replaced + {a.run.runId}))
  }

  function LogEvent(records: Records, runId: string, event: AgentEvent): Records {
    records.(logs := records.logs[runId := (if runId in records.logs then records.logs[runId] else []) + [event]])
  }

  /** Recording an event and reducing the view. */
  function Observe(c: Controller, s: Scope, event: AgentEvent): Controller
    requires s in c.runs
  {
    var a := c.runs[s];
    c.(records := LogEvent(c.records, a.run.runId, event),
       runs := c.runs[s := a.(view := ReduceRunView(a.view, event))])
  }

  /** The pause at a request of the agent: the consumer returns. */
  function Pause(c: Controller, s: Scope, id: string, kind: PendingKind): Controller
    requires s in c.runs
  {
    var c1 := CancelTimer(c, s);
    var a := c1.runs[s];
    var status := if kind.UserInput? then PendingUserInput else PendingApproval;
    c1.(records := c1.records.(requests := c1.records.requests[id := Request(a.run.runId, kind, Open)]),
        runs := c1.runs[s := a.(run := a.run.(status := status))],
        consuming := c1.consuming - {s})
  }

  /** What the consumer makes of an event: a stop request overrides it. */
  function Effective(a: ActiveRun, event: AgentEvent): AgentEvent { if a.stopRequested then RunInterrupted else event }

  /** The turn is over: the next one is started if messages are queued, else the run is finished. */
  function EndTurn(c: Controller, s: Scope, env: TurnEnv): Controller
    requires s in c.runs
  {
    var c1 := CancelTimer(c, s);
    if c1.runs[s].queue != [] then StartQueuedNextTurn(c1, s, env)
      else FinishRun(c1, s, c1.runs[s].view.status, env.now)
  }

  /** One turn of the loop in `_consume_until_pause_or_terminal`. */
  function ConsumeEvent(c: Controller, s: Scope, event: AgentEvent, env: TurnEnv): Controller {
    if s !in c.consuming || s !in c.runs || c.runs[s].timedOut then c
    else
      var e := Effective(c.runs[s], event);
      var c1 := Observe(c, s, e);
      if e.UserInputRequested? then Pause(c1, s, e.pendingRequestId, UserInput)
      else if e.ApprovalRequested? then Pause(c1, s, e.pendingRequestId, Approval)
      else if c1.runs[s].view.status.IsTerminal() then EndTurn(c1, s, env)
      else ArmTimer(c1, s)
  }

  /** The view of a run that ends without a logged event. */
  function ReduceUnlogged(c: Controller, s: Scope, event: AgentEvent): Controller
    requires s in c.runs
  {
    c.(runs := c.runs[s := c.runs[s].(view := ReduceRunView(c.runs[s].view, event))])
  }

  /** Finishes a run whose end the agent did not announce. */
  function EndUnlogged(c: Controller, s: Scope, event: AgentEvent, status: RunStatus, now: Stamp): Controller
    requires s in c.runs
  {
    FinishRun(ReduceUnlogged(c, s, event), s, status, now)
  }

  /** The code after the loop: the agent's stream is exhausted. Without a flag the consumer dies. */
  function StreamEnds(c: Controller, s: Scope, now: Stamp): Controller {
    if s !in c.consuming || s !in c.runs then c
    else
      var c1 := CancelTimer(c, s);
      if c1.runs[s].timedOut then EndUnlogged(c1, s, RunTimedOut, TimedOut, now)
      else if c1.runs[s].stopRequested then EndUnlogged(c1, s, RunInterrupted, Interrupted, now)
      else c1.(consuming := c1.consuming - {s})
  }

  predicate IsActiveFor(c: Controller, s: Scope, user: string) { s in c.runs && c.runs[s].user == user }

  /** Flags a run as stopped and empties its queue. */
  function Flag(c: Controller, s: Scope): Controller
    requires s in c.runs
  {
    DropQueue(c.(runs := c.runs[s := c.runs[s].(stopRequested := true)]), s)
  }

  /** `stop_run`: a run that waits for an answer ends at once, any other when its consumer notices. */
  function StopRun(c: Controller, s: Scope, user: string, now: Stamp): Controller {
    if !IsActiveFor(c, s, user) then c
    else if c.runs[s].view.pending.Some? then EndUnlogged(Flag(c, s), s, RunInterrupted, Interrupted, now)
    else Flag(c, s)
  }

  function Accept(h: History, chain: nat, m: QueuedMessage): History {
    if chain < |h.accepted| then h.(accepted := h.accepted[chain := h.accepted[chain] + [m]]) else h
  }

  /** `queue_message` */
  function QueueMessage(c: Controller, s: Scope, user: string, m: QueuedMessage): Controller {
    if !IsActiveFor(c, s, user) || c.runs[s].view.pending.Some? then c
    else
      var a := c.runs[s];
      c.(runs := c.runs[s := a.(queue := a.queue + [m])], history := Accept(c.history, a.completion, m))
  }

  /** The state that an answer leads to, but for the timer that is then armed. */
  function AnsweredState(c: Controller, s: Scope): Controller
    requires s in c.runs && c.runs[s].view.pending.Some?
  {
    var a := c.runs[s];
    c.(records := CloseRequest(c.records, a.view.pending.value.pendingRequestId, Resolved),
       runs := c.runs[s := a.(view := a.view.(status := Running, pending := None))],
       consuming := c.consuming + {s})
  }

  /** `_resolve_pending_request` and the resumption of the consumer. */
  function ResolvePending(c: Controller, s: Scope): Controller
    requires s in c.runs && c.runs[s].view.pending.Some?
  {
    ArmTimer(AnsweredState(c, s), s)
  }

  predicate CanAnswer(c: Controller, s: Scope, user: string, kind: PendingKind, id: Option<string>) {
    && IsActiveFor(c, s, user) && c.runs[s].view.pending.Some? && c.runs[s].view.pending.value.kind == kind
    && (id.Some? ==> c.runs[s].view.pending.value.pendingRequestId == id.value)
  }

  /** `answer_user_input` (no id), `answer_approval`, and the declined approval of a reset. */
  function Answer(c: Controller, s: Scope, user: string, kind: PendingKind, id: Option<string>): Controller {
    if CanAnswer(c, s, user, kind, id) then ResolvePending(c, s) else c
  }

  /** An idle timer fires: `_handle_idle_timeout`. */
  function TimerFires(c: Controller, t: nat): Controller {
    if t !in c.timers.live then c
    else
      var s := c.timers.live[t];
      var c1 := c.(timers := c.timers.(live := c.timers.live - {t}));
      if s !in c1.runs || c1.runs[s].timedOut || c1.runs[s].view.pending.Some? then c1
      else DropQueue(c1.(runs := c1.runs[s := c1.runs[s].(timedOut := true)]), s)
  }

  // Commands outside a run.

  /** `/timeout`: a value, off, or back to the default. */
  function SetTimeout(c: Controller, s: Scope, seconds: int): Controller {
    ArmTimer(c.(overrides := c.overrides[s := Some(seconds)]), s)
  }

  function DisableTimeout(c: Controller, s: Scope): Controller {
    CancelTimer(c.(overrides := c.overrides[s := None]), s)
  }

  function DefaultTimeout(c: Controller, s: Scope): Controller {
    ArmTimer(c.(overrides := c.overrides - {s}), s)
  }

  /** `clear_selected_session`, after `/model use` and `/agent`. */
  function ClearSelected(c: Controller, s: Scope): Controller {
    c.(sessions := Sessions(c.sessions.freshScopes + {s}, c.sessions.selected - {s}))
  }

  /** `_resume_compatibility_error` is None */
  predicate Compatible(settings: Settings, h: Historical) {
    h.agentName == settings.agentName && h.workspace == settings.workspace && h.accessMode == Some(settings.accessMode)
  }

  /** `/resume`: `resume_session` behind the compatibility check. */
  function Resume(c: Controller, s: Scope, user: string, h: Historical): Controller {
    if !Compatible(c.settings, h) then c
    else
      var mode := if h.accessMode.Some? then h.accessMode.value else c.settings.accessMode;
      c.(sessions := Sessions(c.sessions.freshScopes - {s},
                              c.sessions.selected[s := Session(h.id, s, user, h.agentName, h.workspace, mode)]))
  }

  /** The end of `reset_session` and, with a workspace, of `change_workspace`: after any active run has
      been ended, the selection is replaced by a session created for the current settings. */
  function SelectNewSession(c: Controller, s: Scope, user: string, workspace: Option<string>, id: string): Controller {
    var c1 := c.(settings := if workspace.Some? then c.settings.(workspace := workspace.value) else c.settings,
                 sessions := Sessions(c.sessions.freshScopes - {s}, c.sessions.selected - {s}));
    Select(c1, s, MakeSession(c1.settings, s, user, id), true)
  }

  datatype Step =
    | Start(scope: Scope, user: string, text: string, env: TurnEnv)
    | Consume(scope: Scope, event: AgentEvent, env: TurnEnv)
    | EndStream(scope: Scope, now: Stamp)
    | Stop(scope: Scope, user: string, now: Stamp)
    | Queue(scope: Scope, user: string, message: QueuedMessage)
    | Reply(scope: Scope, user: string, kind: PendingKind, id: Option<string>)
    | Fire(timer: nat)
    | Timeout(scope: Scope, seconds: int)
    | TimeoutOff(scope: Scope)
    | TimeoutDefault(scope: Scope)
    | Clear(scope: Scope)
    | ResumeSession(scope: Scope, user: string, historical: Historical)
    | NewSession(scope: Scope, user: string, workspace: Option<string>, sessionId: string)

  function Next(c: Controller, step: Step): Controller {
    match step
    case Start(s, user, text, env) => StartTextRun(c, s, user, text, env)
    case Consume(s, event, env) => ConsumeEvent(c, s, event, env)
    case EndStream(s, now) => StreamEnds(c, s, now)
    case Stop(s, user, now) => StopRun(c, s, user, now)
    case Queue(s, user, m) => QueueMessage(c, s, user, m)
    case Reply(s, user, kind, id) => Answer(c, s, user, kind, id)
    case Fire(t) => TimerFires(c, t)
    case Timeout(s, seconds) => SetTimeout(c, s, seconds)
    case TimeoutOff(s) => DisableTimeout(c, s)
    case TimeoutDefault(s) => DefaultTimeout(c, s)
    case Clear(s) => ClearSelected(c, s)
    case ResumeSession(s, user, h) => Resume(c, s, user, h)
    case NewSession(s, user, workspace, id) => SelectNewSession(c, s, user, workspace, id)
  }

  function Execute(c: Controller, steps: seq<Step>): Controller {
    if steps == [] then c else Next(Execute(c, steps[..|steps| - 1]), steps[|steps| - 1])
  }

  /** The ids the environment hands out: a run id is new, and a request's id is not that of a request
      another run is waiting on. */
  ghost predicate FreshIds(c: Controller, step: Step) {
    && ((step.Start? || step.Consume?) ==> step.env.runId !in c.records.logs)
    && (step.Consume? && step.event.IsPause() ==>
          forall s <- c.runs :: s != step.scope && c.runs[s].view.pending.Some? ==>
            c.runs[s].view.pending.value.pendingRequestId != step.event.pendingRequestId)
  }

  ghost predicate AllFresh(c: Controller, steps: seq<Step>) {
    forall i :: 0 <= i < |steps| ==> FreshIds(Execute(c, steps[..i]), steps[i])
  }
}
