/** The card-side copy of the events, the state and the reducer (react/), and the two
    translations into it (feishu/run_view_sink.py, store/file_run_persistence.py). */
module ReactStates {
  import opened Wrappers
  import Core = AgentEvents
  import opened RunViews

  datatype ReactEvent =
    | TextDelta(text: string)
    | ThinkingDelta(text: string)
    | ToolStarted(toolId: string, name: string, input: Core.Payload)
    | ToolFinished(toolId: string, output: string, isError: bool)
    | UserInputRequested(pendingId: string, prompt: string, payload: Core.Payload)
    | ApprovalRequested(pendingId: string, prompt: string, payload: Core.Payload)
    | UsageUpdated(inputTokens: int, outputTokens: int)
    | RunCompleted
    | RunFailed(error: string)
    | RunInterrupted
    | RunTimedOut

  datatype ToolState = ToolState(
    toolId: string, name: string, input: Core.Payload, output: Option<string>, status: ToolStatus)

  datatype PendingState = PendingState(pendingId: string, kind: PendingKind, prompt: string, payload: Core.Payload)

  datatype UsageState = UsageState(inputTokens: int, outputTokens: int)

  datatype RunState = RunState(
    runId: string, status: RunStatus, text: string, thinking: string, tools: seq<ToolState>,
    pending: Option<PendingState>, usage: UsageState, error: Option<string>)

  function ReduceRunState(state: RunState, event: ReactEvent): RunState {
    match event
    case TextDelta(text) => state.(text := state.text + text)
    case ThinkingDelta(text) => state.(thinking := state.thinking + text)
    case ToolStarted(toolId, name, input) =>
      state.(tools := state.tools + [ToolState(toolId, name, input, None, ToolRunning)])
    case ToolFinished(toolId, output, isError) =>
      state.(tools := seq(|state.tools|, i requires 0 <= i < |state.tools| =>
        if state.tools[i].toolId == toolId
        then state.tools[i].(output := Some(output), status := if isError then ToolFailed else ToolCompleted)
        else state.tools[i]))
    case UserInputRequested(id, prompt, payload) =>
      state.(status := PendingUserInput, pending := Some(PendingState(id, UserInput, prompt, payload)))
    case ApprovalRequested(id, prompt, payload) =>
      state.(status := PendingApproval, pending := Some(PendingState(id, Approval, prompt, payload)))
    case UsageUpdated(i, o) => state.(usage := UsageState(i, o))
    case RunCompleted => state.(status := Completed, pending := None)
    case RunFailed(error) => state.(status := Failed, pending := None, error := Some(error))
    case RunInterrupted => state.(status := Interrupted, pending := None)
    case RunTimedOut => state.(status := TimedOut, pending := None)
  }

  function FoldRunState(state: RunState, events: seq<ReactEvent>): RunState {
    if events == [] then state
    else ReduceRunState(FoldRunState(state, events[..|events| - 1]), events[|events| - 1])
  }

  /** `_react_event` */
  function ToReactEvent(event: Core.AgentEvent): ReactEvent {
    match event
    case TextDelta(text) => TextDelta(text)
    case ThinkingDelta(text) => ThinkingDelta(text)
    case ToolStarted(toolId, name, input) => ToolStarted(toolId, name, input)
    case ToolFinished(toolId, output, isError) => ToolFinished(toolId, output, isError)
    case UserInputRequested(id, prompt, payload) => UserInputRequested(id, prompt, payload)
    case ApprovalRequested(id, prompt, payload) => ApprovalRequested(id, prompt, payload)
    case UsageUpdated(i, o) => UsageUpdated(i, o)
    case RunCompleted => RunCompleted
    case RunFailed(error) => RunFailed(error)
    case RunInterrupted => RunInterrupted
    case RunTimedOut => RunTimedOut
  }

  function ToReactEvents(events: seq<Core.AgentEvent>): seq<ReactEvent> {
    seq(|events|, i requires 0 <= i < |events| => ToReactEvent(events[i]))
  }

  function ToToolState(tool: ToolCallView): ToolState {
    ToolState(tool.toolId, tool.name, tool.input, tool.output, tool.status)
  }

  function ToPendingState(pending: Option<PendingRequestView>): Option<PendingState> {
    match pending
    case None => None
    case Some(p) => Some(PendingState(p.pendingRequestId, p.kind, p.prompt, p.payload))
  }

  /** `_to_run_state` */
  function ToRunState(v: RunView): RunState {
    RunState(
      v.runId, v.status, v.text, v.thinking,
      seq(|v.tools|, i requires 0 <= i < |v.tools| => ToToolState(v.tools[i])),
      ToPendingState(v.pending), UsageState(v.usage.inputTokens, v.usage.outputTokens), v.error)
  }

  lemma ReduceCommutes(v: RunView, e: Core.AgentEvent)
    ensures ToRunState(ReduceRunView(v, e)) == ReduceRunState(ToRunState(v), ToReactEvent(e))
  {
    var a, b := ToRunState(ReduceRunView(v, e)), ReduceRunState(ToRunState(v), ToReactEvent(e));
    assert |a.tools| == |b.tools| && forall i :: 0 <= i < |a.tools| ==> a.tools[i] == b.tools[i];
  }

  /** A card rendered from the core view and one rendered from the replayed log show the same. */
  lemma {:induction false} ReducersSimulate(v: RunView, events: seq<Core.AgentEvent>)
    ensures ToRunState(FoldRunView(v, events)) == FoldRunState(ToRunState(v), ToReactEvents(events))
  {
    if events != [] {
      var front := events[..|events| - 1];
      ReducersSimulate(v, front);
      ReduceCommutes(FoldRunView(v, front), events[|events| - 1]);
      assert ToReactEvents(events)[..|events| - 1] == ToReactEvents(front);
    }
  }

  /** Neither translation loses anything: distinct views and events have distinct images. */
  lemma TranslationsAreInjective(v: RunView, w: RunView, e: Core.AgentEvent, f: Core.AgentEvent)
    ensures ToRunState(v) == ToRunState(w) <==> v == w
    ensures ToReactEvent(e) == ToReactEvent(f) <==> e == f
  {
    if ToRunState(v) == ToRunState(w) {
      var a, b := ToRunState(v).tools, ToRunState(w).tools;
      assert |v.tools| == |a| == |b| == |w.tools|;
      forall i | 0 <= i < |v.tools| ensures v.tools[i] == w.tools[i] {
        assert a[i] == ToToolState(v.tools[i]) && b[i] == ToToolState(w.tools[i]);
      }
      assert v.tools == w.tools;
    }
  }
}
