/** The run view and its reducer (core/run_view.py, core/run_view_reducer.py). */
module RunViews {
  import opened Wrappers
  import opened AgentEvents

  datatype RunStatus = Running | PendingUserInput | PendingApproval | Completed | Failed | Interrupted | TimedOut {
    predicate IsTerminal() { Completed? || Failed? || Interrupted? || TimedOut? }

    predicate IsPending() { PendingUserInput? || PendingApproval? }
  }

  datatype ToolStatus = ToolRunning | ToolCompleted | ToolFailed

  datatype PendingKind = UserInput | Approval

  datatype ToolCallView = ToolCallView(
    toolId: string, name: string, input: Payload, output: Option<string>, status: ToolStatus)

  datatype PendingRequestView = PendingRequestView(
    pendingRequestId: string, kind: PendingKind, prompt: string, payload: Payload)

  datatype UsageView = UsageView(inputTokens: int, outputTokens: int)

  datatype RunView = RunView(
    runId: string, status: RunStatus, text: string, thinking: string, tools: seq<ToolCallView>,
    pending: Option<PendingRequestView>, usage: UsageView, error: Option<string>)

  function InitialRunView(runId: string): RunView {
    RunView(runId, Running, "", "", [], None, UsageView(0, 0), None)
  }

  function FinishTools(tools: seq<ToolCallView>, toolId: string, output: string, isError: bool): seq<ToolCallView> {
    seq(|tools|, i requires 0 <= i < |tools| =>
      if tools[i].toolId == toolId
      then tools[i].(output := Some(output), status := if isError then ToolFailed else ToolCompleted)
      else tools[i])
  }

  function ReduceRunView(state: RunView, event: AgentEvent): RunView {
    match event
    case TextDelta(text) => state.(text := state.text + text)
    case ThinkingDelta(text) => state.(thinking := state.thinking + text)
    case ToolStarted(toolId, name, input) =>
      state.(tools := state.tools + [ToolCallView(toolId, name, input, None, ToolRunning)])
    case ToolFinished(toolId, output, isError) =>
      state.(tools := FinishTools(state.tools, toolId, output, isError))
    case UserInputRequested(id, prompt, payload) =>
      state.(status := PendingUserInput, pending := Some(PendingRequestView(id, UserInput, prompt, payload)))
    case ApprovalRequested(id, prompt, payload) =>
      state.(status := PendingApproval, pending := Some(PendingRequestView(id, Approval, prompt, payload)))
    case UsageUpdated(i, o) => state.(usage := UsageView(i, o))
    case RunCompleted => state.(status := Completed, pending := None)
    case RunFailed(error) => state.(status := Failed, pending := None, error := Some(error))
    case RunInterrupted => state.(status := Interrupted, pending := None)
    case RunTimedOut => state.(status := TimedOut, pending := None)
  }

  /** The view after a list of events. */
  function FoldRunView(state: RunView, events: seq<AgentEvent>): RunView {
    if events == [] then state
    else ReduceRunView(FoldRunView(state, events[..|events| - 1]), events[|events| - 1])
  }

  /** The part of a view that the controller never changes behind the reducer's back. */
  datatype Content = Content(
    text: string, thinking: string, tools: seq<ToolCallView>, usage: UsageView, error: Option<string>)

  function ContentOf(v: RunView): Content {
    Content(v.text, v.thinking, v.tools, v.usage, v.error)
  }

  /** A request is shown exactly while the status is the pending one of its kind. */
  ghost predicate PendingMatchesStatus(v: RunView) {
    && (v.pending.Some? <==> v.status.IsPending())
    && (v.pending.Some? ==> (v.pending.value.kind.UserInput? <==> v.status.PendingUserInput?))
  }

  lemma ReduceKeepsPendingMatch(v: RunView, e: AgentEvent)
    requires PendingMatchesStatus(v)
    ensures PendingMatchesStatus(ReduceRunView(v, e))
    ensures ReduceRunView(v, e).pending.Some? && v.pending.None? ==> e.IsPause()
  {
  }

  /** Views that agree on their content still do after the same event, whatever their status. */
  lemma ReduceContent(a: RunView, b: RunView, e: AgentEvent)
    requires ContentOf(a) == ContentOf(b)
    ensures ContentOf(ReduceRunView(a, e)) == ContentOf(ReduceRunView(b, e))
  {
  }

  lemma FoldAppend(state: RunView, events: seq<AgentEvent>, e: AgentEvent)
    ensures FoldRunView(state, events + [e]) == ReduceRunView(FoldRunView(state, events), e)
  {
    assert (events + [e])[..|events + [e]| - 1] == events;
  }

  /** Folding accumulates exactly the streamed text and thinking, across every other event. */
  lemma {:induction false} FoldAccumulatesText(state: RunView, events: seq<AgentEvent>)
    ensures FoldRunView(state, events).text == state.text + TextOf(events)
    ensures FoldRunView(state, events).thinking == state.thinking + ThinkingOf(events)
  {
    if events != [] {
      FoldAccumulatesText(state, events[..|events| - 1]);
    }
  }

  /** How many tools a list of events started. */
  function ToolStarts(events: seq<AgentEvent>): nat {
    if events == [] then 0
    else ToolStarts(events[..|events| - 1]) + if events[|events| - 1].ToolStarted? then 1 else 0
  }

  /** Tools are never dropped, reordered or renamed: tool k is forever the k-th one started. */
  lemma {:induction false} FoldKeepsTools(state: RunView, events: seq<AgentEvent>)
    ensures var after := FoldRunView(state, events).tools;
            && |after| == |state.tools| + ToolStarts(events)
            && forall k :: 0 <= k < |state.tools| ==>
                 && after[k].toolId == state.tools[k].toolId && after[k].name == state.tools[k].name
                 && after[k].input == state.tools[k].input
  {
    if events != [] {
      FoldKeepsTools(state, events[..|events| - 1]);
    }
  }
}
