/** The provider-neutral events an agent turn yields (core/agent_events.py). */
module AgentEvents {

  /** A JSON object that is only carried along. */
  type Payload = map<string, string>

  datatype AgentEvent =
    | TextDelta(text: string)
    | ThinkingDelta(text: string)
    | ToolStarted(toolId: string, name: string, input: Payload)
    | ToolFinished(toolId: string, output: string, isError: bool)
    | UserInputRequested(pendingRequestId: string, prompt: string, payload: Payload)
    | ApprovalRequested(pendingRequestId: string, prompt: string, payload: Payload)
    | UsageUpdated(inputTokens: int, outputTokens: int)
    | RunCompleted
    | RunFailed(error: string)
    | RunInterrupted
    | RunTimedOut
  {
    predicate IsTerminal() { RunCompleted? || RunFailed? || RunInterrupted? || RunTimedOut? }

    /** The requests at which the consumer of a turn breaks off. */
    predicate IsPause() { UserInputRequested? || ApprovalRequested? }

    predicate IsTextStream() { TextDelta? || ThinkingDelta? }
  }

  /** The concatenation of all text deltas. */
  function TextOf(es: seq<AgentEvent>): string {
    if es == [] then ""
    else TextOf(es[..|es| - 1]) + if es[|es| - 1].TextDelta? then es[|es| - 1].text else ""
  }

  /** The concatenation of all thinking deltas. */
  function ThinkingOf(es: seq<AgentEvent>): string {
    if es == [] then ""
    else ThinkingOf(es[..|es| - 1]) + if es[|es| - 1].ThinkingDelta? then es[|es| - 1].text else ""
  }

  lemma {:induction false} TextOfConcat(a: seq<AgentEvent>, b: seq<AgentEvent>)
    ensures TextOf(a + b) == TextOf(a) + TextOf(b)
    ensures ThinkingOf(a + b) == ThinkingOf(a) + ThinkingOf(b)
  {
    if b == [] {
      assert a + b == a;
    } else {
      var front := b[..|b| - 1];
      assert (a + b)[..|a + b| - 1] == a + front;
      TextOfConcat(a, front);
    }
  }
}
