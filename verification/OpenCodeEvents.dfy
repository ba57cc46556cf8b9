/** Raw OpenCode server events, well typed by construction, and their translation
    (agent/opencode_translator.py). */
module OpenCodeEvents {
  import opened Wrappers
  import opened AgentEvents

  datatype ToolPartState = ToolPartState(status: string, input: Payload, output: string, error: string)

  datatype Part = Part(
    id: string, sessionID: Option<string>, messageID: Option<string>, kind: string,
    text: Option<string>, tool: string, state: ToolPartState)
  {
    predicate IsTool() { kind == "tool" }

    predicate IsReasoning() { kind == "reasoning" || kind == "thinking" }
  }

  datatype Info = Info(sessionID: Option<string>, id: Option<string>, role: Option<string>, parentID: Option<string>)

  datatype Question = Question(text: string, multiple: bool, hasOptions: bool, custom: bool)

  /** The event's `type` together with the properties that only this type has. `Other` carries the
      type's name, whole and split into its lower-cased words. */
  datatype Kind =
    | QuestionAsked(questionId: string, questions: seq<Question>, questionPayload: Payload)
    | QuestionV2Asked
    | PartDelta
    | PartUpdated
    | SessionNextDelta(reasoning: bool, nextText: string, assistantMessageID: string)
    | ToolBefore(callID: string, toolName: string, args: Payload)
    | ToolAfter(callID: string, output: string)
    | PermissionAsked(permissionId: string, permission: string, permissionPayload: Payload)
    | SessionIdle
    | SessionStatus(status: string)
    | SessionTurnClose
    | SessionError(message: string)
    | Other(name: string, words: seq<string>)

  /** `type` and `properties`; `toolMessageID` is `properties.tool.messageID`. */
  datatype RawEvent = RawEvent(
    kind: Kind, sessionID: Option<string>, messageID: Option<string>, partID: Option<string>,
    delta: Option<string>, field: Option<string>, info: Option<Info>, part: Option<Part>,
    toolMessageID: Option<string>)

  datatype Translated = Translated(session: string, message: Option<string>, event: AgentEvent)

  function OrElse<T>(a: Option<T>, b: Option<T>): Option<T> {
    if a.Some? then a else b
  }

  function PartSession(raw: RawEvent): Option<string> {
    if raw.part.Some? then raw.part.value.sessionID else None
  }

  function PartMessage(raw: RawEvent): Option<string> {
    if raw.part.Some? then raw.part.value.messageID else None
  }

  /** `_optional_session_id`: the event's own field wins over its part's. */
  function TranslatorSession(raw: RawEvent): Option<string> { OrElse(raw.sessionID, PartSession(raw)) }

  /** `_optional_message_id` */
  function TranslatorMessage(raw: RawEvent): Option<string> {
    OrElse(raw.messageID, OrElse(PartMessage(raw), raw.toolMessageID))
  }

  /** `_event_session_id`: the part's field wins over the event's own. */
  function EventSession(raw: RawEvent): Option<string> { OrElse(PartSession(raw), raw.sessionID) }

  /** `_event_message_id` */
  function EventMessage(raw: RawEvent): Option<string> {
    OrElse(PartMessage(raw), OrElse(raw.toolMessageID, raw.messageID))
  }

  function ToolPartEvent(part: Part): Option<AgentEvent> {
    if part.state.status == "running" then Some(ToolStarted(part.id, part.tool, part.state.input))
    else if part.state.status == "completed" then Some(ToolFinished(part.id, part.state.output, false))
    else if part.state.status == "error" then Some(ToolFinished(part.id, part.state.error, true))
    else None
  }

  /** `_is_reasoning_delta`; `known` is the remembered type of the part, when it was added. */
  predicate IsReasoningDelta(raw: RawEvent, known: Option<string>) {
    || (raw.part.Some? && raw.part.value.IsReasoning())
    || (known.Some? && known.value in {"reasoning", "thinking"})
    || (raw.field.Some? && raw.field.value in {"reasoning", "thinking"})
  }

  function PartEvent(raw: RawEvent, known: Option<string>): Option<AgentEvent> {
    if raw.kind.PartUpdated? && raw.part.Some? && raw.part.value.IsTool() then ToolPartEvent(raw.part.value)
    else
      var text :=
        if raw.delta.None? && raw.kind.PartDelta? && raw.part.Some? then raw.part.value.text else raw.delta;
      if text.None? || text.value == "" then None
      else if IsReasoningDelta(raw, known) then Some(ThinkingDelta(text.value))
      else Some(TextDelta(text.value))
  }

  /** What an event says, whoever it is for. */
  function EventOf(raw: RawEvent, known: Option<string>): Option<AgentEvent> {
    match raw.kind
    case SessionNextDelta(reasoning, text, _) =>
      if text == "" then None else Some(if reasoning then ThinkingDelta(text) else TextDelta(text))
    case PartDelta => PartEvent(raw, known)
    case PartUpdated => PartEvent(raw, known)
    case ToolBefore(callID, name, args) => Some(ToolStarted(callID, name, args))
    case ToolAfter(callID, output) => Some(ToolFinished(callID, output, false))
    case PermissionAsked(id, permission, payload) => Some(ApprovalRequested(id, permission, payload))
    case SessionIdle => Some(RunCompleted)
    case SessionStatus(status) => if status == "idle" then Some(RunCompleted) else None
    case SessionTurnClose => Some(RunCompleted)
    case SessionError(message) => Some(RunFailed(message))
    case QuestionAsked(_, _, _) => None
    case QuestionV2Asked => None
    case Other(_, _) => None
  }

  /** `translate_opencode_event` */
  function Translate(raw: RawEvent, known: Option<string>): Option<Translated> {
    var session := TranslatorSession(raw);
    var event := EventOf(raw, known);
    if session.None? || event.None? then None
    else
      var message :=
        if raw.kind.SessionNextDelta? then Some(raw.kind.assistantMessageID) else TranslatorMessage(raw);
      Some(Translated(session.value, message, event.value))
  }

  function Words(kind: Kind): seq<string> {
    match kind
    case QuestionAsked(_, _, _) => ["question", "asked"]
    case QuestionV2Asked => ["question", "v2", "asked"]
    case PartDelta => ["message", "part", "delta"]
    case PartUpdated => ["message", "part", "updated"]
    case SessionNextDelta(reasoning, _, _) => ["session", "next", if reasoning then "reasoning" else "text", "delta"]
    case ToolBefore(_, _, _) => ["tool", "execute", "before"]
    case ToolAfter(_, _) => ["tool", "execute", "after"]
    case PermissionAsked(_, _, _) => ["permission", "asked"]
    case SessionIdle => ["session", "idle"]
    case SessionStatus(_) => ["session", "status"]
    case SessionTurnClose => ["session", "turn", "close"]
    case SessionError(_) => ["session", "error"]
    case Other(_, words) => words
  }

  function TypeName(kind: Kind): string {
    match kind
    case QuestionAsked(_, _, _) => "question.asked"
    case QuestionV2Asked => "question.v2.asked"
    case PartDelta => "message.part.delta"
    case PartUpdated => "message.part.updated"
    case SessionNextDelta(reasoning, _, _) =>
      if reasoning then "session.next.reasoning.delta" else "session.next.text.delta"
    case ToolBefore(_, _, _) => "tool.execute.before"
    case ToolAfter(_, _) => "tool.execute.after"
    case PermissionAsked(_, _, _) => "permission.asked"
    case SessionIdle => "session.idle"
    case SessionStatus(_) => "session.status"
    case SessionTurnClose => "session.turn.close"
    case SessionError(_) => "session.error"
    case Other(name, _) => name
  }

  /** `_is_interactive_unknown_event` */
  predicate IsInteractive(kind: Kind) {
    exists w <- Words(kind) :: w in {"question", "permission", "input", "request", "requested", "asked"}
  }

  /** `_is_known_ignored_event` */
  predicate IsKnownIgnored(kind: Kind) { kind.PartDelta? || kind.PartUpdated? || kind.SessionStatus? }

  /** `_question_request_event` */
  function QuestionEvent(kind: Kind): AgentEvent
    requires kind.QuestionAsked?
  {
    if |kind.questions| != 1 then RunFailed("Unsupported OpenCode question request")
    else
      var q := kind.questions[0];
      if q.multiple || q.hasOptions || q.custom then RunFailed("Unsupported OpenCode question request")
      else UserInputRequested(kind.questionId, q.text, kind.questionPayload)
  }
}
