/** The event router as one object (agent/opencode_server.py, `OpenCodeEventRouter`): every method
    is proved to take the step the theorems on whole runs are about. */
module OpenCodeRouter {
  import opened Wrappers
  import opened AgentEvents
  import opened OpenCodeEvents
  import opened OpenCodeParts
  import R = OpenCodeRouting

  /** What a raw event asks of the routing, after the part memory was consulted. */
  datatype Plan = Plan(memory: Memory, info: Option<Info>, decision: R.Decision)

  predicate IsQuestion(raw: RawEvent) {
    (raw.kind.QuestionAsked? || raw.kind.QuestionV2Asked?) && raw.sessionID.Some?
  }

  function PlanQuestion(questionsEnabled: bool, m: Memory, raw: RawEvent): Plan
    requires IsQuestion(raw)
  {
    if EventMessage(raw).None? then Plan(m, None, R.Drop)
    else if questionsEnabled && raw.kind.QuestionAsked?
    then Plan(m, None, R.ToMessage(raw.sessionID.value, EventMessage(raw).value, QuestionEvent(raw.kind)))
    else Plan(m, None, R.ToBoundMessage(raw.sessionID.value, EventMessage(raw).value,
                                        RunFailed("OpenCode question support is unavailable")))
  }

  function DecideUnknown(raw: RawEvent): R.Decision {
    if !IsKnownIgnored(raw.kind) && IsInteractive(raw.kind) && EventSession(raw).Some? && EventMessage(raw).Some?
    then R.ToActiveTurn(EventSession(raw).value, EventMessage(raw).value,
                        RunFailed("Unsupported OpenCode interactive event: " + TypeName(raw.kind)))
    else R.Drop
  }

  function DecideTranslated(t: Translated): R.Decision {
    if t.message.Some? then R.ToMessage(t.session, t.message.value, t.event)
    else if t.event.ApprovalRequested? then R.Drop
    else R.ToSession(t.session, t.event)
  }

  function Decide(m: Memory, raw: RawEvent): R.Decision {
    var t := Translate(raw, KnownType(m, raw));
    if t.None? then DecideUnknown(raw) else DecideTranslated(t.value)
  }

  function PlanEvent(questionsEnabled: bool, m: Memory, raw: RawEvent): Plan {
    if IsQuestion(raw) then PlanQuestion(questionsEnabled, m, raw)
    else
      var d := DigestEvent(m, raw);
      if d.forwarded.None? then Plan(d.memory, None, R.Drop)
      else Plan(d.memory, raw.info, Decide(d.memory, d.forwarded.value))
  }

  /** A call of the router. */
  datatype Call =
    | RegisterCall(session: string, message: string)
    | UnregisterCall(session: string, message: string)
    | InterruptCall(reason: string)
    | EventCall(raw: RawEvent)

  datatype State = State(memory: Memory, routing: R.Routing)

  function InterruptionText(reason: string): string { "OpenCode event stream interrupted: " + reason }

  /** The routing step of a call. */
  function OpOf(questionsEnabled: bool, m: Memory, call: Call): R.Op {
    match call
    case RegisterCall(s, x) => R.Register(s, x)
    case UnregisterCall(s, x) => R.Unregister(s, x)
    case InterruptCall(reason) => R.Interrupt(InterruptionText(reason))
    case EventCall(raw) => var p := PlanEvent(questionsEnabled, m, raw); R.Handle(p.info, p.decision)
  }

  function StepCall(questionsEnabled: bool, st: State, call: Call): State {
    State(
      if call.EventCall? then PlanEvent(questionsEnabled, st.memory, call.raw).memory else st.memory,
      R.Step(st.routing, OpOf(questionsEnabled, st.memory, call)))
  }

  function RunCalls(questionsEnabled: bool, calls: seq<Call>): State {
    if calls == [] then State(NoMemory, R.NoRouting)
    else StepCall(questionsEnabled, RunCalls(questionsEnabled, calls[..|calls| - 1]), calls[|calls| - 1])
  }

  /** The raw events among the calls that consult the part memory. */
  function Digested(calls: seq<Call>): seq<RawEvent> {
    if calls == [] then []
    else
      var last := calls[|calls| - 1];
      Digested(calls[..|calls| - 1]) + if last.EventCall? && !IsQuestion(last.raw) then [last.raw] else []
  }

  function OpsOf(questionsEnabled: bool, calls: seq<Call>): seq<R.Op> {
    if calls == [] then []
    else
      var front := calls[..|calls| - 1];
      OpsOf(questionsEnabled,
            front) + [OpOf(questionsEnabled, RunCalls(questionsEnabled, front).memory, calls[|calls| - 1])]
  }

  lemma {:induction false} RunsRoute(questionsEnabled: bool, calls: seq<Call>)
    ensures RunCalls(questionsEnabled, calls).routing == R.Run(OpsOf(questionsEnabled, calls))
    ensures |OpsOf(questionsEnabled, calls)| == |calls|
  {
    if calls != [] {
      var front, last := calls[..|calls| - 1], calls[|calls| - 1];
      RunsRoute(questionsEnabled, front);
      var ops := OpsOf(questionsEnabled, front);
      var op := OpOf(questionsEnabled, RunCalls(questionsEnabled, front).memory, last);
      assert OpsOf(questionsEnabled, calls) == ops + [op];
      assert (ops + [op])[..|ops|] == ops;
      assert R.Run(ops + [op]) == R.Step(R.Run(ops), op);
    }
  }

  lemma PlanDigests(questionsEnabled: bool, m: Memory, raw: RawEvent)
    ensures PlanEvent(questionsEnabled, m, raw).memory == if IsQuestion(raw) then m else DigestEvent(m, raw).memory
  {
  }

  lemma {:induction false} RunsDigest(questionsEnabled: bool, calls: seq<Call>)
    ensures RunCalls(questionsEnabled, calls).memory == DigestAll(Digested(calls))
  {
    if calls != [] {
      var front, last := calls[..|calls| - 1], calls[|calls| - 1];
      RunsDigest(questionsEnabled, front);
      var raws := Digested(front);
      if last.EventCall? && !IsQuestion(last.raw) {
        PlanDigests(questionsEnabled, DigestAll(raws), last.raw);
        assert (raws + [last.raw])[..|raws|] == raws;
        assert DigestAll(raws + [last.raw]) == DigestEvent(DigestAll(raws), last.raw).memory;
      } else {
        assert Digested(calls) == raws;
      }
    }
  }

  /** Every run of the router is a run of the routing and a run of the part memory, so all that is
      proved of those holds of it. */
  lemma RunsProject(questionsEnabled: bool, calls: seq<Call>)
    ensures RunCalls(questionsEnabled, calls).routing == R.Run(OpsOf(questionsEnabled, calls))
    ensures RunCalls(questionsEnabled, calls).memory == DigestAll(Digested(calls))
  {
    RunsRoute(questionsEnabled, calls);
    RunsDigest(questionsEnabled, calls);
  }

  class OpenCodeEventRouter {
    const questionsEnabled: bool
    var queues: map<R.Turn, nat>
    var queued: seq<seq<R.Item>>
    var sessionMessages: map<string, string>
    var sessionAssistants: map<string, string>
    var early: Dict<R.EarlyKey, R.Item>
    var messageRoles: map<(string, string), string>
    var messageParents: map<(string, string), string>
    var partTypes: map<PartKey, string>
    var partTexts: map<PartKey, string>
    var partConflicts: set<PartKey>
    var toolPartStatuses: map<PartKey, string>
    var calls: nat
    ghost var owners: seq<R.Turn>
    ghost var emitted: seq<Option<R.Item>>

    ghost function Routing(): R.Routing
      reads this
    {
      R.Routing(queues, queued, owners, sessionMessages, sessionAssistants, early, messageRoles, messageParents,
                emitted)
    }

    ghost function PartMemory(): Memory
      reads this
    {
      Memory(partTypes, partTexts, partConflicts, toolPartStatuses)
    }

    ghost predicate Valid()
      reads this
    {
      R.TurnsOk(Routing()) && calls == |emitted|
    }

    constructor (questionsEnabled: bool)
      ensures Valid() && this.questionsEnabled == questionsEnabled
      ensures Routing() == R.NoRouting && PartMemory() == NoMemory
    {
      this.questionsEnabled := questionsEnabled;
      queues, queued, sessionMessages, sessionAssistants, early := map[], [], map[], map[], EmptyDict();
      messageRoles, messageParents, partTypes, partTexts, partConflicts, toolPartStatuses :=
        map[], map[], map[], map[], {}, map[];
      calls, owners, emitted := 0, [], [];
    }

    /** Binds the message to the active turn and replays what was buffered for it. */
    method BindAssistant(session: string, message: string, queue: nat)
      requires R.ActiveQueue(Routing(), session) == Some(queue) && queue < |queued|
      modifies this`sessionAssistants, this`queued, this`early
      ensures Routing() == R.Bind(old(Routing()), session, message)
    {
      sessionAssistants := sessionAssistants[session := message];
      var key := (session, Some(message));
      queued := queued[queue := queued[queue] + early.At(key)];
      early := early.Pop(key);
    }

    /** Replays, in the order they were buffered, all messages known to answer the new turn. */
    method FlushBuffers(session: string, message: string, queue: nat)
      requires R.ActiveQueue(Routing(), session) == Some(queue) && queue < |queued|
      modifies this`sessionAssistants, this`queued, this`early
      ensures Routing() == R.FlushEarly(old(Routing()), session, message, old(early.keys))
    {
      var keys := early.keys;
      ghost var start := Routing();
      assert keys[0..] == keys;
      for i := 0 to |keys|
        invariant R.FlushEarly(Routing(), session, message, keys[i..]) == R.FlushEarly(start, session, message, keys)
        invariant R.ActiveQueue(Routing(), session) == Some(queue) && queue < |queued|
      {
        var k := keys[i];
        assert keys[i..][0] == k && keys[i..][1..] == keys[i + 1..];
        if k.0 == session && k.1.Some? && Get(messageParents, (session, k.1.value)) == Some(message) {
          BindAssistant(session, k.1.value, queue);
        }
      }
    }

    method OpenQueue(session: string, message: string) returns (queue: nat)
      requires |queued| == |owners|
      modifies this`queued, this`queues, this`owners, this`sessionMessages, this`sessionAssistants
      ensures Routing() == R.NewQueue(old(Routing()), session, message)
      ensures R.ActiveQueue(Routing(), session) == Some(queue) && queue == |old(queued)| < |queued|
    {
      queue := |queued|;
      queued := queued + [[]];
      queues := queues[(session, message) := queue];
      owners := owners + [(session, message)];
      sessionMessages := sessionMessages[session := message];
      sessionAssistants := sessionAssistants - {session};
    }

    method Register(session: string, message: string) returns (queue: nat)
      requires Valid()
      modifies this`queued, this`queues, this`owners, this`sessionMessages, this`sessionAssistants, this`early
      modifies this`calls, this`emitted
      ensures Valid() && queue == |old(queued)|
      ensures Routing() == R.RegisterStep(old(Routing()), session, message)
    {
      ghost var before := Routing();
      queue := OpenQueue(session, message);
      FlushBuffers(session, message, queue);
      calls := calls + 1;
      emitted := emitted + [None];
      assert Routing() == R.RegisterStep(before, session, message);
      R.RegisterKeepsTurns(before, session, message);
    }

    method Unregister(session: string, message: string)
      requires Valid()
      modifies this
      ensures Valid() && PartMemory() == old(PartMemory())
      ensures Routing() == R.UnregisterStep(old(Routing()), session, message)
    {
      R.ForgetKeepsInv(Routing(), session, message);
      ForgetTurn(session, message);
      calls := calls + 1;
      emitted := emitted + [None];
    }

    method ForgetTurn(session: string, message: string)
      modifies this`queues, this`sessionMessages, this`sessionAssistants
      ensures Routing() == R.Forget(old(Routing()), session, message)
    {
      queues := queues - {(session, message)};
      if Get(sessionMessages, session) == Some(message) {
        sessionMessages := sessionMessages - {session};
        sessionAssistants := sessionAssistants - {session};
      }
    }

    method InterruptAll(event: AgentEvent, ghost reason: string)
      requires R.TurnsOk(Routing()) && calls == |emitted| && event == RunFailed(reason)
      modifies this`queued
      ensures Routing() == R.Interrupted(old(Routing()), reason)
    {
      ghost var before, after := queued, R.Interrupted(Routing(), reason).logs;
      var todo := queues.Keys;
      while todo != {}
        invariant todo <= queues.Keys && |queued| == |after|
        invariant forall q :: 0 <= q < |queued| ==>
                    queued[q] == if owners[q] in todo && queues[owners[q]] == q then before[q] else after[q]
        decreases todo
      {
        var turn :| turn in todo;
        todo := todo - {turn};
        var q := queues[turn];
        assert owners[q] == turn && after[q] == before[q] + [R.Item(calls, turn.0, R.OfInterruption, event)];
        queued := queued[q := queued[q] + [R.Item(calls, turn.0, R.OfInterruption, event)]];
      }
      assert queued == after;
    }

    method HandleStreamInterruption(reason: string)
      requires Valid()
      modifies this
      ensures Valid() && PartMemory() == old(PartMemory())
      ensures Routing() == R.InterruptStep(old(Routing()), InterruptionText(reason))
    {
      InterruptAll(RunFailed("OpenCode event stream interrupted: " + reason), InterruptionText(reason));
      calls := calls + 1;
      emitted := emitted + [None];
    }

    method RememberPartDelta(raw: RawEvent)
      modifies this`partTexts
      ensures PartMemory() == RememberDelta(old(PartMemory()), raw)
    {
      if !raw.kind.PartDelta? || raw.delta.None? || raw.delta.value == "" {
        return;
      }
      var key := DeltaKey(raw);
      if key.None? || key.value in partConflicts {
        return;
      }
      partTexts :=
        partTexts[key.value := (if key.value in partTexts then partTexts[key.value] else "") + raw.delta.value];
    }

    method WithPartUpdateDelta(raw: RawEvent) returns (enriched: RawEvent)
      modifies this`partTexts, this`partConflicts
      ensures (PartMemory(), enriched) == WithUpdateDelta(old(PartMemory()), raw)
    {
      var key := UpdateKey(raw);
      if !raw.kind.PartUpdated? || key.None? || raw.part.value.text.None? {
        return raw;
      }
      var k, text := key.value, raw.part.value.text.value;
      var previous := Get(partTexts, k);
      partTexts := partTexts[k := text];
      var delta: string;
      if previous.None? {
        delta := text;
      } else if k in partConflicts {
        delta := "";
      } else if previous.value <= text {
        delta := text[|previous.value|..];
      } else {
        partConflicts := partConflicts + {k};
        delta := "";
      }
      enriched := raw.(delta := Some(delta));
    }

    method IsDuplicateToolPartStatus(raw: RawEvent) returns (duplicate: bool)
      modifies this`toolPartStatuses
      ensures duplicate == IsDuplicateTool(old(PartMemory()), raw)
      ensures PartMemory() == if duplicate then old(PartMemory()) else RememberToolStatus(old(PartMemory()), raw)
    {
      if !IsToolUpdate(raw) {
        return false;
      }
      var key, status := UpdateKey(raw).value, raw.part.value.state.status;
      if Get(toolPartStatuses, key) == Some(status) {
        return true;
      }
      toolPartStatuses := toolPartStatuses[key := status];
      return false;
    }

    method RememberMessageContext(raw: RawEvent)
      modifies this`messageRoles, this`messageParents, this`partTypes
      ensures Routing() == R.Remember(old(Routing()), raw.info)
      ensures PartMemory() == RememberPartType(old(PartMemory()), raw)
    {
      if raw.info.Some? && raw.info.value.sessionID.Some? && raw.info.value.id.Some? && raw.info.value.role.Some? {
        var info := raw.info.value;
        var key := (info.sessionID.value, info.id.value);
        messageRoles := messageRoles[key := info.role.value];
        if info.role.value == "assistant" && info.parentID.Some? {
          messageParents := messageParents[key := info.parentID.value];
        }
      }
      if UpdateKey(raw).Some? {
        partTypes := partTypes[UpdateKey(raw).value := raw.part.value.kind];
      }
    }

    method ReplayBoundAssistantEvents(raw: RawEvent)
      requires R.TurnsOk(Routing())
      modifies this`sessionAssistants, this`queued, this`early
      ensures Routing() == R.Replay(old(Routing()), raw.info)
    {
      var stated := R.ParentIn(raw.info);
      if stated.None? {
        return;
      }
      var ((session, message), parent) := stated.value;
      if Get(sessionMessages, session) != Some(parent) {
        return;
      }
      BindAssistant(session, message, queues[(session, parent)]);
    }

    method QueueForMessage(session: string, message: string) returns (queue: Option<nat>)
      requires R.TurnsOk(Routing())
      modifies this`sessionAssistants, this`queued, this`early
      ensures (Routing(), queue.Some?) == R.Resolve(old(Routing()), session, message)
      ensures queue.Some? ==> queue == R.ActiveQueue(Routing(), session) && queue.value < |queued|
    {
      if session !in sessionMessages {
        return None;
      }
      var active := sessionMessages[session];
      queue := Some(queues[(session, active)]);
      if message == active || Get(sessionAssistants, session) == Some(message) {
        return;
      }
      if Get(messageParents, (session, message)) == Some(active) {
        BindAssistant(session, message, queue.value);
        return;
      }
      return None;
    }

    /** Puts an item where its queue lookup said, or buffers it. */
    method PutItem(found: bool, item: R.Item, buffered: bool)
      requires R.TurnsOk(Routing()) && (found ==> R.ActiveQueue(Routing(), item.session).Some?)
      modifies this`queued, this`early
      ensures Routing() == R.Place(old(Routing()), found, item, buffered)
    {
      if found {
        var queue := queues[(item.session, sessionMessages[item.session])];
        queued := queued[queue := queued[queue] + [item]];
      } else if buffered {
        early := early.Push(R.KeyOf(item), item);
      }
    }

    method Route(d: R.Decision)
      requires R.TurnsOk(Routing()) && calls == |emitted|
      modifies this`sessionAssistants, this`queued, this`early
      ensures Routing() == R.Deliver(old(Routing()), d)
    {
      match d {
        case Drop =>
        case ToMessage(session, message, event) =>
          if event.IsTextStream() && Get(messageRoles, (session, message)) == Some("user") {
            return;
          }
          var queue := QueueForMessage(session, message);
          PutItem(queue.Some?, R.Item(calls, session, R.OfMessage(message), event), true);
        case ToBoundMessage(session, message, event) =>
          var queue := QueueForMessage(session, message);
          PutItem(queue.Some?, R.Item(calls, session, R.OfMessage(message), event), false);
        case ToSession(session, event) =>
          PutItem(session in sessionMessages, R.Item(calls, session, R.OfSession, event), true);
        case ToActiveTurn(session, message, event) =>
          PutItem(Get(sessionMessages, session) == Some(message), R.Item(calls, session, R.OfMessage(message), event),
                  false);
      }
    }

    method LearnContext(raw: RawEvent)
      requires R.TurnsOk(Routing())
      modifies this`sessionAssistants, this`queued, this`early, this`messageRoles, this`messageParents, this`partTypes
      ensures PartMemory() == RememberPartType(old(PartMemory()), raw)
      ensures Routing() == R.Learn(old(Routing()), raw.info)
    {
      RememberMessageContext(raw);
      ReplayBoundAssistantEvents(raw);
    }

    /** The memory's part of `handle_event` and, unless the event repeats a tool status, its context. */
    method DigestAndLearn(raw: RawEvent) returns (forwarded: Option<RawEvent>)
      requires R.TurnsOk(Routing())
      modifies this`sessionAssistants, this`queued, this`early, this`messageRoles, this`messageParents
      modifies this`partTypes, this`partTexts, this`partConflicts, this`toolPartStatuses
      ensures Digest(PartMemory(), forwarded) == DigestEvent(old(PartMemory()), raw)
      ensures Routing() == if forwarded.Some? then R.Learn(old(Routing()), raw.info) else old(Routing())
    {
      var enriched, duplicate := DigestParts(raw);
      if duplicate {
        return None;
      }
      LearnContext(enriched);
      forwarded := Some(enriched);
    }

    /** The texts and tool statuses of an event; its part's type is still to be remembered. */
    method DigestParts(raw: RawEvent) returns (enriched: RawEvent, duplicate: bool)
      modifies this`partTexts, this`partConflicts, this`toolPartStatuses
      ensures enriched.info == raw.info
      ensures DigestEvent(old(PartMemory()), raw) ==
              if duplicate then Digest(PartMemory(), None)
                else Digest(RememberPartType(PartMemory(), enriched), Some(enriched))
    {
      DigestTexts(PartMemory(), raw);
      RememberPartDelta(raw);
      enriched := WithPartUpdateDelta(raw);
      duplicate := IsDuplicateToolPartStatus(enriched);
    }

    /** Everything of `handle_event` up to the choice of a queue. */
    method Consult(raw: RawEvent) returns (decision: R.Decision, ghost info: Option<Info>)
      requires R.TurnsOk(Routing())
      modifies this`sessionAssistants, this`queued, this`early, this`messageRoles, this`messageParents
      modifies this`partTypes, this`partTexts, this`partConflicts, this`toolPartStatuses
      ensures Plan(PartMemory(), info, decision) == PlanEvent(questionsEnabled, old(PartMemory()), raw)
      ensures Routing() == R.Learn(old(Routing()), info)
    {
      info := None;
      if IsQuestion(raw) {
        decision := PlanQuestion(questionsEnabled, NoMemory, raw).decision;
        return;
      }
      var forwarded := DigestAndLearn(raw);
      if forwarded.None? {
        decision := R.Drop;
      } else {
        decision := Decide(Memory(partTypes, partTexts, partConflicts, toolPartStatuses), forwarded.value);
        info := raw.info;
      }
    }

    method HandleEvent(raw: RawEvent)
      requires Valid()
      modifies this
      ensures Valid()
      ensures var plan := PlanEvent(questionsEnabled, old(PartMemory()), raw);
              PartMemory() == plan.memory && Routing() == R.HandleStep(old(Routing()), plan.info, plan.decision)
    {
      ghost var before, plan := Routing(), PlanEvent(questionsEnabled, PartMemory(), raw);
      R.LearnKeepsTurns(before, plan.info);
      var decision, info := Consult(raw);
      assert decision == plan.decision && info == plan.info && PartMemory() == plan.memory;
      RouteAndRecord(decision);
    }

    /** Routes an event and closes the call. */
    method RouteAndRecord(decision: R.Decision)
      requires Valid()
      modifies this`sessionAssistants, this`queued, this`early, this`calls, this`emitted
      ensures Valid()
      ensures Routing() ==
                R.Record(old(Routing()), R.Deliver(old(Routing()), decision), R.Accepted(old(Routing()), decision))
    {
      ghost var learned := Routing();
      R.DeliverKeepsTurns(learned, decision);
      Route(decision);
      calls := calls + 1;
      emitted := emitted + [R.Accepted(learned, decision)];
      assert Routing() == R.Record(learned, R.Deliver(learned, decision), R.Accepted(learned, decision));
    }
  }
}
