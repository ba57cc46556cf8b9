/** Where the event router puts events (agent/opencode_server.py): queues, the early buffer and the
    binding of assistant messages to turns. A queue is named by its creation number and keeps every
    item ever put on it. */
module OpenCodeRouting {
  import opened Wrappers
  import opened AgentEvents
  import opened OpenCodeEvents

  /** session, user message */
  type Turn = (string, string)

  type EarlyKey = (string, Option<string>)

  /** Why an event is on a queue: it belongs to a message, to the session, or was made for every
      queue when the event stream broke. */
  datatype Origin = OfMessage(message: string) | OfSession | OfInterruption

  /** An event with the number of the router call that brought it. */
  datatype Item = Item(at: nat, session: string, origin: Origin, event: AgentEvent)

  /** `emitted` is a history variable: per call, the item the router had to keep. */
  datatype Routing = Routing(
    queues: map<Turn, nat>, logs: seq<seq<Item>>, owners: seq<Turn>,
    active: map<string, string>, assistants: map<string, string>, early: Dict<EarlyKey, Item>,
    roles: map<(string, string), string>, parents: map<(string, string), string>,
    emitted: seq<Option<Item>>)

  const NoRouting := Routing(map[], [], [], map[], map[], EmptyDict(), map[], map[], [])

  /** What translation asks the router to do with an event. */
  datatype Decision =
    | Drop
    | ToMessage(session: string, message: string, event: AgentEvent)
    | ToBoundMessage(session: string, message: string, event: AgentEvent)  // not buffered
    | ToSession(session: string, event: AgentEvent)
    | ToActiveTurn(session: string, message: string, event: AgentEvent)    // only for the active turn's own message

  datatype Op =
    | Register(session: string, message: string)
    | Unregister(session: string, message: string)
    | Interrupt(reason: string)
    | Handle(info: Option<Info>, decision: Decision)

  /** `_queue_for_active_turn` */
  function ActiveQueue(r: Routing, s: string): Option<nat> {
    if s in r.active then Get(r.queues, (s, r.active[s])) else None
  }

  function Put(r: Routing, q: nat, items: seq<Item>): Routing {
    if q < |r.logs| then r.(logs := r.logs[q := r.logs[q] + items]) else r
  }

  /** Binds an assistant message to the active turn and replays its buffer. */
  function Bind(r: Routing, s: string, x: string): Routing {
    if ActiveQueue(r, s).None? then r
    else Put(r, ActiveQueue(r, s).value, r.early.At((s, Some(x)))).(
           assistants := r.assistants[s := x], early := r.early.Pop((s, Some(x))))
  }

  /** `_queue_for_message`: the state after its binding side effect, and whether there is a queue. */
  function Resolve(r: Routing, s: string, x: string): (Routing, bool) {
    if ActiveQueue(r, s).None? then (r, false)
    else if x == r.active[s] || Get(r.assistants, s) == Some(x) then (r, true)
    else if Get(r.parents, (s, x)) == Some(r.active[s]) then (Bind(r, s, x), true)
    else (r, false)
  }

  /** Puts an item on the active queue of its session, or into the buffer, or nowhere. */
  function Place(r: Routing, found: bool, it: Item, buffered: bool): Routing {
    if found && ActiveQueue(r, it.session).Some? then Put(r, ActiveQueue(r, it.session).value, [it])
    else if !found && buffered then r.(early := r.early.Push(KeyOf(it), it))
    else r
  }

  function KeyOf(it: Item): EarlyKey {
    (it.session, if it.origin.OfMessage? then Some(it.origin.message) else None)
  }

  function NewQueue(r: Routing, s: string, m: string): Routing {
    r.(queues := r.queues[(s, m) := |r.logs|], logs := r.logs + [[]], owners := r.owners + [(s, m)],
       active := r.active[s := m], assistants := r.assistants - {s})
  }

  /** Replays the buffers of the messages that are known to answer the new turn. */
  function FlushEarly(r: Routing, s: string, m: string, keys: seq<EarlyKey>): Routing
    decreases |keys|
  {
    if keys == [] then r
    else
      var k := keys[0];
      var r1 := if k.0 == s && k.1.Some? && Get(r.parents, (s, k.1.value)) == Some(m) then Bind(r, s, k.1.value) else r;
      FlushEarly(r1, s, m, keys[1..])
  }

  function Forget(r: Routing, s: string, m: string): Routing {
    var r1 := r.(queues := r.queues - {(s, m)});
    if Get(r.active, s) == Some(m) then r1.(active := r.active - {s}, assistants := r.assistants - {s}) else r1
  }

  function Interrupted(r: Routing, reason: string): Routing {
    r.(logs := seq(|r.logs|, q requires 0 <= q < |r.logs| =>
      if q < |r.owners| && r.owners[q] in r.queues && r.queues[r.owners[q]] == q
      then r.logs[q] + [Item(|r.emitted|, r.owners[q].0, OfInterruption, RunFailed(reason))] else r.logs[q]))
  }

  /** The parent an event states, under the key it is recorded at. */
  function ParentIn(info: Option<Info>): Option<((string, string), string)> {
    if info.Some? && info.value.sessionID.Some? && info.value.id.Some? && info.value.role == Some("assistant") &&
      info.value.parentID.Some?
    then Some(((info.value.sessionID.value, info.value.id.value), info.value.parentID.value)) else None
  }

  /** The first half of `_remember_message_context`. */
  function Remember(r: Routing, info: Option<Info>): Routing {
    if info.None? || info.value.sessionID.None? || info.value.id.None? || info.value.role.None? then r
    else
      var key := (info.value.sessionID.value, info.value.id.value);
      var r1 := r.(roles := r.roles[key := info.value.role.value]);
      if ParentIn(info).Some? then r1.(parents := r1.parents[key := ParentIn(info).value.1]) else r1
  }

  /** `_replay_bound_assistant_events` */
  function Replay(r: Routing, info: Option<Info>): Routing {
    if ParentIn(info).None? then r
    else
      var ((s, x), p) := ParentIn(info).value;
      if Get(r.active, s) == Some(p) then Bind(r, s, x) else r
  }

  function Learn(r: Routing, info: Option<Info>): Routing { Replay(Remember(r, info), info) }

  /** `_is_user_text_event` */
  predicate IsUserText(r: Routing, s: string, x: string, event: AgentEvent) {
    event.IsTextStream() && Get(r.roles, (s, x)) == Some("user")
  }

  function Deliver(r: Routing, d: Decision): Routing {
    var n := |r.emitted|;
    match d
    case Drop => r
    case ToMessage(s, x, event) =>
      if IsUserText(r, s, x, event) then r
      else var (r1, found) := Resolve(r, s, x); Place(r1, found, Item(n, s, OfMessage(x), event), true)
    case ToBoundMessage(s, x, event) =>
      var (r1, found) := Resolve(r, s, x); Place(r1, found, Item(n, s, OfMessage(x), event), false)
    case ToSession(s, event) => Place(r, ActiveQueue(r, s).Some?, Item(n, s, OfSession, event), true)
    case ToActiveTurn(s, x, event) => Place(r, Get(r.active, s) == Some(x), Item(n, s, OfMessage(x), event), false)
  }

  /** Message x of session s is known to belong to the active turn. */
  predicate IsOfActiveTurn(r: Routing, s: string, x: string) {
    && s in r.active
    && (x == r.active[s] || Get(r.assistants, s) == Some(x) || Get(r.parents, (s, x)) == Some(r.active[s]))
  }

  /** The item that must not get lost, stated without following where it goes. */
  function Accepted(r: Routing, d: Decision): Option<Item> {
    var n := |r.emitted|;
    match d
    case Drop => None
    case ToMessage(s, x, event) => if IsUserText(r, s, x, event) then None else Some(Item(n, s, OfMessage(x), event))
    case ToBoundMessage(s, x, event) => if IsOfActiveTurn(r, s, x) then Some(Item(n, s, OfMessage(x), event)) else None
    case ToSession(s, event) => Some(Item(n, s, OfSession, event))
    case ToActiveTurn(s, x, event) =>
      if Get(r.active, s) == Some(x) then Some(Item(n, s, OfMessage(x), event)) else None
  }

  /** The routing r1 reached from r by a call that had to keep the given item. */
  function Record(r: Routing, r1: Routing, it: Option<Item>): Routing { r1.(emitted := r.emitted + [it]) }

  /** `register` */
  function RegisterStep(r: Routing, s: string, m: string): Routing {
    Record(r, FlushEarly(NewQueue(r, s, m), s, m, r.early.keys), None)
  }

  /** `unregister` */
  function UnregisterStep(r: Routing, s: string, m: string): Routing { Record(r, Forget(r, s, m), None) }

  /** `handle_stream_interruption` */
  function InterruptStep(r: Routing, reason: string): Routing { Record(r, Interrupted(r, reason), None) }

  /** `handle_event`, once it is known what the event asks for. */
  function HandleStep(r: Routing, info: Option<Info>, d: Decision): Routing {
    var r1 := Learn(r, info);
    Record(r, Deliver(r1, d), Accepted(r1, d))
  }

  function Step(r: Routing, op: Op): Routing {
    match op
    case Register(s, m) => RegisterStep(r, s, m)
    case Unregister(s, m) => UnregisterStep(r, s, m)
    case Interrupt(reason) => InterruptStep(r, reason)
    case Handle(info, d) => HandleStep(r, info, d)
  }

  function Run(ops: seq<Op>): Routing {
    if ops == [] then NoRouting else Step(Run(ops[..|ops| - 1]), ops[|ops| - 1])
  }

  lemma RunAppend(ops: seq<Op>, op: Op)
    ensures Run(ops + [op]) == Step(Run(ops), op)
  {
    assert (ops + [op])[..|ops|] == ops;
  }

  lemma RunOfThree(a: Op, b: Op, c: Op)
    ensures Run([a]) == Step(NoRouting, a) && Run([a, b]) == Step(Run([a]), b) && Run([a, b, c]) == Step(Run([a, b]), c)
  {
    assert [a, b, c][..2] == [a, b] && [a, b][..1] == [a] && [a][..0] == [];
  }

  lemma LearnFrame(r: Routing, info: Option<Info>)
    ensures Learn(r, info).emitted == r.emitted && Learn(r, info).active == r.active
  {
  }

  /** The context of an assistant message that answers p. */
  function Answers(s: string, x: string, p: string): Option<Info> {
    Some(Info(Some(s), Some(x), Some("assistant"), Some(p)))
  }

  // The structural invariant.

  /** A buffered list: non-empty, its own key's items, in order of arrival, all from before call n. */
  ghost predicate EarlyListOk(k: EarlyKey, l: seq<Item>, n: nat) {
    && l != []
    && (forall j :: 0 <= j < |l| ==> KeyOf(l[j]) == k && !l[j].origin.OfInterruption? && l[j].at < n)
    && (forall i, j :: 0 <= i < j < |l| ==> l[i].at < l[j].at)
  }

  ghost predicate LogOk(l: seq<Item>, n: nat) {
    forall i :: 0 <= i < |l| ==> l[i].at < n
  }

  ghost predicate ItemsOk(early: Dict<EarlyKey, Item>, logs: seq<seq<Item>>, n: nat) {
    && early.Valid()
    && (forall k <- early.lists :: EarlyListOk(k, early.lists[k], n))
    && (forall q :: 0 <= q < |logs| ==> LogOk(logs[q], n))
  }

  /** An active message has a queue and a queue knows its turn. */
  ghost predicate QueuesOk(queues: map<Turn, nat>, owners: seq<Turn>, active: map<string, string>) {
    && (forall t <- queues :: queues[t] < |owners| && owners[queues[t]] == t)
    && (forall s <- active :: (s, active[s]) in queues)
  }

  /** Moreover only an active session has an assistant. */
  ghost predicate TurnsOk(r: Routing) {
    && |r.logs| == |r.owners|
    && QueuesOk(r.queues, r.owners, r.active)
    && r.assistants.Keys <= r.active.Keys
  }

  ghost predicate Inv(r: Routing, n: nat) { TurnsOk(r) && ItemsOk(r.early, r.logs, n) }

  lemma PutKeepsInv(r: Routing, q: nat, items: seq<Item>, n: nat)
    requires Inv(r, n) && forall j :: 0 <= j < |items| ==> items[j].at < n
    ensures Inv(Put(r, q, items), n)
  {
    assert q < |r.logs| ==> LogOk(r.logs[q], n);
  }

  lemma BindKeepsInv(r: Routing, s: string, x: string, n: nat)
    requires Inv(r, n)
    ensures Inv(Bind(r, s, x), n)
  {
    if ActiveQueue(r, s).Some? {
      var k := (s, Some(x));
      assert k in r.early.lists ==> EarlyListOk(k, r.early.lists[k], n);
      PutKeepsInv(r, ActiveQueue(r, s).value, r.early.At(k), n);
    }
  }

  lemma InvMonotone(r: Routing, n: nat, m: nat)
    requires Inv(r, n) && n <= m
    ensures Inv(r, m)
  {
    forall k <- r.early.lists ensures EarlyListOk(k, r.early.lists[k], m) {
      assert EarlyListOk(k, r.early.lists[k], n);
    }
    forall q | 0 <= q < |r.logs| ensures LogOk(r.logs[q], m) {
      assert LogOk(r.logs[q], n);
    }
  }

  lemma PlaceKeepsInv(r: Routing, found: bool, it: Item, buffered: bool, n: nat, m: nat)
    requires Inv(r, n) && it.at == n && m == n + 1 && !it.origin.OfInterruption?
    ensures Inv(Place(r, found, it, buffered), m)
  {
    InvMonotone(r, n, m);
    if found && ActiveQueue(r, it.session).Some? {
      PutKeepsInv(r, ActiveQueue(r, it.session).value, [it], m);
    } else if !found && buffered {
      assert KeyOf(it) in r.early.lists ==> EarlyListOk(KeyOf(it), r.early.lists[KeyOf(it)], n);
      assert EarlyListOk(KeyOf(it), r.early.At(KeyOf(it)) + [it], m);
    }
  }

  lemma {:induction false} FlushKeepsInv(r: Routing, s: string, m: string, keys: seq<EarlyKey>, n: nat)
    requires Inv(r, n)
    ensures Inv(FlushEarly(r, s, m, keys), n)
    decreases |keys|
  {
    if keys != [] {
      var k := keys[0];
      if k.0 == s && k.1.Some? && Get(r.parents, (s, k.1.value)) == Some(m) {
        BindKeepsInv(r, s, k.1.value, n);
        FlushKeepsInv(Bind(r, s, k.1.value), s, m, keys[1..], n);
      } else {
        FlushKeepsInv(r, s, m, keys[1..], n);
      }
    }
  }

  lemma LearnKeepsInv(r: Routing, info: Option<Info>, n: nat)
    requires Inv(r, n)
    ensures Inv(Learn(r, info), n)
  {
    if ParentIn(info).Some? {
      BindKeepsInv(Remember(r, info), ParentIn(info).value.0.0, ParentIn(info).value.0.1, n);
    }
  }

  lemma SendKeepsInv(r: Routing, s: string, x: string, event: AgentEvent, buffered: bool, n: nat, m: nat)
    requires Inv(r, n) && m == n + 1
    ensures Inv(Place(Resolve(r, s, x).0, Resolve(r, s, x).1, Item(n, s, OfMessage(x), event), buffered), m)
  {
    BindKeepsInv(r, s, x, n);
    PlaceKeepsInv(Resolve(r, s, x).0, Resolve(r, s, x).1, Item(n, s, OfMessage(x), event), buffered, n, m);
  }

  lemma DeliverKeepsInv(r: Routing, d: Decision, n: nat, m: nat)
    requires Inv(r, n) && n == |r.emitted| && m == n + 1
    ensures Inv(Deliver(r, d), m)
  {
    InvMonotone(r, n, m);
    match d
    case Drop =>
    case ToMessage(s, x, event) =>
      SendKeepsInv(r, s, x, event, true, n, m);
    case ToBoundMessage(s, x, event) =>
      SendKeepsInv(r, s, x, event, false, n, m);
    case ToSession(s, event) =>
      PlaceKeepsInv(r, ActiveQueue(r, s).Some?, Item(n, s, OfSession, event), true, n, m);
    case ToActiveTurn(s, x, event) =>
      PlaceKeepsInv(r, Get(r.active, s) == Some(x), Item(n, s, OfMessage(x), event), false, n, m);
  }

  lemma InterruptKeepsInv(r: Routing, reason: string, n: nat, m: nat)
    requires Inv(r, n) && n == |r.emitted| && m == n + 1
    ensures Inv(Interrupted(r, reason), m)
  {
    InvMonotone(r, n, m);
    forall q | 0 <= q < |r.logs| ensures LogOk(Interrupted(r, reason).logs[q], m) {
      assert LogOk(r.logs[q], m);
    }
  }

  lemma RegisterKeepsInv(r: Routing, s: string, m: string, n: nat)
    requires Inv(r, n)
    ensures Inv(RegisterStep(r, s, m), n)
  {
    FlushKeepsInv(NewQueue(r, s, m), s, m, r.early.keys, n);
  }

  lemma ForgetKeepsInv(r: Routing, s: string, m: string)
    requires TurnsOk(r)
    ensures TurnsOk(Forget(r, s, m))
  {
  }

  lemma HandleKeepsInv(r: Routing, info: Option<Info>, d: Decision, n: nat, n1: nat)
    requires Inv(r, n) && n == |r.emitted| && n1 == n + 1
    ensures Inv(HandleStep(r, info, d), n1)
  {
    LearnKeepsInv(r, info, n);
    DeliverKeepsInv(Learn(r, info), d, n, n1);
  }

  lemma StepKeepsInv(r: Routing, op: Op, n: nat, n1: nat)
    requires Inv(r, n) && n == |r.emitted| && n1 == n + 1
    ensures Inv(Step(r, op), n1) && |Step(r, op).emitted| == n1
  {
    InvMonotone(r, n, n1);
    match op
    case Register(s, m) => RegisterKeepsInv(r, s, m, n1);
    case Unregister(s, m) => ForgetKeepsInv(r, s, m);
    case Interrupt(reason) => InterruptKeepsInv(r, reason, n, n1);
    case Handle(info, d) => HandleKeepsInv(r, info, d, n, n1);
  }

  lemma {:induction false} RunKeepsInv(ops: seq<Op>)
    ensures Inv(Run(ops), |ops|) && |Run(ops).emitted| == |ops|
  {
    if ops != [] {
      RunKeepsInv(ops[..|ops| - 1]);
      StepKeepsInv(Run(ops[..|ops| - 1]), ops[|ops| - 1], |ops| - 1, |ops|);
    }
  }

  // The turns alone.

  lemma {:induction false} FlushKeepsTurns(r: Routing, s: string, m: string, keys: seq<EarlyKey>)
    requires TurnsOk(r)
    ensures TurnsOk(FlushEarly(r, s, m, keys))
    decreases |keys|
  {
    if keys != [] {
      var k := keys[0];
      FlushKeepsTurns(
        if k.0 == s && k.1.Some? && Get(r.parents, (s, k.1.value)) == Some(m) then Bind(r, s, k.1.value)
          else r, s, m, keys[1..]);
    }
  }

  lemma BindKeepsTurns(r: Routing, s: string, x: string)
    requires TurnsOk(r)
    ensures TurnsOk(Bind(r, s, x))
  {
  }

  lemma PlaceKeepsTurns(r: Routing, found: bool, it: Item, buffered: bool)
    requires TurnsOk(r)
    ensures TurnsOk(Place(r, found, it, buffered))
  {
  }

  /** Looking a message up does nothing, or binds it. */
  lemma ResolveIs(r: Routing, s: string, x: string)
    ensures var r1 := Resolve(r, s, x).0;
            r1 == r || (r1 == Bind(r, s, x) && s in r.active && Get(r.parents, (s, x)) == Some(r.active[s]))
  {
  }

  lemma SendKeepsTurns(r: Routing, s: string, x: string, it: Item, buffered: bool)
    requires TurnsOk(r)
    ensures TurnsOk(Place(Resolve(r, s, x).0, Resolve(r, s, x).1, it, buffered))
  {
    ResolveIs(r, s, x);
    BindKeepsTurns(r, s, x);
    PlaceKeepsTurns(Resolve(r, s, x).0, Resolve(r, s, x).1, it, buffered);
  }

  lemma DeliverKeepsTurns(r: Routing, d: Decision)
    requires TurnsOk(r)
    ensures TurnsOk(Deliver(r, d))
  {
    if d.ToMessage? || d.ToBoundMessage? {
      SendKeepsTurns(r, d.session, d.message, Item(|r.emitted|, d.session, OfMessage(d.message), d.event),
                     d.ToMessage?);
    }
  }

  lemma RegisterKeepsTurns(r: Routing, s: string, m: string)
    requires TurnsOk(r)
    ensures TurnsOk(RegisterStep(r, s, m))
  {
    FlushKeepsTurns(NewQueue(r, s, m), s, m, r.early.keys);
  }

  lemma LearnKeepsTurns(r: Routing, info: Option<Info>)
    requires TurnsOk(r)
    ensures TurnsOk(Learn(r, info)) && Learn(r, info).emitted == r.emitted
  {
  }
}
