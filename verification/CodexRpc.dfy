/** The JSON-RPC client of the Codex app server (agent/codex_stdio.py; agent/codex_websocket.py has the
    same fields and the same loop): which answer completes which request. */
module CodexRpc {
  import opened Wrappers
  import opened AgentEvents

  datatype RpcId = Number(n: int) | Text(s: string)

  /** A message of the server; `name` is its method, `result` None where it is absent or no object. */
  datatype Message = Message(id: Option<RpcId>, name: Option<string>, error: Option<string>, result: Option<Payload>)

  datatype Outcome = Fulfilled(result: Payload) | Rejected(error: string) | BadResult | ConnectionClosed

  function OutcomeIn(m: Message): Outcome {
    if m.error.Some? then Rejected(m.error.value)
    else if m.result.Some? then Fulfilled(m.result.value)
    else BadResult
  }

  /** An answer, by section 5 of the JSON-RPC 2.0 Specification: it has the request's id and no method. */
  predicate Answers(m: Message, id: int) { m.name.None? && m.id == Some(Number(id)) }

  // The client as a state machine; `listening` tells that the reader runs.

  datatype Client = Client(
    nextId: int, pending: map<int, nat>, futures: seq<Option<Outcome>>, events: seq<Message>, listening: bool)

  datatype ClientStep = Connect | Send | Receive(message: Message) | EndOfStream

  const NewClient: Client := Client(1, map[], [], [], false)

  function Close(futures: seq<Option<Outcome>>, which: set<nat>): seq<Option<Outcome>> {
    seq(|futures|, (i: nat) requires i < |futures| => if i in which && futures[i].None? then Some(ConnectionClosed)
        else futures[i])
  }

  predicate IsPending(c: Client, m: Message) {
    && m.name.None? && m.id.Some? && m.id.value.Number? && m.id.value.n in c.pending
    && c.pending[m.id.value.n] < |c.futures|
  }

  function NextClient(c: Client, step: ClientStep): Client {
    match step
    case Connect => c.(listening := true)
    case Send =>
      c.(nextId := c.nextId + 1, pending := c.pending[c.nextId := |c.futures|], futures := c.futures + [None])
    case Receive(m) =>
      if !c.listening then c
      else if IsPending(c, m) then
        c.(pending := c.pending - {m.id.value.n}, futures := c.futures[c.pending[m.id.value.n] := Some(OutcomeIn(m))])
      else c.(events := c.events + [m])
    case EndOfStream =>
      if !c.listening then c
      else c.(pending := map[], futures := Close(c.futures, c.pending.Values), listening := false)
  }

  function RunClient(trace: seq<ClientStep>): Client {
    if trace == [] then NewClient else NextClient(RunClient(trace[..|trace| - 1]), trace[|trace| - 1])
  }

  // What is to become of the requests, told from the trace alone.

  /** The number of requests sent; the k-th one has id k. */
  function Sent(trace: seq<ClientStep>): nat {
    if trace == [] then 0 else Sent(trace[..|trace| - 1]) + if trace[|trace| - 1].Send? then 1 else 0
  }

  function Listening(trace: seq<ClientStep>): bool {
    if trace == [] then false
    else
      match trace[|trace| - 1]
      case Connect => true
      case EndOfStream => false
      case _ => Listening(trace[..|trace| - 1])
  }

  /** Step i of the trace settles request k, unless an earlier one did: the request was sent, the reader
      listens, and sees an answer to it or the end of the stream. */
  predicate Settles(trace: seq<ClientStep>, i: nat, k: nat)
    requires i < |trace|
  {
    && 1 <= k <= Sent(trace[..i]) && Listening(trace[..i])
    && (trace[i].EndOfStream? || (trace[i].Receive? && Answers(trace[i].message, k)))
  }

  function OutcomeAt(step: ClientStep): Outcome { if step.Receive? then OutcomeIn(step.message) else ConnectionClosed }

  /** The outcome is that of the first step to settle the request. */
  ghost predicate IsOutcome(trace: seq<ClientStep>, k: nat, outcome: Option<Outcome>) {
    match outcome
    case None => forall i :: 0 <= i < |trace| ==> !Settles(trace, i, k)
    case Some(o) => exists i :: 0 <= i < |trace| && IsFirst(trace, i, k) && OutcomeAt(trace[i]) == o
  }

  ghost predicate IsFirst(trace: seq<ClientStep>, i: nat, k: nat)
    requires i < |trace|
  {
    Settles(trace, i, k) && forall j :: 0 <= j < i ==> !Settles(trace, j, k)
  }

  ghost predicate Outstanding(trace: seq<ClientStep>, k: nat) {
    1 <= k <= Sent(trace) && forall i :: 0 <= i < |trace| ==> !Settles(trace, i, k)
  }

  /** Everything else that was heard, in order: server requests, whatever their ids, notifications, and
      answers that nobody waits for. */
  ghost function Heard(trace: seq<ClientStep>): seq<Message> {
    if trace == [] then []
    else
      var front, last := trace[..|trace| - 1], trace[|trace| - 1];
      Heard(front) +
      if last.Receive? && Listening(front) && !exists k: nat :: Outstanding(front, k) && Answers(last.message, k)
      then [last.message] else []
  }

  // The client does that.

  function FutureOf(c: Client, k: nat): Option<Outcome> { if 1 <= k <= |c.futures| then c.futures[k - 1] else None }

  /** Request k has the k-th future, and is pending as long as that is not completed. */
  ghost predicate PendingOk(c: Client) {
    && c.nextId == |c.futures| + 1
    && (forall k <- c.pending :: 1 <= k <= |c.futures| && c.pending[k] == k - 1 && c.futures[k - 1].None?)
    && (forall k :: 1 <= k <= |c.futures| && c.futures[k - 1].None? ==> k in c.pending)
  }

  ghost predicate OutcomesOk(c: Client, trace: seq<ClientStep>) { forall k: nat :: IsOutcome(trace, k, FutureOf(c, k)) }

  ghost predicate Correlated(c: Client, trace: seq<ClientStep>) {
    && |c.futures| == Sent(trace) && c.listening == Listening(trace)
    && PendingOk(c) && OutcomesOk(c, trace) && c.events == Heard(trace)
  }

  lemma CloseCompletes(c: Client)
    requires PendingOk(c)
    ensures forall i :: 0 <= i < |c.futures| ==>
              Close(c.futures, c.pending.Values)[i] == if c.futures[i].None? then Some(ConnectionClosed)
                else c.futures[i]
  {
    forall i | 0 <= i < |c.futures| && c.futures[i].None? ensures i in c.pending.Values {
      assert c.pending[i + 1] == i;
    }
  }

  lemma PendingStaysOk(c: Client, step: ClientStep)
    requires PendingOk(c)
    ensures PendingOk(NextClient(c, step))
  {
    match step
    case Connect =>
    case Send =>
    case Receive(m) => ReceiveStaysOk(c, m);
    case EndOfStream => CloseCompletes(c);
  }

  lemma ReceiveStaysOk(c: Client, m: Message)
    requires PendingOk(c)
    ensures PendingOk(NextClient(c, Receive(m)))
  {
    if c.listening && IsPending(c, m) {
      var k := m.id.value.n;
      var c1 := NextClient(c, Receive(m));
      assert c.pending[k] == k - 1;
      forall j | j in c1.pending ensures 1 <= j <= |c1.futures| && c1.pending[j] == j - 1 && c1.futures[j - 1].None? {
        assert c.futures[j - 1].None?;
      }
    }
  }

  /** What a step does to one future. */
  lemma NextFuture(c: Client, step: ClientStep, k: nat)
    requires PendingOk(c)
    ensures FutureOf(NextClient(c, step), k) ==
            if FutureOf(c, k).Some? then FutureOf(c, k)
            else if 1 <= k <= |c.futures| && c.listening &&
              (step.EndOfStream? || (step.Receive? && Answers(step.message, k)))
            then Some(OutcomeAt(step)) else None
  {
    CloseCompletes(c);
  }

  /** What an earlier part of a trace settles, the whole does, and no other step before its end. */
  lemma SettlesInFront(trace: seq<ClientStep>, i: nat, k: nat)
    requires i < |trace| - 1
    ensures Settles(trace[..|trace| - 1], i, k) <==> Settles(trace, i, k)
  {
    assert trace[..|trace| - 1][..i] == trace[..i];
  }

  lemma OutcomeStays(trace: seq<ClientStep>, k: nat, o: Outcome)
    requires trace != [] && IsOutcome(trace[..|trace| - 1], k, Some(o))
    ensures IsOutcome(trace, k, Some(o))
  {
    var front := trace[..|trace| - 1];
    var i :| 0 <= i < |front| && IsFirst(front, i, k) && OutcomeAt(front[i]) == o;
    forall j | 0 <= j <= i ensures Settles(trace, j, k) <==> Settles(front, j, k) {
      SettlesInFront(trace, j, k);
    }
    assert IsFirst(trace, i, k);
  }

  /** The last step decides on a request that was outstanding. */
  lemma OutcomeComes(trace: seq<ClientStep>, k: nat)
    requires trace != [] && IsOutcome(trace[..|trace| - 1], k, None)
    ensures IsOutcome(trace, k, if Settles(trace, |trace| - 1, k) then Some(OutcomeAt(trace[|trace| - 1])) else None)
  {
    var front, n := trace[..|trace| - 1], |trace| - 1;
    forall j | 0 <= j < n ensures !Settles(trace, j, k) {
      SettlesInFront(trace, j, k);
      assert !Settles(front, j, k);
    }
    if Settles(trace, n, k) {
      assert IsFirst(trace, n, k);
    }
  }

  lemma {:induction false} SentGrows(trace: seq<ClientStep>, i: nat)
    requires i <= |trace|
    ensures Sent(trace[..i]) <= Sent(trace)
  {
    if i == |trace| {
      assert trace[..i] == trace;
    } else {
      SentGrows(trace[..|trace| - 1], i);
      assert trace[..|trace| - 1][..i] == trace[..i];
    }
  }

  /** The messages that answer an outstanding request are those whose id is pending. */
  lemma PendingIffOutstanding(c: Client, trace: seq<ClientStep>, m: Message)
    requires |c.futures| == Sent(trace) && PendingOk(c) && OutcomesOk(c, trace)
    ensures IsPending(c, m) <==> exists k: nat :: Outstanding(trace, k) && Answers(m, k)
  {
    if IsPending(c, m) {
      var k: nat := m.id.value.n;
      assert IsOutcome(trace, k, FutureOf(c, k));
      assert Outstanding(trace, k) && Answers(m, k);
    }
    if k: nat :| Outstanding(trace, k) && Answers(m, k) {
      OutstandingIsNone(trace, k, FutureOf(c, k));
    }
  }

  lemma OutstandingIsNone(trace: seq<ClientStep>, k: nat, o: Option<Outcome>)
    requires Outstanding(trace, k) && IsOutcome(trace, k, o)
    ensures o.None?
  {
  }

  lemma StepOutcome(c: Client, trace: seq<ClientStep>, k: nat)
    requires trace != [] && Correlated(c, trace[..|trace| - 1])
    ensures IsOutcome(trace, k, FutureOf(NextClient(c, trace[|trace| - 1]), k))
  {
    var front := trace[..|trace| - 1];
    NextFuture(c, trace[|trace| - 1], k);
    assert IsOutcome(front, k, FutureOf(c, k));
    if FutureOf(c, k).Some? {
      OutcomeStays(trace, k, FutureOf(c, k).value);
    } else {
      OutcomeComes(trace, k);
    }
  }

  lemma StepEvents(c: Client, front: seq<ClientStep>, last: ClientStep, trace: seq<ClientStep>)
    requires trace == front + [last] && Correlated(c, front)
    ensures NextClient(c, last).events == Heard(trace)
  {
    assert trace[..|trace| - 1] == front;
    if last.Receive? {
      PendingIffOutstanding(c, front, last.message);
    }
  }

  lemma StepCorrelates(c: Client, trace: seq<ClientStep>)
    requires trace != [] && Correlated(c, trace[..|trace| - 1])
    ensures Correlated(NextClient(c, trace[|trace| - 1]), trace)
  {
    var front, last := trace[..|trace| - 1], trace[|trace| - 1];
    var c1 := NextClient(c, last);
    StepEvents(c, front, last, trace);
    PendingStaysOk(c, last);
    forall k: nat ensures IsOutcome(trace, k, FutureOf(c1, k)) {
      StepOutcome(c, trace, k);
    }
    assert OutcomesOk(c1, trace);
  }

  /** Over every interleaving of requests and messages: each request gets the outcome of the first answer
      with its id or of the first end of the stream after it, and everything else is heard in order. */
  lemma {:induction false} EveryRunCorrelates(trace: seq<ClientStep>)
    ensures Correlated(RunClient(trace), trace)
  {
    if trace != [] {
      EveryRunCorrelates(trace[..|trace| - 1]);
      StepCorrelates(RunClient(trace[..|trace| - 1]), trace);
    }
  }

  /** A future is completed once: its outcome is the same in every continuation. */
  lemma {:induction false} CompletedOnce(trace: seq<ClientStep>, more: seq<ClientStep>, k: nat)
    requires FutureOf(RunClient(trace), k).Some?
    ensures FutureOf(RunClient(trace + more), k) == FutureOf(RunClient(trace), k)
    decreases |more|
  {
    if more == [] {
      assert trace + more == trace;
    } else {
      var front := more[..|more| - 1];
      CompletedOnce(trace, front, k);
      assert (trace + more)[..|trace + more| - 1] == trace + front;
      assert RunClient(trace + more) == NextClient(RunClient(trace + front), more[|more| - 1]);
      RunKeepsPendingOk(trace + front);
      NextFuture(RunClient(trace + front), more[|more| - 1], k);
    }
  }

  lemma RunKeepsPendingOk(trace: seq<ClientStep>)
    ensures PendingOk(RunClient(trace))
  {
    EveryRunCorrelates(trace);
  }

  /** A request sent while nobody listens has no outcome until somebody does. */
  lemma UnheardRequestsWait(trace: seq<ClientStep>, k: nat)
    requires forall i :: 0 <= i < |trace| && Sent(trace[..i]) >= k ==> !Listening(trace[..i])
    ensures FutureOf(RunClient(trace), k).None?
  {
    EveryRunCorrelates(trace);
    assert IsOutcome(trace, k, FutureOf(RunClient(trace), k));
  }

  /** The client; its futures are named by the order of their creation. */
  class CodexRpcClient {
    var nextId: int
    var pending: map<int, nat>
    var futures: seq<Option<Outcome>>
    var events: seq<Message>
    var listening: bool

    ghost function State(): Client
      reads this
    {
      Client(nextId, pending, futures, events, listening)
    }

    ghost predicate Valid()
      reads this
    {
      PendingOk(State())
    }

    constructor ()
      ensures Valid() && State() == NewClient
    {
      nextId, pending, futures, events, listening := 1, map[], [], [], false;
    }

    method StartReader()
      requires Valid()
      modifies this
      ensures Valid() && State() == NextClient(old(State()), Connect)
    {
      listening := true;
    }

    /** Sends a request. The caller waits on its future, unless the write fails; the request is then pending
        all the same. */
    method Request(written: bool) returns (id: int, future: Option<nat>)
      requires Valid()
      modifies this
      ensures Valid() && State() == NextClient(old(State()), Send)
      ensures id == old(nextId) && id !in old(pending) && id in pending
      ensures pending[id] < |futures| && futures[pending[id]].None?
      ensures future == if written then Some(pending[id]) else None
    {
      PendingStaysOk(State(), Send);
      id := nextId;
      nextId := nextId + 1;
      pending := pending[id := |futures|];
      futures := futures + [None];
      future := if written then Some(pending[id]) else None;
    }

    /** One turn of the reader's loop. */
    method Dispatch(m: Message)
      requires Valid() && listening
      modifies this
      ensures Valid() && listening && State() == NextClient(old(State()), Receive(m))
    {
      PendingStaysOk(State(), Receive(m));
      if m.name.None? && m.id.Some? && m.id.value.Number? && m.id.value.n in pending {
        var future := pending[m.id.value.n];
        pending := pending - {m.id.value.n};
        if m.error.Some? {
          futures := futures[future := Some(Rejected(m.error.value))];
        } else if m.result.None? {
          futures := futures[future := Some(BadResult)];
        } else {
          futures := futures[future := Some(Fulfilled(m.result.value))];
        }
      } else {
        events := events + [m];
      }
    }

    /** What the reader does at the end of the stream: nobody is left waiting. */
    method FailOutstanding()
      requires Valid() && listening
      modifies this
      ensures Valid() && State() == NextClient(old(State()), EndOfStream)
      ensures forall i :: 0 <= i < |futures| ==> futures[i].Some?
    {
      PendingStaysOk(State(), EndOfStream);
      CloseCompletes(State());
      for i := 0 to |futures|
        invariant |futures| == |old(futures)| && nextId == old(nextId) && pending == old(pending)
        invariant events == old(events) && listening
        invariant forall j :: 0 <= j < |futures| ==>
                    futures[j] == if j < i && j + 1 in old(pending) then Some(ConnectionClosed) else old(futures)[j]
      {
        if i + 1 in pending && futures[pending[i + 1]].None? {
          futures := futures[pending[i + 1] := Some(ConnectionClosed)];
        }
      }
      assert futures == Close(old(futures), old(pending.Values));
      pending := map[];
      listening := false;
    }

    /** The reader over the messages of a stream that then ends. */
    method ReadMessages(messages: seq<Message>)
      requires Valid() && listening
      modifies this
      ensures Valid() && State() == NextClient(ReceiveAll(old(State()), messages), EndOfStream)
    {
      for i := 0 to |messages|
        invariant Valid() && listening && State() == ReceiveAll(old(State()), messages[..i])
      {
        assert messages[..i + 1][..i] == messages[..i];
        Dispatch(messages[i]);
      }
      assert messages[..|messages|] == messages;
      FailOutstanding();
    }
  }

  function ReceiveAll(c: Client, messages: seq<Message>): Client {
    if messages == [] then c
      else NextClient(ReceiveAll(c, messages[..|messages| - 1]), Receive(messages[|messages| - 1]))
  }
}
