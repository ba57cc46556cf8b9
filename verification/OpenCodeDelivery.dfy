/** Exactly-once delivery by the event router, over every sequence of calls. */
module OpenCodeDelivery {
  import opened Wrappers
  import opened AgentEvents
  import opened OpenCodeEvents
  import opened OpenCodeRouting

  type Logs = seq<seq<Item>>

  type Early = Dict<EarlyKey, Item>

  ghost predicate InLogs(logs: Logs, it: Item) {
    exists q :: 0 <= q < |logs| && it in logs[q]
  }

  /** The item is on some queue or still in the buffer of its own key. */
  ghost predicate Placed(early: Early, logs: Logs, it: Item) {
    InLogs(logs, it) || it in early.At(KeyOf(it))
  }

  ghost predicate SameArrival(a: Item, b: Item) {
    a.at == b.at && !a.origin.OfInterruption? && !b.origin.OfInterruption?
  }

  /** No arrival is on two queues, twice on one, or both on a queue and in the buffer. */
  ghost predicate NoDuplicates(early: Early, logs: Logs) {
    && (forall q1, i1, q2, i2 ::
          0 <= q1 < |logs| && 0 <= i1 < |logs[q1]| && 0 <= q2 < |logs| && 0 <= i2 < |logs[q2]| &&
            SameArrival(logs[q1][i1], logs[q2][i2]) ==>
          q1 == q2 && i1 == i2)
    && (forall q, i, k, j :: 0 <= q < |logs| && 0 <= i < |logs[q]| && k in early.lists && 0 <= j < |early.lists[k]| ==>
          !SameArrival(logs[q][i], early.lists[k][j]))
  }

  /** Whatever is placed was accepted by the call it names. */
  ghost predicate NothingInvented(early: Early, logs: Logs, emitted: seq<Option<Item>>) {
    && (forall q, i :: 0 <= q < |logs| && 0 <= i < |logs[q]| && !logs[q][i].origin.OfInterruption? ==>
          logs[q][i].at < |emitted| && emitted[logs[q][i].at] == Some(logs[q][i]))
    && (forall k, j :: k in early.lists && 0 <= j < |early.lists[k]| ==>
          early.lists[k][j].at < |emitted| && emitted[early.lists[k][j].at] == Some(early.lists[k][j]))
  }

  ghost predicate NothingLost(early: Early, logs: Logs, emitted: seq<Option<Item>>) {
    forall n :: 0 <= n < |emitted| && emitted[n].Some? ==> Placed(early, logs, emitted[n].value)
  }

  ghost predicate Delivered(early: Early, logs: Logs, emitted: seq<Option<Item>>) {
    NoDuplicates(early, logs) && NothingInvented(early, logs, emitted) && NothingLost(early, logs, emitted)
  }

  lemma MovedStaysPlaced(early: Early, logs: Logs, q: nat, k: EarlyKey, it: Item)
    requires q < |logs| && Placed(early, logs, it)
    ensures Placed(early.Pop(k), logs[q := logs[q] + early.At(k)], it)
  {
    var logs1 := logs[q := logs[q] + early.At(k)];
    if InLogs(logs, it) {
      var p :| 0 <= p < |logs| && it in logs[p];
      assert it in logs1[p];
    } else if KeyOf(it) == k {
      assert it in logs1[q];
    }
  }

  lemma MoveKeepsQueuesApart(early: Early, logs: Logs, q: nat, k: EarlyKey, n: nat)
    requires q < |logs| && NoDuplicates(early, logs) && (k in early.lists ==> EarlyListOk(k, early.lists[k], n))
    ensures var logs1 := logs[q := logs[q] + early.At(k)];
            forall q1, i1, q2, i2 ::
              0 <= q1 < |logs1| && 0 <= i1 < |logs1[q1]| && 0 <= q2 < |logs1| && 0 <= i2 < |logs1[q2]| &&
                SameArrival(logs1[q1][i1], logs1[q2][i2]) ==>
              q1 == q2 && i1 == i2
  {
  }

  /** Items of two buffers are never one arrival. */
  lemma BuffersDiffer(
      early: Early, logs: Logs, emitted: seq<Option<Item>>, k: EarlyKey, i: nat, l: EarlyKey, j: nat, n: nat)
    requires NothingInvented(early, logs, emitted) && ItemsOk(early, logs, n) && k != l
    requires k in early.lists && i < |early.lists[k]| && l in early.lists && j < |early.lists[l]|
    ensures !SameArrival(early.lists[k][i], early.lists[l][j])
  {
    assert EarlyListOk(k, early.lists[k], n) && EarlyListOk(l, early.lists[l], n);
  }

  lemma MoveKeepsApart(early: Early, logs: Logs, emitted: seq<Option<Item>>, q: nat, k: EarlyKey, n: nat)
    requires q < |logs| && NoDuplicates(early, logs) && NothingInvented(early, logs, emitted) && ItemsOk(early, logs, n)
    ensures NoDuplicates(early.Pop(k), logs[q := logs[q] + early.At(k)])
  {
    MoveKeepsQueuesApart(early, logs, q, k, n);
    MoveKeepsBuffersApart(early, logs, emitted, q, k, n);
  }

  lemma MoveKeepsBuffersApart(early: Early, logs: Logs, emitted: seq<Option<Item>>, q: nat, k: EarlyKey, n: nat)
    requires q < |logs| && NoDuplicates(early, logs) && NothingInvented(early, logs, emitted) && ItemsOk(early, logs, n)
    ensures var (early1, logs1) := (early.Pop(k), logs[q := logs[q] + early.At(k)]);
            forall p, i, l, j ::
              0 <= p < |logs1| && 0 <= i < |logs1[p]| && l in early1.lists && 0 <= j < |early1.lists[l]| ==>
              !SameArrival(logs1[p][i], early1.lists[l][j])
  {
    var early1, logs1 := early.Pop(k), logs[q := logs[q] + early.At(k)];
    forall p, i, l, j | 0 <= p < |logs1| && 0 <= i < |logs1[p]| && l in early1.lists && 0 <= j < |early1.lists[l]|
      ensures !SameArrival(logs1[p][i], early1.lists[l][j])
    {
      if !(i < |logs[p]|) {
        BuffersDiffer(early, logs, emitted, k, i - |logs[p]|, l, j, n);
      }
    }
  }

  lemma MoveKeepsDelivered(early: Early, logs: Logs, emitted: seq<Option<Item>>, q: nat, k: EarlyKey, n: nat)
    requires q < |logs| && Delivered(early, logs, emitted) && ItemsOk(early, logs, n)
    ensures Delivered(early.Pop(k), logs[q := logs[q] + early.At(k)], emitted)
  {
    MoveKeepsApart(early, logs, emitted, q, k, n);
    forall m | 0 <= m < |emitted| && emitted[m].Some?
      ensures Placed(early.Pop(k), logs[q := logs[q] + early.At(k)], emitted[m].value)
    {
      MovedStaysPlaced(early, logs, q, k, emitted[m].value);
    }
  }

  /** A new arrival that is put on one queue. */
  lemma PutDelivers(early: Early, logs: Logs, emitted: seq<Option<Item>>, q: nat, it: Item)
    requires q < |logs| && Delivered(early, logs, emitted) && it.at == |emitted| && ItemsOk(early, logs, it.at)
    requires !it.origin.OfInterruption?
    ensures Delivered(early, logs[q := logs[q] + [it]], emitted + [Some(it)])
  {
    var logs1 := logs[q := logs[q] + [it]];
    assert forall p :: 0 <= p < |logs| ==> LogOk(logs[p], it.at);
    assert forall k <- early.lists :: EarlyListOk(k, early.lists[k], it.at);
    assert it in logs1[q];
    forall m | 0 <= m < |emitted| && emitted[m].Some? ensures Placed(early, logs1, emitted[m].value) {
      if InLogs(logs, emitted[m].value) {
        var p :| 0 <= p < |logs| && emitted[m].value in logs[p];
        assert emitted[m].value in logs1[p];
      }
    }
  }

  /** A new arrival that is buffered. */
  lemma PushDelivers(early: Early, logs: Logs, emitted: seq<Option<Item>>, it: Item)
    requires Delivered(early, logs, emitted) && it.at == |emitted| && ItemsOk(early, logs, it.at)
    requires !it.origin.OfInterruption?
    ensures Delivered(early.Push(KeyOf(it), it), logs, emitted + [Some(it)])
  {
    var early1, emitted1 := early.Push(KeyOf(it), it), emitted + [Some(it)];
    PushKeepsApart(early, logs, it);
    PushInventsNothing(early, logs, emitted, it);
    forall m | 0 <= m < |emitted1| && emitted1[m].Some? ensures Placed(early1, logs, emitted1[m].value) {
      if m < |emitted| {
        PushedStaysPlaced(early, logs, it, emitted[m].value);
      }
    }
  }

  lemma PushedStaysPlaced(early: Early, logs: Logs, it: Item, x: Item)
    requires Placed(early, logs, x)
    ensures Placed(early.Push(KeyOf(it), it), logs, x)
  {
  }

  lemma PushInventsNothing(early: Early, logs: Logs, emitted: seq<Option<Item>>, it: Item)
    requires NothingInvented(early, logs, emitted) && it.at == |emitted|
    ensures NothingInvented(early.Push(KeyOf(it), it), logs, emitted + [Some(it)])
  {
    PushedLists(early, it);
  }

  lemma PushedLists(early: Early, it: Item)
    ensures var early1 := early.Push(KeyOf(it), it);
            forall k, j :: k in early1.lists && 0 <= j < |early1.lists[k]| ==>
              early1.lists[k][j] == it ||
                (k in early.lists && j < |early.lists[k]| && early1.lists[k][j] == early.lists[k][j])
  {
  }

  lemma PushKeepsApart(early: Early, logs: Logs, it: Item)
    requires NoDuplicates(early, logs) && ItemsOk(early, logs, it.at)
    ensures NoDuplicates(early.Push(KeyOf(it), it), logs)
  {
    var early1 := early.Push(KeyOf(it), it);
    PushedLists(early, it);
    forall q, i, k, j | 0 <= q < |logs| && 0 <= i < |logs[q]| && k in early1.lists && 0 <= j < |early1.lists[k]|
      ensures !SameArrival(logs[q][i], early1.lists[k][j])
    {
      assert LogOk(logs[q], it.at);
    }
  }

  lemma NothingNewDelivers(early: Early, logs: Logs, emitted: seq<Option<Item>>)
    requires Delivered(early, logs, emitted)
    ensures Delivered(early, logs, emitted + [None])
  {
  }

  ghost predicate Ok(r: Routing) { Inv(r, |r.emitted|) && Delivered(r.early, r.logs, r.emitted) }

  lemma BindDelivers(r: Routing, s: string, x: string)
    requires Ok(r)
    ensures Ok(Bind(r, s, x))
  {
    BindKeepsInv(r, s, x, |r.emitted|);
    if ActiveQueue(r, s).Some? {
      MoveKeepsDelivered(r.early, r.logs, r.emitted, ActiveQueue(r, s).value, (s, Some(x)), |r.emitted|);
    }
  }

  lemma {:induction false} FlushDelivers(r: Routing, s: string, m: string, keys: seq<EarlyKey>)
    requires Ok(r)
    ensures Ok(FlushEarly(r, s, m, keys)) && FlushEarly(r, s, m, keys).emitted == r.emitted
    decreases |keys|
  {
    if keys != [] {
      var k := keys[0];
      if k.0 == s && k.1.Some? && Get(r.parents, (s, k.1.value)) == Some(m) {
        BindDelivers(r, s, k.1.value);
        FlushDelivers(Bind(r, s, k.1.value), s, m, keys[1..]);
      } else {
        FlushDelivers(r, s, m, keys[1..]);
      }
    }
  }

  lemma AppendQueueDelivers(early: Early, logs: Logs, emitted: seq<Option<Item>>)
    requires Delivered(early, logs, emitted)
    ensures Delivered(early, logs + [[]], emitted)
  {
    var logs1 := logs + [[]];
    forall m | 0 <= m < |emitted| && emitted[m].Some? ensures Placed(early, logs1, emitted[m].value) {
      if InLogs(logs, emitted[m].value) {
        var p :| 0 <= p < |logs| && emitted[m].value in logs[p];
        assert emitted[m].value in logs1[p];
      }
    }
  }

  lemma InterruptDelivers(r: Routing, reason: string)
    requires Ok(r)
    ensures Delivered(r.early, Interrupted(r, reason).logs, r.emitted)
  {
    var logs1 := Interrupted(r, reason).logs;
    InterruptedLogs(r.early, r.logs, logs1, r.emitted);
    forall m | 0 <= m < |r.emitted| && r.emitted[m].Some? ensures Placed(r.early, logs1, r.emitted[m].value) {
      if InLogs(r.logs, r.emitted[m].value) {
        var p :| 0 <= p < |r.logs| && r.emitted[m].value in r.logs[p];
        assert r.emitted[m].value in logs1[p];
      }
    }
  }

  /** Queues to which only interruptions were added. */
  lemma InterruptedLogs(early: Early, logs: Logs, logs1: Logs, emitted: seq<Option<Item>>)
    requires NoDuplicates(early, logs) && NothingInvented(early, logs, emitted) && |logs1| == |logs|
    requires forall q :: 0 <= q < |logs| ==> logs[q] <= logs1[q]
    requires forall q, i :: 0 <= q < |logs| && |logs[q]| <= i < |logs1[q]| ==> logs1[q][i].origin.OfInterruption?
    ensures NoDuplicates(early, logs1) && NothingInvented(early, logs1, emitted)
  {
    assert forall q, i :: 0 <= q < |logs1| && 0 <= i < |logs1[q]| && !logs1[q][i].origin.OfInterruption? ==>
      i < |logs[q]| && logs1[q][i] == logs[q][i];
  }

  lemma PlaceDelivers(r: Routing, found: bool, it: Item, buffered: bool)
    requires Ok(r) && it.at == |r.emitted| && !it.origin.OfInterruption?
    requires found ==> ActiveQueue(r, it.session).Some?
    ensures var r1 := Place(r, found, it, buffered);
            Delivered(r1.early, r1.logs, r.emitted + [if found || buffered then Some(it) else None])
  {
    if found {
      PutDelivers(r.early, r.logs, r.emitted, ActiveQueue(r, it.session).value, it);
    } else if buffered {
      PushDelivers(r.early, r.logs, r.emitted, it);
    } else {
      NothingNewDelivers(r.early, r.logs, r.emitted);
    }
  }

  lemma ResolveDelivers(r: Routing, s: string, x: string)
    requires Ok(r)
    ensures var (r1, found) := Resolve(r, s, x);
            && Ok(r1) && r1.emitted == r.emitted
            && found == IsOfActiveTurn(r, s, x)
            && (found ==> ActiveQueue(r1, s).Some?)
  {
    BindDelivers(r, s, x);
  }

  lemma DeliverDelivers(r: Routing, d: Decision)
    requires Ok(r)
    ensures Delivered(Deliver(r, d).early, Deliver(r, d).logs, r.emitted + [Accepted(r, d)])
  {
    var n := |r.emitted|;
    match d
    case Drop => NothingNewDelivers(r.early, r.logs, r.emitted);
    case ToMessage(s, x, event) =>
      if IsUserText(r, s, x, event) {
        NothingNewDelivers(r.early, r.logs, r.emitted);
      } else {
        ResolveDelivers(r, s, x);
        PlaceDelivers(Resolve(r, s, x).0, Resolve(r, s, x).1, Item(n, s, OfMessage(x), event), true);
      }
    case ToBoundMessage(s, x, event) =>
      ResolveDelivers(r, s, x);
      PlaceDelivers(Resolve(r, s, x).0, Resolve(r, s, x).1, Item(n, s, OfMessage(x), event), false);
    case ToSession(s, event) =>
      PlaceDelivers(r, ActiveQueue(r, s).Some?, Item(n, s, OfSession, event), true);
    case ToActiveTurn(s, x, event) =>
      PlaceDelivers(r, Get(r.active, s) == Some(x), Item(n, s, OfMessage(x), event), false);
  }

  lemma LearnDelivers(r: Routing, info: Option<Info>)
    requires Ok(r)
    ensures Ok(Learn(r, info)) && Learn(r, info).emitted == r.emitted
  {
    if ParentIn(info).Some? {
      BindDelivers(Remember(r, info), ParentIn(info).value.0.0, ParentIn(info).value.0.1);
    }
  }

  ghost predicate StateDelivered(r: Routing) { Delivered(r.early, r.logs, r.emitted) }

  lemma RegisterDelivers(r: Routing, s: string, m: string)
    requires Ok(r)
    ensures StateDelivered(RegisterStep(r, s, m))
  {
    var r1 := NewQueue(r, s, m);
    AppendQueueDelivers(r.early, r.logs, r.emitted);
    FlushDelivers(r1, s, m, r.early.keys);
    var r2 := FlushEarly(r1, s, m, r.early.keys);
    NothingNewDelivers(r2.early, r2.logs, r2.emitted);
  }

  lemma StepDelivers(r: Routing, op: Op)
    requires Ok(r)
    ensures StateDelivered(Step(r, op))
  {
    match op
    case Register(s, m) => RegisterDelivers(r, s, m);
    case Unregister(s, m) => NothingNewDelivers(r.early, r.logs, r.emitted);
    case Interrupt(reason) =>
      InterruptDelivers(r, reason);
      NothingNewDelivers(r.early, Interrupted(r, reason).logs, r.emitted);
    case Handle(info, d) =>
      LearnDelivers(r, info);
      DeliverDelivers(Learn(r, info), d);
  }

  lemma {:induction false} RunDelivers(ops: seq<Op>)
    ensures Ok(Run(ops)) && |Run(ops).emitted| == |ops|
  {
    if ops != [] {
      RunDelivers(ops[..|ops| - 1]);
      StepDelivers(Run(ops[..|ops| - 1]), ops[|ops| - 1]);
      StepKeepsInv(Run(ops[..|ops| - 1]), ops[|ops| - 1], |ops| - 1, |ops|);
    }
  }

  /** What call n must not lose. */
  function AcceptedBy(ops: seq<Op>, n: nat): Option<Item>
    requires n < |ops|
  {
    if ops[n].Handle? then Accepted(Learn(Run(ops[..n]), ops[n].info), ops[n].decision) else None
  }

  lemma StepEmits(r: Routing, op: Op)
    ensures Step(r, op).emitted == r.emitted + [if op.Handle? then Accepted(Learn(r, op.info), op.decision) else None]
  {
  }

  lemma {:induction false} EmittedIsAccepted(ops: seq<Op>, n: nat)
    requires n < |ops|
    ensures n < |Run(ops).emitted| && Run(ops).emitted[n] == AcceptedBy(ops, n)
  {
    var front := ops[..|ops| - 1];
    RunKeepsInv(front);
    StepEmits(Run(front), ops[|ops| - 1]);
    if n < |front| {
      EmittedIsAccepted(front, n);
      assert front[..n] == ops[..n] && front[n] == ops[n];
    }
  }

  /** No arrival is buffered twice. */
  ghost predicate BufferedOnce(early: Early) {
    forall k, i, l, j ::
      (k in early.lists && 0 <= i < |early.lists[k]| && l in early.lists && 0 <= j < |early.lists[l]|) ==>
        (early.lists[k][i].at == early.lists[l][j].at ==> k == l && i == j)
  }

  /** Whatever is buffered was accepted by the call it names, and is under its own key. */
  ghost predicate BufferedAreAccepted(early: Early, ops: seq<Op>) {
    forall k, j :: k in early.lists && 0 <= j < |early.lists[k]| ==>
      KeyOf(early.lists[k][j]) == k && AcceptedAt(ops, early.lists[k][j])
  }

  ghost predicate AcceptedAt(ops: seq<Op>, it: Item) { it.at < |ops| && AcceptedBy(ops, it.at) == Some(it) }

  lemma BuffersAreOrdered(early: Early, logs: Logs, emitted: seq<Option<Item>>, n: nat)
    requires ItemsOk(early, logs, n) && NothingInvented(early, logs, emitted)
    ensures BufferedOnce(early)
  {
    forall k, i, l, j |
      k in early.lists && 0 <= i < |early.lists[k]| && l in early.lists && 0 <= j < |early.lists[l]| &&
      early.lists[k][i].at == early.lists[l][j].at
      ensures k == l && i == j
    {
      assert EarlyListOk(k, early.lists[k], n) && EarlyListOk(l, early.lists[l], n);
      assert early.lists[k][i] == early.lists[l][j];
    }
  }

  lemma BuffersAreAccepted(early: Early, logs: Logs, emitted: seq<Option<Item>>, ops: seq<Op>)
    requires ItemsOk(early, logs, |ops|) && NothingInvented(early, logs, emitted) && |emitted| == |ops|
    requires forall n :: 0 <= n < |ops| ==> emitted[n] == AcceptedBy(ops, n)
    ensures BufferedAreAccepted(early, ops)
  {
    forall k, j | k in early.lists && 0 <= j < |early.lists[k]|
      ensures KeyOf(early.lists[k][j]) == k && AcceptedAt(ops, early.lists[k][j])
    {
      assert EarlyListOk(k, early.lists[k], |ops|);
    }
  }

  /** Every accepted item is, for ever after, in exactly one place, and every placed item was
      accepted: nothing is lost, doubled or made up, on the queues or in the buffer. */
  lemma ExactlyOnce(ops: seq<Op>)
    ensures var r := Run(ops);
            && (forall n :: 0 <= n < |ops| && AcceptedBy(ops, n).Some? ==>
                  Placed(r.early, r.logs, AcceptedBy(ops, n).value))
            && NoDuplicates(r.early, r.logs) && BufferedOnce(r.early) && BufferedAreAccepted(r.early, ops)
            && (forall q, i :: 0 <= q < |r.logs| && 0 <= i < |r.logs[q]| && !r.logs[q][i].origin.OfInterruption? ==>
                 AcceptedAt(ops, r.logs[q][i]))
  {
    var r := Run(ops);
    RunDelivers(ops);
    forall n | 0 <= n < |ops| ensures r.emitted[n] == AcceptedBy(ops, n) {
      EmittedIsAccepted(ops, n);
    }
    BuffersAreOrdered(r.early, r.logs, r.emitted, |ops|);
    BuffersAreAccepted(r.early, r.logs, r.emitted, ops);
  }
}
