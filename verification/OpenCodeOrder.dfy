/** Per-message order on the queues of the event router, and exactly when it is broken. */
module OpenCodeOrder {
  import opened Wrappers
  import opened AgentEvents
  import opened OpenCodeEvents
  import opened OpenCodeRouting

  predicate IsOf(it: Item, x: string) { it.origin == OfMessage(x) }

  ghost predicate LogInOrder(l: seq<Item>) {
    forall i, j :: 0 <= i < j < |l| && l[i].origin.OfMessage? && IsOf(l[j], l[i].origin.message) ==> l[i].at < l[j].at
  }

  /** On every queue, the items of each message are in order of arrival. */
  ghost predicate InOrder(logs: seq<seq<Item>>) {
    forall q :: 0 <= q < |logs| ==> LogInOrder(logs[q])
  }

  ghost predicate Mentions(l: seq<Item>, x: string) {
    exists i :: 0 <= i < |l| && IsOf(l[i], x)
  }

  /** Everything of message x on the queue arrived before (after) everything in the buffer. */
  ghost predicate Before(l: seq<Item>, x: string, buffer: seq<Item>) {
    forall i, j :: 0 <= i < |l| && IsOf(l[i], x) && 0 <= j < |buffer| ==> l[i].at < buffer[j].at
  }

  ghost predicate After(l: seq<Item>, x: string, buffer: seq<Item>) {
    forall i, j :: 0 <= i < |l| && IsOf(l[i], x) && 0 <= j < |buffer| ==> buffer[j].at < l[i].at
  }

  /** The buffers of a session against the queue of its active turn t: only t's own buffer is older
      than what is on the queue, and the bound assistant has none. */
  ghost predicate SessionOrdered(
      early: Dict<EarlyKey, Item>, log: seq<Item>, s: string, t: string, bound: Option<string>)
  {
    && (forall x :: x != t ==> Before(log, x, early.At((s, Some(x)))))
    && After(log, t, early.At((s, Some(t))))
    && (bound.Some? && bound.value != t ==> !early.Has((s, bound)))
  }

  ghost predicate SessionOk(r: Routing, s: string) {
    ActiveQueue(r, s).Some? && ActiveQueue(r, s).value < |r.logs| ==>
      SessionOrdered(r.early, r.logs[ActiveQueue(r, s).value], s, r.active[s], Get(r.assistants, s))
  }

  ghost predicate Ordered(r: Routing) { forall s <- r.active :: SessionOk(r, s) }

  /** Binding x would put older items of the active message itself behind newer ones. */
  ghost predicate BindReorders(r: Routing, s: string, x: string) {
    && ActiveQueue(r, s).Some? && ActiveQueue(r, s).value < |r.logs|
    && x == r.active[s] && r.early.Has((s, Some(x))) && Mentions(r.logs[ActiveQueue(r, s).value], x)
  }

  lemma AppendOrder(l: seq<Item>, buffer: seq<Item>, x: string)
    requires forall j :: 0 <= j < |buffer| ==> IsOf(buffer[j], x)
    requires forall i, j :: 0 <= i < j < |buffer| ==> buffer[i].at < buffer[j].at
    ensures LogInOrder(l) && Before(l, x, buffer) ==> LogInOrder(l + buffer)
    ensures LogInOrder(l + buffer) ==> LogInOrder(l) && Before(l, x, buffer)
  {
    var l1 := l + buffer;
    if LogInOrder(l1) {
      assert forall i :: 0 <= i < |l| ==> l1[i] == l[i];
      forall i, j | 0 <= i < |l| && IsOf(l[i], x) && 0 <= j < |buffer| ensures l[i].at < buffer[j].at {
        assert l1[|l| + j] == buffer[j];
      }
    }
  }

  lemma AppendOrders(logs: seq<seq<Item>>, q: nat, buffer: seq<Item>, x: string)
    requires q < |logs|
    requires forall j :: 0 <= j < |buffer| ==> IsOf(buffer[j], x)
    requires forall i, j :: 0 <= i < j < |buffer| ==> buffer[i].at < buffer[j].at
    ensures InOrder(logs[q := logs[q] + buffer]) <==> InOrder(logs) && Before(logs[q], x, buffer)
  {
    var logs1 := logs[q := logs[q] + buffer];
    AppendOrder(logs[q], buffer, x);
    assert logs1[q] == logs[q] + buffer;
    assert forall p :: 0 <= p < |logs1| && p != q ==> logs1[p] == logs[p];
  }

  /** In an ordered session the only buffer that cannot be appended is the turn's own. */
  lemma BufferFits(
      early: Dict<EarlyKey, Item>, log: seq<Item>, s: string, x: string, t: string, bound: Option<string>, n: nat)
    requires SessionOrdered(early, log, s, t, bound)
    requires (s, Some(x)) in early.lists ==> EarlyListOk((s, Some(x)), early.lists[(s, Some(x))], n)
    ensures Before(log, x, early.At((s, Some(x)))) <==> !(x == t && early.Has((s, Some(x))) && Mentions(log, x))
  {
    var buffer := early.At((s, Some(x)));
    if x == t && early.Has((s, Some(x))) && Mentions(log, x) {
      var i :| 0 <= i < |log| && IsOf(log[i], x);
      assert buffer[0].at < log[i].at;
    }
  }

  lemma BindOrder(r: Routing, s: string, x: string, n: nat)
    requires Inv(r, n) && Ordered(r) && ActiveQueue(r, s).Some?
    ensures InOrder(Bind(r, s, x).logs) <==> InOrder(r.logs) && !BindReorders(r, s, x)
  {
    var q, k := ActiveQueue(r, s).value, (s, Some(x));
    assert k in r.early.lists ==> EarlyListOk(k, r.early.lists[k], n);
    BufferFits(r.early, r.logs[q], s, x, r.active[s], Get(r.assistants, s), n);
    AppendOrders(r.logs, q, r.early.At(k), x);
  }

  /** Buffers of other sessions do not matter. */
  lemma OtherSessionOrdered(
      early: Dict<EarlyKey, Item>, early1: Dict<EarlyKey, Item>, log: seq<Item>, s: string, t: string,
      bound: Option<string>)
    requires SessionOrdered(early, log, s, t, bound)
    requires forall k: EarlyKey :: k.0 == s ==> early1.At(k) == early.At(k) && early1.Has(k) == early.Has(k)
    ensures SessionOrdered(early1, log, s, t, bound)
  {
    forall y | y != t ensures Before(log, y, early1.At((s, Some(y)))) {
      assert Before(log, y, early.At((s, Some(y))));
    }
  }

  lemma BindKeepsOrdered(r: Routing, s: string, x: string, n: nat)
    requires TurnsOk(r) && Ordered(r) && forall k <- r.early.lists :: EarlyListOk(k, r.early.lists[k], n)
    ensures Ordered(Bind(r, s, x))
  {
    if ActiveQueue(r, s).Some? {
      forall s1 <- Bind(r, s, x).active ensures SessionOk(Bind(r, s, x), s1)
      {
        assert SessionOk(r, s1);
        if s1 == s {
          BindKeepsSession(r, s, x, n);
        } else {
          BindKeepsOtherSession(r, s, x, s1);
        }
      }
    }
  }

  lemma BindKeepsSession(r: Routing, s: string, x: string, n: nat)
    requires TurnsOk(r) && SessionOk(r, s) && ActiveQueue(r, s).Some?
    requires forall k <- r.early.lists :: EarlyListOk(k, r.early.lists[k], n)
    ensures SessionOk(Bind(r, s, x), s)
  {
    BindSession(r.early, r.logs[ActiveQueue(r, s).value], s, x, r.active[s], Get(r.assistants, s), n);
  }

  lemma BindKeepsOtherSession(r: Routing, s: string, x: string, s1: string)
    requires TurnsOk(r) && SessionOk(r, s1) && ActiveQueue(r, s).Some? && s1 != s
    ensures SessionOk(Bind(r, s, x), s1)
  {
    if ActiveQueue(r, s1).Some? {
      var q, q1 := ActiveQueue(r, s).value, ActiveQueue(r, s1).value;
      assert r.owners[q] != r.owners[q1];
      OtherSessionOrdered(r.early, Bind(r, s, x).early, r.logs[q1], s1, r.active[s1], Get(r.assistants, s1));
    }
  }

  lemma BindSession(
      early: Dict<EarlyKey, Item>, log: seq<Item>, s: string, x: string, t: string, bound: Option<string>, n: nat)
    requires SessionOrdered(early, log, s, t, bound)
    requires (s, Some(x)) in early.lists ==> EarlyListOk((s, Some(x)), early.lists[(s, Some(x))], n)
    ensures SessionOrdered(early.Pop((s, Some(x))), log + early.At((s, Some(x))), s, t, Some(x))
  {
    var early1, log1 := early.Pop((s, Some(x))), log + early.At((s, Some(x)));
    forall y | y != t ensures Before(log1, y, early1.At((s, Some(y)))) {
      assert Before(log, y, early.At((s, Some(y))));
    }
  }

  /** Putting the item of call n on the active queue of its session. */
  lemma PutSession(
      early: Dict<EarlyKey, Item>, log: seq<Item>, s: string, t: string, bound: Option<string>, it: Item, n: nat)
    requires SessionOrdered(early, log, s, t, bound) && it.at == n
    requires forall k <- early.lists :: EarlyListOk(k, early.lists[k], n)
    requires it.origin.OfMessage? ==> it.origin.message == t || !early.Has((s, Some(it.origin.message)))
    ensures SessionOrdered(early, log + [it], s, t, bound)
  {
    forall y | y != t ensures Before(log + [it], y, early.At((s, Some(y)))) {
      assert Before(log, y, early.At((s, Some(y))));
    }
    var k := (s, Some(t));
    assert k in early.lists ==> EarlyListOk(k, early.lists[k], n);
    assert After(log + [it], t, early.At(k));
  }

  lemma PutOrder(r: Routing, it: Item, n: nat)
    requires Inv(r, n) && Ordered(r) && it.at == n && ActiveQueue(r, it.session).Some?
    requires it.origin.OfMessage? ==>
               it.origin.message == r.active[it.session] || !r.early.Has((it.session, Some(it.origin.message)))
    ensures var r1 := Put(r, ActiveQueue(r, it.session).value, [it]);
            Ordered(r1) && (InOrder(r1.logs) <==> InOrder(r.logs))
  {
    var s := it.session;
    var q := ActiveQueue(r, s).value;
    var r1 := Put(r, q, [it]);
    assert forall p :: 0 <= p < |r.logs| ==> LogOk(r.logs[p], n);
    forall s1 <- r1.active ensures SessionOk(r1, s1)
    {
      var q1 := ActiveQueue(r1, s1).value;
      assert SessionOk(r, s1);
      if s1 == s {
        PutSession(r.early, r.logs[q], s, r.active[s], Get(r.assistants, s), it, n);
      } else {
        assert r.owners[q] != r.owners[q1];
      }
    }
    PutInOrder(r.logs[q], it, n);
    assert forall p :: 0 <= p < |r.logs| && p != q ==> r1.logs[p] == r.logs[p];
  }

  lemma PutInOrder(l: seq<Item>, it: Item, n: nat)
    requires LogOk(l, n) && it.at == n
    ensures LogInOrder(l + [it]) <==> LogInOrder(l)
  {
    var l1 := l + [it];
    assert forall i :: 0 <= i < |l| ==> l1[i] == l[i];
  }

  lemma PushKeepsOrdered(r: Routing, it: Item, n: nat)
    requires Inv(r, n) && Ordered(r) && it.at == n
    requires it.origin.OfMessage? && ActiveQueue(r, it.session).Some? ==>
               it.origin.message != r.active[it.session] && Get(r.assistants, it.session) != Some(it.origin.message)
    ensures Ordered(r.(early := r.early.Push(KeyOf(it), it)))
  {
    var r1 := r.(early := r.early.Push(KeyOf(it), it));
    assert forall p :: 0 <= p < |r.logs| ==> LogOk(r.logs[p], n);
    forall s1 <- r1.active ensures SessionOk(r1, s1)
    {
      var log := r.logs[ActiveQueue(r, s1).value];
      assert SessionOk(r, s1);
      PushSession(r.early, log, s1, r.active[s1], Get(r.assistants, s1), it);
    }
  }

  lemma PushSession(early: Dict<EarlyKey, Item>, log: seq<Item>, s: string, t: string, bound: Option<string>, it: Item)
    requires SessionOrdered(early, log, s, t, bound) && LogOk(log, it.at)
    requires it.origin.OfMessage? && it.session == s ==> it.origin.message != t && bound != Some(it.origin.message)
    ensures SessionOrdered(early.Push(KeyOf(it), it), log, s, t, bound)
  {
    var early1 := early.Push(KeyOf(it), it);
    forall y | y != t ensures Before(log, y, early1.At((s, Some(y)))) {
      assert Before(log, y, early.At((s, Some(y))));
    }
  }

  // Registration: the queue is new, so nothing on it can be newer than a buffer.

  /** What is on the active queue is no longer in any buffer. */
  ghost predicate Fresh(r: Routing, s: string) {
    && ActiveQueue(r, s).Some? && ActiveQueue(r, s).value < |r.logs|
    && forall x :: Mentions(r.logs[ActiveQueue(r, s).value], x) ==> !r.early.Has((s, Some(x)))
  }

  lemma BindKeepsFresh(r: Routing, s: string, x: string, n: nat)
    requires Inv(r, n) && Fresh(r, s)
    ensures Fresh(Bind(r, s, x), s)
  {
    var k, q, r1 := (s, Some(x)), ActiveQueue(r, s).value, Bind(r, s, x);
    assert k in r.early.lists ==> EarlyListOk(k, r.early.lists[k], n);
    forall y | Mentions(r1.logs[q], y) ensures !r1.early.Has((s, Some(y))) {
      var i :| 0 <= i < |r1.logs[q]| && IsOf(r1.logs[q][i], y);
      if i < |r.logs[q]| {
        assert Mentions(r.logs[q], y);
      }
    }
  }

  lemma {:induction false} FlushOrder(r: Routing, s: string, m: string, keys: seq<EarlyKey>, n: nat)
    requires Inv(r, n) && Ordered(r) && Fresh(r, s)
    ensures var r1 := FlushEarly(r, s, m, keys); Ordered(r1) && (InOrder(r1.logs) <==> InOrder(r.logs))
    decreases |keys|
  {
    if keys != [] {
      var k := keys[0];
      if k.0 == s && k.1.Some? && Get(r.parents, (s, k.1.value)) == Some(m) {
        BindKeepsInv(r, s, k.1.value, n);
        BindKeepsOrdered(r, s, k.1.value, n);
        BindKeepsFresh(r, s, k.1.value, n);
        BindOrder(r, s, k.1.value, n);
        FlushOrder(Bind(r, s, k.1.value), s, m, keys[1..], n);
      } else {
        FlushOrder(r, s, m, keys[1..], n);
      }
    }
  }

  lemma NewQueueOrdered(r: Routing, s: string, m: string)
    requires TurnsOk(r) && Ordered(r)
    ensures Ordered(NewQueue(r, s, m))
  {
    var r0 := NewQueue(r, s, m);
    forall s1 <- r0.active ensures SessionOk(r0, s1) {
      if s1 != s {
        assert ActiveQueue(r0, s1) == ActiveQueue(r, s1) && Get(r0.assistants, s1) == Get(r.assistants, s1);
        assert SessionOk(r, s1);
      }
    }
  }

  lemma NewQueueOrder(r: Routing, s: string, m: string, n: nat)
    requires Inv(r, n)
    ensures var r0 := NewQueue(r, s, m);
            Inv(r0, n) && Fresh(r0, s) && (InOrder(r0.logs) <==> InOrder(r.logs))
  {
    var r0 := NewQueue(r, s, m);
    assert forall q :: 0 <= q < |r.logs| ==> r0.logs[q] == r.logs[q];
    assert InOrder(r0.logs) <==> InOrder(r.logs);
  }

  lemma RecordOrdered(r: Routing, r1: Routing, it: Option<Item>)
    requires Ordered(r1)
    ensures Ordered(Record(r, r1, it))
  {
    forall s <- r1.active ensures SessionOk(Record(r, r1, it), s) {
      assert SessionOk(r1, s);
    }
  }

  lemma RegisterOrder(r: Routing, s: string, m: string, n: nat)
    requires Inv(r, n) && Ordered(r)
    ensures var r1 := RegisterStep(r, s, m); Ordered(r1) && (InOrder(r1.logs) <==> InOrder(r.logs))
  {
    var r0 := NewQueue(r, s, m);
    NewQueueOrder(r, s, m, n);
    NewQueueOrdered(r, s, m);
    FlushOrder(r0, s, m, r.early.keys, n);
    RecordOrdered(r, FlushEarly(r0, s, m, r.early.keys), None);
  }

  lemma InterruptKeepsOrdered(r: Routing, reason: string)
    requires TurnsOk(r) && Ordered(r)
    ensures Ordered(Interrupted(r, reason))
  {
    var r1 := Interrupted(r, reason);
    forall s1 <- r1.active ensures SessionOk(r1, s1)
    {
      var log, log1 := r.logs[ActiveQueue(r, s1).value], r1.logs[ActiveQueue(r, s1).value];
      assert SessionOrdered(r.early, log, s1, r.active[s1], Get(r.assistants, s1));
      UnrelatedSession(r.early, log, log1, s1, r.active[s1], Get(r.assistants, s1));
    }
  }

  lemma UnrelatedSession(
      early: Dict<EarlyKey, Item>, log: seq<Item>, log1: seq<Item>, s: string, t: string, bound: Option<string>)
    requires SessionOrdered(early, log, s, t, bound)
    requires log <= log1 && forall i :: |log| <= i < |log1| ==> !log1[i].origin.OfMessage?
    ensures SessionOrdered(early, log1, s, t, bound)
  {
    forall y | y != t ensures Before(log1, y, early.At((s, Some(y)))) {
      assert Before(log, y, early.At((s, Some(y))));
    }
  }

  lemma InterruptInOrder(r: Routing, reason: string)
    ensures InOrder(Interrupted(r, reason).logs) <==> InOrder(r.logs)
  {
    var logs1 := Interrupted(r, reason).logs;
    forall q | 0 <= q < |r.logs| ensures LogInOrder(logs1[q]) <==> LogInOrder(r.logs[q]) {
      assert forall i :: 0 <= i < |r.logs[q]| ==> logs1[q][i] == r.logs[q][i];
    }
  }

  lemma ForgetSession(r: Routing, s: string, m: string, s1: string)
    requires TurnsOk(r) && s1 in Forget(r, s, m).active
    ensures var r1 := Forget(r, s, m);
            && s1 in r.active && r1.active[s1] == r.active[s1] && ActiveQueue(r1, s1) == ActiveQueue(r, s1)
            && Get(r1.assistants, s1) == Get(r.assistants, s1)
  {
    assert (s1, r.active[s1]) in r.queues;
  }

  lemma ForgetOrder(r: Routing, s: string, m: string)
    requires TurnsOk(r) && Ordered(r)
    ensures Ordered(Forget(r, s, m))
  {
    forall s1 <- Forget(r, s, m).active ensures SessionOk(Forget(r, s, m), s1) {
      ForgetSession(r, s, m, s1);
      assert SessionOk(r, s1);
    }
  }

  lemma ResolveOrder(r: Routing, s: string, x: string, n: nat)
    requires Inv(r, n) && Ordered(r)
    ensures var (r1, found) := Resolve(r, s, x);
            && Inv(r1, n) && Ordered(r1) && (InOrder(r1.logs) <==> InOrder(r.logs))
            && (found ==> ActiveQueue(r1, s).Some? && (x == r1.active[s] || !r1.early.Has((s, Some(x)))))
            && (!found && ActiveQueue(r1, s).Some? ==> x != r1.active[s] && Get(r1.assistants, s) != Some(x))
  {
    if ActiveQueue(r, s).Some? {
      if x == r.active[s] || Get(r.assistants, s) == Some(x) {
        assert SessionOk(r, s);
      } else if Get(r.parents, (s, x)) == Some(r.active[s]) {
        BindKeepsInv(r, s, x, n);
        BindKeepsOrdered(r, s, x, n);
        BindOrder(r, s, x, n);
      }
    }
  }

  lemma PlaceOrder(r: Routing, found: bool, it: Item, buffered: bool, n: nat)
    requires Inv(r, n) && Ordered(r) && it.at == n
    requires found && it.origin.OfMessage? ==>
               ActiveQueue(r, it.session).Some? &&
               (it.origin.message == r.active[it.session] || !r.early.Has((it.session, Some(it.origin.message))))
    requires !found && buffered && it.origin.OfMessage? && ActiveQueue(r, it.session).Some? ==>
               it.origin.message != r.active[it.session] && Get(r.assistants, it.session) != Some(it.origin.message)
    ensures var r1 := Place(r, found, it, buffered); Ordered(r1) && (InOrder(r1.logs) <==> InOrder(r.logs))
  {
    if found && ActiveQueue(r, it.session).Some? {
      PutOrder(r, it, n);
    } else if !found && buffered {
      PushKeepsOrdered(r, it, n);
    }
  }

  lemma SendOrder(r: Routing, s: string, x: string, event: AgentEvent, buffered: bool, n: nat)
    requires Inv(r, n) && Ordered(r)
    ensures var r1 := Place(Resolve(r, s, x).0, Resolve(r, s, x).1, Item(n, s, OfMessage(x), event), buffered);
            Ordered(r1) && (InOrder(r1.logs) <==> InOrder(r.logs))
  {
    ResolveOrder(r, s, x, n);
    PlaceOrder(Resolve(r, s, x).0, Resolve(r, s, x).1, Item(n, s, OfMessage(x), event), buffered, n);
  }

  lemma DeliverOrder(r: Routing, d: Decision, n: nat)
    requires Inv(r, n) && Ordered(r) && n == |r.emitted|
    ensures Ordered(Deliver(r, d)) && (InOrder(Deliver(r, d).logs) <==> InOrder(r.logs))
  {
    match d
    case Drop =>
    case ToMessage(s, x, event) => SendOrder(r, s, x, event, true, n);
    case ToBoundMessage(s, x, event) => SendOrder(r, s, x, event, false, n);
    case ToSession(s, event) =>
      PlaceOrder(r, ActiveQueue(r, s).Some?, Item(n, s, OfSession, event), true, n);
    case ToActiveTurn(s, x, event) =>
      PlaceOrder(r, Get(r.active, s) == Some(x), Item(n, s, OfMessage(x), event), false, n);
  }

  /** The guard under which a call breaks the order: it names the active message as its own parent
      while older items of that message are buffered and newer ones are already on the queue. */
  ghost predicate Reorders(r: Routing, info: Option<Info>) {
    && ParentIn(info).Some?
    && var ((s, x), p) := ParentIn(info).value;
       Get(r.active, s) == Some(p) && BindReorders(r, s, x)
  }

  lemma RememberKeepsOrdered(r: Routing, info: Option<Info>)
    requires Ordered(r)
    ensures Ordered(Remember(r, info))
  {
    var r0 := Remember(r, info);
    forall s <- r0.active ensures SessionOk(r0, s)
    {
      assert SessionOk(r, s);
    }
  }

  lemma ReplayOrder(r: Routing, info: Option<Info>, n: nat)
    requires Inv(r, n) && Ordered(r)
    ensures Ordered(Replay(r, info))
    ensures InOrder(Replay(r, info).logs) <==> InOrder(r.logs) && !Reorders(r, info)
  {
    if ParentIn(info).Some? {
      var ((s, x), p) := ParentIn(info).value;
      if Get(r.active, s) == Some(p) {
        BindKeepsOrdered(r, s, x, n);
        BindOrder(r, s, x, n);
      }
    }
  }

  lemma LearnOrder(r: Routing, info: Option<Info>, n: nat)
    requires Inv(r, n) && Ordered(r)
    ensures Ordered(Learn(r, info))
    ensures InOrder(Learn(r, info).logs) <==> InOrder(r.logs) && !Reorders(r, info)
  {
    RememberKeepsOrdered(r, info);
    var r0 := Remember(r, info);
    assert Reorders(r0, info) == Reorders(r, info);
    ReplayOrder(r0, info, n);
  }

  ghost predicate StepReorders(r: Routing, op: Op) { op.Handle? && Reorders(r, op.info) }

  lemma HandleOrder(r: Routing, info: Option<Info>, d: Decision, n: nat)
    requires Inv(r, n) && Ordered(r) && n == |r.emitted|
    ensures var r1 := HandleStep(r, info, d);
            Ordered(r1) && (InOrder(r1.logs) <==> InOrder(r.logs) && !Reorders(r, info))
  {
    var r1 := Learn(r, info);
    LearnKeepsInv(r, info, n);
    LearnOrder(r, info, n);
    LearnFrame(r, info);
    DeliverOrder(r1, d, n);
    RecordOrdered(r, Deliver(r1, d), Accepted(r1, d));
  }

  lemma StepOrder(r: Routing, op: Op, n: nat)
    requires Inv(r, n) && Ordered(r) && n == |r.emitted|
    ensures Ordered(Step(r, op))
    ensures InOrder(Step(r, op).logs) <==> InOrder(r.logs) && !StepReorders(r, op)
  {
    match op
    case Register(s, m) => RegisterOrder(r, s, m, n);
    case Unregister(s, m) =>
      ForgetOrder(r, s, m);
      RecordOrdered(r, Forget(r, s, m), None);
    case Interrupt(reason) =>
      InterruptKeepsOrdered(r, reason);
      InterruptInOrder(r, reason);
      RecordOrdered(r, Interrupted(r, reason), None);
    case Handle(info, d) => HandleOrder(r, info, d, n);
  }

  /** No call of the run reorders. */
  ghost predicate NeverReorders(ops: seq<Op>) {
    ops != [] ==> !StepReorders(Run(ops[..|ops| - 1]), ops[|ops| - 1]) && NeverReorders(ops[..|ops| - 1])
  }

  /** Every queue keeps the arrival order of every message if and only if no call of the run made the
      active message its own parent while it was both buffered and queued. */
  lemma {:induction false} OrderIff(ops: seq<Op>)
    ensures Ordered(Run(ops))
    ensures InOrder(Run(ops).logs) <==> NeverReorders(ops)
  {
    if ops != [] {
      var front := ops[..|ops| - 1];
      OrderIff(front);
      RunKeepsInv(front);
      StepOrder(Run(front), ops[|ops| - 1], |front|);
    }
  }

  /** The routing after a message event that came before everything else. */
  function EarlyOnly(s: string, t: string, event: AgentEvent): Routing {
    var it := Item(0, s, OfMessage(t), event);
    Record(NoRouting, NoRouting.(early := Dict([(s, Some(t))], map[(s, Some(t)) := [it]])), Some(it))
  }

  lemma EarlyComes(s: string, t: string, event: AgentEvent)
    ensures Step(NoRouting, Handle(None, ToMessage(s, t, event))) == EarlyOnly(s, t, event)
  {
    assert [] + [Item(0, s, OfMessage(t), event)] == [Item(0, s, OfMessage(t), event)];
  }

  /** Its own turn does not get it. */
  lemma EarlyStays(s: string, t: string, event: AgentEvent)
    ensures var r := EarlyOnly(s, t, event); Step(r, Register(s, t)) == Record(r, NewQueue(r, s, t), None)
  {
    var r := NewQueue(EarlyOnly(s, t, event), s, t);
    assert FlushEarly(r, s, t, [(s, Some(t))]) == FlushEarly(r, s, t, []);
  }

  lemma OwnComes(r: Routing, s: string, t: string, event: AgentEvent, q: nat)
    requires Get(r.active, s) == Some(t) && Get(r.queues, (s, t)) == Some(q) && q < |r.logs| && (s, t) !in r.roles
    ensures var it := Item(|r.emitted|, s, OfMessage(t), event);
            Step(r, Handle(None, ToMessage(s, t, event))) ==
            r.(logs := r.logs[q := r.logs[q] + [it]], emitted := r.emitted + [Some(it)])
  {
    assert Learn(r, None) == r;
    assert Resolve(r, s, t) == (r, true);
  }

  /** The turn's own message, early and then again: the second of its events is on the queue. */
  lemma OwnMessageTwice(s: string, t: string, first: AgentEvent, second: AgentEvent) returns (r: Routing)
    ensures r == Run([Handle(None, ToMessage(s, t, first)), Register(s, t), Handle(None, ToMessage(s, t, second))])
    ensures r.logs == [[Item(2, s, OfMessage(t), second)]] && r.early.Has((s, Some(t))) && Get(r.active, s) == Some(t)
    ensures Get(r.queues, (s, t)) == Some(0)
  {
    var early := EarlyOnly(s, t, first);
    EarlyComes(s, t, first);
    EarlyStays(s, t, first);
    RunOfThree(Handle(None, ToMessage(s, t, first)), Register(s, t), Handle(None, ToMessage(s, t, second)));
    var r2, it := Record(early, NewQueue(early, s, t), None), Item(2, s, OfMessage(t), second);
    assert r2.logs == [[]] && |r2.emitted| == 2;
    OwnComes(r2, s, t, second, 0);
    r := Step(r2, Handle(None, ToMessage(s, t, second)));
    assert [] + [it] == [it] && [[]][0 := [it]] == [[it]];
    assert r.logs == r2.logs[0 := r2.logs[0] + [it]];
  }

  /** The order does get broken: then it becomes its own parent. */
  lemma SelfParentReorders(s: string, t: string, first: AgentEvent, second: AgentEvent)
    ensures var own := Some(Info(Some(s), Some(t), Some("assistant"), Some(t)));
            !InOrder(Run([Handle(None, ToMessage(s, t, first)), Register(s, t), Handle(None, ToMessage(s, t, second)),
                          Handle(own, Drop)]).logs)
  {
    var own := Some(Info(Some(s), Some(t), Some("assistant"), Some(t)));
    var ops :=
      [Handle(None, ToMessage(s, t, first)), Register(s, t), Handle(None, ToMessage(s, t, second)), Handle(own, Drop)];
    var r := OwnMessageTwice(s, t, first, second);
    assert ops[..3] == [ops[0], ops[1], ops[2]];
    assert IsOf(r.logs[0][0], t);
    assert StepReorders(r, ops[3]);
    OrderIff(ops);
  }
}
