/** What becomes of events that came before their turn: when a buffered event is replayed, and when not. */
module OpenCodeEarly {
  import opened Wrappers
  import opened AgentEvents
  import opened OpenCodeEvents
  import opened OpenCodeRouting
  import opened OpenCodeTurns
  import D = OpenCodeDelivery
  import O = OpenCodeOrder

  // The buffer.

  lemma PopAt(early: Dict<EarlyKey, Item>, j: EarlyKey, k: EarlyKey)
    ensures early.Pop(j).At(k) == if j == k then [] else early.At(k)
  {
  }

  lemma PushAt(early: Dict<EarlyKey, Item>, j: EarlyKey, it: Item, k: EarlyKey)
    ensures early.Push(j, it).At(k) == if j == k then early.At(k) + [it] else early.At(k)
  {
  }

  /** Binding a message of an active session replays its buffer, and no other. */
  lemma BindAt(r: Routing, s: string, x: string, k: EarlyKey)
    ensures Bind(r, s, x).early.At(k) == if ActiveQueue(r, s).Some? && k == (s, Some(x)) then [] else r.early.At(k)
  {
    PopAt(r.early, (s, Some(x)), k);
  }

  /** Placing an item adds at most it, and only under its own key. */
  lemma PlaceAt(r: Routing, found: bool, it: Item, buffered: bool, k: EarlyKey)
    ensures var early := Place(r, found, it, buffered).early;
            early.At(k) == if !found && buffered && k == KeyOf(it) then r.early.At(k) + [it] else r.early.At(k)
  {
    PushAt(r.early, KeyOf(it), it, k);
  }

  // Events of the session itself.

  lemma {:induction false} FlushSessionAt(r: Routing, s: string, m: string, keys: seq<EarlyKey>, k: EarlyKey)
    requires k.1.None?
    ensures FlushEarly(r, s, m, keys).early.At(k) == r.early.At(k)
    decreases |keys|
  {
    if keys != [] {
      var j := keys[0];
      if j.0 == s && j.1.Some? && Get(r.parents, (s, j.1.value)) == Some(m) {
        BindAt(r, s, j.1.value, k);
        FlushSessionAt(Bind(r, s, j.1.value), s, m, keys[1..], k);
      } else {
        FlushSessionAt(r, s, m, keys[1..], k);
      }
    }
  }

  lemma LearnSessionAt(r: Routing, info: Option<Info>, k: EarlyKey)
    requires k.1.None?
    ensures Learn(r, info).early.At(k) == r.early.At(k)
  {
    if ParentIn(info).Some? {
      BindAt(Remember(r, info), ParentIn(info).value.0.0, ParentIn(info).value.0.1, k);
    }
  }

  lemma SendSessionAt(r: Routing, s: string, x: string, it: Item, buffered: bool, k: EarlyKey)
    requires k.1.None? && it.origin.OfMessage?
    ensures Place(Resolve(r, s, x).0, Resolve(r, s, x).1, it, buffered).early.At(k) == r.early.At(k)
  {
    BindAt(r, s, x, k);
    PlaceAt(Resolve(r, s, x).0, Resolve(r, s, x).1, it, buffered, k);
  }

  lemma DeliverSessionAt(r: Routing, d: Decision, k: EarlyKey)
    requires k.1.None?
    ensures r.early.At(k) <= Deliver(r, d).early.At(k)
  {
    var n := |r.emitted|;
    match d
    case Drop =>
    case ToMessage(s, x, event) => SendSessionAt(r, s, x, Item(n, s, OfMessage(x), event), true, k);
    case ToBoundMessage(s, x, event) => SendSessionAt(r, s, x, Item(n, s, OfMessage(x), event), false, k);
    case ToSession(s, event) => PlaceAt(r, ActiveQueue(r, s).Some?, Item(n, s, OfSession, event), true, k);
    case ToActiveTurn(s, x, event) =>
      PlaceAt(r, Get(r.active, s) == Some(x), Item(n, s, OfMessage(x), event), false, k);
  }

  /** A buffered event that has no message is never taken out of the buffer. */
  lemma StepKeepsSessionEvents(r: Routing, op: Op, s: string)
    ensures r.early.At((s, None)) <= Step(r, op).early.At((s, None))
  {
    var k: EarlyKey := (s, None);
    match op
    case Register(s1, m) => FlushSessionAt(NewQueue(r, s1, m), s1, m, r.early.keys, k);
    case Unregister(s1, m) =>
    case Interrupt(reason) =>
    case Handle(info, d) =>
      LearnSessionAt(r, info, k);
      DeliverSessionAt(Learn(r, info), d, k);
  }

  lemma {:induction false} RunKeepsSessionEvents(ops: seq<Op>, more: seq<Op>, s: string)
    ensures Run(ops).early.At((s, None)) <= Run(ops + more).early.At((s, None))
    decreases |more|
  {
    if more == [] {
      assert ops + more == ops;
    } else {
      var front, last := more[..|more| - 1], more[|more| - 1];
      RunKeepsSessionEvents(ops, front, s);
      assert ops + more == (ops + front) + [last];
      RunAppend(ops + front, last);
      StepKeepsSessionEvents(Run(ops + front), last, s);
    }
  }

  /** So it never gets to any queue, whatever turns the session has. */
  lemma EarlySessionEventsAreNeverDelivered(ops: seq<Op>, more: seq<Op>, s: string, it: Item)
    requires it in Run(ops).early.At((s, None))
    ensures var r := Run(ops + more); it in r.early.At((s, None)) && !D.InLogs(r.logs, it)
  {
    RunKeepsSessionEvents(ops, more, s);
    var r, k: EarlyKey := Run(ops + more), (s, None);
    RunKeepsInv(ops + more);
    D.RunDelivers(ops + more);
    BufferedIsNotQueued(r.early, r.logs, k, it, |ops + more|);
  }

  lemma BufferedIsNotQueued(early: Dict<EarlyKey, Item>, logs: seq<seq<Item>>, k: EarlyKey, it: Item, n: nat)
    requires D.NoDuplicates(early, logs) && ItemsOk(early, logs, n) && it in early.At(k)
    ensures !D.InLogs(logs, it)
  {
    assert EarlyListOk(k, early.lists[k], n);
    var j :| 0 <= j < |early.lists[k]| && early.lists[k][j] == it;
    forall q, i | 0 <= q < |logs| && 0 <= i < |logs[q]| ensures logs[q][i] != it {
      assert !D.SameArrival(logs[q][i], early.lists[k][j]);
    }
  }

  // Events of a message.

  /** The call registers or reports something by which message x belongs to the turn that is then active. */
  predicate Replays(r: Routing, op: Op, s: string, x: string) {
    match op
    case Register(s1, m) => s1 == s && Get(r.parents, (s, x)) == Some(m)
    case Handle(info, _) => s in r.active && ParentIn(info) == Some(((s, x), r.active[s]))
    case _ => false
  }

  lemma {:induction false} FlushAt(r: Routing, s: string, m: string, keys: seq<EarlyKey>, k: EarlyKey)
    requires ActiveQueue(r, s).Some?
    ensures FlushEarly(r, s, m, keys).early.At(k) ==
            if k in keys && k.0 == s && k.1.Some? && Get(r.parents, (s, k.1.value)) == Some(m) then []
              else r.early.At(k)
    decreases |keys|
  {
    if keys != [] {
      var j := keys[0];
      assert k in keys <==> k == j || k in keys[1..];
      if j.0 == s && j.1.Some? && Get(r.parents, (s, j.1.value)) == Some(m) {
        BindAt(r, s, j.1.value, k);
        FlushAt(Bind(r, s, j.1.value), s, m, keys[1..], k);
      } else {
        FlushAt(r, s, m, keys[1..], k);
      }
    }
  }

  lemma RegisterAt(r: Routing, s1: string, m: string, s: string, x: string)
    requires r.early.Valid() && r.early.Has((s, Some(x)))
    ensures RegisterStep(r, s1, m).early.At((s, Some(x))) == if Replays(r, Register(s1, m), s, x) then []
            else r.early.At((s, Some(x)))
  {
    FlushAt(NewQueue(r, s1, m), s1, m, r.early.keys, (s, Some(x)));
  }

  lemma LearnAt(r: Routing, info: Option<Info>, s: string, x: string)
    requires TurnsOk(r)
    ensures var r1 := Learn(r, info);
            if Replays(r, Handle(info, Drop), s, x) then
              r1.early.At((s, Some(x))) == [] && Get(r1.assistants, s) == Some(x)
            else
              && r1.early.At((s, Some(x))) == r.early.At((s, Some(x)))
              && (s in r.active && Get(r.parents, (s, x)) != Some(r.active[s]) ==>
                    Get(r1.parents, (s, x)) != Some(r.active[s]))
  {
    if ParentIn(info).Some? {
      BindAt(Remember(r, info), ParentIn(info).value.0.0, ParentIn(info).value.0.1, (s, Some(x)));
    }
  }

  /** Sending an event of any message takes nothing of x out, unless x belongs to the active turn. */
  lemma SendAt(r: Routing, s1: string, x1: string, event: AgentEvent, buffered: bool, s: string, x: string)
    requires s in r.active ==> Get(r.parents, (s, x)) != Some(r.active[s])
    ensures var it := Item(|r.emitted|, s1, OfMessage(x1), event);
            var r1 := Place(Resolve(r, s1, x1).0, Resolve(r, s1, x1).1, it, buffered);
            r.early.At((s, Some(x))) <= r1.early.At((s, Some(x)))
  {
    var it, k: EarlyKey := Item(|r.emitted|, s1, OfMessage(x1), event), (s, Some(x));
    BindAt(r, s1, x1, k);
    PlaceAt(Resolve(r, s1, x1).0, Resolve(r, s1, x1).1, it, buffered, k);
  }

  lemma DeliverAt(r: Routing, d: Decision, s: string, x: string)
    requires s in r.active ==> Get(r.parents, (s, x)) != Some(r.active[s])
    ensures r.early.At((s, Some(x))) <= Deliver(r, d).early.At((s, Some(x)))
  {
    var n, k: EarlyKey := |r.emitted|, (s, Some(x));
    match d
    case Drop =>
    case ToMessage(s1, x1, event) => SendAt(r, s1, x1, event, true, s, x);
    case ToBoundMessage(s1, x1, event) => SendAt(r, s1, x1, event, false, s, x);
    case ToSession(s1, event) => PlaceAt(r, ActiveQueue(r, s1).Some?, Item(n, s1, OfSession, event), true, k);
    case ToActiveTurn(s1, x1, event) =>
      PlaceAt(r, Get(r.active, s1) == Some(x1), Item(n, s1, OfMessage(x1), event), false, k);
  }

  /** A bound message has nothing in the buffer and gets nothing into it. */
  lemma DeliverBoundAt(r: Routing, d: Decision, s: string, x: string)
    requires TurnsOk(r) && Get(r.assistants, s) == Some(x) && r.early.At((s, Some(x))) == []
    ensures Deliver(r, d).early.At((s, Some(x))) == []
  {
    var n, k: EarlyKey := |r.emitted|, (s, Some(x));
    match d
    case Drop =>
    case ToMessage(s1, x1, event) => SendBoundAt(r, s1, x1, event, true, s, x);
    case ToBoundMessage(s1, x1, event) => SendBoundAt(r, s1, x1, event, false, s, x);
    case ToSession(s1, event) => PlaceAt(r, ActiveQueue(r, s1).Some?, Item(n, s1, OfSession, event), true, k);
    case ToActiveTurn(s1, x1, event) =>
      PlaceAt(r, Get(r.active, s1) == Some(x1), Item(n, s1, OfMessage(x1), event), false, k);
  }

  lemma SendBoundAt(r: Routing, s1: string, x1: string, event: AgentEvent, buffered: bool, s: string, x: string)
    requires TurnsOk(r) && Get(r.assistants, s) == Some(x) && r.early.At((s, Some(x))) == []
    ensures var it := Item(|r.emitted|, s1, OfMessage(x1), event);
            Place(Resolve(r, s1, x1).0, Resolve(r, s1, x1).1, it, buffered).early.At((s, Some(x))) == []
  {
    var it, k: EarlyKey := Item(|r.emitted|, s1, OfMessage(x1), event), (s, Some(x));
    BindAt(r, s1, x1, k);
    PlaceAt(Resolve(r, s1, x1).0, Resolve(r, s1, x1).1, it, buffered, k);
    assert (s1, x1) == (s, x) ==> Resolve(r, s1, x1).1;
  }

  lemma HandleAt(r: Routing, info: Option<Info>, d: Decision, s: string, x: string)
    requires TurnsOk(r) && BuffersClear(r) && r.early.Has((s, Some(x)))
    ensures var now := HandleStep(r, info, d).early.At((s, Some(x)));
            if Replays(r, Handle(info, d), s, x) then now == [] else r.early.At((s, Some(x))) <= now
  {
    if Replays(r, Handle(info, d), s, x) {
      HandleReplaysAt(r, info, d, s, x);
    } else {
      HandleKeepsAt(r, info, d, s, x);
    }
  }

  lemma HandleReplaysAt(r: Routing, info: Option<Info>, d: Decision, s: string, x: string)
    requires TurnsOk(r) && Replays(r, Handle(info, Drop), s, x)
    ensures HandleStep(r, info, d).early.At((s, Some(x))) == []
  {
    LearnAt(r, info, s, x);
    LearnKeepsTurns(r, info);
    DeliverBoundAt(Learn(r, info), d, s, x);
  }

  lemma HandleKeepsAt(r: Routing, info: Option<Info>, d: Decision, s: string, x: string)
    requires TurnsOk(r) && BuffersClear(r) && r.early.Has((s, Some(x))) && !Replays(r, Handle(info, Drop), s, x)
    ensures r.early.At((s, Some(x))) <= HandleStep(r, info, d).early.At((s, Some(x)))
  {
    assert s in r.active ==> Get(r.parents, (s, x)) != Some(r.active[s]);
    LearnAt(r, info, s, x);
    LearnFrame(r, info);
    DeliverAt(Learn(r, info), d, s, x);
  }

  /** A buffered event of a message leaves the buffer exactly at a call that registers the turn it is known
      to belong to, or that reports it as belonging to the active turn; till then the buffer only grows.
      Looking a message up never replays it: by then there is nothing to replay. */
  lemma LeavesIff(ops: seq<Op>, op: Op, s: string, x: string)
    requires Run(ops).early.Has((s, Some(x)))
    ensures var (r, now) := (Run(ops), Step(Run(ops), op).early.At((s, Some(x))));
            && r.early.At((s, Some(x))) != []
            && if Replays(r, op, s, x) then now == [] else r.early.At((s, Some(x))) <= now
  {
    var r := Run(ops);
    RunKeepsInv(ops);
    RepliesAreReplayed(ops);
    assert EarlyListOk((s, Some(x)), r.early.lists[(s, Some(x))], |ops|);
    match op
    case Register(s1, m) => RegisterAt(r, s1, m, s, x);
    case Unregister(s1, m) =>
    case Interrupt(reason) =>
    case Handle(info, d) => HandleAt(r, info, d, s, x);
  }

  // Where it goes.

  predicate OnActiveQueue(r: Routing, s: string, it: Item) {
    ActiveQueue(r, s).Some? && ActiveQueue(r, s).value < |r.logs| && it in r.logs[ActiveQueue(r, s).value]
  }

  lemma BindPuts(r: Routing, s: string, x: string, it: Item)
    requires it in r.early.At((s, Some(x))) && ActiveQueue(r, s).Some? && ActiveQueue(r, s).value < |r.logs|
    ensures OnActiveQueue(Bind(r, s, x), s, it)
  {
  }

  lemma StaysOnQueue(r: Routing, r1: Routing, s: string, it: Item)
    requires OnActiveQueue(r, s, it) && Extends(r, r1) && ActiveQueue(r1, s) == ActiveQueue(r, s)
    ensures OnActiveQueue(r1, s, it)
  {
    var q := ActiveQueue(r, s).value;
    assert r.logs[q] <= r1.logs[q];
  }

  lemma {:induction false} FlushPuts(r: Routing, s: string, m: string, keys: seq<EarlyKey>, x: string, it: Item, n: nat)
    requires Inv(r, n) && Get(r.active, s) == Some(m) && Get(r.parents, (s, x)) == Some(m)
    requires it in r.early.At((s, Some(x))) && (s, Some(x)) in keys
    ensures OnActiveQueue(FlushEarly(r, s, m, keys), s, it)
    decreases |keys|
  {
    var j := keys[0];
    var bound := j.0 == s && j.1.Some? && Get(r.parents, (s, j.1.value)) == Some(m);
    var r1 := if bound then Bind(r, s, j.1.value) else r;
    if bound {
      BindKeepsInv(r, s, j.1.value, n);
    }
    if j == (s, Some(x)) {
      BindPuts(r, s, x, it);
      FlushAddsOwn(r1, s, m, keys[1..], n);
      FlushFrame(r1, s, m, keys[1..]);
      StaysOnQueue(r1, FlushEarly(r1, s, m, keys[1..]), s, it);
    } else {
      if bound {
        BindAt(r, s, j.1.value, (s, Some(x)));
      }
      FlushPuts(r1, s, m, keys[1..], x, it, n);
    }
  }

  lemma LearnPuts(r: Routing, info: Option<Info>, s: string, x: string, it: Item)
    requires TurnsOk(r) && it in r.early.At((s, Some(x))) && Replays(r, Handle(info, Drop), s, x)
    ensures OnActiveQueue(Learn(r, info), s, it)
  {
    BindPuts(Remember(r, info), s, x, it);
  }

  lemma DeliverKeepsQueues(r: Routing, d: Decision)
    ensures Deliver(r, d).active == r.active && Deliver(r, d).queues == r.queues
  {
    if d.ToMessage? || d.ToBoundMessage? {
      SendKeepsQueues(r, d.session, d.message, Item(|r.emitted|, d.session, OfMessage(d.message), d.event),
                      d.ToMessage?);
    }
  }

  lemma SendKeepsQueues(r: Routing, s: string, x: string, it: Item, buffered: bool)
    ensures var r1 := Place(Resolve(r, s, x).0, Resolve(r, s, x).1, it, buffered);
            r1.active == r.active && r1.queues == r.queues
  {
    ResolveIs(r, s, x);
    BindFrame(r, s, x);
    PlaceKeepsQueues(Resolve(r, s, x).0, Resolve(r, s, x).1, it, buffered);
  }

  lemma PlaceKeepsQueues(r: Routing, found: bool, it: Item, buffered: bool)
    ensures var r1 := Place(r, found, it, buffered); r1.active == r.active && r1.queues == r.queues
  {
  }

  /** What leaves the buffer gets on the queue of the turn that its message belongs to. */
  lemma ReplayedIsQueued(ops: seq<Op>, op: Op, s: string, x: string, it: Item)
    requires it in Run(ops).early.At((s, Some(x))) && Replays(Run(ops), op, s, x)
    ensures OnActiveQueue(Step(Run(ops), op), s, it)
  {
    var r, n := Run(ops), |ops|;
    RunKeepsInv(ops);
    match op
    case Register(s1, m) =>
      FlushPuts(NewQueue(r, s, m), s, m, r.early.keys, x, it, n);
    case Handle(info, d) =>
      LearnPuts(r, info, s, x, it);
      LearnKeepsInv(r, info, n);
      LearnFrame(r, info);
      DeliverAddsOwn(Learn(r, info), d, n);
      DeliverKeepsQueues(Learn(r, info), d);
      StaysOnQueue(Learn(r, info), Deliver(Learn(r, info), d), s, it);
  }

  // Events that do not reach the turn they came early for.

  /** An early event of the session stays behind when the session's turn begins. */
  lemma EarlySessionEventStays(s: string, t: string, event: AgentEvent)
    ensures var r := Run([Handle(None, ToSession(s, event)), Register(s, t)]);
            r.logs == [[]] && r.early.At((s, None)) == [Item(0, s, OfSession, event)] && Get(r.active, s) == Some(t)
  {
    var it := Item(0, s, OfSession, event);
    assert [] + [it] == [it];
    var a, b := Handle(None, ToSession(s, event)), Register(s, t);
    RunOfThree(a, b, b);
    var r1 := Record(NoRouting, NoRouting.(early := Dict([(s, None)], map[(s, None) := [it]])), Some(it));
    assert Step(NoRouting, a) == r1;
    var r2 := NewQueue(r1, s, t);
    assert FlushEarly(r2, s, t, [(s, None)]) == FlushEarly(r2, s, t, []);
  }

  /** So does one of the turn's own message, */
  lemma EarlyOwnEventStays(s: string, t: string, event: AgentEvent)
    ensures var r := Run([Handle(None, ToMessage(s, t, event)), Register(s, t)]);
            && r.logs == [[]] && r.early.At((s, Some(t))) == [Item(0, s, OfMessage(t), event)]
            && Get(r.active, s) == Some(t)
  {
    var r := EarlyAndRegistered(s, t, event);
  }

  /** and if the message is then reported to answer another one, the turn of that one gets it. */
  lemma EarlyOwnEventGoesElsewhere(s: string, t: string, u: string, event: AgentEvent)
    requires t != u
    ensures var r :=
            Run([Handle(None, ToMessage(s, t, event)), Register(s, t), Handle(Answers(s, t, u), Drop), Register(s, u)]);
            |r.owners| == 2 && r.owners[1] == (s, u) && |r.logs| == 2 && r.logs[1] == [Item(0, s, OfMessage(t), event)]
  {
    var a, b, c, d :=
      Handle(None, ToMessage(s, t, event)), Register(s, t), Handle(Answers(s, t, u), Drop), Register(s, u);
    var r := EarlyAndRegistered(s, t, event);
    RunOfThree(a, b, c);
    ReportedElsewhere(r, s, t, u);
    assert [a, b, c, d][..3] == [a, b, c];
    AnsweringTurnGetsIt(Step(r, c), s, t, u, Item(0, s, OfMessage(t), event));
  }

  lemma EarlyAndRegistered(s: string, t: string, event: AgentEvent) returns (r: Routing)
    ensures r == Run([Handle(None, ToMessage(s, t, event)), Register(s, t)])
    ensures r.early == Dict([(s, Some(t))], map[(s, Some(t)) := [Item(0, s, OfMessage(t), event)]]) && r.logs == [[]]
    ensures |r.owners| == 1 && Get(r.active, s) == Some(t)
  {
    var a, b := Handle(None, ToMessage(s, t, event)), Register(s, t);
    RunOfThree(a, b, b);
    O.EarlyComes(s, t, event);
    O.EarlyStays(s, t, event);
    r := Step(O.EarlyOnly(s, t, event), b);
  }

  lemma ReportedElsewhere(r: Routing, s: string, t: string, u: string)
    requires Get(r.active, s) == Some(t) && t != u
    ensures var r1 := Step(r, Handle(Answers(s, t, u), Drop));
            && r1.early == r.early && r1.logs == r.logs && r1.owners == r.owners
            && r1.parents == r.parents[(s, t) := u]
  {
  }

  lemma AnsweringTurnGetsIt(r: Routing, s: string, t: string, u: string, it: Item)
    requires r.early == Dict([(s, Some(t))], map[(s, Some(t)) := [it]]) && r.logs == [[]] && |r.owners| == 1
    requires Get(r.parents, (s, t)) == Some(u)
    ensures var r1 := Step(r, Register(s, u));
            |r1.owners| == 2 && r1.owners[1] == (s, u) && r1.logs == [[], [it]]
  {
    var r1 := NewQueue(r, s, u);
    assert r1.logs == [[], []];
    var r2 := Bind(r1, s, t);
    assert [] + [it] == [it];
    assert r2.logs == [[], [it]];
    assert FlushEarly(r1, s, u, [(s, Some(t))]) == FlushEarly(r2, s, u, []);
  }
}
