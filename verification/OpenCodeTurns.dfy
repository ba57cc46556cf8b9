/** Which turn's queue an event ends up on: isolation of turns, completeness of the replays. */
module OpenCodeTurns {
  import opened Wrappers
  import opened AgentEvents
  import opened OpenCodeEvents
  import opened OpenCodeRouting

  type Parents = map<(string, string), string>

  /** The item is of the turn's session, and its message is the turn's own or one that answers it. */
  ghost predicate Belongs(parents: Parents, turn: Turn, it: Item) {
    && it.session == turn.0
    && (it.origin.OfMessage? ==>
          it.origin.message == turn.1 || Get(parents, (turn.0, it.origin.message)) == Some(turn.1))
  }

  ghost predicate Isolated(parents: Parents, owners: seq<Turn>, logs: seq<seq<Item>>) {
    forall q, i :: 0 <= q < |logs| && q < |owners| && 0 <= i < |logs[q]| ==> Belongs(parents, owners[q], logs[q][i])
  }

  /** A bound assistant message answers the active message. */
  ghost predicate BindingsOk(r: Routing) {
    forall s <- r.assistants :: s in r.active && Get(r.parents, (s, r.assistants[s])) == Some(r.active[s])
  }

  /** Nothing is buffered for a message that is known to answer an active turn. */
  ghost predicate BuffersClear(r: Routing) {
    forall k <- r.early.lists :: k.1.Some? && k.0 in r.active ==>
        Get(r.parents, (k.0, k.1.value)) != Some(r.active[k.0])
  }

  /** The event does not give a message another parent than it already has. */
  ghost predicate KeepsParents(r: Routing, op: Op) {
    op.Handle? && ParentIn(op.info).Some? && ParentIn(op.info).value.0 in r.parents ==>
      r.parents[ParentIn(op.info).value.0] == ParentIn(op.info).value.1
  }

  ghost predicate StableParents(ops: seq<Op>) {
    ops != [] ==> KeepsParents(Run(ops[..|ops| - 1]), ops[|ops| - 1]) && StableParents(ops[..|ops| - 1])
  }

  // Replays are complete.

  lemma {:induction false} FlushClears(r: Routing, s: string, m: string, keys: seq<EarlyKey>)
    requires ActiveQueue(r, s).Some?
    ensures forall k <- FlushEarly(r, s, m, keys).early.lists ::
              k in r.early.lists && !(k in keys && k.0 == s && k.1.Some? && Get(r.parents, (s, k.1.value)) == Some(m))
    decreases |keys|
  {
    if keys != [] {
      var k := keys[0];
      assert forall k' <- keys :: k' == k || k' in keys[1..];
      if k.0 == s && k.1.Some? && Get(r.parents, (s, k.1.value)) == Some(m) {
        FlushClears(Bind(r, s, k.1.value), s, m, keys[1..]);
      } else {
        FlushClears(r, s, m, keys[1..]);
      }
    }
  }

  lemma {:induction false} FlushFrame(r: Routing, s: string, m: string, keys: seq<EarlyKey>)
    ensures var r1 := FlushEarly(r, s, m, keys);
            && r1.active == r.active && r1.parents == r.parents && r1.queues == r.queues && r1.owners == r.owners
            && |r1.logs| == |r.logs|
    decreases |keys|
  {
    if keys != [] {
      var k := keys[0];
      FlushFrame(
        if k.0 == s && k.1.Some? && Get(r.parents, (s, k.1.value)) == Some(m) then Bind(r, s, k.1.value)
          else r, s, m, keys[1..]);
    }
  }

  lemma LearnClears(r: Routing, info: Option<Info>)
    requires TurnsOk(r) && BuffersClear(r)
    ensures BuffersClear(Learn(r, info))
  {
  }

  lemma PlaceKeepsClear(r: Routing, found: bool, it: Item, buffered: bool)
    requires BuffersClear(r)
    requires !found && it.origin.OfMessage? && it.session in r.active ==>
               Get(r.parents, (it.session, it.origin.message)) != Some(r.active[it.session])
    ensures BuffersClear(Place(r, found, it, buffered))
  {
  }

  lemma ResolveKeepsClear(r: Routing, s: string, x: string)
    requires TurnsOk(r) && BuffersClear(r)
    ensures var (r1, found) := Resolve(r, s, x);
            && BuffersClear(r1)
            && (!found && s in r1.active ==> Get(r1.parents, (s, x)) != Some(r1.active[s]))
  {
  }

  lemma DeliverKeepsClear(r: Routing, d: Decision)
    requires TurnsOk(r) && BuffersClear(r)
    ensures BuffersClear(Deliver(r, d))
  {
    var n := |r.emitted|;
    match d
    case Drop =>
    case ToMessage(s, x, event) =>
      ResolveKeepsClear(r, s, x);
      PlaceKeepsClear(Resolve(r, s, x).0, Resolve(r, s, x).1, Item(n, s, OfMessage(x), event), true);
    case ToBoundMessage(s, x, event) =>
      ResolveKeepsClear(r, s, x);
    case ToSession(s, event) =>
      PlaceKeepsClear(r, ActiveQueue(r, s).Some?, Item(n, s, OfSession, event), true);
    case ToActiveTurn(s, x, event) =>
  }

  lemma StepKeepsClear(r: Routing, op: Op, n: nat)
    requires Inv(r, n) && n == |r.emitted| && BuffersClear(r)
    ensures BuffersClear(Step(r, op))
  {
    match op
    case Register(s, m) =>
      FlushClears(NewQueue(r, s, m), s, m, r.early.keys);
      FlushFrame(NewQueue(r, s, m), s, m, r.early.keys);
    case Unregister(s, m) =>
    case Interrupt(reason) =>
    case Handle(info, d) =>
      LearnKeepsInv(r, info, n);
      LearnClears(r, info);
      DeliverKeepsClear(Learn(r, info), d);
  }

  /** Whatever the interleaving: while a turn is active, no event of a message known to answer it waits
      in the buffer, and the turn has a queue. */
  lemma {:induction false} RepliesAreReplayed(ops: seq<Op>)
    ensures BuffersClear(Run(ops)) && TurnsOk(Run(ops))
  {
    RunKeepsInv(ops);
    if ops != [] {
      RunKeepsInv(ops[..|ops| - 1]);
      RepliesAreReplayed(ops[..|ops| - 1]);
      StepKeepsClear(Run(ops[..|ops| - 1]), ops[|ops| - 1], |ops| - 1);
    }
  }

  // Isolation.

  /** Position i of queue q was filled by the step from r. */
  predicate NewAt(r: Routing, q: nat, i: nat) { if q < |r.logs| then |r.logs[q]| <= i else true }

  /** What a step adds to a queue belongs to the turn of that queue, by the parents known then. */
  ghost predicate AddsOwn(r: Routing, r1: Routing) {
    forall q, i :: 0 <= q < |r1.logs| && q < |r1.owners| && 0 <= i < |r1.logs[q]| && NewAt(r, q, i) ==>
      Belongs(r1.parents, r1.owners[q], r1.logs[q][i])
  }

  /** The logs only grow. */
  ghost predicate Extends(r: Routing, r1: Routing) {
    && |r.logs| <= |r1.logs|
    && (forall q :: 0 <= q < |r.logs| ==> r.logs[q] <= r1.logs[q])
    && r.owners <= r1.owners
  }

  /** The guard under which an event reaches a turn it does not belong to: its message is still bound
      to the active turn although it is by now recorded as answering another. */
  ghost predicate LeaksTo(r: Routing, d: Decision) {
    && (d.ToMessage? || d.ToBoundMessage?)
    && ActiveQueue(r, d.session).Some?
    && !(d.ToMessage? && IsUserText(r, d.session, d.message, d.event))
    && Get(r.assistants, d.session) == Some(d.message) && d.message != r.active[d.session]
    && Get(r.parents, (d.session, d.message)) != Some(r.active[d.session])
  }

  ghost predicate Leaks(r: Routing, op: Op) { op.Handle? && LeaksTo(Learn(r, op.info), op.decision) }

  lemma BindAddsOwn(r: Routing, s: string, x: string, n: nat)
    requires Inv(r, n) && s in r.active && Get(r.parents, (s, x)) == Some(r.active[s])
    ensures AddsOwn(r, Bind(r, s, x)) && Extends(r, Bind(r, s, x))
  {
    var k := (s, Some(x));
    assert k in r.early.lists ==> EarlyListOk(k, r.early.lists[k], n);
  }

  lemma AddsOwnTrans(r: Routing, r1: Routing, r2: Routing)
    requires AddsOwn(r, r1) && AddsOwn(r1, r2) && Extends(r, r1) && Extends(r1, r2) && r1.parents == r2.parents
    requires |r1.logs| == |r1.owners|
    ensures AddsOwn(r, r2) && Extends(r, r2)
  {
    forall q, i | 0 <= q < |r2.logs| && q < |r2.owners| && 0 <= i < |r2.logs[q]| && NewAt(r, q, i)
      ensures Belongs(r2.parents, r2.owners[q], r2.logs[q][i])
    {
      if !NewAt(r1, q, i) {
        assert r2.logs[q][i] == r1.logs[q][i] && r2.owners[q] == r1.owners[q];
      }
    }
  }

  lemma {:induction false} FlushAddsOwn(r: Routing, s: string, m: string, keys: seq<EarlyKey>, n: nat)
    requires Inv(r, n) && Get(r.active, s) == Some(m)
    ensures AddsOwn(r, FlushEarly(r, s, m, keys)) && Extends(r, FlushEarly(r, s, m, keys))
    decreases |keys|
  {
    if keys != [] {
      var k := keys[0];
      if k.0 == s && k.1.Some? && Get(r.parents, (s, k.1.value)) == Some(m) {
        var r1 := Bind(r, s, k.1.value);
        BindAddsOwn(r, s, k.1.value, n);
        BindKeepsInv(r, s, k.1.value, n);
        FlushAddsOwn(r1, s, m, keys[1..], n);
        FlushFrame(r1, s, m, keys[1..]);
        AddsOwnTrans(r, r1, FlushEarly(r1, s, m, keys[1..]));
      } else {
        FlushAddsOwn(r, s, m, keys[1..], n);
      }
    }
  }

  lemma PlaceAddsOwn(r: Routing, found: bool, it: Item, buffered: bool)
    requires TurnsOk(r)
    ensures var r1 := Place(r, found, it, buffered);
            && Extends(r, r1)
            && (AddsOwn(r, r1) <==>
                 (found && ActiveQueue(r, it.session).Some? ==>
                    Belongs(r.parents, (it.session, r.active[it.session]), it)))
  {
    if found && ActiveQueue(r, it.session).Some? {
      var q := ActiveQueue(r, it.session).value;
      var r1 := Place(r, found, it, buffered);
      assert r1.owners[q] == (it.session, r.active[it.session]);
      assert r1.logs[q][|r.logs[q]|] == it && NewAt(r, q, |r.logs[q]|);
    }
  }

  lemma ResolveAddsOwn(r: Routing, s: string, x: string, n: nat)
    requires Inv(r, n)
    ensures var (r1, found) := Resolve(r, s, x);
            && AddsOwn(r, r1) && Extends(r, r1) && TurnsOk(r1) && r1.parents == r.parents && r1.active == r.active
            && r1.queues == r.queues
  {
    SameQueuesAddNothing(r, r);
    ResolveIs(r, s, x);
    BindFrame(r, s, x);
    BindKeepsTurns(r, s, x);
    if s in r.active && Get(r.parents, (s, x)) == Some(r.active[s]) {
      BindAddsOwn(r, s, x, n);
    }
  }

  lemma BindFrame(r: Routing, s: string, x: string)
    ensures var r1 := Bind(r, s, x);
            r1.parents == r.parents && r1.active == r.active && r1.queues == r.queues && r1.owners == r.owners
  {
  }

  lemma SendAddsOwn(r: Routing, s: string, x: string, event: AgentEvent, buffered: bool, n: nat)
    requires Inv(r, n)
    ensures var (r1, found) := Resolve(r, s, x);
            var r2 := Place(r1, found, Item(n, s, OfMessage(x), event), buffered);
            && Extends(r, r2)
            && (AddsOwn(r, r2) <==>
                 !(ActiveQueue(r, s).Some? && Get(r.assistants, s) == Some(x) && x != r.active[s] &&
                   Get(r.parents, (s, x)) != Some(r.active[s])))
  {
    var (r1, found) := Resolve(r, s, x);
    var it := Item(n, s, OfMessage(x), event);
    ResolveAddsOwn(r, s, x, n);
    PlaceAddsOwn(r1, found, it, buffered);
    if found && Get(r.assistants, s) == Some(x) {
      assert r1 == r;
    } else {
      AddsOwnTrans(r, r1, Place(r1, found, it, buffered));
    }
  }

  lemma DeliverAddsOwn(r: Routing, d: Decision, n: nat)
    requires Inv(r, n) && n == |r.emitted|
    ensures Extends(r, Deliver(r, d))
    ensures AddsOwn(r, Deliver(r, d)) <==> !LeaksTo(r, d)
  {
    match d
    case Drop =>
    case ToMessage(s, x, event) => SendAddsOwn(r, s, x, event, true, n);
    case ToBoundMessage(s, x, event) => SendAddsOwn(r, s, x, event, false, n);
    case ToSession(s, event) => PlaceAddsOwn(r, ActiveQueue(r, s).Some?, Item(n, s, OfSession, event), true);
    case ToActiveTurn(s, x, event) =>
      PlaceAddsOwn(r, Get(r.active, s) == Some(x), Item(n, s, OfMessage(x), event), false);
  }

  lemma LearnAddsOwn(r: Routing, info: Option<Info>, n: nat)
    requires Inv(r, n)
    ensures AddsOwn(r, Learn(r, info)) && Extends(r, Learn(r, info))
  {
    var r0 := Remember(r, info);
    RememberFrame(r, info);
    SameQueuesAddNothing(r, r0);
    if ParentIn(info).Some? {
      var ((s, x), p) := ParentIn(info).value;
      if Get(r.active, s) == Some(p) {
        BindAddsOwn(r0, s, x, n);
        AddedToSameQueues(r, r0, Bind(r0, s, x));
      }
    }
  }

  lemma RememberFrame(r: Routing, info: Option<Info>)
    ensures Remember(r, info) == r.(roles := Remember(r, info).roles, parents := Remember(r, info).parents)
  {
  }

  lemma SameQueuesAddNothing(r: Routing, r1: Routing)
    requires r1.logs == r.logs && r1.owners == r.owners
    ensures AddsOwn(r, r1) && Extends(r, r1)
  {
  }

  /** What is added to the same queues. */
  lemma AddedToSameQueues(r: Routing, r0: Routing, r1: Routing)
    requires r0.logs == r.logs && r0.owners == r.owners && AddsOwn(r0, r1) && Extends(r0, r1)
    ensures AddsOwn(r, r1) && Extends(r, r1)
  {
  }

  lemma ForeignStays(r: Routing, r1: Routing, r2: Routing)
    requires Extends(r, r1) && !AddsOwn(r1, r2)
    ensures !AddsOwn(r, r2)
  {
    var q, i :| 0 <= q < |r2.logs| && q < |r2.owners| && 0 <= i < |r2.logs[q]| && NewAt(r1, q, i) &&
      !Belongs(r2.parents, r2.owners[q], r2.logs[q][i]);
    assert NewAt(r, q, i);
  }

  lemma Combine(r: Routing, r1: Routing, r2: Routing, leak: bool)
    requires AddsOwn(r, r1) && Extends(r, r1) && Extends(r1, r2) && r1.parents == r2.parents && |r1.logs| == |r1.owners|
    requires AddsOwn(r1, r2) <==> !leak
    ensures (AddsOwn(r, r2) <==> !leak) && Extends(r, r2)
  {
    if leak {
      ForeignStays(r, r1, r2);
    } else {
      AddsOwnTrans(r, r1, r2);
    }
  }

  lemma HandleAddsOwn(r: Routing, info: Option<Info>, d: Decision, n: nat)
    requires Inv(r, n) && n == |r.emitted|
    ensures AddsOwn(r, HandleStep(r, info, d)) <==> !LeaksTo(Learn(r, info), d)
    ensures Extends(r, HandleStep(r, info, d))
  {
    var r1 := Learn(r, info);
    LearnKeepsInv(r, info, n);
    LearnAddsOwn(r, info, n);
    LearnFrame(r, info);
    DeliverAddsOwn(r1, d, n);
    DeliverFrame(r1, d);
    Combine(r, r1, Deliver(r1, d), LeaksTo(r1, d));
    AddsOwnRecord(r, Deliver(r1, d), HandleStep(r, info, d));
  }

  lemma AddsOwnRecord(r: Routing, r1: Routing, r2: Routing)
    requires r2.parents == r1.parents && r2.owners == r1.owners && r2.logs == r1.logs
    ensures AddsOwn(r, r2) <==> AddsOwn(r, r1)
    ensures Extends(r, r2) <==> Extends(r, r1)
  {
  }

  lemma ResolveFrame(r: Routing, s: string, x: string)
    ensures var r1 := Resolve(r, s, x).0; r1.parents == r.parents && r1.owners == r.owners && r1.active == r.active
  {
  }

  lemma PlaceFrame(r: Routing, found: bool, it: Item, buffered: bool)
    ensures var r1 := Place(r, found, it, buffered);
            r1.parents == r.parents && r1.owners == r.owners && r1.active == r.active
  {
  }

  lemma SendFrame(r: Routing, s: string, x: string, it: Item, buffered: bool)
    ensures var r1 := Place(Resolve(r, s, x).0, Resolve(r, s, x).1, it, buffered);
            r1.parents == r.parents && r1.owners == r.owners && r1.active == r.active
  {
    ResolveFrame(r, s, x);
    PlaceFrame(Resolve(r, s, x).0, Resolve(r, s, x).1, it, buffered);
  }

  lemma DeliverFrame(r: Routing, d: Decision)
    ensures var r1 := Deliver(r, d); r1.parents == r.parents && r1.owners == r.owners && r1.active == r.active
  {
    if d.ToMessage? || d.ToBoundMessage? {
      SendFrame(r, d.session, d.message, Item(|r.emitted|, d.session, OfMessage(d.message), d.event), d.ToMessage?);
    }
  }

  lemma RegisterAddsOwn(r: Routing, s: string, m: string, n: nat)
    requires Inv(r, n)
    ensures AddsOwn(r, RegisterStep(r, s, m)) && Extends(r, RegisterStep(r, s, m))
  {
    var r0 := NewQueue(r, s, m);
    FlushAddsOwn(r0, s, m, r.early.keys, n);
    FlushFrame(r0, s, m, r.early.keys);
    AddsOwnTrans(r, r0, FlushEarly(r0, s, m, r.early.keys));
  }

  /** A call gives a queue something that is not its turn's if and only if it meets the leak's guard. */
  lemma StepAddsOwn(r: Routing, op: Op, n: nat)
    requires Inv(r, n) && n == |r.emitted|
    ensures AddsOwn(r, Step(r, op)) <==> !Leaks(r, op)
    ensures Extends(r, Step(r, op))
  {
    match op
    case Register(s, m) => RegisterAddsOwn(r, s, m, n);
    case Unregister(s, m) =>
    case Interrupt(reason) =>
    case Handle(info, d) => HandleAddsOwn(r, info, d, n);
  }

  // Whole runs with stable parents.

  lemma LearnStaysBound(r: Routing, info: Option<Info>, d: Decision)
    requires TurnsOk(r) && BindingsOk(r) && KeepsParents(r, Handle(info, d))
    ensures BindingsOk(Learn(r, info))
    ensures forall k <- r.parents :: k in Learn(r, info).parents && Learn(r, info).parents[k] == r.parents[k]
    ensures Learn(r, info).active == r.active
  {
    RememberFrame(r, info);
    RememberStaysBound(r, info, d);
    if ParentIn(info).Some? {
      var ((s, x), p) := ParentIn(info).value;
      if Get(r.active, s) == Some(p) {
        BindStaysBound(Remember(r, info), s, x);
      }
    }
  }

  lemma BindStaysBound(r: Routing, s: string, x: string)
    requires BindingsOk(r) && s in r.active && Get(r.parents, (s, x)) == Some(r.active[s])
    ensures BindingsOk(Bind(r, s, x)) && Bind(r, s, x).parents == r.parents && Bind(r, s, x).active == r.active
  {
  }

  lemma RememberStaysBound(r: Routing, info: Option<Info>, d: Decision)
    requires BindingsOk(r) && KeepsParents(r, Handle(info, d))
    ensures BindingsOk(Remember(r, info))
    ensures forall k <- r.parents :: k in Remember(r, info).parents && Remember(r, info).parents[k] == r.parents[k]
  {
  }

  lemma DeliverStaysBound(r: Routing, d: Decision)
    requires TurnsOk(r) && BindingsOk(r)
    ensures BindingsOk(Deliver(r, d))
  {
    if d.ToMessage? || d.ToBoundMessage? {
      var (r1, found) := Resolve(r, d.session, d.message);
      assert BindingsOk(r1);
      PlaceStaysBound(r1, found, Item(|r.emitted|, d.session, OfMessage(d.message), d.event), d.ToMessage?);
    }
  }

  lemma PlaceStaysBound(r: Routing, found: bool, it: Item, buffered: bool)
    requires BindingsOk(r)
    ensures BindingsOk(Place(r, found, it, buffered))
  {
  }

  lemma {:induction false} FlushStaysBound(r: Routing, s: string, m: string, keys: seq<EarlyKey>)
    requires BindingsOk(r) && Get(r.active, s) == Some(m)
    ensures BindingsOk(FlushEarly(r, s, m, keys))
    decreases |keys|
  {
    if keys != [] {
      var k := keys[0];
      FlushStaysBound(
        if k.0 == s && k.1.Some? && Get(r.parents, (s, k.1.value)) == Some(m) then Bind(r, s, k.1.value)
          else r, s, m, keys[1..]);
    }
  }

  ghost predicate ParentsGrow(p: Parents, p1: Parents) {
    forall k <- p :: k in p1 && p1[k] == p[k]
  }

  lemma StepStaysBound(r: Routing, op: Op, n: nat)
    requires Inv(r, n) && BindingsOk(r) && KeepsParents(r, op)
    ensures BindingsOk(Step(r, op)) && ParentsGrow(r.parents, Step(r, op).parents) && !Leaks(r, op)
  {
    match op
    case Register(s, m) =>
      FlushStaysBound(NewQueue(r, s, m), s, m, r.early.keys);
      FlushFrame(NewQueue(r, s, m), s, m, r.early.keys);
    case Unregister(s, m) =>
    case Interrupt(reason) =>
    case Handle(info, d) =>
      LearnKeepsInv(r, info, n);
      LearnStaysBound(r, info, d);
      DeliverStaysBound(Learn(r, info), d);
      DeliverFrame(Learn(r, info), d);
  }

  lemma GrowthKeepsIsolated(r: Routing, r1: Routing)
    requires Isolated(r.parents, r.owners, r.logs) && |r.logs| == |r.owners|
    requires Extends(r, r1) && AddsOwn(r, r1) && ParentsGrow(r.parents, r1.parents)
    ensures Isolated(r1.parents, r1.owners, r1.logs)
  {
    forall q, i | 0 <= q < |r1.logs| && q < |r1.owners| && 0 <= i < |r1.logs[q]|
      ensures Belongs(r1.parents, r1.owners[q], r1.logs[q][i])
    {
      if !NewAt(r, q, i) {
        assert r1.logs[q][i] == r.logs[q][i] && Belongs(r.parents, r.owners[q], r.logs[q][i]);
      }
    }
  }

  /** If no message changes its recorded parent, every queue holds only items of its own turn. */
  lemma {:induction false} TurnsAreIsolated(ops: seq<Op>)
    requires StableParents(ops)
    ensures var r := Run(ops); Isolated(r.parents, r.owners, r.logs) && BindingsOk(r)
  {
    if ops != [] {
      var front := ops[..|ops| - 1];
      var r := Run(front);
      TurnsAreIsolated(front);
      RunKeepsInv(front);
      StepStaysBound(r, ops[|ops| - 1], |front|);
      StepAddsOwn(r, ops[|ops| - 1], |front|);
      GrowthKeepsIsolated(r, Run(ops));
    }
  }

  /** Without that, a message that was bound and then given another parent still reaches the old turn. */
  lemma ReparentedLeaks(s: string, t: string, u: string, x: string, event: AgentEvent)
    requires t != u && x != t
    ensures var r :=
            Run([Register(s, t), Handle(Answers(s, x, t), Drop), Handle(Answers(s, x, u), ToMessage(s, x, event))]);
            !Isolated(r.parents, r.owners, r.logs)
  {
    var a, b, c := Register(s, t), Handle(Answers(s, x, t), Drop), Handle(Answers(s, x, u), ToMessage(s, x, event));
    RunOfThree(a, b, c);
    var r1 := Record(NoRouting, NewQueue(NoRouting, s, t), None);
    assert FlushEarly(NewQueue(NoRouting, s, t), s, t, []) == NewQueue(NoRouting, s, t);
    assert Step(NoRouting, a) == r1;
    var r2 := Step(r1, b);
    BoundAfterAnswer(r1, s, t, x);
    LeakAfterBound(r2, s, t, u, x, event);
    RunKeepsInv([a, b]);
    ForeignBreaksIsolation(r2, c, 2);
  }

  lemma ForeignBreaksIsolation(r: Routing, op: Op, n: nat)
    requires Inv(r, n) && n == |r.emitted| && Leaks(r, op)
    ensures !Isolated(Step(r, op).parents, Step(r, op).owners, Step(r, op).logs)
  {
    StepAddsOwn(r, op, n);
  }

  lemma LeakAfterBound(r: Routing, s: string, t: string, u: string, x: string, event: AgentEvent)
    requires Get(r.active, s) == Some(t) && ActiveQueue(r, s).Some? && Get(r.assistants, s) == Some(x) && t != u
    requires x != t
    ensures Leaks(r, Handle(Answers(s, x, u), ToMessage(s, x, event)))
  {
  }

  lemma BoundAfterAnswer(r: Routing, s: string, t: string, x: string)
    requires Get(r.active, s) == Some(t) && ActiveQueue(r, s).Some?
    ensures var r1 := HandleStep(r, Answers(s, x, t), Drop);
            && r1.active == r.active && r1.queues == r.queues && Get(r1.assistants, s) == Some(x)
            && r1.roles == r.roles[(s, x) := "assistant"]
  {
  }

  // Session-level events.

  ghost predicate OfActive(it: Item, owner: Turn, active: map<string, string>, n: nat) {
    it.origin.OfSession? ==> it.at == n && Get(active, owner.0) == Some(owner.1)
  }

  /** Where the step from r put an item of the session itself: on the queue of the active turn. */
  ghost predicate AddsToActive(r: Routing, r1: Routing, active: map<string, string>, n: nat) {
    forall q, i :: 0 <= q < |r1.logs| && q < |r1.owners| && 0 <= i < |r1.logs[q]| && NewAt(r, q, i) ==>
      OfActive(r1.logs[q][i], r1.owners[q], active, n)
  }

  lemma BindAddsNoSession(r: Routing, s: string, x: string, active: map<string, string>, n: nat)
    requires Inv(r, n)
    ensures AddsToActive(r, Bind(r, s, x), active, n) && Extends(r, Bind(r, s, x))
  {
    assert (s, Some(x)) in r.early.lists ==> EarlyListOk((s, Some(x)), r.early.lists[(s, Some(x))], n);
  }

  lemma AddsToActiveTrans(r: Routing, r1: Routing, r2: Routing, active: map<string, string>, n: nat)
    requires AddsToActive(r, r1, active, n) && AddsToActive(r1, r2, active, n) && Extends(r, r1) && Extends(r1, r2)
    requires |r1.logs| == |r1.owners|
    ensures AddsToActive(r, r2, active, n) && Extends(r, r2)
  {
    forall q, i | 0 <= q < |r2.logs| && q < |r2.owners| && 0 <= i < |r2.logs[q]| && NewAt(r, q, i) &&
      r2.logs[q][i].origin.OfSession?
      ensures r2.logs[q][i].at == n && Get(active, r2.owners[q].0) == Some(r2.owners[q].1)
    {
      if !NewAt(r1, q, i) {
        assert r2.logs[q][i] == r1.logs[q][i] && r2.owners[q] == r1.owners[q];
      }
    }
  }

  lemma {:induction false} FlushAddsNoSession(
      r: Routing, s: string, m: string, keys: seq<EarlyKey>, active: map<string, string>, n: nat)
    requires Inv(r, n)
    ensures AddsToActive(r, FlushEarly(r, s, m, keys), active, n) && Extends(r, FlushEarly(r, s, m, keys))
    decreases |keys|
  {
    if keys != [] {
      var k := keys[0];
      if k.0 == s && k.1.Some? && Get(r.parents, (s, k.1.value)) == Some(m) {
        var r1 := Bind(r, s, k.1.value);
        BindAddsNoSession(r, s, k.1.value, active, n);
        BindKeepsInv(r, s, k.1.value, n);
        FlushAddsNoSession(r1, s, m, keys[1..], active, n);
        AddsToActiveTrans(r, r1, FlushEarly(r1, s, m, keys[1..]), active, n);
      } else {
        FlushAddsNoSession(r, s, m, keys[1..], active, n);
      }
    }
  }

  lemma PlaceAddsToActive(r: Routing, found: bool, it: Item, buffered: bool, n: nat)
    requires TurnsOk(r) && it.at == n
    ensures AddsToActive(r, Place(r, found, it, buffered), r.active, n) && Extends(r, Place(r, found, it, buffered))
  {
    if found && ActiveQueue(r, it.session).Some? {
      assert r.owners[ActiveQueue(r, it.session).value] == (it.session, r.active[it.session]);
    }
  }

  /** Looking up the queue of a message may bind it. */
  lemma ResolveAddsNoSession(r: Routing, s: string, x: string, n: nat)
    requires Inv(r, n)
    ensures var r1 := Resolve(r, s, x).0;
            && AddsToActive(r, r1, r.active, n) && Extends(r, r1) && TurnsOk(r1) && r1.active == r.active
            && |r1.logs| == |r1.owners|
  {
    var r1 := Resolve(r, s, x).0;
    if r1 == r {
      assert AddsToActive(r, r, r.active, n) && Extends(r, r);
    } else {
      assert r1 == Bind(r, s, x);
      BindAddsNoSession(r, s, x, r.active, n);
      BindKeepsInv(r, s, x, n);
    }
  }

  lemma SendAddsToActive(r: Routing, s: string, x: string, it: Item, buffered: bool, n: nat)
    requires Inv(r, n) && it.at == n
    ensures var r2 := Place(Resolve(r, s, x).0, Resolve(r, s, x).1, it, buffered);
            AddsToActive(r, r2, r.active, n) && Extends(r, r2)
  {
    var (r1, found) := Resolve(r, s, x);
    ResolveAddsNoSession(r, s, x, n);
    PlaceAddsToActive(r1, found, it, buffered, n);
    AddsToActiveTrans(r, r1, Place(r1, found, it, buffered), r.active, n);
  }

  lemma LearnAddsToActive(r: Routing, info: Option<Info>, active: map<string, string>, n: nat)
    requires Inv(r, n)
    ensures AddsToActive(r, Learn(r, info), active, n) && Extends(r, Learn(r, info))
  {
    var r0 := Remember(r, info);
    RememberFrame(r, info);
    NothingAddedToActive(r, r0, active, n);
    if ParentIn(info).Some? {
      var ((s, x), p) := ParentIn(info).value;
      BindAddsNoSession(r0, s, x, active, n);
      AddsToActiveTrans(r, r0, Bind(r0, s, x), active, n);
    }
  }

  lemma NothingAddedToActive(r: Routing, r1: Routing, active: map<string, string>, n: nat)
    requires r1.logs == r.logs && r1.owners == r.owners
    ensures AddsToActive(r, r1, active, n) && Extends(r, r1)
  {
  }

  lemma DeliverAddsToActive(r: Routing, d: Decision, n: nat)
    requires Inv(r, n) && n == |r.emitted|
    ensures AddsToActive(r, Deliver(r, d), r.active, n) && Extends(r, Deliver(r, d))
  {
    match d
    case Drop =>
    case ToMessage(s, x, event) => SendAddsToActive(r, s, x, Item(n, s, OfMessage(x), event), true, n);
    case ToBoundMessage(s, x, event) => SendAddsToActive(r, s, x, Item(n, s, OfMessage(x), event), false, n);
    case ToSession(s, event) => PlaceAddsToActive(r, ActiveQueue(r, s).Some?, Item(n, s, OfSession, event), true, n);
    case ToActiveTurn(s, x, event) =>
      PlaceAddsToActive(r, Get(r.active, s) == Some(x), Item(n, s, OfMessage(x), event), false, n);
  }

  lemma HandleAddsToActive(r: Routing, info: Option<Info>, d: Decision, n: nat)
    requires Inv(r, n) && n == |r.emitted|
    ensures AddsToActive(r, HandleStep(r, info, d), r.active, n)
  {
    var r1 := Learn(r, info);
    LearnKeepsInv(r, info, n);
    LearnFrame(r, info);
    LearnAddsToActive(r, info, r.active, n);
    DeliverAddsToActive(r1, d, n);
    AddsToActiveTrans(r, r1, Deliver(r1, d), r.active, n);
  }

  lemma RegisterAddsToActive(r: Routing, s: string, m: string, n: nat)
    requires Inv(r, n) && n == |r.emitted|
    ensures AddsToActive(r, RegisterStep(r, s, m), r.active, n)
  {
    var r0 := NewQueue(r, s, m);
    FlushAddsNoSession(r0, s, m, r.early.keys, r.active, n);
    AddsToActiveTrans(r, r0, FlushEarly(r0, s, m, r.early.keys), r.active, n);
  }

  lemma StepAddsToActive(r: Routing, op: Op, n: nat)
    requires Inv(r, n) && n == |r.emitted|
    ensures AddsToActive(r, Step(r, op), r.active, n)
  {
    match op
    case Register(s, m) => RegisterAddsToActive(r, s, m, n);
    case Unregister(s, m) =>
    case Interrupt(reason) =>
    case Handle(info, d) => HandleAddsToActive(r, info, d, n);
  }

  /** A session-level item arrived while the turn of its queue was the active one. */
  ghost predicate ArrivedActive(ops: seq<Op>, turn: Turn, it: Item) {
    it.origin.OfSession? ==> it.at < |ops| && Get(Run(ops[..it.at]).active, turn.0) == Some(turn.1)
  }

  ghost predicate SessionItemsOk(ops: seq<Op>, r: Routing) {
    forall q, i :: 0 <= q < |r.logs| && q < |r.owners| && 0 <= i < |r.logs[q]| ==>
        ArrivedActive(ops, r.owners[q], r.logs[q][i])
  }

  lemma StepSessionItems(ops: seq<Op>, r: Routing, r1: Routing)
    requires ops != [] && Extends(r, r1) && |r.logs| == |r.owners|
    requires var front := ops[..|ops| - 1];
             r == Run(front) && SessionItemsOk(front, r) && AddsToActive(r, r1, r.active, |front|)
    ensures SessionItemsOk(ops, r1)
  {
    var front := ops[..|ops| - 1];
    forall q, i | 0 <= q < |r1.logs| && q < |r1.owners| && 0 <= i < |r1.logs[q]|
      ensures ArrivedActive(ops, r1.owners[q], r1.logs[q][i])
    {
      if !NewAt(r, q, i) {
        var it := r.logs[q][i];
        assert r1.logs[q][i] == it && ArrivedActive(front, r.owners[q], it);
        if it.origin.OfSession? {
          assert front[..it.at] == ops[..it.at];
        }
      }
    }
  }

  /** Session-level events, too, are isolated: by the turn that was active when they arrived. */
  lemma {:induction false} SessionEventsGoToTheActiveTurn(ops: seq<Op>)
    ensures SessionItemsOk(ops, Run(ops))
  {
    if ops != [] {
      var front := ops[..|ops| - 1];
      SessionEventsGoToTheActiveTurn(front);
      RunKeepsInv(front);
      StepAddsToActive(Run(front), ops[|ops| - 1], |front|);
      StepAddsOwn(Run(front), ops[|ops| - 1], |front|);
      StepSessionItems(ops, Run(front), Run(ops));
    }
  }
}
