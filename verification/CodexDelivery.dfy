/** Delivery by the Codex event router, over every sequence of calls. */
module CodexDelivery {
  import opened Wrappers
  import opened AgentEvents
  import opened CodexRouter

  type Logs = seq<seq<Item>>

  type Buffers = map<string, seq<Item>>

  function KeyOf(it: Item): Option<string> { EarlyKey(it.turn, it.thread) }

  /** In the order of arrival. */
  ghost predicate Increasing(s: seq<Item>) { forall i, j :: 0 <= i < j < |s| ==> s[i].at < s[j].at }

  /** Every item is what arrived under its number, and those of one key are in order. */
  ghost predicate LogOk(log: seq<Item>, arrivals: seq<Item>) {
    && (forall it <- log :: it.at < |arrivals| && arrivals[it.at] == it)
    && (forall i, j :: 0 <= i < j < |log| && KeyOf(log[i]) == KeyOf(log[j]) ==> log[i].at < log[j].at)
  }

  ghost predicate BufferOk(k: string, s: seq<Item>, arrivals: seq<Item>) {
    (forall it <- s :: KeyOf(it) == Some(k) && it.at < |arrivals| && arrivals[it.at] == it) && Increasing(s)
  }

  ghost predicate Apart(s: seq<Item>, t: seq<Item>) { forall x <- s, y <- t :: x != y }

  ghost predicate Separate(logs: Logs, early: Buffers) {
    && (forall p, q :: 0 <= p < q < |logs| ==> Apart(logs[p], logs[q]))
    && (forall q, k :: 0 <= q < |logs| && k in early ==> Apart(logs[q], early[k]))
  }

  ghost predicate InLogs(logs: Logs, it: Item) { exists q :: 0 <= q < |logs| && it in logs[q] }

  ghost predicate Placed(logs: Logs, early: Buffers, it: Item) {
    InLogs(logs, it) || (KeyOf(it).Some? && it in Early(early, KeyOf(it).value))
  }

  /** Every arrival is in exactly one place, once: on one queue, or in the buffer of its key; and the
      arrivals of one key keep their order there. */
  ghost predicate Delivered(logs: Logs, early: Buffers, arrivals: seq<Item>) {
    && (forall q :: 0 <= q < |logs| ==> LogOk(logs[q], arrivals))
    && (forall k <- early :: BufferOk(k, early[k], arrivals))
    && Separate(logs, early)
    && (forall n :: 0 <= n < |arrivals| ==> arrivals[n].at == n && Placed(logs, early, arrivals[n]))
  }

  /** No item is twice in a list. */
  lemma NoRepeats(log: seq<Item>, arrivals: seq<Item>, i: nat, j: nat)
    requires LogOk(log, arrivals) && i < |log| && j < |log| && log[i].at == log[j].at
    ensures i == j
  {
    assert log[i] in log && log[j] in log;
  }

  lemma MergedLogOk(a: seq<Item>, b: seq<Item>, k: string, l: string, arrivals: seq<Item>)
    requires BufferOk(k, a, arrivals) && BufferOk(l, b, arrivals) && (k == l ==> b == [])
    ensures LogOk(a + b, arrivals)
  {
    assert forall x <- a, y <- b :: KeyOf(x) != KeyOf(y);
  }

  /** Registration moves two buffers to a new queue. */
  lemma RegisterDelivers(logs: Logs, early: Buffers, arrivals: seq<Item>, turn: string, thread: string)
    requires Delivered(logs, early, arrivals)
    ensures Delivered(logs + [Early(early, turn) + Early(early - {turn}, thread)], early - {turn} - {thread}, arrivals)
  {
    var a, b := Early(early, turn), Early(early - {turn}, thread);
    var logs1, early1 := logs + [a + b], early - {turn} - {thread};
    MergedLogOk(a, b, turn, thread, arrivals);
    forall q | 0 <= q < |logs1| ensures LogOk(logs1[q], arrivals) {
    }
    RegisterSeparates(logs, early, arrivals, turn, thread);
    forall n | 0 <= n < |arrivals| ensures arrivals[n].at == n && Placed(logs1, early1, arrivals[n]) {
      RegisterKeeps(logs, early, turn, thread, arrivals[n]);
    }
  }

  lemma RegisterKeeps(logs: Logs, early: Buffers, turn: string, thread: string, it: Item)
    requires Placed(logs, early, it)
    ensures Placed(logs + [Early(early, turn) + Early(early - {turn}, thread)], early - {turn} - {thread}, it)
  {
    var log := Early(early, turn) + Early(early - {turn}, thread);
    var logs1 := logs + [log];
    if InLogs(logs, it) {
      var q :| 0 <= q < |logs| && it in logs[q];
      assert it in logs1[q];
    } else if KeyOf(it).value == turn || KeyOf(it).value == thread {
      assert it in log && logs1[|logs|] == log;
    }
  }

  lemma RegisterSeparates(logs: Logs, early: Buffers, arrivals: seq<Item>, turn: string, thread: string)
    requires Separate(logs, early) && forall k <- early :: BufferOk(k, early[k], arrivals)
    ensures Separate(logs + [Early(early, turn) + Early(early - {turn}, thread)], early - {turn} - {thread})
  {
    var a, b := Early(early, turn), Early(early - {turn}, thread);
    var logs1, early1 := logs + [a + b], early - {turn} - {thread};
    forall p, q | 0 <= p < q < |logs1| ensures Apart(logs1[p], logs1[q]) {
      if q == |logs| {
        assert turn in early ==> Apart(logs[p], early[turn]);
        assert thread in early ==> Apart(logs[p], early[thread]);
      }
    }
    forall q, k | 0 <= q < |logs1| && k in early1 ensures Apart(logs1[q], early1[k]) {
      if q == |logs| {
        assert BufferOk(k, early[k], arrivals);
        assert forall x <- a :: KeyOf(x) == Some(turn);
        assert forall x <- b :: KeyOf(x) == Some(thread);
      } else {
        assert Apart(logs[q], early[k]);
      }
    }
  }

  lemma LogOkLater(log: seq<Item>, arrivals: seq<Item>, it: Item)
    requires LogOk(log, arrivals) && it.at == |arrivals|
    ensures LogOk(log, arrivals + [it]) && LogOk(log + [it], arrivals + [it])
  {
    forall i, j | 0 <= i < j < |log + [it]| && KeyOf((log + [it])[i]) == KeyOf((log + [it])[j])
      ensures (log + [it])[i].at < (log + [it])[j].at
    {
      assert log[i] in log;
    }
  }

  lemma BufferOkLater(k: string, s: seq<Item>, arrivals: seq<Item>, it: Item)
    requires BufferOk(k, s, arrivals) && it.at == |arrivals|
    ensures BufferOk(k, s, arrivals + [it]) && (KeyOf(it) == Some(k) ==> BufferOk(k, s + [it], arrivals + [it]))
  {
    forall i, j | 0 <= i < j < |s + [it]| ensures (s + [it])[i].at < (s + [it])[j].at {
      assert s[i] in s;
    }
  }

  /** A new arrival that is put on a queue. */
  lemma PutDelivers(logs: Logs, early: Buffers, arrivals: seq<Item>, q: nat, it: Item)
    requires Delivered(logs, early, arrivals) && q < |logs| && it.at == |arrivals|
    ensures Delivered(logs[q := logs[q] + [it]], early, arrivals + [it])
  {
    var logs1, arrivals1 := logs[q := logs[q] + [it]], arrivals + [it];
    forall p | 0 <= p < |logs| ensures LogOk(logs1[p], arrivals1) && it !in logs[p] {
      LogOkLater(logs[p], arrivals, it);
    }
    forall k | k in early ensures BufferOk(k, early[k], arrivals1) && it !in early[k] {
      BufferOkLater(k, early[k], arrivals, it);
    }
    PutSeparates(logs, early, q, it);
    forall n | 0 <= n < |arrivals1| ensures arrivals1[n].at == n && Placed(logs1, early, arrivals1[n]) {
      PutKeeps(logs, early, q, it, arrivals1[n]);
    }
  }

  lemma PutKeeps(logs: Logs, early: Buffers, q: nat, it: Item, x: Item)
    requires q < |logs| && (Placed(logs, early, x) || x == it)
    ensures Placed(logs[q := logs[q] + [it]], early, x)
  {
    var logs1 := logs[q := logs[q] + [it]];
    if x == it {
      assert it in logs1[q];
    } else if InLogs(logs, x) {
      var p :| 0 <= p < |logs| && x in logs[p];
      assert x in logs1[p];
    }
  }

  lemma PutSeparates(logs: Logs, early: Buffers, q: nat, it: Item)
    requires Separate(logs, early) && q < |logs|
    requires (forall p :: 0 <= p < |logs| ==> it !in logs[p]) && (forall k <- early :: it !in early[k])
    ensures Separate(logs[q := logs[q] + [it]], early)
  {
    var logs1 := logs[q := logs[q] + [it]];
    forall p, p' | 0 <= p < p' < |logs1| ensures Apart(logs1[p], logs1[p']) {
      assert Apart(logs[p], logs[p']);
    }
    forall p, k | 0 <= p < |logs1| && k in early ensures Apart(logs1[p], early[k]) {
      assert Apart(logs[p], early[k]);
    }
  }

  /** A new arrival that is buffered. */
  lemma PushDelivers(logs: Logs, early: Buffers, arrivals: seq<Item>, it: Item)
    requires Delivered(logs, early, arrivals) && it.at == |arrivals| && KeyOf(it).Some?
    ensures Delivered(logs, early[KeyOf(it).value := Early(early, KeyOf(it).value) + [it]], arrivals + [it])
  {
    var key := KeyOf(it).value;
    var early1, arrivals1 := early[key := Early(early, key) + [it]], arrivals + [it];
    forall p | 0 <= p < |logs| ensures LogOk(logs[p], arrivals1) && it !in logs[p] {
      LogOkLater(logs[p], arrivals, it);
    }
    forall k | k in early1 ensures BufferOk(k, early1[k], arrivals1) {
      assert k !in early ==> BufferOk(k, [], arrivals);
      BufferOkLater(k, Early(early, k), arrivals, it);
    }
    forall q, k | 0 <= q < |logs| && k in early1 ensures Apart(logs[q], early1[k]) {
      assert k in early ==> Apart(logs[q], early[k]);
    }
    forall n | 0 <= n < |arrivals1| ensures arrivals1[n].at == n && Placed(logs, early1, arrivals1[n]) {
      assert n < |arrivals| ==> Placed(logs, early, arrivals[n]);
    }
  }

  ghost predicate Inv(r: Router) { Delivered(r.logs, r.early, r.arrivals) && |r.owners| == |r.logs| }

  lemma RouteDelivers(r: Router, t: Translated)
    requires Inv(r)
    ensures Inv(Route(r, t))
  {
    var item := Item(|r.arrivals|, t.turn, t.thread, t.event);
    var route := RouteOf(r, t);
    if route.Some? && route.value in r.queues && r.queues[route.value] < |r.logs| {
      PutDelivers(r.logs, r.early, r.arrivals, r.queues[route.value], item);
    } else if EarlyKey(t.turn, t.thread).Some? {
      PushDelivers(r.logs, r.early, r.arrivals, item);
    }
  }

  /** No arrival is twice on a queue. */
  ghost predicate QueuedOnce(logs: Logs) {
    forall q, i, j :: 0 <= q < |logs| && 0 <= i < |logs[q]| && 0 <= j < |logs[q]| ==>
      (logs[q][i].at == logs[q][j].at ==> i == j)
  }

  lemma DeliveredOnce(logs: Logs, early: Buffers, arrivals: seq<Item>)
    requires Delivered(logs, early, arrivals)
    ensures QueuedOnce(logs)
  {
    forall q, i, j | 0 <= q < |logs| && 0 <= i < |logs[q]| && 0 <= j < |logs[q]| && logs[q][i].at == logs[q][j].at
      ensures i == j
    {
      NoRepeats(logs[q], arrivals, i, j);
    }
  }

  /** Exactly-once delivery over every run. */
  lemma EveryRunDelivers(steps: seq<RouterStep>)
    ensures Inv(RunRouter(steps)) && QueuedOnce(RunRouter(steps).logs)
  {
    RunKeepsDelivered(steps);
    DeliveredOnce(RunRouter(steps).logs, RunRouter(steps).early, RunRouter(steps).arrivals);
  }

  lemma {:induction false} RunKeepsDelivered(steps: seq<RouterStep>)
    ensures Inv(RunRouter(steps))
  {
    if steps != [] {
      var r, step := RunRouter(steps[..|steps| - 1]), steps[|steps| - 1];
      RunKeepsDelivered(steps[..|steps| - 1]);
      match step
      case Register(turn, thread) => RegisterDelivers(r.logs, r.early, r.arrivals, turn, thread);
      case Unregister(turn, thread) =>
      case Handle(event) =>
        if event.Some? {
          RouteDelivers(Recorded(r, event.value), event.value);
        }
      case Take(turn, id, name) =>
    }
  }

  // Isolation, where a turn is always registered and unregistered with its own thread.

  ghost predicate Steady(step: RouterStep, home: map<string, string>) {
    (step.Register? || step.Unregister?) ==> Get(home, step.turn) == Some(step.thread)
  }

  predicate NamesNoTurn(it: Item) { it.turn.None? || it.turn.value == "" }

  /** The item names the turn, or its thread and no turn. */
  predicate Names(it: Item, owner: (string, string)) {
    it.turn == Some(owner.0) || (NamesNoTurn(it) && it.thread == Some(owner.1))
  }

  ghost predicate AllName(log: seq<Item>, owner: (string, string)) { forall it <- log :: Names(it, owner) }

  ghost predicate Isolated(logs: Logs, owners: seq<(string, string)>) {
    |owners| == |logs| && forall q :: 0 <= q < |logs| ==> AllName(logs[q], owners[q])
  }

  /** A registration takes over what was buffered under an id that is both a turn's and a thread's. */
  ghost predicate Confuses(r: Router, step: RouterStep) {
    && step.Register? && step.turn != step.thread
    && ((exists it <- Early(r.early, step.turn) :: it.turn != Some(step.turn)) ||
        (exists it <- Early(r.early, step.thread) :: it.turn == Some(step.thread) && step.thread != ""))
  }

  /** The queues and threads of the turns are in order. */
  ghost predicate HomeOk(r: Router, home: map<string, string>) {
    && |r.owners| == |r.logs|
    && (forall q :: 0 <= q < |r.logs| ==> Get(home, r.owners[q].0) == Some(r.owners[q].1))
    && (forall t <- r.queues :: r.queues[t] < |r.logs| && r.owners[r.queues[t]].0 == t)
    && (forall x <- r.threadTurns :: Get(home, r.threadTurns[x]) == Some(x))
    && (forall k <- r.early :: forall it <- r.early[k] :: KeyOf(it) == Some(k))
  }

  lemma RouteKeepsIsolated(r: Router, t: Translated, home: map<string, string>)
    requires HomeOk(r, home)
    ensures HomeOk(Route(r, t), home)
    ensures Isolated(Route(r, t).logs, Route(r, t).owners) <==> Isolated(r.logs, r.owners)
  {
    var item, r1 := Item(|r.arrivals|, t.turn, t.thread, t.event), Route(r, t);
    var route := RouteOf(r, t);
    if route.Some? && route.value in r.queues && r.queues[route.value] < |r.logs| {
      var q := r.queues[route.value];
      assert Names(item, r.owners[q]);
      assert AllName(r1.logs[q], r.owners[q]) <==> AllName(r.logs[q], r.owners[q]) by {
        assert forall it <- r.logs[q] :: it in r1.logs[q];
      }
      assert forall p :: 0 <= p < |r.logs| && p != q ==> r1.logs[p] == r.logs[p];
      if Isolated(r1.logs, r1.owners) {
        forall p | 0 <= p < |r.logs| ensures AllName(r.logs[p], r.owners[p]) {
          assert AllName(r1.logs[p], r1.owners[p]);
        }
      }
    }
  }

  /** What registration puts on the new queue. */
  ghost function Replayed(r: Router, turn: string, thread: string): seq<Item> {
    Early(r.early, turn) + Early(r.early - {turn}, thread)
  }

  lemma ReplayedNameIff(r: Router, turn: string, thread: string, home: map<string, string>)
    requires HomeOk(r, home)
    ensures AllName(Replayed(r, turn, thread), (turn, thread)) <==> !Confuses(r, Register(turn, thread))
  {
    var a, b := Early(r.early, turn), Early(r.early - {turn}, thread);
    assert forall it <- a :: KeyOf(it) == Some(turn);
    assert forall it <- b :: KeyOf(it) == Some(thread);
    assert turn != thread ==> b == Early(r.early, thread);
    assert forall it <- a + b :: it in a || it in b;
    if Confuses(r, Register(turn, thread)) {
      if it :| it in a && it.turn != Some(turn) {
        assert it in a + b && !Names(it, (turn, thread));
      } else {
        var it :| it in Early(r.early, thread) && it.turn == Some(thread) && thread != "";
        assert it in a + b && !Names(it, (turn, thread));
      }
    }
  }

  lemma RegisterIsolatesIff(r: Router, turn: string, thread: string, home: map<string, string>)
    requires HomeOk(r, home) && Get(home, turn) == Some(thread) && Isolated(r.logs, r.owners)
    ensures var r1 := RegisterTurn(r, turn, thread);
            && HomeOk(r1, home)
            && (Isolated(r1.logs, r1.owners) <==> !Confuses(r, Register(turn, thread)))
  {
    ReplayedNameIff(r, turn, thread, home);
    var r1 := RegisterTurn(r, turn, thread);
    assert r1.logs[|r.logs|] == Replayed(r, turn, thread) && r1.owners[|r.logs|] == (turn, thread);
    forall q | 0 <= q < |r.logs| ensures AllName(r1.logs[q], r1.owners[q]) {
      assert AllName(r.logs[q], r.owners[q]);
    }
    if !Confuses(r, Register(turn, thread)) {
      forall q | 0 <= q < |r1.logs| ensures AllName(r1.logs[q], r1.owners[q]) {
      }
    }
  }

  lemma RegisterKeepsForeign(r: Router, turn: string, thread: string)
    requires |r.owners| == |r.logs| && !Isolated(r.logs, r.owners)
    ensures !Isolated(RegisterTurn(r, turn, thread).logs, RegisterTurn(r, turn, thread).owners)
  {
    var r1 := RegisterTurn(r, turn, thread);
    var q :| 0 <= q < |r.logs| && !AllName(r.logs[q], r.owners[q]);
    assert r1.logs[q] == r.logs[q] && r1.owners[q] == r.owners[q];
  }

  lemma StepIsolatesIff(r: Router, step: RouterStep, home: map<string, string>)
    requires HomeOk(r, home) && Steady(step, home)
    ensures var r1 := NextRouter(r, step);
            && HomeOk(r1, home)
            && (Isolated(r1.logs, r1.owners) <==> Isolated(r.logs, r.owners) && !Confuses(r, step))
  {
    match step
    case Register(turn, thread) =>
      if Isolated(r.logs, r.owners) {
        RegisterIsolatesIff(r, turn, thread, home);
      } else {
        RegisterKeepsForeign(r, turn, thread);
        RegisterKeepsHome(r, turn, thread, home);
      }
    case Unregister(turn, thread) =>
    case Handle(event) =>
      if event.Some? {
        RouteKeepsIsolated(Recorded(r, event.value), event.value, home);
      }
    case Take(turn, id, name) =>
  }

  lemma RegisterKeepsHome(r: Router, turn: string, thread: string, home: map<string, string>)
    requires HomeOk(r, home) && Get(home, turn) == Some(thread)
    ensures HomeOk(RegisterTurn(r, turn, thread), home)
  {
  }

  ghost predicate NeverConfuses(steps: seq<RouterStep>) {
    steps != [] ==>
        !Confuses(RunRouter(steps[..|steps| - 1]), steps[|steps| - 1]) && NeverConfuses(steps[..|steps| - 1])
  }

  /** Over every such run, each queue holds only events that name its turn, or its thread and no turn, if and
      only if no registration met events buffered under an id that is both a turn's and a thread's. */
  lemma {:induction false} IsolatedIff(steps: seq<RouterStep>, home: map<string, string>)
    requires forall step <- steps :: Steady(step, home)
    ensures var r := RunRouter(steps); HomeOk(r, home) && (Isolated(r.logs, r.owners) <==> NeverConfuses(steps))
  {
    if steps != [] {
      var front := steps[..|steps| - 1];
      assert steps[|steps| - 1] in steps && forall step <- front :: step in steps;
      IsolatedIff(front, home);
      StepIsolatesIff(RunRouter(front), steps[|steps| - 1], home);
    }
  }

  // Where turn ids and thread ids are different, that is so.

  /** The turn ids a step names are among `turns`, the thread ids are not. */
  ghost predicate IdsApart(step: RouterStep, turns: set<string>) {
    match step
    case Register(turn, thread) => turn in turns && thread !in turns
    case Handle(event) =>
      event.Some? ==>
        && (event.value.turn.Some? && event.value.turn.value != "" ==> event.value.turn.value in turns)
        && (event.value.thread.Some? ==> event.value.thread.value !in turns)
    case _ => true
  }

  ghost predicate ItemApart(it: Item, turns: set<string>) {
    && (it.turn.Some? && it.turn.value != "" ==> it.turn.value in turns)
    && (it.thread.Some? ==> it.thread.value !in turns)
  }

  ghost predicate BuffersApart(r: Router, turns: set<string>) {
    forall k <- r.early :: forall it <- r.early[k] :: KeyOf(it) == Some(k) && ItemApart(it, turns)
  }

  lemma ApartNeverConfuses(r: Router, step: RouterStep, turns: set<string>)
    requires BuffersApart(r, turns) && IdsApart(step, turns)
    ensures !Confuses(r, step) && BuffersApart(NextRouter(r, step), turns)
  {
    if step.Handle? && step.event.Some? {
      RouteKeepsApart(Recorded(r, step.event.value), step.event.value, turns);
    }
  }

  lemma RouteKeepsApart(r: Router, t: Translated, turns: set<string>)
    requires BuffersApart(r, turns) && IdsApart(Handle(Some(t)), turns)
    ensures BuffersApart(Route(r, t), turns)
  {
    assert ItemApart(Item(|r.arrivals|, t.turn, t.thread, t.event), turns);
  }

  /** So no id that is both a turn's and a thread's means isolation. */
  lemma {:induction false} EveryRunIsolates(steps: seq<RouterStep>, home: map<string, string>, turns: set<string>)
    requires forall step <- steps :: Steady(step, home) && IdsApart(step, turns)
    ensures var r := RunRouter(steps); Isolated(r.logs, r.owners)
  {
    IsolatedIff(steps, home);
    RunNeverConfuses(steps, turns);
  }

  lemma {:induction false} RunNeverConfuses(steps: seq<RouterStep>, turns: set<string>)
    requires forall step <- steps :: IdsApart(step, turns)
    ensures NeverConfuses(steps) && BuffersApart(RunRouter(steps), turns)
  {
    if steps != [] {
      var front := steps[..|steps| - 1];
      assert steps[|steps| - 1] in steps && forall step <- front :: step in steps;
      RunNeverConfuses(front, turns);
      ApartNeverConfuses(RunRouter(front), steps[|steps| - 1], turns);
    }
  }

  lemma RunOfTwo(a: RouterStep, b: RouterStep)
    ensures RunRouter([a, b]) == NextRouter(NextRouter(NewRouter, a), b)
  {
    assert [a, b][..1] == [a] && [a][..0] == [];
    assert RunRouter([a]) == NextRouter(NewRouter, a);
  }

  lemma TurnEventComesFirst(x: string, event: AgentEvent, params: Payload)
    requires x != ""
    ensures var (t, it) := (Translated(Some(x), None, event, None, "", params), Item(0, Some(x), None, event));
            NextRouter(NewRouter, Handle(Some(t))) == NewRouter.(early := map[x := [it]], arrivals := [it])
  {
    var it := Item(0, Some(x), None, event);
    assert [] + [it] == [it];
  }

  /** An event that names turn x gets on the queue of turn t, when that is registered with thread x. */
  lemma ThreadNamedLikeATurn(t: string, x: string, event: AgentEvent, params: Payload)
    requires t != x && x != ""
    ensures var steps := [Handle(Some(Translated(Some(x), None, event, None, "", params))), Register(t, x)];
            var r := RunRouter(steps);
            r.owners == [(t, x)] && r.logs == [[Item(0, Some(x), None, event)]] && !Isolated(r.logs, r.owners)
  {
    var a, b := Handle(Some(Translated(Some(x), None, event, None, "", params))), Register(t, x);
    var it := Item(0, Some(x), None, event);
    RunOfTwo(a, b);
    TurnEventComesFirst(x, event, params);
    var r := NewRouter.(early := map[x := [it]], arrivals := [it]);
    assert [] + [it] == [it] && [] + [[it]] == [[it]];
    assert RegisterTurn(r, t, x).logs == [[it]];
    assert it in [it] && !Names(it, (t, x));
    assert !AllName([it], (t, x));
    var r1 := RegisterTurn(r, t, x);
    assert r1.logs[0] == [it] && r1.owners[0] == (t, x);
  }
}
