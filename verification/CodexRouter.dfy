/** The event router of the Codex app server (agent/codex_app_server.py): which turn gets an event, and
    which turn may answer a request of the server. */
module CodexRouter {
  import opened Wrappers
  import opened AgentEvents
  import opened CodexRpc

  /** A translated event; `requestId` is the id of the message, if it has one. */
  datatype Translated = Translated(
    turn: Option<string>, thread: Option<string>, event: AgentEvent, requestId: Option<RpcId>, name: string,
    params: Payload)

  /** An event with the number of its arrival. */
  datatype Item = Item(at: nat, turn: Option<string>, thread: Option<string>, event: AgentEvent)

  /** The n-th request that was recorded. */
  datatype Request = Request(n: nat, id: RpcId, name: string, params: Payload, turn: Option<string>)

  datatype Taken = Taken(n: nat, turn: string)

  /** Queues are named by the order of their creation and keep all that was put. History variables:
      the owners of the queues, all items routed, all requests recorded and all requests taken. */
  datatype Router = Router(
    queues: map<string, nat>, logs: seq<seq<Item>>, threadTurns: map<string, string>, early: map<string, seq<Item>>,
    requests: seq<Request>, owners: seq<(string, string)>, arrivals: seq<Item>, recorded: seq<Request>,
    taken: seq<Taken>)

  const NewRouter: Router := Router(map[], [], map[], map[], [], [], [], [], [])

  // Ids are kept by their text.

  function Digits(n: nat): string {
    (if n < 10 then "" else Digits(n / 10)) + [Digit(n % 10)]
  }

  function TextOfId(id: RpcId): string {
    match id
    case Text(s) => s
    case Number(n) => if n < 0 then "-" + Digits(-n) else Digits(n)
  }

  // The requests: a dict keyed by the text of their ids.

  function SetRequest(requests: seq<Request>, r: Request): seq<Request> {
    if requests == [] then [r]
    else if TextOfId(requests[0].id) == TextOfId(r.id) then [r] + requests[1..]
    else [requests[0]] + SetRequest(requests[1..], r)
  }

  predicate Matches(r: Request, turn: string, id: Option<string>, name: Option<string>) {
    && r.turn == Some(turn) && (id.Some? ==> TextOfId(r.id) == id.value) && (name.Some? ==> r.name == name.value)
  }

  /** The position of the first match, or the length. */
  function Find(requests: seq<Request>, turn: string, id: Option<string>, name: Option<string>): (i: nat)
    ensures i <= |requests|
  {
    if requests == [] || Matches(requests[0], turn, id, name) then 0 else 1 + Find(requests[1..], turn, id, name)
  }

  // Steps.

  datatype RouterStep =
    | Register(turn: string, thread: string)
    | Unregister(turn: string, thread: string)
    | Handle(event: Option<Translated>)
    | Take(turn: string, id: Option<string>, name: Option<string>)

  function Early(early: map<string, seq<Item>>, k: string): seq<Item> { if k in early then early[k] else [] }

  function RegisterTurn(r: Router, turn: string, thread: string): Router {
    var log := Early(r.early, turn) + Early(r.early - {turn}, thread);
    r.(queues := r.queues[turn := |r.logs|], logs := r.logs + [log], threadTurns := r.threadTurns[thread := turn],
       early := r.early - {turn} - {thread}, owners := r.owners + [(turn, thread)])
  }

  function UnregisterTurn(r: Router, turn: string, thread: string): Router {
    r.(queues := r.queues - {turn},
       threadTurns := if Get(r.threadTurns, thread) == Some(turn) then r.threadTurns - {thread} else r.threadTurns)
  }

  /** What an event is buffered under: its turn, unless that is missing or empty, else its thread. */
  function EarlyKey(turn: Option<string>, thread: Option<string>): Option<string> {
    if turn.Some? && turn.value != "" then turn else thread
  }

  function RouteOf(r: Router, t: Translated): Option<string> {
    if t.turn.Some? then t.turn else if t.thread.Some? then Get(r.threadTurns, t.thread.value) else None
  }

  function Route(r: Router, t: Translated): Router {
    var item := Item(|r.arrivals|, t.turn, t.thread, t.event);
    var route, key := RouteOf(r, t), EarlyKey(t.turn, t.thread);
    if route.Some? && route.value in r.queues && r.queues[route.value] < |r.logs| then
      var q := r.queues[route.value];
      r.(logs := r.logs[q := r.logs[q] + [item]], arrivals := r.arrivals + [item])
    else if key.Some? then
      r.(early := r.early[key.value := Early(r.early, key.value) + [item]], arrivals := r.arrivals + [item])
    else r
  }

  function Recorded(r: Router, t: Translated): Router {
    if t.requestId.None? then r
    else
      var request := Request(|r.recorded|, t.requestId.value, t.name, t.params, t.turn);
      r.(requests := SetRequest(r.requests, request), recorded := r.recorded + [request])
  }

  function HandleEvent(r: Router, t: Translated): Router { Route(Recorded(r, t), t) }

  function TakeRequest(r: Router, turn: string, id: Option<string>, name: Option<string>): Router {
    var i := Find(r.requests, turn, id, name);
    if i == |r.requests| then r
    else r.(requests := r.requests[..i] + r.requests[i + 1..], taken := r.taken + [Taken(r.requests[i].n, turn)])
  }

  function NextRouter(r: Router, step: RouterStep): Router {
    match step
    case Register(turn, thread) => RegisterTurn(r, turn, thread)
    case Unregister(turn, thread) => UnregisterTurn(r, turn, thread)
    case Handle(event) => if event.Some? then HandleEvent(r, event.value) else r
    case Take(turn, id, name) => TakeRequest(r, turn, id, name)
  }

  function RunRouter(steps: seq<RouterStep>): Router {
    if steps == [] then NewRouter else NextRouter(RunRouter(steps[..|steps| - 1]), steps[|steps| - 1])
  }

  // What became of the requests.

  ghost predicate IsTaken(taken: seq<Taken>, n: nat) { exists i :: 0 <= i < |taken| && taken[i].n == n }

  /** A later request has the same id, as a text. */
  ghost predicate Replaced(recorded: seq<Request>, n: nat)
    requires n < |recorded|
  {
    exists m :: n < m < |recorded| && TextOfId(recorded[m].id) == TextOfId(recorded[n].id)
  }

  ghost predicate IsOf(r: Request, recorded: seq<Request>) { r.n < |recorded| && recorded[r.n] == r }

  ghost predicate DistinctNumbers(requests: seq<Request>) {
    forall i, j :: 0 <= i < j < |requests| ==> requests[i].n != requests[j].n
  }

  ghost predicate LiveOk(requests: seq<Request>, recorded: seq<Request>) {
    DistinctNumbers(requests) && forall x <- requests :: IsOf(x, recorded) && !Replaced(recorded, x.n)
  }

  /** Taken by its own turn, and no longer live. */
  ghost predicate TakenOk(t: Taken, requests: seq<Request>, recorded: seq<Request>) {
    t.n < |recorded| && recorded[t.n].turn == Some(t.turn) && recorded[t.n] !in requests
  }

  ghost predicate TakenOnce(taken: seq<Taken>) { forall i, j :: 0 <= i < j < |taken| ==> taken[i].n != taken[j].n }

  /** Live, taken, or replaced by a later request of the same id. */
  ghost predicate Kept(n: nat, requests: seq<Request>, recorded: seq<Request>, taken: seq<Taken>)
    requires n < |recorded|
  {
    recorded[n].n == n && (recorded[n] in requests || IsTaken(taken, n) || Replaced(recorded, n))
  }

  ghost predicate RequestsOk(requests: seq<Request>, recorded: seq<Request>, taken: seq<Taken>) {
    && LiveOk(requests, recorded)
    && (forall t <- taken :: TakenOk(t, requests, recorded)) && TakenOnce(taken)
    && (forall n :: 0 <= n < |recorded| ==> Kept(n, requests, recorded, taken))
  }

  ghost predicate DistinctTexts(requests: seq<Request>) {
    forall i, j :: 0 <= i < j < |requests| ==> TextOfId(requests[i].id) != TextOfId(requests[j].id)
  }

  lemma LiveTextsDiffer(requests: seq<Request>, recorded: seq<Request>)
    requires LiveOk(requests, recorded)
    ensures DistinctTexts(requests)
  {
    forall i, j | 0 <= i < j < |requests| ensures TextOfId(requests[i].id) != TextOfId(requests[j].id) {
      var n, m := requests[i].n, requests[j].n;
      assert !Replaced(recorded, n) && !Replaced(recorded, m) && n != m;
    }
  }

  /** Setting a key keeps all requests of other keys. */
  lemma {:induction false} SetMember(requests: seq<Request>, r: Request, x: Request)
    requires DistinctTexts(requests)
    ensures x in SetRequest(requests, r) <==> x == r || (x in requests && TextOfId(x.id) != TextOfId(r.id))
  {
    if requests != [] {
      assert requests == [requests[0]] + requests[1..];
      if TextOfId(requests[0].id) != TextOfId(r.id) {
        SetMember(requests[1..], r, x);
      }
    }
  }

  lemma {:induction false} SetKeepsDistinct(requests: seq<Request>, r: Request)
    requires DistinctTexts(requests) && DistinctNumbers(requests) && forall x <- requests :: x.n != r.n
    ensures DistinctNumbers(SetRequest(requests, r))
  {
    if requests != [] && TextOfId(requests[0].id) != TextOfId(r.id) {
      var rest := SetRequest(requests[1..], r);
      assert forall x <- requests[1..] :: x in requests;
      SetKeepsDistinct(requests[1..], r);
      forall j | 0 <= j < |rest| ensures rest[j].n != requests[0].n {
        SetMember(requests[1..], r, rest[j]);
      }
    }
  }

  /** A new request comes later than all recorded ones. */
  lemma ReplacedAppend(recorded: seq<Request>, r: Request, n: nat)
    requires n < |recorded|
    ensures Replaced(recorded + [r], n) <==> Replaced(recorded, n) || TextOfId(recorded[n].id) == TextOfId(r.id)
  {
    var recorded1 := recorded + [r];
    if Replaced(recorded, n) {
      var m :| n < m < |recorded| && TextOfId(recorded[m].id) == TextOfId(recorded[n].id);
      assert recorded1[m] == recorded[m];
    }
    assert recorded1[|recorded|] == r && recorded1[n] == recorded[n];
  }

  lemma RecordKeepsLive(requests: seq<Request>, recorded: seq<Request>, r: Request)
    requires LiveOk(requests, recorded) && r.n == |recorded|
    ensures LiveOk(SetRequest(requests, r), recorded + [r])
  {
    var recorded1 := recorded + [r];
    LiveTextsDiffer(requests, recorded);
    SetKeepsDistinct(requests, r);
    forall x | x in SetRequest(requests, r) ensures IsOf(x, recorded1) && !Replaced(recorded1, x.n) {
      SetMember(requests, r, x);
      if x != r {
        ReplacedAppend(recorded, r, x.n);
      }
    }
  }

  lemma RecordKeeps(requests: seq<Request>, recorded: seq<Request>, taken: seq<Taken>, r: Request)
    requires RequestsOk(requests, recorded, taken) && r.n == |recorded|
    ensures RequestsOk(SetRequest(requests, r), recorded + [r], taken)
  {
    var requests1, recorded1 := SetRequest(requests, r), recorded + [r];
    RecordKeepsLive(requests, recorded, r);
    LiveTextsDiffer(requests, recorded);
    forall t | t in taken ensures TakenOk(t, requests1, recorded1) {
      assert TakenOk(t, requests, recorded);
      assert Kept(t.n, requests, recorded, taken);
      SetMember(requests, r, recorded[t.n]);
    }
    forall n | 0 <= n < |recorded1| ensures Kept(n, requests1, recorded1, taken) {
      SetMember(requests, r, recorded1[n]);
      if n < |recorded| {
        assert Kept(n, requests, recorded, taken);
        ReplacedAppend(recorded, r, n);
      }
    }
  }

  lemma TakeKeeps(requests: seq<Request>, recorded: seq<Request>, taken: seq<Taken>, i: nat, turn: string)
    requires RequestsOk(requests, recorded, taken) && i < |requests| && requests[i].turn == Some(turn)
    ensures RequestsOk(requests[..i] + requests[i + 1..], recorded, taken + [Taken(requests[i].n, turn)])
  {
    var requests1, t := requests[..i] + requests[i + 1..], Taken(requests[i].n, turn);
    var x := requests[i];
    assert IsOf(x, recorded);
    forall y ensures y in requests1 <==> y in requests && y != x {
      RemovedMember(requests, i, y);
    }
    forall u | u in taken ensures TakenOk(u, requests1, recorded) && u.n != x.n {
      assert TakenOk(u, requests, recorded);
    }
    forall n | 0 <= n < |recorded| ensures Kept(n, requests1, recorded, taken + [t]) {
      assert Kept(n, requests, recorded, taken);
      if recorded[n] == x {
        assert (taken + [t])[|taken|].n == n;
      } else if IsTaken(taken, n) {
        var j :| 0 <= j < |taken| && taken[j].n == n;
        assert (taken + [t])[j].n == n;
      }
    }
  }

  lemma RemovedMember(requests: seq<Request>, i: nat, y: Request)
    requires DistinctNumbers(requests) && i < |requests|
    ensures y in requests[..i] + requests[i + 1..] <==> y in requests && y != requests[i]
  {
    if y in requests && y != requests[i] {
      var j :| 0 <= j < |requests| && requests[j] == y;
      if j < i {
        assert requests[..i][j] == y;
      } else {
        assert requests[i + 1..][j - i - 1] == y;
      }
    }
  }

  lemma {:induction false} FindIsFirst(requests: seq<Request>, turn: string, id: Option<string>, name: Option<string>)
    ensures var i := Find(requests, turn, id, name);
            && (i < |requests| ==> Matches(requests[i], turn, id, name))
            && forall j :: 0 <= j < i ==> !Matches(requests[j], turn, id, name)
  {
    if requests != [] && !Matches(requests[0], turn, id, name) {
      FindIsFirst(requests[1..], turn, id, name);
      var i := Find(requests[1..], turn, id, name);
      forall j | 0 <= j < i + 1 ensures !Matches(requests[j], turn, id, name) {
        if j > 0 {
          assert requests[j] == requests[1..][j - 1];
        }
      }
    }
  }

  lemma RouteKeepsRequests(r: Router, t: Translated)
    ensures var r1 := Route(r, t); r1.requests == r.requests && r1.recorded == r.recorded && r1.taken == r.taken
  {
  }

  ghost predicate Answerable(r: Router, n: nat)
    requires n < |r.recorded|
  {
    !Replaced(r.recorded, n) && !IsTaken(r.taken, n)
  }

  ghost predicate HasAnswerable(r: Router, turn: string, id: Option<string>, name: Option<string>) {
    exists n :: 0 <= n < |r.recorded| && Matches(r.recorded[n], turn, id, name) && Answerable(r, n)
  }

  /** Over every run: a request is live as long as it was neither taken nor replaced; it is taken at most
      once, and only by the turn that its event named. */
  lemma {:induction false} RequestsAreKept(steps: seq<RouterStep>)
    ensures var r := RunRouter(steps); RequestsOk(r.requests, r.recorded, r.taken)
  {
    if steps != [] {
      var r, step := RunRouter(steps[..|steps| - 1]), steps[|steps| - 1];
      RequestsAreKept(steps[..|steps| - 1]);
      if step.Take? {
        FindIsFirst(r.requests, step.turn, step.id, step.name);
        var i := Find(r.requests, step.turn, step.id, step.name);
        if i < |r.requests| {
          TakeKeeps(r.requests, r.recorded, r.taken, i, step.turn);
        }
      } else if step.Handle? && step.event.Some? {
        var t := step.event.value;
        RouteKeepsRequests(Recorded(r, t), t);
        if t.requestId.Some? {
          RecordKeeps(r.requests, r.recorded, r.taken,
                      Request(|r.recorded|, t.requestId.value, t.name, t.params, t.turn));
        }
      }
    }
  }

  /** What a turn takes is a request of its own, with the id it was recorded with; and it finds one
      exactly if one that it matches was recorded and neither replaced nor taken since. */
  lemma TakesIff(r: Router, turn: string, id: Option<string>, name: Option<string>)
    requires RequestsOk(r.requests, r.recorded, r.taken)
    ensures var i := Find(r.requests, turn, id, name);
            && (i < |r.requests| ==> Matches(r.requests[i], turn, id, name) && IsOf(r.requests[i], r.recorded))
            && (i < |r.requests| <==> HasAnswerable(r, turn, id, name))
  {
    FindIsFirst(r.requests, turn, id, name);
    var i := Find(r.requests, turn, id, name);
    if i < |r.requests| {
      var x := r.requests[i];
      assert x in r.requests && IsOf(x, r.recorded) && !Replaced(r.recorded, x.n);
      forall j | 0 <= j < |r.taken| ensures r.taken[j].n != x.n {
        assert TakenOk(r.taken[j], r.requests, r.recorded);
      }
      assert Answerable(r, x.n);
    }
    if n :| 0 <= n < |r.recorded| && Matches(r.recorded[n], turn, id, name) && Answerable(r, n) {
      assert Kept(n, r.requests, r.recorded, r.taken);
      var j :| 0 <= j < |r.requests| && r.requests[j] == r.recorded[n];
    }
  }

  function Digit(d: nat): char
    requires d < 10
  {
    ['0', '1', '2', '3', '4', '5', '6', '7', '8', '9'][d]
  }

  lemma LastDigitDiffers(d: nat, e: nat)
    requires d < 10 && e < 10 && Digit(d) == Digit(e)
    ensures d == e
  {
  }

  /** The text of a number ends in its last digit, after the text of the rest. */
  lemma LastDigit(n: nat)
    ensures var d := Digits(n);
            d != "" && d[|d| - 1] == Digit(n % 10) && d[..|d| - 1] == if n < 10 then "" else Digits(n / 10)
  {
  }

  lemma {:induction false} DigitsDiffer(n: nat, m: nat)
    requires Digits(n) == Digits(m)
    ensures n == m
    decreases n
  {
    DigitsNonempty(n / 10);
    DigitsNonempty(m / 10);
    LastDigit(n);
    LastDigit(m);
    LastDigitDiffers(n % 10, m % 10);
    if n >= 10 && m >= 10 {
      DigitsDiffer(n / 10, m / 10);
    }
  }

  lemma {:induction false} DigitsNonempty(n: nat)
    ensures Digits(n) != "" && Digits(n)[0] != '-'
  {
    if n >= 10 {
      DigitsNonempty(n / 10);
    }
  }

  /** Two ids have one text only if they are one, or one is the text of the other, a number. */
  lemma TextsCollide(a: RpcId, b: RpcId)
    ensures TextOfId(a) == TextOfId(b) <==>
            a == b || (a.Number? && b == Text(TextOfId(a))) || (b.Number? && a == Text(TextOfId(b)))
  {
    if a.Number? && b.Number? && TextOfId(a) == TextOfId(b) {
      NumbersDiffer(a.n, b.n);
    }
  }

  lemma NumbersDiffer(n: int, m: int)
    requires TextOfId(Number(n)) == TextOfId(Number(m))
    ensures n == m
  {
    var x: nat, y: nat := if n < 0 then -n else n, if m < 0 then -m else m;
    DigitsNonempty(x);
    DigitsNonempty(y);
    assert (n < 0) == (m < 0) by {
      assert TextOfId(Number(n))[0] == TextOfId(Number(m))[0];
    }
    if n < 0 {
      assert Digits(x) == ("-" + Digits(x))[1..] == ("-" + Digits(y))[1..] == Digits(y);
    }
    DigitsDiffer(x, y);
  }

  ghost predicate QueuesExist(queues: map<string, nat>, n: nat) { forall t <- queues :: queues[t] < n }

  /** The router. The counters number what arrives. */
  class CodexEventRouter {
    var queues: map<string, nat>
    var logs: seq<seq<Item>>
    var threadTurns: map<string, string>
    var earlyEvents: map<string, seq<Item>>
    var requests: seq<Request>
    var arrived: nat
    var numbered: nat
    ghost var owners: seq<(string, string)>
    ghost var arrivals: seq<Item>
    ghost var recorded: seq<Request>
    ghost var taken: seq<Taken>

    ghost function State(): Router
      reads this
    {
      Router(queues, logs, threadTurns, earlyEvents, requests, owners, arrivals, recorded, taken)
    }

    ghost predicate Valid()
      reads this
    {
      && arrived == |arrivals| && numbered == |recorded| && RequestsOk(requests, recorded, taken)
      && QueuesExist(queues, |logs|)
    }

    constructor ()
      ensures Valid() && State() == NewRouter
    {
      queues, logs, threadTurns, earlyEvents, requests := map[], [], map[], map[], [];
      arrived, numbered, owners, arrivals, recorded, taken := 0, 0, [], [], [], [];
    }

    /** Moves what was buffered under a key to the newest queue. */
    method Replay(key: string)
      requires logs != []
      modifies this`logs, this`earlyEvents
      ensures logs == old(logs)[|old(logs)| - 1 := old(logs)[|old(logs)| - 1] + Early(old(earlyEvents), key)]
      ensures earlyEvents == old(earlyEvents) - {key}
    {
      var events, log := Early(earlyEvents, key), logs[|logs| - 1];
      earlyEvents := earlyEvents - {key};
      for i := 0 to |events|
        invariant log == logs[|logs| - 1] + events[..i]
      {
        assert events[..i + 1] == events[..i] + [events[i]];
        log := log + [events[i]];
      }
      assert events[..|events|] == events;
      logs := logs[|logs| - 1 := log];
    }

    method Register(turn: string, thread: string) returns (queue: nat)
      requires Valid()
      modifies this`queues, this`logs, this`threadTurns, this`earlyEvents, this`owners
      ensures Valid() && State() == NextRouter(old(State()), RouterStep.Register(turn, thread)) && queue == |old(logs)|
    {
      queue := |logs|;
      queues := queues[turn := queue];
      logs := logs + [[]];
      owners := owners + [(turn, thread)];
      threadTurns := threadTurns[thread := turn];
      ReplayBoth(turn, thread);
    }

    method ReplayBoth(turn: string, thread: string)
      requires logs != [] && logs[|logs| - 1] == []
      modifies this`logs, this`earlyEvents
      ensures logs == old(logs)[..|old(logs)| - 1] +
                      [Early(old(earlyEvents), turn) + Early(old(earlyEvents) - {turn}, thread)]
      ensures earlyEvents == old(earlyEvents) - {turn} - {thread}
    {
      Replay(turn);
      assert [] + Early(old(earlyEvents), turn) == Early(old(earlyEvents), turn);
      assert logs == old(logs)[..|old(logs)| - 1] + [Early(old(earlyEvents), turn)];
      Replay(thread);
    }

    method Unregister(turn: string, thread: string)
      requires Valid()
      modifies this
      ensures Valid() && State() == NextRouter(old(State()), RouterStep.Unregister(turn, thread))
    {
      queues := queues - {turn};
      if thread in threadTurns && threadTurns[thread] == turn {
        threadTurns := threadTurns - {thread};
      }
    }

    method RecordRequest(t: Translated)
      requires Valid() && t.requestId.Some?
      modifies this`requests, this`recorded, this`numbered
      ensures Valid() && State() == Recorded(old(State()), t)
    {
      var request := Request(numbered, t.requestId.value, t.name, t.params, t.turn);
      RecordKeeps(requests, recorded, taken, request);
      requests := SetRequest(requests, request);
      recorded := recorded + [request];
      numbered := numbered + 1;
    }

    /** Puts an event on the queue of its turn, or keeps it for later. */
    method Deliver(t: Translated)
      requires arrived == |arrivals| && QueuesExist(queues, |logs|)
      modifies this`logs, this`earlyEvents, this`arrived, this`arrivals
      ensures arrived == |arrivals| && QueuesExist(queues, |logs|) && State() == Route(old(State()), t)
    {
      var route := t.turn;
      if route.None? && t.thread.Some? && t.thread.value in threadTurns {
        route := Some(threadTurns[t.thread.value]);
      }
      var item := Item(arrived, t.turn, t.thread, t.event);
      if route.None? || route.value !in queues {
        var key := if t.turn.Some? && t.turn.value != "" then t.turn else t.thread;
        if key.Some? {
          earlyEvents := earlyEvents[key.value := Early(earlyEvents, key.value) + [item]];
          arrived, arrivals := arrived + 1, arrivals + [item];
        }
        return;
      }
      logs := logs[queues[route.value] := logs[queues[route.value]] + [item]];
      arrived, arrivals := arrived + 1, arrivals + [item];
    }

    method HandleEvent(event: Option<Translated>)
      requires Valid()
      modifies this`requests, this`recorded, this`numbered, this`logs, this`earlyEvents, this`arrived, this`arrivals
      ensures Valid() && State() == NextRouter(old(State()), Handle(event))
    {
      if event.Some? {
        if event.value.requestId.Some? {
          RecordRequest(event.value);
        }
        Deliver(event.value);
      }
    }

    /** The position of the first request of the turn that matches, or the number of requests. */
    method Search(turn: string, id: Option<string>, name: Option<string>) returns (i: nat)
      ensures i == Find(requests, turn, id, name)
    {
      FindIsFirst(requests, turn, id, name);
      i := 0;
      while i < |requests| && !Matches(requests[i], turn, id, name)
        invariant i <= Find(requests, turn, id, name)
      {
        i := i + 1;
      }
    }

    /** The first request of the turn that matches, if there is one; it is then no longer there. */
    method TakeRequest(turn: string, id: Option<string>, name: Option<string>) returns (r: Option<Request>)
      requires Valid()
      modifies this`requests, this`taken
      ensures Valid() && State() == NextRouter(old(State()), Take(turn, id, name))
      ensures r.Some? <==> HasAnswerable(old(State()), turn, id, name)
      ensures r.Some? ==>
                && Matches(r.value, turn, id, name) && IsOf(r.value, recorded)
                && taken == old(taken) + [Taken(r.value.n, turn)]
    {
      TakesIff(State(), turn, id, name);
      var i := Search(turn, id, name);
      r := None;
      if i < |requests| {
        r := Some(requests[i]);
        TakeKeeps(requests, recorded, taken, i, turn);
        taken := taken + [Taken(requests[i].n, turn)];
        requests := requests[..i] + requests[i + 1..];
      }
    }
  }
}
