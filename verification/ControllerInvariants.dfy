/** What every step of the run controller keeps: completion futures, idle timers, pauses, pending
    requests, and the agreement of view and log. */
module ControllerInvariants {
  import opened Wrappers
  import opened AgentEvents
  import opened RunViews
  import opened MessageQueue
  import opened ControllerModel

  type Runs = map<Scope, ActiveRun>

  /** A future is unresolved exactly while some run is active for it, and no two runs share one. */
  ghost predicate FuturesOk(runs: Runs, futures: seq<Option<Run>>) {
    && (forall s <- runs :: runs[s].completion < |futures| && futures[runs[s].completion].None?)
    && (forall s1 <- runs, s2 <- runs :: runs[s1].completion == runs[s2].completion ==> s1 == s2)
    && (forall f :: 0 <= f < |futures| && futures[f].None? ==> exists s :: s in runs && runs[s].completion == f)
  }

  /** Every live timer is the handle of the active run of its scope, hence the only one there. */
  ghost predicate TimersOk(runs: Runs, timers: Timers) {
    && (forall t <- timers.live :: t < timers.next && timers.live[t] in runs && runs[timers.live[t]].timer == Some(t))
    && (forall s <- runs :: runs[s].timer.Some? ==> runs[s].timer.value < timers.next)
  }

  /** Nobody consumes the events of a run that waits for an answer. */
  ghost predicate ConsumersOk(runs: Runs, consuming: set<Scope>) {
    forall s <- consuming :: s in runs && runs[s].view.pending.None?
  }

  /** The open requests of a run are exactly the one its view shows, or none. */
  ghost predicate OpenRequestsAre(requests: map<string, Request>, runId: string, pending: Option<PendingRequestView>) {
    && (forall p <- requests :: requests[p].runId == runId && requests[p].status.Open? ==>
          pending.Some? && pending.value.pendingRequestId == p)
    && (pending.Some? ==>
          Get(requests, pending.value.pendingRequestId) == Some(Request(runId, pending.value.kind, Open)))
  }

  /** The view agrees with its status, with the log of the run and with the stored requests; a run that
      waits is not timed out. */
  ghost predicate RunOk(a: ActiveRun, records: Records) {
    && a.view.runId == a.run.runId
    && PendingMatchesStatus(a.view)
    && (a.view.pending.Some? ==> !a.timedOut)
    && a.run.runId in records.logs && a.run.runId in records.statuses
    && ContentOf(a.view) == ContentOf(FoldRunView(InitialRunView(a.run.runId), records.logs[a.run.runId]))
    && OpenRequestsAre(records.requests, a.run.runId, a.view.pending)
  }

  ghost predicate RunsOk(runs: Runs, records: Records, but: set<Scope>) {
    && (forall s <- runs :: s !in but ==> RunOk(runs[s], records))
    && (forall s1 <- runs, s2 <- runs :: runs[s1].run.runId == runs[s2].run.runId ==> s1 == s2)
    && (forall p <- records.requests :: records.requests[p].runId in records.logs)
  }

  /** The invariant, but for the agreement of some runs that are about to end. */
  ghost predicate InvBut(c: Controller, but: set<Scope>) {
    && FuturesOk(c.runs, c.futures)
    && TimersOk(c.runs, c.timers)
    && ConsumersOk(c.runs, c.consuming)
    && RunsOk(c.runs, c.records, but)
  }

  ghost predicate Inv(c: Controller) { InvBut(c, {}) }

  /** Two runs that differ at most in queue, flags, timer and the status of the run record. */
  ghost predicate SameRun(a: ActiveRun, b: ActiveRun) {
    && a.run.runId == b.run.runId && a.view == b.view && a.completion == b.completion
    && (b.timedOut ==> a.timedOut || a.view.pending.None?)
  }

  lemma CancelFrame(c: Controller, s: Scope)
    ensures var c1 := CancelTimer(c, s);
            && c1 == c.(runs := c1.runs, timers := c1.timers)
            && c1.runs == (if s in c.runs then c.runs[s := c.runs[s].(timer := None)] else c.runs)
            && c1.timers.next == c.timers.next
  {
  }

  lemma CancelTimersOk(c: Controller, s: Scope)
    requires TimersOk(c.runs, c.timers) && s in c.runs
    ensures TimersOk(CancelTimer(c, s).runs, CancelTimer(c, s).timers)
    ensures forall t <- CancelTimer(c, s).timers.live :: CancelTimer(c, s).timers.live[t] != s
  {
  }

  lemma CancelKeepsInv(c: Controller, s: Scope, but: set<Scope>)
    requires InvBut(c, but)
    ensures InvBut(CancelTimer(c, s), but)
  {
    CancelFrame(c, s);
    if s in c.runs {
      var c1 := CancelTimer(c, s);
      CancelTimersOk(c, s);
      SameRunKeepsRest(c.runs, c1.runs, c.futures, c.consuming, c.records, s, but);
    }
  }

  lemma SameRunKeepsRuns(runs: Runs, runs1: Runs, records: Records, s: Scope, but: set<Scope>)
    requires RunsOk(runs, records, but) && s in runs && s in runs1 && runs1 == runs[s := runs1[s]]
    requires SameRun(runs[s], runs1[s])
    ensures RunsOk(runs1, records, but)
  {
    forall s1 <- runs1 | s1 !in but ensures RunOk(runs1[s1], records) {
      assert RunOk(runs[s1], records);
    }
  }

  lemma SameRunKeepsFutures(runs: Runs, runs1: Runs, futures: seq<Option<Run>>, s: Scope)
    requires FuturesOk(runs, futures) && s in runs && s in runs1 && runs1 == runs[s := runs1[s]]
    requires runs1[s].completion == runs[s].completion
    ensures FuturesOk(runs1, futures)
  {
    forall f | 0 <= f < |futures| && futures[f].None? ensures exists s1 :: s1 in runs1 && runs1[s1].completion == f {
      var s1 :| s1 in runs && runs[s1].completion == f;
      assert s1 in runs1 && runs1[s1].completion == f;
    }
  }

  lemma SameRunKeepsConsumers(runs: Runs, runs1: Runs, consuming: set<Scope>, s: Scope)
    requires ConsumersOk(runs, consuming) && s in runs && s in runs1 && runs1 == runs[s := runs1[s]]
    requires runs1[s].view == runs[s].view
    ensures ConsumersOk(runs1, consuming)
  {
  }

  lemma SameRunKeepsRest(
      runs: Runs, runs1: Runs, futures: seq<Option<Run>>, consuming: set<Scope>, records: Records, s: Scope,
      but: set<Scope>)
    requires s in runs && s in runs1 && runs1 == runs[s := runs1[s]] && SameRun(runs[s], runs1[s])
    requires FuturesOk(runs, futures) && ConsumersOk(runs, consuming) && RunsOk(runs, records, but)
    ensures FuturesOk(runs1, futures) && ConsumersOk(runs1, consuming) && RunsOk(runs1, records, but)
  {
    SameRunKeepsRuns(runs, runs1, records, s, but);
    SameRunKeepsFutures(runs, runs1, futures, s);
    SameRunKeepsConsumers(runs, runs1, consuming, s);
  }

  lemma ArmTimersOk(c: Controller, s: Scope)
    requires TimersOk(c.runs, c.timers) && s in c.runs
    ensures TimersOk(ArmTimer(c, s).runs, ArmTimer(c, s).timers)
  {
    CancelTimersOk(c, s);
    CancelFrame(c, s);
  }

  lemma ArmFrame(c: Controller, s: Scope)
    ensures var c1 := ArmTimer(c, s);
            && c1 == c.(runs := c1.runs, timers := c1.timers)
            && (s !in c.runs ==> c1 == c)
            && (s in c.runs ==> s in c1.runs && c1.runs == c.runs[s := c.runs[s].(timer := c1.runs[s].timer)])
  {
    CancelFrame(c, s);
  }

  lemma ArmKeepsInv(c: Controller, s: Scope)
    requires Inv(c)
    ensures Inv(ArmTimer(c, s))
  {
    ArmFrame(c, s);
    if s in c.runs {
      ArmTimersOk(c, s);
      SameRunKeepsRest(c.runs, ArmTimer(c, s).runs, c.futures, c.consuming, c.records, s, {});
    }
  }

  lemma SameTimer(runs: Runs, runs1: Runs, timers: Timers, s: Scope)
    requires TimersOk(runs, timers) && s in runs && s in runs1 && runs1 == runs[s := runs1[s]]
    requires runs1[s].timer == runs[s].timer
    ensures TimersOk(runs1, timers)
  {
  }

  /** Flags and queues matter to none of the invariants, but a waiting run is not flagged as timed out. */
  lemma FlagsKeepInv(c: Controller, c1: Controller, s: Scope, but: set<Scope>)
    requires InvBut(c, but) && s in c.runs && s in c1.runs
    requires c1.runs == c.runs[s := c1.runs[s]] && SameRun(c.runs[s], c1.runs[s]) && c1.runs[s].timer == c.runs[s].timer
    requires c1.futures == c.futures && c1.timers == c.timers && c1.consuming == c.consuming && c1.records == c.records
    ensures InvBut(c1, but)
  {
    SameTimer(c.runs, c1.runs, c.timers, s);
    SameRunKeepsRest(c.runs, c1.runs, c.futures, c.consuming, c.records, s, but);
  }

  /** Starting a turn touches no active run. */
  lemma BeginTurnFrame(c: Controller, s: Scope, user: string, prompt: string, env: TurnEnv)
    ensures var (c1, run, session) := BeginTurn(c, s, user, prompt, env);
            && c1.runs == c.runs && c1.futures == c.futures && c1.timers == c.timers && c1.consuming == c.consuming
            && c1.settings == c.settings && c1.overrides == c.overrides
            && c1.records.requests == c.records.requests
            && c1.records.logs ==
                 (if env.runId in c.records.logs then c.records.logs else c.records.logs[env.runId := []])
            && c1.records.statuses == c.records.statuses[env.runId := Running]
            && c1.history.accepted == c.history.accepted && c1.history.fates == c.history.fates
            && run.runId == env.runId && run.user == user && run.scope == s
  {
  }

  lemma NewLogKeepsRuns(runs: Runs, records: Records, records1: Records, runId: string)
    requires RunsOk(runs, records, {}) && runId !in records.logs
    requires records1.requests == records.requests && records1.logs == records.logs[runId := []]
    requires records.statuses.Keys <= records1.statuses.Keys
    ensures RunsOk(runs, records1, {})
    ensures OpenRequestsAre(records1.requests, runId, None)
    ensures forall s <- runs :: runs[s].run.runId != runId
  {
    forall s <- runs ensures RunOk(runs[s], records1) && runs[s].run.runId != runId {
      assert RunOk(runs[s], records);
    }
  }

  lemma NewRunOk(runs: Runs, records: Records, s: Scope, a: ActiveRun)
    requires forall s1 <- runs :: s1 != s ==> RunOk(runs[s1], records) && runs[s1].run.runId != a.run.runId
    requires forall s1 <- runs, s2 <- runs :: runs[s1].run.runId == runs[s2].run.runId ==> s1 == s2
    requires forall p <- records.requests :: records.requests[p].runId in records.logs
    requires a.run.runId in records.statuses
    requires Get(records.logs, a.run.runId) == Some([]) && a.view == InitialRunView(a.run.runId)
    requires OpenRequestsAre(records.requests, a.run.runId, None)
    ensures RunsOk(runs[s := a], records, {})
  {
    assert RunOk(a, records);
  }

  /** A run that has just been created. */
  ghost predicate IsNewRun(a: ActiveRun, records: Records) {
    && Get(records.logs, a.run.runId) == Some([]) && a.run.runId in records.statuses
    && a.view == InitialRunView(a.run.runId) && a.timer.None?
    && OpenRequestsAre(records.requests, a.run.runId, None)
  }

  lemma OpenKeepsInv(c: Controller, s: Scope, a: ActiveRun)
    requires Inv(c) && s !in c.runs && IsNewRun(a, c.records) && a.completion == |c.futures|
    requires forall s1 <- c.runs :: c.runs[s1].run.runId != a.run.runId
    ensures Inv(OpenRun(c, s, a))
  {
    NewRunOk(c.runs, c.records, s, a);
    NewFutureOk(c.runs, c.futures, s, a);
    NewTimerOk(c.runs, c.timers, s, a);
    NewConsumerOk(c.runs, c.consuming, s, a);
  }

  lemma NewTimerOk(runs: Runs, timers: Timers, s: Scope, a: ActiveRun)
    requires TimersOk(runs, timers) && a.timer.None? && forall t <- timers.live :: timers.live[t] != s
    ensures TimersOk(runs[s := a], timers)
  {
  }

  lemma NewConsumerOk(runs: Runs, consuming: set<Scope>, s: Scope, a: ActiveRun)
    requires ConsumersOk(runs, consuming) && a.view.pending.None?
    ensures ConsumersOk(runs[s := a], consuming + {s})
  {
  }

  lemma BeginKeepsInv(c: Controller, s: Scope, user: string, prompt: string, env: TurnEnv)
    requires Inv(c) && env.runId !in c.records.logs
    ensures var c1 := BeginTurn(c, s, user, prompt, env).0;
            && Inv(c1)
            && Get(c1.records.logs, env.runId) == Some([]) && env.runId in c1.records.statuses
            && OpenRequestsAre(c1.records.requests, env.runId, None)
            && (forall s1 <- c1.runs :: c1.runs[s1].run.runId != env.runId)
  {
    BeginTurnFrame(c, s, user, prompt, env);
    NewLogKeepsRuns(c.runs, c.records, BeginTurn(c, s, user, prompt, env).0.records, env.runId);
  }

  lemma StartKeepsInv(c: Controller, s: Scope, user: string, text: string, env: TurnEnv)
    requires Inv(c) && env.runId !in c.records.logs
    ensures Inv(StartTextRun(c, s, user, text, env))
  {
    if s !in c.runs {
      var (c1, run, session) := BeginTurn(c, s, user, text, env);
      BeginKeepsInv(c, s, user, text, env);
      BeginTurnFrame(c, s, user, text, env);
      var a := NewRun(run, user, session, |c1.futures|);
      OpenKeepsInv(c1, s, a);
      ArmKeepsInv(OpenRun(c1, s, a), s);
    }
  }

  lemma NewFutureOk(runs: Runs, futures: seq<Option<Run>>, s: Scope, a: ActiveRun)
    requires FuturesOk(runs, futures) && s !in runs && a.completion == |futures|
    ensures FuturesOk(runs[s := a], futures + [None])
  {
    var runs1, futures1 := runs[s := a], futures + [None];
    forall f | 0 <= f < |futures1| && futures1[f].None? ensures exists s1 :: s1 in runs1 && runs1[s1].completion == f {
      if f < |futures| {
        var s1 :| s1 in runs && runs[s1].completion == f;
        assert s1 in runs1 && runs1[s1].completion == f;
      } else {
        assert s in runs1 && runs1[s].completion == f;
      }
    }
  }

  // The end of a run.

  lemma RemoveKeepsRuns(runs: Runs, records: Records, records1: Records, s: Scope)
    requires s in runs && records1.logs == records.logs && records.statuses.Keys <= records1.statuses.Keys
    requires forall s1 <- runs :: s1 != s ==> RunOk(runs[s1], records)
    requires forall s1 <- runs, s2 <- runs :: runs[s1].run.runId == runs[s2].run.runId ==> s1 == s2
    requires forall p <- records.requests :: records.requests[p].runId in records.logs
    requires records1.requests.Keys == records.requests.Keys
    requires forall p <- records.requests ::
               records1.requests[p] == records.requests[p] ||
               (records.requests[p].runId == runs[s].run.runId == records1.requests[p].runId &&
                !records1.requests[p].status.Open?)
    ensures RunsOk(runs - {s}, records1, {})
  {
    var runs1 := runs - {s};
    forall s1 <- runs1 ensures RunOk(runs1[s1], records1) {
      assert RunOk(runs[s1], records) && runs[s1].run.runId != runs[s].run.runId;
    }
  }

  lemma ResolveFuture(runs: Runs, futures: seq<Option<Run>>, s: Scope, r: Run)
    requires FuturesOk(runs, futures) && s in runs
    ensures FuturesOk(runs - {s}, futures[runs[s].completion := Some(r)])
  {
    var runs1, futures1 := runs - {s}, futures[runs[s].completion := Some(r)];
    forall f | 0 <= f < |futures1| && futures1[f].None? ensures exists s1 :: s1 in runs1 && runs1[s1].completion == f {
      var s1 :| s1 in runs && runs[s1].completion == f;
      assert s1 in runs1 && runs1[s1].completion == f;
    }
  }

  lemma DropKeepsInv(c: Controller, s: Scope, but: set<Scope>)
    requires InvBut(c, but) && s in c.runs
    ensures InvBut(DropQueue(c, s), but)
  {
    DropFrame(c, s);
    FlagsKeepInv(c, DropQueue(c, s), s, but);
  }

  lemma DropFrame(c: Controller, s: Scope)
    requires s in c.runs
    ensures var c1 := DropQueue(c, s);
            c1 == c.(runs := c.runs[s := c.runs[s].(queue := [])], history := c1.history)
  {
    var c1 := DropQueue(c, s);
    assert c1.runs == c.runs[s := c.runs[s].(queue := [])];
  }

  lemma CloseRequestFrame(records: Records, id: string, status: RequestStatus)
    ensures var records1 := CloseRequest(records, id, status);
            && records1.logs == records.logs && records1.statuses == records.statuses
            && records1.requests.Keys == records.requests.Keys
            && forall p <- records.requests ::
                 records1.requests[p] == if p == id then records.requests[p].(status := status) else records.requests[p]
  {
  }

  lemma CloseKeepsRuns(c: Controller, s: Scope, status: RunStatus, now: Stamp, but: set<Scope>)
    requires RunsOk(c.runs, c.records, but) && s in c.runs && but <= {s} && (but != {} ==> c.runs[s].view.pending.None?)
    ensures RunsOk(CloseRun(c, s, status, now).runs, CloseRun(c, s, status, now).records, {})
  {
    assert s !in but ==> RunOk(c.runs[s], c.records);
    CloseFrame(c, s, status, now);
    ClosedRequests(c.runs[s], c.records);
    RemoveKeepsRuns(c.runs, c.records, CloseRun(c, s, status, now).records, s);
  }

  /** What a run leaves behind of the request it waits on. */
  function RequestsClosed(a: ActiveRun, records: Records): map<string, Request> {
    if a.view.pending.Some? then CloseRequest(records, a.view.pending.value.pendingRequestId, Cancelled).requests
    else records.requests
  }

  lemma CloseFrame(c: Controller, s: Scope, status: RunStatus, now: Stamp)
    requires s in c.runs
    ensures var (a, c1) := (c.runs[s], CloseRun(c, s, status, now));
            && c1.runs == c.runs - {s} && c1.consuming == c.consuming - {s} && c1.timers == c.timers
            && c1.records.logs == c.records.logs && c1.records.statuses == c.records.statuses[a.run.runId := status]
            && c1.records.requests == RequestsClosed(a, c.records)
            && (a.completion < |c.futures| && c.futures[a.completion].None? ==>
                 c1.futures == c.futures[a.completion := Some(a.run.(status := status, updatedAt := now))])
  {
  }

  lemma ClosedRequests(a: ActiveRun, records: Records)
    requires a.view.pending.Some? ==> OpenRequestsAre(records.requests, a.run.runId, a.view.pending)
    ensures var requests := RequestsClosed(a, records);
            && requests.Keys == records.requests.Keys
            && forall p <- requests ::
                 requests[p] == records.requests[p] ||
                 (records.requests[p].runId == a.run.runId == requests[p].runId && !requests[p].status.Open?)
  {
  }

  lemma CloseKeepsInv(c: Controller, s: Scope, status: RunStatus, now: Stamp, but: set<Scope>)
    requires InvBut(c, but) && s in c.runs && forall t <- c.timers.live :: c.timers.live[t] != s
    requires but <= {s} && (but != {} ==> c.runs[s].view.pending.None?)
    ensures Inv(CloseRun(c, s, status, now))
  {
    CloseFrame(c, s, status, now);
    CloseKeepsRuns(c, s, status, now, but);
    ResolveFuture(c.runs, c.futures, s, c.runs[s].run.(status := status, updatedAt := now));
    RemoveKeepsTimers(c.runs, c.timers, c.consuming, s);
  }

  lemma RemoveKeepsTimers(runs: Runs, timers: Timers, consuming: set<Scope>, s: Scope)
    requires TimersOk(runs, timers) && ConsumersOk(runs, consuming) && forall t <- timers.live :: timers.live[t] != s
    ensures TimersOk(runs - {s}, timers) && ConsumersOk(runs - {s}, consuming - {s})
  {
  }

  lemma FinishKeepsInv(c: Controller, s: Scope, status: RunStatus, now: Stamp, but: set<Scope>)
    requires InvBut(c, but) && s in c.runs && but <= {s} && (but != {} ==> c.runs[s].view.pending.None?)
    ensures Inv(FinishRun(c, s, status, now))
  {
    var c0 := DropQueue(c, s);
    DropKeepsInv(c, s, but);
    DropFrame(c, s);
    CancelKeepsInv(c0, s, but);
    CancelFrame(c0, s);
    CancelTimersOk(c0, s);
    CloseKeepsInv(CancelTimer(c0, s), s, status, now, but);
  }

  // Consumption.

  /** A logged event keeps the view and the log of its run together, whatever it says. */
  lemma ObserveContent(a: ActiveRun, records: Records, e: AgentEvent)
    requires RunOk(a, records)
    ensures var (view1, records1) := (ReduceRunView(a.view, e), LogEvent(records, a.run.runId, e));
            && a.run.runId in records1.logs && view1.runId == a.run.runId && PendingMatchesStatus(view1)
            && ContentOf(view1) == ContentOf(FoldRunView(InitialRunView(a.run.runId), records1.logs[a.run.runId]))
  {
    var r := a.run.runId;
    ReduceKeepsPendingMatch(a.view, e);
    FoldAppend(InitialRunView(r), records.logs[r], e);
    ReduceContent(a.view, FoldRunView(InitialRunView(r), records.logs[r]), e);
  }

  lemma LogKeepsOthers(runs: Runs, records: Records, s: Scope, e: AgentEvent)
    requires RunsOk(runs, records, {}) && s in runs
    ensures var records1 := LogEvent(records, runs[s].run.runId, e);
            && (forall s1 <- runs :: s1 != s ==> RunOk(runs[s1], records1))
            && (forall p <- records1.requests :: records1.requests[p].runId in records1.logs)
  {
    forall s1 <- runs | s1 != s ensures RunOk(runs[s1], LogEvent(records, runs[s].run.runId, e)) {
      assert RunOk(runs[s1], records);
    }
  }

  lemma ReplaceRun(runs: Runs, records: Records, s: Scope, a: ActiveRun)
    requires s in runs && a.run.runId == runs[s].run.runId && RunOk(a, records)
    requires forall s1 <- runs :: s1 != s ==> RunOk(runs[s1], records)
    requires forall s1 <- runs, s2 <- runs :: runs[s1].run.runId == runs[s2].run.runId ==> s1 == s2
    requires forall p <- records.requests :: records.requests[p].runId in records.logs
    ensures RunsOk(runs[s := a], records, {})
  {
  }

  /** An event that is no question to the user. */
  lemma ObserveKeepsInv(c: Controller, s: Scope, e: AgentEvent)
    requires Inv(c) && s in c.runs && c.runs[s].view.pending.None? && !e.IsPause()
    ensures Inv(Observe(c, s, e))
  {
    var a := c.runs[s];
    var c1 := Observe(c, s, e);
    assert RunOk(a, c.records);
    ObserveContent(a, c.records, e);
    LogKeepsOthers(c.runs, c.records, s, e);
    ReduceKeepsPendingMatch(a.view, e);
    assert RunOk(c1.runs[s], c1.records);
    ReplaceRun(c.runs, c1.records, s, c1.runs[s]);
    ViewUpdateKeepsRest(c, c1, s);
  }

  lemma ViewUpdateKeepsRest(c: Controller, c1: Controller, s: Scope)
    requires s in c.runs && s in c1.runs && c1.runs == c.runs[s := c1.runs[s]]
    requires c1.runs[s].timer == c.runs[s].timer && c1.runs[s].completion == c.runs[s].completion
    requires c1.runs[s].view.pending.None?
    requires FuturesOk(c.runs, c.futures) && TimersOk(c.runs, c.timers) && ConsumersOk(c.runs, c.consuming)
    ensures FuturesOk(c1.runs, c.futures) && TimersOk(c1.runs, c.timers) && ConsumersOk(c1.runs, c.consuming)
  {
    SameRunKeepsFutures(c.runs, c1.runs, c.futures, s);
    SameTimer(c.runs, c1.runs, c.timers, s);
  }

  /** Two runs may not wait on requests of the same id. */
  ghost predicate RequestIdFree(runs: Runs, s: Scope, id: string) {
    forall s1 <- runs :: s1 != s && runs[s1].view.pending.Some? ==> runs[s1].view.pending.value.pendingRequestId != id
  }

  lemma OpenRequestKeepsOthers(runs: Runs, records: Records, s: Scope, id: string, request: Request)
    requires s in runs && request.runId == runs[s].run.runId && RequestIdFree(runs, s, id)
    requires forall s1 <- runs :: s1 != s ==> RunOk(runs[s1], records)
    requires forall s1 <- runs, s2 <- runs :: runs[s1].run.runId == runs[s2].run.runId ==> s1 == s2
    ensures forall s1 <- runs :: s1 != s ==> RunOk(runs[s1], records.(requests := records.requests[id := request]))
  {
    var records1 := records.(requests := records.requests[id := request]);
    forall s1 <- runs | s1 != s ensures RunOk(runs[s1], records1) {
      assert RunOk(runs[s1], records) && runs[s1].run.runId != request.runId;
    }
  }

  lemma OpenRequestIs(
      requests: map<string, Request>, runId: string, id: string, kind: PendingKind, pending: PendingRequestView)
    requires OpenRequestsAre(requests, runId, None) && pending.pendingRequestId == id && pending.kind == kind
    ensures OpenRequestsAre(requests[id := Request(runId, kind, Open)], runId, Some(pending))
  {
  }

  lemma PausedRunOk(a: ActiveRun, a1: ActiveRun, records: Records, e: AgentEvent, kind: PendingKind)
    requires RunOk(a, records) && a.view.pending.None? && !a.timedOut && e.IsPause()
    requires (kind.UserInput? <==> e.UserInputRequested?)
    requires a1.run.runId == a.run.runId && a1.view == ReduceRunView(a.view, e) && a1.timedOut == a.timedOut
    ensures var logged := LogEvent(records, a.run.runId, e);
            RunOk(a1, logged.(requests := records.requests[e.pendingRequestId := Request(a.run.runId, kind, Open)]))
  {
    var logged := LogEvent(records, a.run.runId, e);
    LogFrame(records, a.run.runId, e);
    assert a.run.runId in logged.logs && a1.view.runId == a1.run.runId && PendingMatchesStatus(a1.view)
           && ContentOf(a1.view) == ContentOf(FoldRunView(InitialRunView(a1.run.runId), logged.logs[a.run.runId])) by {
      ObserveContent(a, records, e);
    }
    assert a1.view.pending == Some(PendingRequestView(e.pendingRequestId, kind, e.prompt, e.payload));
    OpenRequestIs(records.requests, a.run.runId, e.pendingRequestId, kind, a1.view.pending.value);
  }

  lemma PauseKeepsRuns(c: Controller, s: Scope, e: AgentEvent, kind: PendingKind)
    requires RunsOk(c.runs, c.records, {}) && s in c.runs && c.runs[s].view.pending.None? && !c.runs[s].timedOut
    requires e.IsPause()
    requires RequestIdFree(c.runs, s, e.pendingRequestId) && (kind.UserInput? <==> e.UserInputRequested?)
    ensures var c1 := Pause(Observe(c, s, e), s, e.pendingRequestId, kind); RunsOk(c1.runs, c1.records, {})
  {
    var a, c1 := c.runs[s], Pause(Observe(c, s, e), s, e.pendingRequestId, kind);
    var request := Request(a.run.runId, kind, Open);
    assert RunOk(a, c.records);
    PauseFrame(c, s, e, kind);
    LogKeepsOthers(c.runs, c.records, s, e);
    LogFrame(c.records, a.run.runId, e);
    OpenRequestKeepsOthers(c.runs, LogEvent(c.records, a.run.runId, e), s, e.pendingRequestId, request);
    PausedRunOk(a, c1.runs[s], c.records, e, kind);
    ReplaceRun(c.runs, c1.records, s, c1.runs[s]);
  }

  /** A question to the user: it is logged, shown and stored, and the consumer returns. */
  lemma PauseKeepsInv(c: Controller, s: Scope, e: AgentEvent)
    requires Inv(c) && s in c.runs && c.runs[s].view.pending.None? && !c.runs[s].timedOut && e.IsPause()
    requires RequestIdFree(c.runs, s, e.pendingRequestId)
    ensures Inv(Pause(Observe(c, s, e), s, e.pendingRequestId, if e.UserInputRequested? then UserInput else Approval))
  {
    var kind := if e.UserInputRequested? then UserInput else Approval;
    PauseFrame(c, s, e, kind);
    PauseKeepsRuns(c, s, e, kind);
    LeaveConsumption(c, Pause(Observe(c, s, e), s, e.pendingRequestId, kind), s);
  }

  lemma LeaveConsumption(c: Controller, c1: Controller, s: Scope)
    requires FuturesOk(c.runs, c.futures) && TimersOk(c.runs, c.timers) && ConsumersOk(c.runs, c.consuming)
    requires s in c.runs && s in c1.runs && c1.runs == c.runs[s := c1.runs[s]] && c1.runs[s].timer.None?
    requires c1.runs[s].completion == c.runs[s].completion
    requires c1.timers == CancelTimer(c, s).timers && c1.futures == c.futures && c1.consuming == c.consuming - {s}
    ensures FuturesOk(c1.runs, c1.futures) && TimersOk(c1.runs, c1.timers) && ConsumersOk(c1.runs, c1.consuming)
  {
    CancelTimersOk(c, s);
    CancelFrame(c, s);
    SameTimer(CancelTimer(c, s).runs, c1.runs, c1.timers, s);
    SameRunKeepsFutures(c.runs, c1.runs, c.futures, s);
  }

  lemma LogFrame(records: Records, runId: string, e: AgentEvent)
    ensures LogEvent(records, runId, e).requests == records.requests
    ensures LogEvent(records, runId, e).statuses == records.statuses
  {
  }

  lemma PauseFrame(c: Controller, s: Scope, e: AgentEvent, kind: PendingKind)
    requires s in c.runs && e.IsPause()
    ensures var (a, id) := (c.runs[s], e.pendingRequestId);
            var c1 := Pause(Observe(c, s, e), s, id, kind);
            && c1.timers == CancelTimer(c, s).timers && c1.futures == c.futures && c1.consuming == c.consuming - {s}
            && s in c1.runs && c1.runs == c.runs[s := c1.runs[s]]
            && c1.runs[s] == a.(view := ReduceRunView(a.view, e), timer := None, run := c1.runs[s].run)
            && c1.runs[s].run.runId == a.run.runId
            && c1.records == LogEvent(c.records, a.run.runId, e).(
                 requests := c.records.requests[id := Request(a.run.runId, kind, Open)])
  {
    var c1 := Pause(Observe(c, s, e), s, e.pendingRequestId, kind);
    assert c1.runs == c.runs[s := c1.runs[s]];
  }

  lemma QueuedTurnKeepsInv(c: Controller, s: Scope, env: TurnEnv)
    requires Inv(c) && s in c.runs && c.runs[s].queue != [] && c.runs[s].timer.None? && env.runId !in c.records.logs
    requires !c.runs[s].timedOut
    ensures Inv(StartQueuedNextTurn(c, s, env))
  {
    var a, merged := c.runs[s], PopNext(c.runs[s].queue, MERGE_WINDOW).value;
    var (c1, run, session) := BeginTurn(c, s, merged.userId, merged.prompt, env);
    BeginKeepsInv(c, s, merged.userId, merged.prompt, env);
    BeginTurnFrame(c, s, merged.userId, merged.prompt, env);
    ReplaceTurnKeepsInv(c1, StartQueuedNextTurn(c, s, env), s);
  }

  lemma ReplaceTurnKeepsInv(c: Controller, c1: Controller, s: Scope)
    requires Inv(c) && s in c.runs && s in c1.runs && c1.runs == c.runs[s := c1.runs[s]]
    requires c1.futures == c.futures && c1.timers == c.timers && c1.consuming == c.consuming && c1.records == c.records
    requires IsNewRun(c1.runs[s], c.records) && c.runs[s].timer.None? && c1.runs[s].completion == c.runs[s].completion
    requires forall s1 <- c.runs :: c.runs[s1].run.runId != c1.runs[s].run.runId
    ensures Inv(c1)
  {
    NewRunOk(c.runs, c.records, s, c1.runs[s]);
    ViewUpdateKeepsRest(c, c1, s);
  }

  lemma EndTurnKeepsInv(c: Controller, s: Scope, env: TurnEnv)
    requires Inv(c) && s in c.runs && !c.runs[s].timedOut && env.runId !in c.records.logs
    ensures Inv(EndTurn(c, s, env))
  {
    var c1 := CancelTimer(c, s);
    CancelKeepsInv(c, s, {});
    CancelFrame(c, s);
    if c1.runs[s].queue != [] {
      QueuedTurnKeepsInv(c1, s, env);
    } else {
      FinishKeepsInv(c1, s, c1.runs[s].view.status, env.now, {});
    }
  }

  lemma ConsumeKeepsInv(c: Controller, s: Scope, event: AgentEvent, env: TurnEnv)
    requires Inv(c) && FreshIds(c, Consume(s, event, env))
    ensures Inv(ConsumeEvent(c, s, event, env))
  {
    if s in c.consuming && s in c.runs && !c.runs[s].timedOut {
      var e := Effective(c.runs[s], event);
      if e.IsPause() {
        assert e == event;
        PauseKeepsInv(c, s, e);
      } else {
        var c1 := Observe(c, s, e);
        ObserveKeepsInv(c, s, e);
        assert RunOk(c.runs[s], c.records);
        if c1.runs[s].view.status.IsTerminal() {
          EndTurnKeepsInv(c1, s, env);
        } else {
          ArmKeepsInv(c1, s);
        }
      }
    }
  }

  // Ends without a logged event.

  lemma UnloggedKeepsInv(c: Controller, s: Scope, e: AgentEvent)
    requires Inv(c) && s in c.runs && (e.RunInterrupted? || e.RunTimedOut?)
    ensures InvBut(ReduceUnlogged(c, s, e), {s})
  {
    var c1 := ReduceUnlogged(c, s, e);
    ViewUpdateKeepsRest(c, c1, s);
    OtherRunsOk(c.runs, c1.runs, c.records, s);
  }

  lemma OtherRunsOk(runs: Runs, runs1: Runs, records: Records, s: Scope)
    requires RunsOk(runs, records, {}) && s in runs && s in runs1 && runs1 == runs[s := runs1[s]]
    requires runs1[s].run.runId == runs[s].run.runId
    ensures RunsOk(runs1, records, {s})
  {
    forall s1 <- runs1 | s1 !in {s} ensures RunOk(runs1[s1], records) {
      assert RunOk(runs[s1], records);
    }
  }

  lemma EndUnloggedKeepsInv(c: Controller, s: Scope, e: AgentEvent, status: RunStatus, now: Stamp)
    requires Inv(c) && s in c.runs && (e.RunInterrupted? || e.RunTimedOut?)
    ensures Inv(EndUnlogged(c, s, e, status, now))
  {
    var c1 := ReduceUnlogged(c, s, e);
    assert InvBut(c1, {s}) by {
      UnloggedKeepsInv(c, s, e);
    }
    assert s in c1.runs && c1.runs[s].view.pending.None?;
    FinishKeepsInv(c1, s, status, now, {s});
  }

  lemma EndStreamKeepsInv(c: Controller, s: Scope, now: Stamp)
    requires Inv(c)
    ensures Inv(StreamEnds(c, s, now))
  {
    if s in c.consuming && s in c.runs {
      var c1 := CancelTimer(c, s);
      CancelKeepsInv(c, s, {});
      CancelFrame(c, s);
      if c1.runs[s].timedOut {
        EndUnloggedKeepsInv(c1, s, RunTimedOut, TimedOut, now);
      } else if c1.runs[s].stopRequested {
        EndUnloggedKeepsInv(c1, s, RunInterrupted, Interrupted, now);
      }
    }
  }

  lemma FlagInv(c: Controller, s: Scope)
    requires Inv(c) && s in c.runs
    ensures Inv(Flag(c, s)) && s in Flag(c, s).runs
    ensures Flag(c, s).runs[s] == c.runs[s].(stopRequested := true, queue := [])
  {
    var c0 := c.(runs := c.runs[s := c.runs[s].(stopRequested := true)]);
    assert RunOk(c.runs[s], c.records);
    FlagsKeepInv(c, c0, s, {});
    DropKeepsInv(c0, s, {});
    DropFrame(c0, s);
  }

  lemma StopKeepsInv(c: Controller, s: Scope, user: string, now: Stamp)
    requires Inv(c)
    ensures Inv(StopRun(c, s, user, now))
  {
    if IsActiveFor(c, s, user) {
      FlagInv(c, s);
      if c.runs[s].view.pending.Some? {
        EndUnloggedKeepsInv(Flag(c, s), s, RunInterrupted, Interrupted, now);
      }
    }
  }

  lemma QueueKeepsInv(c: Controller, s: Scope, user: string, m: QueuedMessage)
    requires Inv(c)
    ensures Inv(QueueMessage(c, s, user, m))
  {
    if IsActiveFor(c, s, user) && c.runs[s].view.pending.None? {
      FlagsKeepInv(c, QueueMessage(c, s, user, m), s, {});
    }
  }

  lemma CloseRequestKeepsOthers(runs: Runs, records: Records, s: Scope, id: string, status: RequestStatus)
    requires s in runs && id in records.requests && records.requests[id].runId == runs[s].run.runId && !status.Open?
    requires RunsOk(runs, records, {})
    ensures forall s1 <- runs :: s1 != s ==> RunOk(runs[s1], CloseRequest(records, id, status))
  {
    CloseRequestFrame(records, id, status);
    forall s1 <- runs | s1 != s ensures RunOk(runs[s1], CloseRequest(records, id, status)) {
      assert RunOk(runs[s1], records) && runs[s1].run.runId != runs[s].run.runId;
    }
  }

  /** An accepted answer closes the request before anything is consumed again. */
  lemma ResolveKeepsInv(c: Controller, s: Scope)
    requires Inv(c) && s in c.runs && c.runs[s].view.pending.Some?
    ensures Inv(ResolvePending(c, s))
  {
    var a, id := c.runs[s], c.runs[s].view.pending.value.pendingRequestId;
    assert RunOk(a, c.records);
    var records1, a1 := CloseRequest(c.records, id, Resolved), a.(view := a.view.(status := Running, pending := None));
    var c1 := c.(records := records1, runs := c.runs[s := a1], consuming := c.consuming + {s});
    CloseRequestFrame(c.records, id, Resolved);
    CloseRequestKeepsOthers(c.runs, c.records, s, id, Resolved);
    assert RunOk(a1, records1);
    ReplaceRun(c.runs, records1, s, a1);
    ViewUpdateKeepsRest(c, c1.(consuming := c.consuming), s);
    assert ConsumersOk(c1.runs, c1.consuming);
    ArmKeepsInv(c1, s);
  }

  lemma FireTimersOk(runs: Runs, timers: Timers, t: nat)
    requires TimersOk(runs, timers)
    ensures TimersOk(runs, timers.(live := timers.live - {t}))
  {
  }

  lemma FireKeepsInv(c: Controller, t: nat)
    requires Inv(c)
    ensures Inv(TimerFires(c, t))
  {
    if t in c.timers.live {
      var s := c.timers.live[t];
      var c1 := c.(timers := c.timers.(live := c.timers.live - {t}));
      FireTimersOk(c.runs, c.timers, t);
      if s in c1.runs && !c1.runs[s].timedOut && c1.runs[s].view.pending.None? {
        var c2 := c1.(runs := c1.runs[s := c1.runs[s].(timedOut := true)]);
        FlagsKeepInv(c1, c2, s, {});
        DropKeepsInv(c2, s, {});
      }
    }
  }

  lemma AnswerKeepsInv(c: Controller, s: Scope, user: string, kind: PendingKind, id: Option<string>)
    requires Inv(c)
    ensures Inv(Answer(c, s, user, kind, id))
  {
    if CanAnswer(c, s, user, kind, id) {
      ResolveKeepsInv(c, s);
    }
  }

  predicate SetsTimeout(step: Step) { step.Timeout? || step.TimeoutOff? || step.TimeoutDefault? }

  lemma TimeoutKeepsInv(c: Controller, step: Step)
    requires Inv(c) && SetsTimeout(step)
    ensures Inv(Next(c, step))
  {
    match step
    case Timeout(s, seconds) => ArmKeepsInv(c.(overrides := c.overrides[s := Some(seconds)]), s);
    case TimeoutOff(s) => CancelKeepsInv(c.(overrides := c.overrides[s := None]), s, {});
    case TimeoutDefault(s) => ArmKeepsInv(c.(overrides := c.overrides - {s}), s);
  }

  /** The step changes the session that is selected, and leaves all runs as they are. */
  predicate IsSelection(step: Step) { step.Clear? || step.ResumeSession? || step.NewSession? }

  lemma SelectionFrame(c: Controller, step: Step)
    requires IsSelection(step)
    ensures var c1 := Next(c, step);
            && c1.runs == c.runs && c1.records == c.records && c1.futures == c.futures && c1.timers == c.timers
            && c1.consuming == c.consuming && c1.history.turns == c.history.turns
            && c1.history.accepted == c.history.accepted && c1.history.fates == c.history.fates
  {
  }

  lemma SelectionKeepsInv(c: Controller, step: Step)
    requires Inv(c) && IsSelection(step)
    ensures Inv(Next(c, step))
  {
    SelectionFrame(c, step);
  }

  lemma NextKeepsInv(c: Controller, step: Step)
    requires Inv(c) && FreshIds(c, step)
    ensures Inv(Next(c, step))
  {
    match step
    case Start(s, user, text, env) => StartKeepsInv(c, s, user, text, env);
    case Consume(s, event, env) => ConsumeKeepsInv(c, s, event, env);
    case EndStream(s, now) => EndStreamKeepsInv(c, s, now);
    case Stop(s, user, now) => StopKeepsInv(c, s, user, now);
    case Queue(s, user, m) => QueueKeepsInv(c, s, user, m);
    case Reply(s, user, kind, id) => AnswerKeepsInv(c, s, user, kind, id);
    case Fire(t) => FireKeepsInv(c, t);
    case _ => if IsSelection(step) { SelectionKeepsInv(c, step); } else { TimeoutKeepsInv(c, step); }
  }

  lemma AllFreshAppend(c: Controller, steps: seq<Step>, step: Step)
    requires AllFresh(c, steps) && FreshIds(Execute(c, steps), step)
    ensures AllFresh(c, steps + [step]) && Execute(c, steps + [step]) == Next(Execute(c, steps), step)
  {
    var steps1 := steps + [step];
    assert steps1[..|steps|] == steps;
    forall i | 0 <= i < |steps1| ensures FreshIds(Execute(c, steps1[..i]), steps1[i]) {
      if i < |steps| {
        assert steps1[..i] == steps[..i] && FreshIds(Execute(c, steps[..i]), steps[i]);
      }
    }
  }

  lemma AllFreshFront(c: Controller, steps: seq<Step>)
    requires AllFresh(c, steps) && steps != []
    ensures AllFresh(c, steps[..|steps| - 1]) && FreshIds(Execute(c, steps[..|steps| - 1]), steps[|steps| - 1])
  {
    var front := steps[..|steps| - 1];
    assert forall i :: 0 <= i < |front| ==> front[..i] == steps[..i] && front[i] == steps[i];
  }

  /** In every reachable state futures, timers, consumers, pending requests, views and logs agree. */
  lemma {:induction false} ReachableKeepsInv(c: Controller, steps: seq<Step>)
    requires Inv(c) && AllFresh(c, steps)
    ensures Inv(Execute(c, steps))
  {
    if steps != [] {
      AllFreshFront(c, steps);
      ReachableKeepsInv(c, steps[..|steps| - 1]);
      NextKeepsInv(Execute(c, steps[..|steps| - 1]), steps[|steps| - 1]);
    }
  }

  lemma ControllersStartOk(settings: Settings)
    ensures Inv(NewController(settings))
  {
  }

  // Short runs.

  lemma NoSteps(c: Controller)
    ensures Execute(c, []) == c && AllFresh(c, [])
  {
  }

  lemma RunOfTwo(c: Controller, step1: Step, step2: Step)
    ensures Execute(c, [step1, step2]) == Next(Next(c, step1), step2)
    ensures FreshIds(c, step1) && FreshIds(Next(c, step1), step2) ==> AllFresh(c, [step1, step2])
  {
    assert [] + [step1] == [step1] && [step1] + [step2] == [step1, step2];
    NoSteps(c);
    ExecuteAppend(c, [], step1);
    ExecuteAppend(c, [step1], step2);
  }

  lemma RunOfThree(c: Controller, step1: Step, step2: Step, step3: Step)
    ensures var (steps, c2) := ([step1, step2, step3], Next(Next(c, step1), step2));
            && Execute(c, steps) == Next(c2, step3)
            && (FreshIds(c, step1) && FreshIds(Next(c, step1), step2) && FreshIds(c2, step3) ==> AllFresh(c, steps))
  {
    assert [step1, step2] + [step3] == [step1, step2, step3];
    RunOfTwo(c, step1, step2);
    ExecuteAppend(c, [step1, step2], step3);
  }

  lemma ExecuteAppend(c: Controller, steps: seq<Step>, step: Step)
    ensures Execute(c, steps + [step]) == Next(Execute(c, steps), step)
    ensures AllFresh(c, steps) && FreshIds(Execute(c, steps), step) ==> AllFresh(c, steps + [step])
  {
    assert (steps + [step])[..|steps|] == steps;
    if AllFresh(c, steps) && FreshIds(Execute(c, steps), step) {
      AllFreshAppend(c, steps, step);
    }
  }

  /** The state after the first step of a new controller, if that starts a run. */
  lemma FirstRunStarts(settings: Settings, s: Scope, user: string, text: string, env: TurnEnv)
    ensures FreshIds(NewController(settings), Start(s, user, text, env))
    ensures var c := Next(NewController(settings), Start(s, user, text, env));
            && c.runs.Keys == {s} && c.consuming == {s} && c.futures == [None] && c.settings == settings
            && c.runs[s] == NewRun(c.runs[s].run, user, c.runs[s].session, 0).(timer := c.runs[s].timer)
            && c.runs[s].run.runId == env.runId && c.overrides == map[]
            && c.records == Records(map[env.runId := []], map[env.runId := Running], map[])
            && TimersOk(c.runs, c.timers)
  {
    var c := NewController(settings);
    var (c1, run, session) := BeginTurn(c, s, user, text, env);
    BeginTurnFrame(c, s, user, text, env);
    ArmFrame(OpenRun(c1, s, NewRun(run, user, session, 0)), s);
  }
}
