/** What becomes of the messages accepted during a run. */
module ControllerQueues {
  import opened Wrappers
  import opened AgentEvents
  import opened RunViews
  import opened MessageQueue
  import opened ControllerModel
  import opened ControllerInvariants

  function FateMessages(fate: Fate): seq<QueuedMessage> {
    match fate
    case Sent(batch, _, _) => batch
    case Dropped(messages, _, _) => messages
  }

  function Settled(fates: seq<Fate>): seq<QueuedMessage> {
    if fates == [] then [] else Settled(fates[..|fates| - 1]) + FateMessages(fates[|fates| - 1])
  }

  /** A batch is sent whole, as the prompt of a turn that was started; messages are dropped only from a
      run that was stopped or timed out. */
  ghost predicate FateOk(fate: Fate, turns: seq<StartedTurn>) {
    match fate
    case Sent(batch, rest, turn) =>
      && IsFirstBatch(batch + rest, batch, rest, MERGE_WINDOW)
      && turn < |turns| && turns[turn].prompt == JoinLines(NonEmptyTexts(batch))
    case Dropped(messages, stopRequested, timedOut) => stopRequested || timedOut
  }

  ghost predicate FatesOk(fates: seq<Fate>, turns: seq<StartedTurn>) {
    forall k :: 0 <= k < |fates| ==> FateOk(fates[k], turns)
  }

  /** The rest that a batch was cut off from is what was accepted next. */
  ghost predicate RestsOk(fates: seq<Fate>, accepted: seq<QueuedMessage>) {
    forall k :: 0 <= k < |fates| && fates[k].Sent? ==> Settled(fates[..k + 1]) + fates[k].rest <= accepted
  }

  /** A turn carries one batch of one chain. */
  ghost predicate OnePerTurn(fates: seq<seq<Fate>>) {
    forall f, k, g, l :: 0 <= f < |fates| && 0 <= k < |fates[f]| && 0 <= g < |fates| && 0 <= l < |fates[g]| ==>
      SameTurn(fates[f][k], fates[g][l]) ==> f == g && k == l
  }

  ghost predicate SameTurn(a: Fate, b: Fate) { a.Sent? && b.Sent? && a.turn == b.turn }

  ghost predicate HistoryOk(h: History) {
    && |h.accepted| == |h.fates| && OnePerTurn(h.fates)
    && (forall f :: 0 <= f < |h.fates| ==> RestsOk(h.fates[f], h.accepted[f]))
    && (forall f :: 0 <= f < |h.fates| ==> FatesOk(h.fates[f], h.turns))
  }

  /** Per chain of turns: the accepted messages are, in order, those settled and those still queued. */
  ghost predicate AllThere(runs: Runs, futures: seq<Option<Run>>, h: History) {
    && |h.accepted| == |futures| && |h.fates| == |futures|
    && (forall s <- runs :: runs[s].completion < |futures| ==>
          Settled(h.fates[runs[s].completion]) + runs[s].queue == h.accepted[runs[s].completion])
    && (forall f :: 0 <= f < |futures| && futures[f].Some? ==> Settled(h.fates[f]) == h.accepted[f])
  }

  ghost predicate ChainsOk(runs: Runs, futures: seq<Option<Run>>, h: History) {
    AllThere(runs, futures, h) && HistoryOk(h)
  }

  ghost predicate QueuesOk(c: Controller) { ChainsOk(c.runs, c.futures, c.history) }

  lemma SettledAppend(fates: seq<Fate>, fate: Fate)
    ensures Settled(fates + [fate]) == Settled(fates) + FateMessages(fate)
  {
    assert (fates + [fate])[..|fates|] == fates;
  }

  lemma TurnsGrow(fates: seq<Fate>, turns: seq<StartedTurn>, turns1: seq<StartedTurn>)
    requires FatesOk(fates, turns) && turns <= turns1
    ensures FatesOk(fates, turns1)
  {
    forall k | 0 <= k < |fates| ensures FateOk(fates[k], turns1) {
      assert FateOk(fates[k], turns);
    }
  }

  /** Steps that leave queues, futures and fates alone. */
  ghost predicate SameQueues(runs: Runs, runs1: Runs) {
    && runs1.Keys == runs.Keys
    && forall s <- runs :: runs1[s].queue == runs[s].queue && runs1[s].completion == runs[s].completion
  }

  lemma SameQueuesOk(c: Controller, c1: Controller)
    requires QueuesOk(c) && SameQueues(c.runs, c1.runs) && c1.futures == c.futures
    requires c1.history.accepted == c.history.accepted && c1.history.fates == c.history.fates
    requires c.history.turns <= c1.history.turns
    ensures QueuesOk(c1)
  {
    forall f | 0 <= f < |c1.futures| ensures FatesOk(c1.history.fates[f], c1.history.turns) {
      TurnsGrow(c.history.fates[f], c.history.turns, c1.history.turns);
    }
  }

  lemma RestsAppend(fates: seq<Fate>, accepted: seq<QueuedMessage>, fate: Fate)
    requires RestsOk(fates, accepted) && (fate.Sent? ==> Settled(fates + [fate]) + fate.rest == accepted)
    ensures RestsOk(fates + [fate], accepted)
  {
    var fates1 := fates + [fate];
    forall k | 0 <= k < |fates1| && fates1[k].Sent? ensures Settled(fates1[..k + 1]) + fates1[k].rest <= accepted {
      if k < |fates| {
        assert fates1[..k + 1] == fates[..k + 1];
      } else {
        assert fates1[..k + 1] == fates1;
      }
    }
  }

  lemma RestsLater(fates: seq<Fate>, accepted: seq<QueuedMessage>, m: QueuedMessage)
    requires RestsOk(fates, accepted)
    ensures RestsOk(fates, accepted + [m])
  {
    forall k | 0 <= k < |fates| && fates[k].Sent? ensures Settled(fates[..k + 1]) + fates[k].rest <= accepted + [m] {
      assert Settled(fates[..k + 1]) + fates[k].rest <= accepted;
    }
  }

  lemma OnePerTurnAppend(fates: seq<seq<Fate>>, turns: seq<StartedTurn>, f: nat, fate: Fate)
    requires OnePerTurn(fates) && f < |fates| && (fate.Sent? ==> fate.turn == |turns|)
    requires forall g :: 0 <= g < |fates| ==> FatesOk(fates[g], turns)
    ensures OnePerTurn(fates[f := fates[f] + [fate]])
  {
    forall g, k | 0 <= g < |fates| && 0 <= k < |fates[g]| ensures !SameTurn(fates[g][k], fate) {
      assert FateOk(fates[g][k], turns);
    }
  }

  lemma SettleKeepsAll(
      runs: Runs, runs1: Runs, futures: seq<Option<Run>>, h: History, h1: History, s: Scope, fate: Fate)
    requires FuturesOk(runs, futures) && AllThere(runs, futures, h) && s in runs && s in runs1
    requires runs1 == runs[s := runs1[s]] && runs1[s].completion == runs[s].completion
    requires FateMessages(fate) + runs1[s].queue == runs[s].queue
    requires h1.accepted == h.accepted
    requires h1.fates == h.fates[runs[s].completion := h.fates[runs[s].completion] + [fate]]
    ensures AllThere(runs1, futures, h1)
  {
    var f := runs[s].completion;
    SettledAppend(h.fates[f], fate);
    assert (Settled(h.fates[f]) + FateMessages(fate)) + runs1[s].queue ==
           Settled(h.fates[f]) + (FateMessages(fate) + runs1[s].queue);
    forall x | x in runs1 && runs1[x].completion < |futures|
      ensures Settled(h1.fates[runs1[x].completion]) + runs1[x].queue == h1.accepted[runs1[x].completion]
    {
      if x != s {
        assert runs1[x] == runs[x] && runs[x].completion != f;
        assert h1.fates[runs[x].completion] == h.fates[runs[x].completion];
      }
    }
  }

  lemma FateAdds(h: History, h1: History, f: nat, fate: Fate)
    requires HistoryOk(h) && f < |h.fates| && FateOk(fate, h1.turns) && h.turns <= h1.turns
    requires fate.Sent? ==> fate.turn == |h.turns| && Settled(h.fates[f] + [fate]) + fate.rest == h.accepted[f]
    requires h1.accepted == h.accepted && h1.fates == h.fates[f := h.fates[f] + [fate]]
    ensures HistoryOk(h1)
  {
    RestsAppend(h.fates[f], h.accepted[f], fate);
    OnePerTurnAppend(h.fates, h.turns, f, fate);
    forall g | 0 <= g < |h.fates| ensures FatesOk(h1.fates[g], h1.turns) {
      TurnsGrow(h.fates[g], h.turns, h1.turns);
    }
  }

  /** One chain gets a new fate and its queue shrinks accordingly. */
  lemma SettleOk(runs: Runs, runs1: Runs, futures: seq<Option<Run>>, h: History, h1: History, s: Scope, fate: Fate)
    requires FuturesOk(runs, futures) && ChainsOk(runs, futures, h) && s in runs && s in runs1
    requires runs1 == runs[s := runs1[s]] && runs1[s].completion == runs[s].completion
    requires FateMessages(fate) + runs1[s].queue == runs[s].queue && FateOk(fate, h1.turns) && h.turns <= h1.turns
    requires fate.Sent? ==> fate.rest == runs1[s].queue && fate.turn == |h.turns|
    requires h1.accepted == h.accepted
    requires h1.fates == h.fates[runs[s].completion := h.fates[runs[s].completion] + [fate]]
    ensures ChainsOk(runs1, futures, h1)
  {
    SettleKeepsAll(runs, runs1, futures, h, h1, s, fate);
    FateAdds(h, h1, runs[s].completion, fate);
  }

  lemma DropOk(c: Controller, s: Scope)
    requires FuturesOk(c.runs, c.futures) && QueuesOk(c) && s in c.runs
    requires c.runs[s].queue != [] ==> c.runs[s].stopRequested || c.runs[s].timedOut
    ensures QueuesOk(DropQueue(c, s))
  {
    var a := c.runs[s];
    if a.queue != [] {
      DropFrame(c, s);
      var c1 := DropQueue(c, s);
      assert a.queue + c1.runs[s].queue == a.queue;
      SettleOk(c.runs, c1.runs, c.futures, c.history, c1.history, s, Dropped(a.queue, a.stopRequested, a.timedOut));
    }
  }

  lemma CloseOk(c: Controller, s: Scope, status: RunStatus, now: Stamp)
    requires FuturesOk(c.runs, c.futures) && QueuesOk(c) && s in c.runs && c.runs[s].queue == []
    ensures QueuesOk(CloseRun(c, s, status, now))
  {
    var f := c.runs[s].completion;
    assert Settled(c.history.fates[f]) + [] == Settled(c.history.fates[f]);
  }

  lemma CancelOk(c: Controller, s: Scope)
    requires QueuesOk(c)
    ensures QueuesOk(CancelTimer(c, s))
  {
    CancelFrame(c, s);
    SameQueuesOk(c, CancelTimer(c, s));
  }

  lemma ArmOk(c: Controller, s: Scope)
    requires QueuesOk(c)
    ensures QueuesOk(ArmTimer(c, s))
  {
    ArmFrame(c, s);
    SameQueuesOk(c, ArmTimer(c, s));
  }

  lemma FinishOk(c: Controller, s: Scope, status: RunStatus, now: Stamp)
    requires FuturesOk(c.runs, c.futures) && QueuesOk(c) && s in c.runs
    requires c.runs[s].queue != [] ==> c.runs[s].stopRequested || c.runs[s].timedOut
    ensures QueuesOk(FinishRun(c, s, status, now))
  {
    var c0 := DropQueue(c, s);
    DropOk(c, s);
    DropFrame(c, s);
    SameRunKeepsFutures(c.runs, c0.runs, c.futures, s);
    CancelOk(c0, s);
    CancelFrame(c0, s);
    SameRunKeepsFutures(c0.runs, CancelTimer(c0, s).runs, c.futures, s);
    CloseOk(CancelTimer(c0, s), s, status, now);
  }

  lemma BeginGrowsTurns(c: Controller, s: Scope, user: string, prompt: string, env: TurnEnv)
    ensures var (c1, run, session) := BeginTurn(c, s, user, prompt, env);
            && c1.history.turns == c.history.turns + [StartedTurn(s, env.runId, prompt, session, c.settings)]
            && c1.history.accepted == c.history.accepted && c1.history.fates == c.history.fates
  {
  }

  lemma OpenOk(c: Controller, s: Scope, a: ActiveRun)
    requires FuturesOk(c.runs, c.futures) && QueuesOk(c) && s !in c.runs && a.completion == |c.futures| && a.queue == []
    ensures QueuesOk(OpenRun(c, s, a))
  {
    var h, h1 := c.history, OpenRun(c, s, a).history;
    NewChainKeepsHistory(h, h1);
    NewChainKeepsAll(c.runs, c.futures, h, h1, s, a);
  }

  lemma NewChainKeepsHistory(h: History, h1: History)
    requires HistoryOk(h) && h1.turns == h.turns && h1.accepted == h.accepted + [[]] && h1.fates == h.fates + [[]]
    ensures HistoryOk(h1)
  {
  }

  lemma NewChainKeepsAll(runs: Runs, futures: seq<Option<Run>>, h: History, h1: History, s: Scope, a: ActiveRun)
    requires FuturesOk(runs, futures) && AllThere(runs, futures, h) && s !in runs && a.completion == |futures|
    requires a.queue == []
    requires h1.accepted == h.accepted + [[]] && h1.fates == h.fates + [[]]
    ensures AllThere(runs[s := a], futures + [None], h1)
  {
  }

  lemma StartOk(c: Controller, s: Scope, user: string, text: string, env: TurnEnv)
    requires Inv(c) && QueuesOk(c)
    ensures QueuesOk(StartTextRun(c, s, user, text, env))
  {
    if s !in c.runs {
      var (c1, run, session) := BeginTurn(c, s, user, text, env);
      BeginTurnFrame(c, s, user, text, env);
      BeginGrowsTurns(c, s, user, text, env);
      SameQueuesOk(c, c1);
      var a := NewRun(run, user, session, |c1.futures|);
      OpenOk(c1, s, a);
      ArmOk(OpenRun(c1, s, a), s);
    }
  }

  lemma QueuedTurnOk(c: Controller, s: Scope, env: TurnEnv)
    requires FuturesOk(c.runs, c.futures) && QueuesOk(c) && s in c.runs && c.runs[s].queue != []
    ensures QueuesOk(StartQueuedNextTurn(c, s, env))
  {
    var a := c.runs[s];
    var n := BatchSize(a.queue, MERGE_WINDOW);
    var batch, rest, merged := a.queue[..n], a.queue[n..], PopNext(a.queue, MERGE_WINDOW).value;
    var (c1, run, session) := BeginTurn(c, s, merged.userId, merged.prompt, env);
    var c2 := StartQueuedNextTurn(c, s, env);
    BeginTurnFrame(c, s, merged.userId, merged.prompt, env);
    BeginGrowsTurns(c, s, merged.userId, merged.prompt, env);
    BatchSizeIsMaximal(a.queue, MERGE_WINDOW);
    assert batch + rest == a.queue;
    var turn := StartedTurn(s, env.runId, merged.prompt, session, c.settings);
    var fate := Sent(batch, rest, |c.history.turns|);
    assert c2.history.turns[fate.turn] == turn && turn.prompt == JoinLines(NonEmptyTexts(batch));
    assert FateOk(fate, c2.history.turns);
    assert c2.runs == c.runs[s := c2.runs[s]];
    SettleOk(c.runs, c2.runs, c.futures, c.history, c2.history, s, fate);
  }

  lemma ObserveOk(c: Controller, s: Scope, e: AgentEvent)
    requires QueuesOk(c) && s in c.runs
    ensures QueuesOk(Observe(c, s, e))
  {
    SameQueuesOk(c, Observe(c, s, e));
  }

  lemma PauseOk(c: Controller, s: Scope, id: string, kind: PendingKind)
    requires QueuesOk(c) && s in c.runs
    ensures QueuesOk(Pause(c, s, id, kind))
  {
    CancelFrame(c, s);
    SameQueuesOk(c, Pause(c, s, id, kind));
  }

  lemma EndTurnOk(c: Controller, s: Scope, env: TurnEnv)
    requires Inv(c) && QueuesOk(c) && s in c.runs
    ensures QueuesOk(EndTurn(c, s, env))
  {
    var c1 := CancelTimer(c, s);
    CancelOk(c, s);
    CancelKeepsInv(c, s, {});
    CancelFrame(c, s);
    if c1.runs[s].queue != [] {
      QueuedTurnOk(c1, s, env);
    } else {
      FinishOk(c1, s, c1.runs[s].view.status, env.now);
    }
  }

  lemma ConsumeOk(c: Controller, s: Scope, event: AgentEvent, env: TurnEnv)
    requires Inv(c) && QueuesOk(c)
    ensures QueuesOk(ConsumeEvent(c, s, event, env))
  {
    if s in c.consuming && s in c.runs && !c.runs[s].timedOut {
      var e := Effective(c.runs[s], event);
      var c1 := Observe(c, s, e);
      ObserveOk(c, s, e);
      if e.IsPause() {
        PauseOk(c1, s, e.pendingRequestId, if e.UserInputRequested? then UserInput else Approval);
      } else {
        ObserveKeepsInv(c, s, e);
        if c1.runs[s].view.status.IsTerminal() {
          EndTurnOk(c1, s, env);
        } else {
          ArmOk(c1, s);
        }
      }
    }
  }

  lemma EndUnloggedOk(c: Controller, s: Scope, e: AgentEvent, status: RunStatus, now: Stamp)
    requires FuturesOk(c.runs, c.futures) && QueuesOk(c) && s in c.runs
    requires c.runs[s].stopRequested || c.runs[s].timedOut
    ensures QueuesOk(EndUnlogged(c, s, e, status, now))
  {
    var c1 := ReduceUnlogged(c, s, e);
    SameQueuesOk(c, c1);
    SameRunKeepsFutures(c.runs, c1.runs, c.futures, s);
    FinishOk(c1, s, status, now);
  }

  lemma EndStreamOk(c: Controller, s: Scope, now: Stamp)
    requires Inv(c) && QueuesOk(c)
    ensures QueuesOk(StreamEnds(c, s, now))
  {
    if s in c.consuming && s in c.runs {
      var c1 := CancelTimer(c, s);
      CancelOk(c, s);
      CancelKeepsInv(c, s, {});
      CancelFrame(c, s);
      if c1.runs[s].timedOut {
        EndUnloggedOk(c1, s, RunTimedOut, TimedOut, now);
      } else if c1.runs[s].stopRequested {
        EndUnloggedOk(c1, s, RunInterrupted, Interrupted, now);
      } else {
        SameQueuesOk(c1, StreamEnds(c, s, now));
      }
    }
  }

  /** Flagging a run and emptying its queue. */
  lemma FlaggedDropOk(c: Controller, s: Scope, a: ActiveRun)
    requires FuturesOk(c.runs, c.futures) && QueuesOk(c) && s in c.runs
    requires a.queue == c.runs[s].queue && a.completion == c.runs[s].completion && (a.stopRequested || a.timedOut)
    ensures QueuesOk(DropQueue(c.(runs := c.runs[s := a]), s))
  {
    var c1 := c.(runs := c.runs[s := a]);
    SameQueuesOk(c, c1);
    SameRunKeepsFutures(c.runs, c1.runs, c.futures, s);
    DropOk(c1, s);
  }

  lemma StopOk(c: Controller, s: Scope, user: string, now: Stamp)
    requires Inv(c) && QueuesOk(c)
    ensures QueuesOk(StopRun(c, s, user, now))
  {
    if IsActiveFor(c, s, user) {
      FlagInv(c, s);
      FlaggedDropOk(c, s, c.runs[s].(stopRequested := true));
      if c.runs[s].view.pending.Some? {
        EndUnloggedOk(Flag(c, s), s, RunInterrupted, Interrupted, now);
      }
    }
  }

  lemma AcceptKeepsAll(
      runs: Runs, runs1: Runs, futures: seq<Option<Run>>, h: History, h1: History, s: Scope, m: QueuedMessage)
    requires FuturesOk(runs, futures) && AllThere(runs, futures, h) && s in runs && s in runs1
    requires runs1 == runs[s := runs1[s]] && runs1[s].completion == runs[s].completion
    requires runs1[s].queue == runs[s].queue + [m]
    requires h1.fates == h.fates
    requires h1.accepted == h.accepted[runs[s].completion := h.accepted[runs[s].completion] + [m]]
    ensures AllThere(runs1, futures, h1)
  {
    var f := runs[s].completion;
    assert Settled(h.fates[f]) + (runs[s].queue + [m]) == (Settled(h.fates[f]) + runs[s].queue) + [m];
  }

  lemma AcceptKeepsHistory(h: History, h1: History, f: nat, m: QueuedMessage)
    requires HistoryOk(h) && f < |h.fates| && h1.turns == h.turns
    requires h1.fates == h.fates && h1.accepted == h.accepted[f := h.accepted[f] + [m]]
    ensures HistoryOk(h1)
  {
    RestsLater(h.fates[f], h.accepted[f], m);
  }

  lemma QueueOk(c: Controller, s: Scope, user: string, m: QueuedMessage)
    requires Inv(c) && QueuesOk(c)
    ensures QueuesOk(QueueMessage(c, s, user, m))
  {
    if IsActiveFor(c, s, user) && c.runs[s].view.pending.None? {
      var c1 := QueueMessage(c, s, user, m);
      AcceptKeepsAll(c.runs, c1.runs, c.futures, c.history, c1.history, s, m);
      AcceptKeepsHistory(c.history, c1.history, c.runs[s].completion, m);
    }
  }

  lemma ReplyOk(c: Controller, s: Scope)
    requires QueuesOk(c) && s in c.runs && c.runs[s].view.pending.Some?
    ensures QueuesOk(ResolvePending(c, s))
  {
    var c1 := AnsweredState(c, s);
    SameQueuesOk(c, c1);
    ArmOk(c1, s);
  }

  lemma FireOk(c: Controller, t: nat)
    requires Inv(c) && QueuesOk(c)
    ensures QueuesOk(TimerFires(c, t))
  {
    if t in c.timers.live {
      var s := c.timers.live[t];
      var c1 := c.(timers := c.timers.(live := c.timers.live - {t}));
      SameQueuesOk(c, c1);
      if s in c1.runs && !c1.runs[s].timedOut && c1.runs[s].view.pending.None? {
        FlaggedDropOk(c1, s, c1.runs[s].(timedOut := true));
      }
    }
  }

  lemma SelectOk(c: Controller, step: Step)
    requires QueuesOk(c) && IsSelection(step)
    ensures QueuesOk(Next(c, step))
  {
    SelectionFrame(c, step);
    SameQueuesOk(c, Next(c, step));
  }

  lemma TimeoutOk(c: Controller, s: Scope, overrides: map<Scope, Option<int>>)
    requires QueuesOk(c)
    ensures QueuesOk(ArmTimer(c.(overrides := overrides), s)) && QueuesOk(CancelTimer(c.(overrides := overrides), s))
  {
    SameQueuesOk(c, c.(overrides := overrides));
    ArmOk(c.(overrides := overrides), s);
    CancelOk(c.(overrides := overrides), s);
  }

  lemma SetTimeoutOk(c: Controller, step: Step)
    requires QueuesOk(c) && SetsTimeout(step)
    ensures QueuesOk(Next(c, step))
  {
    match step
    case Timeout(s, seconds) => TimeoutOk(c, s, c.overrides[s := Some(seconds)]);
    case TimeoutOff(s) => TimeoutOk(c, s, c.overrides[s := None]);
    case TimeoutDefault(s) => TimeoutOk(c, s, c.overrides - {s});
  }

  lemma AnswerOk(c: Controller, s: Scope, user: string, kind: PendingKind, id: Option<string>)
    requires QueuesOk(c)
    ensures QueuesOk(Answer(c, s, user, kind, id))
  {
    if CanAnswer(c, s, user, kind, id) {
      ReplyOk(c, s);
    }
  }

  lemma NextKeepsQueues(c: Controller, step: Step)
    requires Inv(c) && QueuesOk(c) && FreshIds(c, step)
    ensures QueuesOk(Next(c, step))
  {
    if step.Start? {
      StartOk(c, step.scope, step.user, step.text, step.env);
    } else if step.Consume? {
      ConsumeOk(c, step.scope, step.event, step.env);
    } else if step.EndStream? {
      EndStreamOk(c, step.scope, step.now);
    } else if step.Fire? {
      FireOk(c, step.timer);
    } else if IsSelection(step) {
      SelectOk(c, step);
    } else if SetsTimeout(step) {
      SetTimeoutOk(c, step);
    } else if step.Stop? {
      StopOk(c, step.scope, step.user, step.now);
    } else if step.Queue? {
      QueueOk(c, step.scope, step.user, step.message);
    } else {
      AnswerOk(c, step.scope, step.user, step.kind, step.id);
    }
  }

  /** Every accepted message is in exactly one place: in the batch of one started turn, dropped from a
      flagged run, or still queued; and in the order of acceptance. */
  lemma {:induction false} MessagesConserved(c: Controller, steps: seq<Step>)
    requires Inv(c) && QueuesOk(c) && AllFresh(c, steps)
    ensures Inv(Execute(c, steps)) && QueuesOk(Execute(c, steps))
  {
    ReachableKeepsInv(c, steps);
    if steps != [] {
      var front := steps[..|steps| - 1];
      AllFreshFront(c, steps);
      ReachableKeepsInv(c, front);
      MessagesConserved(c, front);
      NextKeepsQueues(Execute(c, front), steps[|steps| - 1]);
    }
  }

  lemma ControllersStartEmpty(settings: Settings)
    ensures QueuesOk(NewController(settings))
  {
  }

  // Nothing queued before a flag is sent after it.

  ghost predicate Grows(h: History, h1: History) {
    && |h.accepted| <= |h1.accepted| && |h.fates| <= |h1.fates|
    && (forall f :: 0 <= f < |h.accepted| ==> h.accepted[f] <= h1.accepted[f])
    && (forall f :: 0 <= f < |h.fates| ==> h.fates[f] <= h1.fates[f])
  }

  lemma FinishGrows(c: Controller, s: Scope, status: RunStatus, now: Stamp)
    requires s in c.runs
    ensures Grows(c.history, FinishRun(c, s, status, now).history)
  {
    DropFrame(c, s);
    CancelFrame(DropQueue(c, s), s);
  }

  lemma EndTurnGrows(c: Controller, s: Scope, env: TurnEnv)
    requires s in c.runs
    ensures Grows(c.history, EndTurn(c, s, env).history)
  {
    var c1 := CancelTimer(c, s);
    CancelFrame(c, s);
    if c1.runs[s].queue != [] {
      var merged := PopNext(c1.runs[s].queue, MERGE_WINDOW).value;
      BeginGrowsTurns(c1, s, merged.userId, merged.prompt, env);
    } else {
      FinishGrows(c1, s, c1.runs[s].view.status, env.now);
    }
  }

  lemma ConsumeGrows(c: Controller, s: Scope, event: AgentEvent, env: TurnEnv)
    ensures Grows(c.history, ConsumeEvent(c, s, event, env).history)
  {
    if s in c.consuming && s in c.runs && !c.runs[s].timedOut {
      var e := Effective(c.runs[s], event);
      var c1 := Observe(c, s, e);
      if e.IsPause() {
        CancelFrame(c1, s);
      } else if c1.runs[s].view.status.IsTerminal() {
        EndTurnGrows(c1, s, env);
      } else {
        ArmFrame(c1, s);
      }
    }
  }

  lemma EndStreamGrows(c: Controller, s: Scope, now: Stamp)
    ensures Grows(c.history, StreamEnds(c, s, now).history)
  {
    CancelFrame(c, s);
    if s in c.consuming && s in c.runs {
      var c1 := CancelTimer(c, s);
      FinishGrows(ReduceUnlogged(c1, s, RunTimedOut), s, TimedOut, now);
      FinishGrows(ReduceUnlogged(c1, s, RunInterrupted), s, Interrupted, now);
    }
  }

  lemma StopGrows(c: Controller, s: Scope, user: string, now: Stamp)
    ensures Grows(c.history, StopRun(c, s, user, now).history)
  {
    if IsActiveFor(c, s, user) && c.runs[s].view.pending.Some? {
      FinishGrows(ReduceUnlogged(Flag(c, s), s, RunInterrupted), s, Interrupted, now);
    }
  }

  lemma StartGrows(c: Controller, s: Scope, user: string, text: string, env: TurnEnv)
    ensures Grows(c.history, StartTextRun(c, s, user, text, env).history)
  {
    if s !in c.runs {
      var (c1, run, session) := BeginTurn(c, s, user, text, env);
      BeginGrowsTurns(c, s, user, text, env);
      ArmFrame(OpenRun(c1, s, NewRun(run, user, session, |c1.futures|)), s);
    }
  }

  lemma ReplyGrows(c: Controller, s: Scope)
    requires s in c.runs && c.runs[s].view.pending.Some?
    ensures Grows(c.history, ResolvePending(c, s).history)
  {
    ArmFrame(AnsweredState(c, s), s);
  }

  /** Steps that settle and accept nothing. */
  lemma OthersGrow(c: Controller, step: Step)
    requires !step.Start? && !step.Consume? && !step.EndStream? && !step.Stop? && !step.Queue? && !step.Reply?
    requires !step.Fire?
    ensures Next(c, step).history.accepted == c.history.accepted && Next(c, step).history.fates == c.history.fates
  {
    match step
    case Timeout(s, seconds) => ArmFrame(c.(overrides := c.overrides[s := Some(seconds)]), s);
    case TimeoutOff(s) => CancelFrame(c.(overrides := c.overrides[s := None]), s);
    case TimeoutDefault(s) => ArmFrame(c.(overrides := c.overrides - {s}), s);
    case Clear(s) =>
    case ResumeSession(s, user, h) =>
    case NewSession(s, user, workspace, id) =>
  }

  lemma QueueGrows(c: Controller, s: Scope, user: string, m: QueuedMessage)
    ensures Grows(c.history, QueueMessage(c, s, user, m).history)
  {
  }

  lemma FireGrows(c: Controller, t: nat)
    ensures Grows(c.history, TimerFires(c, t).history)
  {
  }

  /** What was accepted or settled stays so, in place. */
  lemma NextGrows(c: Controller, step: Step)
    ensures Grows(c.history, Next(c, step).history)
  {
    match step
    case Start(s, user, text, env) => StartGrows(c, s, user, text, env);
    case Consume(s, event, env) => ConsumeGrows(c, s, event, env);
    case EndStream(s, now) => EndStreamGrows(c, s, now);
    case Stop(s, user, now) => StopGrows(c, s, user, now);
    case Queue(s, user, m) => QueueGrows(c, s, user, m);
    case Reply(s, user, kind, id) => if CanAnswer(c, s, user, kind, id) { ReplyGrows(c, s); }
    case Fire(t) => FireGrows(c, t);
    case _ => OthersGrow(c, step);
  }

  lemma {:induction false} ExecuteGrows(c: Controller, steps: seq<Step>)
    ensures Grows(c.history, Execute(c, steps).history)
  {
    if steps != [] {
      ExecuteGrows(c, steps[..|steps| - 1]);
      NextGrows(Execute(c, steps[..|steps| - 1]), steps[|steps| - 1]);
    }
  }

  lemma {:induction false} SettledConcat(a: seq<Fate>, b: seq<Fate>)
    ensures Settled(a + b) == Settled(a) + Settled(b)
    decreases |b|
  {
    if b == [] {
      assert a + b == a;
    } else {
      var front, last := b[..|b| - 1], FateMessages(b[|b| - 1]);
      SettledConcat(a, front);
      assert (a + b)[..|a + b| - 1] == a + front;
      assert (Settled(a) + Settled(front)) + last == Settled(a) + (Settled(front) + last);
    }
  }

  /** The messages that await their fate in chain f. */
  ghost predicate Queued(c: Controller, f: nat, queue: seq<QueuedMessage>) {
    && f < |c.futures|
    && (if c.futures[f].Some? then queue == []
        else exists s :: s in c.runs && c.runs[s].completion == f && c.runs[s].queue == queue)
  }

  lemma QueuedRest(c: Controller, f: nat, queue: seq<QueuedMessage>)
    requires Inv(c) && QueuesOk(c) && Queued(c, f, queue)
    ensures Settled(c.history.fates[f]) + queue == c.history.accepted[f]
  {
    assert Settled(c.history.fates[f]) + [] == Settled(c.history.fates[f]);
  }

  lemma StopEmptiesQueue(c: Controller, s: Scope, user: string, now: Stamp)
    requires s in c.runs && user == c.runs[s].user
    ensures var runs := StopRun(c, s, user, now).runs; s in runs ==> runs[s].queue == [] && runs[s].stopRequested
  {
    DropFrame(c.(runs := c.runs[s := c.runs[s].(stopRequested := true)]), s);
    if c.runs[s].view.pending.Some? {
      FinishRemoves(ReduceUnlogged(Flag(c, s), s, RunInterrupted), s, Interrupted, now);
    }
  }

  lemma FiringEmptiesQueue(c: Controller, t: nat, s: Scope)
    requires s in c.runs && Get(c.timers.live, t) == Some(s) && !c.runs[s].timedOut && c.runs[s].view.pending.None?
    ensures var runs := TimerFires(c, t).runs; runs == c.runs[s := c.runs[s].(timedOut := true, queue := [])]
  {
    var c1 := c.(timers := c.timers.(live := c.timers.live - {t}),
                 runs := c.runs[s := c.runs[s].(timedOut := true)]);
    DropFrame(c1, s);
    assert TimerFires(c, t) == DropQueue(c1, s);
  }

  /** When a run is stopped, or its timer fires while no answer is awaited, its queue is empty. */
  lemma FlagsEmptyQueue(c: Controller, step: Step, s: Scope)
    requires Inv(c) && s in c.runs
    requires (step.Stop? && step.scope == s && step.user == c.runs[s].user) ||
             (step.Fire? && Get(c.timers.live, step.timer) == Some(s) && !c.runs[s].timedOut &&
              c.runs[s].view.pending.None?)
    ensures var runs := Next(c, step).runs;
            s in runs ==> runs[s].queue == [] && if step.Stop? then runs[s].stopRequested else runs[s].timedOut
  {
    if step.Stop? {
      StopEmptiesQueue(c, s, step.user, step.now);
    } else {
      FiringEmptiesQueue(c, step.timer, s);
    }
  }

  lemma FinishRemoves(c: Controller, s: Scope, status: RunStatus, now: Stamp)
    requires s in c.runs
    ensures s !in FinishRun(c, s, status, now).runs
  {
    DropFrame(c, s);
    CancelFrame(DropQueue(c, s), s);
  }

  lemma LaterOnly(before: seq<Fate>, after: seq<Fate>, accepted: seq<QueuedMessage>, queue: seq<QueuedMessage>)
    requires before <= after && Settled(after) + queue == accepted
    ensures Settled(before) <= accepted && Settled(after[|before|..]) <= accepted[|Settled(before)|..]
  {
    SettledConcat(before, after[|before|..]);
    assert before + after[|before|..] == after;
    PrefixThenRest(Settled(before), Settled(after[|before|..]), queue, accepted);
  }

  lemma PrefixThenRest<T>(a: seq<T>, b: seq<T>, c: seq<T>, all: seq<T>)
    requires (a + b) + c == all
    ensures a <= all && b <= all[|a|..]
  {
    assert all[..|a|] == a && all[|a|..] == b + c;
  }

  lemma AwaitedQueue(c: Controller, f: nat) returns (queue: seq<QueuedMessage>)
    requires FuturesOk(c.runs, c.futures) && f < |c.futures|
    ensures Queued(c, f, queue)
  {
    if c.futures[f].Some? {
      queue := [];
    } else {
      var s :| s in c.runs && c.runs[s].completion == f;
      queue := c.runs[s].queue;
    }
  }

  /** Between h and h1 chain f settled only messages that were not yet settled in h. */
  ghost predicate SettledSince(h: History, h1: History, f: nat) {
    && f < |h.fates| && f < |h1.fates| && f < |h1.accepted| && h.fates[f] <= h1.fates[f]
    && Settled(h.fates[f]) <= h1.accepted[f]
    && Settled(h1.fates[f][|h.fates[f]|..]) <= h1.accepted[f][|Settled(h.fates[f])|..]
  }

  /** Between h and h1 chain f settled, hence sent, only messages accepted after h. */
  ghost predicate SentOnlyLater(h: History, h1: History, f: nat) {
    && f < |h.fates| && f < |h.accepted| && f < |h1.fates| && f < |h1.accepted|
    && h.fates[f] <= h1.fates[f] && h.accepted[f] <= h1.accepted[f]
    && Settled(h1.fates[f][|h.fates[f]|..]) <= h1.accepted[f][|h.accepted[f]|..]
  }

  lemma LaterState(c: Controller, steps: seq<Step>, f: nat)
    requires Inv(c) && QueuesOk(c) && AllFresh(c, steps) && f < |c.futures|
    ensures SettledSince(c.history, Execute(c, steps).history, f)
  {
    MessagesConserved(c, steps);
    ExecuteGrows(c, steps);
    var c1 := Execute(c, steps);
    var queue := AwaitedQueue(c1, f);
    QueuedRest(c1, f, queue);
    LaterOnly(c.history.fates[f], c1.history.fates[f], c1.history.accepted[f], queue);
  }

  lemma NothingAwaited(h: History, h1: History, f: nat)
    requires SettledSince(h, h1, f) && f < |h.accepted| && Settled(h.fates[f]) == h.accepted[f]
    ensures SentOnlyLater(h, h1, f)
  {
  }

  /** Once a chain's queue is empty, as after a stop or a timeout, what is settled later, hence every
      prompt sent later, is made only of messages accepted later. */
  lemma FlaggedMessagesAreNeverSent(c: Controller, steps: seq<Step>, f: nat)
    requires Inv(c) && QueuesOk(c) && AllFresh(c, steps) && Queued(c, f, [])
    ensures SentOnlyLater(c.history, Execute(c, steps).history, f)
  {
    QueuedRest(c, f, []);
    LaterState(c, steps, f);
    NothingAwaited(c.history, Execute(c, steps).history, f);
  }
}
