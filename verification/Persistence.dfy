/** The persistence port over files (store/file_run_persistence.py): every write goes to the store's
    records and to a second family of records of its own. */
module Persistence {
  import opened Wrappers
  import opened AgentEvents
  import opened RunViews
  import opened ReactStates
  import opened RecordIndexes
  import opened ControllerModel
  import opened FileStores

  datatype CoreRun = CoreRun(
    scope: Scope, user: string, sessionId: string, agentName: string, turnId: string, status: RunStatus,
    createdAt: Stamp)

  datatype CorePending = CorePending(
    runId: string, kind: PendingKind, payload: Payload, status: RequestStatus, createdAt: Stamp)

  datatype CoreSession = CoreSession(
    scope: Scope, user: string, agentName: string, workspace: string, accessMode: Option<AccessMode>)

  type Logs<E> = map<string, seq<LogEntry<E>>>

  /** `_run_status` */
  function RunStatusOf(status: RunStatus): RefStatus {
    match status
    case Running => RefRunning
    case PendingUserInput => RefPending
    case PendingApproval => RefPending
    case Completed => RefCompleted
    case Failed => RefFailed
    case Interrupted => RefInterrupted
    case TimedOut => RefTimedOut
  }

  /** `_run_record` */
  function CoreOf(run: Run): Record<CoreRun> {
    Record(run.runId, run.updatedAt,
           CoreRun(run.scope, run.user, run.sessionId, run.agentName, run.turnId, run.status, run.createdAt))
  }

  /** What the store is to hold for a run. */
  function RefOf(core: Record<CoreRun>): Record<RunRef> {
    var d := core.data;
    Record(core.id, core.updatedAt,
           RunRef(d.scope, d.sessionId, d.agentName, d.sessionId, d.turnId, RunStatusOf(d.status), d.createdAt))
  }

  function ToReactEntry(e: LogEntry<AgentEvent>): LogEntry<ReactEvent> {
    match e
    case EventEntry(event) => EventEntry(ToReactEvent(event))
    case ErrorEntry(error) => ErrorEntry(error)
  }

  // Agreement of the two families.

  ghost predicate RunsAgree(refs: Files<RunRef>, cores: Files<CoreRun>) {
    && refs.Keys == cores.Keys
    && forall k <- cores :: cores[k].id == k && refs[k] == RefOf(cores[k])
  }

  ghost predicate SamePending(p: PendingRef, q: CorePending) {
    p.kind == q.kind && p.payload == q.payload && p.status == q.status && p.createdAt == q.createdAt
  }

  ghost predicate PendingsAgree(refs: Files<PendingRef>, cores: Files<CorePending>) {
    && refs.Keys == cores.Keys
    && forall k <- cores :: cores[k].id == k == refs[k].id && SamePending(refs[k].data, cores[k].data)
  }

  ghost predicate SameSession(s: SessionRef, c: CoreSession) {
    && s.owner == c.user && s.chatId == c.scope && s.agent == c.agentName && s.cwd == c.workspace
    && s.accessMode == c.accessMode
  }

  /** The times may differ, since agents date a session anew whenever they start a turn in it. */
  ghost predicate SessionsAgree(refs: Files<SessionRef>, cores: Files<CoreSession>) {
    cores.Keys <= refs.Keys && forall k <- cores :: SameSession(refs[k].data, cores[k].data)
  }

  ghost predicate LogsAgree(refs: Logs<ReactEvent>, cores: Logs<AgentEvent>) {
    && refs.Keys == cores.Keys
    && forall k <- cores :: SameLog(refs[k], cores[k])
  }

  ghost predicate SameLog(ref: seq<LogEntry<ReactEvent>>, core: seq<LogEntry<AgentEvent>>) {
    |ref| == |core| && forall i :: 0 <= i < |core| ==> ref[i] == ToReactEntry(core[i])
  }

  /** The events of a log, without the errors between them. */
  function EventsOf<E>(log: seq<LogEntry<E>>): seq<E> {
    if log == [] then []
    else EventsOf(log[..|log| - 1]) + if log[|log| - 1].EventEntry? then [log[|log| - 1].event] else []
  }

  lemma {:induction false} SameEvents(ref: seq<LogEntry<ReactEvent>>, core: seq<LogEntry<AgentEvent>>)
    requires SameLog(ref, core)
    ensures EventsOf(ref) == ToReactEvents(EventsOf(core))
  {
    if core != [] {
      SameEvents(ref[..|ref| - 1], core[..|core| - 1]);
    }
  }

  /** Replaying either log of a run shows the same. */
  lemma EitherLogReplays(ref: seq<LogEntry<ReactEvent>>, core: seq<LogEntry<AgentEvent>>, view: RunView)
    requires SameLog(ref, core)
    ensures FoldRunState(ToRunState(view), EventsOf(ref)) == ToRunState(FoldRunView(view, EventsOf(core)))
  {
    SameEvents(ref, core);
    ReducersSimulate(view, EventsOf(core));
  }

  // Recovery.

  predicate IsLiveCore(r: CoreRun) { r.status.Running? || r.status.PendingUserInput? || r.status.PendingApproval? }

  function RecoverCoreRun(r: Record<CoreRun>, now: Stamp): Record<CoreRun> {
    if IsLiveCore(r.data) then Record(r.id, now, r.data.(status := Interrupted)) else r
  }

  function RecoverCorePending(p: Record<CorePending>, now: Stamp): Record<CorePending> {
    if p.data.status.Open? then Record(p.id, now, p.data.(status := Cancelled)) else p
  }

  /** Recovering both families of runs gives families that agree. */
  lemma RecoveredRunsAgree(
      refs: Files<RunRef>, cores: Files<CoreRun>, refs1: Files<RunRef>, cores1: Files<CoreRun>, now: Stamp)
    requires RunsAgree(refs, cores)
    requires RecoveredIn(refs, refs1, refs.Keys, RecoverRun, now)
    requires RecoveredIn(cores, cores1, cores.Keys, RecoverCoreRun, now)
    ensures RunsAgree(refs1, cores1)
    ensures forall k <- cores1 :: !IsLiveCore(cores1[k].data) && !IsLive(refs1[k].data)
  {
    forall k | k in cores1 ensures cores1[k].id == k && refs1[k] == RefOf(cores1[k]) && !IsLiveCore(cores1[k].data) &&
      !IsLive(refs1[k].data) {
      assert refs[k] == RefOf(cores[k]);
    }
  }

  lemma RecoveredPendingsAgree(
      refs: Files<PendingRef>, cores: Files<CorePending>, refs1: Files<PendingRef>, cores1: Files<CorePending>,
      now: Stamp)
    requires PendingsAgree(refs, cores)
    requires RecoveredIn(refs, refs1, refs.Keys, RecoverPending, now)
    requires RecoveredIn(cores, cores1, cores.Keys, RecoverCorePending, now)
    ensures PendingsAgree(refs1, cores1)
    ensures forall k <- cores1 :: !cores1[k].data.status.Open? && !refs1[k].data.status.Open?
  {
    forall k | k in cores1 ensures cores1[k].id == k == refs1[k].id && SamePending(refs1[k].data, cores1[k].data)
                                   && !cores1[k].data.status.Open? && !refs1[k].data.status.Open? {
      assert SamePending(refs[k].data, cores[k].data);
    }
  }

  /** Nothing that recovery would touch is left. */
  ghost predicate Settled(
      runs: Files<RunRef>, coreRuns: Files<CoreRun>, pendings: Files<PendingRef>, corePendings: Files<CorePending>,
      cards: Files<CardRef>) {
    && (forall k <- runs :: !IsLive(runs[k].data)) && (forall k <- coreRuns :: !IsLiveCore(coreRuns[k].data))
    && (forall k <- pendings :: !pendings[k].data.status.Open?)
    && (forall k <- corePendings :: !corePendings[k].data.status.Open?)
    && (forall k <- cards :: !cards[k].data.status.Streaming?)
  }

  lemma RecoveredCards(was: Files<CardRef>, cards: Files<CardRef>, now: Stamp)
    requires RecoveredIn(was, cards, was.Keys, RecoverCard, now)
    ensures forall k <- cards :: !cards[k].data.status.Streaming?
  {
    forall k | k in cards ensures !cards[k].data.status.Streaming? {
      assert cards[k] == RecoverCard(was[k], now);
    }
  }

  /** All that recovery does, of both families. */
  lemma RecoveryAgrees(
      refs: Files<RunRef>, refs1: Files<RunRef>, cores: Files<CoreRun>, cores1: Files<CoreRun>,
      refPendings: Files<PendingRef>, refPendings1: Files<PendingRef>,
      corePendings: Files<CorePending>, corePendings1: Files<CorePending>,
      cards: Files<CardRef>, cards1: Files<CardRef>, now: Stamp)
    requires RunsAgree(refs, cores) && PendingsAgree(refPendings, corePendings)
    requires RecoveredIn(refs, refs1, refs.Keys, RecoverRun, now)
    requires RecoveredIn(cores, cores1, cores.Keys, RecoverCoreRun, now)
    requires RecoveredIn(refPendings, refPendings1, refPendings.Keys, RecoverPending, now)
    requires RecoveredIn(corePendings, corePendings1, corePendings.Keys, RecoverCorePending, now)
    requires RecoveredIn(cards, cards1, cards.Keys, RecoverCard, now)
    ensures RunsAgree(refs1, cores1) && PendingsAgree(refPendings1, corePendings1)
    ensures Settled(refs1, cores1, refPendings1, corePendings1, cards1)
  {
    RecoveredRunsAgree(refs, cores, refs1, cores1, now);
    RecoveredPendingsAgree(refPendings, corePendings, refPendings1, corePendings1, now);
    RecoveredCards(cards, cards1, now);
  }

  ghost predicate SameFiles(
      runs: Files<RunRef>, runs1: Files<RunRef>, coreRuns: Files<CoreRun>, coreRuns1: Files<CoreRun>,
      pendings: Files<PendingRef>,
      pendings1: Files<PendingRef>, corePendings: Files<CorePending>, corePendings1: Files<CorePending>,
      cards: Files<CardRef>, cards1: Files<CardRef>)
  {
    runs == runs1 && coreRuns == coreRuns1 && pendings == pendings1 && corePendings == corePendings1 && cards == cards1
  }

  lemma NothingToRecover<V>(was: Files<V>, files: Files<V>, recover: (Record<V>, Stamp) -> Record<V>, now: Stamp)
    requires RecoveredIn(was, files, was.Keys, recover, now) && forall k <- was :: recover(was[k], now) == was[k]
    ensures files == was
  {
  }

  /** Where nothing is live or open, recovery changes nothing. */
  lemma SettledStays(
      runs: Files<RunRef>, runs1: Files<RunRef>, coreRuns: Files<CoreRun>, coreRuns1: Files<CoreRun>,
      pendings: Files<PendingRef>,
      pendings1: Files<PendingRef>, corePendings: Files<CorePending>, corePendings1: Files<CorePending>,
      cards: Files<CardRef>, cards1: Files<CardRef>,
      now: Stamp)
    requires RecoveredIn(runs, runs1, runs.Keys, RecoverRun, now)
    requires RecoveredIn(coreRuns, coreRuns1, coreRuns.Keys, RecoverCoreRun, now)
    requires RecoveredIn(pendings, pendings1, pendings.Keys, RecoverPending, now)
    requires RecoveredIn(corePendings, corePendings1, corePendings.Keys, RecoverCorePending, now)
    requires RecoveredIn(cards, cards1, cards.Keys, RecoverCard, now)
    ensures Settled(runs, coreRuns, pendings, corePendings, cards) ==>
              SameFiles(runs, runs1, coreRuns, coreRuns1, pendings, pendings1, corePendings, corePendings1, cards,
                        cards1)
  {
    if Settled(runs, coreRuns, pendings, corePendings, cards) {
      NothingToRecover(runs, runs1, RecoverRun, now);
      NothingToRecover(coreRuns, coreRuns1, RecoverCoreRun, now);
      NothingToRecover(pendings, pendings1, RecoverPending, now);
      NothingToRecover(corePendings, corePendings1, RecoverCorePending, now);
      NothingToRecover(cards, cards1, RecoverCard, now);
    }
  }

  // What the controller sees of it all.

  ghost function LogEvents(log: Option<seq<LogEntry<AgentEvent>>>): seq<AgentEvent> {
    if log.Some? then EventsOf(log.value) else []
  }

  ghost function LoggedEvents(runs: set<string>, logs: Logs<AgentEvent>): map<string, seq<AgentEvent>> {
    map r | r in runs + logs.Keys :: LogEvents(Get(logs, r))
  }

  ghost function Statuses(runs: Files<CoreRun>): map<string, RunStatus> { map r | r in runs :: runs[r].data.status }

  ghost function Requests(pendings: Files<CorePending>): map<string, Request> {
    map p | p in pendings :: Request(pendings[p].data.runId, pendings[p].data.kind, pendings[p].data.status)
  }

  ghost function AsRecords(runs: Files<CoreRun>, logs: Logs<AgentEvent>, pendings: Files<CorePending>): Records {
    Records(LoggedEvents(runs.Keys, logs), Statuses(runs), Requests(pendings))
  }

  lemma LogsOfNewRun(runs: set<string>, logs: Logs<AgentEvent>, r: string)
    ensures var was := LoggedEvents(runs, logs);
            LoggedEvents(runs + {r}, logs) == if r in was then was else was[r := []]
  {
  }

  lemma RunWritten(runs: Files<CoreRun>, logs: Logs<AgentEvent>, pendings: Files<CorePending>, r: Record<CoreRun>)
    ensures var (was, now) := (AsRecords(runs, logs, pendings), AsRecords(runs[r.id := r], logs, pendings));
            && now.statuses == was.statuses[r.id := r.data.status] && now.requests == was.requests
            && now.logs == if r.id in was.logs then was.logs else was.logs[r.id := []]
  {
    LogsOfNewRun(runs.Keys, logs, r.id);
    assert runs[r.id := r].Keys == runs.Keys + {r.id};
  }

  function EventIn(e: LogEntry<AgentEvent>): seq<AgentEvent> { if e.EventEntry? then [e.event] else [] }

  lemma EventsAppend(log: seq<LogEntry<AgentEvent>>, e: LogEntry<AgentEvent>)
    ensures EventsOf(log + [e]) == EventsOf(log) + EventIn(e)
  {
    assert (log + [e])[..|log|] == log;
  }

  lemma LogsAfterEntry(
      runs: set<string>, logs: Logs<AgentEvent>, run: string, log: seq<LogEntry<AgentEvent>>, events: seq<AgentEvent>)
    requires EventsOf(log) == events
    ensures LoggedEvents(runs, logs[run := log]) == LoggedEvents(runs, logs)[run := events]
  {
    var now := LoggedEvents(runs, logs[run := log]);
    assert now[run] == events;
  }

  lemma LoggedSoFar(runs: set<string>, logs: Logs<AgentEvent>, run: string)
    ensures var was := LoggedEvents(runs, logs);
            (if run in was then was[run] else []) == EventsOf(if run in logs then logs[run] else [])
  {
  }

  lemma EventWritten(
      runs: Files<CoreRun>, logs: Logs<AgentEvent>, pendings: Files<CorePending>, run: string,
      log: seq<LogEntry<AgentEvent>>, e: LogEntry<AgentEvent>)
    requires log == if run in logs then logs[run] else []
    ensures var (was, now) := (AsRecords(runs, logs, pendings), AsRecords(runs, logs[run := log + [e]], pendings));
            now == was.(logs := was.logs[run := (if run in was.logs then was.logs[run] else []) + EventIn(e)])
  {
    LoggedSoFar(runs.Keys, logs, run);
    EventsAppend(log, e);
    LogsAfterEntry(runs.Keys, logs, run, log + [e], EventsOf(log) + EventIn(e));
  }

  lemma PendingWritten(
      runs: Files<CoreRun>, logs: Logs<AgentEvent>, pendings: Files<CorePending>, p: Record<CorePending>)
    ensures var (was, now) := (AsRecords(runs, logs, pendings), AsRecords(runs, logs, pendings[p.id := p]));
            now == was.(requests := was.requests[p.id := Request(p.data.runId, p.data.kind, p.data.status)])
  {
  }

  lemma RunsStillAgree(refs: Files<RunRef>, cores: Files<CoreRun>, r: Record<CoreRun>)
    requires RunsAgree(refs, cores)
    ensures RunsAgree(refs[r.id := RefOf(r)], cores[r.id := r])
  {
  }

  /** What the store is to hold for a session. */
  function SessionRefOf(id: string, c: CoreSession, now: Stamp): SessionRef {
    SessionRef(c.user, c.scope, c.agentName, Some(id), id, c.workspace, c.accessMode, "idle", now)
  }

  lemma SessionsStillAgree(refs: Files<SessionRef>, cores: Files<CoreSession>, id: string, c: CoreSession, now: Stamp)
    ensures SessionsAgree(refs, cores) ==>
              SessionsAgree(refs[id := Record(id, now, SessionRefOf(id, c, now))], cores[id := Record(id, now, c)])
    ensures Named(cores) ==> Named(cores[id := Record(id, now, c)])
  {
  }

  /** A session that is new to the port, or that keeps its data but for the status. */
  lemma StoredSessionsAgree(refs: Files<SessionRef>, cores: Files<CoreSession>, r: Record<SessionRef>)
    ensures SessionsAgree(refs, cores) &&
            (r.id in refs && r.id in cores ==> refs[r.id].data.(status := r.data.status) == r.data) ==>
              SessionsAgree(refs[r.id := r], cores)
  {
  }

  lemma PendingsStillAgree(
      refs: Files<PendingRef>, cores: Files<CorePending>, ref: Record<PendingRef>, p: Record<CorePending>)
    requires PendingsAgree(refs, cores) && ref.id == p.id && SamePending(ref.data, p.data)
    ensures PendingsAgree(refs[p.id := ref], cores[p.id := p])
  {
  }

  lemma LogsStillAgree(refs: Logs<ReactEvent>, cores: Logs<AgentEvent>, run: string, e: LogEntry<AgentEvent>)
    requires LogsAgree(refs, cores)
    ensures LogsAgree(refs[run := (if run in refs then refs[run] else []) + [ToReactEntry(e)]],
                      cores[run := (if run in cores then cores[run] else []) + [e]])
  {
  }

  class FileRunPersistence {
    const store: FileStore
    var agentSessions: Files<CoreSession>
    var runs: Files<CoreRun>
    var pendings: Files<CorePending>
    var runLogs: Logs<AgentEvent>

    /** The store is in order and both families agree. */
    ghost predicate Valid()
      reads this, store
    {
      && store.Valid()
      && RunsAgree(store.runs, runs) && PendingsAgree(store.pendings, pendings)
      && LogsAgree(store.logs, runLogs) && Named(agentSessions)
    }

    /** Every session of the port is in the store, of the same user, chat, agent, workspace and mode. */
    ghost predicate SessionsInStep()
      reads this, store
    {
      SessionsAgree(store.sessions, agentSessions)
    }

    ghost function Recorded(): Records
      reads this
    {
      AsRecords(runs, runLogs, pendings)
    }

    constructor ()
      ensures Valid() && SessionsInStep() && fresh(this) && fresh(store) && Recorded() == Records(map[], map[], map[])
    {
      store := new FileStore();
      agentSessions, runs, pendings, runLogs := map[], map[], map[], map[];
    }

    method WriteRun(r: Record<CoreRun>)
      requires Valid()
      modifies this`runs, store`runs, store`runIndex
      ensures Valid() && runs == old(runs)[r.id := r]
    {
      RunsStillAgree(store.runs, runs, r);
      store.SaveRun(RefOf(r));
      runs := runs[r.id := r];
    }

    method RecordRunCreated(run: Run)
      requires Valid()
      modifies this`runs, store`runs, store`runIndex
      ensures Valid() && runs == old(runs)[run.runId := CoreOf(run)]
      ensures Recorded() == var was := old(Recorded());
                            was.(logs := if run.runId in was.logs then was.logs else was.logs[run.runId := []],
                                 statuses := was.statuses[run.runId := run.status])
    {
      RunWritten(runs, runLogs, pendings, CoreOf(run));
      WriteRun(CoreOf(run));
    }

    method Append(run: string, e: LogEntry<AgentEvent>)
      requires Valid()
      modifies this`runLogs, store`logs
      ensures Valid() && runLogs == old(runLogs)[run := (if run in old(runLogs) then old(runLogs)[run] else []) + [e]]
    {
      LogsStillAgree(store.logs, runLogs, run, e);
      store.AppendLog(run, ToReactEntry(e));
      runLogs := runLogs[run := (if run in runLogs then runLogs[run] else []) + [e]];
    }

    method RecordRunEvent(run: string, event: AgentEvent)
      requires Valid()
      modifies this`runLogs, store`logs
      ensures Valid() && Recorded() == LogEvent(old(Recorded()), run, event)
    {
      EventWritten(runs, runLogs, pendings, run, if run in runLogs then runLogs[run] else [], EventEntry(event));
      Append(run, EventEntry(event));
    }

    /** An error is logged, but is no event. */
    method RecordRunError(run: string, error: string)
      requires Valid()
      modifies this`runLogs, store`logs
      ensures Valid() && Recorded().statuses == old(Recorded()).statuses
      ensures Recorded().requests == old(Recorded()).requests
      ensures forall r <- old(Recorded()).logs :: r in Recorded().logs && Recorded().logs[r] == old(Recorded()).logs[r]
    {
      EventWritten(runs, runLogs, pendings, run, if run in runLogs then runLogs[run] else [], ErrorEntry(error));
      Append(run, ErrorEntry(error));
    }

    /** False where the source raises: no such run. */
    method RecordRunTerminalStatus(run: string, status: RunStatus, updatedAt: Stamp) returns (ok: bool)
      requires Valid()
      modifies this`runs, store`runs, store`runIndex
      ensures Valid() && ok == (run in old(runs))
      ensures runs == if ok then old(runs)[run := Record(run, updatedAt, old(runs)[run].data.(status := status))]
              else old(runs)
      ensures ok ==> Recorded() == old(Recorded()).(statuses := old(Recorded()).statuses[run := status])
    {
      ok := run in store.runs;
      if ok {
        var r := Record(run, updatedAt, runs[run].data.(status := status));
        RunWritten(runs, runLogs, pendings, r);
        assert run in Recorded().logs;
        WriteRun(r);
      }
    }

    method WritePending(p: Record<CorePending>, ref: Record<PendingRef>)
      requires Valid() && ref.id == p.id && SamePending(ref.data, p.data)
      modifies this`pendings, store`pendings
      ensures Valid()
      ensures Recorded() ==
                var was := old(Recorded());
                was.(requests := was.requests[p.id := Request(p.data.runId, p.data.kind, p.data.status)])
    {
      PendingWritten(runs, runLogs, pendings, p);
      PendingsStillAgree(store.pendings, pendings, ref, p);
      store.SavePending(ref);
      pendings := pendings[p.id := p];
    }

    /** False where the source raises: no such run, or no session of it. */
    method OpenPendingRequest(
        run: string, id: string, requestRun: string, kind: PendingKind, payload: Payload) returns (ok: bool)
      requires Valid()
      modifies this`pendings, store`pendings
      ensures Valid() && ok == (run in runs && runs[run].data.sessionId in store.sessions)
      ensures ok ==>
                var was := old(Recorded());
                Recorded() == was.(requests := was.requests[id := Request(requestRun, kind, Open)])
      ensures !ok ==> pendings == old(pendings) && store.pendings == old(store.pendings)
    {
      ok := run in store.runs && store.runs[run].data.botSessionId in store.sessions;
      assert run in runs ==> store.runs[run] == RefOf(runs[run]);
      if ok {
        var r := store.runs[run];
        WritePending(
          Record(id, r.updatedAt, CorePending(requestRun, kind, payload, Open, r.updatedAt)),
          Record(id, r.updatedAt,
                 PendingRef(r.data.botSessionId, store.sessions[r.data.botSessionId].data.owner, r.data.scopeId, kind,
                            r.data.threadId,
                            Some(r.data.turnId), Some(id), "", payload, Open, r.updatedAt)));
      }
    }

    /** False where the source raises: for the status `open` and for an unknown request. */
    method ClosePendingRequest(id: string, status: RequestStatus, refNow: Stamp, coreNow: Stamp) returns (ok: bool)
      requires Valid()
      modifies this`pendings, store`pendings
      ensures Valid() && ok == (!status.Open? && id in old(pendings))
      ensures Recorded() == if ok then CloseRequest(old(Recorded()), id, status) else old(Recorded())
    {
      ok := store.ClosePending(id, status, refNow);
      if ok {
        var p := Record(id, coreNow, pendings[id].data.(status := status));
        PendingWritten(runs, runLogs, pendings, p);
        PendingsStillAgree(old(store.pendings), pendings,
                           Record(id, refNow, old(store.pendings)[id].data.(status := status)), p);
        pendings := pendings[id := p];
      }
    }

    method SaveAgentSession(id: string, session: CoreSession, updatedAt: Stamp)
      requires Valid()
      modifies this`agentSessions, store`sessions, store`sessionIndex
      ensures Valid() && agentSessions == old(agentSessions)[id := Record(id, updatedAt, session)]
      ensures store.sessions == old(store.sessions)[id := Record(id, updatedAt, SessionRefOf(id, session, updatedAt))]
      ensures old(SessionsInStep()) ==> SessionsInStep()
    {
      SessionsStillAgree(store.sessions, agentSessions, id, session, updatedAt);
      store.SaveSession(Record(id, updatedAt, SessionRefOf(id, session, updatedAt)));
      agentSessions := agentSessions[id := Record(id, updatedAt, session)];
    }

    /** No user's current session is one of this chat any more; other users' bindings stay. */
    method ClearCurrentSession(scope: Scope)
      modifies store`bindings
      ensures forall u <- store.bindings :: u in old(store.bindings) && store.bindings[u] == old(store.bindings)[u]
      ensures forall u <- old(store.bindings) ::
                u !in store.bindings <==>
                store.CurrentSession(u).None? && OfScope(Get(store.sessions, old(store.bindings)[u]), scope)
    {
      var todo := store.bindings.Keys;
      while todo != {}
        invariant todo <= store.bindings.Keys
        invariant forall u <- store.bindings :: u in old(store.bindings) && store.bindings[u] == old(store.bindings)[u]
        invariant forall u <- old(store.bindings) :: u !in todo ==>
                    (u !in store.bindings <==> OfScope(Get(store.sessions, old(store.bindings)[u]), scope))
        decreases |todo|
      {
        var u :| u in todo;
        todo := todo - {u};
        var id := store.bindings[u];
        if id in store.sessions && store.sessions[id].data.chatId == scope {
          store.bindings := store.bindings - {u};
        }
      }
    }

    /** All sessions of a user in a chat, newest first. */
    method ListAgentSessions(scope: Scope, user: string) returns (r: seq<Record<CoreSession>>)
      requires Valid()
      ensures IsTop(HistoryOf(agentSessions, scope, user), r, |HistoryOf(agentSessions, scope, user)|)
      ensures forall x :: x in r <==> x in HistoryOf(agentSessions, scope, user)
    {
      var found := [];
      var todo := agentSessions.Keys;
      while todo != {}
        invariant todo <= agentSessions.Keys && Listing(found, agentSessions, scope, user, todo)
        decreases |todo|
      {
        var k :| k in todo;
        var c := agentSessions[k];
        ListOne(found, agentSessions, scope, user, todo, k);
        if c.data.scope == scope && c.data.user == user {
          found := found + [c];
        }
        todo := todo - {k};
      }
      r := SortDesc(found);
      Listed(found, HistoryOf(agentSessions, scope, user));
      forall x ensures x in r <==> x in HistoryOf(agentSessions, scope, user) {
        SortMember(found, x);
      }
    }

    /** After a restart no run is live and no request open in either family, and all else is as it was;
        by SettledStays a second recovery changes nothing. */
    /** Recovers the core family. */
    method RecoverCore(now: Stamp)
      modifies this`runs, this`pendings
      ensures RecoveredIn(old(runs), runs, old(runs).Keys, RecoverCoreRun, now)
      ensures RecoveredIn(old(pendings), pendings, old(pendings).Keys, RecoverCorePending, now)
      ensures unchanged(store) && runLogs == old(runLogs) && agentSessions == old(agentSessions)
    {
      RecoverCoreRuns(now);
      RecoverCorePendings(now);
    }

    method RecoverIncomplete(now: Stamp)
      requires Valid()
      modifies this`runs, this`pendings, store`runs, store`runIndex, store`pendings, store`cards
      ensures Valid() && Settled(store.runs, runs, store.pendings, pendings, store.cards)
      ensures RecoveredIn(old(runs), runs, old(runs).Keys, RecoverCoreRun, now)
      ensures RecoveredIn(old(store.runs), store.runs, old(store.runs).Keys, RecoverRun, now)
      ensures RecoveredIn(old(pendings), pendings, old(pendings).Keys, RecoverCorePending, now)
      ensures RecoveredIn(old(store.pendings), store.pendings, old(store.pendings).Keys, RecoverPending, now)
      ensures RecoveredIn(old(store.cards), store.cards, old(store.cards).Keys, RecoverCard, now)
      ensures NoneLive(old(store.runs)) ==> store.runIndex == old(store.runIndex)
    {
      ghost var refs, cores, refPendings, corePendings, cards :=
        store.runs, runs, store.pendings, pendings, store.cards;
      store.RecoverIncomplete(now);
      RecoverCore(now);
      RecoveryAgrees(refs, store.runs, cores, runs, refPendings, store.pendings, corePendings, pendings, cards,
                     store.cards, now);
    }

    method RecoverCoreRuns(now: Stamp)
      modifies this`runs
      ensures RecoveredIn(old(runs), runs, old(runs).Keys, RecoverCoreRun, now)
    {
      var todo := runs.Keys;
      while todo != {}
        invariant todo <= old(runs).Keys
        invariant RecoveredIn(old(runs), runs, old(runs).Keys - todo, RecoverCoreRun, now)
        decreases |todo|
      {
        var k :| k in todo;
        var r := runs[k];
        if IsLiveCore(r.data) {
          runs := runs[k := Record(r.id, now, r.data.(status := Interrupted))];
        }
        todo := todo - {k};
      }
    }

    method RecoverCorePendings(now: Stamp)
      modifies this`pendings
      ensures RecoveredIn(old(pendings), pendings, old(pendings).Keys, RecoverCorePending, now)
    {
      var todo := pendings.Keys;
      while todo != {}
        invariant todo <= old(pendings).Keys
        invariant RecoveredIn(old(pendings), pendings, old(pendings).Keys - todo, RecoverCorePending, now)
        decreases |todo|
      {
        var k :| k in todo;
        var p := pendings[k];
        if p.data.status.Open? {
          pendings := pendings[k := Record(p.id, now, p.data.(status := Cancelled))];
        }
        todo := todo - {k};
      }
    }
  }

  function HistoryOf(sessions: Files<CoreSession>, scope: Scope, user: string): set<Record<CoreSession>> {
    set k | k in sessions && sessions[k].data.scope == scope && sessions[k].data.user == user :: sessions[k]
  }

  /** found lists the history but for the files still to be read. */
  ghost predicate Listing(
      found: seq<Record<CoreSession>>, sessions: Files<CoreSession>, scope: Scope, user: string, todo: set<string>)
  {
    Distinct(found) && forall x :: x in found <==> x in HistoryOf(sessions, scope, user) && x.id !in todo
  }

  lemma ListOne(
      found: seq<Record<CoreSession>>, sessions: Files<CoreSession>, scope: Scope, user: string, todo: set<string>,
      k: string)
    requires Listing(found, sessions, scope, user, todo) && k in todo && k in sessions
    requires forall j <- sessions :: sessions[j].id == j
    ensures var c := sessions[k];
            Listing(if c.data.scope == scope && c.data.user == user then found + [c]
                    else found, sessions, scope, user, todo - {k})
  {
    var c := sessions[k];
    assert forall x <- found :: x.id != k;
  }

  predicate OfScope(s: Option<Record<SessionRef>>, scope: Scope) { s.Some? && s.value.data.chatId == scope }

  lemma Listed<V>(found: seq<Record<V>>, all: set<Record<V>>)
    requires Distinct(found) && forall x :: x in found <==> x in all
    ensures IsTop(all, SortDesc(found), |all|)
  {
    assert all == set x | x in found;
    DistinctCount(found);
    SortLength(found);
    TopOfSorted(found, all, |all|);
    assert Slice(SortDesc(found), |all|) == SortDesc(found);
  }
}
