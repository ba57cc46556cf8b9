/** The store of JSON files (store/file_store.py): directories are maps from ids to records, and the runs
    and the sessions also have an index file each. */
module FileStores {
  import opened Wrappers
  import opened AgentEvents
  import opened RunViews
  import opened ReactStates
  import opened RecordIndexes
  import opened ControllerModel

  datatype RefStatus = RefRunning | RefPending | RefCompleted | RefFailed | RefInterrupted | RefCancelled | RefTimedOut

  datatype RunRef = RunRef(
    scopeId: string, botSessionId: string, agent: string, threadId: string, turnId: string, status: RefStatus,
    createdAt: Stamp)

  datatype SessionRef = SessionRef(
    owner: string, chatId: string, agent: string, threadId: Option<string>, title: string, cwd: string,
    accessMode: Option<AccessMode>, status: string, createdAt: Stamp)

  datatype SessionSummary = SessionSummary(
    owner: string, title: string, agent: string, threadId: Option<string>, status: string)

  datatype PendingRef = PendingRef(
    botSessionId: string, user: string, chatId: string, kind: PendingKind, threadId: string, turnId: Option<string>,
    requestId: Option<string>, promptText: string, payload: Payload, status: RequestStatus, createdAt: Stamp)

  datatype CardStatus = Streaming | CardCompleted | CardFailed

  datatype CardRef = CardRef(runId: string, chatId: string, messageId: string, status: CardStatus, createdAt: Stamp)

  datatype LogEntry<E> = EventEntry(event: E) | ErrorEntry(error: string)

  /** For records that are no more than an id and a time. */
  datatype NoData = NoData

  type Files<V> = map<string, Record<V>>

  function SameRun(r: RunRef): RunRef { r }

  function SummaryOf(s: SessionRef): SessionSummary { SessionSummary(s.owner, s.title, s.agent, s.threadId, s.status) }

  ghost predicate Named<V>(files: Files<V>) { forall k <- files :: files[k].id == k }

  // Recovery.

  predicate IsLive(r: RunRef) { r.status.RefRunning? || r.status.RefPending? }

  function RecoverRun(r: Record<RunRef>, now: Stamp): Record<RunRef> {
    if IsLive(r.data) then Record(r.id, now, r.data.(status := RefInterrupted)) else r
  }

  function RecoverPending(p: Record<PendingRef>, now: Stamp): Record<PendingRef> {
    if p.data.status.Open? then Record(p.id, now, p.data.(status := Cancelled)) else p
  }

  function RecoverCard(c: Record<CardRef>, now: Stamp): Record<CardRef> {
    if c.data.status.Streaming? then Record(c.id, now, c.data.(status := CardFailed)) else c
  }

  // What the listings are to return.

  function RunsOf(runs: Files<RunRef>, scope: string): set<Record<RunRef>> {
    set k | k in runs && runs[k].data.scopeId == scope :: runs[k]
  }

  function SessionsOf(sessions: Files<SessionRef>, owner: string): set<Record<SessionRef>> {
    set k | k in sessions && sessions[k].data.owner == owner :: sessions[k]
  }

  lemma RunEntries(index: seq<Record<RunRef>>, runs: Files<RunRef>, scope: string, x: Record<RunRef>)
    requires Indexes(index, runs, SameRun)
    ensures x in RunsOf(runs, scope) <==> x in index && x.data.scopeId == scope
  {
    if x in RunsOf(runs, scope) {
      var k :| k in runs && runs[k] == x;
      assert Entry(runs[k], SameRun) == x;
    } else if x in index {
      assert x == Entry(runs[x.id], SameRun);
    }
  }

  /** A listing of the index is one of the files. */
  lemma ListedRuns(
      index: seq<Record<RunRef>>, runs: Files<RunRef>, scope: string, p: Record<RunRef> -> bool, limit: int)
    requires Indexes(index, runs, SameRun) && forall r: Record<RunRef> :: p(r) == (r.data.scopeId == scope)
    ensures IsTop(RunsOf(runs, scope), Slice(SortDesc(Where(index, p)), limit), limit)
  {
    forall x ensures x in RunsOf(runs, scope) <==> x in Where(index, p) {
      RunEntries(index, runs, scope, x);
      WhereMember(index, p, x);
    }
    WhereDistinct(index, p);
    TopOfSorted(Where(index, p), RunsOf(runs, scope), limit);
  }

  ghost function SummariesOf(sessions: Files<SessionRef>, owner: string): set<Record<SessionSummary>> {
    Entries(SessionsOf(sessions, owner), SummaryOf)
  }

  ghost function Entries<V(!new), W(!new)>(all: set<Record<V>>, summary: V -> W): set<Record<W>> {
    set r | r in all :: Entry(r, summary)
  }

  lemma {:induction false} EntriesCount<V(!new), W(!new)>(all: set<Record<V>>, summary: V -> W)
    requires forall a <- all, b <- all :: a.id == b.id ==> a == b
    ensures |Entries(all, summary)| == |all|
  {
    if r :| r in all {
      EntriesCount(all - {r}, summary);
      assert Entries(all, summary) == Entries(all - {r}, summary) + {Entry(r, summary)};
    }
  }

  lemma SummaryEntries(
      index: seq<Record<SessionSummary>>, sessions: Files<SessionRef>, owner: string, x: Record<SessionSummary>)
    requires Indexes(index, sessions, SummaryOf)
    ensures x in SummariesOf(sessions, owner) <==> x in index && x.data.owner == owner
  {
    if x in SummariesOf(sessions, owner) {
      var r :| r in SessionsOf(sessions, owner) && Entry(r, SummaryOf) == x;
      assert sessions[r.id] == r;
    }
    if x in index && x.data.owner == owner {
      assert x == Entry(sessions[x.id], SummaryOf) && sessions[x.id] in SessionsOf(sessions, owner);
    }
  }

  lemma ListedSummaries(
      index: seq<Record<SessionSummary>>, sessions: Files<SessionRef>, owner: string,
      p: Record<SessionSummary> -> bool, limit: int)
    requires Indexes(index, sessions, SummaryOf) && forall r: Record<SessionSummary> :: p(r) == (r.data.owner == owner)
    ensures IsTop(SummariesOf(sessions, owner), Slice(SortDesc(Where(index, p)), limit), limit)
  {
    forall x ensures x in SummariesOf(sessions, owner) <==> x in Where(index, p) {
      SummaryEntries(index, sessions, owner, x);
      WhereMember(index, p, x);
    }
    WhereDistinct(index, p);
    TopOfSorted(Where(index, p), SummariesOf(sessions, owner), limit);
  }

  /** The files behind the newest summaries are the newest files. */
  lemma ListedSessions(
      sessions: Files<SessionRef>, owner: string, top: seq<Record<SessionSummary>>, r: seq<Record<SessionRef>>,
      limit: int)
    requires Named(sessions) && IsTop(SummariesOf(sessions, owner), top, limit)
    requires |r| == |top| && forall i :: 0 <= i < |r| ==> top[i].id in sessions && r[i] == sessions[top[i].id]
    ensures IsTop(SessionsOf(sessions, owner), r, limit)
  {
    EntriesCount(SessionsOf(sessions, owner), SummaryOf);
    forall i | 0 <= i < |r| ensures r[i] in SessionsOf(sessions, owner) && top[i] == Entry(r[i], SummaryOf) {
      var s :| s in SessionsOf(sessions, owner) && top[i] == Entry(s, SummaryOf);
      assert sessions[s.id] == s;
    }
    forall x, y | x in SessionsOf(sessions, owner) && y in r ensures x in r || x.updatedAt <= y.updatedAt {
      var j :| 0 <= j < |r| && r[j] == y;
      var e := Entry(x, SummaryOf);
      assert e in SummariesOf(sessions, owner);
      if e in top {
        var i :| 0 <= i < |top| && top[i] == e;
        assert r[i] == x;
      } else {
        assert top[j] in top;
      }
    }
  }

  // The scopes by their last update.

  /** Dated mentions of the scopes: of the runs that name one, and of all sessions. */
  ghost function ScopeUpdates(runs: Files<RunRef>, sessions: Files<SessionRef>): set<(string, Stamp)> {
    (set k | k in runs && runs[k].data.scopeId != "" :: (runs[k].data.scopeId, runs[k].updatedAt)) +
    (set k | k in sessions :: (sessions[k].data.chatId, sessions[k].updatedAt))
  }

  ghost function RunMentions(entries: seq<Record<RunRef>>): set<(string, Stamp)> {
    set e | e in entries && e.data.scopeId != "" :: (e.data.scopeId, e.updatedAt)
  }

  lemma RunMentionsAppend(entries: seq<Record<RunRef>>, i: nat)
    requires i < |entries|
    ensures var (e, mentions) := (entries[i], RunMentions(entries[..i]));
            RunMentions(entries[..i + 1]) ==
              if e.data.scopeId != "" then mentions + {(e.data.scopeId, e.updatedAt)} else mentions
  {
    assert entries[..i + 1] == entries[..i] + [entries[i]];
  }

  ghost function SessionMentions(
      entries: seq<Record<SessionSummary>>, sessions: Files<SessionRef>): set<(string, Stamp)>
  {
    set e | e in entries && e.id in sessions :: (sessions[e.id].data.chatId, sessions[e.id].updatedAt)
  }

  lemma NextMention(entries: seq<Record<SessionSummary>>, e: Record<SessionSummary>, sessions: Files<SessionRef>)
    ensures SessionMentions(entries + [e], sessions) ==
            SessionMentions(entries, sessions) +
            if e.id in sessions then {(sessions[e.id].data.chatId, sessions[e.id].updatedAt)} else {}
  {
  }

  lemma IndexMentions(
      index: seq<Record<RunRef>>, runs: Files<RunRef>, sessionIndex: seq<Record<SessionSummary>>,
      sessions: Files<SessionRef>)
    requires Indexes(index, runs, SameRun) && Indexes(sessionIndex, sessions, SummaryOf)
    ensures RunMentions(index) + SessionMentions(sessionIndex, sessions) == ScopeUpdates(runs, sessions)
  {
    forall k | k in runs && runs[k].data.scopeId != ""
      ensures (runs[k].data.scopeId, runs[k].updatedAt) in RunMentions(index)
    {
      assert Entry(runs[k], SameRun) == runs[k];
    }
    forall k | k in sessions
      ensures (sessions[k].data.chatId, sessions[k].updatedAt) in SessionMentions(sessionIndex, sessions)
    {
      assert Entry(sessions[k], SummaryOf) in sessionIndex;
    }
    forall e | e in index ensures e.id in runs && runs[e.id] == e {
      assert e == Entry(runs[e.id], SameRun);
    }
  }

  /** Each scope with its last mention. */
  ghost function LastUpdates(updates: set<(string, Stamp)>): set<Record<NoData>> {
    set u | u in updates && IsLatest(updates, u) :: Record(u.0, u.1, NoData)
  }

  ghost predicate IsLatest(updates: set<(string, Stamp)>, u: (string, Stamp)) {
    forall v <- updates :: v.0 == u.0 ==> v.1 <= u.1
  }

  /** Notes a mention of a scope: a new scope is added last, one that is there gets the later time. */
  function Raise(dict: seq<Record<NoData>>, id: string, t: Stamp): seq<Record<NoData>> {
    if dict == [] then [Record(id, t, NoData)]
    else if dict[0].id != id then [dict[0]] + Raise(dict[1..], id, t)
    else if t > dict[0].updatedAt then [Record(id, t, NoData)] + dict[1..]
    else dict
  }

  /** dict holds each scope of the updates once, with its last time. */
  ghost predicate HoldsLast(dict: seq<Record<NoData>>, updates: set<(string, Stamp)>) {
    && Distinct(dict)
    && (forall e <- dict :: (e.id, e.updatedAt) in updates)
    && (forall u <- updates :: AtLeast(dict, u.0, u.1))
  }

  ghost predicate AtLeast(dict: seq<Record<NoData>>, id: string, t: Stamp) {
    exists e :: e in dict && e.id == id && t <= e.updatedAt
  }

  lemma {:induction false} RaiseMember(dict: seq<Record<NoData>>, id: string, t: Stamp, e: Record<NoData>)
    requires e in Raise(dict, id, t)
    ensures e in dict || e == Record(id, t, NoData)
  {
    if dict != [] && dict[0].id != id && e != dict[0] {
      assert Raise(dict, id, t)[1..] == Raise(dict[1..], id, t);
      RaiseMember(dict[1..], id, t, e);
    }
  }

  lemma {:induction false} RaiseDistinct(dict: seq<Record<NoData>>, id: string, t: Stamp)
    requires Distinct(dict)
    ensures Distinct(Raise(dict, id, t))
  {
    var r := Raise(dict, id, t);
    if dict != [] {
      DistinctEnds(dict);
      assert dict[0].id == id ==> r[1..] == dict[1..];
      if dict[0].id != id {
        assert r[1..] == Raise(dict[1..], id, t);
        RaiseDistinct(dict[1..], id, t);
        forall e | e in r[1..] ensures e.id != dict[0].id {
          RaiseMember(dict[1..], id, t, e);
        }
      }
      DistinctCons(r);
    }
  }

  lemma {:induction false} RaiseReaches(dict: seq<Record<NoData>>, id: string, t: Stamp)
    ensures AtLeast(Raise(dict, id, t), id, t)
  {
    var r := Raise(dict, id, t);
    assert r[0] in r;
    if dict != [] && dict[0].id != id {
      RaiseReaches(dict[1..], id, t);
      assert r[1..] == Raise(dict[1..], id, t);
      Carry(r[1..], r, id, t);
    }
  }

  lemma {:induction false} RaiseRetains(dict: seq<Record<NoData>>, id: string, t: Stamp, e: Record<NoData>)
    requires e in dict
    ensures AtLeast(Raise(dict, id, t), e.id, e.updatedAt)
  {
    var r := Raise(dict, id, t);
    assert r[0] in r;
    if e != dict[0] {
      assert e in dict[1..];
      if dict[0].id != id {
        RaiseRetains(dict[1..], id, t, e);
        assert r[1..] == Raise(dict[1..], id, t);
        Carry(r[1..], r, e.id, e.updatedAt);
      } else {
        assert r[1..] == dict[1..] && e in r;
      }
    }
  }

  lemma Carry(a: seq<Record<NoData>>, b: seq<Record<NoData>>, id: string, t: Stamp)
    requires AtLeast(a, id, t) && forall e <- a :: e in b
    ensures AtLeast(b, id, t)
  {
  }

  lemma RaiseHolds(dict: seq<Record<NoData>>, updates: set<(string, Stamp)>, id: string, t: Stamp)
    requires HoldsLast(dict, updates)
    ensures HoldsLast(Raise(dict, id, t), updates + {(id, t)})
  {
    var r := Raise(dict, id, t);
    RaiseDistinct(dict, id, t);
    RaiseReaches(dict, id, t);
    forall e | e in r ensures (e.id, e.updatedAt) in updates + {(id, t)} {
      RaiseMember(dict, id, t, e);
    }
    forall u | u in updates + {(id, t)} ensures AtLeast(r, u.0, u.1) {
      if u in updates {
        var e :| e in dict && e.id == u.0 && u.1 <= e.updatedAt;
        RaiseRetains(dict, id, t, e);
      }
    }
  }

  lemma DistinctIds<V>(s: seq<Record<V>>, a: Record<V>, b: Record<V>)
    requires Distinct(s) && a in s && b in s && a.id == b.id
    ensures a == b
  {
  }

  lemma HeldAreLast(dict: seq<Record<NoData>>, updates: set<(string, Stamp)>, x: Record<NoData>)
    requires HoldsLast(dict, updates) && x in dict
    ensures x in LastUpdates(updates)
  {
    var u := (x.id, x.updatedAt);
    forall v | v in updates && v.0 == x.id ensures v.1 <= x.updatedAt {
      var e :| e in dict && e.id == v.0 && v.1 <= e.updatedAt;
      DistinctIds(dict, e, x);
    }
    assert x.data.NoData?;
    assert IsLatest(updates, u) && u in updates && x == Record(u.0, u.1, NoData);
  }

  lemma LatestIsIt(updates: set<(string, Stamp)>, u: (string, Stamp), e: Record<NoData>)
    requires IsLatest(updates, u) && (e.id, e.updatedAt) in updates && e.id == u.0 && u.1 <= e.updatedAt
    ensures e == Record(u.0, u.1, NoData)
  {
    var v := (e.id, e.updatedAt);
    assert v.0 == u.0 && v.1 <= u.1 && e.data.NoData?;
  }

  lemma LastAreHeld(dict: seq<Record<NoData>>, updates: set<(string, Stamp)>, u: (string, Stamp))
    requires HoldsLast(dict, updates) && u in updates && IsLatest(updates, u)
    ensures Record(u.0, u.1, NoData) in dict
  {
    assert AtLeast(dict, u.0, u.1);
    var e :| e in dict && e.id == u.0 && u.1 <= e.updatedAt;
    LatestIsIt(updates, u, e);
  }

  lemma TopScopes(dict: seq<Record<NoData>>, updates: set<(string, Stamp)>, limit: int)
    requires HoldsLast(dict, updates)
    ensures IsTop(LastUpdates(updates), Slice(SortDesc(dict), limit), limit)
  {
    forall x ensures x in LastUpdates(updates) <==> x in dict {
      if x in dict {
        HeldAreLast(dict, updates, x);
      } else if x in LastUpdates(updates) {
        var u :| u in updates && IsLatest(updates, u) && x == Record(u.0, u.1, NoData);
        LastAreHeld(dict, updates, u);
      }
    }
    TopOfSorted(dict, LastUpdates(updates), limit);
  }

  function IdsOf(s: seq<Record<NoData>>): seq<string> { seq(|s|, (i: nat) requires i < |s| => s[i].id) }

  /** The oldest open request of a user, if there is any. */
  ghost predicate IsOldestOpen(pendings: Files<PendingRef>, user: string, r: Option<Record<PendingRef>>) {
    match r
    case None => forall k <- pendings :: !OpenFor(pendings[k].data, user)
    case Some(p) =>
      && p.id in pendings && pendings[p.id] == p && OpenFor(p.data, user)
      && forall k <- pendings :: OpenFor(pendings[k].data, user) ==> p.data.createdAt <= pendings[k].data.createdAt
  }

  predicate OpenFor(p: PendingRef, user: string) { p.user == user && p.status.Open? }

  /** The files of a directory after recovery, where ids names those that were visited. */
  ghost predicate RecoveredIn<V>(
      was: Files<V>, files: Files<V>, visited: set<string>, recover: (Record<V>, Stamp) -> Record<V>, now: Stamp)
  {
    && files.Keys == was.Keys
    && forall k <- was :: files[k] == if k in visited then recover(was[k], now) else was[k]
  }

  ghost predicate NoneLive(runs: Files<RunRef>) { forall k <- runs :: !IsLive(runs[k].data) }

  ghost predicate VisitedFirst(entries: seq<Record<RunRef>>, i: nat, visited: set<string>) {
    i <= |entries| && forall j :: 0 <= j < i ==> entries[j].id in visited
  }

  lemma EntryIsFile(entries: seq<Record<RunRef>>, runs: Files<RunRef>, i: nat)
    requires Indexes(entries, runs, SameRun) && i < |entries|
    ensures entries[i].id in runs && entries[i] == runs[entries[i].id]
  {
    assert entries[i] in entries && entries[i] == Entry(runs[entries[i].id], SameRun);
  }

  lemma RecoverStep(
      was: Files<RunRef>, files: Files<RunRef>, files1: Files<RunRef>, visited: set<string>, e: Record<RunRef>,
      now: Stamp)
    requires RecoveredIn(was, files, visited, RecoverRun, now) && e.id in was && e == was[e.id]
    requires files1 == if IsLive(e.data) then files[e.id := RecoverRun(e, now)] else files
    ensures RecoveredIn(was, files1, visited + {e.id}, RecoverRun, now)
  {
  }

  lemma AllVisited(entries: seq<Record<RunRef>>, runs: Files<RunRef>, visited: set<string>)
    requires Indexes(entries, runs, SameRun) && VisitedFirst(entries, |entries|, visited)
    ensures forall k <- runs :: k in visited
  {
    forall k | k in runs ensures k in visited {
      var j :| 0 <= j < |entries| && entries[j] == Entry(runs[k], SameRun);
    }
  }

  lemma SavedSessionIsIndexed(index: seq<Record<SessionSummary>>, files: Files<SessionRef>, r: Record<SessionRef>)
    requires Indexes(index, files, SummaryOf)
    ensures var index1 := SortDesc(Others(index, r.id) + [Entry(r, SummaryOf)]);
            index1 == Put(index, Entry(r, SummaryOf)) && Indexes(index1, files[r.id := r], SummaryOf)
  {
    PutKeepsIndex(index, files, SummaryOf, r);
  }

  class FileStore {
    var runs: Files<RunRef>
    var runIndex: seq<Record<RunRef>>
    var sessions: Files<SessionRef>
    var sessionIndex: seq<Record<SessionSummary>>
    /** The current session of each user. */
    var bindings: map<string, string>
    var pendings: Files<PendingRef>
    var cards: Files<CardRef>
    var logs: map<string, seq<LogEntry<ReactEvent>>>

    ghost predicate Valid()
      reads this
    {
      && Indexes(runIndex, runs, SameRun)
      && Indexes(sessionIndex, sessions, SummaryOf)
      && Named(pendings) && Named(cards)
    }

    constructor ()
      ensures Valid() && fresh(this)
      ensures runs == map[] && sessions == map[] && bindings == map[] && pendings == map[] && cards == map[]
      ensures logs == map[]
    {
      runs, runIndex, sessions, sessionIndex, bindings, pendings, cards, logs :=
        map[], [], map[], [], map[], map[], map[], map[];
    }

    method SaveRun(r: Record<RunRef>)
      requires Valid()
      modifies this`runs, this`runIndex
      ensures Valid() && runs == old(runs)[r.id := r] && runIndex == Put(old(runIndex), r)
    {
      assert Entry(r, SameRun) == r;
      PutKeepsIndex(runIndex, runs, SameRun, r);
      runs := runs[r.id := r];
      runIndex := SortDesc(Others(runIndex, r.id) + [r]);
    }

    /** The newest runs of a scope, as many as the limit allows. */
    method ListRuns(scope: string, limit: int) returns (r: seq<Record<RunRef>>)
      requires Valid()
      ensures IsTop(RunsOf(runs, scope), r, limit)
    {
      var p := (r: Record<RunRef>) => r.data.scopeId == scope;
      r := Slice(SortDesc(Where(runIndex, p)), limit);
      ListedRuns(runIndex, runs, scope, p, limit);
    }

    method SaveSession(r: Record<SessionRef>)
      requires Valid()
      modifies this`sessions, this`sessionIndex
      ensures Valid() && sessions == old(sessions)[r.id := r]
      ensures unchanged(this`runs, this`runIndex, this`pendings, this`cards, this`bindings, this`logs)
      ensures sessionIndex == Put(old(sessionIndex), Entry(r, SummaryOf))
    {
      SavedSessionIsIndexed(sessionIndex, sessions, r);
      var index := SortDesc(Others(sessionIndex, r.id) + [Entry(r, SummaryOf)]);
      sessions, sessionIndex := sessions[r.id := r], index;
    }

    /** The newest sessions of a user, as many as the limit allows. */
    method ListSessions(owner: string, limit: int) returns (r: seq<Record<SessionRef>>)
      requires Valid()
      ensures IsTop(SessionsOf(sessions, owner), r, limit)
    {
      var p := (e: Record<SessionSummary>) => e.data.owner == owner;
      var summaries := Slice(SortDesc(Where(sessionIndex, p)), limit);
      ListedSummaries(sessionIndex, sessions, owner, p, limit);
      r := [];
      for i := 0 to |summaries|
        invariant |r| == i && forall j :: 0 <= j < i ==>
                    summaries[j].id in sessions && r[j] == sessions[summaries[j].id]
      {
        assert summaries[i] in SummariesOf(sessions, owner);
        if summaries[i].id in sessions {
          r := r + [sessions[summaries[i].id]];
        }
      }
      ListedSessions(sessions, owner, summaries, r, limit);
    }

    method SetCurrentSession(user: string, id: string)
      modifies this`bindings
      ensures bindings == old(bindings)[user := id]
    {
      bindings := bindings[user := id];
    }

    /** `get_current_session` */
    ghost function CurrentSession(user: string): Option<Record<SessionRef>>
      reads this
    {
      if user in bindings then Get(sessions, bindings[user]) else None
    }

    method SavePending(p: Record<PendingRef>)
      requires Valid()
      modifies this`pendings
      ensures Valid() && pendings == old(pendings)[p.id := p]
    {
      pendings := pendings[p.id := p];
    }

    /** Fails for the status `open` and for a request that was never saved. */
    method ClosePending(id: string, status: RequestStatus, now: Stamp) returns (ok: bool)
      requires Valid()
      modifies this`pendings
      ensures Valid() && ok == (!status.Open? && id in old(pendings))
      ensures pendings == if ok then old(pendings)[id := Record(id, now, old(pendings)[id].data.(status := status))]
              else old(pendings)
    {
      ok := !status.Open? && id in pendings;
      if ok {
        SavePending(Record(id, now, pendings[id].data.(status := status)));
      }
    }

    method GetOpenPendingByUser(user: string) returns (r: Option<Record<PendingRef>>)
      requires Valid()
      ensures IsOldestOpen(pendings, user, r)
    {
      r := None;
      var todo := pendings.Keys;
      while todo != {}
        invariant todo <= pendings.Keys
        invariant IsOldestOpen(map k | k in pendings && k !in todo :: pendings[k], user, r)
        decreases |todo|
      {
        var k :| k in todo;
        todo := todo - {k};
        var p := pendings[k];
        if OpenFor(p.data, user) && (r.None? || p.data.createdAt < r.value.data.createdAt) {
          r := Some(p);
        }
      }
      assert (map k | k in pendings && k !in todo :: pendings[k]) == pendings;
    }

    method SaveCard(c: Record<CardRef>)
      requires Valid()
      modifies this`cards
      ensures Valid() && cards == old(cards)[c.id := c]
    {
      cards := cards[c.id := c];
    }

    method AppendLog(run: string, entry: LogEntry<ReactEvent>)
      modifies this`logs
      ensures logs == old(logs)[run := (if run in old(logs) then old(logs)[run] else []) + [entry]]
    {
      logs := logs[run := (if run in logs then logs[run] else []) + [entry]];
    }

    /** The scopes mentioned last, as many as the limit allows. */
    method ListPrivateChatScopeIds(limit: int) returns (scopes: seq<string>)
      requires Valid()
      ensures exists top :: IsTop(LastUpdates(ScopeUpdates(runs, sessions)), top, limit) && scopes == IdsOf(top)
    {
      var dict := RaiseByRuns();
      dict := RaiseBySessions(dict);
      IndexMentions(runIndex, runs, sessionIndex, sessions);
      TopScopes(dict, ScopeUpdates(runs, sessions), limit);
      scopes := IdsOf(Slice(SortDesc(dict), limit));
    }

    method RaiseByRuns() returns (dict: seq<Record<NoData>>)
      ensures HoldsLast(dict, RunMentions(runIndex))
    {
      dict := [];
      for i := 0 to |runIndex|
        invariant HoldsLast(dict, RunMentions(runIndex[..i]))
      {
        var e := runIndex[i];
        RunMentionsAppend(runIndex, i);
        if e.data.scopeId != "" {
          RaiseHolds(dict, RunMentions(runIndex[..i]), e.data.scopeId, e.updatedAt);
          dict := Raise(dict, e.data.scopeId, e.updatedAt);
        }
      }
      assert runIndex[..|runIndex|] == runIndex;
    }

    method RaiseBySessions(byRuns: seq<Record<NoData>>) returns (dict: seq<Record<NoData>>)
      requires HoldsLast(byRuns, RunMentions(runIndex))
      ensures HoldsLast(dict, RunMentions(runIndex) + SessionMentions(sessionIndex, sessions))
    {
      dict := byRuns;
      ghost var updates := RunMentions(runIndex);
      assert RunMentions(runIndex) + SessionMentions(sessionIndex[..0], sessions) == updates;
      for i := 0 to |sessionIndex|
        invariant updates == RunMentions(runIndex) + SessionMentions(sessionIndex[..i], sessions)
        invariant HoldsLast(dict, updates)
      {
        var e := sessionIndex[i];
        assert sessionIndex[..i + 1] == sessionIndex[..i] + [e];
        NextMention(sessionIndex[..i], e, sessions);
        if e.id in sessions {
          var s := sessions[e.id];
          RaiseHolds(dict, updates, s.data.chatId, s.updatedAt);
          updates := updates + {(s.data.chatId, s.updatedAt)};
          dict := Raise(dict, s.data.chatId, s.updatedAt);
        }
      }
      assert sessionIndex[..|sessionIndex|] == sessionIndex;
    }

    /** After a crash: what was under way is over. */
    method RecoverIncomplete(now: Stamp)
      requires Valid()
      modifies this`runs, this`runIndex, this`pendings, this`cards
      ensures Valid()
      ensures RecoveredIn(old(runs), runs, old(runs).Keys, RecoverRun, now)
      ensures RecoveredIn(old(pendings), pendings, old(pendings).Keys, RecoverPending, now)
      ensures RecoveredIn(old(cards), cards, old(cards).Keys, RecoverCard, now)
      ensures NoneLive(old(runs)) ==> runIndex == old(runIndex)
      ensures unchanged(this`sessions, this`sessionIndex, this`bindings, this`logs)
    {
      RecoverRuns(now);
      RecoverPendings(now);
      RecoverCards(now);
    }

    method RecoverIndexed(e: Record<RunRef>, now: Stamp)
      requires Valid() && e.id in runs
      modifies this`runs, this`runIndex
      ensures Valid() && runs == if IsLive(e.data) then old(runs)[e.id := RecoverRun(e, now)] else old(runs)
      ensures unchanged(this`pendings, this`cards, this`sessions, this`sessionIndex, this`bindings, this`logs)
      ensures !IsLive(e.data) ==> runIndex == old(runIndex)
    {
      if IsLive(e.data) {
        SaveRun(Record(e.id, now, e.data.(status := RefInterrupted)));
      }
    }

    method RecoverRuns(now: Stamp)
      requires Valid()
      modifies this`runs, this`runIndex
      ensures Valid() && RecoveredIn(old(runs), runs, old(runs).Keys, RecoverRun, now)
      ensures NoneLive(old(runs)) ==> runIndex == old(runIndex)
      ensures unchanged(this`pendings, this`cards, this`sessions, this`sessionIndex, this`bindings, this`logs)
    {
      var entries := runIndex;
      ghost var was, visited: set<string> := runs, {};
      for i := 0 to |entries|
        invariant Valid() && RecoveredIn(was, runs, visited, RecoverRun, now)
        invariant VisitedFirst(entries, i, visited)
        invariant NoneLive(was) ==> runIndex == entries
      {
        EntryIsFile(entries, was, i);
        ghost var before := runs;
        RecoverIndexed(entries[i], now);
        RecoverStep(was, before, runs, visited, entries[i], now);
        visited := visited + {entries[i].id};
      }
      AllVisited(entries, was, visited);
    }

    method RecoverPendings(now: Stamp)
      requires Valid()
      modifies this`pendings
      ensures Valid() && RecoveredIn(old(pendings), pendings, old(pendings).Keys, RecoverPending, now)
      ensures unchanged(this`runs, this`runIndex, this`cards, this`sessions, this`sessionIndex)
      ensures unchanged(this`bindings, this`logs)
    {
      var todo := pendings.Keys;
      while todo != {}
        invariant Valid() && todo <= old(pendings).Keys
        invariant RecoveredIn(old(pendings), pendings, old(pendings).Keys - todo, RecoverPending, now)
        decreases |todo|
      {
        var k :| k in todo;
        var p := pendings[k];
        if p.data.status.Open? {
          SavePending(Record(p.id, now, p.data.(status := Cancelled)));
        }
        todo := todo - {k};
      }
    }

    method RecoverCards(now: Stamp)
      requires Valid()
      modifies this`cards
      ensures Valid() && RecoveredIn(old(cards), cards, old(cards).Keys, RecoverCard, now)
      ensures unchanged(this`runs, this`runIndex, this`pendings, this`sessions, this`sessionIndex)
      ensures unchanged(this`bindings, this`logs)
    {
      var todo := cards.Keys;
      while todo != {}
        invariant Valid() && todo <= old(cards).Keys
        invariant RecoveredIn(old(cards), cards, old(cards).Keys - todo, RecoverCard, now)
        decreases |todo|
      {
        var k :| k in todo;
        var c := cards[k];
        if c.data.status.Streaming? {
          SaveCard(Record(c.id, now, c.data.(status := CardFailed)));
        }
        todo := todo - {k};
      }
    }
  }
}
