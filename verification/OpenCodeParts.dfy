/** What the event router remembers about message parts: texts, conflicts, types and tool
    statuses (agent/opencode_server.py). */
module OpenCodeParts {
  import opened Wrappers
  import opened AgentEvents
  import opened OpenCodeEvents

  /** session, message, part */
  type PartKey = (string, string, string)

  datatype Memory = Memory(
    types: map<PartKey, string>, texts: map<PartKey, string>, conflicts: set<PartKey>,
    toolStatuses: map<PartKey, string>)

  const NoMemory := Memory(map[], map[], {}, map[])

  function DeltaKey(raw: RawEvent): Option<PartKey> {
    var message := OrElse(raw.messageID, PartMessage(raw));
    var part := OrElse(raw.partID, if raw.part.Some? then Some(raw.part.value.id) else None);
    if raw.sessionID.Some? && message.Some? && part.Some?
    then Some((raw.sessionID.value, message.value, part.value)) else None
  }

  function UpdateKey(raw: RawEvent): Option<PartKey> {
    if raw.sessionID.Some? && raw.part.Some? && raw.part.value.messageID.Some?
    then Some((raw.sessionID.value, raw.part.value.messageID.value, raw.part.value.id)) else None
  }

  /** `_remember_part_delta` */
  function RememberDelta(m: Memory, raw: RawEvent): Memory {
    var key := DeltaKey(raw);
    if !raw.kind.PartDelta? || raw.delta.None? || raw.delta.value == "" || key.None? || key.value in m.conflicts then m
    else m.(texts := m.texts[key.value := TextSoFar(m, key.value) + raw.delta.value])
  }

  function TextSoFar(m: Memory, key: PartKey): string {
    if key in m.texts then m.texts[key] else ""
  }

  /** `_with_part_update_delta` */
  function WithUpdateDelta(m: Memory, raw: RawEvent): (Memory, RawEvent) {
    var key := UpdateKey(raw);
    if !raw.kind.PartUpdated? || key.None? || raw.part.value.text.None? then (m, raw)
    else
      var (k, text) := (key.value, raw.part.value.text.value);
      var m1 := m.(texts := m.texts[k := text]);
      if k !in m.texts then (m1, raw.(delta := Some(text)))
      else if k in m.conflicts then (m1, raw.(delta := Some("")))
      else if m.texts[k] <= text then (m1, raw.(delta := Some(text[|m.texts[k]|..])))
      else (m1.(conflicts := m.conflicts + {k}), raw.(delta := Some("")))
  }

  predicate IsToolUpdate(raw: RawEvent) {
    raw.kind.PartUpdated? && raw.part.Some? && raw.part.value.IsTool() && UpdateKey(raw).Some?
  }

  /** `_is_duplicate_tool_part_status` */
  predicate IsDuplicateTool(m: Memory, raw: RawEvent) {
    IsToolUpdate(raw) && Get(m.toolStatuses, UpdateKey(raw).value) == Some(raw.part.value.state.status)
  }

  function RememberToolStatus(m: Memory, raw: RawEvent): Memory {
    if IsToolUpdate(raw)
    then m.(toolStatuses := m.toolStatuses[UpdateKey(raw).value := raw.part.value.state.status]) else m
  }

  /** The second half of `_remember_message_context`. */
  function RememberPartType(m: Memory, raw: RawEvent): Memory {
    if UpdateKey(raw).Some? then m.(types := m.types[UpdateKey(raw).value := raw.part.value.kind]) else m
  }

  /** The `_partType` that `_with_known_part_type` adds. */
  function KnownType(m: Memory, raw: RawEvent): Option<string> {
    if raw.kind.PartDelta? && raw.part.None? && raw.sessionID.Some? && raw.messageID.Some? && raw.partID.Some?
    then Get(m.types, (raw.sessionID.value, raw.messageID.value, raw.partID.value)) else None
  }

  /** An event after the memory was consulted; no forwarded event when it repeats a tool status. */
  datatype Digest = Digest(memory: Memory, forwarded: Option<RawEvent>)

  function DigestEvent(m: Memory, raw: RawEvent): Digest {
    var (m1, raw1) := WithUpdateDelta(RememberDelta(m, raw), raw);
    if IsDuplicateTool(m1, raw1) then Digest(m1, None)
    else Digest(RememberPartType(RememberToolStatus(m1, raw1), raw1), Some(raw1))
  }

  function DigestAll(raws: seq<RawEvent>): Memory {
    if raws == [] then NoMemory else DigestEvent(DigestAll(raws[..|raws| - 1]), raws[|raws| - 1]).memory
  }

  // Snapshot/delta reconstruction.

  function TextKey(raw: RawEvent): Option<PartKey> {
    if raw.kind.PartDelta? then DeltaKey(raw) else if raw.kind.PartUpdated? then UpdateKey(raw) else None
  }

  /** The streamed text in an event. */
  function StreamedText(event: Option<AgentEvent>): string {
    if event.Some? && event.value.IsTextStream() then event.value.text else ""
  }

  /** The streamed text an event is translated to, after the memory rewrote it. */
  function EmittedText(m: Memory, raw: RawEvent): string {
    var d := DigestEvent(m, raw);
    if d.forwarded.None? then "" else StreamedText(EventOf(d.forwarded.value, KnownType(d.memory, d.forwarded.value)))
  }

  /** Everything emitted for one part, in order. */
  function EmittedFor(key: PartKey, raws: seq<RawEvent>): string {
    if raws == [] then ""
    else
      var (front, last) := (raws[..|raws| - 1], raws[|raws| - 1]);
      EmittedFor(key, front) + if TextKey(last) == Some(key) then EmittedText(DigestAll(front), last) else ""
  }

  /** An event of the part whose text the memory sees: a delta in `delta`, or a snapshot in
      the part itself, for a part that is not a tool. */
  predicate Tracked(raw: RawEvent) {
    && (raw.kind.PartDelta? && raw.delta.None? && raw.part.Some? ==> OrElse(raw.part.value.text, Some("")) == Some(""))
    && (raw.kind.PartUpdated? && raw.part.Some? ==>
          && !raw.part.value.IsTool()
          && (raw.part.value.text.None? ==> OrElse(raw.delta, Some("")) == Some("")))
  }

  ghost predicate TracksPart(raws: seq<RawEvent>, key: PartKey) {
    forall i :: 0 <= i < |raws| && TextKey(raws[i]) == Some(key) ==> Tracked(raws[i])
  }

  predicate IsSnapshot(raw: RawEvent, key: PartKey) {
    raw.kind.PartUpdated? && UpdateKey(raw) == Some(key) && raw.part.value.text.Some?
  }

  /** Some snapshot of the part did not extend what had been emitted for it. */
  ghost predicate SnapshotDiverged(raws: seq<RawEvent>, key: PartKey) {
    exists i :: 0 <= i < |raws| && IsSnapshot(raws[i], key) &&
      !(EmittedFor(key, raws[..i]) <= raws[i].part.value.text.value)
  }

  lemma PartEventText(raw: RawEvent, known: Option<string>)
    requires raw.kind.PartDelta? || (raw.kind.PartUpdated? && !(raw.part.Some? && raw.part.value.IsTool()))
    requires raw.kind.PartDelta? && raw.delta.None? && raw.part.Some? ==>
               OrElse(raw.part.value.text, Some("")) == Some("")
    ensures StreamedText(EventOf(raw, known)) == OrElse(raw.delta, Some("")).value
  {
    assert EventOf(raw, known) == PartEvent(raw, known);
  }

  /** The texts and conflicts after an event depend on nothing but its delta or its snapshot. */
  lemma DigestTexts(m: Memory, raw: RawEvent)
    ensures var (m1, raw1) := WithUpdateDelta(RememberDelta(m, raw), raw);
            && DigestEvent(m, raw).memory.texts == m1.texts && DigestEvent(m, raw).memory.conflicts == m1.conflicts
            && raw1 == raw.(delta := raw1.delta)
            && (!(raw.part.Some? && raw.part.value.IsTool()) ==> DigestEvent(m, raw).forwarded == Some(raw1))
  {
  }

  lemma DeltaStep(m: Memory, raw: RawEvent)
    requires raw.kind.PartDelta? && Tracked(raw) && DeltaKey(raw).Some?
    ensures var (d, key) := (DigestEvent(m, raw), DeltaKey(raw).value);
            && d.memory.conflicts == m.conflicts
            && EmittedText(m, raw) == OrElse(raw.delta, Some("")).value
            && (key !in m.conflicts ==> TextSoFar(d.memory, key) == TextSoFar(m, key) + EmittedText(m, raw))
            && forall k :: k != key ==> TextSoFar(d.memory, k) == TextSoFar(m, k)
  {
    DigestTexts(m, raw);
    var d := DigestEvent(m, raw);
    if d.forwarded.Some? {
      PartEventText(raw, KnownType(d.memory, raw));
    }
  }

  lemma UpdateStep(m: Memory, raw: RawEvent)
    requires raw.kind.PartUpdated? && Tracked(raw) && UpdateKey(raw).Some?
    ensures var (d, key) := (DigestEvent(m, raw), UpdateKey(raw).value);
            && (raw.part.value.text.None? ==>
                  d.memory.conflicts == m.conflicts && EmittedText(m, raw) == "" && d.memory.texts == m.texts)
            && (raw.part.value.text.Some? ==>
                 var text := raw.part.value.text.value;
                 && d.memory.conflicts ==
                      (if TextSoFar(m, key) <= text || key in m.conflicts then m.conflicts else m.conflicts + {key})
                 && d.memory.texts == m.texts[key := text]
                 && (key !in m.conflicts && TextSoFar(m, key) <= text ==>
                       text == TextSoFar(m, key) + EmittedText(m, raw))
                 && (key in m.conflicts && key in m.texts ==> EmittedText(m, raw) == ""))
  {
    DigestTexts(m, raw);
    var (m1, raw1) := WithUpdateDelta(m, raw);
    PartEventText(raw1, KnownType(DigestEvent(m, raw).memory, raw1));
  }

  /** One event: what it emits for the part, and when it puts the part in conflict. */
  lemma StepReconstructs(m: Memory, raw: RawEvent, key: PartKey)
    requires TextKey(raw) == Some(key) ==> Tracked(raw)
    ensures var d := DigestEvent(m, raw);
            && (key in d.memory.conflicts <==>
                 key in m.conflicts || (IsSnapshot(raw, key) && !(TextSoFar(m, key) <= raw.part.value.text.value)))
            && (key in m.conflicts && IsSnapshot(raw, key) && key in m.texts ==> EmittedText(m, raw) == "")
            && (TextKey(raw) == Some(key) && key !in d.memory.conflicts ==>
                 TextSoFar(d.memory, key) == TextSoFar(m, key) + EmittedText(m, raw))
            && (TextKey(raw) != Some(key) ==> TextSoFar(d.memory, key) == TextSoFar(m, key))
            && (IsSnapshot(raw, key) ==> TextSoFar(d.memory, key) == raw.part.value.text.value)
  {
    if TextKey(raw) == Some(key) {
      if raw.kind.PartDelta? {
        DeltaStep(m, raw);
      } else {
        UpdateStep(m, raw);
      }
    } else {
      DigestTexts(m, raw);
    }
  }

  /** While no snapshot diverged, what was emitted is what is remembered; and the part is marked as
      conflicting exactly when one did. */
  lemma {:induction false} ReconstructsParts(raws: seq<RawEvent>, key: PartKey)
    requires TracksPart(raws, key)
    ensures key in DigestAll(raws).conflicts <==> SnapshotDiverged(raws, key)
    ensures !SnapshotDiverged(raws, key) ==> EmittedFor(key, raws) == TextSoFar(DigestAll(raws), key)
  {
    if raws != [] {
      var n := |raws| - 1;
      var front, last := raws[..n], raws[n];
      assert TracksPart(front, key) by {
        assert forall i :: 0 <= i < n ==> front[i] == raws[i];
      }
      ReconstructsParts(front, key);
      StepReconstructs(DigestAll(front), last, key);
      assert forall i :: 0 <= i < n ==> front[..i] == raws[..i] && front[i] == raws[i];
    }
  }

  /** After an undisputed snapshot the user has been shown exactly that snapshot. */
  lemma SnapshotShown(raws: seq<RawEvent>, raw: RawEvent, key: PartKey)
    requires TracksPart(raws + [raw], key) && IsSnapshot(raw, key)
    ensures !SnapshotDiverged(raws + [raw], key) ==> EmittedFor(key, raws + [raw]) == raw.part.value.text.value
  {
    assert (raws + [raw])[..|raws|] == raws;
    ReconstructsParts(raws + [raw], key);
    StepReconstructs(DigestAll(raws), raw, key) by {
      assert (raws + [raw])[|raws|] == raw;
    }
  }

  /** Once a snapshot diverged, no snapshot of the part emits anything again. */
  lemma ConflictSilencesSnapshots(raws: seq<RawEvent>, raw: RawEvent, key: PartKey)
    requires TracksPart(raws + [raw], key) && IsSnapshot(raw, key)
    ensures SnapshotDiverged(raws, key) ==> EmittedText(DigestAll(raws), raw) == ""
  {
    assert forall i :: 0 <= i < |raws| ==> (raws + [raw])[i] == raws[i];
    assert (raws + [raw])[|raws|] == raw;
    ReconstructsParts(raws, key);
    ConflictsHaveText(raws);
    StepReconstructs(DigestAll(raws), raw, key);
  }

  lemma {:induction false} ConflictsHaveText(raws: seq<RawEvent>)
    ensures forall key <- DigestAll(raws).conflicts :: key in DigestAll(raws).texts
  {
    if raws != [] {
      var m, last := DigestAll(raws[..|raws| - 1]), raws[|raws| - 1];
      ConflictsHaveText(raws[..|raws| - 1]);
      EventConflictsHaveText(m, last);
    }
  }

  lemma EventConflictsHaveText(m: Memory, raw: RawEvent)
    requires m.conflicts <= m.texts.Keys
    ensures DigestEvent(m, raw).memory.conflicts <= DigestEvent(m, raw).memory.texts.Keys
  {
    var m1 := RememberDelta(m, raw);
    assert m1.conflicts <= m1.texts.Keys;
    var m2 := WithUpdateDelta(m1, raw).0;
    assert m2.conflicts <= m2.texts.Keys;
  }

  // Tool statuses.

  /** The statuses a tool part reported, and those that were passed on. */
  function Reported(key: PartKey, raws: seq<RawEvent>): seq<string> {
    if raws == [] then []
    else
      var last := raws[|raws| - 1];
      Reported(key, raws[..|raws| - 1]) +
      if IsToolUpdate(last) && UpdateKey(last) == Some(key) then [last.part.value.state.status] else []
  }

  function PassedOn(key: PartKey, raws: seq<RawEvent>): seq<string> {
    if raws == [] then []
    else
      var (front, last) := (raws[..|raws| - 1], raws[|raws| - 1]);
      PassedOn(key, front) +
      if IsToolUpdate(last) && UpdateKey(last) == Some(key) && DigestEvent(DigestAll(front), last).forwarded.Some?
      then [last.part.value.state.status] else []
  }

  /** A list without immediate repetitions. */
  function Distinct(s: seq<string>): seq<string> {
    if s == [] then []
    else if |s| > 1 && s[|s| - 1] == s[|s| - 2] then Distinct(s[..|s| - 1])
    else Distinct(s[..|s| - 1]) + [s[|s| - 1]]
  }

  lemma ToolStep(m: Memory, raw: RawEvent)
    ensures var d := DigestEvent(m, raw);
            if IsToolUpdate(raw) then
              && (d.forwarded.None? <==> Get(m.toolStatuses, UpdateKey(raw).value) == Some(raw.part.value.state.status))
              && d.memory.toolStatuses == m.toolStatuses[UpdateKey(raw).value := raw.part.value.state.status]
            else d.memory.toolStatuses == m.toolStatuses
  {
    DigestTexts(m, raw);
  }

  lemma DistinctAppend(s: seq<string>, x: string)
    ensures Distinct(s + [x]) == Distinct(s) + if s != [] && s[|s| - 1] == x then [] else [x]
  {
    assert (s + [x])[..|s|] == s;
  }

  /** Exactly the immediate repetitions of a tool's status are suppressed. */
  lemma {:induction false} ToolStatusesDistinct(key: PartKey, raws: seq<RawEvent>)
    ensures PassedOn(key, raws) == Distinct(Reported(key, raws))
    ensures Get(DigestAll(raws).toolStatuses, key) ==
            var r := Reported(key, raws); if r == [] then None else Some(r[|r| - 1])
  {
    if raws != [] {
      var front, last := raws[..|raws| - 1], raws[|raws| - 1];
      ToolStatusesDistinct(key, front);
      var m, r, p := DigestAll(front), Reported(key, front), PassedOn(key, front);
      ToolStep(m, last);
      if IsToolUpdate(last) && UpdateKey(last) == Some(key) {
        var status := last.part.value.state.status;
        DistinctAppend(r, status);
        assert Reported(key, raws) == r + [status];
      } else {
        assert Reported(key, raws) == r && PassedOn(key, raws) == p;
      }
    }
  }
}
