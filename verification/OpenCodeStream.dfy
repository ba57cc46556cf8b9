/** The stream of one OpenCode turn (agent/opencode_server.py, `OpenCodeTurnStream`): what a consumer
    receives from the turn's queue, and the final snapshot that completes it. */
module OpenCodeStream {
  import opened Wrappers
  import opened AgentEvents
  import opened RunViews
  import opened OpenCodeRouter
  import R = OpenCodeRouting

  datatype SnapshotPart = SnapshotPart(kind: string, text: string)

  datatype Message = Message(role: string, parentID: Option<string>, parts: seq<SnapshotPart>)

  /** An event taken from the queue, with the messages the server returns if it is asked then. */
  datatype Delivery = Delivery(event: AgentEvent, messages: seq<Message>)

  /** What a stream does that others see: it hands an event to its consumer, or gives its turn up. */
  datatype Action = Yield(event: AgentEvent) | Unregister

  /** `done` is a history variable. */
  datatype Stream = Stream(
    turn: string, text: string, thinking: string, sawActivity: bool, pendingQuestion: Option<string>, done: seq<Action>)

  function NewStream(turn: string): Stream { Stream(turn, "", "", false, None, []) }

  function Yields(events: seq<AgentEvent>): seq<Action> {
    seq(|events|, (i: nat) requires i < |events| => Yield(events[i]))
  }

  /** `_assistant_message_for_turn`: the first one wins. */
  function AssistantFor(messages: seq<Message>, turn: string): Option<Message> {
    if messages == [] then None
    else if messages[0].role == "assistant" && messages[0].parentID == Some(turn) then Some(messages[0])
    else AssistantFor(messages[1..], turn)
  }

  /** `_joined_part_text` */
  function JoinedText(parts: seq<SnapshotPart>, kind: string): Option<string> {
    if parts == [] then None
    else
      var rest := JoinedText(parts[1..], kind);
      if parts[0].kind != kind then rest else Some(parts[0].text + if rest.Some? then rest.value else "")
  }

  /** `_remaining_suffix` */
  function RemainingSuffix(current: string, snapshot: string): string {
    if current <= snapshot then snapshot[|current|..] else ""
  }

  function Backfill(current: string, snapshot: Option<string>): string {
    if snapshot.Some? then RemainingSuffix(current, snapshot.value) else ""
  }

  /** `_assistant_snapshot_events` */
  function SnapshotEvents(st: Stream, assistant: Option<Message>): seq<AgentEvent> {
    if assistant.None? then []
    else
      var thinking := Backfill(st.thinking, JoinedText(assistant.value.parts, "reasoning"));
      var text := Backfill(st.text, JoinedText(assistant.value.parts, "text"));
      (if thinking == "" then [] else [ThinkingDelta(thinking)]) + (if text == "" then [] else [TextDelta(text)])
  }

  /** `_remember_emitted` */
  function Remember(st: Stream, event: AgentEvent): Stream {
    var st1 := st.(sawActivity := true);
    match event
    case UserInputRequested(id, _, _) => st1.(pendingQuestion := Some(id))
    case TextDelta(text) => st1.(text := st.text + text)
    case ThinkingDelta(text) => st1.(thinking := st.thinking + text)
    case _ => st1
  }

  function RememberAll(st: Stream, events: seq<AgentEvent>): Stream {
    if events == [] then st else Remember(RememberAll(st, events[..|events| - 1]), events[|events| - 1])
  }

  /** What one delivery makes of the stream, yields, and whether it ends it. */
  datatype Turnout = Turnout(stream: Stream, yielded: seq<AgentEvent>, ended: bool)

  function Take(st: Stream, d: Delivery): Turnout {
    if d.event.RunCompleted? then
      var assistant := AssistantFor(d.messages, st.turn);
      var backfill := SnapshotEvents(st, assistant);
      var st1 := RememberAll(st, backfill).(done := st.done + Yields(backfill));
      if !st1.sawActivity && assistant.None? then Turnout(st1, backfill, false)
      else Turnout(st1.(done := st1.done + [Unregister, Yield(d.event)]), backfill + [d.event], true)
    else if d.event.IsTerminal() then Turnout(st.(done := st.done + [Unregister, Yield(d.event)]), [d.event], true)
    else Turnout(Remember(st, d.event).(done := st.done + [Yield(d.event)]), [d.event], false)
  }

  /** A stretch of consumption: what was yielded, how many deliveries were used up, and whether the
      stream ended. */
  datatype Stretch = Stretch(stream: Stream, yielded: seq<AgentEvent>, used: nat, ended: bool)

  /** A consumer that never breaks off. */
  function Drain(st: Stream, ds: seq<Delivery>): (r: Stretch)
    ensures r.used <= |ds|
    decreases |ds|
  {
    if ds == [] then Stretch(st, [], 0, false)
    else
      var t := Take(st, ds[0]);
      if t.ended then Stretch(t.stream, t.yielded, 1, true)
      else
        var r := Drain(t.stream, ds[1..]);
        Stretch(r.stream, t.yielded + r.yielded, 1 + r.used, r.ended)
  }

  /** One use of `events` by a consumer that breaks off when it is asked something. */
  function UntilPause(st: Stream, ds: seq<Delivery>): (r: Stretch)
    ensures r.used <= |ds| && (ds != [] ==> r.used > 0)
    decreases |ds|
  {
    if ds == [] then Stretch(st, [], 0, false)
    else
      var t := Take(st, ds[0]);
      if t.ended || ds[0].event.IsPause() then Stretch(t.stream, t.yielded, 1, t.ended)
      else
        var r := UntilPause(t.stream, ds[1..]);
        Stretch(r.stream, t.yielded + r.yielded, 1 + r.used, r.ended)
  }

  /** The same consumer reopening `events` after every pause. */
  function Reopening(st: Stream, ds: seq<Delivery>): (r: Stretch)
    ensures r.used <= |ds|
    decreases |ds|
  {
    var first := UntilPause(st, ds);
    if first.ended || first.used == |ds| then first
    else
      var r := Reopening(first.stream, ds[first.used..]);
      Stretch(r.stream, first.yielded + r.yielded, first.used + r.used, r.ended)
  }

  /** A stretch after another one that yielded these events and used up so many deliveries. */
  function After(yielded: seq<AgentEvent>, used: nat, r: Stretch): Stretch {
    Stretch(r.stream, yielded + r.yielded, used + r.used, r.ended)
  }

  lemma UntilPauseNext(st: Stream, ds: seq<Delivery>, used: nat, before: seq<AgentEvent>)
    requires used < |ds|
    ensures var (t, r) := (Take(st, ds[used]), After(before, used, UntilPause(st, ds[used..])));
            r == if t.ended || ds[used].event.IsPause() then Stretch(t.stream, before + t.yielded, used + 1, t.ended)
                 else After(before + t.yielded, used + 1, UntilPause(t.stream, ds[used + 1..]))
  {
    var t := Take(st, ds[used]);
    assert ds[used..][0] == ds[used] && ds[used..][1..] == ds[used + 1..];
    YieldedInTurn(before, t.yielded, UntilPause(t.stream, ds[used + 1..]).yielded);
  }

  class OpenCodeTurnStream {
    const router: OpenCodeEventRouter
    const session: string
    const turn: string
    var text: string
    var thinking: string
    var sawActivity: bool
    var pendingQuestionId: Option<string>
    ghost var done: seq<Action>

    ghost function State(): Stream
      reads this
    {
      Stream(turn, text, thinking, sawActivity, pendingQuestionId, done)
    }

    constructor (router: OpenCodeEventRouter, session: string, turn: string)
      ensures State() == NewStream(turn) && this.router == router && this.session == session
    {
      this.router, this.session, this.turn := router, session, turn;
      text, thinking, sawActivity, pendingQuestionId, done := "", "", false, None, [];
    }

    /** The routing after a stretch of the stream: the turn is unregistered exactly if the stream ended. */
    ghost predicate GivesUp(before: R.Routing, after: R.Routing, ended: bool) {
      after == if ended then R.UnregisterStep(before, session, turn) else before
    }

    method RememberEmitted(event: AgentEvent)
      modifies this`text, this`thinking, this`sawActivity, this`pendingQuestionId
      ensures State() == Remember(old(State()), event)
    {
      sawActivity := true;
      if event.UserInputRequested? {
        pendingQuestionId := Some(event.pendingRequestId);
      }
      if event.TextDelta? {
        text := text + event.text;
      } else if event.ThinkingDelta? {
        thinking := thinking + event.text;
      }
    }

    /** The handling of one event from the queue. */
    method TakeOne(d: Delivery) returns (yielded: seq<AgentEvent>, ended: bool)
      requires router.Valid()
      modifies this, router
      ensures Turnout(State(), yielded, ended) == Take(old(State()), d)
      ensures router.Valid() && GivesUp(old(router.Routing()), router.Routing(), ended)
    {
      if d.event.RunCompleted? {
        var assistant := AssistantFor(d.messages, turn);
        ghost var start := State();
        var backfill := SnapshotEvents(Stream(turn, text, thinking, sawActivity, pendingQuestionId, []), assistant);
        EmitAll(backfill);
        yielded, ended := backfill, sawActivity || assistant.Some?;
        if ended {
          GiveUpWith(d.event);
          yielded := yielded + [d.event];
        }
      } else if d.event.IsTerminal() {
        GiveUpWith(d.event);
        yielded, ended := [d.event], true;
      } else {
        RememberEmitted(d.event);
        done := done + [Yield(d.event)];
        yielded, ended := [d.event], false;
      }
    }

    /** Remembers and yields the events one by one. */
    method EmitAll(events: seq<AgentEvent>)
      modifies this
      ensures State() == RememberAll(old(State()), events).(done := old(done) + Yields(events))
    {
      for i := 0 to |events|
        invariant State() == RememberAll(old(State()), events[..i]).(done := old(done) + Yields(events[..i]))
      {
        assert events[..i + 1][..i] == events[..i];
        RememberEmitted(events[i]);
        done := done + [Yield(events[i])];
        assert done == old(done) + Yields(events[..i + 1]);
      }
      assert events[..|events|] == events;
    }

    /** Unregisters the turn and yields its last event. */
    method GiveUpWith(event: AgentEvent)
      requires router.Valid()
      modifies this`done, router
      ensures done == old(done) + [Unregister, Yield(event)]
      ensures router.Valid() && router.Routing() == R.UnregisterStep(old(router.Routing()), session, turn)
    {
      router.Unregister(session, turn);
      done := done + [Unregister];
      done := done + [Yield(event)];
    }

    /** Iterates over `events` until the stream ends, the consumer is asked something, or the queue
        has nothing more. */
    method Consume(ds: seq<Delivery>) returns (yielded: seq<AgentEvent>, used: nat, ended: bool)
      requires router.Valid()
      modifies this, router
      ensures Stretch(State(), yielded, used, ended) == UntilPause(old(State()), ds)
      ensures router.Valid() && GivesUp(old(router.Routing()), router.Routing(), ended)
    {
      ghost var start := State();
      yielded, used, ended := [], 0, false;
      assert ds[0..] == ds;
      while used < |ds|
        invariant used <= |ds| && !ended && router.Valid() && router.Routing() == old(router.Routing())
        invariant After(yielded, used, UntilPause(State(), ds[used..])) == UntilPause(start, ds)
      {
        ghost var st, before := State(), yielded;
        UntilPauseNext(st, ds, used, before);
        var more, over := TakeOne(ds[used]);
        yielded, used, ended := yielded + more, used + 1, over;
        if ended || ds[used - 1].event.IsPause() {
          return;
        }
      }
    }
  }

  /** Breaking off at a question and reopening loses nothing and repeats nothing. */
  lemma {:induction false} ReopeningIsDraining(st: Stream, ds: seq<Delivery>)
    ensures Reopening(st, ds) == Drain(st, ds)
    decreases |ds|
  {
    DrainSplits(st, ds);
    var first := UntilPause(st, ds);
    if !first.ended && first.used < |ds| {
      ReopeningIsDraining(first.stream, ds[first.used..]);
    }
  }

  lemma YieldedInTurn(a: seq<AgentEvent>, b: seq<AgentEvent>, c: seq<AgentEvent>)
    ensures a + (b + c) == (a + b) + c
  {
  }

  /** Draining is draining up to the first pause and draining the rest. */
  lemma {:induction false} DrainSplits(st: Stream, ds: seq<Delivery>)
    ensures var first := UntilPause(st, ds);
            Drain(st, ds) ==
            if first.ended then first
            else
              var r := Drain(first.stream, ds[first.used..]);
              Stretch(r.stream, first.yielded + r.yielded, first.used + r.used, r.ended)
    decreases |ds|
  {
    if ds != [] {
      var t := Take(st, ds[0]);
      if !t.ended && !ds[0].event.IsPause() {
        DrainSplits(t.stream, ds[1..]);
        var first := UntilPause(t.stream, ds[1..]);
        var rest := ds[1..][first.used..];
        assert rest == ds[first.used + 1..];
        if !first.ended {
          var r := Drain(first.stream, rest);
          YieldedInTurn(t.yielded, first.yielded, r.yielded);
        }
      }
    }
  }

  ghost predicate NoneTerminal(events: seq<AgentEvent>) { forall e <- events :: !e.IsTerminal() }

  /** The actions of a stretch: it yields its events, of which none is terminal; but when the stream ends,
      it then gives the turn up and right after that yields a terminal event, as the last of all. */
  ghost predicate Protocol(actions: seq<Action>, yielded: seq<AgentEvent>, ended: bool) {
    if ended then
      && yielded != [] && yielded[|yielded| - 1].IsTerminal() && NoneTerminal(yielded[..|yielded| - 1])
      && actions == Yields(yielded[..|yielded| - 1]) + [Unregister, Yield(yielded[|yielded| - 1])]
    else NoneTerminal(yielded) && actions == Yields(yielded)
  }

  lemma TakeProtocol(st: Stream, d: Delivery)
    ensures var t := Take(st, d);
            st.done <= t.stream.done && Protocol(t.stream.done[|st.done|..], t.yielded, t.ended)
  {
    if d.event.RunCompleted? {
      var backfill, t := SnapshotEvents(st, AssistantFor(d.messages, st.turn)), Take(st, d);
      BackfillIsNotTerminal(st, AssistantFor(d.messages, st.turn));
      if t.ended {
        EndingProtocol(st.done, backfill, d.event, t.stream.done);
      }
    }
  }

  lemma BackfillIsNotTerminal(st: Stream, assistant: Option<Message>)
    ensures NoneTerminal(SnapshotEvents(st, assistant))
  {
  }

  lemma EndingProtocol(done: seq<Action>, events: seq<AgentEvent>, last: AgentEvent, done1: seq<Action>)
    requires NoneTerminal(events) && last.IsTerminal() && done1 == done + Yields(events) + [Unregister, Yield(last)]
    ensures done <= done1 && Protocol(done1[|done|..], events + [last], true)
  {
    assert (events + [last])[..|events|] == events;
    assert done1 == done + (Yields(events) + [Unregister, Yield(last)]);
  }

  lemma ProtocolsJoin(a: seq<Action>, b: seq<Action>, x: seq<AgentEvent>, y: seq<AgentEvent>, ended: bool)
    requires Protocol(a, x, false) && Protocol(b, y, ended)
    ensures Protocol(a + b, x + y, ended)
  {
    if ended {
      assert (x + y)[..|x + y| - 1] == x + y[..|y| - 1];
      YieldsJoin(x, y[..|y| - 1]);
    } else {
      YieldsJoin(x, y);
    }
  }

  lemma YieldsJoin(x: seq<AgentEvent>, y: seq<AgentEvent>)
    ensures Yields(x + y) == Yields(x) + Yields(y)
  {
  }

  /** A stream yields at most one terminal event, as its last and exactly when it ends; and right before
      that, and never else, it unregisters its turn. */
  lemma {:induction false} TerminalProtocol(st: Stream, ds: seq<Delivery>)
    ensures var r := Drain(st, ds);
            st.done <= r.stream.done && Protocol(r.stream.done[|st.done|..], r.yielded, r.ended)
    decreases |ds|
  {
    if ds != [] {
      var t := Take(st, ds[0]);
      TakeProtocol(st, ds[0]);
      if !t.ended {
        TerminalProtocol(t.stream, ds[1..]);
        var r := Drain(t.stream, ds[1..]);
        ProtocolsJoin(t.stream.done[|st.done|..], r.stream.done[|t.stream.done|..], t.yielded, r.yielded, r.ended);
        DoneInTurn(st.done, t.stream.done, r.stream.done);
      }
    }
  }

  lemma DoneInTurn(a: seq<Action>, b: seq<Action>, c: seq<Action>)
    requires a <= b <= c
    ensures a <= c && c[|a|..] == b[|a|..] + c[|b|..]
  {
  }

  lemma {:induction false} RememberAllFrame(st: Stream, events: seq<AgentEvent>)
    ensures var st1 := RememberAll(st, events);
            && st1.turn == st.turn && st1.done == st.done
            && st1.text == st.text + TextOf(events) && st1.thinking == st.thinking + ThinkingOf(events)
            && st1.sawActivity == (st.sawActivity || events != [])
  {
    if events != [] {
      RememberAllFrame(st, events[..|events| - 1]);
    }
  }

  /** A completion is passed over exactly when the turn has shown nothing and the server knows no
      assistant message for it; then it leaves no trace at all. */
  lemma CompletionSkippedIff(st: Stream, d: Delivery)
    requires d.event.RunCompleted?
    ensures !Take(st, d).ended <==> !st.sawActivity && AssistantFor(d.messages, st.turn).None?
    ensures !Take(st, d).ended ==> Take(st, d) == Turnout(st, [], false)
  {
    RememberAllFrame(st, SnapshotEvents(st, AssistantFor(d.messages, st.turn)));
    assert st.done + Yields([]) == st.done;
  }

  /** On a stream that never ended, every completion came before anything was shown. */
  lemma {:induction false} SkippedCompletionsComeFirst(turn: string, ds: seq<Delivery>, i: nat)
    requires i < |ds| && ds[i].event.RunCompleted? && !Drain(NewStream(turn), ds).ended
    ensures Drain(NewStream(turn), ds[..i]).yielded == [] && AssistantFor(ds[i].messages, turn).None?
  {
    SkippedFrom(NewStream(turn), ds, i);
  }

  lemma {:induction false} SkippedFrom(st: Stream, ds: seq<Delivery>, i: nat)
    requires i < |ds| && ds[i].event.RunCompleted? && !Drain(st, ds).ended
    ensures !st.sawActivity && Drain(st, ds[..i]) == Stretch(st, [], i, false)
    ensures AssistantFor(ds[i].messages, st.turn).None?
    decreases |ds|
  {
    if i == 0 {
      CompletionSkippedIff(st, ds[0]);
    } else {
      var t := Take(st, ds[0]);
      SkippedFrom(t.stream, ds[1..], i - 1);
      assert ds[..i][1..] == ds[1..][..i - 1];
      if ds[0].event.RunCompleted? {
        CompletionSkippedIff(st, ds[0]);
      }
    }
  }

  function EventsOf(ds: seq<Delivery>): seq<AgentEvent> {
    if ds == [] then [] else [ds[0].event] + EventsOf(ds[1..])
  }

  /** What is shown after a snapshot: the snapshot if it extends what was streamed, else no more. */
  function Shown(streamed: string, snapshot: Option<string>): string {
    if snapshot.Some? && streamed <= snapshot.value then snapshot.value else streamed
  }

  function SnapshotText(messages: seq<Message>, turn: string, kind: string): Option<string> {
    var assistant := AssistantFor(messages, turn);
    if assistant.Some? then JoinedText(assistant.value.parts, kind) else None
  }

  lemma BackfillShows(st: Stream, messages: seq<Message>)
    ensures var events := SnapshotEvents(st, AssistantFor(messages, st.turn));
            && st.text + TextOf(events) == Shown(st.text, SnapshotText(messages, st.turn, "text"))
            && st.thinking + ThinkingOf(events) == Shown(st.thinking, SnapshotText(messages, st.turn, "reasoning"))
  {
    var assistant := AssistantFor(messages, st.turn);
    var thinking, text := SnapshotText(messages, st.turn, "reasoning"), SnapshotText(messages, st.turn, "text");
    BackfillAdds(st.thinking, thinking);
    BackfillAdds(st.text, text);
    if assistant.Some? {
      DeltasShow(Backfill(st.thinking, thinking), Backfill(st.text, text));
    }
  }

  lemma BackfillAdds(current: string, snapshot: Option<string>)
    ensures current + Backfill(current, snapshot) == Shown(current, snapshot)
  {
  }

  /** The text and the thinking in a pair of deltas of which the empty ones are left out. */
  lemma DeltasShow(thinking: string, text: string)
    ensures var events :=
            (if thinking == "" then [] else [ThinkingDelta(thinking)]) + (if text == "" then [] else [TextDelta(text)]);
            TextOf(events) == text && ThinkingOf(events) == thinking
  {
    var a := if thinking == "" then [] else [ThinkingDelta(thinking)];
    var b := if text == "" then [] else [TextDelta(text)];
    TextOfConcat(a, b);
    OneEventText(ThinkingDelta(thinking));
    OneEventText(TextDelta(text));
  }

  /** How a stretch changes the text: by the queue's own deltas and, if it completed, the snapshot. */
  ghost predicate ShowsText(st: Stream, ds: seq<Delivery>, r: Stretch)
    requires r.used <= |ds| && (r.ended ==> r.used > 0)
  {
    var queue := EventsOf(ds[..r.used]);
    && r.stream.turn == st.turn
    && (if r.ended && ds[r.used - 1].event.RunCompleted? then
          && r.stream.text == Shown(st.text + TextOf(queue), SnapshotText(ds[r.used - 1].messages, st.turn, "text"))
          && r.stream.thinking ==
               Shown(st.thinking + ThinkingOf(queue), SnapshotText(ds[r.used - 1].messages, st.turn, "reasoning"))
        else r.stream.text == st.text + TextOf(queue) && r.stream.thinking == st.thinking + ThinkingOf(queue))
  }

  /** What the stream remembers as shown is what it yielded. */
  ghost predicate YieldsText(st: Stream, r: Stretch) {
    r.stream.text == st.text + TextOf(r.yielded) && r.stream.thinking == st.thinking + ThinkingOf(r.yielded)
  }

  lemma {:induction false} DrainYields(st: Stream, ds: seq<Delivery>)
    ensures YieldsText(st, Drain(st, ds))
    decreases |ds|
  {
    if ds != [] {
      var t := Take(st, ds[0]);
      TakeText(st, ds[0]);
      if !t.ended {
        DrainYields(t.stream, ds[1..]);
        var r1 := Drain(t.stream, ds[1..]);
        TextOfConcat(t.yielded, r1.yielded);
        Assoc(st.text, TextOf(t.yielded), TextOf(r1.yielded));
        Assoc(st.thinking, ThinkingOf(t.yielded), ThinkingOf(r1.yielded));
      }
    }
  }

  lemma Assoc(a: string, b: string, c: string)
    ensures (a + b) + c == a + (b + c)
  {
  }

  lemma ShowsLater(st: Stream, ds: seq<Delivery>, r1: Stretch)
    requires ds != [] && !Take(st, ds[0]).ended
    requires r1.used <= |ds| - 1 && (r1.ended ==> r1.used > 0) && ShowsText(Take(st, ds[0]).stream, ds[1..], r1)
    ensures ShowsText(st, ds, Stretch(r1.stream, Take(st, ds[0]).yielded + r1.yielded, 1 + r1.used, r1.ended))
  {
    var e, queue1 := ds[0].event, EventsOf(ds[1..][..r1.used]);
    TakeText(st, ds[0]);
    assert ds[1..][..r1.used] == ds[..1 + r1.used][1..];
    EventsOfFirst(ds, 1 + r1.used);
    Assoc(st.text, TextOf([e]), TextOf(queue1));
    Assoc(st.thinking, ThinkingOf([e]), ThinkingOf(queue1));
  }

  lemma {:induction false} DrainShows(st: Stream, ds: seq<Delivery>)
    ensures (Drain(st, ds).ended ==> Drain(st, ds).used > 0) && ShowsText(st, ds, Drain(st, ds))
    decreases |ds|
  {
    if ds == [] {
      ShowsNothing(st, ds);
    } else {
      var t := Take(st, ds[0]);
      if t.ended {
        ShowsAtOnce(st, ds);
      } else {
        DrainShows(t.stream, ds[1..]);
        ShowsLater(st, ds, Drain(t.stream, ds[1..]));
      }
    }
  }

  lemma ShowsNothing(st: Stream, ds: seq<Delivery>)
    ensures ShowsText(st, ds, Stretch(st, [], 0, false))
  {
    assert st.text + "" == st.text && st.thinking + "" == st.thinking;
  }

  lemma ShowsAtOnce(st: Stream, ds: seq<Delivery>)
    requires ds != [] && Take(st, ds[0]).ended
    ensures ShowsText(st, ds, Stretch(Take(st, ds[0]).stream, Take(st, ds[0]).yielded, 1, true))
  {
    TakeText(st, ds[0]);
    EventsOfFirst(ds, 1);
    assert ds[..1][1..] == [] && TextOf([ds[0].event]) + "" == TextOf([ds[0].event]);
    assert ThinkingOf([ds[0].event]) + "" == ThinkingOf([ds[0].event]);
    assert st.text + "" == st.text && st.thinking + "" == st.thinking;
  }

  lemma EventsOfFirst(ds: seq<Delivery>, n: nat)
    requires 0 < n <= |ds|
    ensures TextOf(EventsOf(ds[..n])) == TextOf([ds[0].event]) + TextOf(EventsOf(ds[..n][1..]))
    ensures ThinkingOf(EventsOf(ds[..n])) == ThinkingOf([ds[0].event]) + ThinkingOf(EventsOf(ds[..n][1..]))
  {
    TextOfConcat([ds[0].event], EventsOf(ds[..n][1..]));
  }

  lemma CompletionText(st: Stream, d: Delivery)
    requires d.event.RunCompleted? && Take(st, d).ended
    ensures var t := Take(st, d);
            && t.stream.turn == st.turn
            && t.stream.text == st.text + TextOf(t.yielded) == Shown(st.text, SnapshotText(d.messages, st.turn, "text"))
            && t.stream.thinking == st.thinking + ThinkingOf(t.yielded)
            && t.stream.thinking == Shown(st.thinking, SnapshotText(d.messages, st.turn, "reasoning"))
  {
    var backfill := SnapshotEvents(st, AssistantFor(d.messages, st.turn));
    RememberAllFrame(st, backfill);
    BackfillShows(st, d.messages);
    TextOfConcat(backfill, [d.event]);
    OneEventText(d.event);
    assert TextOf(backfill) + "" == TextOf(backfill) && ThinkingOf(backfill) + "" == ThinkingOf(backfill);
  }

  lemma OneEventText(e: AgentEvent)
    ensures TextOf([e]) == (if e.TextDelta? then e.text else "")
    ensures ThinkingOf([e]) == (if e.ThinkingDelta? then e.text else "")
  {
    assert [e][..0] == [];
  }

  lemma TakeText(st: Stream, d: Delivery)
    ensures var t := Take(st, d);
            && t.stream.turn == st.turn
            && t.stream.text == st.text + TextOf(t.yielded) && t.stream.thinking == st.thinking + ThinkingOf(t.yielded)
            && (if t.ended && d.event.RunCompleted? then
                  && t.stream.text == Shown(st.text, SnapshotText(d.messages, st.turn, "text"))
                  && t.stream.thinking == Shown(st.thinking, SnapshotText(d.messages, st.turn, "reasoning"))
                else
                  && t.stream.text == st.text + TextOf([d.event])
                  && t.stream.thinking == st.thinking + ThinkingOf([d.event]))
            && (d.event.RunCompleted? ==> TextOf([d.event]) == ThinkingOf([d.event]) == "")
  {
    OneEventText(d.event);
    if d.event.RunCompleted? {
      CompletionSkippedIff(st, d);
      if Take(st, d).ended {
        CompletionText(st, d);
      }
    }
  }

  /** End to end: a turn that completes has shown the server's final text whenever that extends what
      was streamed, and exactly what was streamed otherwise; and so does the run view. */
  lemma CompletedTurnShowsSnapshot(turn: string, runId: string, ds: seq<Delivery>)
    requires var r := Drain(NewStream(turn), ds); r.ended && ds[r.used - 1].event.RunCompleted?
    ensures var r := Drain(NewStream(turn), ds);
            var (queue, messages) := (EventsOf(ds[..r.used]), ds[r.used - 1].messages);
            var view := FoldRunView(InitialRunView(runId), r.yielded);
            && TextOf(r.yielded) == Shown(TextOf(queue), SnapshotText(messages, turn, "text"))
            && ThinkingOf(r.yielded) == Shown(ThinkingOf(queue), SnapshotText(messages, turn, "reasoning"))
            && view.text == TextOf(r.yielded) && view.thinking == ThinkingOf(r.yielded)
  {
    var r := Drain(NewStream(turn), ds);
    var queue := EventsOf(ds[..r.used]);
    DrainYields(NewStream(turn), ds);
    DrainShows(NewStream(turn), ds);
    FoldAccumulatesText(InitialRunView(runId), r.yielded);
    assert "" + TextOf(r.yielded) == TextOf(r.yielded) && "" + ThinkingOf(r.yielded) == ThinkingOf(r.yielded);
    assert "" + TextOf(queue) == TextOf(queue) && "" + ThinkingOf(queue) == ThinkingOf(queue);
  }
}
