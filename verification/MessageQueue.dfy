/** Messages that arrive during a run, merged into the prompts of later turns (core/queue.py). */
module MessageQueue {
  import opened Wrappers

  datatype AttachmentKind = Image | File

  datatype Attachment = Attachment(kind: AttachmentKind, path: string, name: string)

  /** `queuedAt` in microseconds, the resolution of Python's `datetime`. */
  datatype QueuedMessage = QueuedMessage(
    userId: string, text: string, queuedAt: int, model: Option<string>, openCodeAgent: Option<string>,
    attachments: seq<Attachment>)

  /** `RunController.merge_window_seconds` */
  const MERGE_WINDOW := 1_500_000

  predicate Mergeable(previous: QueuedMessage, next: QueuedMessage, window: int) {
    next.queuedAt - previous.queuedAt <= window
  }

  /** The messages of a batch and those that stay queued. */
  ghost predicate IsFirstBatch(
      queue: seq<QueuedMessage>, batch: seq<QueuedMessage>, rest: seq<QueuedMessage>, window: int)
  {
    && batch != [] && batch + rest == queue
    && (forall i :: 0 < i < |batch| ==> Mergeable(batch[i - 1], batch[i], window))
    && (rest != [] ==> !Mergeable(batch[|batch| - 1], rest[0], window))
  }

  /** How many messages the first batch has. */
  function BatchSize(queue: seq<QueuedMessage>, window: int): (n: nat)
    ensures n <= |queue| && (queue != [] ==> n > 0)
  {
    if |queue| <= 1 then |queue|
    else if Mergeable(queue[0], queue[1], window) then 1 + BatchSize(queue[1..], window)
    else 1
  }

  lemma {:induction false} BatchSizeIsMaximal(queue: seq<QueuedMessage>, window: int)
    requires queue != []
    ensures var n := BatchSize(queue, window); IsFirstBatch(queue, queue[..n], queue[n..], window)
  {
    var n := BatchSize(queue, window);
    if |queue| > 1 && Mergeable(queue[0], queue[1], window) {
      BatchSizeIsMaximal(queue[1..], window);
      assert queue[..n] == [queue[0]] + queue[1..][..n - 1];
      assert queue[1..][n - 1..] == queue[n..];
    }
  }

  /** There is only one way to split off a first batch. */
  lemma FirstBatchIsUnique(queue: seq<QueuedMessage>, a: seq<QueuedMessage>, ra: seq<QueuedMessage>,
                           b: seq<QueuedMessage>, rb: seq<QueuedMessage>, window: int)
    requires IsFirstBatch(queue, a, ra, window) && IsFirstBatch(queue, b, rb, window)
    ensures a == b && ra == rb
  {
    FirstBatchIsLongest(queue, a, ra, b, rb, window);
    FirstBatchIsLongest(queue, b, rb, a, ra, window);
    assert a == queue[..|a|] && b == queue[..|b|] && ra == queue[|a|..] && rb == queue[|b|..];
  }

  lemma FirstBatchIsLongest(queue: seq<QueuedMessage>, a: seq<QueuedMessage>, ra: seq<QueuedMessage>,
                            b: seq<QueuedMessage>, rb: seq<QueuedMessage>, window: int)
    requires IsFirstBatch(queue, a, ra, window) && IsFirstBatch(queue, b, rb, window)
    ensures |b| <= |a|
  {
    assert b == queue[..|b|];
    assert ra != [] ==> ra[0] == queue[|a|] && a[|a| - 1] == queue[|a| - 1];
  }

  function NonEmptyTexts(batch: seq<QueuedMessage>): seq<string> {
    if batch == [] then []
    else NonEmptyTexts(batch[..|batch| - 1]) + if batch[|batch| - 1].text == "" then [] else [batch[|batch| - 1].text]
  }

  function JoinLines(lines: seq<string>): string {
    if lines == [] then ""
    else if |lines| == 1 then lines[0]
    else lines[0] + "\n" + JoinLines(lines[1..])
  }

  function JoinAttachments(batch: seq<QueuedMessage>): seq<Attachment> {
    if batch == [] then [] else JoinAttachments(batch[..|batch| - 1]) + batch[|batch| - 1].attachments
  }

  datatype MergedPrompt = MergedPrompt(
    prompt: string, attachments: seq<Attachment>, userId: string, model: Option<string>, openCodeAgent: Option<string>,
    remaining: seq<QueuedMessage>)

  /** The prompt of a batch; the user, the model and the agent are the last message's. */
  function MergePrompt(batch: seq<QueuedMessage>, remaining: seq<QueuedMessage>): MergedPrompt
    requires batch != []
  {
    var last := batch[|batch| - 1];
    MergedPrompt(JoinLines(NonEmptyTexts(batch)), JoinAttachments(batch), last.userId, last.model, last.openCodeAgent,
                 remaining)
  }

  /** `pop_next_merged_prompt` */
  method PopNextMergedPrompt(queuedMessages: seq<QueuedMessage>, mergeWindow: int) returns (r: Option<MergedPrompt>)
    ensures r.None? <==> queuedMessages == []
    ensures r.Some? ==>
              exists batch :: IsFirstBatch(queuedMessages, batch, r.value.remaining, mergeWindow) &&
                r.value == MergePrompt(batch, r.value.remaining)
  {
    if queuedMessages == [] {
      return None;
    }
    var mergedItems, remaining := [queuedMessages[0]], queuedMessages[1..];
    while remaining != []
      invariant mergedItems != [] && mergedItems + remaining == queuedMessages
      invariant forall i :: 0 < i < |mergedItems| ==> Mergeable(mergedItems[i - 1], mergedItems[i], mergeWindow)
      decreases |remaining|
    {
      var candidate, previous := remaining[0], mergedItems[|mergedItems| - 1];
      if candidate.queuedAt - previous.queuedAt > mergeWindow {
        break;
      }
      mergedItems := mergedItems + [candidate];
      remaining := remaining[1..];
    }
    assert IsFirstBatch(queuedMessages, mergedItems, remaining, mergeWindow);
    r := Some(MergePrompt(mergedItems, remaining));
  }

  /** The prompt that the next turn is started with. */
  function PopNext(queue: seq<QueuedMessage>, window: int): Option<MergedPrompt> {
    if queue == [] then None
    else Some(MergePrompt(queue[..BatchSize(queue, window)], queue[BatchSize(queue, window)..]))
  }

  /** The method computes the function. */
  lemma PopIsPopNext(queue: seq<QueuedMessage>, batch: seq<QueuedMessage>, rest: seq<QueuedMessage>, window: int)
    requires IsFirstBatch(queue, batch, rest, window)
    ensures PopNext(queue, window) == Some(MergePrompt(batch, rest))
    ensures batch == queue[..BatchSize(queue, window)]
  {
    var n := BatchSize(queue, window);
    BatchSizeIsMaximal(queue, window);
    FirstBatchIsUnique(queue, batch, rest, queue[..n], queue[n..], window);
  }

  /** Popping until nothing is left. */
  function Batches(queue: seq<QueuedMessage>, window: int): seq<seq<QueuedMessage>>
    decreases |queue|
  {
    if queue == [] then []
    else [queue[..BatchSize(queue, window)]] + Batches(queue[BatchSize(queue, window)..], window)
  }

  function Flatten<T>(batches: seq<seq<T>>): seq<T> {
    if batches == [] then [] else batches[0] + Flatten(batches[1..])
  }

  /** A non-empty batch without a gap. */
  ghost predicate IsRun(batch: seq<QueuedMessage>, window: int) {
    batch != [] && forall i :: 0 < i < |batch| ==> Mergeable(batch[i - 1], batch[i], window)
  }

  /** Between two batches there is a gap. */
  ghost predicate Apart(a: seq<QueuedMessage>, b: seq<QueuedMessage>, window: int) {
    a != [] && b != [] ==> !Mergeable(a[|a| - 1], b[0], window)
  }

  ghost predicate CutAtGaps(batches: seq<seq<QueuedMessage>>, window: int) {
    && (forall k :: 0 <= k < |batches| ==> IsRun(batches[k], window))
    && (forall k :: 0 < k < |batches| ==> Apart(batches[k - 1], batches[k], window))
  }

  /** Popping repeatedly ends, and cuts the queue, in order and without loss, at exactly the gaps that
      are longer than the window. */
  lemma {:induction false} BatchesPartition(queue: seq<QueuedMessage>, window: int)
    ensures Flatten(Batches(queue, window)) == queue && CutAtGaps(Batches(queue, window), window)
    decreases |queue|
  {
    if queue != [] {
      var n := BatchSize(queue, window);
      var first, rest := queue[..n], Batches(queue[n..], window);
      BatchSizeIsMaximal(queue, window);
      BatchesPartition(queue[n..], window);
      assert ([first] + rest)[1..] == rest;
      if rest != [] {
        assert rest[0] == queue[n..][..BatchSize(queue[n..], window)];
        assert Apart(first, rest[0], window);
      }
      PrependBatch(first, rest, window);
    }
  }

  lemma PrependBatch(first: seq<QueuedMessage>, rest: seq<seq<QueuedMessage>>, window: int)
    requires IsRun(first, window) && CutAtGaps(rest, window) && (rest != [] ==> Apart(first, rest[0], window))
    ensures CutAtGaps([first] + rest, window)
  {
    var bs := [first] + rest;
    forall k | 0 < k < |bs| ensures Apart(bs[k - 1], bs[k], window) {
      assert bs[k] == rest[k - 1] && (k > 1 ==> bs[k - 1] == rest[k - 2]);
    }
  }

  function AttachmentsOf(batches: seq<seq<QueuedMessage>>): seq<Attachment> {
    if batches == [] then [] else JoinAttachments(batches[0]) + AttachmentsOf(batches[1..])
  }

  lemma {:induction false} JoinAttachmentsConcat(a: seq<QueuedMessage>, b: seq<QueuedMessage>)
    ensures JoinAttachments(a + b) == JoinAttachments(a) + JoinAttachments(b)
  {
    if b == [] {
      assert a + b == a;
    } else {
      assert (a + b)[..|a + b| - 1] == a + b[..|b| - 1];
      JoinAttachmentsConcat(a, b[..|b| - 1]);
    }
  }

  /** No attachment is lost or reordered by the batching. */
  lemma {:induction false} AttachmentsKept(queue: seq<QueuedMessage>, window: int)
    ensures AttachmentsOf(Batches(queue, window)) == JoinAttachments(queue)
    decreases |queue|
  {
    if queue != [] {
      var n := BatchSize(queue, window);
      AttachmentsKept(queue[n..], window);
      JoinAttachmentsConcat(queue[..n], queue[n..]);
      assert queue[..n] + queue[n..] == queue;
      assert Batches(queue, window)[1..] == Batches(queue[n..], window);
    }
  }
}
