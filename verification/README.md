# Verified model of the chat-to-agent bridge

The bridge lets chat users drive a coding agent (Codex or OpenCode) from a private chat. This project models
the parts of it where order, identity and state matter, and proves what they promise:

* **OpenCode events** (`OpenCodeEvents`, `OpenCodeParts`, `OpenCodeRouting`, `OpenCodeDelivery`, `OpenCodeOrder`,
  `OpenCodeTurns`, `OpenCodeEarly`, `OpenCodeRouter`, `OpenCodeStream`): raw server events arrive in any order relative
  to the turns they belong to. The router digests cumulative part snapshots into deltas, drops repeated tool states,
  buffers early events, binds assistant messages to turns, and the turn stream backfills from a final snapshot.
* **Codex** (`CodexRpc`, `CodexRouter`, `CodexDelivery`): responses are matched to requests by id (section 5 of the
  JSON-RPC 2.0 Specification), events are routed by turn or thread, and server requests are answered by their turn.
* **The run controller** (`ControllerModel`, `ControllerInvariants`, `ControllerLocality`, `ControllerQueues`,
  `ControllerRequests`, `ControllerRecords`, `ControllerFlags`, `ControllerTimers`, `ControllerSessions`,
  `RunController`, `AgentDecisions`): one run per chat, with pending requests, a message queue that is merged into later
  turns, stop and idle-timeout flags, timers, completion futures and the choice of an agent session.
* **Views and queue** (`RunView`, `ReactState`, `MessageQueue`, `MessageIds`): the event reducer, its card-side copy,
  the merging of queued messages, and the ids of user messages.
* **Storage** (`RecordIndex`, `FileStore`, `Persistence`, `AgentSessions`): JSON records with sorted index files, the
  persistence port that keeps two families of records in step and recovers them after a crash, and what the agents
  themselves write to the same store.

Objects of the source are classes whose fields the methods update; their methods are proved to take the steps of a
state machine on values, and the theorems about whole runs are lemmas about sequences of those steps. A run controller
is valid if its state is one that some run of its machine reaches, so that whatever is proved of all runs holds of it.
History variables (who owns a queue, what was accepted, what became of a message) are ghosts or tags and decide nothing.

What the proofs turned up:

* Order within a message holds except in one case: a turn's own message that was buffered early, got later events on
  its queue, and is then reported as its own parent (`SelfParentReorders`; `OrderIff` says it is the only case).
* A message that changes its parent after it was bound still reaches its old turn (`ReparentedLeaks`).
* Events that come early do not always reach the turn they came for. An event of the session itself is buffered and
  never delivered (`EarlySessionEventStays`, `EarlySessionEventsAreNeverDelivered`). An event of a message leaves the
  buffer exactly when its recorded parent is registered, or when it is reported to answer the active message
  (`LeavesIff`); so one of the turn's own message stays (`EarlyOwnEventStays`), and may even go to another turn
  (`EarlyOwnEventGoesElsewhere`).
* A Codex queue gets events of another turn exactly when that turn's id is also the id of the thread that is being
  registered, or the other way round (`IsolatedIff`, `ThreadNamedLikeATurn`). Codex request ids are kept by their text,
  so `1` and `"1"` collide (`TextsCollide`) and the earlier request is lost.
* A run that ends while messages are queued stays on record as running for good; every other run that is over has a
  final status (`FinalStatusIff`). The turn that follows it is unwatched by an idle timer until its first event, or
  until a timeout is set (`WatchedExactly`). `QueuedTurnIsUnwatched` shows a run of three steps with both.
* A stopped run is recorded and reported as interrupted if and only if what its consumer sees first is the end of the
  stream, or an event before its user has sent another message (`InterruptedIff`). After such a message the next event
  starts a turn for it: the stopped run stays on record as running, and the stop itself goes on waiting for the later
  run (`StopIsForgotten`). And if its timer fires first, the run ends as timed out (`StopDominates`).
* A run stopped while it waits for an answer leaves its request open in the store until recovery (`StopMarks`,
  `RecoverIncomplete`). The controller never records a request as cancelled: where it is written to do so, the view has
  no request any more (`RequestsChange`).
* A run whose stream ends without a terminal event and without a flag stays active for good, and so does a stop of it
  (`AbandonedIff`, `AbandonedRunsNeverEnd`); the stream of an OpenCode turn never ends that way (`TerminalProtocol`).
* A reset declines a pending approval with a decision that Codex answers and for which OpenCode raises
  (`ResetsFailOnOpenCode`).
* The workspace is shared by all chats, the selected session is per chat: another chat's `/cd` leaves a session with
  an old workspace selected, and the next turn is started in it (`TwoChatsDisagree`, `LeftBehindSessionIsUsed`).
* 4097 calls for a message id in one millisecond make the next millisecond repeat a number (`OverrunRepeats`;
  `NumbersIncreaseIff` says when that happens).

## Model

| member | source | states |
|---|---|---|
| `OpenCodeParts.StepReconstructs` | c_auto_bridge/agent/opencode_server.py:470-534 | per event: what it emits for a part is what the remembered text grows by, a snapshot is remembered as it is, and the part enters conflict exactly when a snapshot does not extend the remembered text |
| `OpenCodeParts.ReconstructsParts` | c_auto_bridge/agent/opencode_server.py:470-534 | over any mix of deltas and snapshots of a tracked part: it is in conflict if and only if some snapshot diverged, and until then all emitted deltas concatenate to the remembered text |
| `OpenCodeParts.SnapshotShown` | c_auto_bridge/agent/opencode_translator.py:40-56 | after a snapshot, with no divergence so far, what was emitted is exactly that snapshot |
| `OpenCodeParts.ConflictSilencesSnapshots` | c_auto_bridge/agent/opencode_server.py:492-504 | once a snapshot diverged, no later snapshot of the part emits anything |
| `OpenCodeParts.ToolStatusesDistinct` | c_auto_bridge/agent/opencode_server.py:536-563 | the tool updates passed on are the reported statuses with immediate repetitions removed, and the last status is remembered |
| `OpenCodeRouting.RunKeepsInv` | c_auto_bridge/agent/opencode_server.py:220-239 | in every reachable state an active message has a queue, every queue knows its turn, and buffered lists hold only items of their key in order of arrival |
| `OpenCodeDelivery.ExactlyOnce` | c_auto_bridge/agent/opencode_server.py:246-319 | over every interleaving, each accepted event is on one queue, once, or in the buffer of its key, once; and whatever is on a queue or in the buffer was accepted, interruptions apart |
| `OpenCodeDelivery.EmittedIsAccepted` | c_auto_bridge/agent/opencode_server.py:296-319 | what a call must not lose is told from the calls before it, without following where the event goes |
| `OpenCodeOrder.OrderIff` | c_auto_bridge/agent/opencode_server.py:220-233 | every queue keeps the arrival order of every message if and only if no call made the active message its own parent while it was both buffered and queued |
| `OpenCodeOrder.SelfParentReorders` | c_auto_bridge/agent/opencode_server.py:571-594 | a concrete run of four calls that breaks the order |
| `OpenCodeTurns.RepliesAreReplayed` | c_auto_bridge/agent/opencode_server.py:571-617 | in every reachable state nothing is buffered for a message whose recorded parent is an active turn |
| `OpenCodeTurns.StepAddsOwn` | c_auto_bridge/agent/opencode_server.py:602-617 | a call adds to each queue only events of its own turn if and only if it does not deliver to a bound message whose recorded parent is another |
| `OpenCodeTurns.TurnsAreIsolated` | c_auto_bridge/agent/opencode_server.py:596-617 | where recorded parents never change, every item on a queue is of the turn's message, of a message whose parent it is, of the session, or an interruption; and a bound assistant has the active message as parent |
| `OpenCodeTurns.ReparentedLeaks` | c_auto_bridge/agent/opencode_server.py:422-435 | a concrete run shows that a changed parent breaks isolation |
| `OpenCodeTurns.SessionEventsGoToTheActiveTurn` | c_auto_bridge/agent/opencode_server.py:296-308 | every session-level event on a queue arrived while the queue's turn was the active one of its session |
| `OpenCodeEarly.LeavesIff` | c_auto_bridge/agent/opencode_server.py:571-617 | in every reachable state, a buffered event of a message leaves the buffer at a call if and only if the call registers its recorded parent, or reports the message to answer the active one; else the buffer of its key only grows |
| `OpenCodeEarly.ReplayedIsQueued` | c_auto_bridge/agent/opencode_server.py:225-233 | what leaves the buffer gets on the queue of the turn that is active then |
| `OpenCodeEarly.EarlySessionEventsAreNeverDelivered` | c_auto_bridge/agent/opencode_server.py:296-308 | an event of the session that was buffered is buffered in every continuation, and on no queue |
| `OpenCodeEarly.EarlySessionEventStays` | c_auto_bridge/agent/opencode_server.py:225-233 | a concrete run of two calls where the active turn does not get an early event of its session |
| `OpenCodeEarly.EarlyOwnEventStays` | c_auto_bridge/agent/opencode_server.py:225-233 | a concrete run of two calls where the active turn does not get an early event of its own message |
| `OpenCodeEarly.EarlyOwnEventGoesElsewhere` | c_auto_bridge/agent/opencode_server.py:226-232 | a concrete run of four calls where another turn gets it |
| `OpenCodeRouter.RunsProject` | c_auto_bridge/agent/opencode_server.py:246-319 | every run of the whole router is a run of the routing and of the part memory, so the theorems on those hold of it |
| `OpenCodeRouter.OpenCodeEventRouter.Register` | c_auto_bridge/agent/opencode_server.py:220-233 | opens a queue for the turn and replays the buffers of the messages known to answer it |
| `OpenCodeRouter.OpenCodeEventRouter.Unregister` | c_auto_bridge/agent/opencode_server.py:235-239 | forgets the turn's queue, and its session's bindings if it was the active turn |
| `OpenCodeRouter.OpenCodeEventRouter.HandleStreamInterruption` | c_auto_bridge/agent/opencode_server.py:241-244 | puts a failure on every registered queue and on no other |
| `OpenCodeRouter.OpenCodeEventRouter.WithPartUpdateDelta` | c_auto_bridge/agent/opencode_server.py:470-509 | turns a snapshot into the delta it adds, or marks the part as conflicting |
| `OpenCodeRouter.OpenCodeEventRouter.QueueForMessage` | c_auto_bridge/agent/opencode_server.py:602-617 | finds the queue of a message, binding and replaying it if its parent is the active turn |
| `OpenCodeRouter.OpenCodeEventRouter.HandleEvent` | c_auto_bridge/agent/opencode_server.py:246-384 | one raw event: the part memory and the routing afterwards are those of the planned step |
| `OpenCodeStream.OpenCodeTurnStream.TakeOne` | c_auto_bridge/agent/opencode_server.py:650-673 | the handling of one queued event, with the backfill of a completion; the router gives the turn up exactly if the stream ends |
| `OpenCodeStream.OpenCodeTurnStream.Consume` | c_auto_bridge/agent/opencode_server.py:650-673 | one iteration over the stream up to a question, the end or an empty queue; the router gives the turn up exactly if the stream ends |
| `OpenCodeStream.ReopeningIsDraining` | c_auto_bridge/agent/opencode_server.py:646-673 | a consumer that breaks off at each question and reopens the stream sees exactly what one that never breaks off sees |
| `OpenCodeStream.TerminalProtocol` | c_auto_bridge/agent/opencode_server.py:653-671 | at most one terminal event is yielded, last, exactly when the stream ends; the turn is unregistered right before it, and never else |
| `OpenCodeStream.CompletionSkippedIff` | c_auto_bridge/agent/opencode_server.py:654-664 | a completion is passed over if and only if nothing was shown and the server has no assistant message for the turn, and leaves no trace then |
| `OpenCodeStream.SkippedCompletionsComeFirst` | c_auto_bridge/agent/opencode_server.py:658-664 | on a stream that has not ended, completions were passed over only before anything was yielded |
| `OpenCodeStream.CompletedTurnShowsSnapshot` | c_auto_bridge/agent/opencode_server.py:697-726 | end to end: text and thinking of a completed turn are the server's final snapshot if it extends what was streamed, else exactly what was streamed; and folding the yielded events gives the run view that same text |
| `MessageIds.MessageIdSource.NewMessageId` | c_auto_bridge/agent/opencode_server.py:804-812 | the next id of the clock and counter, and their new values |
| `MessageIds.HexOrder` | c_auto_bridge/agent/opencode_server.py:811-812 | zero-padded hexadecimal texts of one width are ordered as their numbers |
| `MessageIds.NextIncreasesIff` | c_auto_bridge/agent/opencode_server.py:806-811 | inside one block of 2^36 milliseconds the next number is larger if and only if the calls of the last millisecond did not use up the numbers of those passed since |
| `MessageIds.IdsIncrease` | c_auto_bridge/agent/opencode_server.py:804-812 | for non-decreasing clock readings in one block, at most 4095 calls each, later ids are larger whatever their random part |
| `MessageIds.NumbersIncreaseIff` | c_auto_bridge/agent/opencode_server.py:804-812 | for any calls at non-decreasing readings whose numbers do not wrap, all later numbers are larger if and only if no call comes before the numbers used up by its predecessors have passed |
| `MessageIds.IdOrderIff` | c_auto_bridge/agent/opencode_server.py:811-812 | one id is smaller than another whatever their random parts if and only if its number is smaller |
| `MessageIds.OverrunRepeats` | c_auto_bridge/agent/opencode_server.py:806-811 | 4097 calls at one reading, and one in the next millisecond, give a number twice |
| `CodexRpc.EveryRunCorrelates` | c_auto_bridge/agent/codex_stdio.py:54-60 | over every interleaving of requests, messages and ends of the stream, each request has the outcome of the first answer with its id, or of the first end of the stream, after it was sent; all other messages are heard in order |
| `CodexRpc.CompletedOnce` | c_auto_bridge/agent/codex_stdio.py:99-123 | the outcome of a completed request is the same in every continuation |
| `CodexRpc.UnheardRequestsWait` | c_auto_bridge/agent/codex_stdio.py:119-123 | a request sent while no reader listens has no outcome until one does |
| `CodexRpc.CodexRpcClient.Request` | c_auto_bridge/agent/codex_websocket.py:56-62 | a request gets an unused id and an open future, which the caller waits on unless the write fails; it is pending in either case |
| `CodexRpc.CodexRpcClient.Dispatch` | c_auto_bridge/agent/codex_websocket.py:99-113 | an answer completes the pending future of its id, anything else, also a server request with that id, is queued |
| `CodexRpc.CodexRpcClient.FailOutstanding` | c_auto_bridge/agent/codex_stdio.py:119-123 | at the end of the stream every future is completed, the outstanding ones with an error |
| `CodexRpc.CodexRpcClient.ReadMessages` | c_auto_bridge/agent/codex_stdio.py:99-123 | the reader takes each message of the stream in turn and then fails what is outstanding |
| `CodexRouter.RequestsAreKept` | c_auto_bridge/agent/codex_app_server.py:276-314 | over every run each recorded request is live, taken, or replaced by a later one of the same id text; taken at most once, and only by the turn its event named |
| `CodexRouter.TakesIff` | c_auto_bridge/agent/codex_app_server.py:298-314 | a turn takes a request if and only if a matching one of its own was recorded and neither replaced nor taken since, and gets it with the id it was recorded with |
| `CodexRouter.TextsCollide` | c_auto_bridge/agent/codex_app_server.py:280-286 | two ids share an entry only if they are equal or one is the text of the other, a number |
| `CodexRouter.CodexEventRouter.Register` | c_auto_bridge/agent/codex_app_server.py:261-269 | a new queue starts with the buffered events of the turn, then of its thread |
| `CodexRouter.CodexEventRouter.Unregister` | c_auto_bridge/agent/codex_app_server.py:271-274 | the queue goes, and the thread's entry if it is this turn's |
| `CodexRouter.CodexEventRouter.HandleEvent` | c_auto_bridge/agent/codex_app_server.py:276-296 | records the request, and routes the event by turn, else by thread, else buffers it |
| `CodexRouter.CodexEventRouter.TakeRequest` | c_auto_bridge/agent/codex_app_server.py:298-314 | finds a request exactly if one is answerable, hands it out once and remembers nothing else |
| `CodexDelivery.EveryRunDelivers` | c_auto_bridge/agent/codex_app_server.py:261-296 | every routed event is in exactly one place, once, on a queue or in the buffer of its key, and events of one key keep their order |
| `CodexDelivery.IsolatedIff` | c_auto_bridge/agent/codex_app_server.py:261-296 | where each turn is registered with its own thread, that is so if and only if no registration met events buffered under an id that is both a turn's and a thread's |
| `CodexDelivery.ThreadNamedLikeATurn` | c_auto_bridge/agent/codex_app_server.py:265-268 | a concrete run of two calls where a queue gets an event that names another turn |
| `CodexDelivery.EveryRunIsolates` | c_auto_bridge/agent/codex_app_server.py:261-296 | where each turn is registered with its own thread and no id is both a turn's and a thread's, a queue holds only events that name its turn, or its thread and no turn |
| `RunViews.ReduceKeepsPendingMatch` | c_auto_bridge/core/run_view_reducer.py:46-83 | a view has a pending request if and only if its status is pending, of the matching kind, after every event |
| `RunViews.ReduceContent` | c_auto_bridge/core/run_view_reducer.py:20-84 | views with equal text, thinking, tools, usage and error stay so, whatever their status |
| `RunViews.FoldAccumulatesText` | c_auto_bridge/core/run_view_reducer.py:20-24 | folding accumulates exactly the streamed text and thinking |
| `RunViews.FoldKeepsTools` | c_auto_bridge/core/run_view_reducer.py:25-45 | tools are never dropped, reordered or renamed, and one is added per start |
| `ReactStates.ReducersSimulate` | c_auto_bridge/react/reducer.py:20-71 | for every event list, translating the folded core view is folding the card-side reducer over the translated events |
| `ReactStates.TranslationsAreInjective` | c_auto_bridge/feishu/run_view_sink.py:138-172 | the translations of views and events lose nothing |
| `MessageQueue.PopNextMergedPrompt` | c_auto_bridge/core/queue.py:17-38 | merges the longest first batch whose gaps are within the window, and returns the rest |
| `MessageQueue.BatchSizeIsMaximal` | c_auto_bridge/core/queue.py:24-29 | the batch the controller model uses is a first batch |
| `MessageQueue.FirstBatchIsUnique` | c_auto_bridge/core/queue.py:24-29 | there is only one first batch |
| `MessageQueue.BatchesPartition` | c_auto_bridge/core/queue.py:17-38 | repeated popping ends and cuts the queue, in order, exactly at the gaps longer than the window |
| `MessageQueue.AttachmentsKept` | c_auto_bridge/core/queue.py:30-38 | no attachment is lost or reordered by it |
| `ControllerInvariants.NextKeepsInv` | c_auto_bridge/core/run_controller.py:56-150 | one command, event or timer keeps the invariant |
| `ControllerInvariants.ReachableKeepsInv` | c_auto_bridge/core/run_controller.py:334-426 | in every reachable state: a future is open exactly while an active run has it; each live timer is the handle of the active run of its scope; nobody consumes a run that waits for an answer; its status and pending request match, and its open persisted requests are that one or none; a waiting run is not timed out; and the view's content is that of replaying the run's log |
| `ControllerInvariants.ControllersStartOk` | c_auto_bridge/core/run_controller.py:27-54 | a new controller satisfies it |
| `ControllerQueues.MessagesConserved` | c_auto_bridge/core/run_controller.py:428-493 | over every run, the messages accepted in a chain of turns are, in order, those sent, those dropped from a stopped or timed-out run, and those still queued; each batch sent is the first one of what was queued then, and is the whole prompt of a started turn that carries no other batch |
| `ControllerQueues.FlagsEmptyQueue` | c_auto_bridge/core/run_controller.py:673-679 | a stop, or a timer that fires while no answer is awaited, sets its flag and empties the queue |
| `ControllerQueues.FlaggedMessagesAreNeverSent` | c_auto_bridge/core/run_controller.py:137-150 | from then on only messages accepted later are ever sent |
| `ControllerLocality.NextIsLocal` | c_auto_bridge/core/run_controller.py:137-150 | every step concerns one scope, its run, its consumer and at most one new run |
| `ControllerFlags.StopMarks` | c_auto_bridge/core/run_controller.py:137-150 | an accepted stop marks a run at work, and ends a waiting one at once as interrupted, leaving its request open |
| `ControllerFlags.StopDominates` | c_auto_bridge/core/run_controller.py:334-384 | whatever follows, a stopped run goes on exactly until its consumer sees an event or the end of the stream, or its timer fires. At the end of the stream it is over, recorded and reported as interrupted for good; at an event it is so too, the interruption in its log, if no message is queued by then, and else a turn for the messages replaces it, with its status on record as it was and nobody told of it. If the timer fires first, it goes on exactly until the end of the stream and is over as timed out |
| `ControllerFlags.InterruptedIff` | c_auto_bridge/core/run_controller.py:137-150 | after an accepted stop of a run at work, and whatever follows: the run is recorded as interrupted, and likewise reported so, if and only if its consumer sees the end of the stream first, or an event with no message of the run's user since the last stop |
| `ControllerFlags.StopIsForgotten` | c_auto_bridge/core/run_controller.py:360-363 | a concrete run of a start, a stop, a message and an event, after which the stopped run is on record as running, the next one is active, and the future that the stop waits on is open |
| `ControllerFlags.TimedOutDominates` | c_auto_bridge/core/run_controller.py:338-376 | whatever follows, a run marked as timed out logs nothing more, goes on exactly until its stream ends, and is then over, recorded and reported as timed out for good |
| `ControllerFlags.AbandonedIff` | c_auto_bridge/core/run_controller.py:369-384 | the end of its stream leaves a run behind without a consumer if and only if it is neither stopped nor timed out |
| `ControllerFlags.AbandonedRunsNeverEnd` | c_auto_bridge/core/run_controller.py:137-150 | whatever follows, such a run stays active and its future open |
| `ControllerRecords.FinalStatusIff` | c_auto_bridge/core/run_controller.py:386-426 | in every reachable state a run on record that is no longer active has a final status if and only if no step consumed a terminal event of it while messages were queued; else, and while it is active, it is on record as running |
| `ControllerRequests.RequestsChange` | c_auto_bridge/core/run_controller.py:681-712 | exactly the events that ask open a request, with their kind and run, and exactly the accepted answers close one, as resolved; no other step touches a request |
| `ControllerRequests.RequestsAreNeverCancelled` | c_auto_bridge/core/run_controller.py:402-406 | over every run no request is recorded as cancelled |
| `ControllerRequests.AnswersResolve` | c_auto_bridge/core/run_controller.py:282-311 | an accepted answer closes the open request and resumes the run, watched by a timer if and only if a timeout is in force; a refused one changes nothing |
| `ControllerRequests.WaitingRunsAreNotConsumed` | c_auto_bridge/core/run_controller.py:350-359 | while an answer is awaited no event and no end of the stream is consumed |
| `ControllerTimers.GoingOnArms` | c_auto_bridge/core/run_controller.py:653-664 | whenever a run starts, goes on after an event or an answer, or has its timeout set, a timer of its own is live if and only if a timeout is in force |
| `ControllerTimers.QuietingDisarms` | c_auto_bridge/core/run_controller.py:666-671 | after a pause, the end of a turn or of the stream, `/timeout off` or the firing itself, no timer of the chat is live |
| `ControllerTimers.WatchedExactly` | c_auto_bridge/core/run_controller.py:653-679 | in every reachable state a run that is consumed and not timed out has a live timer of its own if and only if a timeout is in force and it is not a queued turn that has seen no event and had no timeout set since it started |
| `ControllerTimers.QueuedTurnIsUnwatched` | c_auto_bridge/core/run_controller.py:360-363 | a concrete run of a start, a message and a completion, after which the completed run is on record as running, and the next one is at work without a timer though a timeout is in force |
| `ControllerSessions.StepCoherence` | c_auto_bridge/core/run_controller.py:495-574 | a step keeps the selected session in agreement with workspace, agent and access mode if and only if it is not another chat's change of workspace |
| `ControllerSessions.CoherenceIff` | c_auto_bridge/core/run_controller.py:169-213 | the same for whole runs, and then every turn is started in agreement too |
| `ControllerSessions.OneChatIsCoherent` | c_auto_bridge/core/use_cases.py:387-394 | as long as only one chat changes the workspace all its turns agree, through starts, queued turns, stale sessions, resets, `/cd` and compatible `/resume` |
| `ControllerSessions.TwoChatsDisagree` | c_auto_bridge/core/run_controller.py:169-183 | a concrete run where a second chat's `/cd` leaves the first one's session behind |
| `ControllerSessions.LeftBehindSessionIsUsed` | c_auto_bridge/core/run_controller.py:511-519 | the next turn of a chat that was left behind is started in the session that disagrees |
| `ControllerSessions.ClearedScopesStartAfresh` | c_auto_bridge/core/use_cases.py:263-288 | after `/model use` or `/agent` every later turn is started in a session created since, until one is resumed |
| `AgentDecisions.CodexAnswersMore` | c_auto_bridge/agent/codex_app_server.py:376-381 | Codex answers every decision that OpenCode answers, to the same effect, and besides exactly two more |
| `AgentDecisions.ResetsFailOnOpenCode` | c_auto_bridge/core/run_controller.py:593-606 | the decision of a reset declines a request of Codex, and raises for one of OpenCode |
| `RunControllers.RunController.KeepsValid` | c_auto_bridge/core/run_controller.py:56-150 | every step keeps the controller in a state that some run reaches |
| `RunControllers.RunController.Promises` | c_auto_bridge/core/run_controller.py:27-54 | such a state satisfies the invariants of runs, queues and records |
| `RunControllers.RunController.StartRun` | c_auto_bridge/core/run_controller.py:56-135 | refused while a run is active, else takes the starting step: the run is at work and watched if and only if a timeout is in force |
| `RunControllers.RunController.SessionFor` | c_auto_bridge/core/run_controller.py:495-527 | a fresh session where one is due, else the selected one, else one of the agent's |
| `RunControllers.RunController.StartTurn` | c_auto_bridge/core/run_controller.py:529-574 | starts a turn, with a replacement session if the agent has forgotten it |
| `RunControllers.RunController.ConsumeOne` | c_auto_bridge/core/run_controller.py:337-368 | one turn of the consumer's loop: it returns exactly at a question or at the end of the turn, with the waiting or the completed run, or with nothing if a queued turn follows |
| `RunControllers.RunController.ConsumeAvailable` | c_auto_bridge/core/run_controller.py:334-368 | the loop takes the events one step each, up to and with the first at which the consumer returns, and all of them if there is none |
| `RunControllers.RunController.StreamExhausted` | c_auto_bridge/core/run_controller.py:369-384 | at the end of the stream a flagged run is over and reported as timed out or interrupted, any other is left behind |
| `RunControllers.RunController.StartQueuedTurn` | c_auto_bridge/core/run_controller.py:428-493 | the next batch of the queue becomes the next turn under the same future |
| `RunControllers.RunController.Finish` | c_auto_bridge/core/run_controller.py:386-426 | cancels the pending request and the timer, records the status, completes the future |
| `RunControllers.RunController.StopRun` | c_auto_bridge/core/run_controller.py:137-150 | takes the stop step, with the outcome of StopMarks; refused for other users, and then nothing changes |
| `RunControllers.RunController.QueueMessage` | c_auto_bridge/core/run_controller.py:230-260 | appends the message to the queue; refused while an answer is awaited, and then nothing changes |
| `RunControllers.RunController.AnswerUserInput` | c_auto_bridge/core/run_controller.py:282-295 | gives the text to the agent's turn, closes the open request as resolved and resumes the run; for another kind nothing is given, and then, or if the agent raises, nothing changes |
| `RunControllers.RunController.AnswerApproval` | c_auto_bridge/core/run_controller.py:297-311 | the same for a decision, and an approval of that id only |
| `RunControllers.RunController.HandleIdleTimeout` | c_auto_bridge/core/run_controller.py:673-679 | marks the run as timed out and empties its queue, unless it waits for an answer |
| `RunControllers.RunController.SetIdleTimeout` | c_auto_bridge/core/run_controller.py:322-324 | sets the override, with a live timer for an active run |
| `RunControllers.RunController.DisableIdleTimeout` | c_auto_bridge/core/run_controller.py:326-328 | switches the timeout off, and no timer of the chat is live |
| `RunControllers.RunController.ClearIdleTimeoutOverride` | c_auto_bridge/core/run_controller.py:330-332 | back to the default: an active run is watched if and only if there is one |
| `RunControllers.RunController.ClearSelectedSession` | c_auto_bridge/core/run_controller.py:164-167 | the next turn is to use a fresh session |
| `RunControllers.RunController.ResumeHistorical` | c_auto_bridge/core/run_controller.py:197-213 | selects a compatible historical session, which then agrees with the settings; refuses any other |
| `RunControllers.RunController.CreateSelectedSession` | c_auto_bridge/core/run_controller.py:629-643 | the end of a reset or of a change of workspace: a new session that agrees with the settings is selected |
| `RecordIndexes.SortSorts` | c_auto_bridge/store/file_store.py:143-143 | the sort yields the same records, newest first, those of one time in their old order |
| `RecordIndexes.SortIsUnique` | c_auto_bridge/store/file_store.py:143-143 | no other list does |
| `RecordIndexes.PutKeepsIndex` | c_auto_bridge/store/file_store.py:136-144 | saving a record keeps the index: one entry per file, equal to it or its summary, newest first |
| `RecordIndexes.TopOfSorted` | c_auto_bridge/store/file_store.py:153-162 | sorting and slicing lists the newest records, as many as the limit allows, negative limits included |
| `FileStores.ListedRuns` | c_auto_bridge/store/file_store.py:153-162 | the index gives the newest matching run files |
| `FileStores.ListedSessions` | c_auto_bridge/store/file_store.py:73-87 | the files behind the newest summaries are the newest files |
| `FileStores.TopScopes` | c_auto_bridge/store/file_store.py:164-184 | the dictionary of last updates gives the scopes updated last |
| `FileStores.FileStore.SaveRun` | c_auto_bridge/store/file_store.py:136-144 | writes the file and its index entry |
| `FileStores.FileStore.ListRuns` | c_auto_bridge/store/file_store.py:153-162 | returns the top of the scope's runs |
| `FileStores.FileStore.SaveSession` | c_auto_bridge/store/file_store.py:51-64 | writes the file and its summary |
| `FileStores.FileStore.ListSessions` | c_auto_bridge/store/file_store.py:73-87 | returns the top of the user's sessions |
| `FileStores.FileStore.GetOpenPendingByUser` | c_auto_bridge/store/file_store.py:113-124 | returns an oldest open request of the user, or none if there is none |
| `FileStores.FileStore.ClosePending` | c_auto_bridge/store/file_store.py:126-134 | closes a request, refused for the status open and for an unknown one |
| `FileStores.FileStore.ListPrivateChatScopeIds` | c_auto_bridge/store/file_store.py:164-184 | returns the scopes with the greatest last update over runs and sessions |
| `FileStores.FileStore.RecoverIncomplete` | c_auto_bridge/store/file_store.py:244-267 | live runs become interrupted, open requests cancelled, streaming cards failed, all else stays |
| `Persistence.RecoveredRunsAgree` | c_auto_bridge/store/file_run_persistence.py:271-280 | recovering both families of runs leaves them in agreement, with no live run in either |
| `Persistence.RecoveredPendingsAgree` | c_auto_bridge/store/file_run_persistence.py:281-287 | the same for requests |
| `Persistence.SettledStays` | c_auto_bridge/store/file_run_persistence.py:271-287 | a recovery where nothing is live or open changes nothing |
| `Persistence.EitherLogReplays` | c_auto_bridge/store/file_run_persistence.py:353-376 | replaying the store's log of a run gives the card state of replaying the core log |
| `Persistence.RunWritten` | c_auto_bridge/store/file_run_persistence.py:52-66 | what writing a run changes in the records the controller sees |
| `Persistence.EventWritten` | c_auto_bridge/store/file_run_persistence.py:68-77 | what logging an event changes in them |
| `Persistence.FileRunPersistence.RecordRunCreated` | c_auto_bridge/store/file_run_persistence.py:52-66 | writes both families, as the controller model assumes |
| `Persistence.FileRunPersistence.RecordRunEvent` | c_auto_bridge/store/file_run_persistence.py:68-77 | appends to both logs, as the controller model assumes |
| `Persistence.FileRunPersistence.RecordRunError` | c_auto_bridge/store/file_run_persistence.py:243-252 | logs an error that no replay sees |
| `Persistence.FileRunPersistence.RecordRunTerminalStatus` | c_auto_bridge/store/file_run_persistence.py:79-93 | updates status and time in both families, refused for an unknown run |
| `Persistence.FileRunPersistence.OpenPendingRequest` | c_auto_bridge/store/file_run_persistence.py:95-131 | opens the request in both families, refused without run or session |
| `Persistence.FileRunPersistence.ClosePendingRequest` | c_auto_bridge/store/file_run_persistence.py:133-143 | closes it in both |
| `Persistence.FileRunPersistence.SaveAgentSession` | c_auto_bridge/store/file_run_persistence.py:195-215 | saves the session in both families, and keeps those in step |
| `Persistence.FileRunPersistence.ListAgentSessions` | c_auto_bridge/store/file_run_persistence.py:217-241 | returns all sessions of the user in the chat, newest first |
| `Persistence.FileRunPersistence.ClearCurrentSession` | c_auto_bridge/store/file_run_persistence.py:145-152 | removes exactly the bindings to a session of the chat |
| `Persistence.FileRunPersistence.RecoverIncomplete` | c_auto_bridge/store/file_run_persistence.py:271-287 | afterwards no run is live and no request open in either family, they agree, and all other records are as before |
| `AgentSessions.AgentAdapter.CreateSession` | c_auto_bridge/agent/opencode_server.py:88-122 | a new session in the store, and the user's current one; the port stays valid |
| `AgentSessions.AgentAdapter.GetOrCreateSession` | c_auto_bridge/agent/opencode_server.py:124-163 | reuses the user's current session if and only if it is of the chat, agent, workspace and access mode asked for; the result always is |
| `AgentSessions.AgentAdapter.StartTurn` | c_auto_bridge/agent/opencode_server.py:191-195 | a turn dates its session anew and marks it as running; the port stays valid and its sessions in step |

## Left out

- The Feishu gateway, cards, menus, text rendering, downloads, and the transport of stream cards: user interface and network.
- Processes, sockets, HTTP, configuration, logging and the wiring in `app/runtime.py`: foreign calls. What they answer (ids, snapshots, clock readings, whether an agent knows a session) is a parameter.
- The older controller under `c_auto_bridge/bot`: it is not wired.
- Workspace validation, named workspaces and the file finder: they depend on the file system.
- Type errors on malformed payloads, and exceptions of the agent, the persistence or the transport, but for answers that the agent refuses and requests that cannot be written: events are well typed and calls succeed. Ids that JSON gives as floats or booleans are not modelled, nor are cancelled futures.
- OpenCode text that is not tracked by part: deltas without a part id and `session.next` events are routed but stay outside the reconstruction theorem.
- Interleavings inside one step: a command, an event or a timer callback is handled to its end before the next one. In particular one start per chat is in flight at a time.
- Run ids are taken to be new, and a request's id not to be that of a request another run waits on: the theorems about runs of the controller say so (`FreshIds`).
- `reset_session` and `change_workspace` wait for the run they end: they are a stop or an answer, the steps that end that run, and then the selection of a new session.
- Payloads are maps of strings, times are integers ordered as their text, and queued messages carry whole microseconds.
- Active runs are values in the controller's map, not objects that a consumer holds on to: a consumer that outlives its run is not modelled.
- Queues keep everything ever put on them and are named by the number of their creation; what a consumer has taken is the stream's business.
- Selection of models and OpenCode agents per chat, beyond its effect on sessions: it is a map that is read when a turn starts.
- Ids named "index", which would collide with the index files, are excluded by keeping records and indexes apart.
- RunControllers.RunController.StartRun: ends where consumption begins; what its caller is told is what ConsumeAvailable returns.
- Persistence.FileRunPersistence.SaveAgentSession: the times of the two families of sessions may differ, since agents date their own; nothing else about a session does.
- AgentSessions.AgentAdapter.StartTurn: what is sent to the agent is not modelled, only what is written to the store.
