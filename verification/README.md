# A verified model of smooth-agent

smooth-agent is an agent runtime with a streaming wire protocol: clients in several languages, a
.NET agent engine and server, a Rust ingestion pipeline, and a code generator for the protocol's types.
This project models its most intricate parts in Dafny and proves what they guarantee, for every input,
every run and every interleaving.

`dafny verify dfyconfig.toml` checks everything.

## What is modelled

**The wire** (`Wire.dfy`). Events, what makes one terminal, and what a client reads out of it.

**The Go client** (`Go*.dfy`). `Client` and `MessageTurn` as a state machine in which every lock, unlock,
`select` branch, channel send and close is one atomic step of one goroutine, over any number of goroutines,
turns and requests. `GoClient` is the machine; `GoLocks`, `GoSettle`, `GoRoles`, `GoRequests`, `GoDuties`,
`GoHistory` and `GoArrivals` are the parts of its invariant, each with the discipline the programs follow;
`GoInvariant` and `GoEnvironment` show that every step keeps it; `GoTheorems`, `GoProgress`, `GoOutcomes` and
`GoReplies` draw the consequences; `GoAnswers` says what requests are answered with and what turns fail with,
`GoTimers` that a settled turn's timer cannot fire; `GoBackpressure` with `GoSlowConsumer`, and `GoLateTurns` with `GoLeftInMap` and
`GoEarlyTimeout`, work out two things the source's comments rule out, each with a run (built in `GoReach`) and an exact condition.
A panic (a send on a closed channel, a second close, unlocking a free mutex) is a
flag in the state that no run ever raises.

**Incremental indexing** (`Indexing.dfy`). The run store and `run_once` as imperative code, and a history of
edits and overlapping runs over an evolving source. Two assumptions, both stated as predicates: a pull
returns every current document changed at or after the cursor (`FairPull`), and no document is stamped later
than the moment it is pulled (`Honest`). What happens without the second one is worked out too.

**Schema merge** (`SchemaMerge.dfy`). The reference-renaming rewriter and the merge of the spec files, with
the meaning of a schema as its unfolding to every depth: `$ref` per section 8.2.3.1 and `$defs` per section
8.2.4 of JSON Schema Core draft 2020-12.

**The .NET engine** (`Compaction.dfy`, `Cost.dfy`, `Checkpoints.dfy`, `AgentEffects.dfy`,
`Agent.dfy`, `Recovery.dfy`). One turn of the loop against an arbitrary model, toolbox and human gate, any of
which may throw. `AgentEffects` says which traces of model calls and tool calls a turn may leave; `Agent` is the
code, and every turn it runs leaves such a trace. Then any sequence of
turns, failed turns, crashes, restarts and prunes of one thread.

**The .NET server** (`SessionStore.dfy`, `Server.dfy`, `ServerLoop.dfy`, `ServerTheorems.dfy`,
`ServerRuns.dfy`, `ServerAnswers.dfy`). `Server` says what a frame leads to when the store, retrieval, the reranker and the agent's
stream behave arbitrarily; `ServerLoop` is the code, proved against it; the other three prove what follows.
`Facade.dfy` is the chat-client facade over a turn's events. `EndToEnd.dfy` puts the server's traces on a wire,
interleaved in any way, and runs the Go client on it.

**Access-controlled retrieval** (`Acl.dfy`), **the .NET chunker** (`CsChunker.dfy`, `CsChunkerTheorems.dfy`),
**the Rust chunker** (`RustChunker.dfy`, `RustChunkerTheorems.dfy`,
`RustParagraphs.dfy`) and **the TypeScript turn** (`TsTurn.dfy`).

## Where the code does less than it says

- Compaction is described as keeping the live user message. It keeps the last message, which after a tool
  round is not the user's: `Compaction.KeptIff` says when a message survives, `Compaction.UserMessageCanBeDropped`
  gives a conversation that loses its question.
- A `send_message` without a `requestId` gets a generated id that the error path cannot see, so its events can
  carry two different ids: `ServerRuns.SameIdIff` says when.
- A `send_message` on a known session whose `message` is not a string is answered with an error and no 202:
  `ServerTheorems.SendTrace` says exactly when the acknowledgement is sent.
- The .NET chunker accepts a negative overlap, with which it skips text or throws:
  `CsChunkerTheorems.FaithfulIff`.
- Checkpoint strategies other than the one that saves after each iteration lose a completed turn that called
  no tool: `Recovery.NoTurnLostIff`.
- A turn in which the model or the gate throws leaves its checkpoints in the store and nothing in the thread. A
  resume then returns more than the conversation (`Recovery.FailureRunsAhead`), or something else than it: with
  a checkpoint after each tool call, a restart can bring a failed turn back and drop a completed one
  (`Recovery.FailureForks`). `Recovery.ResumeIsPrefixIff` and `Recovery.ResumeIsWholeIff` give the exact conditions.
- A document stamped in the future moves the cursor past edits still to come:
  `Indexing.CoverageSurvivesEditsIff` says exactly when that costs coverage, `Indexing.FutureStampLosesAnEdit` gives
  a history, `Indexing.LostForever` shows that an incremental source never returns what is lost so.
- Definitions that share a title but not a meaning are merged into one: `SchemaMerge.MergePreservesMeaningIff`,
  `SchemaMerge.ClashLosesMeaning`.
- A TypeScript turn aborted with a falsy value never settles its promise, while its iterator ends normally:
  `TsTurn.SettlesIff`.
- A slow consumer is said never to block other turns. One goroutine pushes to all of them, so a turn with 64
  unread events and one more to come stops the loop for everybody: `GoSlowConsumer.SlowTurnStopsOthers` builds
  such a run for any two turns, `GoBackpressure.StoppedIff` says exactly when the loop is stopped,
  `GoBackpressure.ReadersKeepItGoing` what readers have to see to.
- The map of active turns can hold one that is over. `GoLeftInMap.LeftInMapIff` says exactly which finished turns
  are in it at rest: those registered after their own timer had recorded the outcome and been through `removeTurn`,
  whose frame was sent, on a client that is not closed. `GoEarlyTimeout.DoneTurnInMap` builds such a run. A timer that
  only gets to `removeTurn` after the registration takes the turn out again; a turn without a timer is never left
  (`GoLeftInMap.UntimedNeverLeft`).

## Model

| member | source | states |
|---|---|---|
| `GoInvariant.StepKeepsInv` | go/protocol/turn.go:113-216 | every step of every goroutine keeps the whole invariant: lock ownership, settlement stages, request ownership, delivery history, arrivals |
| `GoEnvironment.HappenKeepsInv` | go/protocol/client.go:212-321 | every outside event keeps it: a new call, a frame, a consumer read, a timer firing, a hang-up |
| `GoInvariant.StepNeverPanics` | go/protocol/turn.go:142-216 | from any state in the invariant no step sends on a closed channel, closes one twice or unlocks a free mutex |
| `GoTheorems.RunInv` | go/protocol/client.go:212-396 | the invariant holds in every state of every run |
| `GoTheorems.NeverPanics` | go/protocol/turn.go:142-216 | no run panics, and `events` is closed only after the outcome is recorded and `settled` is closed |
| `GoTheorems.TurnLater` | go/protocol/turn.go:113-216 | whatever a turn has decided, delivered or returned stays as it is for the rest of the run |
| `GoTheorems.FirstOutcomeWins` | go/protocol/turn.go:113-130 | every `Wait`, now or later, returns the first outcome recorded, however finish, abort and timeout race |
| `GoTheorems.DeliveryInOrder` | go/protocol/turn.go:142-180 | what was read plus what is buffered is an in-order prefix of what was routed; nothing follows a terminal event; a final response returned by `Wait` is the last event delivered |
| `GoTheorems.BlockedOnlyByRunnable` | go/protocol/turn.go:150-167 | a goroutine that cannot run waits for the outside world or for a mutex whose holder can run: waiting never chains |
| `GoTheorems.NoDeadlock` | go/protocol/turn.go:188-215 | when nothing can run, every goroutine waits for a frame, an answer, a settlement or a slow reader |
| `GoTheorems.CloseSettlesAll` | go/protocol/client.go:375-396 | at rest after a close both maps are empty, every turn ever created is settled with its channel closed, every request was answered or given back, no call is left |
| `GoProgress.StepLowersTotal` | go/protocol/client.go:313-396 | every goroutine step uses up a bounded amount of remaining work |
| `GoProgress.RestsInTime` | go/protocol/client.go:313-396 | left alone, the client comes to rest within a computed number of steps, under any scheduler |
| `GoOutcomes.RecordedIsReleased` | go/protocol/turn.go:188-215 | once an outcome is recorded, at rest the turn is settled, its channel closed and no push parked on it |
| `GoOutcomes.ClosedForever` | go/protocol/client.go:375-396 | after a close both maps stay empty forever |
| `GoOutcomes.RequestAnsweredOnce` | go/protocol/client.go:279-310 | in every state of a run the two channels of a request together hold at most one answer, exactly one while its answered call still waits, none before it is answered; it is not in the map once its call has returned. What the answer is: `GoAnswers.AnswerIs` |
| `GoReplies.OneReply` | go/protocol/client.go:331-396 | over a whole run at most one move sends on the channels of a request |
| `GoReplies.AnswerStays` | go/protocol/client.go:331-396 | an answered request stays answered for the rest of the run |
| `GoReplies.AnsweredIffReplied` | go/protocol/client.go:331-396 | a request is answered in a state exactly when some earlier move of the run replied to it |
| `GoReplies.ReplierIs` | go/protocol/client.go:341-392 | that move is the dispatcher in `route` or the one goroutine that runs `failAll`, and not both |
| `GoAnswers.RequestAnswers` | go/protocol/client.go:341-396 | in every run a result on a request's channel is an event that came in under its id and is no error; a failure is the one the client was shut down with, or has the code, message and id of an error event that came in for it |
| `GoAnswers.AnswerIs` | go/protocol/client.go:341-392 | the one move that answers a request gives it the last event that came in, which carries its id: as a result unless it is an error, as a failure that tells it if it is; or, in `failAll`, the shutdown failure |
| `GoAnswers.CallReturns` | go/protocol/client.go:301-309 | a request call that waits returns by taking the one answer off its channels, or is cancelled |
| `GoAnswers.FirstEventIsTaken` | go/protocol/client.go:331-361 | while a request stays in the map no event with its id has been dealt with: the first one `route` gets to takes it out |
| `GoAnswers.ListedHearsNothing` | go/protocol/client.go:313-361 | between two rests of the dispatcher a request that is still listed got no event |
| `GoAnswers.TurnEndsWith` | go/protocol/turn.go:132-216 | a finished turn ends with what the last event it delivered says (its final response, the code and message of its error, a decoding failure), or with its own timeout, the shutdown failure, or a failed send |
| `GoAnswers.WaitTells` | go/protocol/turn.go:113-130 | `Wait` returns the recorded failure when there is one and otherwise the recorded final response |
| `GoTimers.SettledIsUnarmed` | go/protocol/turn.go:188-215 | in every run a settled turn has no timer armed, nor has one whose timer was stopped |
| `GoTimers.NoLateFire` | go/protocol/turn.go:90-102 | no timer fires for a turn that has settled |
| `GoBackpressure.StoppedIff` | go/protocol/turn.go:155-166 | at rest, the dispatch loop takes no frame for anybody exactly when some unsettled turn has a full buffer and one event more routed than taken |
| `GoBackpressure.ReadersKeepItGoing` | go/protocol/turn.go:155-166 | at rest, while every turn is settled or has fewer than 64 unread events, the loop has ended or takes the next frame |
| `GoBackpressure.StaysStopped` | go/protocol/client.go:313-321 | a loop parked on a turn takes no frame, however long the run, until somebody reads from that turn or settles it |
| `GoSlowConsumer.SlowTurnStopsOthers` | go/protocol/turn.go:155-166 | for any two turns there is a run that parks the loop on one while the other is registered and unfinished |
| `GoLateTurns.RunOnlyItsTimer` | go/protocol/client.go:212-222 | before a turn is registered only its own timer can finish it |
| `GoLateTurns.OnlyLateTurnsStay` | go/protocol/client.go:212-222 | at rest, a finished turn is in the map only if it timed out before the move that registered it, which is necessary and not sufficient |
| `GoLeftInMap.LeftInMapIff` | go/protocol/client.go:212-240 | at rest, a turn is finished and in the map exactly when it was registered after its timer had recorded the outcome and been through `removeTurn`, its frame was sent, and the client is not closed |
| `GoLeftInMap.UntimedNeverLeft` | go/protocol/turn.go:97-100 | a turn made without a timer is not in the map once it is done and the client at rest |
| `GoLateTurns.StaysInMap` | go/protocol/client.go:369-396 | a settled turn in the map whose call has returned is in it until the client shuts down |
| `GoEarlyTimeout.DoneTurnInMap` | go/protocol/turn.go:90-102 | for any id there is a run that leaves a timed-out, closed turn in the map |
| `GoRequests.SendersNeverBlock` | go/protocol/client.go:331-396 | whoever answers a request finds its one-slot channel empty |
| `GoOutcomes.TurnGetsItsTrace` | go/protocol/client.go:331-361 | a turn whose complete trace was taken in delivered all of it and settled with its last event, unless a timeout, close or failed send on the client came first, after a prefix |
| `EndToEnd.TracesReadBack` | go/protocol/client.go:331-361 | from any interleaving of traces with distinct ids each trace can be read back by its id |
| `EndToEnd.TraceComplete` | dotnet/server/src/FrameDispatcher.cs:42-95 | a `send_message` that supplies an id is answered with one complete trace, every event of which carries that id |
| `EndToEnd.EachTurnFulfilled` | dotnet/server/src/FrameDispatcher.cs:136-165 | end to end: whatever the interleaving on the wire, each client turn delivers exactly the server's trace for it and settles with the stored reply or with the error code the trace carries, unless the client itself gave up first; also after a hang-up |
| `EndToEnd.EachTurnConcluded` | go/protocol/client.go:313-396 | at rest, with the loop waiting or ended, each of these turns has settled and its channel is closed, in one of these two ways |
| `Indexing.LatestCursorIsMax` | rust/ingestion/src/indexing.rs:143-153 | the cursor is the greatest one of a successful run of that connector, if there is any |
| `Indexing.InMemoryIndexingStore.RecordRun` | rust/ingestion/src/indexing.rs:133-141 | replaces the run with that id or appends it, and keeps all others in place |
| `Indexing.RunOnce` | rust/ingestion/src/indexing.rs:261-375 | records one run: succeeded with the greatest stamp or else the start time as cursor, the old cursor when nothing came, failed without a cursor when the pull or the ingest fails |
| `Indexing.MaxUpdatedAtIsMax` | rust/ingestion/src/indexing.rs:377-383 | the fold is a stamp of the batch that no other exceeds, and is missing only when no stamp parses |
| `Indexing.MaxUpdatedAtBound` | rust/ingestion/src/indexing.rs:377-383 | so it is bounded by any bound on all stamps |
| `Indexing.CursorIsAfter` | rust/ingestion/src/indexing.rs:327-331 | the cursor recorded is the old one for an empty batch, else the greatest stamp, else the start of the run |
| `Indexing.ActionKeepsInv` | rust/ingestion/src/indexing.rs:261-348 | edits and every phase of every overlapping run keep the coverage invariant |
| `Indexing.AtLeastOnce` | rust/ingestion/src/indexing.rs:261-348 | in every history, every version that changed before the latest cursor and is still current has been ingested; the cursor is never ahead of the clock |
| `Indexing.CursorMovesForward` | rust/ingestion/src/indexing.rs:322-348 | no action lowers the cursor; failed and empty runs leave it unchanged |
| `Indexing.CursorNeverFalls` | rust/ingestion/src/indexing.rs:143-153 | over whole histories with overlapping runs the cursor never decreases |
| `Indexing.RunsAreUpserted` | rust/ingestion/src/indexing.rs:133-141 | each landing of a run in a history is what recording it in the store does |
| `Indexing.CoverageSurvivesEditsIff` | rust/ingestion/src/indexing.rs:322-336 | coverage survives every further edit exactly when the cursor is not ahead of the clock |
| `Indexing.HistoryIngestsExisting` | rust/ingestion/src/indexing.rs:261-348 | every history ingests only versions its sources have |
| `Indexing.ReachableCoverageSurvivesIff` | rust/ingestion/src/indexing.rs:322-336 | so the condition is exact in every world of every history |
| `Indexing.LostForever` | rust/ingestion/src/connector.rs:83-100 | with an incremental source, a version behind the cursor that no run in flight reaches is never ingested by any run of any continuation |
| `Indexing.FutureEditNeverIngested` | rust/ingestion/src/indexing.rs:322-336 | in particular the edit of the history below |
| `Indexing.FutureStampLosesAnEdit` | rust/ingestion/src/indexing.rs:322-336 | a history in which a future stamp puts a later edit behind the cursor, uncovered and out of reach of every run in flight |
| `SchemaMerge.BuildMergedSchema` | python/scripts/generate.py:85-145 | the loop over files and definitions, first title wins, computes the merge function, of which the rows below say what it holds, what its entries are called and what they mean |
| `SchemaMerge.UnfoldWalk` | python/scripts/generate.py:58-82 | unfolding a rewritten schema in the merged document equals unfolding the original in its own file, when the definitions agree |
| `SchemaMerge.WalkRefs` | python/scripts/generate.py:58-82 | rewriting sends references to local definitions to references to their titles |
| `SchemaMerge.MergeFilesHolds` | python/scripts/generate.py:85-145 | the merged document holds exactly the titles of the files' items, each with the rewritten body of one of them |
| `SchemaMerge.MergedIff` | python/scripts/generate.py:85-138 | the merged document has exactly the definitions the files bring: one for each definition, called by its own title or by its file's title and its name, and one for each file that does not only choose between its definitions |
| `SchemaMerge.MergedIsTitled` | python/scripts/generate.py:108-137 | every merged definition is an object, bears the title it is keyed by, and has no `$defs` of its own |
| `SchemaMerge.EveryRefResolves` | python/scripts/generate.py:85-145 | every reference in the merged document names a definition of it |
| `SchemaMerge.MergePreservesMeaningIff` | python/scripts/generate.py:53-145 | every definition and flat file keeps its meaning to every depth exactly when items that share a title mean the same in their own files |
| `SchemaMerge.CopiesMergeSafely` | python/scripts/generate.py:97-116 | meaning is kept when items that share a title have the same rewritten text |
| `SchemaMerge.ClashLosesMeaning` | python/scripts/generate.py:103-107 | any two flat files with one title and different contents: a meaning is lost |
| `Compaction.Conversation.Compact` | dotnet/core/src/Compaction.cs:47-67 | leaves the leading system message and the longest suffix that fits, or the last message; removed and token counts are exact |
| `Compaction.KeptIff` | dotnet/core/src/Compaction.cs:47-67 | a message survives exactly when nothing is compacted, it is the last, or everything from it on fits |
| `Compaction.LastKept` | dotnet/core/src/Compaction.cs:56-64 | the final message is never dropped |
| `Compaction.UserMessageCanBeDropped` | dotnet/core/src/Compaction.cs:56-64 | a tool round whose user message is dropped |
| `Compaction.Tokens` | dotnet/core/src/Compaction.cs:37-37 | a message is estimated at four tokens and one for every four units of its text |
| `Compaction.UnitsCount` | dotnet/core/src/Compaction.cs:37-37 | a text has one unit per character and one more for each beyond the basic plane |
| `Cost.EntryOf` | dotnet/core/src/Cost.cs:6-10 | an entry has the counts that were reported, 0 for a missing one, and costs their price per million tokens of each kind, or nothing without a price |
| `Cost.OnePriceList` | dotnet/core/src/Cost.cs:48-58 | under one price list a run costs what its summed counts cost |
| `Cost.CostTracker.Record` | dotnet/core/src/Cost.cs:48-58 | appends that entry and keeps the totals equal to the sums over the entries |
| `Cost.CostTracker.ExceedsBudget` | dotnet/core/src/Cost.cs:61-75 | reports a breach exactly when the summed cost or tokens exceed a limit that is set |
| `Checkpoints.InMemoryCheckpointStore.LoadLatest` | dotnet/core/src/Checkpoint.cs:64-79 | the backward search finds the last checkpoint of the thread, or none |
| `Checkpoints.InMemoryCheckpointStore.Prune` | dotnet/core/src/Checkpoint.cs:90-102 | drops exactly the oldest of the thread beyond `keep`, leaves other threads alone, and what a negative `keep` does |
| `Checkpoints.RemoveOldest` | dotnet/core/src/Checkpoint.cs:95-99 | removing the oldest checkpoint of a thread by value shortens that thread's list by its head and no other |
| `Checkpoints.PruneKeepsLatestIff` | dotnet/core/src/Checkpoint.cs:90-102 | pruning changes what a resume finds exactly when it keeps none of some |
| `Agent.InvokeTool` | dotnet/core/src/SmoothAgent.cs:271-302 | an allowed tool runs, last, and the result is the value it returned or "Error: " and the message it threw; a denied one does not run and the result is "Denied by human: " and the reason; an unknown one gives the unknown-tool text and no effect; the call escapes exactly when the callback or the gate throws |
| `AgentEffects.FlaggedNeedsApproval` | dotnet/core/src/SmoothAgent.cs:278-289 | whatever the callback answers from one time to the next, a call that ran was just waved through, or flagged and then approved |
| `AgentEffects.RunsIffAllowed` | dotnet/core/src/SmoothAgent.cs:271-302 | what a call does runs its tool once and last exactly when the tool is known and ungated, waved through or approved; an unknown one does nothing |
| `AgentEffects.RoundRunsAllowed` | dotnet/core/src/SmoothAgent.cs:261-269 | the tools a round runs are exactly the allowed calls, each once, in order |
| `AgentEffects.CallsInAppend` | dotnet/core/src/SmoothAgent.cs:258-259 | every call among the contents of a message is taken, in order, and nothing else |
| `AgentEffects.CallsAppend` | dotnet/core/src/SmoothAgent.cs:258-259 | the calls of a reply are those of each of its messages, in order |
| `AgentEffects.PlayedIsSound` | dotnet/core/src/SmoothAgent.cs:56-88 | every trace a turn can leave has alternating answered rounds, only approved tool runs, and one entry for each model call |
| `AgentEffects.BrokenIsSafe` | dotnet/core/src/SmoothAgent.cs:56-88 | a turn that an exception broke off ran nothing that was not approved either |
| `Agent.ExecuteTools` | dotnet/core/src/SmoothAgent.cs:261-269 | one tool message whose results answer the calls in order, each telling what came of its call; the tools that run are exactly the allowed calls in order; or the round stops at the call that escaped |
| `Agent.AskModel` | dotnet/core/src/SmoothAgent.cs:58-74 | the model is shown the compacted working list, what it answers joins that list, and its reported usage is booked once in usage and tracker alike |
| `Agent.Loop` | dotnet/core/src/SmoothAgent.cs:56-88 | the turn is played from the seeded list by model calls and tool rounds in turn, up to its end or to an exception; at most max(1, MaxIterations) model calls; breach reported exactly when the last call tipped the budget, no tool after it; checkpoints are what the strategy says |
| `Agent.RunAsync` | dotnet/core/src/SmoothAgent.cs:49-91 | all of that for a turn, and the thread grows by the whole turn or not at all |
| `Agent.ResumeThread` | dotnet/core/src/SmoothAgent.cs:155-167 | the thread holds the messages of its latest checkpoint, or none |
| `Recovery.SnapshotsGrow` | dotnet/core/src/SmoothAgent.cs:169-186 | every checkpoint of a turn is the history plus a non-empty prefix of the turn, uncompacted |
| `Recovery.SnapshotsNest` | dotnet/core/src/SmoothAgent.cs:169-186 | each of them contains the ones before it |
| `Recovery.LastSnapshot` | dotnet/core/src/SmoothAgent.cs:169-186 | what the last checkpoint of a turn holds of it, for each strategy, and when there is none |
| `Recovery.ResumeDuringTurn` | dotnet/core/src/SmoothAgent.cs:169-186 | in the middle of a turn a resume finds the history and what the turn saved last, or what it found before; never less than before if that was part of the history |
| `Recovery.ResumeIsPrefixIff` | dotnet/core/src/SmoothAgent.cs:155-186 | over any turns, failed turns, crashes, restarts and prunes, a resume returns a prefix of the conversation exactly when no failed turn has left a checkpoint that nothing has overtaken, or what was said since begins with what it holds |
| `Recovery.ResumeIsPrefix` | dotnet/core/src/SmoothAgent.cs:155-186 | so always, when no failed turn saved anything |
| `Recovery.FailureRunsAhead` | dotnet/core/src/SmoothAgent.cs:61-67 | a turn that throws after its first reply leaves a checkpoint of messages the thread never took in |
| `Recovery.FailureForks` | dotnet/core/src/SmoothAgent.cs:155-186 | with a checkpoint after each tool call, a failed and then a completed turn leave thread and store with different turns, and a restart keeps the failed one |
| `Recovery.ResumeIsWholeIff` | dotnet/core/src/SmoothAgent.cs:155-186 | with a checkpoint after each iteration a resume between turns returns at least the whole conversation, and exactly that unless a failed turn that got a reply came after the last turn, crash or restart |
| `Recovery.ResumeIsWhole` | dotnet/core/src/SmoothAgent.cs:155-186 | so exactly that, when no turn failed |
| `Recovery.NoTurnLostIff` | dotnet/core/src/SmoothAgent.cs:155-186 | a strategy never loses a completed turn, whatever failures, crashes and restarts follow, exactly when it saves after each iteration |
| `Recovery.AnswerIsLost` | dotnet/core/src/SmoothAgent.cs:169-186 | the other strategies lose a turn without tool calls |
| `Recovery.SavesSeparate` | dotnet/core/src/Checkpoint.cs:55-79 | saves for one thread are invisible to all others |
| `SessionStore.InMemorySessionStore.AppendMessage` | dotnet/server/src/SessionStore.cs:74-87 | the log of that conversation grows by that message, all others and the sessions stay |
| `SessionStore.InMemorySessionStore.ListMessages` | dotnet/server/src/SessionStore.cs:89-98 | the last `limit` messages, oldest first; none for an unknown conversation |
| `SessionStore.InMemorySessionStore.CreateSession` | dotnet/server/src/SessionStore.cs:48-64 | a session under its id with an empty log |
| `ServerLoop.Stream` | dotnet/server/src/TurnRunner.cs:87-113 | the streaming loop with its set of emitted calls and map of names emits what the items call for, up to the first call that cannot be serialized |
| `ServerLoop.KnownStep` | dotnet/server/src/TurnRunner.cs:103-109 | the set and the map hold exactly the ids called so far and the name each was first called with |
| `ServerLoop.RunTurn` | dotnet/server/src/TurnRunner.cs:41-118 | a turn: citations, replayed history, the inbound message stored before streaming, the reply after it, for every point at which something may throw |
| `ServerLoop.DispatchFrame` | dotnet/server/src/FrameDispatcher.cs:42-95 | every frame, with every failure caught where the code catches it |
| `ServerTheorems.SendTrace` | dotnet/server/src/FrameDispatcher.cs:136-165 | one 202, tokens and chunks, one terminal event, when the session is found and the frame readable; otherwise one error and no change |
| `ServerTheorems.OneAnswer` | dotnet/server/src/FrameDispatcher.cs:42-95 | every other frame gets exactly one event; a dispatch throws exactly when `action` or `requestId` is not a string, and then sends nothing |
| `ServerTheorems.ReplyConserved` | dotnet/server/src/TurnRunner.cs:87-117 | the concatenated tokens are the stored outbound text and the only part of the final response, which names the stored message |
| `ServerTheorems.FailureReported` | dotnet/server/src/FrameDispatcher.cs:88-94 | a turn that throws ends in `INTERNAL_ERROR` and stores at most the question |
| `ServerTheorems.OthersUntouched` | dotnet/server/src/TurnRunner.cs:80-116 | no turn touches another conversation or a session |
| `ServerRuns.AnnouncesOpenings` | dotnet/server/src/TurnRunner.cs:99-106 | tool-call chunks announce exactly the first call of each id, in order, with its name and arguments |
| `ServerRuns.OneOpeningEach` | dotnet/server/src/TurnRunner.cs:103-106 | there are as many announcements as distinct call ids |
| `ServerRuns.OneOpening` | dotnet/server/src/TurnRunner.cs:103-106 | every called id has exactly one first call |
| `ServerRuns.LabelIsAnnounced` | dotnet/server/src/TurnRunner.cs:107-109 | a result is labelled with the name its call was announced under |
| `ServerRuns.LabelIsTool` | dotnet/server/src/TurnRunner.cs:107-109 | a result without a call is labelled "tool" |
| `ServerRuns.ReportsResults` | dotnet/server/src/TurnRunner.cs:107-111 | tool-result chunks report every result, in order, each with its text, whether it reads as an error, and the name its call was announced under before it, or "tool" |
| `ServerRuns.SameIdIff` | dotnet/server/src/FrameDispatcher.cs:88-94 | all events of a turn carry its id exactly when the client supplied one or nothing throws |
| `ServerRuns.SameIdAlwaysIff` | dotnet/server/src/FrameDispatcher.cs:136-138 | they do so whatever happens exactly when the client supplied one |
| `ServerRuns.CitationsReadable` | dotnet/server/src/TurnRunner.cs:47-69 | every citation is of a stored document the caller may read and shows its text, or the first 280 characters of it |
| `ServerRuns.CreatedIsFound` | dotnet/server/src/FrameDispatcher.cs:97-115 | a created session is found by the message after it under its id, with an empty conversation |
| `ServerRuns.CreatedStaysFound` | dotnet/server/src/FrameDispatcher.cs:97-145 | it is found by every later message, whatever frames come in between, as long as its ids are not drawn again |
| `ServerAnswers.CreateAnswers` | dotnet/server/src/FrameDispatcher.cs:97-115 | a readable create frame with a working store is answered by one 200 under its id, with the session stored for the agent asked for and an empty log; any other create frame by one internal error and no change |
| `ServerAnswers.SessionExistsIff` | dotnet/server/src/SessionStore.cs:48-72 | after any sequence of frames the store has exactly the sessions that were created |
| `ServerAnswers.GetAnswersIff` | dotnet/server/src/FrameDispatcher.cs:117-134 | after any sequence of frames a readable `get_session` is answered by one 200 under its id when a session was created under the one it names, and by NOT_FOUND when none was |
| `ServerAnswers.GetFails` | dotnet/server/src/FrameDispatcher.cs:88-94 | a `get_session` that cannot be read, or a store that fails, is answered by an internal error |
| `ServerAnswers.SendFoundIff` | dotnet/server/src/FrameDispatcher.cs:136-145 | after any sequence of frames a readable message is accepted exactly when a session was created under the id it names, and refused with NOT_FOUND otherwise |
| `ServerAnswers.PlainAnswers` | dotnet/server/src/FrameDispatcher.cs:42-87 | broken and non-object frames, a ping and a missing action: the exact answer to each, and no change to the store |
| `ServerAnswers.UnsupportedAnswer` | dotnet/server/src/FrameDispatcher.cs:83-85 | any other action is refused by name under the request's id |
| `ServerAnswers.ReplyIsTheAgents` | dotnet/server/src/TurnRunner.cs:71-97 | a turn that goes through streams exactly the text the agent says to this message, told the last fifty messages of the conversation with who said them |
| `ServerAnswers.ItemsSnoc` | dotnet/server/src/TurnRunner.cs:90-113 | of each update the text, if any, comes before its contents |
| `ServerAnswers.CitesInOrder` | dotnet/server/src/TurnRunner.cs:47-69 | a turn cites what the reranker chose, in its order, and otherwise its first three candidates |
| `ServerAnswers.FailuresAreFlagged` | dotnet/server/src/TurnRunner.cs:133-143 | a result chunk is marked as an error for every failure text the engine gives the model, and for a returned text exactly when it reads like one |
| `Server.CitationOf` | dotnet/server/src/TurnRunner.cs:64-68 | id, source and score of the hit, a link for web sources alone, and as much of the text as fits |
| `ServerRuns.SessionStays` | dotnet/server/src/SessionStore.cs:48-87 | over any frames that do not draw its ids, a session stays and the log of a conversation only grows |
| `ServerRuns.MemoryCarriesOver` | dotnet/server/src/TurnRunner.cs:71-81 | the next turn is told the question and the reply of this one, in that order, after the forty-eight messages before them |
| `ServerRuns.RepliesWereStreamed` | dotnet/server/src/TurnRunner.cs:87-117 | over any sequence of frames, every reply in a log was streamed whole by one turn of that conversation, which reported its id |
| `Facade.StreamingResponse` | dotnet/src/MeaiInterop.cs:216-273 | the delta and remainder loop yields updates that concatenate to the rendered text |
| `Facade.RendersFinalIff` | dotnet/src/MeaiInterop.cs:245-268 | the updates concatenate to the final text exactly when the streamed tokens are a prefix of it |
| `Facade.PartsAreSpaced` | dotnet/src/MeaiInterop.cs:366-374 | the text of a response with parts is its string parts, in order, one space apart |
| `Facade.FacadeGivesReply` | dotnet/src/MeaiInterop.cs:358-377 | for the server's own traces the updates concatenate to the stored reply |
| `Acl.AllowsAccess` | dotnet/server/src/Acl.cs:16-30 | the search loop decides: public, or some group shared |
| `Acl.AclKnowledgeStore.Ingest` | dotnet/server/src/Acl.cs:130-138 | replaces any entry with the id and goes last, so the store is a function of its history |
| `Acl.LatestGoverns` | dotnet/server/src/Acl.cs:130-138 | the store holds exactly the latest ingest of every id |
| `Acl.SortIsStable` | dotnet/server/src/Acl.cs:149-149 | sorted by descending score, a permutation, and hits with equal scores keep their order |
| `Acl.StableSortUnique` | dotnet/server/src/Acl.cs:149-149 | only one list has those three properties |
| `Acl.TopOfVisible` | dotnet/server/src/Acl.cs:141-154 | the result is the best `limit` of the readable matches: none left out scores more than one taken |
| `Acl.CandidatesAreReadable` | dotnet/server/src/Acl.cs:145-148 | the candidates are all the matching readable entries and nothing else |
| `Acl.NonInterference` | dotnet/server/src/Acl.cs:141-154 | two ingest histories that look the same to a caller give it the same results for every query and limit |
| `Acl.HiddenIngestInvisible` | dotnet/server/src/Acl.cs:130-154 | ingesting something unreadable under an id the caller does not see changes none of its results |
| `CsChunker.CutWindows` | dotnet/server/src/Chunker.cs:29-67 | the windowing loop computes the windows and their trimmed pieces, for every setting it does not refuse |
| `CsChunker.Chunk` | dotnet/server/src/Chunker.cs:13-68 | the whole method, with its short cuts and exceptions |
| `CsChunkerTheorems.FallbackNeverTaken` | dotnet/server/src/Chunker.cs:63-64 | with 0 <= overlap < max the next start is always past the current one |
| `CsChunkerTheorems.TwoStepsAdvance` | dotnet/server/src/Chunker.cs:33-64 | two steps in a row move the start by at least max - overlap |
| `CsChunker.WindowEnd` | dotnet/server/src/Chunker.cs:33-47 | a window stays if it reaches the end of the text, else ends at its last space past the overlap, else at its full length; with a negative overlap it may end at -1 |
| `CsChunkerTheorems.WindowsChain` | dotnet/server/src/Chunker.cs:31-65 | the windows start at 0, end with the text, stay within max and overlap as set |
| `CsChunkerTheorems.WindowCount` | dotnet/server/src/Chunker.cs:31-65 | there are at most 2 * ceil(n / (max - overlap)) windows |
| `CsChunkerTheorems.ChunkFaithful` | dotnet/server/src/Chunker.cs:13-68 | pieces are non-empty, within max, without blank ends, parts of the text in order, and hold every non-whitespace unit; and how many there can be |
| `CsChunkerTheorems.FaithfulIff` | dotnet/server/src/Chunker.cs:24-27 | that holds for every text exactly when 0 <= overlap < max |
| `RustChunker.New` | rust/ingestion/src/chunker.rs:62-68 | the clamp makes the bound at least 1, keeps an overlap below it, and brings any other down to one less than it |
| `RustChunker.HardSplitWords` | rust/ingestion/src/chunker.rs:152-170 | the loop packs the words of a paragraph greedily |
| `RustChunker.TrailingWords` | rust/ingestion/src/chunker.rs:195-211 | counting from the back gives the longest run of last words that fits |
| `RustChunker.ApplyOverlap` | rust/ingestion/src/chunker.rs:174-192 | each chunk but the first is prefixed with the tail of the packed chunk before it; nothing changes for overlap 0 |
| `RustChunker.Split` | rust/ingestion/src/chunker.rs:115-149 | the whole of `split_text`; the rows below say where it divides, packs and repeats |
| `RustChunkerTheorems.SplitRejoins` | rust/ingestion/src/chunker.rs:118-118 | joining the paragraphs with a blank line gives the document back |
| `RustParagraphs.ParagraphsIff` | rust/ingestion/src/chunker.rs:118-118 | the paragraphs are the one way to divide the document so that no part has a blank line in it, none but the last ends a line, and joining them with a blank line gives it back |
| `RustParagraphs.TrimIs` | rust/ingestion/src/chunker.rs:119-119 | trimming removes the white space around a text and nothing else |
| `RustParagraphs.EachUnitIs` | rust/ingestion/src/chunker.rs:118-128 | every unit is one whole trimmed paragraph that fits, or a run of words of a single one that does not |
| `RustChunkerTheorems.PackedWords` | rust/ingestion/src/chunker.rs:115-146 | the words of the packed chunks, in order, are the words of the document |
| `RustChunkerTheorems.OverlapWords` | rust/ingestion/src/chunker.rs:174-192 | the words of an output chunk are the previous tail and then its own |
| `RustChunkerTheorems.OverlapRecovers` | rust/ingestion/src/chunker.rs:174-192 | dropping the repeated words recovers the document's words, all of them and in order |
| `RustChunkerTheorems.PackedBounded` | rust/ingestion/src/chunker.rs:123-146 | a packed chunk is within the bound or a single longer word |
| `RustChunkerTheorems.OutputBounded` | rust/ingestion/src/chunker.rs:62-68 | without oversized words an output chunk has at most max + overlap + 1 <= 2 max characters |
| `RustChunkerTheorems.TailIsLongest` | rust/ingestion/src/chunker.rs:195-211 | a run of last words fits the overlap exactly when it is no longer than the tail |
| `RustChunkerTheorems.SplitIsGreedy` | rust/ingestion/src/chunker.rs:130-146 | no packed chunk could have taken the unit after it |
| `RustChunkerTheorems.SplitIsMinimal` | rust/ingestion/src/chunker.rs:130-146 | no way to pack the same units in order has fewer chunks |
| `RustChunkerTheorems.PackIsMinimal` | rust/ingestion/src/chunker.rs:152-170 | the same for the words of an oversized paragraph, and for any separator |
| `RustChunkerTheorems.EmptyIff` | rust/ingestion/src/chunker.rs:82-87 | a document yields no chunks exactly when it has no words |
| `TsTurn.MessageTurn.PushEvent` | typescript/src/client.ts:152-168 | keeps queue, parked call, promise and every answer equal to those of the plain sequence of acts |
| `TsTurn.MessageTurn.AbortTurn` | typescript/src/client.ts:171-174 | the same for an abort |
| `TsTurn.MessageTurn.TimerFires` | typescript/src/client.ts:142-148 | the same for the timer, which is cleared once the turn ends |
| `TsTurn.MessageTurn.CallNext` | typescript/src/client.ts:215-230 | the same for `next()`; a second outstanding call takes the place of the first, whose promise is lost |
| `TsTurn.ActFollows` | typescript/src/client.ts:152-230 | every act takes fields that stand for the acts so far to fields that stand for the acts with it |
| `TsTurn.FirstEndWins` | typescript/src/client.ts:186-190 | a turn ends by the first act that ends one |
| `TsTurn.ErrorReachesBoth` | typescript/src/client.ts:152-168 | an error message that ends a turn is delivered and then fails promise and iterator with its code and text, or the defaults for what it lacks |
| `TsTurn.AcceptedIsPrefix` | typescript/src/client.ts:152-168 | the events given out are the pushed ones in order, no further than the first terminal one |
| `TsTurn.EndMatches` | typescript/src/client.ts:155-167 | the end matches the last event taken in, unless an abort or the timer made it |
| `TsTurn.AnswersAreFinal` | typescript/src/client.ts:176-213 | an answer once given never changes |
| `TsTurn.EndRepeats` | typescript/src/client.ts:217-224 | past the last event every call gets the same answer forever: done, or the same rejection |
| `TsTurn.SettlesIff` | typescript/src/client.ts:186-213 | the promise of a turn some act has ended stays pending exactly when the first such act is an abort with a falsy value, and resolves exactly when it is a final response; the iterator is done in just these two cases |
| `TsTurn.FalsyAbortNeverSettles` | typescript/src/client.ts:197-198 | a turn aborted so at once never settles, while its iterator is done |

## Left out

- Transports, sockets and hosting: the wire is a sequence of frames and a hang-up.
- JSON and RFC 3339 parsing and printing: a frame is already split into its fields, a field that cannot be read as a string is `Other`, and an event that cannot be decoded says so.
- Fresh identifiers are supplied from outside; the Go client's request ids are assumed new and not empty, and the server's generated one not empty.
- Go: listeners, `Connect` (called once), contexts other than as a cancelled wait, and the bodies of frames sent.
- Go: a turn whose events reach the client before it is registered (`early`) is outside the end-to-end claim, since a server answers only what it was sent.
- EndToEnd.EachTurnFulfilled: speaks about states in which the dispatch loop has dealt with every frame it took; when a loop at rest is stuck instead is `GoBackpressure.StoppedIff`, and that a client comes to rest `GoProgress.RestsInTime`.
- Rust `ingest`, its ledger and progress events: one step that stores the whole batch or fails.
- A pull reads the source at one moment; one connector name stands for one source.
- Python: files whose titles are not strings, nested definitions and references out of the file; the union types and the call into the generator.
- Engine: the streaming twin of the loop, sidekick dispatch, memory and the text of the retrieved context, which is an arbitrary message.
- Server.Truncate: cuts after 280 characters where .NET cuts after 280 UTF-16 code units, which may split a character outside the basic plane.
- Token counts and costs are unbounded integers and reals: no 32- or 64-bit overflow and no decimal rounding.
- Server: what a 200 or 202 carries besides its status (the session's ids and names).
- Server: cancellation, and the confirmation and verification actions, which the .NET dispatcher does not support.
- Server: concurrent dispatches on one conversation; `ServerRuns.RepliesWereStreamed` takes frames one at a time.
- ACL store: tokenizing and overlap scoring, replaced by an arbitrary scorer with natural-number scores; write-only and read-only views.
- Rust `chunk`: ids and metadata of chunks. Lengths are in characters there, and in UTF-16 code units in the .NET chunker and in the token estimate.
- TypeScript: the client around the turn. The Python and .NET clients: the same protocol again.
- The reranker is an oracle; `ServerRuns.CitationsReadable` assumes that it chooses among the candidates it is given.
