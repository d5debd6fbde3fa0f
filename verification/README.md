# Proofs about a desktop-agent daemon

A Dafny model of the daemon's concurrent message and run machinery and of the small data
structures that have a fast form and a simple meaning. Code that changes state is a class or
a method with loops, proved to compute a value function; the theorems about whole traces are
lemmas about those functions. Interleavings are lists of atomic steps, each one stretch of
code between two suspension points.

| file | what it models |
|---|---|
| `Sequences.dfy` | options, `Pick` (order-preserving selection), subsequences |
| `PubSub.dfy`, `Wire.dfy`, `Server.dfy`, `Client.dfy`, `Protocol.dfy`, `Futures.dfy`, `Progress.dfy`, `Link.dfy` | the bus, both ends of a connection as values and as objects, and their interleaving, what each future holds, and that everything arrives |
| `RateLimit.dfy` | the sliding-window limiter |
| `Executor.dfy`, `ExecutorObject.dfy`, `RunEndings.dfy`, `EventNumbers.dfy`, `KillSwitch.dfy`, `StopChecks.dfy` | concurrent runs with cancellation, event numbering, kill-switch flag, poller and the loop's checks |
| `ActionLoop.dfy` | the orchestrator's loop and the loop detector |
| `RunStore.dfy`, `StoreHistory.dfy`, `StoreOverlap.dfy`, `Migrations.dfy`, `Backfill.dfy` | the cached store, what a history of requests leaves in it, overlapping reads and writes, opening and migrating the database |
| `RingBuffer.dfy`, `ProcessTree.dfy` | the audio buffer, the process-tree search |
| `Compaction.dfy`, `Rules.dfy` | context compaction in the Claude loop, watch-rule loading and approval |

Assumptions, stated once: the limiter's clock never runs backwards; request ids are fresh
(the model ignores an issue with a used id); store calls made by a run are atomic and do not
fail; every emit comes from a run that has not ended, as all callers of the emit function
await it inside the run's body (`EmitsWhileActive`); `RunStore.dfy` runs one operation at a
time, and `StoreOverlap.dfy` lifts that; end times grow where a lemma says `Clocked`.

## Where the code and its description differ

- Ring buffer: `_full` is decided from the position after it was advanced
  (src/agent/voice/ring_buffer.py:42-44), so the class comment's promise of the newest samples
  fails for some chunk sizes. `WriteExactIff` gives the exact guard, `FlagSetEarly` and
  `FlagMissedOnWrap` the two ways it fails, `OldPosAlwaysExact` the rule that meets the promise.
- `runs` is commented "unbounded, strict" with policy `disconnect`
  (src/agent/daemon/pubsub.py:19); an unbounded queue is never full, so that policy never acts.
- A run cancelled before its first step keeps status `running` (`FirstStepDecides`,
  `UnenteredStaysRunning`), and a cancellation landing after the try body breaks the agreement of
  status, event and outcome (`LifecycleAgrees` has both directions, `LateRunDisagrees` the trace).
- The kill-switch flag is cleared by any run start, so an arming can be lost
  (`StartSwallowsArming`).
- `get_run` takes no lock and reads a run with two SELECTs, so it can return a record that never
  was (`ReadIsOnceIff`, `TornReadReturned`), and a read that a write overtakes leaves a stale
  record in the cache (`FinishSettledIff`, `OvertakenReadSticks`), as does a write whose call was
  cancelled before it popped the entry (`UnpoppedWriteSticks`). `SettledIffOrderly` is exact.
- The version 5 migration backfills a column only in the open that adds it, inside a transaction
  the ALTER TABLE is not part of; a process that dies in between loses the backfill for good
  (`BackfillLostIff`, `BlankForGood`).
- A run whose own check sees the stop flag returns normally, so it is recorded as completed
  unless a cancellation lands in its try body before it is through (`StopCheckedRunRecorded`;
  one that lands later still breaks the record, as above).
- The stuck detector catches cycles of one or two actions only (`CyclesCaughtIff`).
- A first load without rules.yaml returns no rules even when learned rules exist (`LoadRules`).

## Model

| member | source | states |
|---|---|---|
| `Protocol.RunHolds` | src/agent/daemon/server.py:103-150 | the one inductive invariant: after any list of interleaved steps of bus, forwarders, writer, wire, reader and client, the line carries what was enqueued, requests are conserved in order, answers belong to their ids, queues and futures agree with what was received |
| `Protocol.EventOrder` | src/agent/daemon/server.py:52-74 | on a topic with an unbounded queue, yielded events followed by everything in the client queue, on the wire, with the writer, outbound, in the forwarder's hand and in the subscriber queue are exactly what the subscriptions let through, in every reachable state |
| `Protocol.OneSubscription` | src/agent/daemon/pubsub.py:74-86 | with one live subscription to `runs`, the client has seen a gap-free, duplicate-free prefix of what was published since, and the rest is in flight |
| `Protocol.EventSubsequence` | src/agent/daemon/server.py:52-61 | on every topic, lossy ones and re-subscriptions included, order is kept and nothing is delivered twice |
| `Protocol.RequestOrder` | src/agent/daemon/server.py:112-114 | responses received, in transit and queued, the request with the reader and the requests on the wire are together the issued ids in issue order |
| `Protocol.RequestInOnePlace` | src/agent/client/connection.py:59-67 | an issued request is in exactly one of six places; an id never issued is in none |
| `Protocol.FutureMatches` | src/agent/client/connection.py:49-52 | a resolved future holds the server's answer to its own id; a waiting one has not had its response read |
| `Protocol.ResolvedForGood` | src/agent/client/connection.py:50-52 | once a future is resolved or cancelled, no continuation of the trace changes it |
| `Futures.FutureIs` | src/agent/client/connection.py:49-71 | the future of an issued request is cancelled if and only if its caller was cancelled between the issue and the reading of its response; otherwise it is resolved with the server's answer from the moment that response is read, and waits until then |
| `Futures.Quiescent` | src/agent/client/connection.py:41-71 | with nothing in transit, every issued request is resolved with the server's answer, or cancelled if its caller was in time, and every event let through has been yielded |
| `Progress.WriterProgress` | src/agent/daemon/server.py:63-74 | the writer puts the oldest outbound frame on the wire and takes it off the queue; after waiting too long it sends a ping instead and leaves the queue alone |
| `Progress.EverythingArrives` | src/agent/daemon/server.py:52-114 | from any state with both ends up, the connection's own tasks can finish everything: each topic's events in transit are yielded in order with none lost unless an unsubscribe is under way, topics end subscribed as the last frame naming them says, every issued request is answered, nothing is left over |
| `Progress.SubscribeTakes` | src/agent/daemon/server.py:116-122 | a subscribe sent now takes effect |
| `Progress.UnsubscribeTakes` | src/agent/daemon/server.py:124-129 | an unsubscribe sent now takes effect |
| `Progress.PublishArrives` | src/agent/daemon/pubsub.py:74-86 | an event published now reaches the client after everything before it, as long as its queue has room: always for `runs`, below 256 and 1024 for the other topics |
| `Progress.RequestGetsAnswer` | src/agent/client/connection.py:59-71 | a request issued now is resolved with the server's answer |
| `Progress.QueuesBounded` | src/agent/daemon/pubsub.py:18-22 | never more than 4000 frames outbound, 256 and 1024 events queued on the bounded topics, and no subscriber written off |
| `Progress.OutboundRoom` | src/agent/daemon/server.py:45-45 | a forwarder or the reader waits exactly while 4000 frames are outbound |
| `Clients.ReadLoopQueues` | src/agent/client/connection.py:41-57 | whatever the stream delivers, the loop queues exactly its events up to the first bad frame, in order, and then one sentinel |
| `Clients.ReadLoopEnds` | src/agent/client/connection.py:41-57 | the loop always ends, and leaves settled futures as they are |
| `Clients.DaemonConnection.RunReadLoop` | src/agent/client/connection.py:41-57 | the loop over the stream computes the read loop of the protocol model |
| `Clients.DaemonConnection.Handle` | src/agent/client/connection.py:49-54 | routing of one frame: pop and resolve a pending future, or queue an event |
| `Clients.DaemonConnection.Request` | src/agent/client/connection.py:59-67 | the future is registered before the frame exists on the wire |
| `Clients.DaemonConnection.NextEvent` | src/agent/client/connection.py:76-82 | yields the head of the event queue, and ends at the sentinel |
| `Servers.Connection.OnFrame` | src/agent/daemon/server.py:103-132 | the reader's reaction to a frame, over the real bus: each new topic gets one fresh subscriber at the end of the bus's list, each dropped topic loses exactly this connection's |
| `Servers.Connection.SubscribeTopics` | src/agent/daemon/server.py:116-122 | repeated or known topics leave their queues and the bus alone; the new ones are registered once |
| `Servers.Connection.UnsubscribeTopics` | src/agent/daemon/server.py:124-129 | exactly the named topics lose their queue and what the forwarder held, and leave the bus; other connections stay |
| `Servers.Connection.BusPublish` | src/agent/daemon/pubsub.py:74-86 | a publish on the bus delivers to this connection exactly as the event theorems assume |
| `Servers.Connection.OnHandlerEnd` | src/agent/daemon/rpc.py:221-239 | the reader goes on with one response that carries the request's id |
| `Servers.Connection.DispatchBody` | src/agent/daemon/rpc.py:227-239 | the lookup, the result and the except clauses in order give each ending its result or error code |
| `Links.Link.Perform` | src/agent/daemon/server.py:52-132 | client, server and bus as objects, performed one step after another in any order, are always exactly where the protocol model's run is, so its theorems hold of them |
| `Servers.Connection.PutResponse` | src/agent/daemon/server.py:113-114 | the response waits for room in the outbound queue and frees the reader |
| `Servers.Connection.ForwarderGet` | src/agent/daemon/server.py:57-58 | takes the oldest payload of one topic and touches no other feed |
| `Servers.Connection.ForwarderPut` | src/agent/daemon/server.py:59-59 | hands the payload on as an event, or waits while the queue is full |
| `Servers.Connection.WriterGet` | src/agent/daemon/server.py:63-68 | takes the oldest outbound frame, or makes a ping when the wait timed out |
| `PubSubs.LivePartitioned` | src/agent/daemon/pubsub.py:40-49 | over any puts, gets and disconnection: the queue is a contiguous suffix of the accepted messages, and taken, dropped and queued ones partition them in order; the capacity is never exceeded |
| `PubSubs.DroppedIffOvertaken` | src/agent/daemon/pubsub.py:43-49 | a message is dropped if and only if a full capacity of newer ones is accepted before it is taken |
| `PubSubs.UnboundedLossless` | src/agent/daemon/pubsub.py:18-22 | a queue without capacity drops nothing and no put disconnects it, so the `disconnect` branch never fires for `runs` |
| `PubSubs.Subscriber.PutNowait` | src/agent/daemon/pubsub.py:40-55 | the put with its queue-full handling computes the drop policy of the model |
| `PubSubs.PubSub.Publish` | src/agent/daemon/pubsub.py:74-86 | every subscriber of the topic gets the payload by its own policy; exactly the disconnected ones leave the list, order kept |
| `PubSubs.PubSub.Unsubscribe` | src/agent/daemon/pubsub.py:69-72 | removes that subscriber and no other; absent subscribers are no error |
| `RateLimit.EvictedIsRecentLog` | src/agent/safety/rate_limit.py:91-93 | the bucket after eviction is the full admission history filtered to the window that ends now |
| `RateLimit.AdmitsIffRecent` | src/agent/safety/rate_limit.py:95-99 | admission if and only if that filtered history has fewer than max entries |
| `RateLimit.LogIsReference` | src/agent/safety/rate_limit.py:79-99 | the bucketed limiter admits exactly the requests of a rule that never evicts and looks max admissions back |
| `RateLimit.WithinWindowsIffSpaced` | src/agent/safety/rate_limit.py:79-99 | bounding every half-open window, at any real start, is the same as spacing the admissions |
| `RateLimit.AdmissionsWithinWindows` | src/agent/safety/rate_limit.py:79-99 | every half-open window of the configured length holds at most max admissions |
| `RateLimit.AdmissionsInAnyLength` | src/agent/safety/rate_limit.py:79-99 | an interval covered by k windows holds at most max*k admissions |
| `RateLimit.StaysAhead` | src/agent/safety/rate_limit.py:79-99 | the exchange argument: the limiter's j-th admission is never later than the j-th pick of any other lawful selection |
| `RateLimit.GreedyOptimal` | src/agent/safety/rate_limit.py:79-99 | no other selection of the same nondecreasing requests within the window bound has admitted more after any prefix |
| `RateLimit.RateLimiter.Check` | src/agent/safety/rate_limit.py:79-99 | the in-place check answers as the replay of all requests of its kind since the last clearing |
| `RateLimit.RateLimiter.Reset` | src/agent/safety/rate_limit.py:107-110 | every kind starts over |
| `RateLimit.RateLimiter.Reconfigure` | src/agent/safety/rate_limit.py:101-105 | new limits for every kind, and every kind starts over |
| `RateLimit.BuildLimits` | src/agent/safety/rate_limit.py:42-54 | the limit any kind ends up with: 30, 10 and 60 per minute by default, the configured numbers otherwise |
| `Executors.RunHolds` | src/agent/daemon/run_executor.py:142-202 | what holds of a run at each suspension point, for any interleaving of runs, cancellations and ticks |
| `Executors.LifecycleAgrees` | src/agent/daemon/run_executor.py:160-202 | for an entered and ended run: stored status, single terminal event, outcome and final `run_finished` agree if and only if no cancellation landed after the try body |
| `RunEndings.EndsAs` | src/agent/daemon/run_executor.py:160-202 | and on which status: completed, stuck as aborted, timeout and other errors as errored, or aborted when a cancellation landed in the try body |
| `RunEndings.OutcomeRecorded` | src/agent/learning/outcome.py:25-35 | value by value: completed with success, stuck or cancelled in the try body aborted with partial, timeout and other errors errored with failure; stored, in the terminal event, and in the last message |
| `RunEndings.LateCancellationLeaves` | src/agent/daemon/run_executor.py:170-202 | a cancellation landing later: the write it lands on counts if and only if it had taken effect, and the event after it is skipped |
| `RunEndings.EmittedArePublished` | src/agent/daemon/run_executor.py:125-140 | as many emitted events are published about a run as it emitted from its body |
| `RunEndings.LateRunDisagrees` | src/agent/daemon/run_executor.py:170-174 | a trace of the failing half: cancelled while its except clause writes, a run agrees on no status |
| `Executors.CancelledMeansAborted` | src/agent/daemon/run_executor.py:181-186 | a cancellation landing in the try body, even around the completed write, makes all of them say aborted |
| `RunEndings.FirstStepDecides` | src/agent/daemon/run_executor.py:86-109 | a run never enters its body if and only if a cancellation was pending at its first step; it then stays `running` in the table and publishes exactly its start |
| `RunEndings.UnenteredStaysRunning` | src/agent/daemon/run_executor.py:104-109 | a trace in which that happens |
| `Executors.NeverEntered` | src/agent/daemon/run_executor.py:95-102 | what an unentered run leaves behind |
| `EventNumbers.NumberingHolds` | src/agent/daemon/run_executor.py:125-132 | for any interleaving of runs and overlapping emits, each emit coming from a run that has not ended as all of the program's do, every run's numbers are exactly 0, 1, 2, ... in emit order and no (run_id, seq) key ever repeats |
| `EventNumbers.NumberingExact` | src/agent/daemon/run_executor.py:125-132 | the emit function alone, callable at any time: the numbers count up from 0 if and only if no emit of the run comes after its counter was dropped with events already numbered |
| `EventNumbers.PrimaryKeyIff` | src/agent/daemon/store.py:40-47 | the same for the key of the event table |
| `EventNumbers.LateEmitRepeats` | src/agent/daemon/run_executor.py:127-128 | a call no caller makes: one whole run followed by one more emit gives number 0 twice, since the function itself has no guard |
| `KillSwitch.ArmedIff` | src/agent/safety/killswitch.py:10-25 | the flag is up if and only if some step armed it and no later step is a run start or a tick |
| `KillSwitch.ClearedOnlyBy` | src/agent/daemon/main.py:27-32 | an armed flag is cleared only by a run start or by a tick that has asked every active run to cancel |
| `KillSwitch.ArmedThenTick` | src/agent/daemon/main.py:27-33 | arming, no run start, then a tick: every run there was at arming has ended or been asked to cancel |
| `KillSwitch.StartSwallowsArming` | src/agent/orchestrator.py:247-247 | a run that starts in between clears the flag and the active run is never asked |
| `KillSwitch.TickReachesAllIff` | src/agent/daemon/main.py:28-32 | a tick leaves every active run asked to cancel if and only if an arming is pending or all had been asked |
| `KillSwitch.KilledRunEndsAborted` | src/agent/daemon/main.py:28-32 | a run in its body when an armed tick comes ends aborted in status, event, outcome and `run_finished` |
| `StopChecks.PendingArmingStopsLoop` | src/agent/orchestrator.py:391-396 | the loop's check reads the flag of its moment in the trace: nothing runs from a check made under a pending arming on, and that check, if nothing halted before, ends the run normally |
| `StopChecks.ArmingIsNoticed` | src/agent/orchestrator.py:391-396 | an arming without a run start after it is seen by the loop's next check, or a tick before it has asked every run of that moment to cancel |
| `StopChecks.LoopEndRecorded` | src/agent/daemon/run_executor.py:160-202 | how the loop ended decides what is recorded: a normal return completed, stuck aborted, an exception errored, unless a cancellation landed in the try body |
| `StopChecks.StopCheckedRunRecorded` | src/agent/orchestrator.py:391-396 | a run whose own check saw a pending arming is recorded as completed if and only if no cancellation landed in its try body, and as aborted otherwise, none landing later |
| `ExecutorObject.RunExecutor.SubmitRun` | src/agent/daemon/run_executor.py:68-102 | the submit bookkeeping computes the model's step |
| `ExecutorObject.RunExecutor.CancelRun` | src/agent/daemon/run_executor.py:104-109 | false for unknown or finished runs, otherwise a pending cancellation and nothing else |
| `ExecutorObject.RunExecutor.EmitEvent` | src/agent/daemon/run_executor.py:125-132 | number read and counter advanced in one go |
| `ExecutorObject.RunExecutor.RunTask` | src/agent/daemon/run_executor.py:142-202 | the coroutine with its try, except clauses and finally, anything else happening at every await: from creation to end it does exactly what the trace model does |
| `ExecutorObject.RunExecutor.AwaitBody` | src/agent/daemon/run_executor.py:160-187 | completion goes on to the completed write; stuck, timeout, cancellation and other errors go to the except clause that sets the final status |
| `ExecutorObject.RunExecutor.AwaitCompleted` | src/agent/daemon/run_executor.py:166-186 | a cancellation landing on the completed write is still caught, whether or not the write took effect |
| `ExecutorObject.RunExecutor.AwaitHandler` | src/agent/daemon/run_executor.py:170-191 | status write and terminal event of the clause; a cancellation here skips the event |
| `ExecutorObject.RunExecutor.AwaitOutcome` | src/agent/daemon/run_executor.py:195-202 | outcome, then the counter is dropped, then `run_finished` |
| `ExecutorObject.DrivenAgrees` | src/agent/daemon/run_executor.py:142-202 | what the coroutine does from any reachable state: agreement of status, event, outcome and `run_finished` if and only if no late cancellation, or nothing but the start |
| `ExecutorObject.RunExecutor.Poll` | src/agent/daemon/main.py:27-33 | a poll cancels each active run in some order and only then clears the flag |
| `ActionLoops.RunActions` | src/agent/orchestrator.py:391-437 | the loop goes through exactly the turns before the first halting one, which alone decides end, executed actions and events |
| `ActionLoops.StopIsObeyed` | src/agent/orchestrator.py:391-401 | executed actions are a prefix of the brain's list and none follows a check that saw the stop flag |
| `ActionLoops.StuckErrorIff` | src/agent/orchestrator.py:429-432 | `StuckError` is raised at exactly the first action that occurs three times among the last six observed, unless a stop or fault came first |
| `ActionLoops.DoneIff` | src/agent/orchestrator.py:436-437 | `done` goes out if and only if no turn halted, and then the whole list ran |
| `ActionLoops.EventsAnnounce` | src/agent/orchestrator.py:398-398 | the announced actions are the executed ones, in order |
| `ActionLoops.EventsReport` | src/agent/orchestrator.py:417-427 | the results that go out are those of the executed actions that have one to report |
| `ActionLoops.StopTold` | src/agent/orchestrator.py:392-396 | the stop is announced, and the run returns early, if and only if the flag is what ended the loop |
| `ActionLoops.RaisedIff` | src/agent/orchestrator.py:391-434 | an exception or cancellation in any part of a turn ends the run with it, and nothing else does |
| `ActionLoops.RunTask` | src/agent/orchestrator.py:355-389 | a blocked window or a stop seen before or after deciding executes nothing; otherwise the loop decides |
| `ActionLoops.LoopDetector.Observe` | src/agent/awareness/meta_cognition.py:34-43 | the bounded history counts as the last `window` of everything observed since the reset |
| `ActionLoops.StuckIffThird` | src/agent/awareness/meta_cognition.py:34-43 | stuck, position by position: two earlier occurrences of the action among the five before it |
| `ActionLoops.CyclesCaughtIff` | src/agent/awareness/meta_cognition.py:34-43 | a cycle of p different actions is caught if and only if p is at most 2, at the third round; longer cycles never are |
| `RunStores.CacheIsTransparent` | src/agent/daemon/store.py:246-309 | over any sequence of non-overlapping operations, from any tables, every answer is the uncached one; the cache is coherent and never exceeds its capacity |
| `RunStores.HeldIff` | src/agent/daemon/store.py:440-455 | exactly which runs a cache of capacity k holds: those read since their last invalidating write whose recency rank has stayed below k |
| `RunStores.Inclusion` | src/agent/daemon/store.py:440-455 | a smaller cache is the recent end of a larger one on the same trace, so the larger never misses where the smaller hits |
| `StoreHistory.GetAnswers` | src/agent/daemon/store.py:440-475 | over every history from empty tables and every capacity: a miss exactly for runs never inserted; otherwise the first insert's details, the last update's status, end and error or the insert's own with no error, and exactly the events first appended under their numbers |
| `StoreHistory.WriteAnswers` | src/agent/daemon/store.py:230-293 | an insert is refused exactly when its run was inserted before, an append exactly when its run has an event of that number, nothing else is |
| `StoreHistory.EventIff` | src/agent/daemon/store.py:277-293 | an event is stored if and only if it was appended to that run as the first of its number |
| `StoreHistory.MetricGiven` | src/agent/daemon/store.py:311-332 | each metric column holds the last value given for it since the insert |
| `StoreHistory.MetricEmpty` | src/agent/daemon/store.py:311-332 | or nothing, if none was given |
| `StoreHistory.WhatPops` | src/agent/daemon/store.py:246-309 | a write takes exactly its own run out of the cache, and only an accepted update, append or update of some metric does |
| `StoreHistory.SixteenKept` | src/agent/daemon/store.py:52-52 | with the store's own capacity: a read run stays cached until sixteen others are more recent |
| `RunStores.EventsInOrder` | src/agent/daemon/store.py:457-475 | the events of every run are read in strictly increasing number order, whatever order they were appended in |
| `RunStores.InsertEventInOrder` | src/agent/daemon/store.py:277-293 | an accepted append adds exactly its event, in its place |
| `RunStores.RunStore.Get` | src/agent/daemon/store.py:440-455 | returns what the tables hold and moves the record to the recent end |
| `RunStores.RunStore.InsertNewRun` | src/agent/daemon/store.py:226-244 | a duplicate id is an integrity error and changes nothing |
| `RunStores.RunStore.UpdateRunStatus` | src/agent/daemon/store.py:246-270 | overwrites status, end and error of an existing row, and drops the cached record in any case |
| `RunStores.RunStore.AppendRunEvent` | src/agent/daemon/store.py:272-293 | a repeated number is an integrity error and leaves the cache alone |
| `RunStores.RunStore.UpdateRunMetrics` | src/agent/daemon/store.py:295-332 | given values overwrite, missing ones stay; nothing given touches nothing, the cache included |
| `StoreOverlap.ReturnsPieces` | src/agent/daemon/store.py:440-475 | with reads and writes overlapping freely and the two SELECTs apart, every record returned has the row of one state of the tables and the events of the same or a later one |
| `StoreOverlap.ReadIsOnceIff` | src/agent/daemon/store.py:457-475 | given end times that grow, such a record is what one state of the tables said if and only if no append to the run follows a status update of it between the two SELECTs |
| `StoreOverlap.UntornIsOnce` | src/agent/daemon/store.py:457-475 | the sufficient half without any clock |
| `StoreOverlap.TornReadReturned` | src/agent/daemon/store.py:457-475 | a trace in which the old status comes back with the new event, which no state ever said |
| `StoreOverlap.FinishSettledIff` | src/agent/daemon/store.py:446-455 | given end times that grow, filing a read leaves the cache current if and only if its run was not updated since the first SELECT nor appended to since the second, or the pop is still to come |
| `StoreOverlap.StraySettledIff` | src/agent/daemon/store.py:1044-1053 | a write that commits after its call has gone keeps the cache current if and only if it changes nothing a record shows, or its run is not cached, or is about to be popped |
| `StoreOverlap.AbandonSettledIff` | src/agent/daemon/store.py:252-256 | a write cancelled between commit and pop keeps the cache current if and only if its run is not cached or the log did nothing to the run since its record was read |
| `StoreOverlap.SettledIffOrderly` | src/agent/daemon/store.py:246-275 | over whole traces, given end times that grow: the cache is current at every moment if and only if no overtaken read is filed, no cached run is changed without a pop to come, and no pop of a record that is behind is given up |
| `StoreOverlap.OrderlyReadsSettle` | src/agent/daemon/store.py:246-275 | the sufficient half without any clock |
| `StoreOverlap.OvertakenReadSticks` | src/agent/daemon/store.py:440-455 | a read overtaken by a status update leaves a stale record that later reads return |
| `StoreOverlap.UnpoppedWriteSticks` | src/agent/daemon/store.py:1044-1053 | so does a write that commits after its call was cancelled or timed out, with no read overlapping |
| `StoreOverlap.ReadingDoesNotRefresh` | src/agent/daemon/store.py:441-443 | any number of later reads give the same cached record |
| `Migrations.Connection.InitDb` | src/agent/daemon/store.py:81-109 | from any version 0-5 and stopped before any statement: no statement raises, nothing is lost, nothing foreign appears; if it completes, the schema is the union with the final one, at version 5 |
| `Migrations.Connection.ApplyV2` | src/agent/daemon/store.py:111-158 | metric columns only where missing, three tables, version stamped last |
| `Migrations.Connection.ApplyV3` | src/agent/daemon/store.py:160-195 | episodes and reflections with their indexes, version stamped last |
| `Migrations.Connection.ApplyV4` | src/agent/daemon/store.py:671-725 | skill, rule and allowlist tables with their indexes, version stamped last |
| `Migrations.Connection.ApplyV5` | src/agent/daemon/store.py:727-755 | decay columns of three tables only where missing, version stamped last |
| `Migrations.Reopen` | src/agent/daemon/store.py:77-109 | opening again and again, dying anywhere, ends in the same database as one complete open, and does end once an open is given 35 statements |
| `Migrations.StopsDoNotMatter` | src/agent/daemon/store.py:81-109 | after any chain of interrupted opens the complete one has the result it would have had at the start |
| `Migrations.MigratedIsFinal` | src/agent/daemon/store.py:101-109 | opening a migrated database, interrupted or not, changes nothing |
| `Migrations.ReleasedInv` | src/agent/daemon/store.py:29-52 | the databases every released version leaves, and one without the later `runs` columns, are among those the theorems start from |
| `Migrations.ReleasesConverge` | src/agent/daemon/store.py:81-109 | all of them end in exactly the same database |
| `Migrations.StatementsFit` | src/agent/daemon/store.py:230-1038 | in a migrated database every table and column that a statement of the store names exists, and every index |
| `Backfill.StoppedAccess` | src/agent/daemon/store.py:735-755 | an open that dies before the commit leaves rows as they were, except that the first table without the column, once altered, has it empty |
| `Backfill.CompletedFills` | src/agent/daemon/store.py:735-755 | a complete open backfills every table it finds without the column |
| `Backfill.BackfillLostIff` | src/agent/daemon/store.py:735-753 | an interrupted open costs a table its backfill if and only if it was the first without the column and the column had been added |
| `Backfill.BlankIff` | src/agent/daemon/store.py:735-755 | over any chain of opens: a table ends with the column empty if and only if some open lost it that way |
| `Backfill.BlankForGood` | src/agent/daemon/store.py:739-753 | a column once left empty is never backfilled by any later opens |
| `RingBuffers.RotationInvariant` | src/agent/voice/ring_buffer.py:26-44 | after any writes the buffer unrolled from its position is the last capacity elements of zeros followed by all samples |
| `RingBuffers.ReadIsSuffix` | src/agent/voice/ring_buffer.py:46-52 | `read` is always a suffix of that window, as long as `__len__` says |
| `RingBuffers.WriteExactIff` | src/agent/voice/ring_buffer.py:42-44 | from an exact buffer, the next read is exactly the last min(total, capacity) samples if and only if a guard on position and chunk size holds |
| `RingBuffers.WriteExactFromAny` | src/agent/voice/ring_buffer.py:42-44 | from any buffer, read exactly so far or not, the next read is exact if and only if the flag just set is the right one |
| `RingBuffers.FixedChunkExactIff` | src/agent/voice/ring_buffer.py:42-44 | with a fixed chunk size the read is exact except at the one moment when the next chunk would fill the buffer |
| `RingBuffers.OldPosAlwaysExact` | src/agent/voice/ring_buffer.py:9-13 | with the flag decided from the old position, the documented contract holds after every sequence of writes |
| `RingBuffers.FlagSetEarly` | src/agent/voice/ring_buffer.py:43-44 | a zero that was never written is read back |
| `RingBuffers.FlagMissedOnWrap` | src/agent/voice/ring_buffer.py:43-44 | four writes of six samples into a new buffer of five read back one sample |
| `RingBuffers.RingBuffer.WriteChunk` | src/agent/voice/ring_buffer.py:26-44 | the slice assignments in place compute the model's write |
| `RingBuffers.RingBuffer.ReadAll` | src/agent/voice/ring_buffer.py:46-52 | computes the model's read in all three cases |
| `RingBuffers.RingBuffer.Clear` | src/agent/voice/ring_buffer.py:54-58 | back to the state of a new buffer |
| `RingBuffers.RingBuffer.Length` | src/agent/voice/ring_buffer.py:60-64 | the length is that of what `read` returns |
| `ProcessTree.BuildMaps` | src/agent/orchestrator.py:38-57 | children in row order with duplicates, details of the last row of a pid |
| `ProcessTree.Search` | src/agent/orchestrator.py:59-70 | on any finite children map, cycles and duplicates included, the loop ends and answers whether some reachable pid has a marker in its details |
| `ProcessTree.HitMeansContains` | src/agent/orchestrator.py:37-70 | reachability in the map is descent through parent links of the rows |
| `ProcessTree.ShowsIff` | src/agent/orchestrator.py:43-68 | a process shows what its last row contains, and without a row nothing |
| `ProcessTree.ProcessTreeContains` | src/agent/orchestrator.py:37-70 | true exactly when a chain of parent links from the pid ends in a process with a marker |
| `Compaction.EstimateTokens` | src/agent/brain/_common.py:25-57 | the nested loops compute the cost function, per block kind |
| `Compaction.CostInNumbers` | src/agent/brain/_common.py:31-57 | one message in numbers: 4, plus a quarter of each text, 500 per image, nothing for the rest |
| `Compaction.BlocksCostConcat` | src/agent/brain/_common.py:38-55 | blocks of a message add up |
| `Compaction.CompactMessages` | src/agent/brain/_common.py:60-111 | the list is kept, or becomes the system part and the unique suffix of whole rounds |
| `Compaction.CompactShape` | src/agent/brain/_common.py:76-98 | what is kept over budget starts at a user message and holds exactly the asked number of rounds, or all |
| `Compaction.SystemSurvives` | src/agent/brain/_common.py:79-100 | a system message at the head stays there; without one, a compacted list starts with a user message |
| `Compaction.UsersConcat` | src/agent/brain/_common.py:88-92 | rounds are counted message by message |
| `Compaction.RoundsKept` | src/agent/brain/_common.py:97-100 | how many rounds survive, in every case; some are dropped if and only if over budget with more than keep > 0 |
| `Compaction.NeverDearer` | src/agent/brain/_common.py:60-111 | compaction never raises the estimate |
| `Compaction.Idempotent` | src/agent/brain/_common.py:60-111 | compacting twice is compacting once |
| `Compaction.Decide` | src/agent/brain/claude.py:247-307 | every request sent is a suffix of the conversation, starts and ends with user, strictly alternates, and holds at least the last keep rounds; over budget with more than keep > 0 rounds it is exactly the last keep, otherwise everything; the actions are those of all replies in order; at most 20 requests |
| `Compaction.CallsInOrder` | src/agent/brain/claude.py:262-293 | a reply queues the actions of its tool calls in order and gets one result for each, in order |
| `Compaction.ActionsInOrder` | src/agent/brain/claude.py:246-307 | over all replies the actions are those of all tool calls, flattened in order |
| `Compaction.AnswerCarries` | src/agent/brain/claude.py:298-298 | the assistant message carries the response's own blocks |
| `Rules.Dedup` | src/agent/daemon/watcher_service.py:62-69 | the seen-set loop computes first occurrences |
| `Rules.FirstSurvives` | src/agent/daemon/watcher_service.py:62-69 | an entry that is first of its (on, match) key survives |
| `Rules.SurvivorIsFirst` | src/agent/daemon/watcher_service.py:62-69 | only such entries survive |
| `Rules.FirstsInOrder` | src/agent/daemon/watcher_service.py:62-69 | survivors keep their order, every key keeps exactly one |
| `Rules.UserListWins` | src/agent/daemon/watcher_service.py:50-78 | for two lists written out: the user's first entries per key, then the learned first entries whose key no user entry, valid or not, has |
| `Rules.UserRulesWin` | src/agent/daemon/watcher_service.py:50-78 | the same for every state of the two files that loads |
| `Rules.ValidatedLists` | src/agent/daemon/watcher_service.py:62-76 | deduplication and validation yield exactly the rules at the positions that are first of their key and validate, in order |
| `Rules.AppendUnchangedIff` | src/agent/learning/api.py:238-240 | appending entries changes the merged list if and only if a key is new |
| `Rules.ApprovalUnchangedIff` | src/agent/learning/api.py:132-140 | the same for approving a proposal |
| `Rules.ReapprovalChangesNothing` | src/agent/learning/api.py:132-140 | approving a proposal again, whatever came in between and however it ends, loads the same rules |
| `Rules.RepeatedApproval` | src/agent/learning/api.py:132-140 | any number of repeated approvals loads like one |
| `Rules.RuleFiles.LoadRules` | src/agent/daemon/watcher_service.py:39-81 | for every state of both files, written out: which positions of which list the rules come from, in order; a missing user file becomes the template and yields none, a broken one none, a broken or missing learned file adds none, a mixed one stops the load |
| `Rules.RuleFiles.ApproveRule` | src/agent/learning/api.py:121-140 | unknown id: key error and no change; otherwise the block's mappings go to the end of the file, started if missing, and only that proposal becomes approved; a file or block that cannot be extended is an error and no change |

## Left out

- Sockets, frame encoding and size limits, the hello handshake and version check; frames are values in FIFO queues, and a bad frame is one value.
- `Topic.voice`, which has no queue configuration.
- Servers.Connection: the forwarder's check of its subscriber's disconnected flag, which `UnboundedLossless` and the drop-oldest policy never set, and the one-second poll around its `get`.
- Timing and fairness: heartbeat intervals, timeouts and sleeps are nondeterministic choices; progress is that the tasks can always finish, not that a scheduler runs them.
- `RunExecutor.close`, `submit_plan`'s planning body and `get_brain` raising after the row was inserted.
- Executors: failing store calls, and a store write that a worker thread finishes after the awaiting call was cancelled and moved on (what that does to the record cache is in `StoreOverlap`).
- ActionLoops.RunActions: screenshots, perceptual hashes, working memory and the content of results; what an action does is one flag that says whether its result is worth an event.
- ActionLoops.RunTask: exceptions before the loop (in the first events, in context assembly or in the brain), which end the run before anything executes.
- ActionLoops: the planning variant of the orchestrator, which lists the actions and executes none.
- RingBuffers: a buffer of capacity zero, and the thread lock.
- ProcessTree.BuildMaps: reading `/proc`; rows are a parameter.
- RunStores: `list_runs`, outcomes, feedback, episodes and the other tables, which bypass the cache; SQL itself.
- Migrations: `_rebuild_runs_table` and databases with the legacy column, the vector tables, column types; of row contents only the backfilled column is modelled, in `Backfill`.
- Compaction: `keep_rounds = 0` keeps every round because its negative index is zero; the model does the same. Tool calls and their results may be separated by a cut; no pairing is claimed.
- Compaction.Decide: the client library and the meaning of actions; replies are inputs.
- Rules: YAML text and rule validation; a document is what it says under `rules`, and each mapping carries the rule it validates to. Empty texts or mappings under `rules` are not told apart from a missing key.
- Rejecting proposals, skill and allowlist approvals: single-row updates.
- `HandsfreePipeline`, command sanitising, redaction, allowlist matching, configuration loading, command line and user interfaces.
