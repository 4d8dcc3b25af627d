# Verified model of the GPU telemetry pipeline

Streamers publish telemetry records to a work queue, collectors take them from
the queue, save GPUs and records in a store and acknowledge what they have
saved. This project states in Dafny what the queue, the in-memory store, the
collector, the streamer and the event-stream client do, and proves what the
pipeline is for: nothing accepted is lost without a trace, nothing is
acknowledged before it is saved, queries see exactly what is retained, order
and fairness hold where the code provides them.

Verify with `dafny verify dfyconfig.toml`.

## How it is organised

| File | What it holds |
|---|---|
| `Domain.dfy` | records, GPUs, messages, and the query specification of `pkg/domain/query.go` |
| `QueueTypes.dfy` | the values the queue works on, its constants |
| `QueueProtocol.dfy` | the queue as a step relation: publishers, consumers, contexts, clock, Close, the distributor goroutine and the redelivery goroutine interleave freely |
| `QueueShape.dfy`, `QueueLedger.dfy`, `QueueTiming.dfy`, `QueueFifo.dfy` | what every step keeps, and what follows for every run: bounds, conservation, timing, order |
| `RoundRobin.dfy` | `deliverMessage` as a function of what it finds; work conservation and fair shares |
| `InMemoryQueue.dfy` | the queue as a class, with the loops of the source, proved against `RoundRobin` |
| `DeliveryRuns.dfy` | the sequential reading is one of the protocol's interleavings |
| `QueueFirstSends.dfy`, `QueueFairness.dfy` | the order of first sends, and fair turns, in every run |
| `QueueReach.dfy`, `QueueFate.dfy`, `QueueDeadEnds.dfy` | what goroutines left to run can reach; which messages can still be sent, and which never again |
| `EarlyAck.dfy` | what a nil result of `Ack` does and does not say |
| `MemoryStoreSpec.dfy`, `MemoryStore.dfy` | retention, re-indexing cost, index and query on plain lists; the store as a class proved against them |
| `CollectorSpec.dfy`, `Collector.dfy` | batches, GPU merge and what is saved; the collector as a class |
| `Pipeline.dfy` | queue, any number of collectors and store in every interleaving, end to end |
| `CollectorRuns.dfy` | the batch of the collector class is one of those interleavings |
| `Streamer.dfy` | the streaming loop with retry under backpressure |
| `ServerSentEvents.dfy` | the client's line machine, and the framing it undoes (sections 9.2.5 and 9.2.6 of the WHATWG HTML Living Standard) |
| `Sorting.dfy`, `Sequences.dfy`, `DivMod.dfy` | sorting, and facts about sequences and division |

### The queue, twice

`QueueProtocol` gives the queue at the grain of its locks. A step is one region
under the write lock, one channel operation, or one single access to the shared
cursor inside the read lock of `deliverMessage`, so that the distributor and the
redelivery loop race on the cursor as they do in the code. `deliverMessage` is
split into picking, sending and tracking; the batches the two goroutines have
taken out of the backlog or out of pending are part of the state. The state also
carries a history (accepted, sent, timed out, acked, dropped, untracked, expired,
cleared) that no step reads. `Publish` requires that no message with the same ID
has been accepted before: the source draws IDs at random.

`InMemoryQueue` gives the same operations as methods with loops for one caller
at a time. `DeliveryRuns` ties the two together: from any state that satisfies
the invariant, a goroutine that is not disturbed takes protocol steps that end
where the specification of the method says.

### Where the code needs a second look, or differs from its documentation

* `design.md:448` and `design.md:456` call the redelivery of unacknowledged
  messages a future enhancement. The code does it (`pkg/mq/inmemory.go:330-380`),
  and so does the model.
* `pkg/storage/interface.go:66` says that the composite key ensures uniqueness. The
  memory store does not look at it: `MemoryStoreSpec.DuplicatesAreKept` gives the
  input, and `MemoryStoreSpec.KeysStayUniqueIff` says, for a caller who knows its own
  saves, for which histories keys are unique all along.
* The comment at `pkg/mq/inmemory.go:382-384` takes a missing entry to mean an Ack
  that has already happened. It can also mean an Ack that came before the send
  was tracked: `EarlyAck.EarlyAckIsLost` is a run in which the only Ack returns nil
  and the message is sent again; `EarlyAck.NilAckIsFinalIff` says exactly when a nil
  Ack is the last word, and `QueueDeadEnds.CanSendIff` when a message can be sent at all.
* `internal/streamer/streamer.go:184` skips a record whose publish failed for another
  reason than a full queue. `Streamer.StreamsInOrderIff` says exactly when the accepted
  publishes still follow the records in order.
* Two defensive branches can never be taken: the out-of-bounds skip in the query
  (`pkg/storage/memory/store.go:237-239`, an `assert false` in
  `MemoryStore.Store.GetTelemetryByGpu`) and the cursor reset in `deliverMessage`
  (`pkg/mq/inmemory.go:266-268`, `QueueShape.CursorResetIsNeverTaken`).

## Model

| member | source | states |
|---|---|---|
| QueueShape.StepKeepsShape | pkg/mq/inmemory.go:150-380 | every step of every goroutine keeps the invariant: bounded buffers, distinct known handles, cursor inside the list, each goroutine at a sensible point, with both goroutines racing on the cursor |
| QueueShape.RunKeepsShape | pkg/mq/inmemory.go:150-380 | the invariant holds in every state of every run |
| QueueShape.BuffersBoundedAndLookupInRange | pkg/mq/inmemory.go:254-271 | in every reachable state input, each subscriber channel and backlog hold at most the buffer size and pending at most ten times that, and whoever is about to look a subscriber up finds the cursor in range |
| QueueShape.CursorResetIsNeverTaken | pkg/mq/inmemory.go:266-268 | no run ever takes the branch that resets the cursor inside deliverMessage: the clean-up's own adjustment suffices |
| QueueLedger.StepKeepsLedger | pkg/mq/inmemory.go:202-436 | every step keeps both balances: places plus outcomes equal acceptances, and sends plus waiting copies equal acceptances plus timeouts |
| QueueLedger.RunKeepsLedger | pkg/mq/inmemory.go:202-436 | both balances hold in every state of every run |
| QueueLedger.Conservation | pkg/mq/inmemory.go:202-436 | in every interleaving an accepted message is in exactly one place or has exactly one outcome, and a message never accepted is nowhere |
| QueueLedger.PendingInsertIsFresh | pkg/mq/inmemory.go:274-283 | tracking a sent message never overwrites the pending entry of another delivery |
| QueueLedger.SendsAreBounded | pkg/mq/inmemory.go:273-285 | over any run the successful sends of a message never exceed one plus the timeout sweeps that took it out of pending |
| QueueLedger.SettledIsNeverResent | pkg/mq/inmemory.go:202-436 | a message that has been acked, dropped, sent untracked, expired or cleared keeps that outcome and is never sent again in the rest of the run |
| QueueLedger.AckedIsNeverResent | pkg/mq/inmemory.go:385-404 | in particular once an Ack has removed a message's entry, it stays acked and is never sent again |
| QueueLedger.AckTakesOnlyItsOwn | pkg/mq/inmemory.go:385-404 | in any run an Ack by the consumer a message was sent to removes exactly its entry; any other Ack leaves the queue as it is |
| QueueReach.RunKeepsGood | pkg/mq/inmemory.go:150-436 | in every run, besides the invariants above: the listed subscribers are exactly the open ones, under the read lock a subscriber that was looked up is still listed, the distributor stops only after Close with its input drained and nobody listed, and Close finishes only after both goroutines with pending empty |
| QueueReach.FinishedHoldsBacklog | pkg/mq/inmemory.go:424-433 | when Close has finished, whatever the queue still holds lies in its backlog |
| QueueReach.FinishAll | pkg/mq/inmemory.go:224-226 | from every reachable state in which the other goroutine is outside the read lock there is a continuation in which a goroutine finishes with everything in hand; on it the backlog only grows, no pending entry changes, and clock, input, subscriber list and the other goroutine stay as they are |
| QueueFate.HeldCanSend | pkg/mq/inmemory.go:202-380 | whatever the queue holds, open or closed, and is neither past saving nor stranded, has a continuation that sends it |
| QueueDeadEnds.StrandedStays | pkg/mq/inmemory.go:202-436 | a message stranded by a Close stays stranded, whatever happens, until it has an outcome |
| QueueDeadEnds.GoneIsNeverSent | pkg/mq/inmemory.go:202-436 | a message that has an outcome, is past saving or is stranded is sent in no continuation |
| QueueDeadEnds.CanSendIff | pkg/mq/inmemory.go:202-436 | in every state of every run, open, draining or finished, some continuation sends an accepted message (again) if and only if the queue holds it and it is neither past saving (the distributor bound to drop it at a full backlog, its entry older than the TTL, or behind more messages of a batch to be buffered than the backlog can hold) nor stranded by a Close (nobody listed, too few rounds of the distributor left to flush it out of the backlog, or the redelivery loop stopped while it is pending or about to be) |
| EarlyAck.NilAckLetsGoIff | pkg/mq/inmemory.go:385-404 | after an Ack that returns nil the queue holds the message no more if and only if it was pending or had an outcome already |
| EarlyAck.NilAckIsFinalIff | pkg/mq/inmemory.go:385-404 | in every state of every run, after an Ack that returns nil no continuation sends the message again if and only if it was pending, or had an outcome already, or was past saving, or stranded by a Close |
| EarlyAck.EarlyAckIsLost | pkg/mq/inmemory.go:273-285 | a concrete run from creation in which the only Ack comes between send and tracking, returns nil, and the message is sent a second time |
| QueueTiming.SweepDecidesByAge | pkg/mq/inmemory.go:338-356 | every sweep of every run keeps, unchanged, exactly the entries not older than the Ack timeout (nor than the TTL), takes one message out for redelivery for each entry older than the Ack timeout but not than the TTL, and deletes one for each entry older than the TTL |
| QueueTiming.SweepLeavesOnlyYoung | pkg/mq/inmemory.go:338-356 | right after any sweep in any run no pending entry is older than the Ack timeout |
| QueueTiming.RunKeepsTimed | pkg/mq/inmemory.go:338-356 | in every run every pending entry was delivered no later than now and no earlier than the Ack timeout before the last sweep |
| QueueTiming.NothingExpires | pkg/mq/inmemory.go:346-348 | if sweeps come at most TTL minus Ack timeout apart, counting creation as the first, no message is ever deleted without redelivery |
| QueueFifo.StepKeepsLineIff | pkg/mq/inmemory.go:202-244 | without a redelivery the one step that breaks the order is a send that overtakes the backlog |
| QueueFifo.FifoIffNoOvertaking | pkg/mq/inmemory.go:202-233 | for any subscribers that come and go and through Close: while no sweep redelivers, sent messages, backlog, unsent messages in hand and input channel are always the accepted messages in order minus the full-backlog drops, if and only if no message is sent while the backlog holds older ones |
| QueueFifo.FifoUnlessGivenUp | pkg/mq/inmemory.go:246-304 | in particular if no delivery is given up to the backlog; what has been sent is then a prefix of what was accepted and not dropped |
| QueueFirstSends.StepKeepsFirstLineIff | pkg/mq/inmemory.go:202-380 | in any step of any interleaving the one thing that breaks the order of first sends is a first send that overtakes a never-sent message in the backlog |
| QueueFirstSends.FirstSendsInOrderIff | pkg/mq/inmemory.go:202-380 | for every run whatever, redeliveries and Close included: first sends so far, then the never-sent messages in backlog, hand and input channel, are always the accepted messages in order minus those dropped before they were sent, if and only if no first send overtakes a never-sent message in the backlog |
| QueueFairness.GoesRoundIffNoStaleWrite | pkg/mq/inmemory.go:266-270 | over any stretch of any run with the same subscribers, both goroutines racing: the t-th pick is the subscriber t places on and the cursor moves with it, all the way, if and only if no cursor write completes a pick made before the other goroutine moved the cursor |
| QueueFairness.ApartIsNeverStale | pkg/mq/inmemory.go:254-271 | if no cursor write falls into a pick of the other goroutine that it completes, no write is stale |
| QueueFairness.RacingPicksCollide | pkg/mq/inmemory.go:266-270 | the race itself: from any reachable state with both goroutines about to look a subscriber up, they can end up sending to the same one with the cursor moved by one |
| QueueFairness.PicksGoRound | pkg/mq/inmemory.go:253-271 | over any stretch of any run with the same subscribers, if no cursor write falls into the other goroutine's completed pick: the t-th pick of either goroutine is the subscriber t places on from the cursor, and each of n subscribers gets k / n of k picks, rounded down or up, for every k |
| QueueFairness.AttemptsGoRound | pkg/mq/inmemory.go:253-287 | the same for the attempts of a goroutine that picks alone, refused or not, while messages are published, consumed, acknowledged and swept meanwhile |
| QueueFairness.SendsGoRound | pkg/mq/inmemory.go:266-285 | the same for its sends, if it is not refused: after any k of them each of n subscribers has been sent k / n messages, rounded down or up |
| QueueFairness.BothShareFairly | pkg/mq/inmemory.go:253-287 | both goroutines together: from one moment at which nobody is sending to another, each subscriber gets its fair share of all attempts if their picks do not overlap |
| RoundRobin.RefusalsStopAtFirstAcceptance | pkg/mq/inmemory.go:253-305 | the count of refusals stops at the first accepting attempt and nowhere earlier or later |
| RoundRobin.FirstAcceptingGetsIt | pkg/mq/inmemory.go:248-285 | the first accepting subscriber in cyclic order from the cursor, if among 100 attempts, gets the message at the end of its channel; the entry it gets, where the cursor goes, and that nothing else changes are written out |
| RoundRobin.GivesUpOnlyIfAllRefuse | pkg/mq/inmemory.go:287-304 | with at most 100 subscribers a message is given up if and only if every subscriber refuses |
| RoundRobin.GivingUpTriedEveryone | pkg/mq/inmemory.go:249-305 | giving up means 100 refused attempts, at least 100 / n of them at every one of n subscribers |
| RoundRobin.WhereItGoes | pkg/mq/inmemory.go:248-304 | a delivery extends exactly one channel by exactly its message, or leaves channels and pending alone and puts the message at the end of the backlog if that is below the buffer size |
| RoundRobin.RefusedSeries | pkg/mq/inmemory.go:296-304 | while all refuse, a series of messages goes to the backlog in order, as far as there is room |
| RoundRobin.RoundsKeepOrJam | pkg/mq/inmemory.go:202-233 | with at most 100 subscribers, what waits in channels and backlog after any number of rounds of the distributor is what waited before and the messages taken in, or something is lost and then all refuse and the backlog is full |
| RoundRobin.WhatRoundsDo | pkg/mq/inmemory.go:202-233 | no message changes nothing; without subscribers the messages fill the backlog in order as far as there is room |
| RoundRobin.LostIffAllRefuseAndFull | pkg/mq/inmemory.go:248-304 | with at most 100 subscribers a delivery leaves all channels alone if and only if all refuse; channels and backlog together hold what they held and its message once, or just what they held if all refuse and the backlog is full |
| RoundRobin.TurnsClosedForm | pkg/mq/inmemory.go:266-270 | the attempts that fall on a position, in closed form |
| RoundRobin.TurnsAreFair | pkg/mq/inmemory.go:266-270 | among any k consecutive attempts each of n positions has its turn k / n times, rounded down or up |
| RoundRobin.SeriesGoesRound | pkg/mq/inmemory.go:266-285 | the sequential reading: in a series of deliveries to open subscribers with room, message j goes to position (start + j) mod n |
| RoundRobin.RoundRobinIsFair | pkg/mq/inmemory.go:266-285 | the sequential reading: each of n open subscribers with room for its share receives, in order, every n-th message of a series |
| InMemoryQueue.InMemoryMessageQueue.constructor | pkg/mq/inmemory.go:78-105 | buffer size as given or 100, Ack timeout 30 seconds, TTL 5 minutes; everything starts empty |
| InMemoryQueue.InMemoryMessageQueue.Publish | pkg/mq/inmemory.go:109-144 | each error in the order the source checks it, a full queue refuses, a nil result appends exactly the message |
| InMemoryQueue.InMemoryMessageQueue.Subscribe | pkg/mq/inmemory.go:150-171 | errors, or a fresh open subscriber at the end of the list |
| InMemoryQueue.InMemoryMessageQueue.Cleanup | pkg/mq/inmemory.go:174-194 | exactly this subscriber leaves the list, the others keep their order, the cursor is adjusted if needed, the channel is shut |
| InMemoryQueue.InMemoryMessageQueue.SafeSend | pkg/mq/inmemory.go:309-328 | a send succeeds exactly if the subscriber is not closed, its channel not shut and not full, and its context not done (or the select picks the send); then the message, and nothing else, is appended |
| InMemoryQueue.InMemoryMessageQueue.PickAndSend | pkg/mq/inmemory.go:266-274 | the subscriber under the cursor is tried, the cursor moves on by one whether it accepts or not, no other subscriber changes |
| InMemoryQueue.InMemoryMessageQueue.Attempt | pkg/mq/inmemory.go:266-285 | one attempt: pick, send, and track what was sent |
| InMemoryQueue.InMemoryMessageQueue.TrackPending | pkg/mq/inmemory.go:275-283 | a sent message becomes pending for its consumer unless pending is full |
| InMemoryQueue.InMemoryMessageQueue.BufferMessage | pkg/mq/inmemory.go:297-303 | the message joins the backlog, or is dropped when that is full |
| InMemoryQueue.InMemoryMessageQueue.DeliverMessage | pkg/mq/inmemory.go:248-306 | the retry loop ends where the search for the first acceptance ends, and returns true exactly if the message was delivered |
| InMemoryQueue.InMemoryMessageQueue.Dispatch | pkg/mq/inmemory.go:205-233 | without subscribers the message is buffered or dropped, otherwise the backlog is delivered before it, oldest first; nothing is lost but with all refusing and the backlog full |
| InMemoryQueue.InMemoryMessageQueue.DeliverEach | pkg/mq/inmemory.go:224-226 | a batch is delivered message by message, in order |
| InMemoryQueue.InMemoryMessageQueue.DistributeAvailable | pkg/mq/inmemory.go:202-233 | the distributor loop empties the input channel in order; with nothing in it nothing changes; without subscribers the backlog takes what fits; nothing is lost but with all refusing and the backlog full |
| InMemoryQueue.InMemoryMessageQueue.CollectTimedOut | pkg/mq/inmemory.go:338-358 | exactly the entries within both time limits stay, unchanged; the result holds one message for each entry over the Ack timeout and not over the TTL, whatever order the map is walked in |
| InMemoryQueue.InMemoryMessageQueue.Redeliver | pkg/mq/inmemory.go:338-375 | a whole tick: one message for each entry over the Ack timeout and not over the TTL is delivered again, or fills the backlog when there is no subscriber; nothing is lost but with all refusing and the backlog full |
| InMemoryQueue.InMemoryMessageQueue.DeliverLate | pkg/mq/inmemory.go:361-375 | a collected batch is delivered if anybody is listed, and buffered otherwise |
| InMemoryQueue.InMemoryMessageQueue.BufferBatch | pkg/mq/inmemory.go:367-373 | the backlog is extended by the batch, in order, as far as there is room |
| InMemoryQueue.InMemoryMessageQueue.Ack | pkg/mq/inmemory.go:385-404 | an error exactly for another consumer's entry, otherwise the entry, if any, is removed and nothing else |
| InMemoryQueue.InMemoryMessageQueue.Close | pkg/mq/inmemory.go:408-436 | idempotent; the input channel is distributed first, losing nothing but with all refusing and the backlog full; every listed subscriber keeps what that put into its channel and has it shut, pending is cleared, the backlog is what distribution left |
| InMemoryQueue.InMemoryMessageQueue.ShutChannels | pkg/mq/inmemory.go:424-430 | every listed channel is shut and nothing else about a subscriber changes |
| DeliveryRuns.DeliveryLeads | pkg/mq/inmemory.go:248-306 | from every state satisfying the invariant an undisturbed deliverMessage is a path of protocol steps to the state the sequential specification computes |
| DeliveryRuns.BatchLeads | pkg/mq/inmemory.go:224-226 | the same for a whole batch in hand |
| DeliveryRuns.DispatchLeads | pkg/mq/inmemory.go:205-233 | the same for the distributor's round with its backlog flush |
| DeliveryRuns.InputLeads | pkg/mq/inmemory.go:202-233 | the same for all the input channel holds, round after round, from the state's own subscribers, cursor, backlog and pending |
| DeliveryRuns.SweepLeads | pkg/mq/inmemory.go:338-375 | the same for a redelivery round, for every order of the pending map |
| DeliveryRuns.SubscribeAgrees | pkg/mq/inmemory.go:162-171 | seen from a delivery, subscribing adds one open, empty subscriber behind the others and changes nothing else |
| DeliveryRuns.CleanupAgrees | pkg/mq/inmemory.go:174-194 | a clean-up takes exactly this subscriber out of the list, the others keep their order, and the cursor goes back to the start only if it would stand outside |
| DeliveryRuns.QueuesAgree | pkg/mq/inmemory.go:134-143 | a publish appends to the input channel unless that is full, a consumer takes the oldest message of its channel and nothing else, a finished Close clears pending |
| MemoryStoreSpec.ExactRetention | pkg/storage/memory/store.go:164-176 | for the one E with E = 1 if M < 10 and 10 E <= M < 10 E + 10 otherwise: after n saves the list is the suffix of the save history of length n if n <= M, else M - E + 1 + ((n - M - 1) mod E), and never longer than M |
| MemoryStoreSpec.RetainedLengthStep | pkg/storage/memory/store.go:164-176 | one more save makes the retained length grow by one, or restart at M - E + 1 when it was M |
| MemoryStoreSpec.NewestAreKept | pkg/storage/memory/store.go:189-204 | for that E the newest min(n, M - E + 1) saved records are always retained |
| MemoryStoreSpec.ExactReindexing | pkg/storage/memory/store.go:206-214 | for that E the records re-indexed by all evictions of a history are (M - E) per eviction, one eviction every E saves once the limit is reached |
| MemoryStoreSpec.ReindexIsAmortised | pkg/storage/memory/store.go:206-214 | over any history from empty and for every limit, evictions re-index at most 18 records per save |
| MemoryStoreSpec.AmortisedBoundIsTight | pkg/storage/memory/store.go:165-172 | 17 per save would not do: limit 19 and 400 saves exceed it |
| MemoryStoreSpec.IndexAgreesSnoc | pkg/storage/memory/store.go:174-182 | appending a record and its position keeps the index in agreement with the list |
| MemoryStoreSpec.PositionsAreExact | pkg/storage/memory/store.go:174-182 | what the index holds for a UUID: ascending, exactly the positions where it occurs |
| MemoryStoreSpec.GatherIsScan | pkg/storage/memory/store.go:234-262 | following the index of a GPU through the time filters finds exactly what scanning the whole list with Matches finds, and every index is in range |
| MemoryStoreSpec.ScanAnswers | pkg/domain/query.go:35-46 | the scan holds a record, each of its fields spelt out and without GPU index and device, once for each retained record of the GPU inside the time window that has those fields |
| MemoryStoreSpec.ValidMeansSatisfiable | pkg/domain/query.go:24-46 | Validate accepts a query if and only if it names a GPU and some record could match it |
| MemoryStoreSpec.InvalidRangeFindsNothing | pkg/domain/query.go:24-32 | a query that Validate refuses for its time range finds nothing |
| MemoryStoreSpec.FirstRetainedGrows | pkg/storage/memory/store.go:164-176 | the start of what is retained never moves back |
| MemoryStoreSpec.KeysStayUniqueIff | pkg/storage/memory/store.go:153-185 | over any history of saves: keys are unique among the retained records after every save if and only if each save that repeats a key comes when the earlier save lies before the closed-form start of what is then retained |
| MemoryStoreSpec.DuplicatesAreKept | pkg/storage/memory/store.go:174-176 | a record saved twice is retained twice, and a matching query finds it twice |
| MemoryStore.Store.constructor | pkg/storage/memory/store.go:59-70 | an empty store with the given limit, or 100000 for a limit that is not positive |
| MemoryStore.Store.SaveGpu | pkg/storage/memory/store.go:74-87 | the two errors, or exactly this GPU saved or replaced, and the write is on record |
| MemoryStore.Store.SaveTelemetry | pkg/storage/memory/store.go:153-185 | the two errors, or the record is appended after the oldest tenth, at least one, has gone if the list had reached the limit; the list stays the retention function of the save history, index and GPU set agree with it, and the re-indexing cost is what the history says |
| MemoryStore.Store.MakeRoom | pkg/storage/memory/store.go:164-172 | at the limit exactly the oldest tenth, at least one, goes; below it nothing |
| MemoryStore.Store.AppendRecord | pkg/storage/memory/store.go:174-182 | the record and its position are appended, index and GPU set stay in agreement |
| MemoryStore.Store.EvictOldestRecords | pkg/storage/memory/store.go:189-215 | exactly the oldest count records go, all if there are no more; index and GPU set are rebuilt to agree with the rest, the records visited are counted |
| MemoryStore.Store.RebuildIndex | pkg/storage/memory/store.go:206-214 | index and GPU set are made to agree with the list from nothing, visiting each record once |
| MemoryStore.Store.GetTelemetryByGpu | pkg/storage/memory/store.go:220-270 | in every reachable store state the answer is sorted by time and holds a record, each of its nine copied fields spelt out, once for each retained record of the GPU inside the time window that has those fields |
| MemoryStore.Store.CollectRecords | pkg/storage/memory/store.go:234-262 | the copies of the indexed records that the time filters let through; no index points past the list |
| Sorting.StringOrder | pkg/storage/memory/store.go:141-144 | the order used for UUIDs: not beginning with the other, and the smaller code point at the first difference |
| MemoryStore.Store.ListGpus | pkg/storage/memory/store.go:119-147 | strictly ascending by UUID in that order, and exactly the saved GPUs with at least one retained record |
| CollectorSpec.BatchesKeepEverything | internal/collector/collector.go:101-145 | at any point the batches cut so far and what is buffered concatenate to exactly what was received, in order |
| CollectorSpec.BatchesAreBounded | internal/collector/collector.go:128-143 | no batch is empty or larger than max(1, BatchSize) |
| CollectorSpec.BatchesAreArrivals | internal/collector/collector.go:109-125 | when the loop stops at a cancellation or at its closed channel, nothing stays buffered and the batches concatenate to all messages that arrived before, in order |
| CollectorSpec.MergedUuidsAre | internal/collector/collector.go:156-178 | the GPU map holds exactly the non-empty UUIDs of the batch |
| CollectorSpec.MergedGpuIs | internal/collector/collector.go:160-178 | for each of them all eight fields come from the first message about it with a model, or from the first message if none has one |
| CollectorSpec.ProcessedAre | internal/collector/collector.go:280-294 | the messages saved and acknowledged are exactly those with a payload, a GPU UUID, a metric name and an ingestion time, in batch order |
| CollectorSpec.ChoiceIsUnique | internal/collector/collector.go:173-176 | that description determines the message, so it determines the map |
| CollectorSpec.SecondPassChangesNothing | internal/collector/collector.go:250-269 | merging a message of the batch once more, as the second pass does, never changes the map |
| Collector.AckAllRemoves | internal/collector/collector.go:214-223 | acknowledging a list removes exactly this consumer's own entries for those messages |
| Collector.Collector.ProcessMessage | internal/collector/collector.go:233-294 | no error exactly if payload, GPU UUID, metric name and ingestion time are there; then exactly this record is saved, and otherwise none |
| Collector.Collector.CollectGpus | internal/collector/collector.go:160-178 | the first pass computes the merge |
| Collector.Collector.SaveGpus | internal/collector/collector.go:180-190 | the store's own record of writes grows by a GPU write for each UUID of the map, exactly once, and the map goes over what was saved before |
| Collector.Collector.SaveRecords | internal/collector/collector.go:192-212 | the valid messages' records are saved in order, and the two counters grow by the saved and by the failed ones |
| Collector.Collector.AckMessages | internal/collector/collector.go:214-223 | an Ack is attempted for every message of the list, in order |
| Collector.Collector.ProcessBatch | internal/collector/collector.go:148-230 | the store is written first each GPU once, then the records of exactly the messages with payload, GPU UUID, metric name and ingestion time, in batch order; Acks are attempted for exactly those, in order; counts add up to the batch; every UUID in retained telemetry stays saved as a GPU |
| Collector.Collector.OnEvent | internal/collector/collector.go:110-143 | one turn of the select: a message below the batch size waits, at the batch size the batch is processed and the buffer emptied in place, and a tick or an exit processes what is buffered, if anything |
| Collector.Append | internal/collector/collector.go:129 | append in place while there is capacity, else into a larger array; the contents gain exactly the message |
| Collector.Collector.ProcessMessages | internal/collector/collector.go:102-145 | with the buffer reused in place: the batches handed over are the specified ones, and records saved, Acks attempted and counts are those of all messages in them |
| Pipeline.MoveKeepsPipelineOk | internal/collector/collector.go:180-223 | every move of queue, collectors and store keeps: batches hold accepted messages, GPUs are saved before records, whatever is acked has been saved |
| Pipeline.HistoryKeepsPipelineOk | internal/collector/collector.go:180-223 | that holds in every state of every run of the whole system |
| CollectorRuns.BatchGetsDone | internal/collector/collector.go:148-223 | a collector of the whole system that is left to run with its batch gets to where ProcessBatch gets: merged GPUs saved, valid messages saved in order, its own pending entries for them removed, batch empty |
| Pipeline.CollectorsAckAsSubscribed | internal/collector/collector.go:68-70 | in every run each collector reads from a subscription that carries the name with which it acknowledges |
| Pipeline.AcceptedIsHeldSavedOrLost | pkg/mq/inmemory.go:246-436 | in every run of the whole system an accepted message is exactly one of: held by a queue that Close has not finished with, acked with its record saved, on record as lost; a backlog left behind by Close counts as lost |
| Pipeline.EndToEndNoLoss | pkg/mq/inmemory.go:246-436 | without full-backlog drops, untracked sends, expiry, or a finished Close that clears pending or leaves a backlog, every accepted message is held by a live queue or its record is in the store's history |
| Pipeline.SavedBeforeAcked | internal/collector/collector.go:214-223 | a message's record is in the store's history before the Ack that takes it out of pending |
| Pipeline.RetainedGpusAreSaved | internal/collector/collector.go:180-195 | with any number of collectors interleaving, every UUID in retained telemetry has its GPU saved |
| Pipeline.AckedIsQueryable | pkg/storage/memory/store.go:164-262 | an acked message has been saved, and while a save of it is among the newest M - E + 1, for E a tenth of M but at least one, every query for its GPU whose time window holds it finds its record |
| Pipeline.ListCoversTelemetry | pkg/storage/memory/store.go:119-147 | with only collectors writing, in any interleaving, the GPU list covers every UUID in the retained telemetry |
| Streamer.Streamer.Start | internal/streamer/streamer.go:77-201 | refuses to start without records; otherwise attempt k carries record number j mod n with the j-th ID, ingestion time and message time and the streamer's own name, where j is how many publishes before k did not meet a full queue |
| Streamer.Streamer.StreamLoop | internal/streamer/streamer.go:114-201 | the loops make attempt after attempt as Start promises, for every sequence of publish results |
| Streamer.AcceptedAndRejectedAreSettled | internal/streamer/streamer.go:152-186 | the publishes accepted and the publishes rejected together are the messages the streamer is done with |
| Streamer.AcceptedOnlyOnce | internal/streamer/streamer.go:136-186 | whatever the publishes return, no two accepted messages have the same ID |
| Streamer.SameIdIffRetry | internal/streamer/streamer.go:152-172 | two attempts carry the same message ID if and only if the queue was full from the first up to the second; then they carry the same message |
| Streamer.StreamsInOrderIff | internal/streamer/streamer.go:179-185 | the i-th accepted publish is message i for all i if and only if nothing is accepted after a publish that failed for another reason than a full queue |
| Streamer.BackpressureKeepsOrder | internal/streamer/streamer.go:136-195 | against a queue whose only error is a full queue, the i-th accepted publish carries record i mod n apart from its ingestion time, under its own ID |
| ServerSentEvents.ConnectAndStream | pkg/mq/httpclient.go:314-374 | the read loop delivers exactly the decodable payloads that the line machine gives out, up to the end of the stream |
| ServerSentEvents.TrimSpaceMeans | pkg/mq/httpclient.go:360-366 | trimming takes off blanks at both ends, all of them and nothing else |
| ServerSentEvents.OneMessageOnTheWire | pkg/mq/httpclient.go:342-373 | byte by byte: an event line, a data line and an empty line give out the text |
| ServerSentEvents.SpacedMessageOnTheWire | pkg/mq/httpclient.go:342-373 | the same with CRLF and a blank after each colon |
| ServerSentEvents.OtherEventOnTheWire | pkg/mq/httpclient.go:345-361 | byte by byte: any other event gives nothing |
| ServerSentEvents.TwoLinesOnTheWire | pkg/mq/httpclient.go:365-371 | byte by byte: two data lines are joined by one newline |
| ServerSentEvents.EndOfStreamOnTheWire | pkg/mq/httpclient.go:325-340 | at the end of the stream what is complete is given out without an empty line, but a line without its newline is lost |
| ServerSentEvents.NewEventDropsData | pkg/mq/httpclient.go:359-363 | a new event line drops the data gathered before it |
| ServerSentEvents.PayloadsOfBlock | pkg/mq/httpclient.go:342-373 | one framed block gives out what is specified for it and leaves the machine idle for the rest of the stream |
| ServerSentEvents.DecodingUndoesFraming | pkg/mq/httpclient.go:342-373 | for every list of framed blocks, LF or CRLF, the machine gives out one payload per message block with data, in order, and nothing for other event names |
| ServerSentEvents.MessageBlockIsDelivered | pkg/mq/httpclient.go:359-372 | a message block with a non-empty first trimmed data line gives its trimmed data lines joined by newlines |
| ServerSentEvents.PayloadIsJoinIff | pkg/mq/httpclient.go:365-371 | the payload is the join of the trimmed data lines if and only if the first is not empty or there is no second |
| ServerSentEvents.PayloadIsEmptyIff | pkg/mq/httpclient.go:345-346 | a message block gives nothing if and only if all its trimmed data lines are empty |
| ServerSentEvents.MessagesSurviveTheStream | pkg/mq/server.go:171-192 | of everything the service frames, its connected block and its closed block included, the client receives exactly the messages, in order |

## Left out

- QueueFifo.FifoIffNoOvertaking: for runs in which no sweep redelivers; QueueFirstSends.FirstSendsInOrderIff is for all runs, of first sends.
- QueueDeadEnds.CanSendIff: for an Ack timeout that is not negative and less than the TTL, as the 30 seconds and 5 minutes of the source are; it says that a continuation exists, not that it happens.
- RoundRobin.RoundRobinIsFair: the sequential reading, with room for everybody's share from the start; QueueFairness is for runs in which consumers drain their channels.
- QueueFairness.GoesRoundIffNoStaleWrite: for stretches with the same subscribers, because removing one only clamps the cursor.
- RoundRobin.LostIffAllRefuseAndFull: like the other results of RoundRobin, assumes that each subscriber accepts or refuses throughout one call; a Go select with a done context and room may pick either case, and the model fixes that pick per subscriber.
- ServerSentEvents.DecodingUndoesFraming: covers blocks whose event line comes first and lines ended by LF or CRLF; the client drops data that stands before an event line and does not end lines at a lone CR.
- ServerSentEvents.ConnectAndStream: ends at the end of the stream; a done context or a read error ends the loop earlier and only shortens what is received.
- Streamer.StreamsInOrderIff: for the in-process queue; over HTTP a full queue reaches the streamer as a generic error.
- InMemoryQueue.InMemoryMessageQueue.Close: sequential, so the redelivery loop is not in the middle of a round; the protocol has Close in two steps with both goroutines still running in between.
- Collector.Collector.ProcessBatch: the five-second context is not modelled, the memory store ignores it.
- No unconditional delivery is claimed: the backlog is flushed only when another message arrives, so a message may wait in it forever.
- The closed check and the send of `Publish` are one step; a Close that falls between them makes the send panic in the source.
- Sleeps, tickers, goroutine scheduling and the Go memory model: steps interleave freely under a clock that never runs backwards, and the per-round `attempts` counter, which only drives a sleep, is dropped.
- The sequential class reads the clock once per call; the protocol reads it at each tracking step.
- Records, GPUs and messages are immutable values; the store and the queue keep pointers, so a caller that changes a record after handing it over is not covered.
- Messages in a batch are never nil: the error log of the collector would dereference one.
- Map iteration is an arbitrary choice and `sort.Slice` an insertion sort of which only order and content are used, so nothing is said about the order of equal keys.
- `evictedUUIDs` in the eviction is filled and never read; `lastProcessedTime` and the width of the int64 counters are dropped too.
- When the collectors of `Pipeline` start a batch is left open, which covers every batch size and tick.
- JSON, CSV parsing, UUID generation and time formatting: decoding is a given partial function, IDs are a given injective sequence, times are integers.
- HTTP servers and clients with their retry loops, PostgreSQL, configuration, health checks, metrics, logging, process start and stop, deployment files.
- `GetGPU`, `IsClosed`, `GetSubscriberCount` and the counter getters: single reads.
