# Verification of the fraud-detection platform's stateful cores

A Dafny model of four parts of the platform, with proofs about every run of each.

**The shared-memory request ring** (`Ring*.dfy`, `Addressing.dfy`, `SegmentLayout.dfy`, `Bits.dfy`,
`Words.dfy`, `Batcher.dfy`). Gateway threads claim positions, fill slots and publish them; the daemon
takes them, answers them in batches and recovers each position from the slot's own sequence word;
submitters or the gateway's reclaimer release them. `RingSystem` is a transition system with one
step per atomic access and separate steps for plain payload, metadata and response writes, for any
number of submitting threads, gateways and consumers. `RingInvariant` gives an inductive invariant
over every interleaving, with the flight of each position as history. A run is an `Execution`:
states, actions, and a note of what each action claimed, published, consumed or released. `RingOrigins`,
`RingDevice` and `RingAnswers` trace every answer back to the steps it comes from; `RingAlone` says
what a thread left alone gets.

**The sliding-window aggregator and its delivery loop** (`Window*.dfy`, `Strings.dfy`).
`WindowModel` says on values what one event does to the six collections; `WindowProcess.Window` is
the class with the fields updated in place and the loops, proved against it. `WindowAdmission` says from
the stored rows alone when an event is accepted and what it leaves behind. On top stand the
refinement of "recompute from the accepted history", the sink, and a delivery state machine with
fetches, failed handlers, dead letters, failed commits and restarts.

**The continuous batcher** (`Scheduler*.dfy`). Submitters and one dispatcher race on item states;
queue, one-slot reply channels, timers, contexts and Close are steps of a transition system.
`SchedulerOrigins` ties items, refusals and calls to the Submit calls and clock readings they come from;
`SchedulerAlone` says what the dispatcher makes of a healthy queue.

**Two arithmetic cores** (`MemoryPool.dfy`, `Failover.dfy`, `Arithmetic.dfy`). The bump allocator under
compare-and-swap, and the worker pool's rotation, health memory and divided time budget.

Times are integers, with 0 for Go's zero time. Amounts are exact reals with `maxAmount` as the
largest finite one. Positions are unbounded; `Words` says when the 64-bit comparisons agree with
that. Clocks, sinks, contexts, device results and handler results are chosen by the environment.

Properties that turned out to need a condition come with the exact one: the ring's end-to-end
promise holds exactly for three or more slots (`RingCapacity.CapacityIsExact`, with runs that break
it for one and two), the sink agrees with the window exactly for event times not before the zero
time minus the window (`WindowSink.AgreementIsExact`), the daemon's signed difference is exact
exactly between two jumps of the signed reading (`Words.DaemonDifferenceIsExact`), and the gateway
refuses a slot of just the metadata that the daemon accepts (`SegmentLayout.GatewayAcceptsExactly`).
Redelivery is invisible for ids unique across partitions; `WindowIds` shows two deliveries that a
shared id tells apart.

Where text and code differ, the model follows the code. The reclaimer swaps its two lists at every
tick, so a position left over by one tick is passed over by the next: a tick loads exactly what was in
the pending list when it began (`RingTicks.TickScansThePendingList`, with the failing input in
`LeftoverIsPassedOver`). The batcher's oldest time is that of the first staged slot, which stands for
all of them exactly when none has an earlier stamp (`Batcher.OldestIsFirstExactly`, with the failing
input in `PollMissesLaterSlot`).

## Model

| member | source | states |
|---|---|---|
| RingTheorems.EveryRunKeepsInv | inference_daemon/include/fraud_daemon/ring.hpp:29-104 | every execution of any number of submitters, gateways and consumers keeps the ring invariant and a balanced ledger of claims, publications, consumptions and releases |
| RingAnswers.ResponsesBelongToTheirRequests | api_gateway/src/lib.rs:689-803 | in every interleaving whatever a submitter answers was decided by one of its own steps after the submission of that request; a response carries its own id, the verdict on its own transaction if the batch that answered it was launched and synchronised and 503, 0, 0.0 if not, and the time of that batch; mismatched, incomplete or unknown responses never occur |
| RingOrigins.OutcomesHaveOrigins | api_gateway/src/lib.rs:711-803 | every Full comes from a sequence load in a full ring or from giving up at the deadline, every Stopped from the shutdown flag, every Timeout from the deadline before publication or with the response missing, every serialisation failure from the serialiser, every response from reading the slot at p+2 |
| RingOrigins.DecidingStep | api_gateway/src/lib.rs:744-803 | a submitter not yet bound to an answer becomes bound to it if and only if the step is one that decides it |
| RingDevice.AnswersTellTheDevice | inference_daemon/src/main.cpp:19-70 | a batch's stored answers follow its one launch and one synchronisation: a decodable slot ends with 200 and its own decision and score if both succeeded and with 503, 0, 0.0 otherwise, an undecodable one with 422, 0, 0.0; without a device both succeed |
| RingAnswers.AnswersAreForPublications | inference_daemon/include/fraud_daemon/ring.hpp:89-98 | every stored response moves its position from q+1 to q+2, still shows the request of the step that published q, and is 422 if that was cancelled and otherwise the table's verdict on the published transaction |
| RingAnswers.PublicationShowsRequest | api_gateway/src/lib.rs:491-532 | a publication shows the submitter's id and time stamp, no response, and a record that decodes to its own transaction, or cannot be decoded if it was cancelled |
| RingSlots.DecodeIsExact | inference_daemon/src/transaction.cpp:17-43 | a record is believed if and only if a whole frame lies where the metadata says, inside the slot, and carries the id the metadata names |
| RingSlots.ResponseIsExact | api_gateway/src/lib.rs:848-878 | a response is believed if and only if it has the expected id and a final status, and each other case gets its own error |
| RingGuarantees.OneWriterPerSlot | api_gateway/src/lib.rs:491-573 | no two parties ever hold the right to write the same slot |
| RingGuarantees.StoresAreOrderly | inference_daemon/include/fraud_daemon/ring.hpp:36-104 | every store comes from the party holding that right and is for one claimed position q of that slot; a submitter moves the sequence word from q to q+1, a consumer from q+1 to q+2, a release from q+2 to q+C, and no other store touches it |
| RingGuarantees.PositionsAreUsedOnce | inference_daemon/include/fraud_daemon/ring.hpp:36-87 | each position is claimed, published, consumed and released at most once, claims and consumptions are in order, and all positions more than C back are released |
| RingGuarantees.ClaimsFollowReleases | api_gateway/src/lib.rs:744-782 | position p is claimed only after p-C was released |
| RingGuarantees.ReleasesComeFromAnswers | api_gateway/src/lib.rs:534-543 | a release happens only from p+2, leaves exactly p+C behind, and no other release of p came before |
| RingGuarantees.ReclaimQueueIsBounded | api_gateway/src/lib.rs:440-462 | the reclaimer's lists never hold more than slot_count positions, so push finds room at once and never a duplicate |
| RingGuarantees.FullIsHonest | api_gateway/src/lib.rs:749-776 | the sequence load makes a submitter report Full if and only if the loaded position is still the enqueue cursor and p-C is claimed and unreleased at that instant, try the CAS if and only if it is not full and nobody has published the position, and start over if and only if somebody has |
| RingGuarantees.EmptyIsHonest | inference_daemon/include/fraud_daemon/ring.hpp:69-86 | the sequence load sends a consumer away if and only if the loaded position is still the dequeue cursor and unpublished at that instant; at a published cursor it goes on to the CAS |
| RingAlone.ReserveAlone | api_gateway/src/lib.rs:744-782 | from every reachable state a submitter left alone claims the position at the cursor in one pass, unless the ring is full, and then it says so |
| RingAlone.RetryAlone | inference_daemon/include/fraud_daemon/ring.hpp:36-64 | so does one that has just lost a race, whether it retries with the value it saw or starts over |
| RingAlone.PublishAlone | api_gateway/src/lib.rs:720-742 | any frame that fits the slot is published as it is, counted, and waited for |
| RingAlone.ConsumeAlone | inference_daemon/include/fraud_daemon/ring.hpp:67-87 | from every reachable state a consumer left alone stages the slot at the dequeue cursor and counts it off, unless nobody has published it, and then nothing changes |
| RingAlone.HandoffAlone | api_gateway/src/lib.rs:545-559 | a submitter that has given up releases an answered slot itself and otherwise leaves the position, once, with its gateway's reclaimer |
| RingGuarantees.ConfigStays | inference_daemon/include/fraud_daemon/shared_abi.hpp:90-105 | no execution changes the header's dimensions or the set of parties |
| RingReady.ReadyCountIsBacklog | api_gateway/src/lib.rs:501-507 | ready_count is, modulo 2^64, the published backlog plus pending decrements minus pending increments; at quiescence exactly the backlog |
| RingCapacity.TwoSlotsMixResponses | api_gateway/src/lib.rs:180-184 | a concrete run with two slots in which a submitter returns a wrong outcome |
| RingCapacity.OneSlotMixesRequests | api_gateway/src/lib.rs:180-184 | a concrete run with one slot in which a submitter returns a wrong outcome |
| RingCapacity.CapacityIsExact | api_gateway/src/lib.rs:180-184 | every execution returns only trustworthy outcomes if and only if there are at least three slots |
| RingProgress.NoPermanentHole | api_gateway/src/lib.rs:510-573 | from every reachable state, so after every continuation, a further continuation without submissions, claims and expired deadlines releases every claimed position, cancelled and timed-out ones included, leaves every slot free, and gives every waiting submitter its response |
| RingDraining.ClaimFreeRunsOnlyAdvance | api_gateway/src/lib.rs:491-573 | in every continuation of a reachable state without claims, whoever moves, a position's publications, consumptions, answers, hand-offs and releases plus what it has left at the end are at most what it had left at the start, which is at most five |
| RingDraining.ClaimFreeRunsAreBounded | inference_daemon/include/fraud_daemon/ring.hpp:67-104 | all advances of such a continuation together are at most five for each position in flight at its start, and at most C positions are |
| RingDraining.RemainingIsUnreleased | api_gateway/src/lib.rs:534-543 | a position has advances left if and only if the run has claimed and not released it |
| RingProgress.MoveOldest | inference_daemon/src/main.cpp:19-70 | whenever a position is in flight some step other than a claim is enabled that releases a position or strictly lowers the rank of the oldest one |
| RingConsumers.ConsumerStepKeepsInv | inference_daemon/src/main.cpp:19-70 | consuming, decoding, recovering positions from slots and completing keep the invariant |
| RingGateways.GatewayStepKeepsInv | api_gateway/src/lib.rs:817-846 | the reclaimer's swap, scan, release and swap_remove keep the invariant |
| RingTicks.TickScansThePendingList | api_gateway/src/lib.rs:817-846 | in every run a tick loads a position if and only if it was in the pending list at the swap, exactly once despite swap_remove, releases exactly what it finds answered, and leaves the other list waiting in the pending list |
| RingTicks.LeftoverIsPassedOver | api_gateway/src/lib.rs:825-842 | the input on which "every tick" fails: an answered leftover is passed over by a whole tick, which changes nothing in the segment |
| RingProducers.ProducerStepKeepsInv | api_gateway/src/lib.rs:689-742 | every step of submit, including cancel, timeout and hand-off, keeps the invariant |
| Addressing.IndexInjective | inference_daemon/include/fraud_daemon/shared_abi.hpp:134-137 | positions less than one generation apart use different slots |
| SegmentLayout.BothSidesPickTheSameSlot | api_gateway/src/lib.rs:486-489 | for power-of-two counts the gateway's mask and the daemon's remainder pick the same slot for every position |
| SegmentLayout.SlotsAreDisjoint | inference_daemon/include/fraud_daemon/shared_abi.hpp:134-147 | slots lie behind the header, do not overlap, end inside the segment and are aligned |
| SegmentLayout.CheckedSizeIsExact | inference_daemon/src/shared_memory.cpp:15-22 | the division test accepts exactly the valid dimensions whose exact size fits the size type |
| SegmentLayout.ValidateLayout | api_gateway/src/lib.rs:166-208 | the checks with their loop over slots accept exactly what the one-formula acceptance says, and return the exact segment size |
| SegmentLayout.GatewayAcceptsExactly | api_gateway/src/lib.rs:180-203 | on an aligned segment the gateway accepts exactly the headers valid to the daemon that fit and have room for a payload |
| SegmentLayout.MetadataOnlySlots | api_gateway/src/lib.rs:182-184 | the input that tells them apart: a header with slots of just the metadata |
| SegmentLayout.Segment.Initialize | inference_daemon/src/shared_memory.cpp:25-44 | succeeds exactly for a checked size that fits, leaves a valid header and exactly the ring's initial memory, and otherwise changes nothing |
| Bits.PowerOfTwoTest | inference_daemon/include/fraud_daemon/shared_abi.hpp:145-145 | m & (m-1) is zero if and only if m is a power of two |
| Words.GatewayDifferenceIsTrue | api_gateway/src/lib.rs:757-757 | the wrapping difference read as signed is the true difference of any two counters less than half a turn apart, on every turn |
| Words.DaemonDifferenceIsExact | inference_daemon/include/fraud_daemon/ring.hpp:40-40 | the difference of signed readings is the true one, and in range, if and only if no jump of the signed reading lies between the counters |
| Words.DaemonDifferenceFails | inference_daemon/include/fraud_daemon/ring.hpp:40-58 | the failing input: a sequence one ahead across the jump reads as behind |
| Batcher.ContinuousBatcher.PollOnce | inference_daemon/include/fraud_daemon/batcher.hpp:33-52 | takes what fits in order, dispatches if and only if something is staged and the batch is full or its first slot overdue; batches and staged slots concatenate to what was consumed |
| Batcher.OldestIsFirstExactly | inference_daemon/include/fraud_daemon/batcher.hpp:39-45 | at every clock reading a waiting batch has no overdue slot, if and only if no staged stamp is earlier than the first |
| Batcher.PollMissesLaterSlot | inference_daemon/include/fraud_daemon/batcher.hpp:39-45 | the failing input: a poll that answers false while the slot staged second is overdue |
| Batcher.ContinuousBatcher.Flush | inference_daemon/include/fraud_daemon/batcher.hpp:55-63 | hands out the staged rest so that everything consumed has been dispatched in order |
| WindowInvariant.CommitKeeps | stream_processor/aggregations/window.go:131-210 | every accepted event keeps the six collections in agreement: ids distinct and equal to the dedupe set, counts and limits exact, key sets equal, lists sorted and inside their window |
| WindowInvariant.ApplyKeeps | stream_processor/aggregations/window.go:88-119 | any call, whatever the event and the sink, keeps that agreement |
| WindowInvariant.SeenIsCounted | stream_processor/aggregations/window.go:60-62 | the deduplication set has as many ids as events are counted, so one limit bounds both |
| WindowInvariant.LateEventChangesNothing | stream_processor/aggregations/window.go:146-162 | an event behind the window expires nothing: expiry happens only together with an in-window arrival |
| WindowAdmission.AdmissionIsExact | stream_processor/aggregations/window.go:131-193 | an event is refused for capacity if and only if the ids held after it, without those of the displaced entity and the expired ones, exceed the limit; for range if and only if they do not and the entity's window sums to more than the largest amount; ignored if and only if its id or offset is a repeat; and accepted otherwise |
| WindowAdmission.AcceptedEventMovesOneRow | stream_processor/aggregations/window.go:195-231 | an accepted event leaves its entity tracked with survivors and arrival in time order, drops exactly the least active entity when a new one meets a full table, leaves every other entity and the table's size alone, and remembers exactly the ids now held |
| WindowBounds.StateIsBounded | stream_processor/aggregations/window.go:60-62 | whatever is sent, entities and events stay within their limits, partitions below 100,001, and no stored name is empty, longer than 256 bytes or has control characters |
| WindowBounds.SinkServesWellFormed | stream_processor/aggregations/materialize.go:29-47 | whatever vectors a sink is handed, it serves for every entity the latest well-formed one stored under a live context, and nothing else |
| Strings.BeforeIsLexicographic | stream_processor/aggregations/window.go:216-216 | the tie-breaking order is the lexicographic one |
| WindowHistory.RunRefinesHistory | stream_processor/aggregations/window.go:131-210 | after any calls an entity is tracked exactly when it has accepted events since it last entered, its watermark is their latest time, and its list is that history cut at the watermark in stable time order |
| WindowHistory.ReturnedFeaturesAreRecomputed | stream_processor/aggregations/window.go:174-193 | the returned count, sum, maximum and window end equal the aggregate recomputed from the whole history |
| WindowHistory.DroppedIsNeverNeeded | stream_processor/aggregations/window.go:150-162 | every later window can be recomputed from the retained items and what arrives afterwards |
| WindowLists.SortIsStable | stream_processor/aggregations/window.go:161-161 | items with equal times keep their order of acceptance |
| WindowOrder.OrderIndependence | stream_processor/aggregations/window.go:131-210 | two runs that accept the same events in any order without eviction agree on every entity's events, watermark, count, sum and maximum |
| WindowSink.FeaturesAreValid | stream_processor/aggregations/materialize.go:161-170 | every vector the window yields passes the sink's validation |
| WindowSink.SinkAgrees | stream_processor/aggregations/window.go:102-119 | after any calls with event times not before the zero time minus the window, the sink holds the committed aggregate of every tracked entity, and Snapshot shows the same at any time not past its watermark |
| WindowSink.AgreementIsExact | stream_processor/aggregations/window.go:112-117 | an event keeps that agreement from every agreeing state if and only if its time is not before the zero time minus the window |
| WindowSink.TooOldIsNotServed | stream_processor/aggregations/window.go:158-186 | the counterexample: an older first event makes its entity tracked but not served |
| WindowSink.SnapshotAgrees | stream_processor/aggregations/window.go:243-267 | a snapshot at any time not past the watermark shows what the sink serves |
| WindowSink.SnapshotIsRecomputed | stream_processor/aggregations/window.go:243-267 | a snapshot at any time is the aggregate of the accepted history inside its window |
| WindowDelivery.AcceptedAtMostOnce | stream_processor/aggregations/window.go:135-140 | an event once accepted is never accepted again in any run, not even after its id expired or its entity was evicted |
| WindowDelivery.RedeliveryIsInvisible | stream_processor/ingestion/ingestion.go:266-357 | after any trace of fetches, failed handlers, dead letters, failed commits and restarts the window is that of applying each accepted record once, in each partition records are accepted in log order and at most once, and every committed record was accepted or dead-lettered |
| WindowDelivery.WithoutDeadLetters | stream_processor/ingestion/ingestion.go:324-357 | without dead letters, as under the halting policy, the accepted records of each partition are a prefix of its log and only accepted ones are committed |
| WindowDelivery.SinkAgreesAfterDelivery | stream_processor/ingestion/ingestion.go:266-357 | after any delivery trace of records not before the zero time minus the window, the sink serves the committed aggregate of every tracked entity |
| WindowCommits.AttemptPassesExactly | stream_processor/ingestion/ingestion.go:324-342 | an attempt passes if and only if the event is valid and either a repeat or admissible with the sink storing what changed; otherwise record, window and sink stay where they are |
| WindowCommits.SettledIsNeverRefetched | stream_processor/ingestion/ingestion.go:270-281 | whatever fails and restarts afterwards, no settled record is handed out again |
| WindowCommits.UnsettledIsRefetched | stream_processor/ingestion/ingestion.go:270-281 | after a restart a partition's next record is the first one behind its last settled one |
| WindowCommits.DeliveryCanFinish | stream_processor/ingestion/ingestion.go:266-357 | after any trace there is a continuation that settles every record of every partition and dead-letters only records that cannot pass at that moment |
| WindowIds.SharedIdsMakeRestartsVisible | stream_processor/aggregations/window.go:135-140 | why ids must be unique across partitions: two finished deliveries of logs with a shared id, one interrupted by a restart, end with different entities tracked |
| WindowReplay.OnePartitionReplays | stream_processor/ingestion/ingestion.go:266-357 | a finished delivery of one partition without dead letters leaves exactly the state of applying the log once |
| WindowReplay.DeliveriesAgree | stream_processor/ingestion/ingestion.go:266-357 | any two deliveries that have accepted the same records, dead letters or not, agree on every entity when the table has room for all entities |
| WindowReplay.FinishedDeliveriesAgree | stream_processor/ingestion/ingestion.go:266-357 | so do any two finished deliveries without dead letters |
| WindowProcess.FirstSince | stream_processor/aggregations/window.go:152-152 | the binary search finds the number of expired leading events |
| WindowProcess.Accumulate | stream_processor/aggregations/window.go:174-183 | the summing loop stops exactly when the whole sum leaves the range, and otherwise yields count, sum and maximum |
| WindowProcess.Window.OldestEntity | stream_processor/aggregations/window.go:212-221 | for every iteration order of the map the answer is the one least active entity, ties broken by name |
| WindowProcess.Window.PrepareUpdate | stream_processor/aggregations/window.go:131-193 | computes exactly the specified update or error and changes nothing; which of them follows from the ids and the sum the table would hold |
| WindowProcess.Window.CommitUpdate | stream_processor/aggregations/window.go:195-210 | the in-place updates and id-deleting loops give exactly the specified table |
| WindowProcess.Window.EvictEntity | stream_processor/aggregations/window.go:223-231 | removes the entity and its ids from every collection and nothing else; an untracked one changes nothing |
| WindowProcess.Window.ApplyEvent | stream_processor/aggregations/window.go:88-97 | moves the table as specified, keeps its invariant, and leaves it unchanged on every error or no-op |
| WindowProcess.Window.ApplyAndMaterialize | stream_processor/aggregations/window.go:102-119 | table and sink move together; a missing or failing sink leaves both unchanged |
| WindowProcess.Window.TakeSnapshot | stream_processor/aggregations/window.go:243-267 | the filtering loop computes the specified snapshot |
| WindowProcess.Window.Sizes | stream_processor/aggregations/window.go:269-281 | dedupe and entity sizes stay within the configured limits |
| WindowProcess.MemoryMaterializer.Put | stream_processor/aggregations/materialize.go:29-40 | stores exactly valid vectors under a live context; a failed call stores nothing |
| WindowConsumer.MemoryConsumer.Consume | stream_processor/ingestion/ingestion.go:47-75 | events leave the queue exactly when their handler succeeded, in order; the first failure stays queued and ends the loop with window and sink as the earlier events left them; a Close by another thread ends it before the next event |
| SchedulerCalls.EveryStateIsOk | serving_plane/scheduler/scheduler.go:82-294 | every state of every run satisfies the batcher's invariant |
| SchedulerGuarantees.RepliesNeverBlock | serving_plane/scheduler/scheduler.go:228-294 | each item gets at most one reply in any run, and the dispatcher's sends are never blocked by the one-slot channel |
| SchedulerGuarantees.WaitersAreOwed | serving_plane/scheduler/scheduler.go:136-144 | a submitter in waitForResult has its reply buffered or is owed one by the current batch |
| SchedulerGuarantees.AdmittedItemsAreServed | serving_plane/scheduler/scheduler.go:111-133 | an admitted item is never answered ErrClosed or ErrFull; when the dispatcher has left nothing is queued and everyone waiting has a reply |
| SchedulerGuarantees.HandlerSeesAdmissionOrder | serving_plane/scheduler/scheduler.go:155-252 | each value reaches the handler at most once, in admission order, in batches of 1 to maxBatch, judged less than maxDelay after its Submit began |
| SchedulerGuarantees.RefusalsNeverReachHandler | serving_plane/scheduler/scheduler.go:96-134 | what reached the handler was admitted and was never answered with the scheduler's own ErrQueueDelay |
| SchedulerGuarantees.SuccessIsOwnResult | serving_plane/scheduler/scheduler.go:281-293 | a successful Submit returns the result at the index where its own value was passed |
| SchedulerGuarantees.AnswersAreFinal | serving_plane/scheduler/scheduler.go:111-144 | a returned answer never changes later in the run |
| SchedulerHonesty.FailuresAreHonest | serving_plane/scheduler/scheduler.go:79-94 | in every run an admitted item is answered ErrQueueDelay only when maxDelay has passed since its Submit began, and with a context error only when its context was done at its admission or has been cancelled since |
| SchedulerOrigins.ItemsComeFromSubmits | serving_plane/scheduler/scheduler.go:82-109 | every admitted item carries the value of the Submit call it belongs to, and its expiry is maxDelay after the moment that call began |
| SchedulerOrigins.HandlerCallsAreTimely | serving_plane/scheduler/scheduler.go:208-252 | every value of a call was submitted less than maxDelay before the clock reading at which its batch was closed |
| SchedulerOrigins.DoorIsHonest | serving_plane/scheduler/scheduler.go:96-109 | an Enqueue is answered ErrClosed if and only if it comes after Close, ErrFull if and only if it does not and maxQueue items are admitted and not yet taken, and admitted otherwise |
| SchedulerOrigins.RefusalsComeFromTheDoor | serving_plane/scheduler/scheduler.go:82-109 | every refusal before admission goes back to a context done at the beginning, to a Close, or to a full queue |
| SchedulerContexts.GoneNeverReachesHandler | serving_plane/scheduler/scheduler.go:232-252 | an item whose context is done before it is judged is never passed to the handler |
| SchedulerContexts.GoneNeverSucceeds | serving_plane/scheduler/scheduler.go:285-293 | a Submit whose context is done before its answer is chosen ends only with a context error or ErrQueueDelay |
| SchedulerAlone.HealthyQueueIsCalled | serving_plane/scheduler/scheduler.go:155-252 | left alone, a dispatcher calls the handler with the values of the first queued items, as many as fit a batch, at once and in order, and leaves the rest queued |
| SchedulerAlone.ResultsAreDelivered | serving_plane/scheduler/scheduler.go:281-293 | one result per value is passed on: every live item of the batch gets the result at its own index and its waiting Submit can return it |
| SchedulerAlone.WaitingSubmitReturns | serving_plane/scheduler/scheduler.go:111-133 | a waiting Submit returns by its own steps once its delay is used up undispatched, its context is done, or the dispatcher has left |
| SchedulerAlone.AwaitingSubmitReturns | serving_plane/scheduler/scheduler.go:136-144 | one that waits for its result returns it once it is there, and a context error once its context is done |
| SchedulerGuarantees.DispatcherCanMove | serving_plane/scheduler/scheduler.go:155-206 | the dispatcher always has a next step unless it has left or idles on an open empty queue |
| SchedulerGuarantees.CloseDrains | serving_plane/scheduler/scheduler.go:349-357 | from every reachable closed state the dispatcher's own steps lead to its end with an empty queue |
| SchedulerGuarantees.DrainIsBounded | serving_plane/scheduler/scheduler.go:349-357 | however others interleave after Close, the dispatcher takes at most a computed number of further steps |
| MemoryPool.RoundUpIsLeast | inference_daemon/src/memory_pool.cpp:16-21 | the mask form gives the least multiple of the alignment not below the value |
| MemoryPool.AllocationsAreDisjoint | inference_daemon/src/memory_pool.cpp:51-61 | under every interleaving and spurious failure a call that returns an offset returns a multiple of the alignment it asked for with all the bytes it asked for inside the pool, and no two calls share a byte of what they asked for |
| MemoryPool.RefusalIsHonest | inference_daemon/src/memory_pool.cpp:51-61 | in every run bad_alloc means that no range of the size and alignment asked for fits behind the cursor, then or later, and invalid_argument that the alignment is no power of two or leaves the word |
| MemoryPool.AllocateAlone | inference_daemon/src/memory_pool.cpp:51-61 | a call running alone gets the least aligned offset behind the cursor if and only if its bytes fit there, and moves the cursor just behind them |
| MemoryPool.RoundUpFailsExactly | inference_daemon/src/memory_pool.cpp:16-21 | rounding up throws if and only if the alignment is no power of two or the sum leaves the word |
| Failover.BudgetsNeverShrink | serving_plane/worker/worker.go:263-278 | if attempts keep to their budgets, budgets never shrink and every worker is offered at least an equal share of the initial time |
| Failover.DeadlineIsNeverExtended | serving_plane/worker/worker.go:263-278 | no attempt is given time past the caller's deadline; it gets a time of its own if and only if the time left is worth a tick for each attempt to come, and 100 ms without a deadline |
| Failover.RotationVisitsEachOnce | serving_plane/worker/worker.go:240-242 | the rotation reaches every worker index exactly once |
| Failover.Pool.Infer | serving_plane/worker/worker.go:234-261 | whatever other requests do to the health memory meanwhile, returns the answer of the first available answering worker in rotation; a failure means every worker had its turn; each attempt gets its share of the time left; the health memory is exact |
| Failover.Pool.IsAvailable | serving_plane/worker/worker.go:294-312 | a down worker is skipped until its time, then probed, and the health memory follows the probe, with other requests changing it in between |
| Failover.FailedWorkersRest | serving_plane/worker/worker.go:294-317 | over any undisturbed rounds a worker that failed a request or a probe is tried again only after a healthy probe made no earlier than the interval after its failure was recorded |
| Failover.BlamelessWorkersAreTried | serving_plane/worker/worker.go:243-255 | a worker that has not failed while its caller was alive is tried in every round |
| Failover.NextRound | serving_plane/worker/worker.go:294-312 | a worker's next round tries it if and only if the last one tried it without failure, or the interval is over and the probe healthy |

## Left out

- Weak memory: every atomic access is one sequentially consistent step; plain writes are steps of their own.
- Process crashes, System V calls, signals, segment removal, and a producer killed while it holds a slot.
- FlatBuffers encoding and verification: the payload area holds a complete frame or arbitrary bytes.
- Floating-point rounding, infinities and NaN, and the CPU scorer, attention and calibration code.
- Invalid UTF-8 in ids: strings are sequences of Unicode characters, whose order is the byte order of their encoding.
- The CUDA branch of process_batch beyond its ready or failed outcome.
- The 64-bit wrap of the ring's position counters inside the transition system; the word comparisons are treated in `Words`.
- Fairness, that is, that enabled steps are eventually taken, and wall-clock latency: timers may fire at any moment allowed by the clock, and collectionWait's guard is covered by letting the collection timer fire at any time.
- Key, value and headers of dead-letter records: the delivery model keeps which records were written.
- Exhausted fetch retries, boundedBackoff and waitBackoff: waiting times have no influence on the modelled state.
- Redis materializer, HTTP, JSON, gRPC, TLS, tokens, environment parsing and metrics text.
- The scheduler's queue and batch histograms, and the batch context's deadline handed to the handler.
- Pool.Healthy of the worker pool.
- Batcher counters as unbounded numbers; a consumer's batch inside the ring is a step sequence of RingSystem.
- Training, bundle export, load tester, figures, infrastructure files and generated bindings.
