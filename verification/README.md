# EdgeFlow: verified model

A Dafny model of EdgeFlow's event path, from the gateway's queues to the rows in the backend's
table, and proofs of what that path promises.

* **The lock-free queue.** `Ring.dfy` holds the shared memory of the sequence-stamped ring (slots,
  stamps, two cursors) with auxiliary history; `RingThreads.dfy` runs `try_push` and `try_pop` one
  atomic load, compare-and-swap or store at a time; `LockFreeMachine.dfy` adds `push`, `pop`,
  `shutdown`, the waiter count, the wait mutex and the condition variable, for any number of threads
  and any interleaving. `Parking.dfy` and `Shutdown.dfy` prove the wakeup and drain guarantees,
  `Deliveries.dfy` carries them to what the callers of `push` and `pop` see, `CallOrder.dfy` proves first
  in, first out between calls, `Progress.dfy` bounds the retries. `PushVerdict.dfy` says exactly which
  result a whole push() call reports, when it evicts and which position; `DropOldest.dfy` and
  `SoleProducer.dfy` say when that matches the mutex queue for one producer. `Executions.dfy` builds runs,
  used by `TwoProducers.dfy` and `DropOldestRuns.dfy` to show where two documented guarantees stop.
  `RingArithmetic.dfy` covers capacities and masks. `BoundedQueue.dfy` is the mutex queue and
  `LockFreeQueue.dfy` the ring as an object over arrays, proved interchangeable with it.
* **Exactly-once ingestion.** `Backend.dfy` is the lease protocol over Redis and the database with any
  number of concurrent attempts, expiry at any time, refused, failed and half-failed commands;
  `IngestService.dfy` is the code of one attempt, each of its three steps proved to be the protocol's
  step from every state other attempts may have left; `Repository.dfy`
  is the chunked, transactional insert; `HttpSink.dfy` and `Retry.dfy` are the sink's threads,
  connections, retries and timing; `EndToEnd.dfy` composes sink and backend into one system and
  proves the results that span both; `Losses.dfy` says why a batch is given up, over every history;
  `Delivery.dfy` is the history in which nothing fails, `Recounting.dfy` one in which one line is counted
  twice.
* **The gateway pipeline.** `Gateway.dfy` connects connections, event queue, workers and batcher;
  `Batcher.dfy` is the batcher as an object; `Pipeline.dfy` joins the gateway to sink and backend, from
  the line read to the row stored; `Snapshot.dfy` is a run that ends where the final snapshot is taken.
  `LockFreeGateway.dfy` puts the connections on the lock-free queue, atomic step by atomic step, and
  `UncountedEvent.dfy` is a run in which that build loses an event to no counter.
* **Queries and statistics.** `Keyset.dfy` is keyset pagination against a changing table, `Stats.dfy`
  the latency histogram, `Recorders.dfy` its concurrent recorders.
* `Tally.dfy` and `QueueTypes.dfy` hold shared counting lemmas and types.

Protocols between threads or processes (`lock_free_bounded_queue.hpp`, `http_sink.cpp`,
`connection.hpp`, `worker_pool.hpp`, the interleaving of ingest attempts) are state machines on values:
a run is a sequence of states, each obtained from the last by one atomic step of one participant, and
a theorem about a run quantifies over all of them. Code that one caller runs to its end is a method or
a class with the fields the source has.

Where the source's own words and its code disagree, the model follows the code:

* `gateway/include/edgeflow/gateway/http_sink.hpp:42-47` says that Block makes `consume()` wait. `push`
  never waits (`core/include/edgeflow/bounded_queue.hpp:43`): `ConsumeNeverWaits` proves that a batch is
  dropped and counted exactly when the queue is full, under every policy.
* `core/include/edgeflow/lock_free_bounded_queue.hpp:31-38` says that with one producer DropOldest always
  matches the mutex queue exactly. `CallVerdictIff` gives the verdict of every push() call of every run by
  what its stamp loads met, for any number of producers, and `PushVerdictIff` puts it in the queue's terms
  for one. `AgreesWithReferenceIff` gives when result, evicted item and contents are the reference's: with
  fewer than N items at the first try_push's last load, if and only if no consumer then held the position
  one lap back; with N items, if and only if the evicting try_pop's last load was still at the head of that
  load and no consumer held the position one lap back at the second try_push's. A run from every initial
  machine fails it in each way: `StalledConsumerLosesAnItem` (rejected, an item discarded),
  `DrainedQueueRejects` (rejected on an empty queue), `SlowReleaseEvicts` (an item evicted although fewer
  than N are queued), `OvertakenPushEvictsAnother` (a pop() meanwhile, and another item evicted than the
  reference's). `UndisturbedPushIsReference` proves that with no consumer between claim and release from
  call to return it is the reference push.
* With that queue the gateway's `popped + queued = accepted` fails under DropOldest: a push that evicts and
  is then rejected goes to `retry_push` (`gateway/include/edgeflow/gateway/connection.hpp:71-119`), and no
  counter has the evicted event. `LockFreeGateways.EventsConserved` has the identity with that term,
  `CountersBalanceIff` the exact condition, `EvictedEventUncounted` a run.
* The wakeup argument at `core/include/edgeflow/lock_free_bounded_queue.hpp:208-238` matches every available
  item with a notify only when there are not two producers: `WakeupsCoveredIff` proves that from an
  initial machine the bound holds in every state of every run if and only if there are not both two
  producers and a consumer. `NobodySleepsOnAnItem` proves what remains for any number.
* `gateway/src/main.cpp:146` takes its snapshot before the sink is stopped. `BalancedIff` proves that the
  batch counters balance without in-flight terms if and only if nothing is queued and no sink thread has
  a batch in hand; `SnapshotUnbalanced` is a run, from every initial pipeline with a worker, that ends at
  the snapshot with a batch consumed and counted nowhere else. `BatchesConserved` has the balance after
  `HttpSink::stop()`.
* `backend/src/metrics/metrics.service.ts:3-4` says that every event is accounted for by exactly one
  counter. `LinesCountedIff` gives what makes an attempt count its batch's skipped lines: it arrives with
  no key, Redis does not reply, or its key is free. `EventsAccounted` bounds the attempts that do by one
  plus the key's expiries, its unavailable claims and its attempts answered as failed, so without any of
  these each line is counted at most once; `SkippedLineCountedTwice` meets that bound with one failed
  attempt.

## Model

| member | source | states |
|---|---|---|
| `RingArithmetic.ValidatedCapacity` | core/include/edgeflow/lock_free_bounded_queue.hpp:186-206 | zero and oversize are refused; otherwise the result is the least power of two that is at least 2 and at least the request |
| `RingArithmetic.MaskIsSlot` | core/include/edgeflow/lock_free_bounded_queue.hpp:244-244 | masking a position with capacity - 1 gives its slot, bit by bit, for every power of two |
| `RingArithmetic.SlotIsModulo` | core/include/edgeflow/lock_free_bounded_queue.hpp:244-244 | that slot is the position modulo the capacity |
| `Rings.NextStamp` | core/include/edgeflow/lock_free_bounded_queue.hpp:243-259 | in every reachable ring the stamp difference at the enqueue cursor is 0, 1-N or -N, it is 0 exactly when there is room, and -N exactly when the ring is full and its head unpublished |
| `Rings.HeadStamp` | core/include/edgeflow/lock_free_bounded_queue.hpp:270-285 | the difference at the dequeue cursor is 0, -1 or -N, 0 exactly when the head is published |
| `Rings.OneOwnerPerSlot` | core/include/edgeflow/lock_free_bounded_queue.hpp:247-263 | two claimed positions never share a slot: between its swap and its stamp store a slot has one owner |
| `RingThreads.OpStepKeeps` | core/include/edgeflow/lock_free_bounded_queue.hpp:240-290 | every atomic step of every thread keeps the ring invariant and its own program-point assertion |
| `RingThreads.OpStepSpares` | core/include/edgeflow/lock_free_bounded_queue.hpp:240-290 | no step of one thread invalidates what another thread relies on |
| `RingThreads.StepRefines` | core/include/edgeflow/lock_free_bounded_queue.hpp:240-290 | linearisation at the cursor swaps: a won enqueue swap appends to a queue with room, a won dequeue swap removes the oldest item, every other step leaves the contents alone |
| `RingThreads.StepDelivers` | core/include/edgeflow/lock_free_bounded_queue.hpp:286-289 | a position is handed out once, by the thread that won it, with the value claimed for it |
| `RingThreads.PushFailsOnlyWhenFull` | core/include/edgeflow/lock_free_bounded_queue.hpp:253-254 | try_push fails if and only if its position is the current cursor and the slot one lap back is unreleased |
| `RingThreads.PopFailsOnlyWhenEmpty` | core/include/edgeflow/lock_free_bounded_queue.hpp:280-281 | try_pop fails if and only if its position is the current cursor and that slot is unpublished |
| `RingThreads.StalePositionLoses` | core/include/edgeflow/lock_free_bounded_queue.hpp:249-257 | a stale local position never wins a swap; a won swap finds the slot as the earlier load reported it |
| `LockFreeMachine.NextKeeps` | core/include/edgeflow/lock_free_bounded_queue.hpp:83-157 | every step of the concurrent machine keeps the global invariant and who owns which claim |
| `LockFreeMachine.RunRefinesFifo` | core/include/edgeflow/lock_free_bounded_queue.hpp:240-290 | in every run, any number of threads: the contents are positions [deq, enq), at most N, and every step is a step of a bounded FIFO |
| `LockFreeMachine.RunDeliversInOrder` | core/include/edgeflow/lock_free_bounded_queue.hpp:267-290 | in every run each passed position yields exactly the value of the one global order, or is still held by the one thread that won it |
| `LockFreeMachine.SizeNeverOverstates` | core/include/edgeflow/lock_free_bounded_queue.hpp:159-164 | size(), its two reads any number of steps apart, exceeds neither N nor the true length at either read |
| `Parking.LockKept` | core/include/edgeflow/lock_free_bounded_queue.hpp:102-157 | the wait mutex has one holder and waiters_ counts exactly the registered consumers, after every step |
| `Parking.NoLostWakeup` | core/include/edgeflow/lock_free_bounded_queue.hpp:102-147 | at most one producer, any number of consumers, every run: while a consumer sleeps unsignalled, published unclaimed items are at most the notified consumers that have not re-checked plus the notifies on their way |
| `Parking.AvailableCountsPublished` | core/include/edgeflow/lock_free_bounded_queue.hpp:260-263 | the number used there is the number of published positions |
| `Parking.NobodySleepsOnAnItem` | core/include/edgeflow/lock_free_bounded_queue.hpp:208-238 | any number of producers: with every producer outside push() and every consumer asleep, the queue is empty |
| `TwoProducers.WakeupsCoveredIff` | core/include/edgeflow/lock_free_bounded_queue.hpp:208-238 | from every initial machine, that bound holds in every state of every run if and only if there are not both two producers and a consumer |
| `TwoProducers.TwoProducersLoseAWakeup` | core/include/edgeflow/lock_free_bounded_queue.hpp:208-238 | from every initial machine with two producers and a consumer, whatever capacity, policy, spin count and other threads, a state violating the bound is reachable |
| `TwoProducers.TwoProducersStrandAnItem` | core/include/edgeflow/lock_free_bounded_queue.hpp:208-238 | with a second consumer the run goes on to an item published at the head, that consumer asleep, nobody notified and everybody else gone |
| `Shutdown.NobodySleepsAfterShutdown` | core/include/edgeflow/lock_free_bounded_queue.hpp:149-157 | once a shutdown() has done its notify_all, no consumer is ever parked again |
| `Shutdown.ShutdownDrains` | core/include/edgeflow/lock_free_bounded_queue.hpp:99-157 | if no push overlaps shutdown and a consumer was told the queue is over, it is empty, and at rest popped plus evicted equals pushed as multisets |
| `Deliveries.PopsReturnWhatWasTaken` | core/include/edgeflow/lock_free_bounded_queue.hpp:102-147 | in every run and for every value, the pop() calls that returned it plus the consumers about to return it are exactly the positions handed to consumers with it |
| `Deliveries.PushesAreCounted` | core/include/edgeflow/lock_free_bounded_queue.hpp:83-97 | in every run and for every value, the positions claimed with it are exactly the push() calls given it that reported success plus the producers still inside one; a rejected push claimed nothing |
| `Deliveries.ShutdownReturnsEverything` | core/include/edgeflow/lock_free_bounded_queue.hpp:99-157 | if no push overlaps shutdown, then at rest every value was returned by pop() or evicted exactly as often as push() calls given it reported success |
| `CallOrder.PushCallClaims` | core/include/edgeflow/lock_free_bounded_queue.hpp:83-97 | any number of producers, every run: a push(v) call that reported success won exactly one position between call and return, with v claimed there; a rejected one won none |
| `CallOrder.PopCallClaims` | core/include/edgeflow/lock_free_bounded_queue.hpp:102-147 | a pop() call that returned x won exactly one position between call and return, with x claimed there; one that returned nothing won none |
| `CallOrder.CallsHavePositions` | core/include/edgeflow/lock_free_bounded_queue.hpp:83-147 | a call has its one position if and only if it reported success or returned an item |
| `CallOrder.PushesInCallOrder` | core/include/edgeflow/lock_free_bounded_queue.hpp:240-265 | a push() that returned before another began has the lower position |
| `CallOrder.PopsInCallOrder` | core/include/edgeflow/lock_free_bounded_queue.hpp:267-290 | a pop() that returned before another began took the lower position |
| `CallOrder.FirstInFirstOut` | core/include/edgeflow/lock_free_bounded_queue.hpp:83-147 | push(v) returned before push(w) began: the pops that took their positions returned v and w, and w's pop did not return before v's began, equal values included |
| `Progress.PushRoundsBounded` | core/include/edgeflow/lock_free_bounded_queue.hpp:243-259 | lock-freedom of try_push: a thread in its loop goes round at most once for every position claimed since its load, all of them by others; spurious failures apart |
| `Progress.PopRoundsBounded` | core/include/edgeflow/lock_free_bounded_queue.hpp:270-285 | the same for try_pop |
| `DropOldestPush.SecondLoadFailsIff` | core/include/edgeflow/lock_free_bounded_queue.hpp:88-95 | in every run with one producer, the stamp load of an evicting push's second try_push fails if and only if a consumer then holds the position one lap back |
| `PushVerdict.CallVerdictIff` | core/include/edgeflow/lock_free_bounded_queue.hpp:83-97 | every push() call of every run, any number of producers, every policy: Accepted if and only if the first try_push's last load did not meet a full ring at the cursor; RejectedBackpressure if and only if it did, and the policy does not evict or the evicting try_pop met an unpublished head or the second try_push a full ring; DroppedOldest otherwise; it wins one position to evict, the one its evicting try_pop loaded last, exactly when the policy evicts, the ring was full and the head published |
| `SoleProducer.PushLoads` | core/include/edgeflow/lock_free_bounded_queue.hpp:243-259 | the one producer's stamp load goes on to the swap if and only if fewer than N items are queued and no consumer holds the position one lap back, else try_push fails |
| `SoleProducer.PopLoads` | core/include/edgeflow/lock_free_bounded_queue.hpp:270-285 | the stamp load of its evicting try_pop gives up if and only if its position is both cursors |
| `SoleProducer.LoggedHolds` | core/include/edgeflow/lock_free_bounded_queue.hpp:83-97 | one producer: while its call lasts the global order grows by its value exactly if it wins a position, and by nothing else |
| `SoleProducer.PushVerdictIff` | core/include/edgeflow/lock_free_bounded_queue.hpp:83-97 | every push() call of every run with one producer, every policy: Accepted if and only if the first try_push's last load met fewer than N items and no held position; RejectedBackpressure if and only if it did not, and the policy does not evict or the evicting try_pop met an empty queue or the second try_push a held position; DroppedOldest otherwise; and exactly when an item is evicted |
| `SoleProducer.AgreesWithReferenceIff` | core/include/edgeflow/lock_free_bounded_queue.hpp:31-38 | every push() call of every run with one producer: its result, the one position it evicts (the head at the first try_push's last load, or none) and the contents behind it are the reference queue's if and only if: fewer than N items there and no position held; or N items and, under DropOldest, the evicting try_pop's last load was still at that head and no position was held at the second try_push |
| `SoleProducer.EvictsWithRoomIff` | core/include/edgeflow/lock_free_bounded_queue.hpp:88-95 | an item is evicted although fewer than N are queued if and only if the policy evicts, a position was held at the first try_push and the evicting try_pop did not find the queue empty |
| `DropOldestPush.UndisturbedPushIsReference` | core/include/edgeflow/lock_free_bounded_queue.hpp:83-97 | one producer, no consumer between claim and release from call to return: under every policy push does what the reference queue does, so on a full ring DropOldest evicts exactly the oldest item and succeeds |
| `DropOldestRuns.StalledConsumerLosesAnItem` | core/include/edgeflow/lock_free_bounded_queue.hpp:88-95 | from every initial DropOldest machine with a producer and a consumer, a full ring with nobody inside is reachable and from it a state where the push was rejected although it evicted an item, the consumer having stalled after its claim |
| `DropOldestRuns.DrainedQueueRejects` | core/include/edgeflow/lock_free_bounded_queue.hpp:88-95 | from every such machine, a full ring is reachable and from it a push that finds no room, a consumer that then pops all N items, and RejectedBackpressure on an empty queue with nothing evicted |
| `DropOldestRuns.SlowReleaseEvicts` | core/include/edgeflow/lock_free_bounded_queue.hpp:88-95 | from every such machine, a state with N - 1 items queued and one claimed is reachable and from it a push that reports DroppedOldest, having evicted another item |
| `DropOldestRuns.OvertakenPushEvictsAnother` | core/include/edgeflow/lock_free_bounded_queue.hpp:31-38 | from every such machine, a full ring is reachable and from it a push during which a whole pop() returns the oldest item, and which then evicts the next and reports DroppedOldest, as no order of the two does on the reference queue |
| `LockFreeQueues.EnqueueKeeps` | core/include/edgeflow/lock_free_bounded_queue.hpp:240-265 | an uninterrupted try_push with room keeps the ring invariant |
| `LockFreeQueues.DequeueKeeps` | core/include/edgeflow/lock_free_bounded_queue.hpp:267-290 | an uninterrupted try_pop of a published head keeps the ring invariant and finds the claimed value |
| `LockFreeQueues.LockFreeQueue.TryPush` | core/include/edgeflow/lock_free_bounded_queue.hpp:240-265 | over the arrays: succeeds if and only if there is room, and appends |
| `LockFreeQueues.LockFreeQueue.TryPop` | core/include/edgeflow/lock_free_bounded_queue.hpp:267-290 | over the arrays: yields the oldest item if and only if there is one |
| `LockFreeQueues.LockFreeQueue.Push` | core/include/edgeflow/lock_free_bounded_queue.hpp:83-97 | uninterrupted, each policy's outcome and contents, stalled consumers included; with nobody stalled it is the reference push |
| `LockFreeQueues.LockFreeQueue.Shutdown` | core/include/edgeflow/lock_free_bounded_queue.hpp:149-150 | sets the flag and leaves the contents alone |
| `LockFreeQueues.LockFreeQueue.Pop` | core/include/edgeflow/lock_free_bounded_queue.hpp:102-147 | returns the oldest item, or nothing once shut down and empty |
| `LockFreeQueues.LockFreeQueue.Size` | core/include/edgeflow/lock_free_bounded_queue.hpp:160-164 | exact when nothing runs concurrently |
| `LockFreeQueues.Agree` | core/include/edgeflow/lock_free_bounded_queue.hpp:83-157 | from equal contents and nobody stalled, every sequence of pushes, pops and shutdowns under every policy gives the same replies and contents as the mutex queue at the rounded capacity |
| `BoundedQueues.BoundedQueue.Push` | core/include/edgeflow/bounded_queue.hpp:28-44 | contents and outcome under each policy |
| `BoundedQueues.BoundedQueue.Pop` | core/include/edgeflow/bounded_queue.hpp:47-56 | the oldest item, or nothing once shut down and empty |
| `QueueTypes.PushSpec` | core/include/edgeflow/bounded_queue.hpp:28-44 | never exceeds the capacity; rejects exactly when full under a policy that does not evict |
| `Backends.LeaseOnlyMovedByHolder` | backend/src/idempotency/idempotency.service.ts:82-99 | a live lease is removed or promoted only by the attempt whose token it holds or by expiry, a committed mark only expires, a free key is only taken by an arriving attempt of that key |
| `Backends.ClaimedOnlyWhenFree` | backend/src/idempotency/idempotency.service.ts:248-274 | "claimed" is answered if and only if Redis replied and the key was free, and the lease then carries the caller's token; "committed" if and only if the mark was there |
| `Backends.InsertReported` | backend/src/ingest/ingest.service.ts:80-103 | an insert acknowledged if and only if the attempt goes on to promote its lease or, unleased, answers 200; then its rows are counted as stored, otherwise one database failure is counted; the rows are in the table unless it was refused; nothing else changes |
| `Backends.FinishReported` | backend/src/ingest/ingest.service.ts:83-102 | after an acknowledged insert the answer is 200, after a failed one 503, whatever Redis does; the lease is promoted or deleted if and only if the command took effect and found it its own |
| `Backends.StoredKept` | backend/src/ingest/ingest.service.ts:43-88 | every step keeps: the committed mark and every keyed answer 200 stand for a committed insert |
| `Backends.ContentKept` | gateway/src/http_sink.cpp:199-201 | every step keeps: a keyed request or insert carries the batch its key was minted for |
| `Backends.BoundKept` | backend/src/ingest/ingest.service.ts:38-102 | every step keeps, per key: copies plus attempts that may still add one are within the duplication bound |
| `Backends.ArrivalIdentity` | backend/src/ingest/ingest.service.ts:24-103 | received = successful inserts + duplicates + in-flight rejections + database failures + in progress |
| `Backends.CopyHasAllRows` | backend/src/ingest/ingest.service.ts:80-82 | a stored copy means every valid row of the key's batch is in the table |
| `Backends.EventsKept` | backend/src/ingest/ingest.service.ts:76-82 | every step keeps: events_skipped_malformed counts the skipped lines once per attempt let past the claim, events_stored the rows of the inserts that reported success |
| `Backends.SkippedPerKey` | backend/src/ingest/ingest.service.ts:76-78 | what is counted for a batch is its skipped lines times those attempts |
| `Backends.LinesCountedIff` | backend/src/ingest/ingest.service.ts:38-78 | a step counts its batch's skipped lines if and only if it is the claim of an attempt with no key, or to which Redis did not reply, or whose key is free |
| `Backends.PassesKept` | backend/src/ingest/ingest.service.ts:38-102 | every step keeps, per key: attempts let past the claim, plus one while the key is free, are at most 1 + expiries + unavailable claims + attempts answered as failed |
| `Backends.TableSize` | backend/src/ingest/ingest.service.ts:80-82 | the table has events_stored rows plus those of inserts that committed but were reported as failed |
| `IngestServices.IdempotencyService.Claim` | backend/src/idempotency/idempotency.service.ts:248-274 | the answer and the key store for every way the command can go, including applied with the reply lost |
| `IngestServices.IdempotencyService.MarkCommitted` | backend/src/idempotency/idempotency.service.ts:292-309 | promotes exactly its own live lease |
| `IngestServices.IdempotencyService.Release` | backend/src/idempotency/idempotency.service.ts:324-339 | deletes exactly its own live lease |
| `IngestServices.IngestService.Ingest` | backend/src/ingest/ingest.service.ts:24-103 | whatever other attempts make of the shared state between its steps, the three steps come in the protocol's order; the answer is Duplicate or Busy if and only if Redis replied and the key was taken by the committed mark or a lease, otherwise Stored if and only if the repository stored the batch, else Failed, and the counters follow |
| `IngestServices.IngestService.Enter` | backend/src/ingest/ingest.service.ts:38-78 | from the claim to the insert: key store, counters and next phase for every way the claim can go |
| `IngestServices.IngestService.InsertRows` | backend/src/ingest/ingest.service.ts:80-90 | the insert: acknowledged if and only if every statement was answered; then and only then the rows count as stored and the attempt commits or answers 200, otherwise a database failure is counted and it releases or answers 503 |
| `IngestServices.IngestService.Finish` | backend/src/ingest/ingest.service.ts:83-101 | promote or give back, only a lease that is still its own |
| `IngestServices.ClaimIsStep` | backend/src/ingest/ingest.service.ts:40-74 | from every backend state, claiming changes key store, table and counters exactly as the protocol's step |
| `IngestServices.InsertIsStep` | backend/src/ingest/ingest.service.ts:80-90 | the same for inserting |
| `IngestServices.FinishIsStep` | backend/src/ingest/ingest.service.ts:83-101 | the same for finishing, whether the lease is still the attempt's own, expired, taken over or committed |
| `HttpSinks.StatusDecides` | gateway/src/http_sink.cpp:383-405 | what a status does to a batch through the retry loop: sent exactly on 2xx, tried again exactly on 5xx and 429 while tries remain, given up otherwise; and no status costs the connection |
| `HttpSinks.FailureDecides` | gateway/src/http_sink.cpp:298-301 | a refused connect or a lost exchange drops the connection and all pending on it; the batch is tried again if and only if tries remain, given up otherwise, never counted as sent |
| `HttpSinks.HeldDecides` | gateway/src/http_sink.cpp:213-221 | a batch just popped is dropped unattempted if and only if the sink is stopping and the deadline has passed |
| `HttpSinks.ThreadGoesOn` | gateway/src/http_sink.cpp:210-228 | the steps that decide nothing: popping the front, leaving exactly when stopping and empty, connecting, writing the request, waiting |
| `HttpSinks.StatusOf` | backend/src/ingest/ingest.controller.ts:29-35 | stored and duplicate answers read as success, the others as retryable, none as permanent |
| `HttpSinks.SinkReactFits` | gateway/src/http_sink.cpp:210-228 | every sink thread step: a reply read answers the request just written, a batch leaves a thread only by being counted, "sent" needs a 2xx read |
| `HttpSinks.ApplySinkKeeps` | gateway/src/http_sink.cpp:188-228 | every thread step keeps batch conservation and the connection discipline |
| `HttpSinks.ConsumeKeeps` | gateway/src/http_sink.cpp:188-208 | consume keeps them under every policy |
| `HttpSinks.ConsumeNeverWaits` | gateway/src/http_sink.cpp:203-207 | under every policy consume drops and counts a batch exactly when the queue is full; under Block and DropNewest the queue is then unchanged |
| `HttpSinks.StoppedMeansSettled` | gateway/src/http_sink.cpp:443-475 | with all threads gone and no consume after stop, consumed = sent + dropped_outbound + dropped_exhausted |
| `EndToEnd.SentMeansStored` | gateway/src/http_sink.cpp:373-441 | in every history, whatever is lost, expires or fails, the batches counted as sent are distinct and the table holds all their valid rows side by side |
| `EndToEnd.EveryBatchInOnePlace` | gateway/src/http_sink.cpp:188-228 | in every history every batch is queued, in one thread's hands, sent or lost: exactly one of these, once |
| `EndToEnd.EventsAccounted` | backend/src/metrics/metrics.service.ts:3-12 | in every history: the size of the table in terms of events_stored, and how often skipped lines are counted: once per attempt let past the claim, these at most 1 + the key's expiries + unavailable claims + failed attempts; with none of these at most once |
| `Recounting.SkippedLineCountedTwice` | backend/src/ingest/ingest.service.ts:76-78 | for every batch, queue and at least one retry, a history in which one skipped line is counted twice |
| `EndToEnd.CopiesBounded` | backend/src/ingest/ingest.service.ts:38-102 | in every history, copies of a batch are at most 1 + expiries + unavailable claims + committed inserts reported as failed; with none of these a sent batch is stored exactly once |
| `EndToEnd.ArrivalsReconcile` | README.md:524-529 | the arrival identity at every moment, and once settled received = sent + db failures + in-flight rejections + 200s the sink never read |
| `EndToEnd.BatchesConserved` | gateway/src/http_sink.cpp:188-228 | at every moment, any policy and thread count, consumed = sent + dropped_outbound + dropped_exhausted + queued + in hand; after stop the last two are gone |
| `Losses.StepLosesIff` | gateway/src/http_sink.cpp:210-228 | a thread's step loses its batch if and only if the deadline has passed before its first attempt, or a status other than 2xx, 5xx and 429 was read, or an attempt failed with no tries left; it tries again if and only if one failed with tries left; the counters follow |
| `Losses.RetriesKnown` | gateway/src/http_sink.cpp:408-441 | in every history whoever has a batch in hand has tried it again exactly as often as it counts |
| `Losses.LossExplained` | gateway/src/http_sink.cpp:188-228 | in every history the step in which a batch is lost is a consume on a full queue, or past the deadline, or after such a status, or the failure of the last of max_retries + 1 attempts |
| `Losses.RetriesCounted` | gateway/src/http_sink.cpp:437-437 | in every history batches_retried is the number of times a thread went from one attempt of a batch to the next |
| `Delivery.BatchDelivered` | backend/src/ingest/ingest.service.ts:24-88 | for every batch, queue and retry limit, a history in which it is sent with one attempt, stored once under its committed mark, and counted |
| `EndToEnd.BalancedIff` | gateway/src/main.cpp:144-163 | consumed = sent + dropped_outbound + dropped_exhausted if and only if nothing is queued and nobody has a batch in hand |
| `Snapshots.SnapshotUnbalanced` | gateway/src/main.cpp:135-146 | from every initial pipeline with a worker, a run that ends with the reactor and pool stopped, every worker gone and the batcher flushed, where they do not balance |
| `Retry.BackoffClosed` | gateway/src/http_sink.cpp:409-438 | the i-th backoff is base * 2^i capped at 30000, only the first one uncapped |
| `Retry.BackoffBounded` | gateway/src/http_sink.cpp:438-438 | for a base up to 30000 it is min(base * 2^i, 30000) and never shrinks |
| `Retry.SendWithRetries` | gateway/src/http_sink.cpp:408-441 | at most max_retries + 1 attempts, stopping at the first that is not retryable; the waits are the backoffs plus jitter; the time is exactly that of the attempts and waits |
| `Retry.SendBatch` | gateway/src/http_sink.cpp:408-441 | the batch is sent if and only if some attempt within the limit succeeds and all before it failed retryably; each wait between its backoff and one and a half times it; within one retry chain |
| `Retry.ChainBounded` | gateway/src/http_sink.cpp:457-462 | a chain of r retries is at most one attempt plus r times an attempt and one and a half times the cap |
| `Retry.RunAfterStop` | gateway/src/http_sink.cpp:210-228 | a sink thread attempts exactly the batches it comes to before the deadline; those that get through are counted as sent, all others as dropped; it ends when the last of them is through, by the deadline plus one retry chain |
| `Retry.StopReturns` | gateway/src/http_sink.cpp:443-475 | stop() returns when the last thread leaves, whatever batch each was in the middle of, and within the drain deadline plus one retry chain |
| `Gateways.EventsConserved` | gateway/include/edgeflow/gateway/connection.hpp:61-116 | in every run and policy: well-formed lines = accepted + dropped_oldest + dropped_newest + pending retry + abandoned, popped + queued = accepted, no event reaches the sink more often than it was read |
| `Gateways.StopDeliversEverything` | core/include/edgeflow/worker_pool.hpp:49-73 | after the workers left and the final flush, the sink has exactly the accepted number of events, and every line is delivered, evicted, refused, abandoned or pending |
| `Gateways.PushEventLines` | gateway/include/edgeflow/gateway/connection.hpp:71-116 | one push or retried push moves one event to exactly one place |
| `Gateways.PushDecides` | gateway/include/edgeflow/gateway/connection.hpp:71-119 | one push or retry by policy: queued and accepted with room; on a full queue the oldest goes under DropOldest, a line just read is refused under DropNewest, otherwise the connection waits with this very event and nothing is counted |
| `Gateways.RefusedIff` | gateway/include/edgeflow/gateway/connection.hpp:61-119 | over every step: an event is refused if and only if a line was just read under DropNewest on a full queue, and counted; a timer on a full queue leaves its connection waiting with the same event; a cancelled one gives it up |
| `Gateways.PolicyPromises` | gateway/include/edgeflow/gateway/connection.hpp:71-119 | over every run: Block never drops, new or old; DropNewest never evicts and DropOldest never refuses, and under both nobody waits for a retry |
| `Gateways.QueueOrder` | core/include/edgeflow/bounded_queue.hpp:28-56 | over every run: what entered the queue is, in order, what left it and what is still in it, and what left it went to workers or was evicted |
| `Gateways.WorkDecides` | core/include/edgeflow/worker_pool.hpp:68-73 | a worker takes the oldest event, leaves exactly when the queue is empty and shut down, and its event goes to the batcher, which flushes in order exactly at a threshold |
| `Gateways.WorkPopped` | core/include/edgeflow/worker_pool.hpp:68-73 | a worker step keeps every popped event in a worker's hands, the batcher or the sink |
| `LockFreeGateways.StepKeeps` | gateway/include/edgeflow/gateway/connection.hpp:71-119 | every callback and every atomic step of the queue keeps: positions claimed, evictions, losses and each line's place agree with the counters |
| `LockFreeGateways.EventsConserved` | gateway/include/edgeflow/gateway/connection.hpp:71-119 | with the lock-free queue, at every moment of every run and under every policy: lines read = accepted + dropped_oldest + dropped_newest + abandoned + pending; each line is claimed at one position or in one such place; popped + queued + events evicted by rejected pushes = accepted, up to the push under way |
| `LockFreeGateways.CountersBalanceIff` | gateway/include/edgeflow/gateway/connection.hpp:71-119 | between callbacks popped + queued = accepted if and only if no second try_push has met a position one lap back that a worker held; each that did is one event missing |
| `LockFreeGateways.ResultUsed` | gateway/include/edgeflow/gateway/connection.hpp:71-119 | when the reactor's push() returns: accepted and evicting pushes are counted and the connection reads on; a rejected event is refused if and only if the policy is DropNewest and the line was just read, else its connection waits with this very event and nothing is counted |
| `LockFreeGateways.CallbackDecides` | gateway/include/edgeflow/gateway/connection.hpp:46-119 | a well-formed line and a timer that fires begin a push() of that very event; a cancelled timer gives its event up; a malformed line is only counted |
| `LockFreeGateways.PolicyPromises` | gateway/include/edgeflow/gateway/connection.hpp:71-119 | with the lock-free queue, over every run: Block refuses nothing and counts nothing as evicted, DropNewest counts nothing as evicted and nobody waits, DropOldest refuses nothing |
| `UncountedEvents.QueueRunIsGateRun` | gateway/include/edgeflow/gateway/connection.hpp:21-23 | every run of the queue with one producer is the queue's part of a run of the gateway |
| `UncountedEvents.EvictedEventUncounted` | gateway/include/edgeflow/gateway/connection.hpp:71-119 | from every initial DropOldest machine with one producer and a consumer, a run that ends between callbacks with nothing counted as dropped and one event fewer popped or queued than accepted |
| `Pipelines.LinesToRows` | gateway/src/main.cpp:135-146 | gateway, sink and backend together, at every moment of every run: each well-formed line is in exactly one place from the event queue to a sent or lost batch, and every copy in a sent batch is a row of the table |
| `Pipelines.StoppedLinesStored` | gateway/src/main.cpp:135-146 | after a complete stop every line is stored unless it is accounted for as a loss |
| `Batchers.Batcher.AddEvent` | core/src/batcher.cpp:13-22 | nothing lost, duplicated or reordered; the whole buffer goes out in one batch exactly when a threshold is crossed; batch sizes bounded |
| `Batchers.Batcher.Flush` | core/src/batcher.cpp:24-29 | sends what is buffered, and never an empty batch |
| `Batchers.Batcher.FlushLocked` | core/src/batcher.cpp:39-43 | hands over the buffer as one batch and empties it |
| `Keyset.BuildQuery` | backend/src/db/events.repository.ts:110-143 | whatever filters are given, every placeholder is bound to a value of its kind and the WHERE clause accepts exactly the rows of the device, within the times, past the cursor in (timestamp, id) in the direction asked for |
| `Keyset.ListingSorts` | backend/src/db/events.repository.ts:140-140 | ORDER BY timestamp, id: strictly ordered, exactly the rows, each once |
| `Keyset.ListingUnique` | backend/src/db/events.repository.ts:140-140 | there is only one such ordering |
| `Keyset.PageFacts` | backend/src/events-query/events-query.service.ts:34-39 | a page is ordered, holds only candidates, and leaves out only rows past its next cursor; without a cursor none |
| `Keyset.WalkOrdered` | backend/src/db/events.repository.ts:103-109 | under arbitrary changes between pages the rows delivered are strictly ordered (ascending: timestamps never decrease, ids increase within one; descending: the reverse), hence never repeated, and all match |
| `Keyset.WalkComplete` | backend/src/db/events.repository.ts:103-109 | while rows are only inserted, a finished walk delivers every matching row present at its start |
| `Keyset.WalkFixed` | backend/src/events-query/events-query.service.ts:26-40 | on a fixed table the pages concatenate to the sorted filtered list, in that column order and exactly the filtered rows, after floor(n / limit) + 1 pages |
| `Keyset.OrderedIsChronological` | backend/src/db/events.repository.ts:140-140 | the order of rows is that of ORDER BY timestamp, id in either direction, column by column |
| `Repository.Chunk` | backend/src/db/events.repository.ts:33-39 | chunks concatenate to the input, none empty, none above the size, all but the last full |
| `Repository.InsertChunk` | backend/src/db/events.repository.ts:161-197 | the statement stands for exactly the chunk's rows in order; its values are their columns in the order of the column list; placeholders are 1..7n, below the parameter limit |
| `Repository.InsertAll` | backend/src/db/events.repository.ts:84-86 | the chunks inside the transaction are staged in order and nobody sees them; on failure, which statement failed first and what it left of the connection |
| `Repository.Transaction` | backend/src/db/events.repository.ts:83-88 | for every failure point others see all rows or none, and the rows are stored exactly when COMMIT was reached and took effect |
| `Repository.InsertGroups` | backend/src/db/events.repository.ts:78-88 | the same with the single-statement path |
| `Repository.InsertEvents` | backend/src/db/events.repository.ts:49-101 | all or nothing at every moment; success reported exactly when every statement was answered; a broken connection is destroyed, and one that goes back to the pool is clean except exactly when the server refused an INSERT inside the transaction and then the ROLLBACK |
| `Stats.BucketFor` | core/include/edgeflow/stats.hpp:114-121 | the one bucket the sample lies in |
| `Stats.BucketsSumToCount` | core/include/edgeflow/stats.hpp:56-73 | the bucket totals sum to the number of samples |
| `Stats.Histogram.RecordQueueWait` | core/include/edgeflow/stats.hpp:56-73 | one call by itself: count, sum, minimum, maximum and every bucket stay true of the recorded samples |
| `Recorders.QuiescentRecordsAreTrue` | core/include/edgeflow/stats.hpp:56-73 | any number of concurrent recorders, the compare-and-swap loops step by step: whenever no call is under way the counters are true of all samples recorded |
| `Stats.CrossingBucket` | core/include/edgeflow/stats.hpp:129-135 | the bucket where the running total first exceeds a rank holds the sample of that rank in sorted order |
| `Stats.Histogram.Crossing` | core/include/edgeflow/stats.hpp:129-136 | the accumulating loop finds the first bucket whose running total exceeds the rank, or none |
| `Stats.Histogram.AtRank` | core/include/edgeflow/stats.hpp:129-136 | what it reports is the least boundary at or above the sample of that rank in sorted order, or the last boundary |
| `Stats.Histogram.Percentile` | core/include/edgeflow/stats.hpp:123-137 | the least boundary at or above the sample, in sorted order, of the one 0-based rank k with k <= f * count < k + 1, or the last boundary |
| `Stats.RankIsFloor` | core/include/edgeflow/stats.hpp:128-128 | there is exactly one such rank, and it is the one computed |
| `Stats.RankInRange` | core/include/edgeflow/stats.hpp:98-99 | for a fraction below one that rank always exists |

## Left out

- C++ weak memory: steps are sequentially consistent; the source's fences and release/acquire pairs are taken as what justifies that.
- 64-bit wrap-around of cursors and counters: both are unbounded here; the source caps the capacity at 2^30.
- Progress and fairness: the results about runs are safety results; nothing says that a scheduled thread eventually moves.
- LockFreeQueues.LockFreeQueue.TryPush: runs without interference, so the retry branches of its loop are not in this method; RingThreads and LockFreeMachine have them.
- LockFreeQueues.LockFreeQueue.TryPop: the same.
- LockFreeQueues.LockFreeQueue.Push: the same; PushVerdict states the outcome under interference.
- LockFreeQueues.LockFreeQueue.Pop: starts where spinning and parking end; LockFreeMachine, Parking and Shutdown have those.
- BoundedQueues.BoundedQueue.Pop: starts where the condition wait ends; the wait itself is not modelled for the mutex queue.
- Gateways.EventsConserved: with the mutex queue, one of the two the source can be built with; LockFreeGateways has the other, up to the workers' pop().
- HttpSinks.SinkReactFits: the sink's threads are state machines on values, so sharing and locking of the sink's own fields are not captured.
- Retry.StopReturns: only sending and sleeping take time; popping, counting and thread scheduling are instantaneous.
- Stats.Histogram.Percentile: the fraction is a rational number, so rounding of the floating-point product is not modelled, and no recording is under way.
- Keyset.WalkComplete: rows are inserted but not deleted or changed, as in the source, and timestamps are whole milliseconds.
- Stats.Histogram.RecordQueueWait: one call at a time; Recorders has the interleavings.
- Pipelines.LinesToRows: the backend parses back every event the gateway serialised, and batches come from consume() alone.
- Repository.InsertEvents: PostgreSQL is the client's five fields; isolation between concurrent transactions is not modelled.
- Freshness of idempotency keys and lease tokens is assumed, as is that only the backend answers 2xx.
- JSON, NDJSON, base64 and date codecs: lines, cursors and timestamps are values.
- Sockets, TLS, DNS, HTTP framing and Redis reconnection: only their outcomes (status, failure, lost reply, not ready) remain.
- Configuration, simulator, dashboard, deployment and benchmarks: input/output or simple members.
