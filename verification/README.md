# Verification of the graphic surface buffer queue

A Dafny model of the buffer rotation between a producer and a consumer: the queue that owns the
buffers (`BufferQueue`), the producer's cache of them (`ProducerSurface`), the numbers that name
them (`SurfaceBufferImpl`), the parcels that carry them, and the matrix with which they are shown.
`dafny verify dfyconfig.toml` checks everything.

## How it is built

- `QueueModel.dfy` gives the state of a queue as a value and one transition per region that the C++
  code runs under its mutex. `AllocBuffer` gives the mutex back while it allocates, so a request that
  allocates is two transitions (`StartAlloc`, `FinishAlloc`) and other calls may run between them. A
  wait on a condition variable also ends a transition (`Blocked`); the request resumes in a transition
  of its own (`EvDequeue`, `EvAfterWait`), woken or timed out. A grant that completes the re-sending waits
  for an announced allocation before it lowers the clean flag, and goes on in `EvLowerFlag`. A run is any
  sequence of such events, so the theorems hold for every interleaving of the callers.
- `BufferQueue.dfy`, `ProducerSurface.dfy`, `Batches.dfy`, `SequenceNumbers.dfy`, `Parcels.dfy` and the
  methods of `Transforms.dfy` have the form of the C++ code: classes with its fields, updated in place,
  and its loops. Every method ensures that the new state and the result are those of a specification
  function. The other files prove theorems about these functions and about runs of them.
- `Lists.dfy` holds facts about sequences. `Partition.dfy` holds the invariant `Inv` on which all else
  rests: an id is in the free list exactly when it is Released, in the dirty list exactly when it is
  Flushed, once, and only a Requested buffer can be held for the listener.
- `Answers.dfy` says of every call what it answers, from the state in which it is made and without naming
  the functions that compute it: which request is granted, allocates, waits or is refused, and which
  checks any other call has to pass. `Offers.dfy` says what the hand-out after a release grants, and
  `Frames.dfy` what a call may change: which fields, how an entry it touches, which new entries.
- `CacheProtocol.dfy` sets the queue and the producer's cache side by side; `Coherence.dfy` and
  `Ledgers.dfy` give, for each call, the exact condition under which the two stay in agreement, and
  `Failures.dfy` gives short runs from an empty queue that violate it.

Sizes, counters and ids are 32 bits wide (`u32`), subtraction of unsigned fields wraps
(`QueueModel.Sub32`), the spare count of `PreAllocBuffers` wraps at 64 bits as its mixed operands do.
Timestamps are unbounded integers: the only subtraction, `desired - ONE_SECOND`, is evaluated when
`desired` exceeds a positive expected time, where it cannot overflow.

## Results that are not what one would hope

- In listener mode a release empties the list of deletion reports, and no reply carries them, if and
  only if the hand-out after it is answered for some configuration: a free buffer of that configuration
  exists and the request passes its checks. It need not hand out anything: a buffer that would have to
  be sent is refused after the list was taken (`Deletions.ListenerReleaseLosesReports`,
  `Failures.ReleaseForgetsReports`). Apart from these releases only a clear drops reports
  (`Deletions.AccountExact`).
- Six calls can leave the queue with a buffer that the producer neither has nor will be sent.
  `Coherence.StepCoherentExact` gives the condition of each, in both directions, and
  `Coherence.RunCoherentExact` lifts it to runs:
  - a request whose reply also reports the deletion of a buffer that has been attached again meanwhile;
    with a reserved slot this is attach, detach, attach, release, request (`Failures.ReattachForgets`);
  - `AttachBuffer` by a producer whose cache is full, which empties that cache
    (`Failures.FullCacheForgets`);
  - `AttachBuffer` of a new buffer that does not go through the producer's cache: by the consumer, or by
    the producer in the form without a timeout (`Failures.ConsumerAttachForgets`);
  - a consumer detach that the queue refuses, after the buffer's attach flag was cleared
    (`Failures.RefusedDetachForgets`);
  - `GoBackground`, `CleanCache` or `Disconnect` of a producer that is not connected: the call is turned
    away before it reaches the queue, but the producer has emptied its cache
    (`Failures.TurnedAwayForgets`);
  - a request resumed after its timed wait while another allocation is under way: it waits before it
    lowers the clean flag and then does not look at the cache again (`Failures.LateLoweringForgets`).
    If its buffer is taken out of the queue meanwhile, it inserts an entry that is on no list
    (`Failures.LateLoweringPartition`).

  Lowering the clean flag by a call would be a seventh (`Failures.LoweredFlagForgets`), but in this
  repository only the consumer's `GoBackground` does it, directly after a clear, where the condition
  holds; every caller of `SetProducerCacheCleanFlag` passes true.
- The producer can be left with a buffer that the queue has given up without a report: after the
  consumer's `DetachBuffer`, a clear from the queue's side, a purge by number, a release that drops the
  reports, or when a pre-allocated buffer, whose deletion is never reported, gets into its cache.
  `Ledgers.StepLedgerExact` gives the condition of each call (`Failures.DetachBufferStrands`,
  `Failures.ClearStrands`).
- A consumer attach that the queue refuses has already raised the buffer's attach flag, and a consumer
  detach has already cleared it; `Lifecycle.RefusedChangesNothing` lists the six refusals that leave a
  trace.
- `FlushBuffer` in its plain form looks at the buffer in one locked region and flushes it in a later one.
  The lists survive the later region if and only if the buffer is on no list by then or is merely deleted
  from the free list (`Failures.PlainFlushExact`); a cancel in between puts one buffer on both lists
  (`Failures.CancelBetweenRegions`).
- The lock on the last flushed buffer does not bind the path that takes flushed frames back in
  non-blocking mode (`Protocols.NonBlockingReturnsLocked`, if and only if).
- With more entries than slots, `PreAllocBuffers` allocates all it was asked for, because its spare
  count wraps, and then inserts none of it (`Capacity.PreAllocWraps`).
- `AttachBufferToQueue` by the producer and `PreAllocBuffers` compare less than the capacity promise
  needs; `Capacity.GuardExact` gives the exact condition per call.
- A scan for a number that starts at 0, which the wrap-around of the counter brings about, gives up
  when index 0 is taken although others are free (`SequenceNumbers.ScanChoice`); after exhaustion a new
  number is shared with a live buffer except in one case (`SequenceNumbers.CreateIsNew`); an adopted
  buffer does not keep its number reserved (`SequenceNumbers.BorrowerOutlivesNumber`); a process id of
  more than 16 bits leaks numbers (`SequenceNumbers.PidMustFit`).
- The setter of the extra data admits 1001 entries, the reader 1000 (`Codec.SetterAdmitsOneMore`).
- Capacity needs no assumption about a single allocation in flight: within the guards a second one is
  never started (`Capacity.NoSecondAllocation`), although a resumed request does not look at
  `isAllocatingBuffer_` again.

## Model

| member | source | states |
|---|---|---|
| Partition.StepKeeps | surface/src/buffer_queue.cpp:146-189 | every transition keeps the partition: free list = Released ids, dirty list = Flushed ids, without duplicates; only a Requested entry is held for the listener |
| Partition.RunKeeps | surface/src/buffer_queue.cpp:393-437 | the partition holds in every reachable state, whatever the interleaving of the locked regions; a plain flush counts as one region |
| Partition.InitialInv | surface/include/buffer_queue.h:391-466 | the new queue satisfies it: three slots, nothing reserved, locked, pending or flushed, no flag raised |
| Partition.CacheSize | surface/src/buffer_queue.cpp:1438-1473 | cache size = free + dirty + requested + acquired + attached |
| Partition.HandOutLoopKeeps | surface/src/buffer_queue.cpp:1234-1273 | the hand-out loop keeps the partition although failures rotate the free list |
| Partition.DeleteBuffersKeeps | surface/src/buffer_queue.cpp:1438-1473 | a shrink keeps the partition and adds no key |
| Requests.PopChoice | surface/src/buffer_queue.cpp:146-177 | the pop takes the first unlocked id whose configuration matches; if there is none and the queue is full, the first unlocked id; otherwise nothing |
| Requests.PopRest | surface/src/buffer_queue.cpp:161-176 | what it leaves behind: the list without that id, the locked one rotated to the back only on the second path |
| Requests.PopAgreesWithWait | surface/src/buffer_queue.cpp:307-311 | on a full queue with a valid status the pop succeeds if and only if the wait condition holds |
| Requests.RequestContract | surface/src/buffer_queue.cpp:393-437 | through reuse, steal and resume: a granted id is in the cache, Requested, on neither list, configured as asked with the default usage; a request that fails or blocks has changed nothing |
| Requests.AllocationContract | surface/src/buffer_queue.cpp:482-518 | the same for a request that ends with an allocation, new or after a reallocation; a failed allocation leaves cache and reports alone |
| Requests.RequestEffect | surface/src/buffer_queue.cpp:527-609 | the whole effect of a request: which list lost which id, one entry changed, reports delivered, re-send bookkeeping advanced |
| Requests.FinishEffect | surface/src/buffer_queue.cpp:1335-1381 | the whole effect of the second half of an allocation |
| Answers.RequestAnswers | surface/src/buffer_queue.cpp:393-437 | the exact answer to every request, new or resumed: after the checks of status, configuration and announced allocation, the first suiting unlocked free buffer is granted, unless new buffers come first; with room a new buffer is allocated; without, the first unlocked free buffer is replaced; without one, the call waits if and only if it may block, else takes the front frame, grants or replaces it, and fails if and only if there is none. A request resumed after its wait never allocates a further buffer and never takes a frame |
| Answers.GrantCarries | surface/src/buffer_queue.cpp:569-609 | a grant delivers all pending reports, and the buffer itself if and only if the clean flag is up or the buffer was attached by the consumer or pre-allocated |
| Answers.StepAnswers | surface/src/buffer_queue.cpp:2731-2762 | every call that is not a request is accepted if and only if it passes its checks, written out per call, and otherwise answers the error of the first check it fails; what an accepted acquire, drop, clean or lock hands back |
| Answers.UnheardFlush | surface/src/buffer_queue.cpp:712-761 | a flush that finds no listener: the plain form puts the buffer back at the end of the free list, Released, the other form changes nothing |
| Answers.EnabledExact | surface/src/buffer_queue.cpp:1426-1430 | which calls wait for an announced allocation; nothing else but the need for an unused number restricts the runs |
| Answers.LockExact | surface/src/buffer_queue.cpp:763-815 | the lock is given if and only if nobody has it, the frame flushed last is in the queue, not Requested and not protected; it is that frame, and nothing else changes |
| Answers.LockedNeverDrawn | surface/src/buffer_queue.cpp:763-830 | between the lock and its release, in blocking mode, the producer never holds the locked buffer, over every run in which it is not attached again |
| Lifecycle.StepMoves | surface/src/buffer_queue.cpp:393-437 | the table of moves: no step moves a buffer from one state to another, in or out, otherwise than its call allows |
| Lifecycle.StepArrives | surface/src/buffer_queue.cpp:1521-1602 | an accepted call leaves its buffer in the state, and on the list, that the call is for, once and on no other, with its time stamps, slots and flags |
| Lifecycle.RefusedChangesNothing | surface/src/buffer_queue.cpp:611-622 | a refused call changes nothing, but for six named cases |
| Lifecycle.RefusedLeaves | surface/src/consumer_surface.cpp:146-163 | exactly what each of these leaves behind: the attach flag, the buffer given back, the end of the allocation, the new maximum, some new free buffers |
| Lifecycle.ReleaseMoves | surface/src/buffer_queue.cpp:1275-1320 | a release frees or deletes the buffer it names; only in listener mode are free buffers requested with it |
| Lifecycle.ShrinkMoves | surface/src/buffer_queue.cpp:1438-1473 | a shrink removes Released and Flushed buffers only and moves no other |
| Frames.StepFields | surface/src/buffer_queue.cpp:611-634 | which call may change which field of the queue: size, maximum, reserve, lock, frame flushed last, settings, allocations, clean flag and each list |
| Frames.StepEntries | surface/src/buffer_queue.cpp:840-899 | how an entry that stays in the queue may differ after each call, field by field |
| Frames.StepNewEntries | surface/src/buffer_queue.cpp:1532-1559 | nothing comes into the queue but the buffer the call brings, and with exactly the entry the call makes of it: state, configuration, flags |
| Frames.CleanExact | surface/src/buffer_queue.cpp:3312-3327 | a clean removes the free buffers but the one flushed last and the locked one, and no other |
| Frames.CleanBySeqNumExact | surface/src/buffer_queue.cpp:1504-1519 | a clean by number removes exactly the named entries from cache and lists |
| Frames.CleanFlagCall | surface/src/buffer_queue.cpp:450-470 | setting the clean flag as one call is the two events of a run, the clear only for a raised flag in listener mode |
| Frames.CleanFlagStarts | surface/src/buffer_queue.cpp:450-470 | a raised flag starts with nothing sent, and in listener mode with an empty queue |
| HandOuts.HandOutLoopEffect | surface/src/buffer_queue.cpp:1234-1273 | the ids handed out are pairwise distinct, Requested, were free, unlocked and need no re-send; refused ids are free again; nothing else changes but the reports |
| HandOuts.HandOutReports | surface/src/buffer_queue.cpp:569-595 | the hand-out empties the report list if and only if it answers some configuration it works through, granted or not, and leaves it alone otherwise |
| HandOuts.FreeConfigsExact | surface/src/buffer_queue.cpp:1240-1259 | the configurations the loop works through are pairwise different, one for every free buffer and none without one |
| HandOuts.ListenEffect | surface/src/buffer_queue.cpp:547-553 | one listener request takes exactly one such id or none, and empties the report list exactly when it passes its checks and a free buffer fits |
| HandOuts.ReleaseEffect | surface/src/buffer_queue.cpp:1202-1232 | a refused release changes nothing; otherwise the buffer is free, handed out, or, if marked, deleted, and the reports survive unless the hand-out is answered |
| Offers.ListenAnswers | surface/src/buffer_queue.cpp:547-606 | a listener request is granted if and only if it passes its checks, no allocation is announced, and the first unlocked free buffer that suits it needs not be sent; it is granted that one |
| Offers.LoopOffers | surface/src/buffer_queue.cpp:1234-1273 | if no free buffer has to be sent, the loop hands out every unlocked free buffer that suits one of its configurations |
| Offers.ReleaseOffers | surface/src/buffer_queue.cpp:1202-1273 | so a release in listener mode hands out the released buffer, the one flushed last included, and every other free one that still has the configuration it was requested with |
| Offers.RefillOffersNothing | surface/src/buffer_queue.cpp:582-595 | while the clean flag is up nothing is handed out |
| QueueModel.ListenerRequestSize | surface/src/buffer_queue.cpp:1260-1272 | why the hand-out loop ends: a granted request shortens the free list, a refused one does not lengthen it |
| Ownership.HeldUntilGivenUp | surface/src/buffer_queue.cpp:569-609 | exclusive use over every run: a buffer in the producer's hands stays Requested, configured as it was, and is given to nobody until a call that gives it up is accepted |
| Ownership.StepHolds | surface/src/buffer_queue.cpp:611-634 | the same for one step, for each of the transitions |
| Ownership.BatchDistinct | surface/src/buffer_queue_producer.cpp:1526-1533 | however a batch interleaves with other threads, which may request, flush, cancel and detach buffers of their own, the ids given to its own requests, if none of them is given up before its end, are pairwise distinct, held, and configured as asked |
| Batches.BatchContract | surface/src/buffer_queue_producer.cpp:1515-1541 | a batch that runs alone returns distinct ids that were not held before, held now and configured as asked; it is full if and only if no request failed |
| Batches.WholeAnswers | surface/src/buffer_queue_producer.cpp:1499-1513 | when a whole request is granted: if and only if it is admitted and either a buffer is on hand or one can be allocated and is; otherwise it fails and does not stay blocked |
| Batches.BatchExact | surface/src/buffer_queue_producer.cpp:1515-1541 | a batch makes its requests one after the other and stops at the first that fails; it returns the ids granted until then, in order, and that failure |
| Batches.WholeRequestEffect | surface/src/buffer_queue_producer.cpp:1499-1513 | one request of a batch, through wait and allocation |
| Batches.ConfigStays | surface/src/buffer_queue_producer.cpp:1526-1533 | later requests of the batch leave the configuration of earlier buffers alone |
| Batches.BufferQueueProducer.RequestBuffers | surface/src/buffer_queue_producer.cpp:1515-1541 | the loop computes the batch in batch mode, leaves that mode, and reports an error only when there is no buffer to return |
| Batches.BufferQueueProducer.RequestBuffer | surface/src/buffer_queue_producer.cpp:1499-1513 | a whole request when no other thread runs in between |
| FrameOrder.RunOrder | surface/src/buffer_queue.cpp:840-899 | first in, first out over every run without a clear: frames that left the dirty list followed by those in it are the flush history |
| FrameOrder.StepOrder | surface/src/buffer_queue.cpp:179-189 | frames leave only at the front and enter only at the back, in every step |
| FrameOrder.ConsumerOrder | surface/src/buffer_queue.cpp:950-977 | in every run whatsoever the consumer's frames and those still to come are a subsequence of the flush history |
| TimedAcquires.TimedAcquireChoice | surface/src/buffer_queue.cpp:979-1046 | the timed acquire takes, of the frames the level keeps, the last of the longest prefix whose desired times are due (and not automatic, unless those count), or the front frame when it has no time of its own or one more than a second ahead, or reports not-ready |
| TimedAcquires.SelectChoice | surface/src/buffer_queue.cpp:1003-1044 | the second region drops all but the last frame of that prefix |
| TimedAcquires.DropByLevelChoice | surface/src/buffer_queue.cpp:1087-1112 | the level drop leaves exactly the latest frames, as many as the level says, and hands back the others in order |
| TimedAcquires.ReadyAfterDrop | surface/src/buffer_queue.cpp:1018-1044 | the second readiness test cannot fail after a drop, so no exit leaves dropped frames unreleased |
| TimedAcquires.ReleaseAllSettles | surface/src/buffer_queue.cpp:1059-1068 | each dropped frame is released once and ends free, handed out, or deleted if it was marked |
| TimedAcquires.DroppedFramesSettle | surface/src/buffer_queue.cpp:987-1046 | over the whole call, in every mode, each frame given up by level or by timestamp ends deleted if it was marked, otherwise free or handed to the listener |
| TimedAcquires.DroppedFramesInOrder | surface/src/buffer_queue.cpp:987-1046 | over the whole call, outside listener mode, the free list grows by exactly the unmarked frames given up, by level first and then by timestamp, in order, and the reports by the marked ones |
| TimedAcquires.ChosenFrameWaits | surface/src/buffer_queue.cpp:1003-1046 | whatever runs between the second region and the acquire, the acquire gets the chosen frame as long as no frame leaves the list |
| TimedAcquires.ReleaseAllInOrder | surface/src/buffer_queue.cpp:1059-1068 | outside listener mode they enter the free list, and the reports, in the order of the drop |
| TimedAcquires.LongestExists | surface/src/buffer_queue.cpp:1018-1039 | there is exactly one such prefix |
| TimedAcquires.TimedAcquirePlain | surface/src/buffer_queue.cpp:979-1000 | without an expected time, or without frames, the timed acquire is the plain one: the front frame, or NO_BUFFER |
| Shrink.ShrinkLists | surface/src/buffer_queue.cpp:1438-1473 | a shrink by c takes exactly the first c ids of free ++ dirty off the lists |
| Shrink.ShrinkKeys | surface/src/buffer_queue.cpp:1446-1463 | and out of the cache |
| Shrink.ShrinkReports | surface/src/buffer_queue.cpp:1408-1424 | and reports them in that order, without the pre-allocated ones |
| Shrink.ShrinkMarks | surface/src/buffer_queue.cpp:1465-1472 | and marks, when the lists run out, the entries of lowest rank in map order |
| Shrink.ShrinkUnmarked | surface/src/buffer_queue.cpp:1465-1472 | how many unmarked entries a shrink leaves |
| Shrink.AttachBufferFits | surface/src/buffer_queue.cpp:1657-1672 | a successful AttachBuffer of a new buffer ends with at most queue-size entries |
| Frames.AttachBufferMakesRoom | surface/src/buffer_queue.cpp:1657-1672 | and takes, to make room, exactly the first entries of free ++ dirty out of the queue, as many as are too many |
| Frames.AttachKnown | surface/src/buffer_queue.cpp:1619-1656 | an AttachBuffer of a buffer the queue has takes it off the free list and leaves its entry otherwise as it was |
| Shrink.SetQueueSizeBounds | surface/src/buffer_queue.cpp:1728-1761 | from an unmarked cache within the old size, SetQueueSize(n) leaves at most n unmarked entries |
| Capacity.RunWithin | surface/src/buffer_queue.cpp:415-427 | used + in flight + reserved stays within the queue size over every run whose calls meet their guard |
| Capacity.StepWithin | surface/src/buffer_queue.cpp:1532-1559 | the same for one step |
| Capacity.GuardExact | surface/src/buffer_queue.cpp:1532-1537 | each guard is exact, resizes included: an accepted call keeps the load within the size if and only if its guard held |
| Capacity.NoWrap | surface/src/buffer_queue.cpp:2929-2948 | the unsigned subtractions do not wrap then |
| Capacity.PreAllocExact | surface/src/buffer_queue.cpp:2918-2937 | within that bound pre-allocation goes on with the smaller of the count asked for and the spare slots, for the configuration asked for with the default usage, and is refused if there is none |
| Capacity.PreAllocWraps | surface/src/buffer_queue.cpp:2918-2959 | in an over-full queue the spare count wraps: all that was asked for is allocated, and none of it is inserted |
| Frames.PreAllocOrder | surface/src/buffer_queue.cpp:2941-2959 | the new buffers enter the free list at the back, in order, as many as fit |
| Capacity.ReservedAttachFits | surface/src/buffer_queue.cpp:1590-1600 | a consumer that reserved a slot never meets a full queue |
| Capacity.NoSecondAllocation | surface/src/buffer_queue.cpp:356-375 | while an allocation is in flight a resumed request cannot start another |
| Protocols.LockedNeverGiven | surface/src/buffer_queue.cpp:763-830 | between a successful acquire of the last flushed buffer and its release, in blocking mode, no request and no hand-out of any run returns it |
| Protocols.LockTakesHold | surface/src/buffer_queue.cpp:797-808 | the acquire establishes that state, and the buffer it locks is not with the producer |
| Protocols.NonBlockingReturnsLocked | surface/src/buffer_queue.cpp:377-391 | in non-blocking mode it is returned if and only if it heads the dirty list of a full queue, no free buffer will do, and its configuration matches |
| Protocols.ResendComplete | surface/src/buffer_queue.cpp:464-480 | when the clean flag falls through reuse, every id in the cache has been sent with its buffer since it was raised, unless the grant had to wait: then if and only if no unsent id has come in meanwhile |
| Protocols.StepResend | surface/src/buffer_queue.cpp:596-601 | one step keeps the list of sent ids equal to what was sent, new allocations aside; the flag falls in a grant or at the end of one that waited |
| Protocols.LoweringStarts | surface/src/buffer_queue.cpp:596-601 | a grant waits to lower the flag only after a timed wait and during an allocation, and the list is then complete |
| Deletions.ReportsDelivered | surface/src/buffer_queue.cpp:520-525 | over every run without a clear and without a release that drops the list, reports due = reports delivered ++ reports pending: each once, in order |
| Deletions.StepBalanced | surface/src/buffer_queue.cpp:1408-1430 | the same account for one step; nothing vanishes but list entries and the ids the call names |
| Deletions.AccountExact | surface/src/buffer_queue.cpp:569-595 | the account of a step holds if and only if the step drops no reports or there is none to drop |
| Deletions.ListenerReleaseLosesReports | surface/src/buffer_queue.cpp:569-595 | a release in listener mode empties the report list if its hand-out is answered and keeps it otherwise, and delivers nothing in either case |
| Entries.StepLocal | surface/src/buffer_queue.cpp:1521-1559 | a step creates or changes only the entries it names; all others are kept or gone |
| Entries.StepTidy | surface/src/buffer_queue.cpp:520-525 | the report list stays free of duplicates and apart from live ids, unless a number comes back before its deletion was delivered |
| CacheProtocol.RunNoStale | surface/src/producer_surface.cpp:261-309 | in every run in which a number names one buffer, neither side ever holds a stale buffer |
| CacheProtocol.StepNoStale | surface/src/producer_surface.cpp:484-543 | the same for one step of both parties |
| CacheProtocol.RequestResolves | surface/src/producer_surface.cpp:261-309 | a granted request ends with exactly the queue's buffer: from the reply, the cache, or a synchronisation that succeeds |
| CacheProtocol.AddCacheExact | surface/src/producer_surface.cpp:261-309 | what the producer has after a reply and which buffer it returns: what it had, the buffer that came, and, if and only if it got a bare number it does not know, all the queue has; never what the reply reports as deleted, also when the synchronisation fails |
| CacheProtocol.UpdateCacheExact | surface/src/producer_surface.cpp:1405-1423 | the same for a request that also detaches: nothing of its buffer stays, and it does not synchronise |
| CacheProtocol.AddAttachedExact | surface/src/producer_surface.cpp:311-327 | the buffer it attached is in its cache afterwards, an older one under the same number stays, and the others are lost if and only if the cache was as large as the queue and did not know it |
| Coherence.StepCoherentExact | surface/src/buffer_queue.cpp:569-609 | from coherent caches (each id of the queue is held by the producer or will be sent with its buffer) a step leads to coherent caches if and only if its condition holds |
| Coherence.RunCoherentExact | surface/src/buffer_queue.cpp:569-609 | a run stays coherent throughout if and only if each call meets its condition |
| Coherence.GrantExact | surface/src/producer_surface.cpp:242-309 | the condition of a grant: no buffer whose deletion the reply reports is in the queue again, unless it will still be sent |
| Coherence.TidyGrantSafe | surface/src/producer_surface.cpp:242-309 | that condition holds as long as no number comes back before its deletion was delivered |
| Coherence.ProducerAttachExact | surface/src/producer_surface.cpp:311-327 | the condition of the producer's AttachBuffer: its cache has room or knows the buffer, or all that stays in the queue will be sent |
| Coherence.ConsumerAttachExact | surface/src/buffer_queue.cpp:1619-1673 | the condition of an AttachBuffer behind the producer's back: the buffer is known to one of the caches or will be sent |
| Coherence.RefusedDetachExact | surface/src/consumer_surface.cpp:146-163 | the condition of a refused consumer detach: the attach flag was not the only reason to send the buffer |
| Coherence.LoweredFlagExact | surface/src/buffer_queue.cpp:464-470 | the condition of lowering the clean flag: every buffer the producer lacks has a reason of its own to be sent |
| Coherence.LateLoweringExact | surface/src/buffer_queue.cpp:596-606 | the condition of a grant that lowers the flag after a wait: by then every buffer the producer lacks has a reason of its own to be sent |
| Coherence.TurnedAwayExact | surface/src/producer_surface.cpp:1049-1059 | the condition of a call that is turned away after the producer emptied its cache: everything in the queue will be sent |
| Coherence.RunCoherent | surface/src/buffer_queue.cpp:582-606 | runs that meet the conditions, with one name per buffer, keep the parties linked: partition, agreement and coherence |
| Coherence.StepLink | surface/src/buffer_queue.cpp:582-606 | the same for one step of both parties |
| Coherence.BareGrantHeld | surface/src/buffer_queue.cpp:602-606 | a reply without a buffer names one the producer holds |
| Coherence.HandedHeld | surface/src/producer_surface.cpp:874-911 | so does a hand-out to the listener |
| Coherence.StartsLinked | surface/src/producer_surface.cpp:1049-1059 | an empty queue and an empty cache are linked |
| Coherence.RequestDetachResolves | surface/src/producer_surface.cpp:1405-1423 | RequestAndDetachBuffer is a request and a detach of what it was given; from linked caches it needs no synchronisation, returns the queue's buffer, and leaves it in neither cache |
| Coherence.RequestDetachLinked | surface/src/buffer_queue.cpp:2764-2774 | it keeps the parties linked under the condition of the request |
| Ledgers.StepLedgerExact | surface/src/producer_surface.cpp:242-259 | a step keeps the producer's keys among the queue's keys and the pending reports if and only if its condition holds |
| Ledgers.RunLedgerExact | surface/src/producer_surface.cpp:242-259 | a run keeps them so throughout if and only if each call meets its condition |
| Failures.ReattachForgets | surface/src/producer_surface.cpp:242-309 | five calls from an empty queue, after which a buffer attached twice is unknown to the producer and will never be sent |
| Failures.FullCacheForgets | surface/src/producer_surface.cpp:311-327 | the same through a full producer cache |
| Failures.ConsumerAttachForgets | surface/src/buffer_queue.cpp:1619-1673 | the same through one AttachBuffer of the consumer |
| Failures.RefusedDetachForgets | surface/src/consumer_surface.cpp:146-163 | the same through a refused detach |
| Failures.LoweredFlagForgets | surface/src/buffer_queue.cpp:464-470 | the same through a flag lowered too early |
| Failures.TurnedAwayForgets | surface/src/buffer_queue_producer.cpp:141-153 | the same through a producer that attaches a buffer, which does not connect it, and goes to the background |
| Failures.LateLoweringForgets | surface/src/buffer_queue.cpp:356-375 | the same through a buffer attached while a grant waits to lower the flag |
| Failures.LateLoweringPartition | surface/src/buffer_queue.cpp:596-606 | the end of such a grant keeps the partition if and only if its buffer is still in the queue |
| Failures.DetachBufferStrands | surface/src/buffer_queue.cpp:1675-1701 | four calls from an empty queue, after which the producer holds a buffer that the queue gave up without a report |
| Failures.ClearStrands | surface/src/buffer_queue.cpp:1944-1955 | the same through a clear from the queue's side |
| Failures.ReleaseForgetsReports | surface/src/buffer_queue.cpp:569-609 | a release in listener mode that loses a pending report, whether a buffer is handed out or refused |
| Failures.PlainFlushExact | surface/src/buffer_queue.cpp:712-761 | the last region of a plain flush keeps the partition if and only if the buffer is on no list by then or is merely deleted from the free list |
| Failures.CancelBetweenRegions | surface/src/buffer_queue.cpp:901-908 | a cancel between the regions of a flush breaks the partition |
| BufferQueues.BufferQueue.constructor | surface/include/buffer_queue.h:391-466 | a new object stands for the initial state |
| BufferQueues.BufferQueue.PopFromFreeListLocked | surface/src/buffer_queue.cpp:146-177 | the loop and the rotation compute the pop of the model |
| BufferQueues.BufferQueue.PopFromDirtyListLocked | surface/src/buffer_queue.cpp:179-189 | takes the oldest frame or reports that there is none |
| BufferQueues.BufferQueue.WaitForCondition | surface/src/buffer_queue.cpp:307-311 | on a full queue with a consumer it tells whether the free list can serve a request, whatever the request asks for |
| BufferQueues.BufferQueue.CheckProducerCacheListLocked | surface/src/buffer_queue.cpp:472-480 | true if and only if every id in the cache is in the list of sent ids |
| BufferQueues.BufferQueue.UpdateReuseBufferState | surface/src/buffer_queue.cpp:569-609 | grants the buffer with or without sending it, or refuses the listener |
| BufferQueues.BufferQueue.SendAgain | surface/src/buffer_queue.cpp:596-603 | the bookkeeping of a buffer that is sent |
| BufferQueues.BufferQueue.LowerCleanFlag | surface/src/buffer_queue.cpp:464-470 | the rest of a grant that waited before it lowered the flag |
| BufferQueues.BufferQueue.ReuseBuffer | surface/src/buffer_queue.cpp:527-567 | reuse, or deletion and the start of a reallocation |
| BufferQueues.BufferQueue.EndAlloc | surface/src/buffer_queue.cpp:1335-1381 | the rest of the allocation and of the request it serves |
| BufferQueues.BufferQueue.RequestBufferLocked | surface/src/buffer_queue.cpp:393-437 | the request up to its end or its first wait |
| BufferQueues.BufferQueue.ReuseBufferForBlockMode | surface/src/buffer_queue.cpp:356-375 | the request after its timed wait |
| BufferQueues.BufferQueue.ReuseBufferForNoBlockMode | surface/src/buffer_queue.cpp:377-391 | the steal of the oldest frame |
| BufferQueues.BufferQueue.CancelBufferLocked | surface/src/buffer_queue.cpp:611-634 | gives a buffer back, marked or not, or refuses |
| BufferQueues.BufferQueue.DoFlushBufferLocked | surface/src/buffer_queue.cpp:840-899 | flushes, or deletes a marked buffer |
| BufferQueues.BufferQueue.SetDesiredPresentTimestampAndUiTimestamp | surface/src/buffer_queue.cpp:910-930 | the three sources of the desired time and the auto flag |
| BufferQueues.BufferQueue.FlushBuffer | surface/src/buffer_queue.cpp:2731-2762 | the checks in their order; the plain form gives the buffer back when nobody listens |
| BufferQueues.BufferQueue.DeleteFreeListCacheLocked | surface/src/buffer_queue.cpp:1398-1406 | removes the first occurrence |
| BufferQueues.BufferQueue.DeleteBufferInCacheNoWait | surface/src/buffer_queue.cpp:1408-1424 | removes an entry from cache and free list and reports it unless it was pre-allocated |
| BufferQueues.BufferQueue.DeleteBuffersLocked | surface/src/buffer_queue.cpp:1438-1473 | the three loops compute the shrink |
| BufferQueues.BufferQueue.AcquireBuffer | surface/src/buffer_queue.cpp:950-977 | takes the oldest frame |
| BufferQueues.BufferQueue.DropBuffersByLevel | surface/src/buffer_queue.cpp:1087-1112 | the level drop |
| BufferQueues.BufferQueue.DropOutdated | surface/src/buffer_queue.cpp:1018-1039 | the timestamp loop stops at the last frame of the eligible prefix |
| BufferQueues.BufferQueue.SelectByTimestamp | surface/src/buffer_queue.cpp:1003-1044 | the second region with both readiness tests |
| BufferQueues.BufferQueue.ReleaseDropBuffers | surface/src/buffer_queue.cpp:1059-1068 | releases the dropped frames one by one |
| BufferQueues.BufferQueue.AcquireBufferTimed | surface/src/buffer_queue.cpp:979-1046 | the three regions and the two releases in sequence |
| BufferQueues.BufferQueue.ReleaseBufferLocked | surface/src/buffer_queue.cpp:1275-1320 | frees or deletes an acquired buffer |
| BufferQueues.BufferQueue.FreeListConfigs | surface/src/buffer_queue.cpp:1240-1259 | the distinct configurations of the free list |
| BufferQueues.BufferQueue.RequestBuffersForListenerLocked | surface/src/buffer_queue.cpp:1234-1273 | the hand-out loop, and that it ends |
| BufferQueues.BufferQueue.ReleaseBuffer | surface/src/buffer_queue.cpp:1202-1228 | release and hand-out in one region |
| BufferQueues.BufferQueue.AttachBufferToQueueLocked | surface/src/buffer_queue.cpp:1521-1563 | the checks of an attach and its entry; a consumer uses up a reserved slot |
| BufferQueues.BufferQueue.DetachBufferFromQueueLocked | surface/src/buffer_queue.cpp:1573-1602 | the two kinds of detach; only the consumer's is reported and may reserve a slot |
| BufferQueues.BufferQueue.AttachBuffer | surface/src/buffer_queue.cpp:1619-1673 | attach with eviction |
| BufferQueues.BufferQueue.DetachBuffer | surface/src/buffer_queue.cpp:1675-1701 | detach without a report |
| BufferQueues.BufferQueue.AttachAndFlushBuffer | surface/src/buffer_queue.cpp:2776-2802 | a flush that fails leaves exactly the state before the attach |
| BufferQueues.BufferQueue.SetQueueSizeLocked | surface/src/buffer_queue.cpp:1728-1751 | clamp, reserve check, shrink |
| BufferQueues.BufferQueue.SetQueueSize | surface/src/buffer_queue.cpp:1753-1761 | the range check |
| BufferQueues.BufferQueue.SetMaxQueueSize | surface/src/buffer_queue.cpp:2986-2998 | the new maximum and the shrink it may cause |
| BufferQueues.BufferQueue.ClearLocked | surface/src/buffer_queue.cpp:1944-1955 | empties cache, lists and reports |
| BufferQueues.BufferQueue.SetProducerCacheCleanFlag | surface/src/buffer_queue.cpp:450-470 | sets the flag and forgets what was sent; raising it in listener mode clears first |
| BufferQueues.BufferQueue.CleanReleasedBuffersLocked | surface/src/buffer_queue.cpp:3312-3327 | removes the free buffers except the last flushed and the locked one |
| BufferQueues.BufferQueue.CleanProducerBySeqNum | surface/src/buffer_queue.cpp:1504-1519 | removes the named buffers from cache and lists |
| BufferQueues.BufferQueue.InsertPreAllocated | surface/src/buffer_queue.cpp:2941-2959 | inserts new free buffers until the queue is full |
| BufferQueues.BufferQueue.PlanPreAlloc | surface/src/buffer_queue.cpp:2918-2937 | the checks and the count of a pre-allocation, with its subtraction at 64 bits |
| BufferQueues.BufferQueue.AcquireLastFlushedBuffer | surface/src/buffer_queue.cpp:763-815 | the checks of the lock and the lock itself |
| BufferQueues.BufferQueue.ReleaseLastFlushedBuffer | surface/src/buffer_queue.cpp:817-830 | releases the lock of that buffer only |
| ProducerSurfaces.ProducerSurface.DeleteCacheBufferLocked | surface/src/producer_surface.cpp:242-259 | removes the reported ids |
| ProducerSurfaces.ProducerSurface.AddCacheLocked | surface/src/producer_surface.cpp:261-309 | what the producer caches and returns for a reply, with the synchronisation fallback |
| ProducerSurfaces.ProducerSurface.AddAttachedLocked | surface/src/producer_surface.cpp:311-327 | what it caches for a buffer it attached |
| ProducerSurfaces.ProducerSurface.SyncProducerCacheLocked | surface/src/producer_surface.cpp:1701-1720 | merges the queue's cache into its own |
| ProducerSurfaces.ProducerSurface.RequestBufferLocked | surface/src/producer_surface.cpp:142-182 | the whole request when nothing runs in between, through wait, allocation and the cleaning after NO_CONSUMER: queue and cache move as the protocol says, and from linked caches the caller of a granted request gets the queue's buffer |
| ProducerSurfaces.ProducerSurface.CleanCacheLocked | surface/src/producer_surface.cpp:1011-1024 | the queue is emptied unless the call is turned away, the producer's cache in either case |
| ProducerSurfaces.CleaningMoves | surface/src/producer_surface.cpp:1011-1024 | both outcomes are moves of the protocol |
| ProducerSurfaces.RequestAdvances | surface/src/producer_surface.cpp:142-182 | what a whole request does to both parties is a run of the protocol of at most three moves |
| ProducerSurfaces.WholeRequestResolves | surface/src/producer_surface.cpp:261-309 | from linked caches a granted request, through wait and allocation, ends with the queue's buffer and needs no synchronisation |
| SequenceNumbers.ScanChoice | surface/src/surface_buffer_impl.cpp:118-142 | from every start but 0 the scan finds the first clear index in cyclic order and gives up if and only if there is none; from 0 it gives up if and only if index 0 is taken |
| SequenceNumbers.RunBijection | surface/src/surface_buffer_impl.cpp:181-218 | over every run of constructors and destructors without exhaustion set bits and live owners are in bijection, so no two live owners share a number |
| SequenceNumbers.StepBijection | surface/src/surface_buffer_impl.cpp:95-116 | the same for one step |
| SequenceNumbers.CreateIsNew | surface/src/surface_buffer_impl.cpp:95-142 | a new number differs from those of all live owners if and only if the numbers have not run out or the counter ends in 0xFFFF |
| SequenceNumbers.CreateExact | surface/src/surface_buffer_impl.cpp:95-142 | the constructor takes the next free number in cyclic order, sets its bit, puts the process id over it and remembers it; without a free number it takes the counter and leaves the bitmap alone |
| SequenceNumbers.AdoptExact | surface/src/surface_buffer_impl.cpp:181-204 | a received number sets its bit if it is this process's own, and the buffer is a borrower if and only if the bit was set before |
| SequenceNumbers.DestroyExact | surface/src/surface_buffer_impl.cpp:206-218 | the destructor clears the bit of an own number unless the buffer had borrowed it |
| SequenceNumbers.PidMustFit | surface/src/surface_buffer_impl.cpp:206-218 | a destroyed buffer gives its bit back if and only if the process id fits into 16 bits |
| SequenceNumbers.BorrowerOutlivesNumber | surface/src/surface_buffer_impl.cpp:181-204 | an adopted buffer does not keep its number reserved once the owner is gone |
| SequenceNumbers.SequencePool.GenerateSequenceNumber | surface/src/surface_buffer_impl.cpp:118-142 | the loop over the bitmap computes the scan and ends |
| SequenceNumbers.SequencePool.CreateBuffer | surface/src/surface_buffer_impl.cpp:95-116 | the constructor that takes a new number |
| SequenceNumbers.SequencePool.AdoptBuffer | surface/src/surface_buffer_impl.cpp:181-204 | the constructor for a received number |
| SequenceNumbers.SequencePool.DestroyBuffer | surface/src/surface_buffer_impl.cpp:206-218 | the destructor |
| Transforms.ProductComposes | surface/src/surface_utils.cpp:149-174 | the column-major product is composition, the right factor acting first |
| Transforms.RotationRule | surface/src/surface_utils.cpp:264-312 | all twelve transforms follow one rule: the quarter turns of the name backwards, then the flip |
| Transforms.TableRule | surface/src/surface_utils.cpp:264-312 | the table without the swap: the four plain rotations turn forwards, the eight others backwards and then flip |
| Transforms.SwapRule | surface/src/surface_utils.cpp:349-398 | the swap exchanges the plain quarter turns to either side and nothing else, so doing it twice gives the transform back |
| Transforms.PointMap | surface/src/surface_utils.cpp:349-398 | the final matrix, point by point, for every transform and every crop inside the buffer |
| Transforms.PointMapAny | surface/src/surface_utils.cpp:349-398 | the same for every crop, inside the buffer or not |
| Transforms.SquareIntoCrop | surface/src/surface_utils.cpp:349-398 | it maps the unit square into the crop in texture coordinates |
| Transforms.SquareOntoCrop | surface/src/surface_utils.cpp:349-398 | and onto it |
| Transforms.ComputeTransformByMatrixV2 | surface/src/surface_utils.cpp:264-312 | the table, written through the array |
| Transforms.ComputeTransformMatrixV2 | surface/src/surface_utils.cpp:349-398 | the pipeline, and the swap of the caller's transform |
| Codec.ReplyBack | surface/src/buffer_queue_producer.cpp:254-268 | a batch reply reads back as written and nothing behind it is touched, if and only if it has 1 to 64 records, no more than asked for, each within the reader's limits |
| Codec.RecordBack | surface/src/buffer_client_producer.cpp:151-184 | the same for one record |
| Codec.HandleBack | buffer_handle/src/buffer_handle.cpp:86-193 | the same for a buffer handle: at most 1024 reserved descriptors and values, and a file as long as claimed |
| Codec.BufferBack | surface/src/surface_buffer_impl.cpp:623-644 | the same for the optional buffer with its original fields |
| Codec.ExtraBack | surface/src/buffer_extra_data_impl.cpp:65-149 | extra data reads back, in whatever order the map iterates, if and only if it has at most 1000 entries |
| Codec.SetterAdmitsOneMore | surface/src/buffer_extra_data_impl.cpp:210-221 | the setter admits an entry with which the map can no longer be read |
| Codec.ExtraSetExact | surface/src/buffer_extra_data_impl.cpp:210-221 | the setter refuses a new key if and only if there are more than 1000 entries, and else changes that key only |
| Codec.ExtraCount | surface/src/buffer_extra_data_impl.cpp:65-94 | a count that reads as negative is no entry, more than 1000 are refused before any is read |
| Codec.UnknownTypePassed | surface/src/buffer_extra_data_impl.cpp:65-94 | an entry of an unknown type is passed over with its key, and the reader goes on behind the type code |
| Codec.FenceBack | sync_fence/src/sync_fence.cpp:260-301 | a fence reads back, every invalid one as -1 |
| Codec.FenceTotal | sync_fence/src/sync_fence.cpp:260-274 | reading a fence never fails: the file behind a valid descriptor, -1 in every other case |
| Codec.HeadLayout | buffer_handle/src/buffer_handle.cpp:86-119 | the place of each of the ten items at the head of a written handle |
| Codec.HandleLayout | buffer_handle/src/buffer_handle.cpp:86-119 | behind the head the descriptor, if there is one, then the reserve |
| Codec.ReserveLayout | buffer_handle/src/buffer_handle.cpp:86-119 | the reserved descriptors, then the reserved values |
| Codec.EntryLayout | surface/src/buffer_extra_data_impl.cpp:96-149 | the three items of each entry: key, type code, value |
| Codec.BufferLayout | surface/src/surface_buffer_impl.cpp:623-644 | number, mark, handle, original fields and usage |
| Codec.OriginalLayout | surface/src/surface_buffer_impl.cpp:623-644 | the place of each of the original fields |
| Codec.TailLayout | surface/src/buffer_queue_producer.cpp:254-268 | behind the buffer the extra data, the fence, the deleted ids |
| Codec.RecordLayout | surface/src/buffer_queue_producer.cpp:254-268 | a record is its buffer, then the rest |
| Codec.ReplyLayout | surface/src/buffer_queue_producer.cpp:254-268 | a reply starts with the result code, the count and the first number |
| Codec.ReplyRefused | surface/src/buffer_client_producer.cpp:186-220 | a result code other than 0, no records, more than 64, or more than asked for are refused |
| Parcels.WriteBufferHandle | buffer_handle/src/buffer_handle.cpp:86-119 | the writer and its loops, and that it fails if and only if a reserved descriptor is not open |
| Parcels.ReadBufferHandle | buffer_handle/src/buffer_handle.cpp:121-193 | the reader, its checks and the loops that fill the reserve array |
| Parcels.BufferExtraDataImpl.ExtraSet | surface/src/buffer_extra_data_impl.cpp:210-221 | the limit of the setter |
| Parcels.BufferExtraDataImpl.WriteToParcel | surface/src/buffer_extra_data_impl.cpp:96-149 | the writing loop |
| Parcels.BufferExtraDataImpl.ReadFromParcel | surface/src/buffer_extra_data_impl.cpp:65-94 | the reading loop with its limit and its treatment of unknown types |
| Parcels.ReadFence | sync_fence/src/sync_fence.cpp:260-274 | never fails |
| Parcels.WriteReply | surface/src/buffer_queue_producer.cpp:254-268 | the writing loop of the reply |
| Parcels.ReadReply | surface/src/buffer_client_producer.cpp:186-220 | the reader of the reply with its checks |
| Parcels.ReadRequestBuffersReply | surface/src/buffer_client_producer.cpp:151-184 | the loop over the records |
| Parcels.Exchange | surface/src/buffer_client_producer.cpp:186-220 | written by the one side and read by the other, the records arrive and the parcel is used up |

## Left out

- The delegator path and the path over shared memory (LPP): they overwrite states without touching the
  lists, with code that is loaded or written elsewhere.
- Allocation, mapping, cache flush, metadata, `ioctl`, fences and damages: allocation, cache flush and
  the damage check succeed or fail as an input says; fences only travel through the codec.
- Real time: a timed wait may end at any moment, with or without its condition; which call notifies
  which waiter is not modelled.
- Waits for `isAllocatingBuffer_` inside a call other than a request (deleting a marked buffer, shrinking,
  clearing) are conditions under which the event can happen, so a region that waits in its middle
  counts as one step after the wait; a marked buffer whose release waits is on no list meanwhile.
- A grant that waits before it lowers the clean flag answers, in the model, when the wait begins, and has
  cleared the marks of its buffer by then; the code answers and clears them after it.
- The producer's half of a call runs atomically with the queue's step (`CacheProtocol.React`). In the
  code the producer empties its cache before it calls `GoBackground`, `AttachBufferToQueue` enters the
  buffer after the call has returned, and the cleaning after NO_CONSUMER follows the failed request.
- The producer's `GoBackground` is `EvSetCleanFlag(true)`, after an `EvClear` in listener mode; its
  `CleanCache` is an `EvClear` with `byProducer`; its `AttachBuffer` without a timeout does not touch its
  cache and is the `EvAttachBuffer` of the consumer's side. One producer is connected to a queue.
- `strideAlignment`, `timeout` and `sourceType` of a configuration, which its comparison ignores; scaling
  mode, video dimension and other plain attributes of buffers; `isBufferNeedRealloc` and `previousBuffer`.
- Setters of the queue's modes are one event that replaces the settings.
- A reply to a batch whose first request failed: it carries a default record, whose fence is unset.
- Binder dispatch, permissions, death recipients, tracing, dumping, frame reports, the V1 matrix, colour
  spaces, NativeWindow and NativeBuffer wrappers, and the split of `CloneBuffer` into chunks: plumbing
  around this core.
- Parcel primitives (strings, vectors, descriptors) are items of their own kind, not bytes; reading an
  item of the wrong kind fails. `float` is `real`.
- Batches.BatchContract: for a batch with which no other thread interleaves; `Ownership.BatchDistinct`
  states what holds of a batch that others interleave with.
- Batches.BufferQueueProducer.RequestBuffers: the same, as the loop that computes that batch.
- Batches.BufferQueueProducer.RequestBuffer: a whole request for a caller whose wait and allocation
  nothing interleaves with; in runs they are events of their own.
- TimedAcquires.TimedAcquireChoice: for a caller whose regions nothing separates; with other calls in
  between, `SelectChoice` says what the second region chooses and `ChosenFrameWaits` that the acquire
  gets it.
- BufferQueues.BufferQueue.FlushBuffer: the plain form is one step, here and in runs, where the code has
  several locked regions; `Failures.PlainFlushExact` says exactly when the last one is harmless.
- BufferQueues.BufferQueue.AttachBuffer: a buffer that is not Released is refused at once; the timed wait
  of the code is the same event at a later time.
- BufferQueues.BufferQueue.SetProducerCacheCleanFlag: the mutex is given back between the clear and the
  flag; in runs they are two events, `EvClear` and `EvSetCleanFlag`.
- ProducerSurfaces.ProducerSurface.RequestBufferLocked: for a request with which no other thread
  interleaves; in runs its regions are separate moves, to which the theorems of `Coherence` apply.
- ProducerSurfaces.RequestAdvances: for the same request, which no other thread interrupts.
- ProducerSurfaces.WholeRequestResolves: for the same request; `Coherence.BareGrantHeld` and
  `CacheProtocol.RequestResolves` state it for each move of a run.
- Partition.RunKeeps: a plain flush counts as one region, and a grant whose buffer is taken out of the
  queue while it waits to lower the clean flag does not go on; `Failures.PlainFlushExact` and
  `Failures.LateLoweringPartition` give both conditions exactly.
