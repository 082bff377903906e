# A verified model of the asynchronous S3 client

This project models the parts of the client that carry its invariants: splitting transfers into parts, scheduling
them, giving them memory, and delivering or assembling them under concurrency, backpressure and failure. Shared
state in the client changes only inside short critical sections, so each subsystem is a transition system whose steps
are those sections, and the theorems quantify over every interleaving of steps.

Each subsystem comes in two layers. The value layer holds the state as a datatype, one function per critical section,
an invariant, and theorems over runs. The imperative layer is a class with the fields the client updates in place
and its loops; every method is proved equal to the step function of the value layer.

The theorems over runs come in three kinds. Safety says what every reachable state keeps. The modules named `*Policy`,
`DeliveryFaults` and parts of `AsyncWrite` and `ShutdownProgress` say what the steps decide, told by the actions of the
run and their answers rather than by the state: what was taken, asked for, granted, refused, and when something fails.
The modules named `*Progress`, `GetCompletion` and `GetFailure` say that nothing gets stuck.

- **Download delivery** (`Delivery*.dfy`, `DeliveredMask.dfy`, `PrefixTracker.dfy`). Bodies arrive in any order and go
  through a priority queue, an event array and a windowed delivery task that re-queues what it could not deliver, or,
  out of order, through a prefix tracker or file write workers. The delivery task is two steps, because the meta request
  is unlocked between swapping the event array out and the closing section.
- **Buffer pool** (`ChunkMask.dfy`, `Pool*.dfy`, `BufferPool.dfy`). A bitmap chunk allocator with three areas, tickets
  that are reserved, claimed and released, forced tickets, trimming, and a queue of parked reservations. Blocks are ids
  that stand for addresses; sizes are unbounded; the share of forced buffers that counts is any constant. Counters are
  integers, so that an underflow shows.
- **Auto-ranged GET** (`PartSpread.dfy`, `PartTiling.dfy`, `AutoRangedGet.dfy`, `Get*.dfy`, `ObjectDownload.dfy`).
  Discovery in three modes with the empty-file redo and the hint mismatch, part handout in object order or as a
  block-cyclic spread, and finishing, on top of the delivery engine. `GetRuns.WholeDownload` and
  `ObjectDownload.ObjectDownloaded` are the end-to-end results. In place, a download request updates its meta request,
  which keeps its marks in the byte mask and its prefix in the tracker.
- **Auto-ranged PUT** (`AutoRangedPut.dfy`, `Put*.dfy`) and **writes that feed it** (`Async*.dfy`).
- **Scheduler and shutdown** (`Scheduler.dfy`, `Shutdown*.dfy`, `ClientShutdown.dfy`).
- **Whole-object checksum** (`ChecksumFold.dfy`) and **chunked body stream** (`ChunkCoding.dfy`, `ChunkStream.dfy`).

## What is assumed

- The plan of a download (its parts, their bodies, the delivery mode) is what discovery settles on; a run reveals it when
  a discovery response succeeds. Parts are contiguous and the first of several is not empty;
  `ObjectDownload.ObjectPlanOk` proves this for the client's own part arithmetic.
- The sink's answers, window increments, request outcomes, connection limits, throttles and finished connections are
  arguments of the steps, chosen by the environment without restriction beyond what the client checks.
- Of the CRC library only its laws are used: values compose, a running value is that of what was fed, and values fit their
  digest. Encoded checksums are a function of the bytes.
- A CreateSession meta request sends one request.

## Where the model is at odds with a comment or a promise

- `PrefixTracker.MisrecordedEndFails`, `PrefixTracker.RecordsAllIffLinked`, `ObjectDownload.ObjectDownloaded`: a
  discovery by part number records its part's end from the buffer it reserved (source/s3_auto_ranged_get.c:328-332), not
  from the size of the stored part. Delivered out of order, a second part is then an error unless the two agree, and the
  download fails. The exact condition is proved; in-order delivery does not read that field.
- `PoolRuns.Accounting`, `PoolRuns.LapseUnderflows`, `PoolRuns.LapseStrands`: releasing a forced ticket that was never
  claimed takes a reservation out of the pool's counters that was never put in
  (source/s3_default_buffer_pool.c:463-474). Using this pool directly a writer claims at once
  (source/s3_meta_request.c:4402-4410); behind a pool that defers reservations, one granted after the upload has failed
  comes back unclaimed (source/s3_meta_request.c:4290-4300). The counters are right exactly as long as that has not
  happened, and until then no waiter is stranded.
- The comment that a failed checksum fold leaves the running sum untouched (source/s3_meta_request.c:1230-1231) does not
  match the loop, which folds as it goes. The model follows the loop.
- `GetRuns.ValidationPassesIff`, `GetCompletion.LongDownloadFails`: the check of the mask computes its byte count in 32
  bits (source/s3_meta_request.c:3282) and the allocation does not (source/s3_auto_ranged_get.c:1331), so a fully
  delivered download of 2^32-7 to 2^32-1 parts is reported as a failure.
- `PartTiling.GetCountFits`, `PartTiling.GetCountWraps`: the 32-bit part count of a download wraps from 2^32 parts on.

## Model

| member | source | states |
|---|---|---|
| `DeliveredMask.MarkAddsExactlyOnePart` | source/s3_meta_request.c:3205-3264 | marking part N sets one bit of one byte and adds exactly N to the set of parts the byte array stands for |
| `DeliveredMask.MissingBit` | source/s3_meta_request.c:3193-3196 | the bits found missing from a byte are exactly the required bits that are not set |
| `DeliveredMask.CountTrailingZeros` | source/s3_meta_request.c:3308-3316 | the index of the lowest missing bit |
| `DeliveredMask.FirstPartMissing` | source/s3_meta_request.c:3295-3318 | the walk finds no gap exactly when parts 1..n are all held, and otherwise the smallest part absent |
| `DeliveredMask.ExpectedByteCount` | source/s3_meta_request.c:3278-3292 | the 32-bit byte count is the ceiling of n/8 up to 2^32-8 parts, and 0 from there to 2^32-1 |
| `DeliveredMask.Mask.Mark` | source/s3_meta_request.c:3223-3265 | a part out of range or already marked is an error and changes nothing; any other mark adds that part; with no mask every mark succeeds |
| `DeliveredMask.Mask.ValidatePartsDelivered` | source/s3_meta_request.c:3267-3320 | succeeds if and only if there is no mask, or there are at most 2^32-8 parts and all of {1..n} are marked; otherwise names the smallest missing part |
| `PrefixTracker.AnyArrivalOrder` | source/s3_meta_request.c:3329-3427 | for every order of distinct parts whose ranges join up: no step errs, the prefix is the maximal delivered 1..k, the heap holds exactly the rest, total is prefix plus heap, and once all parts arrived the heap is empty and prefix equals total |
| `PrefixTracker.RecordsAllIffLinked` | source/s3_meta_request.c:3338-3352 | a whole download can be recorded, in any order, if and only if each recorded range ends where the next begins |
| `PrefixTracker.MisrecordedEndFails` | source/s3_meta_request.c:3338-3352 | a first part recorded with an end that is not its body's makes the second part an error, though the bodies are contiguous |
| `PrefixTracker.RecordTracks` | source/s3_meta_request.c:3371-3427 | recording one more part keeps the tracker exact for the set of parts delivered so far |
| `PrefixTracker.AllArrived` | source/s3_meta_request.c:3371-3427 | with every part delivered nothing is parked and both byte counts are the whole download |
| `PrefixTracker.DeliveredPrefix.ExtendDeliveredPrefix` | source/s3_meta_request.c:3329-3369 | the in-place extension is the step function, including the range check that skips part 1 |
| `PrefixTracker.DeliveredPrefix.RecordDeliveredPart` | source/s3_meta_request.c:3371-3427 | the in-place recording with its heap-draining loop is the step function |
| `DeliveryLog.PartStream` | source/s3_meta_request.c:3660-3745 | the chunks the sink received of a part, put together, are that part's body up to where delivery has got |
| `DeliveryTheorems.DeliverySafe` | source/s3_meta_request.c:2797-2862 | in every run, failed or not: each part's bytes are a prefix of its body at the right offsets; in order, the stream is a prefix of the object and its length is the count reported; the window is the initial one plus the sum of the increments in the run, up to the largest 64-bit value, and with a window no more bytes are delivered than that sum |
| `DeliveryTheorems.ErrorFreeDelivery` | source/s3_meta_request.c:3660-3682 | with no outside error, and recorded ranges that join up if delivery is out of order, no order check, duplicate mark or tracker error ever occurs, and in order delivered plus queued bytes are the parts up to the next one |
| `DeliveryTheorems.RequeueOrder` | source/s3_meta_request.c:3805-3818 | what a tick could not deliver goes back in its original order ahead of newer events, and only when the window allowance is zero, so the assertion there holds; a task is scheduled for it only if the window was opened meanwhile and nothing has failed |
| `DeliveryTheorems.NoWakeupLost` | source/s3_meta_request.c:2864-2886 | queued events without a scheduled task wait for window, or delivery has failed; a task is scheduled only with events queued; tasks run one at a time |
| `DeliveryTheorems.RunWindow` | source/s3_meta_request.c:859-889 | over every run only increments move the window, each by what it asks for, saturating at 64 bits |
| `DeliveryFaults.TaskTakesPrefix` | source/s3_meta_request.c:3607-3757 | a delivery task that meets no error hands the sink exactly the queued bytes that fit the window, from the front and whatever parts they are of, and keeps exactly the others in order |
| `DeliveryFaults.OutOfTurnRefused` | source/s3_meta_request.c:3660-3682 | in order, bytes that do not follow those handed over before are an error and do not go out |
| `DeliveryFaults.SecondMarkFails` | source/s3_meta_request.c:3223-3265 | marking a part twice, or one out of range, fails the download; without a mask nothing does |
| `DeliveryFaults.FailsOnlyOnFault` | source/s3_meta_request.c:3547-3865 | delivery fails in exactly the runs in which the caller cancelled, the sink refused bytes it was handed, or a file worker failed; a failure is final |
| `DeliveryTheorems.AllDelivered` | source/s3_meta_request.c:3547-3865 | once as many parts as there are were delivered without failure, each is marked and was received whole; in order the stream is the object; both byte counts are its length; out of order, the recorded ranges joined up |
| `DeliveryTheorems.RunInv` | source/s3_meta_request.c:2797-2862 | every interleaving of arrivals, window increments, ticks, file writes and cancellation keeps the delivery invariant |
| `DeliveryTheorems.RunHealthy` | source/s3_meta_request.c:3547-3865 | an error-free run stays free of errors, out of order if the recorded ranges join up |
| `DeliveryCounts.OneTickDeliversAll` | source/s3_meta_request.c:3547-3865 | in every delivery mode, once all parts have arrived and no write worker is busy, one tick the sink accepts delivers all that is left if the read window covers it |
| `DeliveryCounts.NothingHeldBack` | source/s3_meta_request.c:3867-3908 | with every part arrived, none waits in the priority queue |
| `DeliveryCounts.QueuedIsUndelivered` | source/s3_meta_request.c:3660-3745 | with every part arrived, delivered and queued bytes are together exactly the object's |
| `DeliveryImage.ImageIsObject` | source/s3_meta_request.c:3437-3462 | whatever the order of delivery, writing every chunk at its offset gives a file with exactly the object's bytes, each at its own offset, and nothing else |
| `DeliveryLoop.DeliverFromAlive` | source/s3_meta_request.c:3607-3794 | the delivery loop, from any point in its batch, keeps every part in exactly one place and the stream in order |
| `DeliveryRuns.EndTickInv` | source/s3_meta_request.c:3796-3860 | the closing critical section keeps the invariant on success and on error |
| `DeliveryRuns.StreamOrdered` | source/s3_meta_request.c:2835-2862 | an arrival in ordered mode, with the queue drained as far as it goes, keeps the invariant |
| `DeliveryTask.MetaRequest.StreamResponseBody` | source/s3_meta_request.c:2797-2862 | the in-place arrival is the step function, in all three delivery modes |
| `DeliveryTask.MetaRequest.StreamReady` | source/s3_meta_request.c:2840-2861 | the pop loop moves exactly the bodies next in part order |
| `DeliveryTask.MetaRequest.IncrementReadWindow` | source/s3_meta_request.c:859-889 | the in-place increment is the step function, whose effect over every run is the saturating sum of `DeliveryTheorems.DeliverySafe`, and delivery is rescheduled; without backpressure nothing changes |
| `DeliveryTask.MetaRequest.BeginDelivery` | source/s3_meta_request.c:3582-3599 | the first critical section is the step function |
| `DeliveryTask.MetaRequest.DeliverPortion` | source/s3_meta_request.c:3660-3757 | order check, checksum and sink, byte counts and completion of one body event are the step function |
| `DeliveryTask.MetaRequest.DeliverEvents` | source/s3_meta_request.c:3607-3794 | the loop over the batch is the specification's fold |
| `DeliveryTask.MetaRequest.RequeueIncomplete` | source/s3_meta_request.c:3805-3824 | pushing the reversed incomplete array to the front restores the original order |
| `DeliveryTask.MetaRequest.MarkDelivered` | source/s3_meta_request.c:3220-3265 | marking in the byte mask is marking in the set of the run theorems: the mask's bits stand for exactly the parts marked |
| `DeliveryTask.MetaRequest.RecordCompleted` | source/s3_meta_request.c:3826-3850 | the marking loop, on the byte mask and the prefix tracker, is the step function, including its early exit |
| `DeliveryTask.MetaRequest.FinishDelivery` | source/s3_meta_request.c:3799-3859 | the last critical section is the step function |
| `DeliveryTask.MetaRequest.BodyWritten` | source/s3_meta_request.c:3486-3534 | a write worker opens the read window by what it wrote, completes its part and queues its telemetry: the step functions in that order |
| `ChunkMask.SetBitsAddsRun` | source/s3_default_buffer_pool.c:97-102 | setting up to 8 bits adds exactly that run of chunks |
| `ChunkMask.ClearBitsRemovesRun` | source/s3_default_buffer_pool.c:109-114 | clearing up to 8 bits removes exactly that run of chunks |
| `ChunkMask.CheckBitsMeetsRun` | source/s3_default_buffer_pool.c:121-126 | the check of up to 8 bits is true if and only if some chunk of the run is in use |
| `ChunkMask.FreeMask` | source/s3_default_buffer_pool.c:394-397 | a block is unused if and only if its mask is zero |
| `PoolRuns.Accounting` | source/s3_default_buffer_pool.c:463-542 | in every reachable state the counters are the size sums over the matching tickets if and only if no forced ticket was released unclaimed; then nothing has underflowed and non-forced tickets stay within the limit; primary use is always at most blocks x 16 x chunk size |
| `PoolRuns.LapseUnderflows` | source/s3_default_buffer_pool.c:463-474 | reserving a forced buffer and releasing it unclaimed leaves a counter below zero |
| `PoolRuns.LapseStrands` | source/s3_default_buffer_pool.c:463-474 | after that a smaller reservation is parked though no ticket is outstanding whose release could look at it again |
| `PoolRelease.UnclaimedReleaseIff` | source/s3_default_buffer_pool.c:463-474 | releasing an unclaimed ticket keeps the counters right if and only if it was not forced |
| `PoolRuns.Disjointness` | source/s3_default_buffer_pool.c:891-943 | in every reachable state no two tickets share chunks, no two own the same special block, owned blocks are live, and the masks are exactly the union of what tickets own |
| `PoolRuns.ReleaseFreesOnlyItsOwn` | source/s3_default_buffer_pool.c:463-542 | a release clears the releasing ticket's chunks or block and no other |
| `PoolRuns.TrimIsSafe` | source/s3_default_buffer_pool.c:386-431 | trimming frees no block and no special list that an outstanding ticket needs |
| `PoolPolicy.TrimKeepsExactly` | source/s3_default_buffer_pool.c:386-431 | trimming after any run keeps exactly the blocks and special blocks in which some ticket has memory; a registered size survives it if and only if lists are kept, any special buffer is reserved, or one of that size is in use |
| `PoolPolicy.ReserveDecides` | source/s3_default_buffer_pool.c:641-709 | by sizes and tickets, after any run without a lapsed forced ticket: over the limit fails; forced is granted at once; else a ticket is given if and only if the bytes of all tickets, forced ones up to the cap, leave room, from the list of a registered size, from chunks between the cutoffs if the blocks or one more block will do, or from the heap; trimming happens if and only if a large size reaches the limit and enough is idle |
| `PoolPolicy.CountersAsWords` | source/s3_default_buffer_pool.c:604-639 | counters below zero are read as the unsigned words they have wrapped to, in the comparisons, the saturating differences and the checked sum |
| `PoolPolicy.ForcedAreaAgrees` | source/s3_default_buffer_pool.c:861-865 | forced and ordinary buffers are given the same area except at the lower cutoff itself |
| `PoolPolicy.ClaimsFirst` | source/s3_default_buffer_pool.c:891-943 | after any run a claim takes the first adjacent free chunks in the order of blocks and chunks, or the first free special block, and makes a block only if there is none |
| `PoolPolicy.ReleaseServes` | source/s3_default_buffer_pool.c:546-575 | a release drops exactly the waiters that gave up, serves the others from the front, each with a ticket of its size, and stops when the next does not fit |
| `PoolPolicy.NoWaiterLost` | source/s3_default_buffer_pool.c:546-575 | in every run a parked reservation has been granted, waits, or was given up by its caller |
| `PoolPolicy.SpecialSizes` | source/s3_default_buffer_pool.c:1067-1118 | only sizes registered and above four chunks have lists, and with lists kept all of those have |
| `Pool.FindSpotFirst` | source/s3_default_buffer_pool.c:903-918 | the search finds nothing if and only if no block has that many adjacent free chunks; every earlier block and offset than the one found is occupied |
| `PoolRuns.NoStrandedWaiter` | source/s3_default_buffer_pool.c:546-575 | as long as no forced ticket was released unclaimed: while reservations are parked the first does not fit and some outstanding, releasable ticket counts against the limit |
| `PoolRuns.GrantsInArrivalOrder` | source/s3_default_buffer_pool.c:561-575 | parked reservations are granted in arrival order, and those still parked arrived after those granted |
| `PoolRuns.RunInv` | source/s3_default_buffer_pool.c:641-889 | every interleaving of reserve, claim, release, trim, special sizes and cancellation keeps the pool invariant |
| `PoolRuns.GrantPendingInv` | source/s3_default_buffer_pool.c:561-575 | the retry loop ends with the first waiter blocked |
| `PoolSafety.ClaimCore` | source/s3_default_buffer_pool.c:969-1038 | claiming takes memory nobody owned, records it in the masks and moves the ticket from reserved to used; a block is made only if no block has enough adjacent free chunks, and a special block only if none of that size is free |
| `PoolSafety.TryReserveCore` | source/s3_default_buffer_pool.c:641-709 | a reservation is granted if and only if it fits under the limit, and trimming first changes no counter |
| `PoolRelease.GiveBackCore` | source/s3_default_buffer_pool.c:463-542 | releasing finds the ticket's block, returns its memory and takes its share out of every counter, or what a forced ticket never claimed had never put in |
| `PoolAccounts.UsedWithinChunks` | source/s3_default_buffer_pool.c:896-900 | primary use is at most the chunks owned times the chunk size |
| `BufferPool.DefaultPool.TrimPrimaryBlocks` | source/s3_default_buffer_pool.c:414-431 | the erase-while-iterating loop removes exactly the free blocks |
| `BufferPool.DefaultPool.TrimSpecialBlocks` | source/s3_default_buffer_pool.c:386-412 | the same for special blocks, and lists left empty go unless special memory is reserved |
| `BufferPool.DefaultPool.TryReserveTicket` | source/s3_default_buffer_pool.c:641-709 | the in-place reservation is the step function |
| `BufferPool.DefaultPool.ReserveTicket` | source/s3_default_buffer_pool.c:819-889 | over the limit is an error; forced tickets are granted at once; others are granted or parked |
| `BufferPool.DefaultPool.SearchBlocks` | source/s3_default_buffer_pool.c:903-918 | the nested search finds nothing if and only if no block has that many adjacent free chunks, and else the first run in the order of blocks and chunks |
| `BufferPool.DefaultPool.AcquirePrimary` | source/s3_default_buffer_pool.c:891-943 | the first free run is taken; a block is made if and only if there is none |
| `BufferPool.DefaultPool.AcquireSpecial` | source/s3_default_buffer_pool.c:989-1018 | the first free block of the list is taken; a block is made if and only if there is none |
| `BufferPool.DefaultPool.ClaimTicket` | source/s3_default_buffer_pool.c:969-1038 | the in-place claim is the step function for all three areas |
| `BufferPool.DefaultPool.GiveBackTicket` | source/s3_default_buffer_pool.c:463-542 | the in-place return of memory is the step function |
| `BufferPool.DefaultPool.CompletePending` | source/s3_default_buffer_pool.c:561-575 | the retry loop is the step function |
| `BufferPool.DefaultPool.ReleaseTicket` | source/s3_default_buffer_pool.c:444-575 | a whole release is the step function |
| `BufferPool.DefaultPool.RegisterSpecialSize` | source/s3_default_buffer_pool.c:1067-1118 | sizes that fit primary storage are ignored, others get a list once |
| `PartSpread.PartAtIndex` | source/s3_auto_ranged_get.c:946-979 | every index hands out a part of the range, and the part determines the index |
| `PartSpread.IndexOfPart` | source/s3_auto_ranged_get.c:946-979 | every part of the range is handed out, at its index |
| `PartSpread.NoPartTwice` | source/s3_auto_ranged_get.c:946-979 | different indices hand out different parts |
| `PartSpread.RegionsRotate` | source/s3_auto_ranged_get.c:959-979 | any K consecutive handouts come from K different regions |
| `PartSpread.InitCovers` | source/s3_auto_ranged_get.c:889-929 | the spread is on exactly when 2 <= K < R and then covers the R remaining parts from the first unrequested one |
| `GetSafety.SpreadIsPermutation` | source/s3_auto_ranged_get.c:946-979 | R successive calls return every number of the range exactly once |
| `GetSafety.NextIsNew` | source/s3_auto_ranged_get.c:428-446 | the next part number is in range and was never handed out, and the handout index stays in step with the parts requested |
| `GetRuns.WholeDownload` | source/s3_auto_ranged_get.c:246-532 | in every run that finishes without failure, in every discovery and delivery mode, each part was delivered exactly once and whole; written at its offsets it is exactly the object, and in order the caller received exactly the object; the counts agree; out of order, the recorded ranges joined up |
| `ObjectDownload.ObjectDownloaded` | source/s3_auto_ranged_get.c:246-532 | from the part arithmetic to the caller, for any range of any object in any mode: a download that succeeds put exactly that range at its offsets, in order handed over exactly that range, and out of order in several parts its first part had the size reserved |
| `ObjectDownload.ObjectPlanOk` | source/s3_auto_ranged_get.c:308-335 | the client's own parts meet what the run theorems ask of a plan, and their recorded ranges join up if and only if the reserved size was the first part's, there is one part, or delivery is in order |
| `GetRuns.CountersOrdered` | source/s3_auto_ranged_get.c:1352-1437 | delivery-completed <= delivery-sent <= successful <= completed <= requested in every reachable state |
| `GetRuns.PartsHandedOutOnce` | source/s3_auto_ranged_get.c:393-447 | no part request is created for a part that is in flight, arrived or lost |
| `GetRuns.FinishesWithNothingInFlight` | source/s3_auto_ranged_get.c:449-490 | no run, successful or failed, finishes with a request in flight, an event to deliver or a file write under way |
| `GetRuns.ValidationPassesIff` | source/s3_auto_ranged_get.c:496-510 | a download about to report success has every part marked, and reports success if and only if it has at most 2^32-8 parts |
| `GetRuns.MaskBytesDecide` | source/s3_meta_request.c:3267-3320 | the same of the bytes: bits that stand for the parts marked are all set, and the finish is a success exactly when their number is the one expected |
| `GetCompletion.DownloadCanGoOn` | source/s3_auto_ranged_get.c:246-532 | after any run in which nothing has failed, in any delivery mode, some way to go on delivers every part and finishes, as a success exactly up to 2^32-8 parts; of an empty object once it is known |
| `GetCompletion.DownloadCanFinish` | source/s3_auto_ranged_get.c:246-532 | in particular from the start |
| `GetCompletion.EmptyObjectFoundAgain` | source/s3_auto_ranged_get.c:201-212 | an empty object asked for by a ranged request: after the empty-file error the request made again can find the object, and the download then finishes without failure |
| `GetCompletion.EmptyObjectFound` | source/s3_auto_ranged_get.c:1403-1412 | an empty object found by HEAD or by part number can be downloaded without failure |
| `GetCompletion.WrongHintCanFinish` | source/s3_auto_ranged_get.c:1361-1371 | after a size hint that was too small every part is asked for, the first one again, and the download can finish |
| `GetCompletion.LongDownloadFails` | source/s3_meta_request.c:3282-3292 | with 2^32-7 parts there is a run that delivers every part and is then reported as a failure |
| `GetPolicy.DiscoversByTheRightRequest` | source/s3_auto_ranged_get.c:192-244 | in every run: HEAD exactly if the range has no start, or without a range a checksum is wanted and no hint fits; a ranged request exactly if the range has a start, or without a range neither holds; part 1 exactly with a fitting hint and no range, or after the empty-file error, which comes at most once a run |
| `GetPolicy.SpreadsOnlyWhenAllowed` | source/s3_auto_ranged_get.c:889-979 | parts are asked for in ascending order unless delivery is out of order, requests need not be sequential and there are several connections; then they are spread over one region per connection if there are enough parts |
| `GetPolicy.DownloadFailsOnlyOnFault` | source/s3_auto_ranged_get.c:1279-1460 | a download fails in exactly the runs in which a request failed, delivery failed for a reason from outside, or it finishes with more than 2^32-8 parts |
| `GetPolicy.DownloadWaitsForSomething` | source/s3_auto_ranged_get.c:262-476 | an update that is not held back and does nothing waits for a request, an event or a file write |
| `GetPolicy.DownloadWithinWindow` | source/s3_meta_request.c:859-889 | with a read window no download delivers more than the initial window plus the increments of the run |
| `GetFailure.FailedDownloadCanEnd` | source/s3_auto_ranged_get.c:449-476 | after any run in which it has failed a download can finish: what is out comes back, and each task drops what is queued, whole or not, as the window is opened |
| `GetFailure.DropsOne` | source/s3_meta_request.c:3684-3757 | with an error set and room in the window, a task is done with the first body queued, whole or not |
| `GetSteps.DiscoveryFinishedInv` | source/s3_auto_ranged_get.c:1279-1460 | every end of a discovery request, including the empty-file redo and the hint mismatch, keeps the invariant |
| `GetSteps.PartFinishedInv` | source/s3_auto_ranged_get.c:1375-1437 | a finished part request is counted, and streamed if it succeeded |
| `GetRuns.UpdateInv` | source/s3_auto_ranged_get.c:246-532 | an update keeps the invariant, whatever it sends |
| `GetRequest.DownloadRequest.UpdateRequest` | source/s3_auto_ranged_get.c:246-532 | the in-place update is the step function and says whether work remains |
| `GetRequest.DownloadRequest.FinishRequest` | source/s3_auto_ranged_get.c:493-520 | the validation of the byte mask, its release and the finish are the step function |
| `GetRequest.DownloadRequest.ChooseDiscovery` | source/s3_auto_ranged_get.c:192-244 | the choice of the discovery request, branch by branch, which clears the mark of an empty object |
| `GetRequest.DownloadRequest.SendDiscoveryRequest` | source/s3_auto_ranged_get.c:289-391 | the in-place discovery request is the step function; which request it is over every run is `GetPolicy.DiscoversByTheRightRequest` |
| `GetRequest.DownloadRequest.NextPartNumber` | source/s3_auto_ranged_get.c:946-979 | the in-place handout is the step function |
| `GetRequest.DownloadRequest.DiscoveryRequestFinished` | source/s3_auto_ranged_get.c:1279-1460 | the in-place end of discovery is the step function |
| `GetRequest.DownloadRequest.PartRequestFinished` | source/s3_auto_ranged_get.c:1375-1437 | the in-place end of a part is the step function |
| `PartTiling.GetTiles` | source/s3_util.c:752-814 | the ranges of a download partition the object range into non-empty contiguous pieces, as many as the count says |
| `PartTiling.GetCountFits` | source/s3_util.c:752-775 | the 32-bit part count is the number of ranges if and only if there are fewer than 2^32 |
| `PartTiling.GetCountWraps` | source/s3_util.c:752-775 | 2^32 one-byte parts are counted as none |
| `PartTiling.TiledObject` | source/s3_util.c:777-814 | parts cut by a tiling are contiguous, their recorded ranges join up, and together they are the range |
| `PartTiling.ReservedFirstPart` | source/s3_auto_ranged_get.c:308-335 | a part-number discovery records the end it reserved for; the recorded ranges then join up if and only if that was the first part's size or there is one part |
| `PartTiling.UploadTiles` | source/s3_auto_ranged_put.c:384-408 | upload ranges with a remainder-sized last part partition [0, length) |
| `PartTiling.UploadIsCopy` | source/s3_copy_object.c:445-454 | clamped copy ranges are the same list |
| `PartTiling.AligningKeepsTiling` | source/s3_client.c:1927-1941 | aligning the part size upward and recounting keeps the tiling, with no more parts |
| `PutRuns.CompleteOnlyWhenComplete` | source/s3_auto_ranged_put.c:748-782 | the complete request is created at most once, and only when every part was handed out and finished and slots 1..N all hold an etag; with the length unknown, only after the stream ended, with an etag for part 1 and for every part the stream had bytes left for |
| `PutRuns.AbortOnlyWhenSafe` | source/s3_auto_ranged_put.c:783-855 | an abort is created at most once, with an upload id, with no part or complete in flight, never when paused, resume-failed or successful, and never after a complete that succeeded |
| `PutRuns.UploadFinishesCleanly` | source/s3_auto_ranged_put.c:783-877 | no run finishes with a create, part, complete or abort in flight; success means completed or nothing left to resume; an upload with an id that failed other than by pausing or in resuming was aborted, or its complete request succeeded after all |
| `PutPolicy.AbortsExactlyWhenDue` | source/s3_auto_ranged_put.c:783-848 | after any run an abort is made if and only if the upload has an id, failed other than by pausing or in resuming, no part or complete request is out, it was not completed, and no abort was made |
| `PutPolicy.SendsExactlyWhenDue` | source/s3_auto_ranged_put.c:622-777 | after any run: a list request if and only if listing is not over and none is out; a create request if and only if listing is over and none was made; a part if and only if some are left and reads are not throttled; a complete request if and only if every part is over and none was made |
| `PutPolicy.WaitsForSomething` | source/s3_auto_ranged_put.c:622-855 | an update waits if and only if a request is out that it must wait for, or reads are throttled |
| `PutPolicy.RequestsMadeOnce` | source/s3_auto_ranged_put.c:622-848 | over every run the create, complete and abort requests are made at most once, a resumed upload makes no create request, and the flags and counters tell the requests made and answered |
| `PutPolicy.FirstResultStands` | source/s3_auto_ranged_put.c:1617-1900 | the finish result is the first thing in the run that failed or succeeded |
| `PutPolicy.ListedNotSentAgain` | source/s3_auto_ranged_put.c:668-732 | in every run of known length a part the service listed is not sent again, and one it did not list is not passed over |
| `PutProgress.UploadCanFinish` | source/s3_auto_ranged_put.c:590-877 | after any run an unfinished upload can finish, and completes if nothing has failed |
| `PutRuns.RunInv` | source/s3_auto_ranged_put.c:590-877 | every interleaving of updates, reads, completions, pausing and cancellation keeps the upload invariant |
| `PutRuns.PartFinishedInv` | source/s3_auto_ranged_put.c:1747-1825 | a finished part stores its etag or fails the upload; a no-op does neither |
| `PutRuns.ListedFresh` | source/s3_auto_ranged_put.c:165-236 | slots filled by ListParts all hold an etag and are marked as uploaded before |
| `PutRuns.SlotAssertionsHold` | source/s3_auto_ranged_put.c:672-679 | in every run a slot found filled when its part is handed out or read again was filled by the previous attempt, and a part being sent has a slot of its own without an etag |
| `PutRequest.UploadRequest.UpdateUpload` | source/s3_auto_ranged_put.c:590-877 | the branches over the upload's fields decide and do what the specification's update does, which `PutPolicy` characterizes in both directions |
| `PutRequest.UploadRequest.WindDown` | source/s3_auto_ranged_put.c:783-855 | with a finish result set, the in-place waiting, aborting and finishing are the specification's decision, an abort if and only if `PutPolicy.AbortsExactlyWhenDue` says so |
| `PutRequest.UploadRequest.ReadPart` | source/s3_auto_ranged_put.c:1082-1121 | the part list grows with empty slots up to the part, and a no-op leaves it alone |
| `PutRequest.UploadRequest.FinishPart` | source/s3_auto_ranged_put.c:1747-1825 | the in-place end of a part is the step function |
| `PutRequest.UploadRequest.FinishList` | source/s3_auto_ranged_put.c:1617-1694 | the in-place end of a ListParts page is the step function |
| `AsyncWrite.WritesConserved` | source/s3_meta_request.c:4326-4489 | in every run the bytes the caller was told were taken, that many from the front of each write, are the part bodies handed off plus the buffered bytes; every part but the last is exactly a part long; the end is noted if and only if a last write was taken whole; and the upload finishes of itself only when all of it was handed off |
| `AsyncWrite.WriteAnswered` | source/s3_meta_request.c:4326-4489 | the answer to a write, from the answers before: an error if and only if the upload ended, a last write was taken, a waker waits or no buffer is to be had; pending if and only if a part is full or the buffer is put off; else as much as fits |
| `AsyncProgress.ReservationGivesBuffer` | source/s3_meta_request.c:4248-4324 | a reservation put off that succeeds lets the next write through, unless the upload has ended |
| `AsyncProgress.WritesCanFinish` | source/s3_meta_request.c:4248-4604 | after any run an unfinished upload by writes can finish, with everything taken in its parts if nothing has failed |
| `AsyncWrite.NoWriteDuringHandOff` | source/s3_meta_request.c:4371-4376 | while a part request holds the buffer a write reserves and writes nothing |
| `AsyncWrite.HandOffHasTicket` | source/s3_auto_ranged_put.c:697-704 | a part is handed out only with its buffer's ticket in hand and data to send |
| `AsyncWrite.WakerConsumedOnce` | source/s3_meta_request.c:3993-4008 | each waker registration is consumed at most once; a registered waker is never stranded: a reservation, a read, a hand-off, a recording or the finish is still to come; once finished with no reservation outstanding all registrations were consumed |
| `AsyncWrite.AsyncWriter.PollWriteData` | source/s3_meta_request.c:4326-4489 | the in-place write is the step function, with its illegal-use and deferral paths; what it takes and answers over every run is `AsyncWrite.WritesConserved` and `AsyncWrite.WriteAnswered` |
| `AsyncWrite.AsyncWriter.BufferReserved` | source/s3_meta_request.c:4248-4324 | the end of a deferred reservation is the step function |
| `AsyncWrite.AsyncWriter.ReadPending` | source/s3_meta_request.c:4561-4604 | reading the pending write resets the buffer and takes the waker |
| `AsyncWrite.AsyncWriter.FinishWrites` | source/s3_meta_request.c:3993-4008 | finishing takes the waker unless an outstanding reservation will |
| `ChecksumFold.FoldIsObjectChecksum` | source/s3_meta_request.c:1200-1277 | digests recorded in any order, with retries overwriting, fold into the checksum of the whole object; the fold is false if and only if a part recorded none; on a finalized sum it is always false |
| `ChecksumFold.DigestRoundTrip` | source/s3_checksums.c:197-218 | a digest written big-endian is read back as its value |
| `ChecksumFold.SlotHoldsLast` | source/s3_meta_request.c:1200-1227 | a slot holds its part's last recording, and parts beyond the slots are ignored |
| `ChecksumFold.Checksum.Finalize` | source/s3_checksums.c:197-218 | the digest of everything fed, once |
| `ChecksumFold.Checksum.Combine` | source/s3_checksums.c:438-468 | fails exactly on a finalized sum or a digest of the wrong size; combining the digest of some bytes counts as feeding them |
| `ChecksumFold.CombineSlots.RecordPartDigest` | source/s3_meta_request.c:1200-1227 | the in-place recording is the step function |
| `ChecksumFold.CombineSlots.FoldSlots` | source/s3_meta_request.c:1239-1277 | the loop over the slots combines each into the running checksum and is the fold; when the slots hold the parts' digests the sum is then that of the parts' bytes |
| `Scheduler.UpdatePass` | source/s3_client.c:2761-2819 | one pass ends, loses no meta request, keeps survivors in order, and stays within the prepare limit apart from session requests; a meta request is left only because its update has nothing or a limit bars it |
| `Scheduler.UpdateMetaRequests` | source/s3_client.c:2733-2824 | the same for both passes together |
| `Scheduler.RequestQueue.UpdateConnections` | source/s3_client.c:2881-2928 | requests are taken from the front until none is left or the maximum is reached; no-ops and those of stopped meta requests are finished, those whose meta request has all its connections are left over and go back to the front in order, all others are sent; each request sent found fewer connections in use than the maximum of its turn |
| `Scheduler.RequestQueue.QueueRequests` | source/s3_client.c:1364-1390 | the queue size stays the queue length, at either end |
| `Scheduler.RequestQueue.Dequeue` | source/s3_client.c:1392-1405 | the first request, or none; the size stays the length |
| `Scheduler.KeptInOrder` | source/s3_client.c:2821-2822 | elements kept keep their relative order |
| `Shutdown.FinishesLast` | source/s3_client.c:2363-2403 | destruction finishes only with no endpoint, event loop group, provider, work task or cleanup task left |
| `ShutdownProgress.NoShutdownWakeupLost` | source/s3_client.c:2363-2403 | in every run: once all that destruction waits for is over, it has finished or a work task is scheduled or running; and an unreferenced endpoint of an inactive client waits for a queued cleanup |
| `ShutdownProgress.ShutdownCanFinish` | source/s3_client.c:2363-2403 | after any run destruction can finish, with no work scheduled from outside |
| `ShutdownProgress.StateRecordsRun` | source/s3_endpoint.c:249-294 | in every run an endpoint has as many references as were taken and not given back, and the flags tell which shutdown steps have happened |
| `Shutdown.EndpointSafety` | source/s3_endpoint.c:249-294 | an endpoint with references is the table's entry for its host, one being destroyed has none, and the allocation count is table entries plus endpoints shutting down |
| `Shutdown.StepMovesForward` | source/s3_endpoint.c:269-318 | an endpoint moves forward one stage at a time; it leaves the table with its last reference once the client is inactive, or unreferenced with a sweep, and is destroyed only at reference count 0 |
| `Shutdown.DestroyedOnce` | source/s3_endpoint.c:269-318 | over every run an endpoint is destroyed, and reports its shutdown, at most once; exactly once each by the time the client's destruction finishes |
| `Shutdown.RunInv` | source/s3_client.c:1216-1259 | every interleaving of start-destroy, work, cleanup and endpoint steps keeps the shutdown invariant |
| `ClientShutdown.S3Client.CleanupTask` | source/s3_client.c:2100-2136 | the sweep loop and rescheduling are the step function |
| `ClientShutdown.S3Client.ReleaseEndpoint` | source/s3_endpoint.c:269-294 | the in-place release is the step function and says whether to destroy |
| `ClientShutdown.S3Client.MakeMetaRequest` | source/s3_client.c:1612-1662 | an endpoint is created or acquired |
| `ClientShutdown.S3Client.BeginStartDestroy` | source/s3_client.c:1226-1239 | the first critical section of start-destroy is the step function |
| `ClientShutdown.S3Client.BeginWorkTask` | source/s3_client.c:2208-2225 | step 1 of the work task is the step function |
| `ClientShutdown.S3Client.EndWorkTask` | source/s3_client.c:2363-2401 | step 5 of the work task is the step function |
| `ClientShutdown.S3Client.EndpointShutdown` | source/s3_client.c:1686-1697 | the allocation count drops and work is scheduled |
| `ChunkStream.ReadsTheEncoding` | source/s3_chunk_stream.c:115-133 | for every body, in whatever pieces its stream gives it and however late it reports its end, and every sequence of destination sizes the bytes read are the same encoding, of the advertised length |
| `ChunkStream.ReadsDecode` | source/s3_chunk_stream.c:115-133 | what is read decodes to the body and its checksum trailer, whether the checksum was computed by this read or stored earlier |
| `ChunkStream.ReadRemaining` | source/s3_chunk_stream.c:39-133 | one read fills the destination with the next bytes of the encoding across short reads, a late end of the body and stream switches |
| `ChunkCoding.DecodeEncode` | source/s3_chunk_stream.c:47-89 | a decoder for the chunked coding of section 7.1 of RFC 9112 recovers body and trailer |
| `ChunkCoding.EncodingLength` | source/s3_chunk_stream.c:202-261 | the advertised length is the length of the encoding |
| `ChunkCoding.HexRoundTrip` | source/s3_chunk_stream.c:209-212 | the upper-case hexadecimal chunk size is read back as the length |
| `ChunkStream.BodyTurn` | source/s3_checksum_stream.c:36-81 | only newly read bytes are summed, and the end of the body stores the checksum of all of it, once |
| `ChunkStream.ChunkedBody.ReadInto` | source/s3_chunk_stream.c:115-133 | the in-place read loop is the step function |

## Left out

- The copy state machine: its update and finish steps follow the upload's; only its part ranges are modelled.
- The queue that dispatches upload reads in part order (source/s3_client.c:2519-2545): the same shape as the ordered
  delivery queue.
- Caller-owned pre-allocated buffers: they bypass the pool and hold none of its counters.
- HTTP, TLS, DNS, signing, credentials, retries and event loops: they appear only as steps the environment takes.
- Header parsing and message building: a discovery response is what it was parsed to.
- File sinks: opening, direct I/O, descriptors and offsets; a write worker either writes its part or reports an error.
- Progress and telemetry callbacks: they are events without bytes.
- CRC, SHA, base64 and header names: abstract functions and constants of the environment.
- The adaptive upload timeout and the throughput-to-memory tiers: heuristics without an invariant.
- Waiting for ListParts when an upload finishes: the finishing branch does not test it.
- The chunk stream's status query before the first read.
- Size arithmetic near the top of 64 bits: sizes and counts are unbounded, except the read window, the window allowance,
  the mask's byte count and the part count of a download, which wrap or saturate as in the source, and the pool's
  counters, of which one below zero is read as above every limit.
- PartTiling.UploadTiles: part counts are not truncated to 32 bits, because the client bounds them by the service's limit.
- ObjectDownload.ObjectDownloaded: the part count is the number of ranges, which it is below 2^32 parts.
- GetFailure.FailedDownloadCanEnd: with a read window, objects of at least 2^64-1 bytes.
- GetCompletion.DownloadCanGoOn: out-of-order downloads whose recorded ranges do not join up, which
  `GetRuns.WholeDownload` shows cannot succeed.
- AutoRangedGet.Update: the conservative limit and the read-window throttle are one argument, because both only delay.
- Scheduler.UpdatePass: limits other than the prepare limit are an argument, because other threads move them.
- PoolRuns.NoStrandedWaiter: that an outstanding ticket is released is up to its holder.
- ChunkStream.ReadsDecode: header names without a colon or line end and checksums without a line end, as all of the
  client's are.
