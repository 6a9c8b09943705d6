# Block layer and crypto of a hardened Linux 2.6.39, in Dafny

The project models the parts of the kernel where several functions share one promise, and
proves the promise: the FLUSH/FUA sequencer, the I/O throttle, segment counting and merging,
request completion, the deadline scheduler with the elevator core, tagged queueing, the
removal of dependent crypto instances, the counter increment and the Anubis cipher.

Where the kernel updates structures in place, a class does so here, and each of its methods is
proved equal to a function on values, or directly against its promise. What holds over whole
runs is proved about those functions: a run is a sequence of operations, each a section the
kernel executes under one lock.

| files | what they model |
|---|---|
| Lists.dfy | intrusive lists as sequences |
| Flush.dfy, FlushRun.dfy, FlushIssue.dfy, FlushQueue.dfy | block/blk-flush.c: values, runs against a caching device, when flushes are issued, in place |
| Throttle.dfy, ThrottleWait.dfy, ThrottleGroups.dfy, ThrottleTree.dfy | block/blk-throttle.c: rates, waits, groups, service tree and dispatch round in place |
| Segments.dfy, SegmentWindows.dfy, Requests.dfy, RequestRun.dfy, RequestDisk.dfy, RequestInPlace.dfy | block/blk-merge.c: greedy cutting, segments for the hardware, counting and merging, runs, bytes on disk, in place |
| BioBuild.dfy, BioPages.dfy, RequestOverflow.dfy | __bio_add_page of fs/bio.c, what it takes, and what its recounts do to the count of segments |
| Completion.dfy | blk_update_request of block/blk-core.c as dropping bytes |
| Deadline.dfy, DeadlineRun.dfy, DeadlineBatch.dfy, DeadlineExpiry.dfy, DeadlineQueue.dfy | block/deadline-iosched.c: values, runs, the order of dispatch, deadlines, in place |
| Elevator.dfy | block/elevator.c: merge hash and sorted dispatch |
| Tags.dfy | block/blk-tag.c |
| Spawns.dfy, SpawnRemoval.dfy | crypto_remove_spawns of crypto/algapi.c: the walk, in place |
| CryptoInc.dfy | crypto_inc of crypto/algapi.c |
| AnubisTables.dfy, Anubis.dfy, AnubisSchedule.dfy, AnubisCipher.dfy, AnubisVector.dfy | crypto/anubis.c: tables, rounds, key schedule, buffers, a test vector |

## Where code and promise differ

The model follows the code. Each difference has a concrete case and the exact condition.

- A request with data inserted while the device has not announced REQ_FLUSH is ended at once
  and its data never written, although the comment that opens block/blk-flush.c says such
  requests are executed as normal ones (`FlushRun.EndedAtOnce`, `FlushRun.DroppedWrite`).
  Submitted bios lose both flags while flush_flags is 0 (block/blk-core.c:1539), so this takes a
  change of flush_flags between that test and the insertion.
- A request without data that needs both a pre- and a post-flush can end after the pre-flush:
  a flush issued midway through the loop of flush_end_io puts it on the tail of the list being
  walked (`FlushRun.PostflushSkipped`, `FlushRun.ExactStepsIff`).
- A bio recounted while it is built stays marked as counted when pages are added that do not
  touch the vector before. The size noted of its last segment is then that of an earlier one,
  and a request merge that trusts it can leave nr_phys_segments below the number of scatterlist
  entries (`RequestOverflow.StaleMark`, `RequestOverflow.SafeIff`).
- The 32-bit product in the wait of the I/O check can wrap, and the wait is then too short:
  never below, and for some runs above, an exact limit (`ThrottleWait.WaitsSufficeIff`,
  `ThrottleWait.NeverFallsBackIff`, `ThrottleWait.IopsWaitWraps`). The other
  32- and 64-bit wrap-arounds of both checks never let too much through, so that both rates hold
  without a condition.
- The wait after a refusal by the byte limit can be too short, on a slice boundary only unless
  a 64-bit product wraps (`ThrottleWait.BpsWaitIff`, `ThrottleWait.BpsWaitFallsShort`).
- writes_starved may be set below 0 and is then compared as a large unsigned number; with
  writes_starved 0 overdue reads can be passed over without bound
  (`DeadlineExpiry.OverdueBoundedIff`).
- Growing a tag map copies past the end of the new one if nr_requests is below half the old
  depth (`Tags.TagMap.Resize`, `Tags.OverrunCase`).

## Model

| member | source | states |
|---|---|---|
| `FlushRun.Durability` | linux-2.6.39-hardened-r8/block/blk-flush.c:143-228 | over every run against a device with a write-back cache: when a request inserted at some point has ended without error, every write completed before its insertion is on stable media if it carried REQ_FLUSH, and its own data is if it carried REQ_FUA, with or without FUA support |
| `FlushRun.FlushBeforeData` | linux-2.6.39-hardened-r8/block/blk-flush.c:143-191 | in every reachable state, when the data of a REQ_FLUSH request is in flight all writes completed before its insertion are already on media |
| `FlushRun.Protocol` | linux-2.6.39-hardened-r8/block/blk-flush.c:143-284 | in every reachable state a flush is queued or in flight exactly when the two indices differ, and then once; when they are equal the other list is empty; each sequenced request is on exactly one list, the one of its current step; a request ends at most once and is then off all lists |
| `FlushRun.NextKeeps` | linux-2.6.39-hardened-r8/block/blk-flush.c:193-335 | every insertion, fetch, completion, cached write and destage keeps the whole invariant, flushes issued midway through the flush_end_io loop included |
| `FlushRun.ExactSteps` | linux-2.6.39-hardened-r8/block/blk-flush.c:143-191 | a request that ended without error went through exactly these steps, in order: a flush if it carried REQ_FLUSH, its data if it has any, a flush if it carried REQ_FUA and the device has no FUA; none if the device has not announced REQ_FLUSH |
| `FlushRun.ExactStepsIff` | linux-2.6.39-hardened-r8/block/blk-flush.c:193-228 | that promise holds in all runs of a device and kind of request if and only if it is not one with REQ_FLUSH and REQ_FUA and without data on a device with REQ_FLUSH and without FUA |
| `FlushRun.PostflushSkipped` | linux-2.6.39-hardened-r8/block/blk-flush.c:205-212 | a concrete run in which such a request ends after its pre-flush alone |
| `FlushRun.EndedAtOnce` | linux-2.6.39-hardened-r8/block/blk-flush.c:297-335 | a request is ended at insertion exactly when its policy is empty; for one with data that is, its data dropped, exactly when the device has not announced REQ_FLUSH |
| `FlushRun.DroppedWrite` | linux-2.6.39-hardened-r8/block/blk-flush.c:297-335 | a run of one insertion after which a write has ended without error and is neither written nor queued |
| `FlushRun.NoLostFlush` | linux-2.6.39-hardened-r8/block/blk-flush.c:243-272 | in every reachable state, a request on the pending list means that a flush or a sequenced data write is queued or in flight |
| `FlushRun.DriverShrinks` | linux-2.6.39-hardened-r8/block/blk-flush.c:143-284 | everything a driver does lowers a measure of unfinished steps, queue and fetched items, including the steps a flush completion performs while new flushes are issued |
| `FlushRun.DriverBound` | linux-2.6.39-hardened-r8/block/blk-flush.c:193-284 | the number of driver steps without new requests is bounded by that measure |
| `FlushRun.DriverReady` | linux-2.6.39-hardened-r8/block/blk-flush.c:243-284 | the driver has nothing to do exactly when dispatch queue and driver are empty |
| `FlushRun.RestMeansEnded` | linux-2.6.39-hardened-r8/block/blk-flush.c:143-335 | at rest every request ever inserted has ended |
| `FlushRun.InfoRecorded` | linux-2.6.39-hardened-r8/block/blk-flush.c:297-335 | what the machine remembers of a request is what it was inserted with and what had been written by then |
| `FlushRun.DrainMoved` | linux-2.6.39-hardened-r8/block/blk-flush.c:193-228 | what the loop of flush_end_io does to each request: one step for those that waited, nothing for the others |
| `FlushRun.DrainEnds` | linux-2.6.39-hardened-r8/block/blk-flush.c:193-228 | that loop ends only requests of the walked list, with the outcome of the flush |
| `Flush.AdvanceOwned` | linux-2.6.39-hardened-r8/block/blk-flush.c:143-191 | moving a request on by one step keeps each request on exactly one list |
| `Flush.CompleteSettled` | linux-2.6.39-hardened-r8/block/blk-flush.c:143-191 | completing steps of a request that is on no waiting list, and the kick after it, keep the queue settled |
| `Flush.DrainOneWorks` | linux-2.6.39-hardened-r8/block/blk-flush.c:205-212 | each turn of the loop lowers the work left on the walked list, although the list may grow |
| `Flush.DrainSettles` | linux-2.6.39-hardened-r8/block/blk-flush.c:193-228 | the loop leaves a settled queue |
| `Flush.FlushEndSettled` | linux-2.6.39-hardened-r8/block/blk-flush.c:193-228 | so does the whole end of a flush |
| `FlushInPlace.FlushQueue.KickFlush` | linux-2.6.39-hardened-r8/block/blk-flush.c:243-272 | in place: a flush goes to the tail of the dispatch queue exactly when none is in progress (C1), a request waits, and no data of a sequence is in flight (C2) or the waiters are 5 * HZ old (C3) |
| `FlushInPlace.FlushQueue.NextStep` | linux-2.6.39-hardened-r8/block/blk-flush.c:143-186 | in place: the next step of a request, equal to `Advance` |
| `FlushInPlace.FlushQueue.CompleteSeq` | linux-2.6.39-hardened-r8/block/blk-flush.c:143-191 | in place: equal to the value-level function; the result says whether the dispatch queue changed |
| `FlushInPlace.FlushQueue.FlushEndIo` | linux-2.6.39-hardened-r8/block/blk-flush.c:193-228 | in place: the loop over the running list that may grow under it ends, in the state of the recursive function, with the queue settled |
| `FlushInPlace.FlushQueue.FlushDataEndIo` | linux-2.6.39-hardened-r8/block/blk-flush.c:274-284 | in place: the end of a data write |
| `FlushInPlace.FlushQueue.InsertFlush` | linux-2.6.39-hardened-r8/block/blk-flush.c:297-335 | in place: insertion, settled before and after |
| `FlushIssue.IssuedIff` | linux-2.6.39-hardened-r8/block/blk-flush.c:143-272 | completing a step issues a flush exactly under C1, C2 and C3; the age of the waiters starts anew exactly when a request begins to wait and none did; data goes to the front of the dispatch queue, the flush to its tail |
| `FlushIssue.MovedLast` | linux-2.6.39-hardened-r8/block/blk-flush.c:143-191 | the request goes last on the list of its next step, or ends with the outcome it was given, and is off all other lists |
| `FlushIssue.DrainIssues` | linux-2.6.39-hardened-r8/block/blk-flush.c:193-228 | the whole loop of flush_end_io: if it issued no flush none was due at its end, and if data was in flight when it began it issued one exactly when the waiters were old enough; the dispatch queue only grows at its two ends |
| `FlushIssue.DirectInsert` | linux-2.6.39-hardened-r8/block/blk-flush.c:297-325 | a request with data and without flushes goes to the tail of the dispatch queue, and nothing else changes |
| `FlushIssue.PendingSince` | linux-2.6.39-hardened-r8/block/blk-flush.c:143-191 | in every reachable state in which requests wait, flush_pending_since is the time of the latest event that found none waiting |
| `FlushIssue.IssuedInRun` | linux-2.6.39-hardened-r8/block/blk-flush.c:143-335 | over every run: an insertion or the end of a data write issues a flush exactly under C1, C2 and C3 with that age; the end of a flush leaves none due that it did not issue, and with data in flight issues one exactly when it is due |
| `Throttle.ByteRate` | linux-2.6.39-hardened-r8/block/blk-throttle.c:358-616 | over every run of a limited group: bytes let through by time t satisfy bytes * HZ <= bps * (t - t0 + throtl_slice), through new slices, extensions and trims, with 64-bit wrap-around modelled |
| `Throttle.IoRate` | linux-2.6.39-hardened-r8/block/blk-throttle.c:358-616 | the same for the number of I/Os, for every limit and every run: ios * HZ <= iops * (t - t0 + throtl_slice) |
| `Throttle.CountSmall` | linux-2.6.39-hardened-r8/block/blk-throttle.c:396-503 | in every run io_disp stays at or below iops / 10 + 1, far from UINT_MAX, although quotas may be cut to UINT_MAX and 64-bit products may wrap |
| `Throttle.GrantIff` | linux-2.6.39-hardened-r8/block/blk-throttle.c:455-600 | a limited bio may go exactly when bytes and I/Os of the slice, this one included, are within the limits for the slice so far in whole throtl_slices, at least one; nothing counts of a slice that is used up; every 32- and 64-bit cut is in the condition |
| `Throttle.NoLimits` | linux-2.6.39-hardened-r8/block/blk-throttle.c:551-568 | with both limits off nothing is refused and nothing accounted |
| `Throttle.TrimFair` | linux-2.6.39-hardened-r8/block/blk-throttle.c:396-453 | the trim takes next to nothing away: what fitted the slice before it, less one unit, fits after it, unless the part cut off was not used |
| `Throttle.FirstSlice` | linux-2.6.39-hardened-r8/block/blk-throttle.c:358-368 | the first check of a new group starts a slice now |
| `Throttle.IopsCheckExact` | linux-2.6.39-hardened-r8/block/blk-throttle.c:455-503 | the I/O check is the comparison meant if and only if io_disp is not UINT_MAX, which by `CountSmall` no run reaches |
| `ThrottleWait.IopsWaitIff` | linux-2.6.39-hardened-r8/block/blk-throttle.c:455-503 | after a refusal by the I/O limit at a count that a run can have, checking again exactly the returned wait later finds the same slice live, and the check passes if and only if (io_disp + 1) * HZ fits 32 bits or the slice is exactly one old; where the 64-bit product wraps, if and only if the next jiffy opens a slice whose quota covers the count |
| `ThrottleWait.IopsQuotaWrapped` | linux-2.6.39-hardened-r8/block/blk-throttle.c:471-503 | the case of the wrapped 64-bit product: the fallback of one jiffy is taken, and when it is enough |
| `ThrottleWait.WaitsSufficeIff` | linux-2.6.39-hardened-r8/block/blk-throttle.c:455-503 | over all runs in which no slice gets as old as 2^32 jiffies: every wait after a refusal by the I/O limit is long enough if and only if (iops * throtl_slice / HZ + 1) * HZ fits 32 bits |
| `ThrottleWait.NeverFallsBackIff` | linux-2.6.39-hardened-r8/block/blk-throttle.c:486-503 | over the same runs: the fallback of one jiffy is never taken if and only if that holds |
| `ThrottleWait.IopsWaitWraps` | linux-2.6.39-hardened-r8/block/blk-throttle.c:486-503 | with HZ 1000 that is so at 42949669 I/Os a second and not at 42949670, where after 4294967 empty bios in one jiffy the next is told to wait 1 jiffy |
| `ThrottleWait.BpsWaitIff` | linux-2.6.39-hardened-r8/block/blk-throttle.c:505-549 | after every refusal by the byte limit, tg_may_dispatch asked again exactly the returned wait later finds the same slice live, and its byte check passes if and only if the wait was rounded up to a jiffy, does not end on a slice boundary, or the remainders of the two divisions make up for each other; where a 64-bit product wraps, if and only if the cut product with the slices by then covers the bytes |
| `ThrottleWait.BpsWaitFallsShort` | linux-2.6.39-hardened-r8/block/blk-throttle.c:505-549 | the first bio of a group, 512 bytes at 1023 bytes a second and HZ 1000, is told to wait 500 jiffies and is refused again then |
| `Throttle.RefusalStands` | linux-2.6.39-hardened-r8/block/blk-throttle.c:551-600 | asked again at once, tg_may_dispatch gives the same refusal, and the wait is at least one jiffy |
| `Throttle.TrimBudget` | linux-2.6.39-hardened-r8/block/blk-throttle.c:396-453 | the floor-rounded trim gives back no more than the time it cuts off was worth |
| `Throttle.RenewBudget` | linux-2.6.39-hardened-r8/block/blk-throttle.c:358-368 | a new slice forgets only what its predecessor was entitled to |
| `ThrottleTree.ThrotlData.Rates` | linux-2.6.39-hardened-r8/block/blk-throttle.c:358-1048 | in every state that arrivals, dispatch rounds and time lead to, what has gone of a group and direction with either limit set since its first check is within both rates |
| `ThrottleGroups.AskTied` | linux-2.6.39-hardened-r8/block/blk-throttle.c:551-600 | a check moves the meter of a group as one step of its run without a dispatch, the first check of a zeroed group included |
| `ThrottleGroups.SentTied` | linux-2.6.39-hardened-r8/block/blk-throttle.c:602-616 | charging and trimming after a check that passed is one step of the run with a dispatch, of that many bytes |
| `ThrottleGroups.GrantStands` | linux-2.6.39-hardened-r8/block/blk-throttle.c:551-600 | a bio that may go may still go when asked again at once, and the meter does not move |
| `ThrottleTree.ThrotlData.Ask` | linux-2.6.39-hardened-r8/block/blk-throttle.c:551-600 | in place: the verdict and the new meter of tg_may_dispatch; nothing else of any group changes |
| `ThrottleTree.ThrotlData.RbFirst` | linux-2.6.39-hardened-r8/block/blk-throttle.c:243-256 | the cached left node or a look-up, either way the earliest group |
| `ThrottleTree.ThrotlData.Enqueue` | linux-2.6.39-hardened-r8/block/blk-throttle.c:283-324 | the group is on the service tree, once, in the order of dispatch times |
| `ThrottleTree.ThrotlData.Dequeue` | linux-2.6.39-hardened-r8/block/blk-throttle.c:264-336 | the group is off the tree and the cache is dropped if it named it |
| `ThrottleTree.ThrotlData.AddBio` | linux-2.6.39-hardened-r8/block/blk-throttle.c:618-629 | the bio is last of its list and nr_queued still is the sum over all groups |
| `ThrottleTree.ThrotlData.DispatchOne` | linux-2.6.39-hardened-r8/block/blk-throttle.c:651-669 | the first bio, which must have been granted, leaves, is charged, and nr_queued drops by one |
| `ThrottleTree.ThrotlData.DispatchDir` | linux-2.6.39-hardened-r8/block/blk-throttle.c:671-702 | one of the two loops: bios leave from the front only, up to the quota, and if fewer leave the next is refused |
| `ThrottleTree.ThrotlData.DispatchTg` | linux-2.6.39-hardened-r8/block/blk-throttle.c:671-702 | at most 6 reads and then at most 2 writes leave from the fronts of their lists onto the output; if fewer leave the next of that direction is refused or there is none |
| `ThrottleTree.ThrotlData.UpdateDisptime` | linux-2.6.39-hardened-r8/block/blk-throttle.c:631-649 | the group is keyed by the shorter wait of its two first bios |
| `ThrottleTree.ThrotlData.Turn` | linux-2.6.39-hardened-r8/block/blk-throttle.c:709-731 | one turn: the group leaves the tree, some of its bios leave, it goes back if it has more, and if none left it is no longer due |
| `ThrottleTree.ThrotlData.SelectDispatch` | linux-2.6.39-hardened-r8/block/blk-throttle.c:704-733 | the round ends; then 32 to 39 bios have left or no group on the tree is due; groups that were not due are as they were; what was queued is what is queued plus what was dispatched; a group is on the tree exactly when it has queued bios |
| `ThrottleTree.ThrotlData.ThrotlBio` | linux-2.6.39-hardened-r8/block/blk-throttle.c:986-1048 | a bio passes at once exactly when none of its direction is queued and tg_may_dispatch grants it, and then it alone has gone; otherwise it is queued last, and the group is keyed by the shorter wait if it is the first of its direction and keeps its key if not; arrivals leave in order |
| `ThrottleTree.ThrotlData.PassBio` | linux-2.6.39-hardened-r8/block/blk-throttle.c:1011-1028 | in place: a bio that passes is charged and the slice trimmed |
| `ThrottleGroups.WaitAsked` | linux-2.6.39-hardened-r8/block/blk-throttle.c:631-649 | the two waits that key the group are those of its state before the refused check |
| `Segments.GreedyOptimal` | linux-2.6.39-hardened-r8/block/blk-merge.c:133-169 | no way of cutting the vectors into segments the hardware can take is shorter than the greedy mapping |
| `Segments.CutPartition` | linux-2.6.39-hardened-r8/block/blk-merge.c:12-69 | the greedy cutting, with or without the high-page rule, is a partition into valid segments |
| `SegmentWindows.Hardware` | linux-2.6.39-hardened-r8/block/blk-merge.c:12-169 | every segment of more than one vector, recounted or mapped, is one stretch of memory without holes, within max_segment_size and inside one window of the boundary mask, on a clustering queue only; together they are the vectors in order |
| `SegmentWindows.EmptyVectorSpans` | linux-2.6.39-hardened-r8/block/blk-merge.c:33-46 | three vectors, the middle one empty, that are cut into one segment across the edge of a window |
| `SegmentWindows.SameWindow` | linux-2.6.39-hardened-r8/include/linux/bio.h:128-131 | the comparison with the or-ed mask says that two addresses are in one window |
| `SegmentWindows.HighAlone` | linux-2.6.39-hardened-r8/block/blk-merge.c:29-36 | in a recount a page above the bounce limit is a segment of its own |
| `Requests.MapFits` | linux-2.6.39-hardened-r8/block/blk-merge.c:117-169 | a request whose count has a witness partition never maps to more entries than it counts |
| `Requests.RecountOk` | linux-2.6.39-hardened-r8/block/blk-merge.c:12-69 | a recount has a witness whose first and last segment are covered by the noted front and back sizes |
| `Requests.NewReqOk` | linux-2.6.39-hardened-r8/block/blk-core.c:2466-2482 | a request made of one bio is in order |
| `Requests.BackMergeOk` | linux-2.6.39-hardened-r8/block/blk-merge.c:202-250 | a back merge, successful or not, leaves request and bio in order |
| `Requests.FrontMergeOk` | linux-2.6.39-hardened-r8/block/blk-merge.c:202-275 | a front merge likewise |
| `Requests.MergeReqsOk` | linux-2.6.39-hardened-r8/block/blk-merge.c:277-315 | a merge of two requests likewise, when the segments at the seam are counted as one and when the attempt fails after the sizes were noted |
| `RequestRun.MapNeverOverflows` | linux-2.6.39-hardened-r8/block/blk-merge.c:12-315 | over every run of submissions, new requests, back, front and request merges (failed ones included) and partial completions, in which no bio is submitted with a count or noted sizes that do not hold: no request ever maps to more scatterlist entries than nr_phys_segments |
| `RequestOverflow.SafeIff` | linux-2.6.39-hardened-r8/block/blk-merge.c:86-110 | a bio submitted with BIO_SEG_VALID, counting no more than it should, never makes a request of any run overflow, whatever unmarked bios go with it, if and only if its count and the size noted of its last segment hold; on a clustering queue with room behind the bio |
| `RequestOverflow.BuiltSafeIff` | linux-2.6.39-hardened-r8/fs/bio.c:519-630 | so for every bio that bio_add_page builds on such a queue without merge_bvec_fn |
| `RequestOverflow.MergeFallsShortIff` | linux-2.6.39-hardened-r8/block/blk-merge.c:86-110 | two requests that meet in memory and on disk are merged into one with too few segments exactly when the noted sizes fit one segment and the real ones do not |
| `RequestOverflow.StaleMark` | linux-2.6.39-hardened-r8/fs/bio.c:574-629 | four calls of bio_add_page on a queue of three segments and a run of five steps that ends with a request of three counted segments that maps to more |
| `SegmentWindows.MaskConvex` | linux-2.6.39-hardened-r8/block/blk-merge.c:33-46 | every segment boundary mask of low bits is such that what lies between two addresses of one window is in it |
| `BioBuild.BuildTight` | linux-2.6.39-hardened-r8/fs/bio.c:519-630 | whatever pages below the bounce limit are added, a marked bio never counts too much, and only its last segment may be other than noted |
| `BioBuild.BuildLen` | linux-2.6.39-hardened-r8/fs/bio.c:519-630 | bi_size is the length of the vectors, added or lengthened |
| `BioBuild.BioInPlace.BioAddPage` | linux-2.6.39-hardened-r8/fs/bio.c:519-630 | in place: a page lengthens the last vector, is refused, or is added after at most one recount, with the mark cleared if it touches the vector before |
| `BioPages.AddPageIs` | linux-2.6.39-hardened-r8/fs/bio.c:519-630 | a page is taken exactly when the size limit, merge_bvec_fn and, unless it continues the last vector, the vector table and the segment limit after a recount allow it; the bytes of the bio are then the old ones followed by the page, otherwise the old ones |
| `BioPages.BuiltBytes` | linux-2.6.39-hardened-r8/fs/bio.c:519-630 | a bio built by any calls holds the bytes of the pages taken, in order, and bi_size is their number |
| `BioPages.EmptyTakes` | linux-2.6.39-hardened-r8/fs/bio.c:655-672 | a page within the limits is always taken by an empty bio |
| `RequestRun.RunKeeps` | linux-2.6.39-hardened-r8/block/blk-core.c:1110-1180 | every such run keeps each request in order and its length the sum of what its bios have left |
| `RequestInPlace.Request.MapSg` | linux-2.6.39-hardened-r8/block/blk-merge.c:117-169 | in place: the scatterlist is the greedy cutting, entry by entry, at most nr entries for a request in order |
| `RequestInPlace.Request.Recalc` | linux-2.6.39-hardened-r8/block/blk-merge.c:12-69 | in place: the counting loop equals the value-level recount |
| `RequestInPlace.Request.AttemptBackMerge` | linux-2.6.39-hardened-r8/block/blk-core.c:1110-1138 | in place: equal to the value-level back merge, refusals and their marks included |
| `RequestInPlace.Request.AttemptFrontMerge` | linux-2.6.39-hardened-r8/block/blk-core.c:1140-1174 | in place: likewise at the front |
| `RequestInPlace.Request.AttemptMerge` | linux-2.6.39-hardened-r8/block/blk-merge.c:367-430 | in place: likewise for two requests |
| `Completion.DropsBytes` | linux-2.6.39-hardened-r8/block/blk-core.c:2077-2178 | completing n bytes removes exactly the first min(n, total) bytes, page by page, and leaves well-formed bios; nothing is left exactly when n reaches the total |
| `Completion.InPieces` | linux-2.6.39-hardened-r8/block/blk-core.c:2077-2178 | dropping a whole number of sectors and then more leaves the same rest of each bio as dropping all at once, and ends the same bios in the same order |
| `Completion.EndsPrefix` | linux-2.6.39-hardened-r8/block/blk-core.c:150-176 | the bios ended are the first ones, each once and in order, and the others remain |
| `RequestInPlace.Request.WalkBios` | linux-2.6.39-hardened-r8/block/blk-core.c:2077-2127 | in place: the loop over bios and vectors comes to rest at the byte the drop stops in |
| `RequestInPlace.Request.AdvanceHead` | linux-2.6.39-hardened-r8/block/blk-core.c:2145-2150 | in place: the partly completed bio is the one with its bytes dropped |
| `RequestInPlace.Request.UpdateRequest` | linux-2.6.39-hardened-r8/block/blk-core.c:2030-2178 | in place, also for a request of one bio without bytes: what is left is the old rest with n bytes dropped, __data_len is its length, __sector moves on by n / 512 if it is kept, bios outside a flush sequence are ended, the result is false exactly when nothing is left, and the recounted request is in order |
| `RequestInPlace.UpdatedTwice` | linux-2.6.39-hardened-r8/block/blk-core.c:2030-2178 | two partial completions, the first of whole sectors, leave what one for both leaves: the same rest of every bio, length, first sector and number of segments |
| `RequestDisk.EveryByteInPlace` | linux-2.6.39-hardened-r8/block/blk-core.c:1110-1180 | over every run of submissions, merges where elv_try_merge puts them, request merges and partial completions in whole sectors: transferring the bytes of a request in order from its first sector on puts the bytes of each of its bios at that bio's sector |
| `RequestDisk.RunOnDisk` | linux-2.6.39-hardened-r8/block/blk-core.c:1110-1180 | every such run keeps the bios of each request end to end on the disk from its first sector on |
| `RequestDisk.LiesAt` | linux-2.6.39-hardened-r8/block/blk-merge.c:117-169 | what that means for the bytes: those of a bio come after those of the bios before it, in memory and on disk |
| `RequestDisk.BackMergeIff` | linux-2.6.39-hardened-r8/block/blk-core.c:1110-1138 | a bio is taken at the back exactly when the request is open to merging and sectors and segments stay within the limits; its rest then follows those of the request; a refusal for a limit only closes the request |
| `RequestDisk.FrontMergeIff` | linux-2.6.39-hardened-r8/block/blk-core.c:1140-1174 | the same at the front, where the request then starts at the sector of the bio |
| `RequestDisk.MergeReqsIff` | linux-2.6.39-hardened-r8/block/blk-merge.c:367-430 | two requests are merged exactly when both are open, of one kind and unspecial, adjacent on disk and within the limits with the segment saved at the seam; the bios of the second follow, and a failed attempt changes only noted sizes |
| `RequestDisk.DropKeepsPlace` | linux-2.6.39-hardened-r8/block/blk-core.c:2077-2150 | the bytes left of a partly completed bio keep their places on the disk |
| `DeadlineRun.WritesNotStarved` | linux-2.6.39-hardened-r8/block/deadline-iosched.c:207-327 | in any stretch of a run in which writes wait at every dispatch and each dispatch picks a read there are at most (writes_starved + 1) * max(1, fifo_batch) dispatches, writes_starved taken as unsigned, whatever inserts and merges happen between |
| `DeadlineBatch.NextSent` | linux-2.6.39-hardened-r8/block/deadline-iosched.c:207-327 | what the dispatch after that of x sends: within fifo_batch the held request of the direction with the least position above x, if any; a new batch is one of writes if no reads are left or writes have starved enough; it goes on above x in the direction of x unless the oldest is overdue, and otherwise starts with the oldest |
| `DeadlineBatch.BatchRises` | linux-2.6.39-hardened-r8/block/deadline-iosched.c:207-327 | over every run: of two dispatches in a row within a batch, the second sends the lowest request above the first while there is one |
| `DeadlineBatch.SentNext` | linux-2.6.39-hardened-r8/block/deadline-iosched.c:207-222 | after a dispatch next_rq is the request above the one sent, and only in its direction |
| `DeadlineBatch.AddIs` | linux-2.6.39-hardened-r8/block/deadline-iosched.c:98-110 | an added request is last on its FIFO with the expiry of its own direction; a request at its position is sent on first, and no other changes |
| `DeadlineBatch.FrontIs` | linux-2.6.39-hardened-r8/block/deadline-iosched.c:156-167 | a request that grows in front ends where it did and keeps expiry and place on the FIFO; a request at its new position is sent on first |
| `DeadlineBatch.JoinIs` | linux-2.6.39-hardened-r8/block/deadline-iosched.c:170-190 | a request that takes in another has the sectors of both and the earlier expiry; the other is gone, the rest keep their order, and next_rq moves only off the other, to the request above it |
| `DeadlineExpiry.OverdueLeaves` | linux-2.6.39-hardened-r8/block/deadline-iosched.c:228-327 | an expired request at the head of its FIFO is passed over by at most (writes_starved + 1) * max(1, fifo_batch) dispatches if a write, and at most 2 * max(1, fifo_batch) if a read and writes_starved is not 0 |
| `DeadlineExpiry.OverdueBoundedIff` | linux-2.6.39-hardened-r8/block/deadline-iosched.c:245-327 | the number of dispatches that can pass over an overdue request has a bound if and only if it is a write or writes_starved is not 0 |
| `DeadlineExpiry.ReadWaits` | linux-2.6.39-hardened-r8/block/deadline-iosched.c:245-327 | with writes_starved 0, a run in which an overdue read is passed over by any given number of dispatches |
| `DeadlineExpiry.ReadsWaitIff` | linux-2.6.39-hardened-r8/block/deadline-iosched.c:245-327 | after a batch of writes while reads wait, the next new batch is again one of writes if and only if writes_starved is 0 |
| `DeadlineExpiry.HeadStays` | linux-2.6.39-hardened-r8/block/deadline-iosched.c:102-222 | the oldest request of a FIFO stays the oldest while it is held, and its expiry never grows |
| `DeadlineRun.RunKeeps` | linux-2.6.39-hardened-r8/block/deadline-iosched.c:76-327 | every state of a run of inserts, merges of all kinds and dispatches, at times that never go back, keeps the two views of the held requests in agreement |
| `Deadline.ViewsAgree` | linux-2.6.39-hardened-r8/block/deadline-iosched.c:76-222 | what that means per direction: sort list and FIFO hold the same requests, each once, positions unique, expiry in order, and at most one next_rq is set, to a request in its sort list |
| `Deadline.AddKeeps` | linux-2.6.39-hardened-r8/block/deadline-iosched.c:76-110 | adding a request, sending on one at the same position, keeps the order and loses no request |
| `Deadline.FrontMergedKeeps` | linux-2.6.39-hardened-r8/block/deadline-iosched.c:156-170 | repositioning after a front merge likewise |
| `Deadline.MergedRequestsKeeps` | linux-2.6.39-hardened-r8/block/deadline-iosched.c:172-192 | merging two requests likewise, the earlier place and expiry being kept |
| `Deadline.DispatchKeeps` | linux-2.6.39-hardened-r8/block/deadline-iosched.c:245-327 | a dispatch sends on one held request exactly when any is held |
| `Deadline.LatterIn` | linux-2.6.39-hardened-r8/block/deadline-iosched.c:59-72 | the request after another in the sort list is the next higher position |
| `DeadlineRun.DrainEmpties` | linux-2.6.39-hardened-r8/block/elevator.c:616-628 | forced draining: after as many calls as requests were held all of them are on the dispatch queue, once, behind what was there, and nr_sorted is 0 |
| `DeadlineInPlace.DeadlineData.AddRqRb` | linux-2.6.39-hardened-r8/block/deadline-iosched.c:74-82 | in place: the loop sends on at most one request, equal to `AddSorted` |
| `DeadlineInPlace.DeadlineData.AddRequest` | linux-2.6.39-hardened-r8/block/deadline-iosched.c:98-110 | in place: equal to `Add` |
| `DeadlineInPlace.DeadlineData.RemoveRequest` | linux-2.6.39-hardened-r8/block/deadline-iosched.c:84-93 | in place: off both lists, next_rq moved on |
| `DeadlineInPlace.DeadlineData.MoveRequest` | linux-2.6.39-hardened-r8/block/deadline-iosched.c:207-222 | in place: to the dispatch queue, the batch going on behind it |
| `DeadlineInPlace.DeadlineData.FrontMergedRequest` | linux-2.6.39-hardened-r8/block/deadline-iosched.c:156-170 | in place: equal to `FrontMerged` |
| `DeadlineInPlace.DeadlineData.JoinRequests` | linux-2.6.39-hardened-r8/block/deadline-iosched.c:172-192 | in place: equal to `MergedRequests` |
| `DeadlineInPlace.DeadlineData.SelectRequest` | linux-2.6.39-hardened-r8/block/deadline-iosched.c:245-318 | in place: the selected request and the counters |
| `DeadlineInPlace.DeadlineData.DispatchRequests` | linux-2.6.39-hardened-r8/block/deadline-iosched.c:245-327 | in place: equal to `Dispatch`; true exactly when something was held |
| `DeadlineInPlace.DeadlineData.DrainElevator` | linux-2.6.39-hardened-r8/block/elevator.c:616-628 | in place: the loop ends, everything held is dispatched once and nothing is reported as broken |
| `Elevator.ElevatorQueue.RqhashFind` | linux-2.6.39-hardened-r8/block/elevator.c:335-355 | the hash finds a request exactly when a scan of all held mergeable requests for that end sector would, and the one found is such; only unmergeable requests are dropped on the way |
| `Elevator.ElevatorQueue.RqhashReposition` | linux-2.6.39-hardened-r8/block/elevator.c:329-333 | a request under an old key is under its own again |
| `Elevator.ElevatorQueue.AddSorted` | linux-2.6.39-hardened-r8/block/elevator.c:710-727 | insertion keeps the hash complete and the one-hit cache on a held request |
| `Elevator.ElevatorQueue.MergeRequests` | linux-2.6.39-hardened-r8/block/elevator.c:570-588 | so does merging two requests, the second from the scheduler or from a plug list |
| `Elevator.ElevatorQueue.BackMerge` | linux-2.6.39-hardened-r8/block/blk-core.c:1261-1268 | so does a back merge of a bio with the request merge that may follow |
| `Elevator.ElevatorQueue.FrontMerge` | linux-2.6.39-hardened-r8/block/blk-core.c:1269-1276 | so does a front merge with the request merge that may follow |
| `Elevator.ElevatorQueue.MarkNoMerge` | linux-2.6.39-hardened-r8/block/blk-merge.c:228-240 | so does giving up on merging a request |
| `Elevator.ElevatorQueue.DispatchAddTail` | linux-2.6.39-hardened-r8/block/elevator.c:465-477 | so does dispatch, which puts the request last and moves the boundary |
| `Elevator.ElevatorQueue.DispatchSort` | linux-2.6.39-hardened-r8/block/elevator.c:418-457 | sorted dispatch: all others keep their order, and the request passes exactly those at the end of the queue that are of its direction and discard kind, neither barrier nor started, and come after it from end_sector on; a run in elevator order stays in it |
| `Elevator.AheadIs` | linux-2.6.39-hardened-r8/block/elevator.c:443-453 | the order used is the way up from end_sector and around, on a disk of any size |
| `Elevator.SortPlace` | linux-2.6.39-hardened-r8/block/elevator.c:436-454 | the loop from the tail stops behind the last request that the new one must not precede |
| `Elevator.InsertOrder` | linux-2.6.39-hardened-r8/block/elevator.c:436-456 | inserting there keeps the run in elevator order |
| `Tags.UsedTags` | linux-2.6.39-hardened-r8/block/blk-tag.c:282-384 | as many tag bits are set as requests are tagged |
| `Tags.StartMatches` | linux-2.6.39-hardened-r8/block/blk-tag.c:365-384 | taking a free tag keeps bits, tag_index, request tags and busy lists one relation |
| `Tags.EndMatches` | linux-2.6.39-hardened-r8/block/blk-tag.c:282-316 | giving it back does too |
| `Tags.TagMap.StartTag` | linux-2.6.39-hardened-r8/block/blk-tag.c:337-384 | the lowest free tag below the limit, two tags kept from asynchronous requests; failure exactly when none is free or too many asynchronous requests are in flight, and then nothing changed |
| `Tags.TagMap.EndTag` | linux-2.6.39-hardened-r8/block/blk-tag.c:282-316 | the tag was held by the request and is free afterwards; neither message is ever due |
| `Tags.TagMap.Resize` | linux-2.6.39-hardened-r8/block/blk-tag.c:107-265 | shrinking only moves the limit; growing keeps every tag; refused exactly for a shared map or without memory, and then nothing changed; the copy runs past the new map exactly when the map grows and nr_requests is below half the old depth |
| `Tags.OverrunCase` | linux-2.6.39-hardened-r8/block/blk-tag.c:220-265 | 64 tags, nr_requests lowered to 16, resized to 128: the copy overruns |
| `Tags.TagMap.InvalidateTags` | linux-2.6.39-hardened-r8/block/blk-tag.c:399-405 | every tagged request of the queue is put back at the head of its dispatch queue in the order of the starts, ahead of the old contents, and untagged; other queues of a shared map keep their tags, and without others every tag is free |
| `Tags.TagMap.Requeue` | linux-2.6.39-hardened-r8/block/blk-core.c:925-937 | one request is untagged and first on its queue |
| `SpawnsInPlace.AlgRegistry.RemoveSpawns` | linux-2.6.39-hardened-r8/crypto/algapi.c:132-179 | on any finite dependency graph in which nothing reachable belongs to the algorithm: it ends; exactly the reachable spawns lose their algorithm and exactly their instances die; their user lists and that of the algorithm are empty, every other list is unchanged; each instance is handed on once |
| `SpawnsInPlace.AlgRegistry.WalkUsers` | linux-2.6.39-hardened-r8/crypto/algapi.c:85-171 | in place: the nested loops visit each spawn once and end with nothing on stack or top list |
| `SpawnsInPlace.AlgRegistry.Descend` | linux-2.6.39-hardened-r8/crypto/algapi.c:151-169 | in place: the inner loop runs down to an empty list |
| `SpawnsInPlace.AlgRegistry.SetAside` | linux-2.6.39-hardened-r8/crypto/algapi.c:143-149 | all users of the algorithm pass the mask test and are set aside |
| `SpawnsInPlace.AlgRegistry.RemoveSpawn` | linux-2.6.39-hardened-r8/crypto/algapi.c:108-130 | the instance dies; it is handed on only if alive, hashed and with a template that can be held |
| `Spawns.WalkEnds` | linux-2.6.39-hardened-r8/crypto/algapi.c:132-179 | when the walk is over the moved spawns are exactly the reachable ones |
| `Spawns.PopWalking` | linux-2.6.39-hardened-r8/crypto/algapi.c:85-106 | popping the stack keeps what the walk has established |
| `CryptoInc.CryptoInc` | linux-2.6.39-hardened-r8/crypto/algapi.c:876-889 | for any size the first bytes, read as a big-endian number, become n + 1 modulo 256 to the size, and equal the bytewise increment; the rest of the buffer is untouched |
| `CryptoInc.IncByte` | linux-2.6.39-hardened-r8/crypto/algapi.c:863-874 | the bytewise loop is the increment with carry |
| `CryptoInc.IncValue` | linux-2.6.39-hardened-r8/crypto/algapi.c:863-874 | the increment with carry adds one modulo 256 to the size |
| `CryptoInc.IncWord` | linux-2.6.39-hardened-r8/crypto/algapi.c:876-889 | a 32-bit word that does not wrap takes the increment, one that does hands on the carry |
| `Anubis.DecryptEncrypt` | linux-2.6.39-hardened-r8/crypto/anubis.c:574-672 | decryption undoes encryption for every block, number of rounds and array of round keys |
| `Anubis.EncryptDecrypt` | linux-2.6.39-hardened-r8/crypto/anubis.c:574-672 | encryption undoes decryption |
| `Anubis.RoundsUndo` | linux-2.6.39-hardened-r8/crypto/anubis.c:552-649 | r rounds with the inverse schedule undo the last r rounds |
| `Anubis.InverseKeyIs` | linux-2.6.39-hardened-r8/crypto/anubis.c:552-569 | an inner key of the inverse schedule is the diffused forward key |
| `Anubis.InverseTwice` | linux-2.6.39-hardened-r8/crypto/anubis.c:552-569 | the inverse schedule of the inverse schedule is the schedule |
| `Anubis.RoundIs` | linux-2.6.39-hardened-r8/crypto/anubis.c:590-649 | a round of table look-ups is substitution, transposition, diffusion and key addition; the masked last round leaves out the diffusion |
| `Anubis.ThetaInverse` | linux-2.6.39-hardened-r8/crypto/anubis.c:52-318 | diffusion is its own inverse |
| `Anubis.ThetaLinear` | linux-2.6.39-hardened-r8/crypto/anubis.c:52-318 | and linear |
| `Anubis.GammaInverse` | linux-2.6.39-hardened-r8/crypto/anubis.c:590-649 | substitution with transposition is its own inverse |
| `AnubisTables.Tables` | linux-2.6.39-hardened-r8/crypto/anubis.c:52-385 | every entry of T0 to T3 is the S-box value of T4 times a column of the diffusion matrix over GF(2^8), and T4 repeats that value |
| `AnubisTables.SboxInverse` | linux-2.6.39-hardened-r8/crypto/anubis.c:320-385 | the S-box in T4 is its own inverse |
| `AnubisSchedule.TurnIs` | linux-2.6.39-hardened-r8/crypto/anubis.c:501-522 | the inner loop over T4 and T5 is a turn of the rule of Horner: with it each byte of a round key word is a polynomial in the substituted key bytes, at 1, 2, 6 or 8 |
| `AnubisSchedule.PolyShift` | linux-2.6.39-hardened-r8/crypto/anubis.c:501-522 | scaling that sum by one more power is scaling each of its terms |
| `AnubisSchedule.T5Is` | linux-2.6.39-hardened-r8/crypto/anubis.c:387-452 | every entry of T5 is 1, 2, 6 and 8 times its index |
| `AnubisSchedule.ConstantsAre` | linux-2.6.39-hardened-r8/crypto/anubis.c:454-460 | the round constants are the S-box, four entries to a word |
| `AnubisSchedule.KeyByte` | linux-2.6.39-hardened-r8/crypto/anubis.c:485-487 | byte j of word i of the first key state is byte 4 * i + j of the key |
| `AnubisInPlace.BlockByte` | linux-2.6.39-hardened-r8/crypto/anubis.c:582-588 | byte j of word i of a block is byte 4 * i + j of the buffer |
| `AnubisVector.KnownAnswer` | linux-2.6.39-hardened-r8/crypto/testmgr.h:7430-7441 | key schedule and rounds give the first test vector: sixteen bytes 0xfe under a key of sixteen bytes 0xfe |
| `AnubisVector.FirstVector` | linux-2.6.39-hardened-r8/crypto/testmgr.h:7430-7441 | so do anubis_setkey and anubis_encrypt in place |
| `AnubisSchedule.EvolveBack` | linux-2.6.39-hardened-r8/crypto/anubis.c:534-549 | the step from one key state to the next can be undone |
| `AnubisSchedule.StatesDiffer` | linux-2.6.39-hardened-r8/crypto/anubis.c:492-550 | different keys have different key states in every round |
| `AnubisInPlace.AnubisCtx.SetKey` | linux-2.6.39-hardened-r8/crypto/anubis.c:462-572 | key lengths 16, 20, ..., 40 and no others are accepted; then E is the forward schedule of the key and D its inverse; a refused key changes nothing |
| `AnubisInPlace.RoundKey` | linux-2.6.39-hardened-r8/crypto/anubis.c:497-522 | in place: one round key |
| `AnubisInPlace.EvolveInPlace` | linux-2.6.39-hardened-r8/crypto/anubis.c:534-549 | in place: the next key state, with the index that runs backwards round the cycle |
| `AnubisInPlace.AnubisCtx.FillForward` | linux-2.6.39-hardened-r8/crypto/anubis.c:492-550 | in place: the loop that fills E |
| `AnubisInPlace.AnubisCtx.FillInverse` | linux-2.6.39-hardened-r8/crypto/anubis.c:552-569 | in place: the loops that fill D |
| `AnubisInPlace.AnubisCrypt` | linux-2.6.39-hardened-r8/crypto/anubis.c:574-660 | in place: the block is read, taken through the rounds and written, in one buffer or two |
| `AnubisInPlace.AnubisCtx.Encrypt` | linux-2.6.39-hardened-r8/crypto/anubis.c:662-666 | encryption with E |
| `AnubisInPlace.AnubisCtx.Decrypt` | linux-2.6.39-hardened-r8/crypto/anubis.c:668-672 | decryption with D |
| `AnubisInPlace.AnubisCtx.RoundTrip` | linux-2.6.39-hardened-r8/crypto/anubis.c:662-672 | with any key set, decrypting an encrypted block of bytes gives it back, and the other way round |

## Left out

- Locks, RCU, memory barriers, tracing, messages and reference counts: each locked section is one step, and two queues that race for a bit of a shared tag map are not interleaved inside blk_queue_start_tag.
- jiffies do not wrap, sectors and addresses are 64 bits wide, and a page has 4096 bytes.
- Changes of limits and tunables during a run, and the destruction of groups, queues and requests: the bounds are for fixed tunables.
- The shape of red-black trees: a tree is its in-order walk, so that look-ups by descent and rebalancing are not modelled.
- blk_abort_flushes and blkdev_issue_flush: outside the sequencer's runs.
- Padding, drain buffer, integrity segments, discard bios without vectors, failfast mixing, and the hardware limit of packet commands in merging: separate special cases of block/blk-merge.c.
- 32-bit wrap-around of segment sizes and lengths: bios are bounded far below it.
- Statistics, timers, error codes and partial completion of packet commands in blk_update_request: they would only add easy members.
- elv_merge and its checks of devices and flags: it reads what the hash and the one-hit cache hold, which is what is proved.
- cfq, noop and the other schedulers and block files: heuristics or plumbing without a stated promise.
- crypto_remove_spawns with a replacement algorithm, and the reference counts of instances and templates: only the removal without replacement is modelled.
- The local arrays of anubis_crypt are one four-word value: aliasing between state and inter is not captured.
- The search of crypto_alg_list, registration, and all other ciphers: other files.
- ThrottleWait.IopsWaitIff: for HZ up to 10000, which covers every value in kernel/Kconfig.hz.
- ThrottleWait.WaitsSufficeIff: likewise, and only for runs in which no slice is 2^32 jiffies old, beyond which `ThrottleWait.IopsQuotaWrapped` says what one check does.
- ThrottleWait.NeverFallsBackIff: likewise.
- ThrottleTree.ThrotlData.Ask: the slice of a group is one value that a check replaces; the order of the single assignments to its fields is not captured.
- Tags.TagMap.Resize: what an overrunning copy leaves behind is not modelled.
- DeadlineExpiry.OverdueLeaves: for reads only when writes_starved is not 0, because otherwise there is no bound, as `DeadlineExpiry.OverdueBoundedIff` states.
- RequestOverflow.SafeIff: a marked bio that counts more segments than it maps to, as one with pages above the bounce limit may, is not covered; neither are queues without room behind the bio, where the merge that overflows may be impossible.
- BioBuild.BuildTight: not after a merge_bvec_fn has refused a page and the same bio is built further.
- BioBuild.BioInPlace.BioAddPage: clones, which take no pages, are left out, and what merge_bvec_fn answers is a parameter.
- RequestDisk.EveryByteInPlace: completions that are not whole sectors, and packet requests, which keep no sector, are not covered.
- SegmentWindows.Hardware: for vectors that hold bytes, as `SegmentWindows.EmptyVectorSpans` shows to be needed.
- BioPages.EmptyTakes: only within the limits of the queue, which the comment of bio_add_page takes for granted.
- RequestRun.MapNeverOverflows: a partial completion enters the run as any bios with the right bytes dropped, recounted, which is what `RequestInPlace.Request.UpdateRequest` is proved to leave.
