# Verified models of the Linux block layer

This project models the parts of `block/` whose rules only show when several functions are read
together, and proves what they promise over every input, every run and every interleaving.

| files | what they model |
|---|---|
| `FlushModel`, `FlushStructure`, `FlushProofs`, `FlushTheorems`, `FlushQueue` | the PREFLUSH/FUA sequencer: two toggling queues, a data-in-flight list, one shared flush request |
| `RestartHandshake` | a dispatcher that puts requests back, racing with completions that clear SCHED_RESTART |
| `DeadlineModel`, `DeadlineLists`, `DeadlineProofs`, `DeadlineStarvation`, `DeadlineTheorems`, `DeadlineSched` | mq-deadline with the elevator's hash, tree and cache, and merging |
| `Segments`, `ScatterList`, `BioSplit` | segment counting, scatterlist mapping, bio splitting |
| `BadblocksModel`, `BadblocksSet`, `BadblocksExact`, `BadblocksTheorem`, `BadblocksEntry`, `Badblocks` | the bad-block table |
| `BioChain` | chained bio completion |
| `SubmitLoop` | submission of stacked bios without recursion |
| `QueueUsage`, `RequestQueue` | entering, freezing and runtime suspend of a queue |
| `KyberModel`, `Kyber` | Kyber's batching and tokens |
| `CgroupStats` | hierarchical I/O statistics |

Each component has the same shape. Specification functions say what one operation does to a state.
Lemmas show what every step keeps and then what holds in every run. A class or a method with the
source's loops and its list and field edits is proved to compute exactly those functions; where the
kernel follows the node embedded in a request, the request's place in the list is looked up. Protocols
that run on several processors are state machines whose steps are the source's atomic accesses or
lock-held sections, joined where a module says so; they interleave freely under sequential
consistency.

Four properties that one might expect turned out to be false, and the models keep the code as it is:

- A flush error can be lost. `flush_end_io` overwrites the saved status each time a reference other
  than the last is dropped. `FlushErrorReachesWaiters` gives the exact condition and
  `FlushErrorCanBeLost` a run.
- `badblocks_clear` corrupts the table when rounding inverts the range over a stored one. A request
  inverts if and only if it lies inside one block and does not start it (`InwardInverts`);
  `ClearRequestIsExact` is the if-and-only-if for a request in sectors, `InvertedRequestHappens` an
  input.
- `badblocks_set` does not always record a request. `SetIsExact` says for every sorted table and every
  request exactly when it does. It fails in three ways: it grows a range past the end of the next one
  and loses the blocks beyond (`MergeBelowExact` and `MergeAboveExact` are the if-and-only-ifs for a
  merge from below and from above, `SetLosesBlocks` names a lost block); it inserts the pieces of a
  long request in reverse order (`SetUntouched`); and a full acknowledged range keeps its
  acknowledgement although an unacknowledged request covers its last blocks (`StaleAckExact`, with an
  input in `StaleAckHappens`).
- A PM caller that sleeps in `blk_queue_enter` can miss the resume of its device
  (`PmSleeperMissesResume`); `ResumeWakesPmSleepers` says exactly when it is woken. All other wake-ups
  are kept (`NoLostWakeup`).

`get_max_io_size` can be zero, which `bio_split` refuses with a BUG; `MaxIoSizePositive` says exactly
when, and `LimitsDecideProgress` exactly which limits keep it positive at every sector.

## Model

| member | source | states |
|---|---|---|
| `FlushTheorems.Durability` | block/blk-flush.c:164-445 | in every run, a bio reports success only after the flushes its policy asks for were issued after insertion (PREFLUSH) and after DATA ended (POSTFLUSH), and completed and retired without error, the driver reporting success unless its error was overwritten; DATA of a sequenced request had ended without error |
| `FlushTheorems.DataFollowsPreflush` | block/blk-flush.c:176-193 | in every run, DATA is issued only after a flush issued since insertion was served, and carries FUA exactly when asked for and supported |
| `FlushTheorems.FlushErrorReachesWaiters` | block/blk-flush.c:226-263 | the status passed to the waiters is the driver's if and only if it is success or at most one further reference was dropped in between |
| `FlushTheorems.FlushErrorCanBeLost` | block/blk-flush.c:226-242 | a run in which the driver fails a flush, the one request waiting for it is pushed on with success and its bio ends with success |
| `FlushTheorems.OneListEach` | block/blk-flush.c:181-213 | in every run, a request is on exactly one of the three lists if and only if it is being sequenced, in the list its stage says, and no BUG_ON fires |
| `FlushTheorems.NoStall` | block/blk-flush.c:286-350 | in every run, the indices differ exactly while the one flush is in flight, its queue is then not empty, and a non-empty pending queue implies a flush or a DATA step in flight |
| `FlushTheorems.BioEndsOnce` | block/blk-core.c:1429-1517 | in every run, the bio of a sequenced request is ended exactly once, whichever step fails and however DATA completes in parts |
| `FlushModel.VisitMakesProgress` | block/blk-flush.c:258-263 | one turn of the walk over the running queue leaves less to do, even when the request re-enters the list being walked |
| `FlushStructure.AdvanceKeepsStructure` | block/blk-flush.c:164-213 | moving a request to its next stage keeps every request on the one list its stage says |
| `FlushStructure.VisitKeepsWalking` | block/blk-flush.c:251-263 | the lists stay well formed in the middle of a walk |
| `FlushProofs.WalkKeepsInv` | block/blk-flush.c:251-263 | a whole walk keeps structure, history and counts |
| `FlushProofs.StepKeepsInv` | block/blk-flush.c:164-445 | every step keeps the whole invariant |
| `FlushQueue.BlkFlushQueue.QueueForFlush` | block/blk-flush.c:182-188 | in place: the request moves to the tail of the pending queue, which dates from now if it was empty |
| `FlushQueue.BlkFlushQueue.QueueData` | block/blk-flush.c:190-193 | in place: the request moves to the data-in-flight list and is issued |
| `FlushQueue.BlkFlushQueue.KickFlush` | block/blk-flush.c:286-350 | in place: equal to the model's step for all states |
| `FlushQueue.BlkFlushQueue.EndRequest` | block/blk-flush.c:195-206 | in place: the bio is restored, its bytes, status and the request's length are updated as `blk_update_request` does, and the bio ends exactly when all its bytes are done |
| `FlushQueue.BlkFlushQueue.EnterStage` | block/blk-flush.c:181-210 | in place: each stage's list move, completion and events |
| `FlushQueue.BlkFlushQueue.FlushCompleteSeq` | block/blk-flush.c:164-213 | in place: equal to the model's step |
| `FlushQueue.BlkFlushQueue.FlushEndIo` | block/blk-flush.c:215-266 | in place: equal to the model's step |
| `FlushQueue.BlkFlushQueue.WalkRunning` | block/blk-flush.c:258-263 | the loop over the running queue computes the model's walk and ends |
| `FlushQueue.BlkFlushQueue.DataEndIo` | block/blk-flush.c:352-383 | in place: equal to the model's step |
| `FlushQueue.BlkFlushQueue.InsertFlush` | block/blk-flush.c:385-445 | in place: equal to the model's step for every policy |
| `RestartHandshake.NoLostRestart` | block/blk-mq.c:1340-1492 | in every interleaving, a request left on hctx->dispatch when the dispatcher has returned has a queue run pending, or SCHED_RESTART set with a completion still to look at it, or a driver that answered BLK_STS_DEV_RESOURCE |
| `RestartHandshake.NothingIsStranded` | block/blk-mq-sched.c:50-75 | once all outstanding requests have gone, a queue run is pending for whatever is left |
| `RestartHandshake.RequestsAndTagsAreConserved` | block/blk-mq.c:1340-1432 | in every interleaving every request is in one place and every driver tag is accounted for |
| `RestartHandshake.AllTagsAreOut` | block/blk-mq.c:1151-1171 | when the second attempt finds no tag, some request that owns one has yet to look at SCHED_RESTART |
| `RestartHandshake.LeaveKeepsWake` | block/blk-mq.c:490-506 | a finishing request never takes away the last reason for a queue run |
| `RestartHandshake.DispatchKeepsWoken` | block/blk-mq.c:1395-1482 | no step of the dispatcher leaves the dispatch list without a reason for a queue run |
| `RestartHandshake.StepKeepsInv` | block/blk-mq.c:1340-1492 | every step keeps the whole invariant |
| `DeadlineTheorems.IndexesAgree` | block/mq-deadline.c:87-177 | in every run, tree and fifo of a direction hold the same requests, each once, the tree ordered by start sector, and next_rq and last_merge are NULL or queued |
| `DeadlineTheorems.HashFindIsExact` | block/elevator.c:200-248 | in every run and for every hash function, the lookup returns a request if and only if a queued mergeable one ends there, and then such a one |
| `DeadlineTheorems.DispatchIsWorkConserving` | block/mq-deadline.c:271-373 | a dispatch finds nothing if and only if nothing is queued, and otherwise takes exactly one request out |
| `DeadlineTheorems.InsertAddsItsSectors` | block/elevator.c:358-390 | an insert, merged with its neighbours or not, adds exactly the request's sectors |
| `DeadlineTheorems.MergeAddsTheBiosSectors` | block/blk-merge.c:1117-1146 | a bio merge adds exactly the bio's sectors if it happens and changes none if it does not |
| `DeadlineTheorems.MergeDownKeepsSectors` | block/elevator.c:376-387 | the chain of back merges after an insert merge changes no sector |
| `DeadlineStarvation.WritesAreNotStarved` | block/mq-deadline.c:271-373 | after every run and for every interleaving of inserts and merges, fewer than (writes_starved + 1) * fifo_batch reads pass a waiting write |
| `DeadlineStarvation.ReadUsesPatience` | block/mq-deadline.c:271-373 | each read that passes a waiting write uses up part of a bounded budget |
| `DeadlineLists.RbAddOk` | block/elevator.c:254-273 | insertion keeps the tree order and adds exactly the request |
| `DeadlineLists.RbFindOk` | block/elevator.c:283-300 | the lookup by start sector finds a request if and only if there is one |
| `DeadlineLists.HashFindOk` | block/elevator.c:229-248 | the bucket walk returns a mergeable request with that end sector if there is one, and drops only entries that cannot be merged |
| `DeadlineLists.FifoMergeOk` | block/mq-deadline.c:140-159 | a request merge removes exactly the absorbed request from the fifo |
| `DeadlineProofs.AbsorbKeepsInv` | block/blk-merge.c:727-819 | a request merge keeps all indexes in agreement |
| `DeadlineProofs.MergeBioKeepsInv` | block/blk-merge.c:1117-1146 | a bio merge of any kind keeps all indexes in agreement |
| `DeadlineProofs.MoveKeepsInv` | block/mq-deadline.c:164-177 | a dispatch keeps all indexes in agreement |
| `DeadlineProofs.StepKeepsInv` | block/mq-deadline.c:486-524 | every step keeps the whole invariant |
| `DeadlineSched.DeadlineData.RqHashFind` | block/elevator.c:229-248 | the loop over a bucket computes the model's lookup and leaves the hash it says |
| `DeadlineSched.RbInsert` | block/elevator.c:254-273 | the descent to the place of a request, then its insertion, computes the model's sorted insertion |
| `DeadlineSched.DeadlineData.RemoveRequest` | block/mq-deadline.c:109-124 | in place: the edits of list, tree, next_rq, hash and last_merge are the model's removal |
| `DeadlineSched.DeadlineData.MergeRequests` | block/mq-deadline.c:140-159 | in place: the list_move, the field updates and the removal of the absorbed request are the model's request merge |
| `DeadlineSched.DeadlineData.MergeDownwards` | block/elevator.c:376-387 | the loop of back merges computes the model's chain and ends |
| `DeadlineSched.DeadlineData.Insert` | block/mq-deadline.c:486-524 | in place: equal to the model's insert |
| `DeadlineSched.DeadlineData.FindMerge` | block/elevator.c:303-350 | the search for a merge candidate: cache, hash, then tree |
| `DeadlineSched.DeadlineData.BackMergeWith` | block/blk-merge.c:930-952 | in place: the grown request, then the merge with its successor or a new hash place, are the model's back merge |
| `DeadlineSched.DeadlineData.FrontMergeWith` | block/blk-merge.c:954-978 | in place: the grown request, then the merge with its predecessor or a new tree place, are the model's front merge |
| `DeadlineSched.DeadlineData.TryMerge` | block/blk-merge.c:1117-1146 | in place: equal to the model's bio merge |
| `DeadlineSched.DeadlineData.SelectRequest` | block/mq-deadline.c:288-363 | the choice of batch, direction and request, with the batch and starvation counts, is the model's |
| `DeadlineSched.DeadlineData.DispatchRequest` | block/mq-deadline.c:271-373 | in place: equal to the model's dispatch |
| `DeadlineSched.DeadlineData.MoveToDispatch` | block/mq-deadline.c:164-177 | in place: the chosen request leaves the lists and the next one in order is remembered |
| `Segments.PageIsOnePiece` | block/blk-merge.c:503-506 | a vector inside one page is exactly one segment, so mapping it as it stands agrees with the count |
| `Segments.CutStep` | block/blk-merge.c:208-219 | a further segment after full ones is one more, whatever was cut before |
| `ScatterList.BvecSplitSegs` | block/blk-merge.c:198-226 | true if and only if the whole vector cannot be appended within the segment, sector and virtual-boundary limits; what is taken respects them and is not empty while there is room |
| `ScatterList.CutSegs` | block/blk-merge.c:208-219 | the loop stops only at the end, at the segment limit or at a gap |
| `ScatterList.RecalcRqSegments` | block/blk-merge.c:368-399 | the count is that of all vectors cut as long as allowed |
| `ScatterList.BvecMapSg` | block/blk-merge.c:418-451 | the entries of a vector are its bytes in order, each within the size limit, one boundary window and one page's offset, and as many as were counted |
| `ScatterList.PageMapSg` | block/blk-merge.c:453-459 | the same for a vector inside one page |
| `ScatterList.SegmentMapSgMerge` | block/blk-merge.c:461-481 | a merged entry still lies in one window although only the two vectors were compared, and the bytes are appended |
| `ScatterList.MapBios` | block/blk-merge.c:483-517 | the scatterlist concatenates to exactly the request's bytes in order, every entry within limits, and never more entries than were counted |
| `BioSplit.MaxIoSizeAligns` | block/blk-merge.c:145-160 | the I/O size respects the sector limit and the chunk, ends on a physical block if one is in reach and is whole logical blocks otherwise |
| `BioSplit.MaxIoSizePositive` | block/blk-merge.c:145-160 | the I/O size is positive if and only if a logical or a physical block is in reach |
| `BioSplit.BlocksMakeProgress` | block/blk-merge.c:145-160 | on a queue whose limits are in logical blocks, the I/O size at a logical block is positive and a whole number of them |
| `BioSplit.BioSegmentSplit` | block/blk-merge.c:246-284 | a split if and only if the whole bio does not fit; the prefix then fits, has the reported segments, 0 < sectors < bio_sectors, and the split point is a whole number of any unit the bio and the limits are in |
| `BioSplit.AppendVec` | block/blk-merge.c:256-275 | one round of the loop takes the next vector whole or ends with a correct split |
| `BioSplit.BioSplit` | block/bio.c:1476-1503 | clone and remainder are the bio's bytes, in order, cut at the sector |
| `BioSplit.LimitsDecideProgress` | block/blk-merge.c:145-160 | with no chunk, or chunks of whole physical blocks, every sector leaves a positive I/O size if and only if the sector limit allows a logical or a physical block |
| `BioSplit.OneSectorBlocks` | block/blk-merge.c:145-160 | with one-sector logical blocks and any chunk, every sector leaves a positive I/O size if and only if the limits are not zero |
| `BioSplit.SplitOff` | block/blk-merge.c:299-348 | one pass over a bio of whole sectors: nothing to do if and only if it fits, else a piece that fits and a shorter rest, aligned as the bio was |
| `BioSplit.SplitAll` | block/blk-merge.c:299-348 | wherever the I/O size is positive, splitting what is left over and over always ends, and the pieces tile the bio, each fitting at its own sector |
| `BioSplit.SplitInUnits` | block/blk-merge.c:299-348 | the same for a bio in units of any size on limits that are positive at unit boundaries |
| `BioSplit.SplitBlocks` | block/blk-merge.c:299-348 | the same for a bio of whole logical blocks, whatever the chunk |
| `BadblocksModel.OutwardIsTight` | block/badblocks.c:63-69 | rounding for check and set gives the smallest run of blocks around the request |
| `BadblocksModel.InwardIsTight` | block/badblocks.c:338-348 | rounding for clear gives the largest run of blocks inside the request |
| `BadblocksModel.ClearIsExact` | block/badblocks.c:331-423 | exactly the blocks asked for are removed, others keep their flag, and the table stays sorted, disjoint and bounded, if and only if the rounded range is not inverted over a stored one; a full table that would have to grow is unchanged |
| `BadblocksModel.InwardInverts` | block/badblocks.c:338-348 | rounding for clear inverts exactly the requests that lie inside one block and do not start it |
| `BadblocksModel.ClearRequestIsExact` | block/badblocks.c:331-423 | a request in sectors is cleared exactly if and only if it does not lie inside one block that a stored range enters from below and reaches into |
| `BadblocksModel.ClearInverted` | block/badblocks.c:376-391 | an inverted range over a stored one leaves overlapping ranges |
| `BadblocksModel.InvertedRequestHappens` | block/badblocks.c:338-391 | sectors 9 and 10 with blocks of eight round to the range from 2 to 1 and spoil a table that holds the blocks 0 to 3 |
| `BadblocksModel.KeepLeftIs` | block/badblocks.c:393-407 | the downward walk keeps exactly what lies before the range |
| `BadblocksModel.KeepRightIs` | block/badblocks.c:368-391 | what is kept after the range is exactly what lay there |
| `BadblocksModel.ClearAddsNoUnacked` | block/badblocks.c:331-423 | clearing adds no unacknowledged range |
| `BadblocksSet.SetIsUnion` | block/badblocks.c:163-314 | for a request that touches at most one range, or bridges two without passing the second, and fits with them in one range: the exact union, sorted and disjoint, nothing recorded as acknowledged that is not; failure only for want of room and then no change |
| `BadblocksSet.SetUntouched` | block/badblocks.c:283-302 | a request that touches no range is handled correctly if and only if it is at most one range long or the table is full |
| `BadblocksSet.SetLosesBlocks` | block/badblocks.c:262-282 | a merge from below that grows a range past the end of the next one, with no third range in reach, loses the last block asked for |
| `BadblocksTheorem.SetIsExact` | block/badblocks.c:163-314 | for every sorted table and every request: the exact union, sorted and disjoint, with nothing recorded as acknowledged that is not, or a failure that changes nothing, if and only if a condition on the table and the request holds |
| `BadblocksTheorem.MergeBelowExact` | block/badblocks.c:203-282 | a merge from below with no third range in reach is right if and only if the grown range stops short of the next one, or ends within it and both fit in less than a full range |
| `BadblocksTheorem.MergeAboveExact` | block/badblocks.c:235-282 | the same for a merge from above |
| `BadblocksTheorem.StaleAckExact` | block/badblocks.c:224-231 | an unacknowledged request over the end of a full acknowledged range is right if and only if it fails for want of room without a change |
| `BadblocksTheorem.StaleAckFails` | block/badblocks.c:224-231 | so it is wrong whenever the table has room |
| `BadblocksTheorem.StaleAckHappens` | block/badblocks.c:224-231 | blocks 500 to 599, unacknowledged, over an acknowledged range of 512 blocks |
| `BadblocksExact.JoinExact` | block/badblocks.c:262-282 | a grown range joined with the next records its blocks if and only if it stops short, ends within the next, or what is beyond is covered by what follows |
| `BadblocksExact.TailDecides` | block/badblocks.c:235-302 | the blocks that did not fit below are recorded, or refused without a change, if and only if the condition on what follows holds |
| `BadblocksExact.FullLowDecides` | block/badblocks.c:224-302 | the same when the range below is filled to the maximum first |
| `BadblocksSet.JoinedMeans` | block/badblocks.c:262-282 | joining two ranges covers both and is acknowledged only if both are |
| `BadblocksSet.SetAddsNoUnacked` | block/badblocks.c:163-314 | an acknowledged request, whatever it touches, adds no unacknowledged range |
| `BadblocksEntry.EntryRoundTrip` | include/linux/badblocks.h:11-18 | a packed entry gives back what was packed if and only if offset and length are in range |
| `Badblocks.Badblocks.Search` | block/badblocks.c:84-98 | the binary search finds the last range that starts before the bound |
| `Badblocks.Badblocks.Check` | block/badblocks.c:53-125 | agrees with a linear scan: none, all acknowledged or some unacknowledged overlapping range, and the lowest one |
| `Badblocks.Badblocks.UpdateAcked` | block/badblocks.c:128-146 | the flag stays set if and only if it was and some range is unacknowledged |
| `Badblocks.Badblocks.TrimLeft` | block/badblocks.c:393-414 | in place: the walk and the memmove leave exactly the trimmed table |
| `Badblocks.Badblocks.ClearTail` | block/badblocks.c:368-391 | in place: a range reaching over the end is cut or split |
| `Badblocks.Badblocks.Clear` | block/badblocks.c:331-423 | in place: equal to the function of the old table, with its flags and error |
| `Badblocks.Badblocks.Low` | block/badblocks.c:203-234 | in place: merging with the range below |
| `Badblocks.Badblocks.High` | block/badblocks.c:235-261 | in place: merging with the range above |
| `Badblocks.Badblocks.Join` | block/badblocks.c:262-282 | in place: joining the two |
| `Badblocks.Badblocks.AddRest` | block/badblocks.c:283-302 | the insert loop, for requests of any length |
| `Badblocks.Badblocks.Set` | block/badblocks.c:163-314 | in place: equal to the function of the old table for every request in sectors; unacked_exist stays true whenever some range is unacknowledged |
| `BioChain.RootEndsOnceAfterAll` | block/bio.c:312-345 | in every run over every forest and completion order, a root's bi_end_io runs exactly once, when it has gone; by then every bio below was ended, and an error of any is in its status |
| `BioChain.EverythingCompletes` | block/bio.c:1425-1459 | once every owner has ended its bio and no call is under way, every bio has completed |
| `BioChain.CountStaysPositive` | block/bio.c:1392-1410 | the remaining count never underflows, so the BUG_ON cannot fire |
| `BioChain.RunKeepsInv` | block/bio.c:1392-1459 | in every run the count of a live bio is exactly its owner, its calls under way and its children outstanding |
| `BioChain.ChainKeeps` | block/bio.c:338-345 | bio_chain keeps the counts |
| `BioChain.HopKeeps` | block/bio.c:1392-1410 | dropping a reference keeps the counts |
| `BioChain.LeaveKeeps` | block/bio.c:312-321 | carrying status and completion to the parent keeps the counts |
| `BioChain.Bios.ChainTo` | block/bio.c:338-345 | in place: equal to the model's step |
| `BioChain.Bios.Drop` | block/bio.c:1392-1410 | in place: equal to the model's step |
| `BioChain.Bios.Up` | block/bio.c:312-321 | in place: equal to the model's step |
| `BioChain.Bios.Endio` | block/bio.c:1425-1459 | the `again` loop ends, its rounds are steps of the model, its call is used up and nothing is left half done |
| `SubmitLoop.SubmitBioNoacct` | block/blk-core.c:952-999 | for every finite tree of submissions the loop handles the bios in exactly the order of a recursive depth-first submission, lower queues first |
| `SubmitLoop.Round` | block/blk-core.c:962-995 | one round does one bio and replaces it by what it submitted, and there is less left to do |
| `SubmitLoop.SortBios` | block/blk-core.c:977-987 | the sort is stable and loses nothing |
| `SubmitLoop.DeepHandlesEach` | block/blk-core.c:1036-1055 | the order handles every reachable bio exactly once |
| `QueueUsage.DeadExactlyWhileFrozen` | block/blk-mq.c:134-201 | in every interleaving a reference can be had if and only if no freeze is held, and the depth counts the freezes |
| `QueueUsage.NobodyEntersWhileFrozen` | block/blk-mq.c:167-200 | from the return of a freeze, as long as some freeze is held, nobody is inside and nobody gets a reference, whatever other freezes come, return and are undone |
| `QueueUsage.FewerUndone` | block/blk-mq.c:185-201 | a freeze is still held as long as fewer are undone than had returned |
| `QueueUsage.SuspendKeepsOthersOut` | block/blk-pm.c:61-139 | from the moment blk_pre_runtime_suspend returns 0 until runtime PM drops its count, no non-PM caller is inside, whatever else happens |
| `QueueUsage.PowerStates` | block/blk-pm.c:152-215 | between calls runtime PM holds no count, and PM callers are refused exactly while suspended |
| `QueueUsage.NoLostWakeup` | block/blk-core.c:427-472 | a sleeper whose queue is dying, or thawed with pm_only at zero, and a freezer whose queue is unused, have a wake-up coming |
| `QueueUsage.PmSleeperMissesResume` | block/blk-pm.c:152-215 | from any idle state there is a run that leaves a PM caller asleep although it may enter |
| `QueueUsage.ResumeWakesPmSleepers` | block/blk-pm.c:152-215 | in every run, the last step of a resume wakes the sleeping PM callers if and only if nobody else holds a pm_only count then, though they may enter either way |
| `QueueUsage.ResumeSendsNothing` | block/blk-pm.c:152-215 | the steps of a resume before that send no wake-up |
| `QueueUsage.RunKeepsInv` | block/blk-core.c:427-472 | every run keeps the whole invariant |
| `RequestQueue.RequestQueue.FreezeStartFor` | block/blk-mq.c:134-146 | in place: a step of the model |
| `RequestQueue.RequestQueue.UnfreezeFor` | block/blk-mq.c:190-200 | in place: a step of the model |
| `RequestQueue.RequestQueue.TryEnter` | block/blk-core.c:432-449 | in place: entered if and only if the queue is live and admits the caller; otherwise the reference is given back |
| `RequestQueue.RequestQueue.Leave` | block/blk-core.c:491-494 | in place: a step of the model |
| `RequestQueue.RequestQueue.PreRuntimeSuspend` | block/blk-pm.c:61-105 | run alone: refused if and only if the queue is in use, and then as it was before; else one pm_only count held |
| `RequestQueue.RequestQueue.PostRuntimeSuspend` | block/blk-pm.c:122-138 | in place: steps of the model, the count dropped only on error |
| `RequestQueue.RequestQueue.PreRuntimeResume` | block/blk-pm.c:152-160 | in place: a step of the model |
| `RequestQueue.RequestQueue.SetRuntimeActive` | block/blk-pm.c:199-215 | in place: the count is dropped only if the queue was not active |
| `KyberModel.BoundedWaiting` | block/kyber-iosched.c:800-844 | after every run, a domain with a request and a token is passed over at most as often as the other domains' batch sizes add up to |
| `KyberModel.DispatchLowersRank` | block/kyber-iosched.c:800-844 | a dispatch that passes over a ready domain brings its turn nearer |
| `KyberModel.DispatchIsWorkConserving` | block/kyber-iosched.c:800-844 | a dispatch finds nothing if and only if no domain has both a request and a token |
| `KyberModel.FlushYields` | block/kyber-iosched.c:780-787 | any set bit means that a flush yields a request |
| `KyberModel.FlushMovesAll` | block/kyber-iosched.c:664-690 | a flush moves every waiting request in context order and clears the bits |
| `KyberModel.FlushIsAtomic` | block/kyber-iosched.c:664-690 | however inserts fall between the contexts of a flush, the outcome is that of the flush in one go with each insert before or after it |
| `KyberModel.StepKeepsInv` | block/kyber-iosched.c:588-609 | every step keeps a bit set exactly for a non-empty list |
| `KyberModel.NothingIsLost` | block/kyber-iosched.c:588-609 | in every run each inserted request is dispatched once or still held, and tokens are conserved |
| `Kyber.KyberHctxData.Insert` | block/kyber-iosched.c:588-609 | in place: equal to the model's step |
| `Kyber.KyberHctxData.FlushBusyKcqs` | block/kyber-iosched.c:664-690 | the loop over the bitmap computes the model's flush |
| `Kyber.KyberHctxData.DispatchCurDomain` | block/kyber-iosched.c:750-797 | in place: a request if and only if the domain is ready |
| `Kyber.KyberHctxData.DispatchRequest` | block/kyber-iosched.c:800-844 | in place: equal to the model's dispatch |
| `CgroupStats.StatisticsAreConserved` | block/blk-cgroup.c:764-803 | for any order and number of per-cpu flushes mixed with new I/O, a blkg's counter is what its cpus and its children have carried to it |
| `CgroupStats.FlushedShowsAllIo` | block/blk-cgroup.c:764-803 | from zero, through any run, a blkg of a flushed tree shows exactly the I/O started in its subtree |
| `CgroupStats.FlushedShowsTotal` | block/blk-cgroup.c:764-803 | in a flushed tree every blkg shows the total of its subtree |
| `CgroupStats.RunCounts` | block/blk-cgroup.c:1913-1936 | per-cpu counters add up to the I/O started, the bytes of a bio that is split and comes back counted once |
| `CgroupStats.FlagTellsResubmitted` | block/blk-cgroup.c:1922-1929 | in every run BIO_CGROUP_ACCT is set exactly on the bios submitted before and not initialised since |
| `CgroupStats.FlushKeeps` | block/blk-cgroup.c:764-803 | a flush of one blkg on one cpu keeps every sum |
| `CgroupStats.BlkgTree.BioStart` | block/blk-cgroup.c:1913-1936 | in place: the flag and the two counters are updated as the model's step says and every sum is kept |
| `CgroupStats.BlkgTree.FlushBlkg` | block/blk-cgroup.c:771-798 | in place: equal to the model's step |
| `CgroupStats.BlkgTree.FlushAll` | block/blk-cgroup.c:764-803 | flushing every cpu from the leaves up leaves every blkg showing its subtree's total |

## Left out

- Weak memory: the source places its barriers explicitly; steps are sequentially consistent.
- RestartHandshake: a state machine on values, not objects, because its subject is interleaving; taking a tag along for the next request, queue_rq and giving back the tag of a refused one are a single step; shared tags, stopped or quiesced queues and driver requeues are not modelled.
- NoLostRestart: with an I/O scheduler only, so the dispatch wait queue used without one is not modelled.
- Flush timing: jiffies are unbounded numbers; flush request tags and the queuelist BUG_ON are not modelled.
- Deadline: zoned devices, discard merging, priorities and the failfast flags of mixed merges.
- Red-black trees and hash chains are a sorted sequence and a sequence per bucket; removal by an embedded node is removal at the request's place.
- MapBios: no virtual boundary, as the mapping code has none; the Xen test and the padding and drain entries of `__blk_rq_map_sg` are not modelled.
- RecalcRqSegments: no virtual boundary; discard, write-same and write-zeroes counts are constants or bio counts.
- BioSegmentSplit: vectors and segment limits are multiples of 512 bytes, as file system I/O is; sums of sector counts do not wrap at 32 bits.
- SplitAll: vectors and segment limits are multiples of 512 bytes and the pieces' resubmissions are a loop; the shortcut of `__blk_queue_split` for a single page-sized vector is not modelled.
- SetIsUnion: only requests that touch at most two ranges and fit in one; SetIsExact covers all others.
- EntryRoundTrip: on bit vectors; the table of `Badblocks` holds unpacked ranges, whose lengths are proved to be 1 to 512 but whose offsets are unbounded.
- Badblocks: the seqlock retry, 64-bit sector overflow, `ack_all_badblocks` and the sysfs text form.
- BioChain: integrity, quality-of-service and tracing hooks inside `bio_endio`; an owner that overwrites a status with success.
- SubmitLoop: rescuer punting and the blk-mq variant of the loop, which has one list and no sorting.
- PreRuntimeSuspend: the class method is one uninterrupted call; interleavings are covered by the state machine.
- QueueUsage: the percpu mode of the reference and the waiting side of `blk_queue_enter` beyond its wake-up condition.
- Kyber: a dispatch is one step, as it holds the hardware queue's lock; inserts, which do not take it, may fall inside the flush (FlushIsAtomic) but not between its look at the bitmap and the flush; latency histograms, depth adjustment, merging, the token wait queue, and requeues that bypass the scheduler.
- CgroupStats: 64-bit wrap-around (all sums also hold modulo 2^64), creation and removal of blkgs; the sums are proved for the root as the flush leaves it, before `blkcg_fill_root_iostats` overwrites it for display.
- Sysfs, ioctls, mapping of user memory, integrity, encryption, throttling and other controllers.
