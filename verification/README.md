# Verified model of the KV-cache plugin's ownership, ordering and data-movement core

A Dafny project that models the parts of the plugin in which a mistake corrupts or leaks KV data,
and proves what those parts promise. `dafny verify dfyconfig.toml` checks all of it.

**Checkpoint retention and write-back.** `RetentionModel` is the protocol of the write-back store: one
event per lock region, a retire job as two events, and a ledger that says of every lease where it is
between taking references and giving everything back. `Writeback` is the same protocol as a class
whose methods change the store's fields; the method of each lock region is proved equal to one event of the protocol and to
keep its invariant, and shutdown is proved with every other thread running in between.
`RetentionSafety`, `RetentionRuns` and `RetentionTheorems` carry the invariant over all runs and draw the
conclusions: exact byte budget, each reference given back once, quarantine for good, a shutdown that always can finish and
leaves nothing. `RestoreJoin` characterises the restore join without its table.
`LocalCheckpoint`, `MixedRestore` and `CanonicalPages` follow every exit of acquisition, page building,
spilling and normalization for references and coverage; `Assembly`, `MixedPlans`, `MixedAssembly` and `MixedManifest` show
when history can be re-cut into canonical pages at all, `PlaneCopy` what that writes, and `Capture` that captured offers
always can be. The cache, the allocator and the remote store are nondeterministic: they may miss, refuse, fail or lose track at every call.

**Device ordering.** `Device` and `Streams` are the scheduler with its heap, counters, streams and events.
`Schedule` says which orders are legal. `BankRuns` proves that every legal order of the bank hand-off is free of
hazards; `BankHandoff` submits that schedule and drains it. `WriterTable` is the tile-indexed table of
pending writers, proved equal to a linear scan, and the readiness check on top of it.

**Bounded put queue.** `PutQueue` is the queue over futures that finish in any order with any outcome, and
`FillLease` the page lease next to it.

**Native copies and checksums.** `IndexerC8`, `IndexerC8Kernel` and `IndexerC8Memory` take the coalesced,
grid-strided copy down to bytes in memory; `HostChunks` and `HostChunksMemory` do the same for the
dense and sparse host copies; `Dmas` holds what both need about block copies. `SparseGraph`, `RotaryTiling`,
`Checksums`, `TokenSegments`, `PagedTrace`, `PacketPlanes` and `FeatureFile` cover the rest.

Things the code does that its documentation or its comments do not say, each stated as a lemma:

- Resumed dispatch and acknowledgement retire waiting ownership in two lock regions. Between them the identity can be
  forgotten and published again, and the late forget then retires the newer record
  (`RetentionTheorems.LateForgetRetiresANewRecord`; `RetentionTheorems.LateForget` says exactly when, over every run in between).
- A mixed acquisition takes a local source once per canonical window it serves. A source that straddles a window
  boundary is therefore listed twice and the assembly rejects it (`MixedManifest.StraddlingOffer`;
  `MixedManifest.AlwaysRecutsIff` and `MixedRestore.HitsOnlyRecutIff` are the exact condition on the offer). Capture cuts its
  fragments at chunk ends, so its offers meet it (`Capture.CapturedIsRegular`), and as long as the first proposed window
  reaches past the resident prefix their restores are never refused for a hole or an overlap (`CanonicalPages.Normalize`).
- The C8 copy checks the end of the plane for a whole run at once (`IndexerC8.ExactIffNoStraddle`); the launch code's
  sizes make this exact (`IndexerC8.HostNeverStraddles`).
- The sparse host copy does not look at the selection when it takes the bulk shortcut, so an index outside every chunk
  goes unnoticed there (`HostChunks.ExecuteBatchedSparseMemcpy`).
- The rotary tiling of zero tokens has a last loop of a full loop size (`RotaryTiling.TilingParams.Compute`).

## Model

| member | source | states |
|---|---|---|
| `RetentionTheorems.RunKeepsValid` | lmcache_ascend/v1/checkpoint_writeback.py:63-313 | every interleaving of publish, forget, restore notifications, spill steps, both halves of retirement and close keeps the whole invariant: exact accounting, exact reference ledger, and the links between offers, records, leases and the monitor |
| `RetentionTheorems.BudgetIsExact` | lmcache_ascend/v1/checkpoint_writeback.py:202-226 | in every reachable state `used` is the sum of the sizes of the charged pages and within the limit; a page is charged exactly while some charging lease holds it, and its count is the number of those leases |
| `RetentionTheorems.ReleasedExactlyOnce` | lmcache_ascend/v1/checkpoint_writeback.py:94-135 | on every run a lease gives its references back at most once, a lease that is gone gave them back exactly once, and a lease that still holds them is covered by references the store owns |
| `RetentionTheorems.QuarantineIsForever` | lmcache_ascend/v1/checkpoint_writeback.py:294-310 | the owners of a spill with unknown completion keep their references and their charge through every continuation of the run |
| `RetentionTheorems.RetainedPageIsLeased` | lmcache_ascend/v1/checkpoint_writeback.py:158-171 | a retained lookup only takes another reference to a page that the asking generation's own lease still protects, that is charged, and that the store owns |
| `RetentionTheorems.ClosedOnlyShrinks` | lmcache_ascend/v1/checkpoint_writeback.py:78-83 | once closed the store never lists another offer |
| `RetentionTheorems.ForgottenStaysForgotten` | lmcache_ascend/v1/checkpoint_writeback.py:187-193 | an identity forgotten after the close is gone for the rest of the run |
| `RetentionTheorems.ShutdownLeavesNothing` | lmcache_ascend/v1/checkpoint_writeback.py:187-200 | after close, with every listed identity forgotten, all publications, spills and retire jobs finished and no quarantine: no record, no lease, no charge, `used` is 0, no reference is left, and each lease was dropped exactly once, whatever interleaved |
| `RetentionTheorems.TakenUntilCommit` | lmcache_ascend/v1/checkpoint_writeback.py:63-118 | the references a publication took stay owned, and not given back, through every run of other threads, until its own commit |
| `RetentionTheorems.FinishingIsBounded` | lmcache_ascend/v1/checkpoint_writeback.py:94-118 | in a closed store without quarantine the steps that finish publications, spills and retirements start nothing new: no run of them is longer than the work owed at its start |
| `RetentionTheorems.SettlesFrom` | lmcache_ascend/v1/checkpoint_writeback.py:187-200 | and they never get stuck: from every such state, taking finishing steps until none is left ends with every lease settled |
| `RetentionTheorems.ShutdownCanFinish` | lmcache_ascend/v1/checkpoint_writeback.py:187-200 | so a closed store that forgot its offers can always be brought to the state with no lease, no charge and no reference, each lease dropped exactly once |
| `RetentionTheorems.LateForget` | lmcache_ascend/v1/checkpoint_writeback.py:137-156 | whatever runs between the join of a record and the forget it calls for: that forget cancels the joined record if and only if its identity was not forgotten in between, and cancels another record if and only if the identity was accepted again in between and not forgotten after that |
| `RetentionTheorems.CancelsTheNamed` | lmcache_ascend/v1/checkpoint_writeback.py:120-131 | a forget of one identity and generation cancels the record it names at that moment, and no other |
| `RetentionTheorems.LateForgetRetiresANewRecord` | lmcache_ascend/v1/checkpoint_writeback.py:140-155 | finding: with a budget of eight bytes and a paired offer of two pages of four, a run leads from a completed join through a forget and a second publication of the same pages to a late forget that cancels the newer record, which saw no notification |
| `RetentionTheorems.JoinIsReachable` | lmcache_ascend/v1/checkpoint_writeback.py:54-156 | the joined state in which that finding starts is reached from the empty store with that budget by one publication and one complete attempt |
| `RestoreJoin.RetiresExactlyWhenJoined` | lmcache_ascend/v1/checkpoint_writeback.py:140-155 | for notifications in any order and with duplicates, told by the notifications alone: one retires the record exactly when its own attempt was opened by a begin (each earlier opening of it being over, failed and acknowledged) and has since reported admission and acknowledgement and no failure |
| `RestoreJoin.RetiresExactlyWhenDelivered` | lmcache_ascend/v1/checkpoint_writeback.py:140-155 | the same in every run of the protocol, over the notifications delivered to the record |
| `RestoreJoin.EntryIffOpen` | lmcache_ascend/v1/checkpoint_writeback.py:144-153 | the attempt table has an entry exactly for the attempts that are open by the notifications alone, and the entry is what the attempt reported since it was opened |
| `RestoreJoin.TableIsDelivered` | lmcache_ascend/v1/checkpoint_writeback.py:140-153 | in every run, from any valid state, the attempt table of a record is the result of exactly the notifications delivered to it while its identity named it |
| `RestoreJoin.SpillsOnlyBetweenAttempts` | lmcache_ascend/v1/checkpoint_writeback.py:267-276 | in every reachable state the idle monitor may select a live, unspilled record if and only if every attempt ever opened for it has failed and been acknowledged since |
| `Writeback.CheckpointWritebackStore.ChargeLocked` | lmcache_ascend/v1/checkpoint_writeback.py:202-207 | one more lease on every owner; bytes are added only for owners that were not charged |
| `Writeback.CheckpointWritebackStore.UnchargeLocked` | lmcache_ascend/v1/checkpoint_writeback.py:215-226 | one lease less on every owner; an owner's bytes leave the budget, and are reported, with its last lease |
| `Writeback.CheckpointWritebackStore.TakeReferences` | lmcache_ascend/v1/checkpoint_writeback.py:75 | a publication takes its references under a lease nobody used before, as one step that keeps the invariant; whatever other threads do until it commits, they stay owned and are not given back |
| `Writeback.CheckpointWritebackStore.AddedBytes` | lmcache_ascend/v1/checkpoint_writeback.py:85-89 | the bytes a publication would add are those of its owners that are not charged yet |
| `Writeback.CheckpointWritebackStore.Protect` | lmcache_ascend/v1/checkpoint_writeback.py:91-107 | the record is listed and charged, or, when the spill thread cannot start, records, charges and `used` are as before |
| `Writeback.CheckpointWritebackStore.PublishRegion` | lmcache_ascend/v1/checkpoint_writeback.py:78-107 | the lock region of a publication as one step that keeps the invariant: refused, listed without protection, or protected, according to shutdown, duplicates, completeness, budget and thread start |
| `Writeback.CheckpointWritebackStore.ReleaseRefusedLease` | lmcache_ascend/v1/checkpoint_writeback.py:115-118 | a refused publication gives back exactly the references it took |
| `Writeback.CheckpointWritebackStore.ForgetRegion` | lmcache_ascend/v1/checkpoint_writeback.py:120-133 | one step that keeps the invariant: every matching offer disappears, its record is tombstoned, and exactly the leases of its live records go to retirement |
| `Writeback.CheckpointWritebackStore.RestoreRegion` | lmcache_ascend/v1/checkpoint_writeback.py:137-154 | the first lock region of a notification as one step that keeps the invariant: the new attempt table, and whether the join is complete |
| `Writeback.CheckpointWritebackStore.RetainedLookup` | lmcache_ascend/v1/checkpoint_writeback.py:162-171 | the lookup under the lock answers the page of the asking generation only, and then the page is owned and charged |
| `Writeback.CheckpointWritebackStore.RetireReferences` | lmcache_ascend/v1/checkpoint_writeback.py:209-211 | first half of retirement: references only, charges untouched |
| `Writeback.CheckpointWritebackStore.RetireCharge` | lmcache_ascend/v1/checkpoint_writeback.py:212-213 | second half of retirement: the charge, with the bytes it freed |
| `Writeback.CheckpointWritebackStore.PickRecord` | lmcache_ascend/v1/checkpoint_writeback.py:267-279 | the monitor picks a record that is not remote, not cancelled and has no open attempt, and none only if there is none |
| `Writeback.CheckpointWritebackStore.SelectRegion` | lmcache_ascend/v1/checkpoint_writeback.py:280-284 | the monitor takes its own references and charge on the pages of the record it picked |
| `Writeback.CheckpointWritebackStore.SpillReturned` | lmcache_ascend/v1/checkpoint_writeback.py:286-309 | after a known outcome the snapshot goes to retirement, and a confirmed spill publishes the remote copy and lets the record's own lease go, unless the record was cancelled meanwhile |
| `Writeback.CheckpointWritebackStore.SpillLost` | lmcache_ascend/v1/checkpoint_writeback.py:294-302 | unknown completion is one step that keeps the invariant, and after it no continuation of the run ever gives the snapshot's references back or takes its owners off the budget |
| `Writeback.CheckpointWritebackStore.Close` | lmcache_ascend/v1/checkpoint_writeback.py:187-200 | with any other threads running between any two of its steps, shutdown ends with no offer and no record listed and the monitor stopped, in a state the protocol can reach; what only closing and forgetting did gave back no reference and no charge; it reports a fatal monitor |
| `LocalCheckpoint.LocalCheckpointStore.Acquire` | lmcache_ascend/v1/local_checkpoint.py:68-99 | a normal exit hands over exactly one reference per returned entry and a frontier up to which the chains of both groups cover the range without a gap; the frontier only stops early at a hole or a missed page; an error leaves every count as it was |
| `LocalCheckpoint.LocalCheckpointStore.GetPage` | lmcache_ascend/v1/local_checkpoint.py:101-118 | a page is handed over with one reference, or nothing is; an invalid page is given back before the error |
| `LocalCheckpoint.LocalCheckpointStore.Settle` | lmcache_ascend/v1/local_checkpoint.py:92-96 | cutting both groups back to the common frontier releases exactly the entries that start at or after it and keeps coverage below it |
| `MixedRestore.HoldWindow` | lmcache_ascend/v1/checkpoint_writeback.py:428-441 | local sources are held for one canonical window as a greedy chain, one reference each; the source index only moves past sources that ended; the chain stops before the window's end only where local sources end or one was looked up in vain |
| `MixedRestore.PlanGroup` | lmcache_ascend/v1/checkpoint_writeback.py:417-444 | every canonical window, cut to the asked range, is held as a whole chain of whole local sources or left to the remote store, the latter only where a local source was missing; the windows follow each other from the prefix to the end |
| `MixedRestore.MixedAcquire` | lmcache_ascend/v1/checkpoint_writeback.py:415-493 | mixed acquisition: one reference per returned entry; outside probe mode the entries of a group are exactly what its planned windows list, window by window, cut back to the common frontier, and both groups cover that frontier without a gap; it stops short only at a window the remote store could not provide; every error leaves all counts as they were |
| `MixedRestore.AcquiredReassembles` | lmcache_ascend/v1/checkpoint_writeback.py:415-484 | what a mixed acquisition up to the asked end returns is the list of its windows; if no source overlaps another or straddles a canonical boundary, it can be re-cut |
| `MixedRestore.HitsOnlyRecutIff` | lmcache_ascend/v1/checkpoint_writeback.py:415-484 | if no local lookup missed, the entries a mixed acquisition returned can be re-cut at all canonical windows if and only if no source of the offer straddles a boundary between two of them |
| `MixedRestore.AcquireCheckpoint` | lmcache_ascend/v1/checkpoint_writeback.py:382-414 | the same guarantee over all routes (frozen, local only, remote from the start, and the recheck after a spill was confirmed between snapshot and acquisition): one reference per entry, each for a local source or a remote window of its own group; a reason for every early stop; entries that can be re-cut; errors that are only invalid pages or transport errors and leave no trace |
| `MixedRestore.Available` | lmcache_ascend/v1/checkpoint_writeback.py:174-182 | a coverage probe leaves no reference behind |
| `CanonicalPages.AllocationRetry.Reserve` | lmcache_ascend/v1/local_checkpoint.py:316-332 | one operation reclaims cache capacity at most once over all its allocations |
| `CanonicalPages.BuildPage` | lmcache_ascend/v1/local_checkpoint.py:120-184 | exactly one owned page on success and unchanged counts on every failure, including the boundary prefix; an exact single source is shared by reference; an assembled page has sources that cover its window once, and a hole is only reported where there is one |
| `CanonicalPages.Spill` | lmcache_ascend/v1/checkpoint_writeback.py:315-380 | a successful spill returns descriptors that tile the canonical range to the end of the accepted history in both groups; every page it built was given back, except at most one whose completion is unknown; groups that can be re-cut never show a hole, unless a proposed first window ends before the first source |
| `CanonicalPages.NormalizeGroup` | lmcache_ascend/v1/local_checkpoint.py:228-284 | one group of a normalization owns exactly its built and installed pages, and its windows tile the canonical range; what is held and can be re-cut is never refused for a hole or an overlap, unless the first proposed window ends before it starts |
| `CanonicalPages.Normalize` | lmcache_ascend/v1/local_checkpoint.py:202-298 | on success exactly one owned reference per returned owner and windows that tile the range in both groups; on failure nothing is kept, and an allocation refused while pages are built is reported as a miss; for sources that neither overlap nor straddle a boundary, and proposed windows that start with one past the resident prefix, it never fails for a hole or an overlap |
| `Assembly.AcceptedIffExactlyOnce` | lmcache_ascend/v1/local_checkpoint.py:339-348 | ordered sources that meet the window pass the coverage loop exactly when every position of the window lies in exactly one of them |
| `Assembly.SourceSelector.Select` | lmcache_ascend/v1/local_checkpoint.py:300-314 | for any sources and any increasing series of windows the two-index selector serves the stretch from the first source that ends after the window's start to the first one behind it that starts at or after its end |
| `Assembly.ServedIsOverlapping` | lmcache_ascend/v1/local_checkpoint.py:300-314 | on sources that only move forward this stretch is exactly the sources that overlap the window |
| `Assembly.RecutIff` | lmcache_ascend/v1/local_checkpoint.py:120-184 | however a gapless history was cut into pages, and for whatever windows tile the range from the canonical base to the frontier: all of them can be cut out, the one over the resident prefix with the loaded prefix page in front, if and only if the first window reaches the first source |
| `LocalCheckpoint.LocalRestoreReassembles` | lmcache_ascend/v1/local_checkpoint.py:68-184 | what a local acquisition of sources that do not overlap returns can be re-cut along every tiling of the canonical range up to its frontier whose first window reaches past the resident prefix |
| `MixedAssembly.RecutIffNoneStraddles` | lmcache_ascend/v1/checkpoint_writeback.py:415-480 | what was acquired can be re-cut at all canonical windows if and only if no acquired entry straddles a boundary between two of them (such a source is taken once per window and then rejected as an overlap) |
| `MixedAssembly.ContiguousIffClean` | lmcache_ascend/v1/checkpoint_writeback.py:417-480 | the entry list of a mixed acquisition is gapless and without overlap exactly when every boundary is clean |
| `MixedManifest.AlwaysRecutsIff` | lmcache_ascend/v1/checkpoint_writeback.py:415-480 | before anything is acquired: for an offer whose sources cover the asked range, every way to serve it gives entries that can be re-cut, if and only if no source straddles a canonical boundary inside the range |
| `MixedManifest.StraddlingOffer` | lmcache_ascend/v1/checkpoint_writeback.py:428-480 | finding: three sources over two windows of four tokens, the middle one across their boundary; it is acquired twice and neither window can be cut out |
| `MixedManifest.ChunkCutNeverStraddles` | lmcache_ascend/v1/preemption_checkpoint.py:197-201 | sources that each lie inside one chunk never straddle windows that end at chunk ends |
| `Capture.CutFragments` | lmcache_ascend/v1/preemption_checkpoint.py:195-249 | whatever allocations are refused, the captured fragments of each group follow each other without gap from its start to the captured end, and each lies inside one chunk |
| `Capture.Publish` | lmcache_ascend/v1/preemption_checkpoint.py:333-363 | the sources a sealed offer lists are in token order without overlap and each inside one chunk |
| `Capture.CapturedIsRegular` | lmcache_ascend/v1/preemption_checkpoint.py:333-363 | so a captured offer meets the condition for whatever chunk windows a spill confirmed |
| `PlaneCopy.PlanSpans` | lmcache_ascend/v1/local_checkpoint.py:339-348 | the coverage loop accepts exactly the gapless, non-overlapping, complete selections and plans one span per source |
| `PlaneCopy.AssembleLayer` | lmcache_ascend/v1/local_checkpoint.py:349-361 | every plane of every source span arrives at its offset in the target plane and later copies do not disturb it |
| `PlaneCopy.Assemble` | lmcache_ascend/v1/local_checkpoint.py:334-361 | a rejected page is not written at all; an accepted one holds, for every layer, plane and token, the element of the source that covers that token |
| `PlaneCopy.AssembledAgrees` | lmcache_ascend/v1/local_checkpoint.py:334-361 | if every piece agrees with one history, the assembled page agrees with it over the whole window: the result does not depend on how the history was cut |
| `Schedule.WaitsRunsLater` | tools/prefill_cpu_sim.py:98-143 | a command that waits for another, directly or through any chain, runs after it in every legal order |
| `Schedule.AlwaysBeforeIffWaits` | tools/prefill_cpu_sim.py:98-143 | a command runs before another in every complete legal order if and only if the other waits for it through some chain of stream and event edges; without one a legal schedule overtakes |
| `Schedule.LegalIsShort` | tools/prefill_cpu_sim.py:122-153 | a legal order runs each command at most once, so it is never longer than the list of commands, and complete when as long |
| `Device.SomeReady` | tools/prefill_cpu_sim.py:122-125 | some command is runnable whenever one is unfinished: the deadlock error is unreachable |
| `Device.RunnableIsFree` | tools/prefill_cpu_sim.py:98-107 | the earliest entry of the ready heap is unfinished and all its predecessors have run |
| `Device.Device.Enqueue` | tools/prefill_cpu_sim.py:98-107 | a submitted command waits for exactly the given commands; the counters, successor lists and heap stay exact |
| `Device.Device.MakeReady` | tools/prefill_cpu_sim.py:109-120 | a runnable command enters the heap once, stamped after the current clock |
| `Device.Device.Step` | tools/prefill_cpu_sim.py:122-143 | the earliest runnable command runs, once and after all its dependencies; the clock does not go back; only an empty heap is a deadlock, and then everything has run |
| `Device.Device.Until` | tools/prefill_cpu_sim.py:145-147 | running until a command is done terminates, with that command run, or stops at an action that raised |
| `Device.Device.Drain` | tools/prefill_cpu_sim.py:149-153 | draining terminates having run every command in a legal order; the check for unfinished commands never fires |
| `Streams.Streams.Submit` | tools/prefill_cpu_sim.py:179-183 | a command waits for everything submitted earlier to its stream, directly or through the tail |
| `Streams.Streams.WaitEvent` | tools/prefill_cpu_sim.py:185-194 | a wait puts the stream behind the command the event recorded |
| `Streams.Streams.Synchronize` | tools/prefill_cpu_sim.py:199-200 | after a synchronize everything submitted to the stream has run |
| `BankRuns.SaveBeforeReload` | tools/prefill_bank_handoff_check.py:104-131 | however many layers later a bank is reused, its reload waits for the save before it |
| `BankRuns.LoadStep` | tools/prefill_bank_handoff_check.py:77-92 | a load, whenever it runs, leaves each bank with the data of the layer that owns it |
| `BankRuns.AddStep` | tools/prefill_bank_handoff_check.py:112 | an in-place update only ever touches the bank of its own layer |
| `BankRuns.EveryOrderPasses` | tools/prefill_bank_handoff_check.py:100-137 | every complete order allowed by the hand-off's waits makes each layer read exactly its own loaded data and each save store exactly that layer's updated data |
| `BankHandoff.RunCase` | tools/prefill_bank_handoff_check.py:77-137 | the schedule the host submits, for any number of layers, banks and requests and with separate or shared streams, has those waits; so every complete execution order passes both comparisons, and the drained device ran such an order |
| `MemoryRanges.MergeRanges` | tools/cpu_vllm_runtime.py:171-183 | coalescing keeps the exact byte set, in ascending ranges that never touch |
| `MemoryRanges.MergedIsUnique` | tools/cpu_vllm_runtime.py:171-183 | two coalesced lists naming the same bytes are the same list |
| `MemoryRanges.SharedTile` | tools/cpu_vllm_runtime.py:187-198 | two overlapping ranges have a 64 KiB tile in common |
| `WriterTable.Hardware.Purge` | tools/cpu_vllm_runtime.py:189-195 | purging a tile lazily loses no unfinished writer |
| `WriterTable.Hardware.Writers` | tools/cpu_vllm_runtime.py:185-199 | the tile table answers exactly like a linear scan of all writers ever submitted for unfinished overlapping ones |
| `WriterTable.Hardware.SubmitAccess` | tools/cpu_vllm_runtime.py:201-241 | an access captures exactly the unfinished writers of the bytes it reads, and its own writes become visible to later accesses |
| `WriterTable.Hardware.Execute` | tools/cpu_vllm_runtime.py:220-230 | a reader that its streams order behind all its captured writers never trips the readiness check |
| `WriterTable.Hardware.RunAll` | tools/cpu_vllm_runtime.py:201-241 | a run that drains without an error committed every access after all earlier submitted writers of the bytes it reads |
| `TensorRanges.TensorRangesOf` | tools/cpu_vllm_runtime.py:243-256 | the row runs of a tensor name exactly the bytes of the selected rows |
| `PutQueue.LayerwisePutQueue.Fail` | lmcache_ascend/v1/layerwise_cpu_fill.py:67-70 | only the first failure is kept |
| `PutQueue.LayerwisePutQueue.Poll` | lmcache_ascend/v1/layerwise_cpu_fill.py:72-106 | completed batches are reaped in any order, what stays is a subsequence of what was pending and still has an unfinished put, dropped batches succeeded completely, and a latched failure is raised again |
| `PutQueue.LayerwisePutQueue.Reserve` | lmcache_ascend/v1/layerwise_cpu_fill.py:108-116 | waiting for room terminates with room for the batch, having dropped only batches that succeeded completely and kept the order of the rest, or raises the error it latches |
| `PutQueue.LayerwisePutQueue.Add` | lmcache_ascend/v1/layerwise_cpu_fill.py:118-133 | a batch is appended and recorded under its request and keys; after a reserve the queue stays within both limits, except a single oversized batch alone |
| `PutQueue.LayerwisePutQueue.TrackKeys` | lmcache_ascend/v1/layerwise_cpu_fill.py:135-146 | a request inherits every put ever recorded for the keys, including those already finished |
| `PutQueue.LayerwisePutQueue.DrainRequests` | lmcache_ascend/v1/layerwise_cpu_fill.py:148-159 | a normal return means that every put ever recorded for those requests, directly or inherited, completed without error |
| `PutQueue.LayerwisePutQueue.Drain` | lmcache_ascend/v1/layerwise_cpu_fill.py:161-167 | draining terminates with nothing pending and every put ever recorded completed without error, or raises |
| `PutQueue.LayerwisePutQueue.WaitFirst` | lmcache_ascend/v1/layerwise_cpu_fill.py:169-174 | each wait shortens the queue or raises |
| `FillLease.LayerwiseCPUFillLease.Retain` | lmcache_ascend/v1/layerwise_cpu_fill.py:23-34 | one reference per distinct page, however often it was passed; an unusable page undoes everything |
| `FillLease.LayerwiseCPUFillLease.Release` | lmcache_ascend/v1/layerwise_cpu_fill.py:36-41 | everything is given back once, and a second release does nothing |
| `IndexerC8.TileIsTokens` | csrc/indexer_c8/kernel.cpp:69-97 | what a tile's coalesced runs move is exactly what its tokens ask for one by one, byte for byte, for every slot factor, block map and skipped slot |
| `IndexerC8.ExactIffNoStraddle` | csrc/indexer_c8/kernel.cpp:83-89 | the coalesced copy equals the per-token copy on all mappings if and only if no mapped block straddles the end of the plane; otherwise the check of the whole run drops rows that belong to the plane |
| `IndexerC8.HostNeverStraddles` | csrc/indexer_c8.cpp:29-40 | the launch code sizes planes in whole blocks, so the condition always holds there |
| `IndexerC8.UnmappedFits` | csrc/indexer_c8/kernel.cpp:83-87 | without a block map a slot inside the cache is inside the plane, for every slot factor |
| `IndexerC8Kernel.GridRoundTrip` | csrc/indexer_c8/kernel.cpp:46-50 | numbering the (layer, chunk, tile) grid and taking a work number apart are inverse |
| `IndexerC8Kernel.CopyTile` | csrc/indexer_c8/kernel.cpp:69-97 | the run loop issues exactly the coalesced runs |
| `IndexerC8Kernel.RunCore` | csrc/indexer_c8/kernel.cpp:46-98 | one core issues exactly the work items of its stride |
| `IndexerC8Kernel.GridCovers` | csrc/indexer_c8/kernel.cpp:46-68 | the work items together are exactly the tokens of all admitted chunks of all layers |
| `IndexerC8Memory.RunCores` | csrc/indexer_c8/kernel.cpp:29-98 | all cores together, for any number of them, move exactly what the per-token specification asks for |
| `IndexerC8Memory.SaveIsExact` | csrc/indexer_c8/kernel.cpp:101-115 | whatever the interleaving, a save leaves each asked packet byte equal to its cache byte and touches nothing else |
| `IndexerC8Memory.LoadIsExact` | csrc/indexer_c8/kernel.cpp:101-115 | the same for a load into distinct slots |
| `IndexerC8Memory.SaveThenLoad` | csrc/indexer_c8/kernel.cpp:29-115 | save, then load through any other injective mapping: every byte of every key and scale row arrives unchanged where the second mapping puts it |
| `Dmas.SaveMoves` | csrc/indexer_c8/kernel.cpp:101-115 | orderly copies leave the same bytes whatever order they run in |
| `Dmas.LoadMoves` | csrc/indexer_c8/kernel.cpp:101-115 | the same in the other direction |
| `HostChunks.StagingIsStacked` | csrc/utils.cpp:229-246 | the staging plane offsets of every format are those of planes stacked for all staging tokens |
| `HostChunks.HostIsStacked` | csrc/utils.cpp:522-544 | the host plane offsets of stacked chunks are those of planes stacked for the chunk's tokens |
| `HostChunks.ExecuteBatchedMemcpy` | csrc/utils.cpp:548-732 | the dense copy moves exactly the rows of every token of every chunk in every plane, for interleaved and stacked chunks and every format |
| `HostChunks.FindChunk` | csrc/utils.cpp:736-746 | the first chunk that holds a staging token, or none |
| `HostChunks.ExecuteBatchedSparseMemcpy` | csrc/utils.cpp:750-901 | the sparse copy moves exactly the rows of the selected tokens, or all of them by the three-quarters shortcut; it raises exactly when the shortcut is not taken and a selected token is in no chunk |
| `HostChunksMemory.OneStagingByte` | csrc/utils.cpp:229-246 | distinct (plane, token) staging regions never overlap |
| `HostChunksMemory.OneHostByte` | csrc/utils.cpp:499-546 | distinct (chunk, plane, token) host regions never overlap, in both layouts |
| `HostChunksMemory.SparseAgreesWithDense` | csrc/utils.cpp:750-901 | after a sparse copy, with or without the shortcut, every selected token's rows are what a dense copy would have put there |
| `HostChunksMemory.OutThenIn` | csrc/utils.cpp:548-732 | a dense copy out and back in restores every covered staging byte, whatever happened to staging in between |
| `HostChunksMemory.CoveredIsMoved` | csrc/utils.cpp:579-690 | every byte of every plane of every token some chunk holds is among the bytes moved |
| `SparseGraph.PackedIsActive` | csrc/graph/sparse_graph_kernel.cpp:71-73 | the packed order lists exactly the active (row, column) pairs, each once, and no padded one |
| `SparseGraph.SplitTiles` | csrc/graph/sparse_graph_kernel.cpp:23-29 | the cores' ranges follow each other from 0 to the total, and their lengths differ by at most one |
| `SparseGraph.CoresVisitAll` | csrc/graph/sparse_graph_kernel.cpp:23-29 | the shares of all cores, in core order, are the packed order |
| `SparseGraph.VisitedOnce` | csrc/graph/sparse_graph_kernel.cpp:19-67 | over all cores every active pair is handled exactly once and nothing else is, for any ragged counts and limits |
| `SparseGraph.ReplayLands` | csrc/graph/sparse_graph_kernel.cpp:39-62 | in whatever order the cores' copies take effect, when the pairs that ask for a copy name distinct slots: the slot of each ends up with its token's own row of its own chunk of its own request in both planes, and every other slot keeps what it held |
| `SparseGraph.Run` | csrc/graph/sparse_graph_kernel.cpp:8-68 | one core walks the rows and handles exactly its share, with the copies each pair calls for |
| `Checksums.PrefixIsContent` | lmcache_ascend/v1/kv_trace.py:97-181 | prefix checksum i equals the content checksum of the first i + 1 rows, for every row width, odd ones included, modulo 2^32 |
| `Checksums.CumSumIsWeighted` | lmcache_ascend/v1/kv_trace.py:166-173 | the running weighted sum is the weighted sum of the prefix |
| `TokenSegments.Segments` | lmcache_ascend/v1/kv_trace.py:195-202 | the segments tile the range, and each is the whole part of one storage chunk inside it |
| `PagedTrace.BatchIsEach` | lmcache_ascend/v1/kv_trace.py:431-443 | hashing equal-span segments as one matrix gives the digest of each segment hashed alone |
| `PagedTrace.Paged` | lmcache_ascend/v1/kv_trace.py:411-445 | for every component the digests are those of the segments one by one, whatever the batch limit; it fails exactly when some position is unmapped |
| `PacketPlanes.StackedRoundTrip` | lmcache_ascend/v1/kv_trace.py:205-224 | decoding plane-stacked bytes gives back the planes |
| `PacketPlanes.InterleavedRoundTrip` | lmcache_ascend/v1/kv_trace.py:205-218 | decoding interleaved bytes gives back the same planes |
| `PacketPlanes.Decode` | lmcache_ascend/v1/kv_trace.py:205-224 | a packet is refused exactly when its size disagrees with the layout |
| `FeatureFile.FeatureFile.Extent` | lmcache_ascend/v1/kv_features.py:100-107 | an unchanged extent is reused, any other is appended; either way it reads back its bytes |
| `FeatureFile.FeatureFile.Write` | lmcache_ascend/v1/kv_features.py:80-110 | after every write each observation ever written still reads back the exact bytes it was given, in pieces that are its range's segments; the payload only grows, and not at all when every extent is unchanged; a wrong length is refused without a trace |
| `FeatureFile.DecodedLater` | lmcache_ascend/v1/kv_features.py:80-110 | appending to the payload changes nothing that was stored |
| `RotaryTiling.TilingParams.Compute` | csrc/pos_kernels.cpp:79-156 | with at least one token and one core every token is assigned once over front and tail cores, each core's loops do its share with a last loop between 1 and the loop size, and a loop fits the buffer whenever one token does; with no token the last loop wraps around to a full one |
| `RotaryTiling.SharesAddUp` | csrc/pos_kernels.cpp:108-114 | front and tail shares add up to the tokens, and a front core takes one more than a tail core |
| `RotaryTiling.FrontLoops` | csrc/pos_kernels.cpp:131-141 | a front core's loops do its share if and only if it has a token |
| `RotaryTiling.LoopSize` | csrc/pos_kernels.cpp:119-127 | as many tokens as fit the buffer, but at least one |

## Left out

- Object identity: pages, futures, commands and retention records are identified by numbers and kept in maps or sequences of their owner; aliasing between Python objects is not modelled beyond that.
- Threads: a lock region is one atomic event; what runs between lock regions is a separate event, and the retirement executor is assumed to accept every job handed to it.
- Monitor policy: pressure thresholds, credit, retry clocks and wake-ups; the monitor's choice is any eligible record at any time.
- The token hasher, the allocator, the cache backend and the remote transport: nondeterministic answers with ownership contracts. The windows the hasher proposes are arbitrary and checked as the code checks them.
- Page validity checks, key kinds and alias removal during normalization: any outcome, without effect on the references modelled.
- Request event strings other than begin, admitted, ack and failed.
- MixedRestore.MixedAcquire: leftover held windows are given back before the result is formed, not in a final block afterwards; no step in between can fail.
- CanonicalPages.BuildPage: which sources a page is cut from and who owns it; the bytes written are the subject of PlaneCopy.Assemble.
- Capture: device work, staging jobs and the choice of prefix pages; an allocation may be refused at any fragment. The final sort of an offer's sources is left out: they are listed in order already.
- Writeback.CheckpointWritebackStore.RetainedLookup: the extra reference a lookup hands to its caller belongs to the caller and is counted in LocalCheckpoint, not in the protocol's ledger.
- `Simulation`, DMA address checks and the fault switches of the device simulator, and the random distribution of latencies (any positive latency is allowed).
- Poisoning of written ranges before a commit, and statistics counters.
- Device.Device.Step: whether a command's own action raises is arbitrary; WriterTable.Hardware.Execute adds the read-readiness check.
- The fence-debug mode of the bank hand-off check, wall-clock timing, and the generation checks of the connector, which stay at one generation there; the bank values are one number per (bank, request).
- Timeouts of the put queue: a wait may end with transfers still running at any time.
- Put failures that arrive after a fence returned are seen by the next poll, as in the code; no stronger notification is modelled.
- DMA queue depth and buffer sizes of the kernels, and their 32-bit length fields, which the launch limits keep small.
- SparseGraph.Run: 32-bit overflow of totals and packed indices; the launch limits keep them small.
- Cache-side strides and buffer sizes computed beside the staging strides, and `compute_multi_layer_ub_params`.
- Checksums.PrefixIsContent: segments of 2^31 bytes or more, whose 32-bit lengths would wrap.
- PagedTrace.Paged: the digest copy to the host, the result queue and the log records; a lookup outside the tables is one error for the whole call, as in the code.
- FeatureFile.FeatureFile.Write: flushing and the text form of the index.
- RotaryTiling.TilingParams.Compute: the kernel that consumes the tiling is not part of this repository, so the order in which cores take their shares is not modelled; token counts are signed 64-bit tensor sizes.
- ACL, HCCL, HIXL and driver calls, bindings, NUMA and shared-memory allocation, and the patching at import: foreign calls.
- Format detection, layer grouping, token splitting, `direct_store_plan.py`, `content_diagnostics.py` and `direct_npu_audit.py`: they would only add easy members.
