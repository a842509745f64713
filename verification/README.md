# HIXL benchmarks and data-distribution statistics, modelled in Dafny

The project models the logic of HIXL's KV-cache benchmark, of the step alignment of its communication benchmark, of the
cost statistics and timers of the data-distribution library, and of the format checker of its log scripts, and proves
what holds of every input, every reachable state or every run.

- **Placing KV slices.** `ModelConfig`, `PlacementKeys`, `SegmentManagement`, `KvStorage`, `Layout`, `PlacementRefinement`,
  `SlicePlans`, `Sizing`, `PoolSizing`: a model description becomes slices; a string-keyed store places them in trial
  segments; the highest bytes used, rounded up to GiB, are the pool sizes; the runtime places the slices again with an
  algorithm that knows no strings. The two algorithms agree exactly when no layer repeats the name of an active cache, and
  the pools computed then let the runtime put every slice of key k into the pool of rank k mod n (k as a 32-bit counter).
- **Moving them.** `Transfers`, `ByteMoves`, `TransferPlan`, `Executor`, `Stages`, `KvSystem`, `KvHistory`,
  `KvProgress`, `BenchmarkRun`: slices are grouped into one task per key; a pool of worker threads executes the tasks; marker-file
  barriers separate puts from gets. The top result follows every byte: in every run of a shared model, whatever fails, a
  rank that has gone on from a get made that get and holds rank 0's bytes; every run that ends leaves them on all ranks;
  and as long as nothing fails, the run can always go on to its end.
- **Keeping steps aligned.** `TcpBarrier` (Arrive/Release/Finished over sockets), `StepBarrier` (the in-process counting
  barrier with the per-remote mutex) and `TwoLevelBarrier` (workers of several processes that wait at both).
- **Smaller parts.** `Statistics` (compare-and-swap extremes against a sequential reference), `BlockTiling` (asynchronous
  requests against the synchronous descriptor list), `Timers`, `FormatCount` (the printf-argument counter against the
  grammar of conversion specifications).

Loops and objects of the source are methods and classes here, each proved against a function or a predicate; protocols are
state machines whose steps are the source's critical sections, and results about them hold in every run.

Fixed-width arithmetic is explicit: `u32`, `u64`, `Wrap32`, `Wrap64`. Exceptions are `Outcome` values. The clock, the
network, ACL and HIXL calls are parameters or steps that may fail.

Assumptions, as the benchmarks are used: all ranks run with the same configuration, model and workloads; the marker
directory of a run is empty at its start, and files only appear in it; one thread at a time calls `Transfer`; the buffers a
rank registers lie inside the address space; each atomic cell is read and written in one global order.

Where source and documentation differ the code is followed. Some promises turned out to hold only under a condition, which
is proved exact, with inputs on which they fail:

- The two placement algorithms agree only if active cache names differ within each layer (`FastFormRefinesIff`). Otherwise
  pools can be too small, so that planning throws on one process, and on more sends a task to rank 0 with an address in
  the pool of rank 1 (`RepeatedNameUndersized`, `SentWhereMeantIff`).
- Sizing succeeds only if every workload leaves a GiB of 64-bit space and no slice starts where the made-up base address
  wraps to 0 (`SizePools`, `OversizedRefused`, `WrappedAddressRefused`).
- The wrap-around search visits every segment only if its last index fits into 32 bits (`VisitsAllIff`, `RefusedWithRoom`).
- Success of the TCP barrier means that the planned transfers were made only if no client gave up on the way, because a
  failing client also reports Finished (`SuccessMeans`, `SuccessAfterGivingUp`).
- The asynchronous requests are the synchronous descriptor list only if the block count is not truncated to 32 bits, but
  for two degenerate cases (`AsyncEqualsSyncIff`, `SyncLosesAll`).
- Timers get different ids only within 2^32 creations (`SameIdIff`, `ReplacesIff`).
- A timer waits for its period only if the due time fits into 64 bits; otherwise the next pass fires it
  (`DueIsCollected`, `NextTimeRightIff`).

## Model

| member | source | states |
|---|---|---|
| `ModelConfig.CollectCacheSlicesForKey` | benchmarks/kv_benchmark/kvstore/model_config.cpp:195-213 | the slices of a key are, layer by layer and cache by cache, exactly those of the caches that still carry bytes for it |
| `ModelConfig.KeySlicesExact` | benchmarks/kv_benchmark/kvstore/model_config.cpp:147-213 | the slices of a key come, in the order of the caches, from exactly those that have bytes and no key limit or one above the key, each with its layer, name and bytes per key |
| `ModelConfig.CacheOrder` | benchmarks/kv_benchmark/kvstore/model_config.cpp:195-213 | caches are ordered by layer, and within a layer as listed |
| `ModelConfig.TransferBytesForKeys` | benchmarks/kv_benchmark/kvstore/model_config.cpp:183-193 | the slice loop returns the exact total of all slices of all keys, truncated once to 64 bits |
| `ModelConfig.BytesForKeys` | benchmarks/kv_benchmark/kvstore/model_config.cpp:173-181 | the closed form (keys capped per cache) returns the same number as the slice loop, truncation included |
| `ModelConfig.CountTransferSlicesForKeys` | benchmarks/kv_benchmark/kvstore/model_config.cpp:227-235 | the slice count is the length of the slice list, truncated to 64 bits |
| `ModelConfig.MaxSliceBytesForKeys` | benchmarks/kv_benchmark/kvstore/model_config.cpp:215-225 | the size of the largest slice of all keys, or 0 without slices |
| `ModelConfig.ClosedFormCountsSlices` | benchmarks/kv_benchmark/kvstore/model_config.cpp:154-193 | without truncation, keys times bytes over all caches equals the sum over every slice of every key |
| `ModelConfig.SlicesConsecutive` | benchmarks/kv_benchmark/kvstore/model_config.cpp:183-213 | no slice is empty, and the keys that have slices are 0, 1, 2, ... without a gap, in order |
| `ModelConfig.SlicesDistinct` | benchmarks/kv_benchmark/kvstore/model_config.cpp:195-213 | if no layer repeats the name of an active cache, no two slices share key, layer and cache name |
| `ModelConfig.RepeatedNameRepeatsId` | benchmarks/kv_benchmark/kvstore/model_config.cpp:195-213 | if a layer does repeat one, two slices of every workload share key, layer and cache name |
| `PlacementKeys.ExtractsGroupKey` | benchmarks/kv_benchmark/kvstore/kv_slice_layout.cpp:25-41 | cutting a placement key at the first "_L" gives back exactly its rank/tokens/key prefix, for all numbers and any cache name |
| `PlacementKeys.GroupKeysEqualIff` | benchmarks/kv_benchmark/kvstore/kv_slice_layout.cpp:25-33 | two slices share a group exactly if they agree on tokens, key and, unless shared, rank |
| `PlacementKeys.SliceKeysEqualIff` | benchmarks/kv_benchmark/kvstore/kv_slice_layout.cpp:25-33 | two placement keys are equal exactly if all their parts are, whatever the cache names contain |
| `PlacementKeys.KeyReads` | benchmarks/kv_benchmark/kvstore/kv_slice_layout.cpp:25-33 | an independent reader gets back from a placement key the rank unless it is shared, the tokens, the key, the layer and the cache name |
| `PlacementKeys.ExtractThrowsIff` | benchmarks/kv_benchmark/kvstore/kv_slice_layout.cpp:35-41 | for any text at all, cutting throws exactly if "_L" does not occur or stands first; otherwise it gives what is before the first one |
| `SlicePlans.BuildWorkloadSlicePlan` | benchmarks/kv_benchmark/kvstore/kv_slice_layout.cpp:43-65 | throws exactly if the total does not fit into 64 bits; otherwise the buffers tile the local buffer in slice order under their keys |
| `SlicePlans.PlanKeysRead` | benchmarks/kv_benchmark/kvstore/kv_slice_layout.cpp:43-65 | the key of every plan entry, read back, names the slice it was made for |
| `SlicePlans.BuildPreparedTransferSlices` | benchmarks/kv_benchmark/hixl_kv_bench.cpp:419-437 | throws on the same workloads; otherwise the same slices at the same offsets, with key indices in place of strings |
| `SegmentManagement.SegmentManager.AddSegment` | benchmarks/kv_benchmark/kvstore/segment_manager.cpp:15-17 | one unused segment is appended, the others are untouched |
| `SegmentManagement.SegmentManager.AllocateFrom` | benchmarks/kv_benchmark/kvstore/segment_manager.cpp:19-34 | the search loop allocates from the first segment with room in wrap-around order, or changes nothing |
| `SegmentManagement.AllocateShape` | benchmarks/kv_benchmark/kvstore/segment_manager.cpp:19-34 | an allocation raises the fill of one segment by its size and starts at the old fill; a refusal changes no segment |
| `SegmentManagement.AllocationsTile` | benchmarks/kv_benchmark/kvstore/segment_manager.cpp:19-34 | over any sequence of requests, spilling or not, the allocations of each segment lie end to end from 0 inside it, and its fill is the sum of their sizes |
| `SegmentManagement.AllocationsDisjoint` | benchmarks/kv_benchmark/kvstore/segment_manager.cpp:19-34 | two allocations of one run never overlap |
| `SegmentManagement.RefusedIffFull` | benchmarks/kv_benchmark/kvstore/segment_manager.cpp:19-34 | while the last index of the search, start plus the segment count, stays within 2^32, a request is refused exactly if no segment has room |
| `SegmentManagement.VisitsAllIff` | benchmarks/kv_benchmark/kvstore/segment_manager.cpp:19-34 | the search visits every segment exactly if start plus the segment count is at most 2^32 |
| `SegmentManagement.RefusedWithRoom` | benchmarks/kv_benchmark/kvstore/segment_manager.cpp:19-34 | beyond that the segment before the first is never looked at: a request is refused although it alone has room |
| `SegmentManagement.AllocatesNearest` | benchmarks/kv_benchmark/kvstore/segment_manager.cpp:19-34 | within that bound the bytes come from a segment that has them free, at its old fill, and every segment before it, going up from the first and round, has too little free |
| `SegmentManagement.BuildFromPoolSizes` | benchmarks/kv_benchmark/hixl_kv_bench.cpp:381-387 | one unused segment per pool, its id its position |
| `KvStorage.CheckInput` | benchmarks/kv_benchmark/kvstore/kvstore.cpp:21-31 | true exactly for equally long non-empty lists without a null address or an empty buffer |
| `KvStorage.KvStore.constructor` | benchmarks/kv_benchmark/kvstore/kvstore.cpp:19 | a new store knows no placement and no group |
| `KvStorage.KvStore.ResolveSegmentForKeyGroup` | benchmarks/kv_benchmark/kvstore/kvstore.cpp:33-46 | a known group keeps its segment; a new one takes the next in turn, with a 32-bit counter, or throws exactly if there is no segment, changing nothing |
| `KvStorage.KvStore.EnsurePlacement` | benchmarks/kv_benchmark/kvstore/kvstore.cpp:48-67 | the whole new state and answer: a known key is compared by size, a new one is allocated from its group's segment, a key without a group throws |
| `KvStorage.KvStore.EnsurePlacements` | benchmarks/kv_benchmark/kvstore/kvstore.cpp:69-80 | bad input changes nothing; otherwise slices are placed in order up to the first that is refused or throws |
| `KvStorage.SizesMustAgree` | benchmarks/kv_benchmark/kvstore/kvstore.cpp:48-80 | a list that asks for one key with two sizes is never accepted, and answered with false if all its keys are well-formed |
| `KvStorage.KnownKey` | benchmarks/kv_benchmark/kvstore/kvstore.cpp:49-53 | a key that is placed already changes nothing and is accepted exactly if its size is the same |
| `Sizing.StoreStaysInside` | benchmarks/kv_benchmark/kvstore/kvstore.cpp:48-67 | whatever is asked of a store, every placement lies in the filled part of an existing segment |
| `Layout.PassSelectsHome` | benchmarks/kv_benchmark/hixl_kv_bench.cpp:774-795 | after any pass, spilling or not, the selected segment is that of the last key: a 32-bit counter modulo the segment count |
| `Layout.HomeIsModulo` | benchmarks/kv_benchmark/hixl_kv_bench.cpp:774-795 | that segment is the key modulo the segment count for keys below 2^32, and for all keys if the count divides 2^32 |
| `Layout.PassPlacesWell` | benchmarks/kv_benchmark/hixl_kv_bench.cpp:774-795 | a successful pass places every slice with its size, inside a segment, without overlap, spilling or not |
| `Layout.NoSpillIffFits` | benchmarks/kv_benchmark/hixl_kv_bench.cpp:774-795 | the pass succeeds with every slice in the segment of its key exactly if each segment holds the bytes at home in it, and then it is the packed reference layout |
| `PlacementRefinement.DistinctAgree` | benchmarks/kv_benchmark/hixl_kv_bench.cpp:774-795 | on distinct slices store and pass succeed together, and then place every slice in the same segment at the same offset, spilling or not |
| `PlacementRefinement.FastFormRefinesIff` | benchmarks/kv_benchmark/hixl_kv_bench.cpp:774-795 | for every pool vector the store accepts, the runtime pass gives every slice the store's placement exactly if no layer repeats an active cache name |
| `Sizing.AlignUpMeans` | benchmarks/kv_benchmark/hixl_kv_bench.cpp:271-280 | the result is the least multiple of the alignment that is not smaller, truncated to 64 bits; alignment 0 changes nothing |
| `Sizing.GibRounding` | benchmarks/kv_benchmark/hixl_kv_bench.cpp:271-280 | a size up to 2^64 - 2^30 becomes the next multiple of 2^30, and every larger one becomes 0 |
| `Sizing.PlaceSlicePlan` | benchmarks/kv_benchmark/hixl_kv_bench.cpp:405-417 | returns exactly if the store accepts keys and buffers of the plan, in its order |
| `Sizing.LayOut` | benchmarks/kv_benchmark/hixl_kv_bench.cpp:450-454 | plan and placement succeed exactly if the total fits, there are slices, no address is null and the store accepts them |
| `Sizing.RaisePeaks` | benchmarks/kv_benchmark/hixl_kv_bench.cpp:455-461 | each peak is raised to the highest end of a placement in its segment; throws exactly on a segment id out of range |
| `Sizing.ComputeMaxSegmentUsage` | benchmarks/kv_benchmark/hixl_kv_bench.cpp:446-464 | returns exactly if every workload can be laid out, and then per segment the highest end over all workloads; the id check never fires |
| `PoolSizing.MaxLocalBytes` | benchmarks/kv_benchmark/hixl_kv_bench.cpp:476-482 | the largest recorded total, or 0 |
| `PoolSizing.BuildWorkloads` | benchmarks/kv_benchmark/hixl_kv_bench.cpp:389-403 | throws exactly on an empty list or a zero key count; otherwise records of each key count the tokens, the largest slice, and the truncated number and total of the slices |
| `PoolSizing.BuildAlignedRankPoolSizes` | benchmarks/kv_benchmark/hixl_kv_bench.cpp:1092-1099 | every pool is the next multiple of 2^30 that holds its peak and at least one byte |
| `PoolSizing.VerifyRankPoolLayouts` | benchmarks/kv_benchmark/hixl_kv_bench.cpp:466-474 | returns exactly if every workload can be laid out in the pools |
| `PoolSizing.SizePools` | benchmarks/kv_benchmark/hixl_kv_bench.cpp:1141-1146 | for any model it returns the one pool vector that was measured and holds every workload, or throws if there is none; with distinct active names it succeeds exactly if every workload has slices, leaves a GiB of 64-bit space and has no slice where the sizing base wraps to 0 |
| `PoolSizing.WrappedAddressRefused` | benchmarks/kv_benchmark/hixl_kv_bench.cpp:446-474 | one key, caches "a" of 2^64 - 2^32 bytes and "b" of one byte: names differ and a GiB is left, and sizing throws on any number of processes |
| `PoolSizing.OversizedRefused` | benchmarks/kv_benchmark/hixl_kv_bench.cpp:1141-1146 | one key and one cache of any size above 2^64 - 2^30: sizing throws on any number of processes |
| `PoolSizing.AcceptedIsSized` | benchmarks/kv_benchmark/hixl_kv_bench.cpp:1092-1146 | with distinct active names the pools are, per rank, the largest need of any workload's reference layout, rounded up: they do not depend on the computing rank |
| `PoolSizing.PoolsFit` | benchmarks/kv_benchmark/hixl_kv_bench.cpp:446-474 | those pools hold the reference layout of every workload |
| `TransferPlan.SizedNeverSpills` | benchmarks/kv_benchmark/hixl_kv_bench.cpp:774-795 | in sized pools the runtime placement never fails and never spills: every slice of key k lands in segment k mod n (k as a 32-bit counter) at its reference offset |
| `TransferPlan.HomeIffFits` | benchmarks/kv_benchmark/hixl_kv_bench.cpp:774-795 | for any model and the pools sizing returned, the runtime keeps every slice at home exactly if each pool holds the bytes at home in it |
| `TransferPlan.RepeatedNameUndersized` | benchmarks/kv_benchmark/hixl_kv_bench.cpp:852-889 | two one-GiB caches of the same name and one key, on any number of processes: sizing returns pools of one GiB; planning throws on one process, and on more returns one task for rank 0 whose second descriptor is an address in rank 1's pool |
| `TransferPlan.PlanTransfer` | benchmarks/kv_benchmark/hixl_kv_bench.cpp:876-889 | the get of a rank can be planned exactly if the total fits, the pass succeeds and the registered pools hold what it placed; a rank that put before plans the same tasks in both; in sized pools this is always so, placed as in the reference layout |
| `Transfers.WorkloadTransferState.constructor` | benchmarks/kv_benchmark/hixl_kv_bench.cpp:439-444 | a new state holds the slices and is not ready |
| `Transfers.WorkloadTransferState.GeneratePlacements` | benchmarks/kv_benchmark/hixl_kv_bench.cpp:774-795 | the loop computes the runtime pass and becomes ready, or throws exactly if the pass fails |
| `Transfers.WorkloadTransferState.EnsurePlacementMetadata` | benchmarks/kv_benchmark/hixl_kv_bench.cpp:797-802 | existing placements are kept; missing ones are those of the pass |
| `Transfers.MakeTransferOpDesc` | benchmarks/kv_benchmark/hixl_kv_bench.cpp:840-850 | throws exactly if the placement ends behind the registered pool |
| `Transfers.BuildKeyTransferTasks` | benchmarks/kv_benchmark/hixl_kv_bench.cpp:852-874 | throws exactly if placements are missing, mismatched, on an unknown rank or outside a pool; otherwise one task per maximal run of a key, holding one descriptor per slice, in order, addressed to the endpoint of its rank or marked for a local copy |
| `Transfers.PlanBatch` | benchmarks/kv_benchmark/hixl_kv_bench.cpp:876-889 | a put places anew and throws exactly if the pass fails or a placement is outside the registered pools; a get reuses the placements, changes nothing, and throws exactly if there are none or one is outside |
| `Transfers.GroupsOnce` | benchmarks/kv_benchmark/hixl_kv_bench.cpp:852-874 | a batch has exactly one grouping into tasks, so planning it again gives the same tasks |
| `Transfers.SentWhereMeantIff` | benchmarks/kv_benchmark/hixl_kv_bench.cpp:827-874 | every slice is sent to the rank it was placed with exactly if no key is split between segments |
| `Transfers.DescMeantIff` | benchmarks/kv_benchmark/hixl_kv_bench.cpp:840-874 | where pools start at different addresses, a descriptor is the one for the rank its task is sent to exactly if its slice was placed with that rank |
| `ByteMoves.BytesApart` | benchmarks/kv_benchmark/hixl_kv_bench.cpp:774-795 | no two local bytes of a workload share a pool byte |
| `ByteMoves.ByteInPool` | benchmarks/kv_benchmark/hixl_kv_bench.cpp:840-850 | every byte stays inside its pool, so the bounds check never fires |
| `ByteMoves.BatchMeaning` | benchmarks/kv_benchmark/hixl_kv_bench.cpp:827-874 | task t carries key t, is sent to rank t mod n (t as a 32-bit counter), and exchanges exactly the local bytes of key t, each with its own byte of that rank's pool |
| `Executor.KvTransferExecutor.BeginTransfer` | benchmarks/kv_benchmark/kv_transfer_executor.cpp:264-279 | an empty batch returns, an active one throws, any other resets cursor, counter and error |
| `Executor.KvTransferExecutor.EndTransfer` | benchmarks/kv_benchmark/kv_transfer_executor.cpp:281-291 | returns the recorded error and clears the tasks |
| `Executor.KvTransferExecutor.AcquireWorkerTask` | benchmarks/kv_benchmark/kv_transfer_executor.cpp:202-212 | hands out the task at the cursor with the batch's operation and advances the cursor |
| `Executor.KvTransferExecutor.RecordErrorAndCancelPending` | benchmarks/kv_benchmark/kv_transfer_executor.cpp:193-200 | keeps the first error, moves the cursor to the end and takes the cancelled tasks off the counter, in unsigned arithmetic |
| `Executor.KvTransferExecutor.CompleteTask` | benchmarks/kv_benchmark/kv_transfer_executor.cpp:227-234 | takes one task off the counter and ends the batch at 0 |
| `Executor.GuardsNeverSaturate` | benchmarks/kv_benchmark/kv_transfer_executor.cpp:193-235 | in every run, while a batch is active the counter is the unacquired plus the in-flight tasks, so neither guard ever changes anything, and no batch starts over an active one |
| `Executor.AcquiredOnce` | benchmarks/kv_benchmark/kv_transfer_executor.cpp:202-212 | in every run a task is acquired at most once, and every busy worker holds a task of the current batch with its operation |
| `Executor.ReturnMeans` | benchmarks/kv_benchmark/kv_transfer_executor.cpp:264-292 | in every run Transfer returns with nothing in flight; without an error every task finished and none threw; with one, the tasks that ran are a prefix and the first recorded error is rethrown |
| `Executor.NothingAfterError` | benchmarks/kv_benchmark/kv_transfer_executor.cpp:193-212 | in every run, after a task has thrown no further task of its batch is acquired |
| `Executor.SomeWorkerCanStep` | benchmarks/kv_benchmark/kv_transfer_executor.cpp:202-262 | in every active state some worker can take a step |
| `Executor.BatchEnds` | benchmarks/kv_benchmark/kv_transfer_executor.cpp:202-262 | in every run a measure over unacquired, running and failed tasks drops with each worker step, so every batch ends whatever fails |
| `Stages.NamesDistinct` | benchmarks/kv_benchmark/hixl_kv_bench.cpp:911-986 | different barriers have different names, for all workload and round numbers |
| `Stages.MeasureRepeated` | benchmarks/kv_benchmark/hixl_kv_bench.cpp:911-931 | exactly two barriers per round are appended: for every round i its ready and directly after it its done |
| `Stages.RunBenchmark` | benchmarks/kv_benchmark/hixl_kv_bench.cpp:965-1014 | the list of barriers is given position by position: all_connected, per workload ready, put_done, a ready and a done per round, done, then all_done; a barrier is in it exactly if it belongs to the run, and its length is 2 + workloads * (3 + 2 * rounds) |
| `Stages.ScriptIsListed` | benchmarks/kv_benchmark/hixl_kv_bench.cpp:965-1014 | any chain of successor barriers from the first to the last is that list |
| `Stages.NamesAsWritten` | benchmarks/kv_benchmark/hixl_kv_bench.cpp:911-986 | the names of the first barriers, as text |
| `Stages.ScriptNamesDistinct` | benchmarks/kv_benchmark/hixl_kv_bench.cpp:579-596 | no barrier name is used twice in a run |
| `KvSystem.PhaseSeparation` | benchmarks/kv_benchmark/hixl_kv_bench.cpp:544-596 | in every run, polling marker by marker and failures included, ranks are at most one barrier apart, and ranks that transfer at the same time are in the same phase: no get overlaps a put |
| `KvSystem.RoundTrip` | benchmarks/kv_benchmark/hixl_kv_bench.cpp:948-980 | in every run of a shared model, under any interleaving of ranks, workers and single bytes and any failures, a rank whose get of a workload returned without an error holds rank 0's bytes over the workload |
| `KvHistory.GetsMade` | benchmarks/kv_benchmark/hixl_kv_bench.cpp:968-986 | in every run, whatever fails, a rank that has gone on from the ready barrier of a get round started there a read of all tasks of the workload and returned from it without an error |
| `KvHistory.PutsMade` | benchmarks/kv_benchmark/hixl_kv_bench.cpp:948-973 | in every run a rank that has gone on from the ready barrier of a workload wrote all its tasks there, without an error, if it is rank 0 or the model is not shared; otherwise it started nothing there |
| `KvHistory.StartsOnlyThere` | benchmarks/kv_benchmark/hixl_kv_bench.cpp:948-986 | in every run transfers are started behind those barriers only |
| `KvHistory.HoldsFromThen` | benchmarks/kv_benchmark/hixl_kv_bench.cpp:948-986 | in every run of a shared model a rank that has gone on from a get round, and on which nothing is spoiled now, holds the workload of rank 0, whatever it did since |
| `KvHistory.EndedHolds` | benchmarks/kv_benchmark/hixl_kv_bench.cpp:948-1014 | in every run of a shared model that ends, every rank holds every workload of rank 0 |
| `KvProgress.SomeProgress` | benchmarks/kv_benchmark/hixl_kv_bench.cpp:544-596 | in every reachable state without a failure, short of the last barrier, some rank has a step that does something: it is not a failure, not a poll that misses a marker, not a second copy of a byte |
| `KvProgress.PathBounded` | benchmarks/kv_benchmark/hixl_kv_bench.cpp:911-986 | such steps are bounded by the work at their start: markers, polls, bytes and tasks left |
| `KvProgress.RunsToTheEnd` | benchmarks/kv_benchmark/hixl_kv_bench.cpp:948-1014 | from every point of every run without a failure, such steps lead every rank through the last barrier |
| `BenchmarkRun.PrepareBenchmark` | benchmarks/kv_benchmark/hixl_kv_bench.cpp:1137-1148 | with distinct active names, set-up succeeds exactly if there are key counts, none is 0 and every workload is sizable; it then returns the workload of each key count in order, accepted pools, the listed barriers, and as local size the next multiple of 2^30 that holds every workload and the configured minimum |
| `BenchmarkRun.LocalBufferHolds` | benchmarks/kv_benchmark/hixl_kv_bench.cpp:1147 | the local buffer holds every workload exactly if the configured minimum leaves a GiB of 64-bit space |
| `BenchmarkRun.SizedIsValid` | benchmarks/kv_benchmark/hixl_kv_bench.cpp:1141-1154 | what sizing returns makes a valid system: injective byte maps inside the pools, the same on every rank |
| `BenchmarkRun.PlanRank` | benchmarks/kv_benchmark/hixl_kv_bench.cpp:876-889 | with sized pools every rank's planning succeeds for every workload, and plans its put and its gets alike |
| `BenchmarkRun.PlanMatchesLayout` | benchmarks/kv_benchmark/hixl_kv_bench.cpp:827-874 | the tasks planned are as many as the run has, and exchange exactly the pairs of addresses the run moves bytes between |
| `BenchmarkRun.MovesFollowTasks` | benchmarks/kv_benchmark/kv_transfer_executor.cpp:91-135 | in every run a byte moves only by a worker whose task exchanges that local address with that pool address of the rank it is sent to |
| `BenchmarkRun.BenchmarkRoundTrip` | benchmarks/kv_benchmark/hixl_kv_bench.cpp:948-986 | from sizing to the last get: with the pools that sizing returned for a shared model, every rank whose get of a workload returned without an error, as `GetsMade` says it did, holds all bytes of the workload as rank 0 had them |
| `BenchmarkRun.BenchmarkEnds` | benchmarks/kv_benchmark/hixl_kv_bench.cpp:948-1014 | with the pools that sizing returned for a shared model and at least one round, at the end of every run that ends every rank holds all bytes of every workload as rank 0 had them |
| `TcpBarrier.Classify` | benchmarks/comm_benchmark/common/tcp_client_server.cpp:416-445 | the counting loop ends on all Finished, releases on all Arrive, and fails on anything else; the target of the protocol decides by this verdict |
| `TcpBarrier.StepsAligned` | benchmarks/comm_benchmark/common/tcp_client_server.cpp:405-447 | in every run no client passes a step before every client arrived at it, completed steps differ by at most one, at most one release is unread, and at most one message to the target, or Arrive and Finished if a client gave up while waiting |
| `TcpBarrier.SuccessMeans` | benchmarks/comm_benchmark/common/tcp_client_server.cpp:429-433 | in every run success means that every client reported finished after equally many arrivals, with all but at most the last of those transfers made; every planned transfer was made exactly if no client gave up in the run |
| `TcpBarrier.SuccessIffSameRound` | benchmarks/comm_benchmark/common/tcp_client_server.cpp:405-447 | without broken connections, whoever gave up, the target reports success exactly if all clients reported finished in the same round |
| `TcpBarrier.SuccessIffEqual` | benchmarks/comm_benchmark/common/tcp_client_server.cpp:405-447 | without failures the target reports success exactly if all clients planned the same number of steps |
| `TcpBarrier.SuccessAfterGivingUp` | benchmarks/comm_benchmark/common/client_runner.cc:711-768 | one client that plans any number of steps, one included, and whose first transfer fails: the target reports success with no transfer made |
| `TcpBarrier.TwoUnread` | benchmarks/comm_benchmark/common/tcp_client_server.cpp:548-573 | a client that gives up while it waits can leave Arrive and Finished unread together |
| `TcpBarrier.RunsEnd` | benchmarks/comm_benchmark/common/tcp_client_server.cpp:405-447 | every run is bounded by the work at its start, and where it cannot go on the target has ended and every client finished or gave up: nobody waits for ever |
| `StepBarrier.CountingBarrier.constructor` | benchmarks/comm_benchmark/common/client_runner.cc:622-624 | a barrier for nobody is a barrier for one |
| `StepBarrier.CountingBarrier.Fail` | benchmarks/comm_benchmark/common/client_runner.cc:626-632 | marks the failure, empties the round and moves the generation |
| `StepBarrier.CountingBarrier.Enter` | benchmarks/comm_benchmark/common/client_runner.cc:634-650 | the whole new state, and whether the caller passes, is refused or must wait for which generation |
| `StepBarrier.CountingBarrier.Leave` | benchmarks/comm_benchmark/common/client_runner.cc:651-653 | a woken caller is told whether the barrier failed |
| `StepBarrier.PassedMeansCalled` | benchmarks/comm_benchmark/common/client_runner.cc:634-653 | in every run the k-th Wait of a thread returns true only if every thread made k calls |
| `StepBarrier.WakesAfterItsRound` | benchmarks/comm_benchmark/common/client_runner.cc:634-653 | before any failure a waiting thread can go on exactly if its round is complete, although the 32-bit generation wraps |
| `StepBarrier.FailureReleases` | benchmarks/comm_benchmark/common/client_runner.cc:626-653 | in every run, from the first failure on, no Wait that returns gives true, nobody passes another step, and every waiting thread can leave |
| `StepBarrier.RunsEnd` | benchmarks/comm_benchmark/common/client_runner.cc:669-682 | with a remote of its own for every worker, every run is bounded, and where it cannot go on by itself all workers are gone or one waits for the release of its target, whatever fails |
| `StepBarrier.LeftMeansDone` | benchmarks/comm_benchmark/common/client_runner.cc:711-733 | without failures a worker that left passed all its steps |
| `StepBarrier.SharedRemoteBlocks` | benchmarks/comm_benchmark/common/client_runner.cc:738-768 | if two workers share a remote, its mutex held across the barrier keeps every Wait of everybody from returning true |
| `TwoLevelBarrier.StepsStartTogether` | benchmarks/comm_benchmark/common/client_runner.cc:669-733 | in every run over several processes and targets, while a worker makes its k-th transfer every worker of its process and every client of its target has made k - 1 |
| `TwoLevelBarrier.RunsEnd` | benchmarks/comm_benchmark/common/client_runner.cc:669-768 | every run of workers and targets together is bounded, and where it cannot go on all workers are gone, whatever fails and whatever the processes plan: the two barriers do not lock each other |
| `Statistics.CostCounters.UpdateCost` | src/llm_datadist/comm_statistic_manager.cc:29-35 | counter, sum and extremes after one cost, with 64-bit truncation; `UpdateCosts` says what they are after any series |
| `Statistics.CostCounters.Average` | src/llm_datadist/comm_statistic_manager.cc:173-176 | 0 without costs, otherwise the integer quotient of sum and count |
| `Statistics.CostCounters.Reset` | src/llm_datadist/comm_statistic_manager.cc:213-220 | all four cells are fresh, so that the next costs alone decide them (`UpdateCosts`) |
| `Statistics.UpdateCosts` | src/llm_datadist/comm_statistic_manager.cc:29-35 | after a reset and any non-empty series of costs, minimum and maximum are the least and greatest of them, counter and sum their number and sum modulo 2^64 |
| `Statistics.ExtremesMonotone` | src/llm_datadist/comm_statistic_manager.cc:15-21 | in every run, under any interleaving and spurious failures of the swap, the maximum never falls and the minimum never rises between resets |
| `Statistics.ExtremesBound` | src/llm_datadist/comm_statistic_manager.cc:37-46 | unless a call overlapped the last reset, the extremes bound every cost completed since |
| `Statistics.QuiescentIsSequential` | src/llm_datadist/comm_statistic_manager.cc:15-46 | whenever no call is in progress and none overlapped the last reset, the cells hold what recording the costs one after the other under a lock leaves |
| `Statistics.ExtremesAttained` | src/llm_datadist/comm_statistic_manager.cc:15-46 | in every run, unless a call overlapped the last reset, once a call is complete the minimum is the cost of a completed call, and at rest the maximum too |
| `Statistics.AverageBetweenExtremes` | src/llm_datadist/comm_statistic_manager.cc:126-151 | in such a state, if count and sum fit into 64 bits, the average lies between minimum and maximum |
| `Statistics.DividesByZeroIff` | src/llm_datadist/comm_statistic_manager.cc:112-151 | a dump divides by zero exactly if the calls between its test and its division bring the counter round to 0 |
| `Statistics.NeverDividesByZero` | src/llm_datadist/comm_statistic_manager.cc:112-151 | with fewer than 2^64 calls no dump ever divides by zero, whatever resets do, because the mutex keeps them out |
| `Statistics.CellsExact` | src/llm_datadist/comm_statistic_manager.cc:15-46 | in every run, torn resets included, each cell by itself is exact: counter and sum are those of the additions since the reset's store of that cell, the extremes those of the costs swapped in since theirs |
| `Statistics.TornReset` | src/llm_datadist/comm_statistic_manager.cc:213-220 | a reset in the middle of a call leaves a sum without a count |
| `BlockTiling.ValidateBlockSizes` | benchmarks/comm_benchmark/common/benchmark_config.cpp:1058-1081 | true exactly if there are block sizes and each divides the transfer |
| `BlockTiling.DividesIff` | benchmarks/comm_benchmark/common/benchmark_config.cpp:1058-1081 | a block size passes exactly if one or more whole blocks of it make up the transfer |
| `BlockTiling.ValidateAsyncConfig` | benchmarks/comm_benchmark/common/benchmark_config.cpp:1083-1106 | true exactly if the transfer splits into equal requests that every block size divides |
| `BlockTiling.ValidAsyncIff` | benchmarks/comm_benchmark/common/benchmark_config.cpp:1083-1106 | an asynchronous configuration passes exactly if the transfer is that many requests of one size, each made up of whole blocks of every size |
| `BlockTiling.BuildSyncDescriptors` | benchmarks/comm_benchmark/common/client_runner.cc:462-474 | block k of the transfer is descriptor k |
| `BlockTiling.SubmitAsyncRequests` | benchmarks/comm_benchmark/common/client_runner.cc:516-540 | request b holds its blocks from its own base, in 64-bit arithmetic; requests go out in order up to the first that the engine refuses, which fails the step |
| `BlockTiling.AsyncEqualsSyncIff` | benchmarks/comm_benchmark/common/client_runner.cc:462-608 | for every validated configuration the requests one after the other are the synchronous list exactly if the transfer has fewer than 2^32 blocks, or there is one request, or the truncated count of a request is 0, which leaves both empty |
| `BlockTiling.BlocksTile` | benchmarks/comm_benchmark/common/client_runner.cc:462-474 | the blocks lie end to end from the base, inside the buffer, and the last one ends the transfer |
| `BlockTiling.SyncLosesAll` | benchmarks/comm_benchmark/common/client_runner.cc:486-493 | a valid configuration of 2^32 one-byte blocks: the synchronous list is empty |
| `Timers.LlmDatadistTimer.CreateTimer` | src/llm_datadist/llm_datadist_timer.cc:59-75 | a stopped timer under the id of the counter, which moves on modulo 2^32 (`SameIdIff`) |
| `Timers.LlmDatadistTimer.DeleteTimer` | src/llm_datadist/llm_datadist_timer.cc:77-87 | the timer is gone; an unknown one is an error and changes nothing |
| `Timers.LlmDatadistTimer.StartTimer` | src/llm_datadist/llm_datadist_timer.cc:89-102 | the timer is due one period after now; an unknown one is an error |
| `Timers.LlmDatadistTimer.StopTimer` | src/llm_datadist/llm_datadist_timer.cc:104-113 | the timer is no longer started; an unknown one is an error |
| `Timers.LlmDatadistTimer.ProcessTimers` | src/llm_datadist/llm_datadist_timer.cc:115-132 | exactly the due timers are collected, each once; one-shots are spent, the others are due a period later |
| `Timers.SameIdIff` | src/llm_datadist/llm_datadist_timer.cc:59-75 | in every run two creations give the same id exactly if a multiple of 2^32 creations lies from the one to the other |
| `Timers.PresentIff` | src/llm_datadist/llm_datadist_timer.cc:59-87 | in every run the timers there are, and so those that can be started, are exactly those created and not deleted since |
| `Timers.ReplacesIff` | src/llm_datadist/llm_datadist_timer.cc:59-75 | in every run a creation replaces a timer exactly if one created a multiple of 2^32 creations earlier is still there; among the first 2^32 none does |
| `Timers.FiringsSpaced` | src/llm_datadist/llm_datadist_timer.cc:89-132 | in every run a one-shot fires at most once after a start, and, as far as due times fit into 64 bits, the k-th firing after a start at t0 comes no earlier than t0 plus k periods |
| `Timers.DueIsCollected` | src/llm_datadist/llm_datadist_timer.cc:89-132 | in every run, after the last start or firing of an undisturbed timer, a pass collects it exactly if it comes at least its period of milliseconds later; if that time does not fit into 64 bits of microseconds, every later pass does, before the period is over |
| `Timers.StoppedStaysSilent` | src/llm_datadist/llm_datadist_timer.cc:59-132 | in every run no pass after a stop, a delete or a creation collects the timer until it is started |
| `Timers.NextTimeRightIff` | src/llm_datadist/llm_datadist_timer.cc:100-129 | the next due time is right exactly if it fits into 64 bits; otherwise it lies in the past |
| `FormatCount.ConsumeFlags` | scripts/check_log_spec.py:370-373 | the index stops behind the longest run of flag characters |
| `FormatCount.ConsumeDigits` | scripts/check_log_spec.py:376-379 | the index stops behind the longest run of digits, ASCII or other |
| `FormatCount.ParseFormatSpec` | scripts/check_log_spec.py:389-419 | end and argument count of the specification at an index, or nothing if it is not acceptable; which ones are is stated by `AcceptableIff` and `AloneCounted` |
| `FormatCount.AcceptableIff` | scripts/check_log_spec.py:100-121 | the checks of the parser, on its tables of letters, accept exactly the specifications that follow the rule of their conversion, listed conversion by conversion |
| `FormatCount.FormatArgumentCount` | scripts/check_log_spec.py:422-437 | the loop over percent signs computes the count that the two lemmas below characterise |
| `FormatCount.SpecReads` | scripts/check_log_spec.py:389-419 | every valid specification, written out, is parsed as it was written, whatever follows |
| `FormatCount.ParsedIsValid` | scripts/check_log_spec.py:389-419 | whatever the parser accepts is a valid specification of the grammar, written there |
| `FormatCount.RenderedIsCounted` | scripts/check_log_spec.py:422-437 | text written from literals, doubled percent signs and valid specifications asks for 1 plus the stars of each specification |
| `FormatCount.CountedIsRendered` | scripts/check_log_spec.py:422-437 | any text with a count can be written that way |
| `FormatCount.CountIsExact` | scripts/check_log_spec.py:422-437 | the counter answers n exactly if the format can be written so that its specifications ask for n arguments |
| `FormatCount.AloneCounted` | scripts/check_log_spec.py:389-437 | a format of one specification with parts of the right kinds is counted exactly if its rule allows them, with 1 plus its stars |
| `FormatCount.LettersCounted` | scripts/check_log_spec.py:100-112 | a percent sign and one final character count 1 for the letters diouxXfFeEgGaAcsp and nothing for any other, n included |
| `FormatCount.FlagsCounted` | scripts/check_log_spec.py:113-121 | which flag is accepted with which letter |
| `FormatCount.LengthsCounted` | scripts/check_log_spec.py:102-112 | which length modifier is accepted with which letter |
| `FormatCount.WidthsCounted` | scripts/check_log_spec.py:394-398 | a written width asks for nothing more, a star for one argument more |
| `FormatCount.PrecisionsCounted` | scripts/check_log_spec.py:399-417 | a precision is accepted with numbers and strings only; a star asks for one argument more, two stars for two |
| `FormatCount.UnfinishedNotCounted` | scripts/check_log_spec.py:408-429 | an unfinished specification has no count, and a doubled percent sign counts 0 |
| `FormatCount.CountsAdd` | scripts/check_log_spec.py:422-437 | two counted formats, one after the other, ask for the arguments of both |

## Left out

- Engines and devices: HIXL, ADXL, ACL and UbMem calls are a byte-wise copy in any order that may fail and spoil its own destination.
- Sockets, polling, files and timeouts: channels, a growing set of marker files and failure steps; `WaitForFiles` polls one marker at a time, but its deadline is a failure step without a clock.
- Several callers of `Transfer` at once, and stopping or failing to start the worker threads.
- Models that are not shared: every rank puts its own bytes at the same pool addresses, so only the barriers and the executor are claimed for them.
- Reports: the key distribution over segments, CSV, JSON, bandwidth and percentiles are computed from finished results and feed nothing back.
- Parsing of command lines, token lengths and JSON models; `BuildWorkloads` starts from parsed key counts, and `BuildPowerOfTwoBlockRange` is not modelled.
- Memory order: the atomics are relaxed in the source; the results on one cell hold for any order, those that compare cells are about one global order.
- TwoLevelBarrier: the two levels are composed as `StepBarrier` and `TcpBarrier` characterise them, not message by message; connections that break without a word and targets that several workers of one process share are in those two models only.
- Several timer services: the id counter is shared by all of them in the source; a run here starts with it anywhere and has one service.
- Timer handles: a handle is the timer's id; using a handle after its timer was deleted, which the source does not guard against, is not modelled.
- The masking of comments and literals in the log checker, and the comparison of its count with the arguments of a call.
