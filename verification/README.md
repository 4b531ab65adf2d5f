# A verified model of the KV-cache offload engine

The engine moves blocks of a language model's key-value cache between GPU memory, a pool of staging slots in
host memory and files on disk, and decides per request whether a prefix is loaded, staged in the background or
recomputed. This project models five of its parts and proves what they keep in every run.

- **Interpolant and cost tables** (`Pchip`, `PchipShape`, `PchipSlopes`, `CostModel`). The Fritsch-Carlson interpolant
  over the reals and the tables baked from it. Monotonicity is proved without calculus: every normalised segment cubic is
  a mixture of four corner cubics, each a combination of cubes.
- **Staging cache** (`StagingCache`, `StagingCacheRuns`, `StagingCacheArc`, `StagingCacheObjects`) with its LRU and ARC
  policies, pins and pull-based eviction, and the pool of slots (`StagingPool`).
- **Block mapping and pointers** (`Transfer`, `RoundTrip`, `FusedLoad`, `MergedDuration`): splitting, mapping and
  pointer filling, as arrays are filled, and what a store followed by a load, or a fused batch of loads, does to memory.
- **Load planner** (`Planning` in `LoadPlanner.dfy`, `LoadPlannerRuns`, `LoadPlannerVerdicts`, `LoadPlannerExamples`,
  `LoadPlannerObject`): the shadow storage queue, deadlines, read budget, delivery times and verdicts, over every
  sequence of planning calls.
- **I/O reactor** (`ReactorState`, `ReactorSlots`, `Reactor`, `ReactorObject` and the proofs): the single thread that
  takes slots through opens, reads, writes, GPU copies, private and shared preloads and the cache.

## How it is put together

Where the program is an object that changes its fields, there is a class with those fields (`LruPolicy`,
`ArcPolicy`, `StagingDataCache`, `Pool`, `LoadPlanner`, `IoReactor`), and each method is proved to carry out a
function on values; the theorems are about runs of those functions.

The reactor is a state machine. An event is an intake, the completion of any operation or copy with any result, or
one scheduling step; the results of foreign calls are parameters of the event. `ReactorObject.IoReactor` has the
program's fields and loops, and each loop is proved to be a run of the machine. Its other methods are proved
to do what the machine's function of the same step does; the table below lists only those with loops or searches.

Its proof is a conservation argument. Everything that is somewhere in a state - a slot, a file under way, a unit
of device budget, a preload under way, a reference to a slot - is a token (`ReactorTokens`), and `Total` counts
the tokens of all collections. In the middle of a step some tokens are in no collection; they are passed along as
`held`. A small move (`ReactorMoves`, `ReactorDemandMoves`) takes tokens from one collection and puts them into
another, and `Sound(s, held)` says that state and held tokens together add up. A step is a chain of moves
(`ReactorSafety`, `ReactorRuns`). `ReactorTheorems`, `ReactorGuarantees` and `ReactorOutcomes` read the results off
in terms of the state alone; `ReactorQueues` covers the order within queues and the fate of parked demand.

What each event does is stated a second time, in terms of the state before and after alone and of facts that hold in every
reachable state, without the functions that carry it out: arrivals in `ReactorAnnouncements`, the routes of a load's next
file in `ReactorRoutes`, opens and reads in `ReactorReads`, their completions in `ReactorCompletions` and
`ReactorSharedReads`, stores in `ReactorStores`, batches of copies and finished jobs in `ReactorBatches`, and the choice
and return of slots in `ReactorRetention`. `ReactorBytes` says when a slot's bytes change, `ReactorTurns` how far each
loop of a turn goes.

`ReactorFrames` and `ReactorConfig` say what a step leaves alone. On them rest what a failed store leaves behind
(`ReactorPersistence`) and the end-to-end result (`ReactorDelivery`): a load that succeeded has put the bytes of
every one of its files into the GPU blocks they are for. `ReactorProgress` shows that a reactor with nothing
outstanding moves on, and `IoReactor.PumpOnce` that one turn of its thread does.

Disk is immutable: the file of a hash holds the bytes of that hash. `memory` says which hash's bytes a slot holds;
it loses the slot when a read or a store's copy into it begins, and gains it when that completes in full.

## What the code does that one might not expect

- `StagingDataCache.put` still inserts when every resident is pinned, so the size can pass the capacity
  (`StagingCacheRuns.StepGrowsPastCapacityIff` says exactly when).
- The module text of `staging_cache.py` says that store buffers are never cached; the reactor does cache them after
  a successful write (`py_kvcache/reactor.py:1160-1162`). The model follows the code.
- `split_block_ids_for_files` with no files accepts any block ids and drops them.
- Splitting and mapping accept a destination that ends inside a file, but then pair it with the wrong sub-blocks:
  `Transfer.AlignedIffFullLength` gives the exact condition.
- The planner's storage wait can go down within a call (`LoadPlannerRuns.WaitDropsIff` says exactly when,
  `LoadPlannerExamples.WaitDropsExample` is a run in which it does).
- ARC evicts before it looks the key up among its ghosts, so the victim of a put can push out the very ghost the put is for, and
  the target stays (`StagingCacheArc.GhostHitMovesTarget` says exactly when, `StagingCacheArc.CrowdedOutExample` is a run).
- A DEFER whose blocks are all on their way can still bring a delivery forward, when it is repeated and its own read
  is ahead (`LoadPlannerRuns.CoveredDefer`, `LoadPlannerExamples.RepeatedDeferMoves`).
- The modelled service time can fall with more blocks although both measured curves rise (`CostModel.ServiceRisesIff`,
  `CostModel.ServiceCanFall`).
- An interpolant built from more values than knots is accepted, and the surplus goes unnoticed (`Pchip.Construct`).
- A promoted preload whose open cannot be submitted leaves a load waiting for a read that does not exist
  (`ReactorOutcomes.PromotionNeedsOpen`; `ReactorExamples.PromotionReached` is a run that gets there). Runs exclude
  exactly that refusal.
- A store that fails leaves its unstarted files announced for ever, and what is parked on them parked
  (`ReactorPersistence.LeftForEver`; `ReactorExamples.LeftoverReached` is a run that ends that way).
- With shared preloading a promotion does not look at the preload share of the slots, so that bound is claimed for
  private preloading only.

## Model

| member | source | states |
|---|---|---|
| Pchip.Derivatives | py_kvcache/_pchip.py:20-40 | for knots that increase: failure exactly for fewer than two knots or fewer values than knots, further values not being looked at; otherwise one slope per knot that follows from the data: zero between secants of different signs, their weighted harmonic mean between secants of the same sign, at either end the slope there of the parabola through the three outermost knots, moved to the nearest value between zero and three times the outermost secant |
| PchipSlopes.NarrowerCountsMore | py_kvcache/_pchip.py:30-36 | between different secants of one sign the slope is below, at or above their plain harmonic mean exactly when the left segment is narrower, equally wide or wider: the narrower neighbour counts more |
| PchipSlopes.LeavesAlongSlope | py_kvcache/_pchip.py:66-80 | the curve leaves every knot with the slope computed for it, up to a multiple of the squared distance |
| PchipSlopes.ArrivesAlongSlope | py_kvcache/_pchip.py:66-80 | and arrives at it with the same slope |
| PchipSlopes.StraightOutside | py_kvcache/_pchip.py:66-72 | outside the knots it goes on in a straight line with the slope of the outermost knot |
| Pchip.Construct | py_kvcache/_pchip.py:50-64 | construction fails exactly for no data, fewer than two knots after anchoring, knots that do not increase, or fewer values than knots; otherwise the knots are the anchored data and the slopes theirs |
| Pchip.BisectRight | py_kvcache/_pchip.py:73 | the number of knots at or left of a point |
| PchipShape.EdgeBounded | py_kvcache/_pchip.py:10-17 | the boundary slope has the sign of its secant and at most three times its size |
| PchipShape.EdgeOdd | py_kvcache/_pchip.py:10-17 | negating the data negates the boundary slope |
| PchipShape.InteriorBounded | py_kvcache/_pchip.py:30-36 | an interior slope is within [0, 3] times both neighbouring secants, and zero at an extremum or next to a flat piece |
| PchipShape.SegmentSlopesBounded | py_kvcache/_pchip.py:20-40 | both end slopes of every segment have a ratio in [0, 3] to its secant, for any increasing knots and any data |
| PchipShape.CornersMonotone | py_kvcache/_pchip.py:76-80 | the four corner cubics are monotone on [0, 1] |
| PchipShape.PhiMonotone | py_kvcache/_pchip.py:76-80 | every normalised segment cubic with slope ratios in [0, 3] is monotone on [0, 1] |
| PchipShape.HermiteMonotone | py_kvcache/_pchip.py:73-80 | a Hermite segment with such end slopes runs monotonically from its left to its right value and never leaves the interval between them |
| PchipShape.SearchFindsSegment | py_kvcache/_pchip.py:73 | the binary search finds the segment that holds a point |
| PchipShape.HitsEveryKnot | py_kvcache/_pchip.py:66-80 | the curve passes through every knot |
| PchipShape.MonotoneBetweenKnots | py_kvcache/_pchip.py:66-80 | between neighbouring knots the curve is monotone and stays between the two knot values |
| PchipShape.NondecreasingEverywhere | py_kvcache/_pchip.py:50-80 | nondecreasing data, floor anchor included, makes the whole curve with both linear extrapolations nondecreasing on all reals |
| PchipShape.NondecreasingIffDataIs | py_kvcache/_pchip.py:50-80 | the whole curve is nondecreasing if and only if the anchored data is |
| CostModel.BuildInterpolator | py_kvcache/cost_model.py:49-52 | a curve is interpolated exactly when its anchored knots increase and there are two of them |
| CostModel.GoldenOkIff | py_kvcache/cost_model.py:119-125 | the self-check accepts exactly the values within the absolute or the relative tolerance |
| CostModel.BuildCostTables | py_kvcache/cost_model.py:55-116 | baking succeeds exactly for valid arguments, curves that can be interpolated and golden points that agree; every table is nonnegative and samples its curve at each block count, service time being the nonnegative difference of disk and memory time |
| CostModel.AccessorsMonotone | py_kvcache/cost_model.py:29-46 | with rising curves the recompute, disk and memory prices of more blocks are never lower, for any block counts, clamped ones included |
| CostModel.ServiceRisesIff | py_kvcache/cost_model.py:94-107 | the service time does not fall between two block counts if and only if it was zero at the first or the memory price gains no more than the disk price |
| CostModel.ServiceCanFall | py_kvcache/cost_model.py:94-107 | two rising curves for which the service time does fall |
| CostModel.CurveHitsKnots | py_kvcache/cost_model.py:49-52 | every measured knot lies on the interpolated curve |
| CostModel.TableHitsKnots | py_kvcache/cost_model.py:94-107 | a block count whose tokens are a measured knot is priced at the measured value |
| StagingPool.Pool.Make | py_kvcache/staging.py:12-19 | a pool is built exactly for a positive slot count; all slots are free at first, in order |
| StagingPool.Pool.TryReserve | py_kvcache/staging.py:35-41 | takes the most recently freed slot, yields nothing when none is free, fails when closed |
| StagingPool.Pool.Release | py_kvcache/staging.py:43-48 | appends the slot, ignores it once closed, refuses an index that is not a slot |
| StagingPool.Pool.Close | py_kvcache/staging.py:50-54 | closing drops the free list, once |
| StagingPool.ComputeSlotCount | py_kvcache/staging.py:21-29 | as many slots as the memory holds, but at least the minimum and one |
| StagingCacheObjects.LruPolicy.Admit | py_kvcache/staging_cache.py:36-38 | a new key goes behind all others |
| StagingCacheObjects.LruPolicy.Touch | py_kvcache/staging_cache.py:40-42 | a used key goes behind all others |
| StagingCacheObjects.LruPolicy.Evict | py_kvcache/staging_cache.py:44-45 | the key leaves the order |
| StagingCacheObjects.LruPolicy.Victims | py_kvcache/staging_cache.py:47-48 | victims are offered oldest first |
| StagingCacheObjects.ArcPolicy.constructor | py_kvcache/staging_cache.py:66-72 | empty lists, target zero, capacity at least one |
| StagingCacheObjects.ArcPolicy.Admit | py_kvcache/staging_cache.py:74-87 | a ghost hit moves the target by the ratio of the ghost lists and enters T2, any other key enters T1, ghosts are trimmed; which way, and by how much, is said without this method by StagingCacheArc.ArcMiss |
| StagingCacheArc.ArcMiss | py_kvcache/staging_cache.py:74-87 | a miss, once room has been made: a ghost of T1 raises the target, strictly below c, and a ghost of T2 lowers it, strictly above zero, by the size of the other ghost list over that of its own, at least one, clipped; the key joins T2 at its end and leaves its ghost list; any other key joins T1 and the target stays |
| StagingCacheArc.GhostSurvivesIff | py_kvcache/staging_cache.py:173-187 | a ghost is still remembered when its put looks for it, unless it is the oldest of a full list and the victim of that same put joins that list |
| StagingCacheArc.GhostHitMovesTarget | py_kvcache/staging_cache.py:74-87 | a put raises the target if and only if its key is a ghost of T1 that is not so crowded out and the target is below c, and lowers it if and only if it is such a ghost of T2 and the target is above zero |
| StagingCacheArc.TargetMovesOnMissOnly | py_kvcache/staging_cache.py:89-103 | no other operation moves the target |
| StagingCacheArc.CrowdedOutExample | py_kvcache/staging_cache.py:173-187 | a run with one slot in which a ghost comes back and is not recognised |
| StagingCacheArc.ArcHit | py_kvcache/staging_cache.py:89-94 | a hit takes a key of T1 to the end of T2 and a key of T2 to its end, and touches nothing else |
| StagingCacheArc.ArcVictim | py_kvcache/staging_cache.py:96-112 | the victim is the oldest key that no copy reads of the list that has outgrown its share, or of the other list if all of the first are being read; it becomes the newest ghost of its own list |
| StagingCacheObjects.ArcPolicy.Touch | py_kvcache/staging_cache.py:89-94 | a used key moves from T1 to T2 or to the end of T2 |
| StagingCacheObjects.ArcPolicy.Evict | py_kvcache/staging_cache.py:96-103 | an evicted resident becomes a ghost of its list |
| StagingCacheObjects.ArcPolicy.Victims | py_kvcache/staging_cache.py:105-112 | T1 is offered first when it has outgrown the target, else T2 |
| StagingCacheObjects.ArcPolicy.TrimGhosts | py_kvcache/staging_cache.py:125-129 | each ghost list keeps its last `c` keys |
| StagingCacheObjects.StagingDataCache.constructor | py_kvcache/staging_cache.py:152-155 | an empty cache of the chosen policy, negative capacities taken as zero |
| StagingCacheObjects.StagingDataCache.Make | py_kvcache/staging_cache.py:139-144 | exactly the two policy names are known |
| StagingCacheObjects.StagingDataCache.Get | py_kvcache/staging_cache.py:167-171 | a hit marks the key as used, a miss changes nothing |
| StagingCacheObjects.StagingDataCache.Put | py_kvcache/staging_cache.py:173-187 | keeps the slot unless the hash is resident or the capacity is zero, after evicting one entry if the cache is full |
| StagingCacheObjects.StagingDataCache.Pin | py_kvcache/staging_cache.py:189-190 | one more copy reads the entry |
| StagingCacheObjects.StagingDataCache.Unpin | py_kvcache/staging_cache.py:192-193 | one copy fewer reads the entry |
| StagingCacheObjects.StagingDataCache.EvictOne | py_kvcache/staging_cache.py:195-205 | drops the first victim that no copy reads and hands back its slot |
| StagingCache.EvictNoneIffAllPinned | py_kvcache/staging_cache.py:195-205 | nothing can be evicted if and only if every resident is pinned |
| StagingCache.EvictRemovesOne | py_kvcache/staging_cache.py:195-205 | an eviction removes exactly one resident, unpinned, and hands back exactly its slot |
| StagingCache.PutAgrees | py_kvcache/staging_cache.py:173-187 | a put keeps cache and policy in agreement |
| StagingCacheRuns.RunAgrees | py_kvcache/staging_cache.py:66-129 | in every run T1, T2, B1 and B2 are disjoint, T1 and T2 are exactly the residents, the target is between 0 and c, each ghost list has at most c keys |
| StagingCacheRuns.StepGrowsPastCapacityIff | py_kvcache/staging_cache.py:173-187 | the size passes the capacity exactly by a put made while the cache was full and every resident pinned |
| StagingCacheRuns.SizeBounded | py_kvcache/staging_cache.py:173-187 | in every run the size exceeds the capacity by at most the number of such puts |
| StagingCacheRuns.LruVictimIsOldestUnpinned | py_kvcache/staging_cache.py:47-48 | after any run, pins included, the LRU victim is the unpinned resident with the oldest last use |
| StagingCacheRuns.RecencyIsByLastAccess | py_kvcache/staging_cache.py:29-48 | the reference order lists each accessed key once, by last access |
| StagingCacheRuns.LruExact | py_kvcache/staging_cache.py:29-51 | without pins or outside eviction the residents are exactly the most recently accessed distinct keys, as many as fit |
| StagingCacheRuns.LruInclusion | py_kvcache/staging_cache.py:29-51 | on the same trace a larger LRU cache contains a smaller one |
| StagingCacheRuns.ArcEviction | py_kvcache/staging_cache.py:96-112 | an unpinned ARC gives up the oldest key of T1 when that has outgrown the target or T2 is empty, else of T2 |
| StagingCacheRuns.ArcScanResistance | py_kvcache/staging_cache.py:74-112 | a scan of any length over unknown keys, with no pins, costs T2 at most max(0, p + 1 - |T1|) keys, p and T1 as at the start |
| Transfer.ExpandBlockIds | py_kvcache/transfer.py:38-57 | writes the sub-blocks of the ids, the skipped front left out, into one column and nothing else; fails exactly when the skip reaches the factor |
| Transfer.BuildBlockMapping | py_kvcache/transfer.py:60-85 | row k pairs the k-th destination sub-block with its source sub-block; fails exactly when the counts do not line up |
| Transfer.LoadMappingLinesUpIff | py_kvcache/transfer.py:60-72 | a staging slot maps onto a chunk exactly when the chunk has 1 to factor ids |
| Transfer.StoreMappingLinesUpIff | py_kvcache/transfer.py:60-72 | a chunk maps onto a staging slot exactly when it is full |
| Transfer.SplitBlockIdsForFiles | py_kvcache/transfer.py:233-256 | chunk i holds the ids of file i, the first file starting at the first block index; fails exactly when ids are left over, except that with no files any ids are dropped |
| Transfer.AlignedIffFullLength | py_kvcache/transfer.py:60-85 | splitting and mapping pair every destination with the stored block at the same distance from the first block if and only if the destination reaches to the end of the last file |
| Transfer.StagingLayerOffsets | py_kvcache/transfer.py:103-110 | each layer starts where the layers before it end |
| Transfer.CellsApart | py_kvcache/transfer.py:95-110 | the (layer, sub-block) regions of a slot do not overlap, whatever the layer sizes |
| Transfer.CellsCover | py_kvcache/transfer.py:95-110 | the regions leave no byte of a slot uncovered |
| RoundTrip.CopyBatchAt | py_kvcache/transfer.py:38-85 | a batch without overlaps puts at every destination what its source held before |
| RoundTrip.MappingsAreBuilt | py_kvcache/transfer.py:60-85 | the rows used in the round trip are those that the mapping method produces |
| RoundTrip.StoredBytes | py_kvcache/transfer.py:38-110 | a stored file holds, at the place of each (layer, sub-block), the bytes of that GPU block |
| RoundTrip.LoadedBytes | py_kvcache/transfer.py:38-110 | a load gives each block of its chunk the bytes of the matching sub-block |
| RoundTrip.OtherBlocksKept | py_kvcache/transfer.py:38-110 | a load leaves every other GPU block alone |
| RoundTrip.StoreThenLoad | py_kvcache/transfer.py:38-256 | store to files, then load from any first block: destination block j of every layer receives exactly the bytes of source block (first mod factor) + j, for ragged layer sizes |
| RoundTrip.StoredThenHeld | py_kvcache/transfer.py:38-110 | a block that holds its part of a stored file has the bytes of the GPU block that part was stored from |
| MergedDuration.CoveredIff | py_kvcache/transfer.py:259-260 | an instant is covered exactly when some sample contains it |
| MergedDuration.MergedDurationNs | py_kvcache/transfer.py:259-271 | the result is the number of instants covered by the union of the samples, in any order |
| Transfer.FillSwapPtrs | py_kvcache/reactor.py:1864-1900 | one entry per layer and mapping row, with the staging and GPU addresses and the size of that sub-block; the rest of the arrays is kept |
| FusedLoad.FillBatch | py_kvcache/reactor.py:1902-1935 | the loop over a batch fills the three arrays with the regions of all its slots, one behind the other, and touches nothing else |
| FusedLoad.BatchIndependent | py_kvcache/reactor.py:1902-1940 | no two regions of a fused batch write the same address and none writes where one reads, shared slots included, so the order in which the device copies them does not matter |
| FusedLoad.FusedBytes | py_kvcache/reactor.py:1902-1940 | each block of each fused file receives, in every layer, the bytes of its sub-block of its slot |
| FusedLoad.FusedElsewhere | py_kvcache/reactor.py:1902-1940 | GPU blocks that no fused file is for keep their bytes |
| LoadPlannerRuns.BoundedDeferral | py_kvcache/load_planner.py:216-330 | an unblocked DEFER leaves a deadline at most the maximum grace ahead; once it has passed, the request gets no unblocked DEFER again, unless it was missing from more than four calls in a row |
| LoadPlannerRuns.CallKeepsDeadline | py_kvcache/load_planner.py:451-463 | a call keeps a deadline if and only if it does not complete an absence of more than four calls |
| LoadPlannerRuns.DeadlinesAlwaysOk | py_kvcache/load_planner.py:435-463 | in every run the absence counters are the absence streaks, and no deadline lies further ahead than the latest call allows |
| LoadPlannerRuns.ResultsAreVerdicts | py_kvcache/load_planner.py:142-356 | one result per candidate, in order |
| LoadPlannerRuns.DecisionIsLastVerdict | py_kvcache/load_planner.py:142-372 | a call has a decision for exactly the requests it was asked about; for one listed more than once it is the verdict on the last of its candidates |
| LoadPlannerRuns.QueueAlwaysOk | py_kvcache/load_planner.py:386-422 | whatever the clock does, consecutive modelled reads are contiguous, there is one per request, and the index agrees with the queue; with a clock that never runs back the front read has begun |
| LoadPlannerRuns.RetireExact | py_kvcache/load_planner.py:386-390 | retirement removes exactly the reads that have ended, and marks their requests |
| LoadPlannerRuns.ResidualExact | py_kvcache/load_planner.py:399-404 | the residual, taken from the last read alone, is the sum of the remaining service of all reads |
| LoadPlannerRuns.ResidualIsTotal | py_kvcache/load_planner.py:399-404 | the same for any contiguous queue that has begun |
| LoadPlannerRuns.EarliestAttained | py_kvcache/load_planner.py:38-46 | each remembered delivery time is the old one or that of some delivery |
| LoadPlannerRuns.UnchangedIffLate | py_kvcache/load_planner.py:38-46 | recording a read changes nothing exactly when it delivers nothing new and nothing earlier |
| LoadPlannerRuns.DeliveriesSpread | py_kvcache/load_planner.py:38-46 | blocks of a read are delivered in order, none before its start, the last at its end |
| LoadPlannerRuns.DistinctCountIsUncovered | py_kvcache/load_planner.py:21-22 | for distinct hashes the count is the number of hashes no read covers |
| LoadPlannerRuns.BudgetPaysForFreshHashes | py_kvcache/load_planner.py:134-330 | the budget spent is exactly the number of hashes that newly scheduled reads are the first to cover |
| LoadPlannerRuns.CallBudget | py_kvcache/load_planner.py:134-330 | a whole call schedules at most the maximum number of uncovered hashes, and prices with the earliest recorded delivery of each hash |
| LoadPlannerRuns.StagedAtIsEarliest | py_kvcache/load_planner.py:38-46 | after any candidates the delivery times are the earliest over all recorded reads |
| LoadPlannerRuns.CoveredReadyIsLatest | py_kvcache/load_planner.py:49-53 | the covered-ready time is the latest delivery among covered hashes, zero if there is none |
| LoadPlannerRuns.CoveredDefer | py_kvcache/load_planner.py:216-330 | an unblocked DEFER whose hashes are all covered never spends budget or lengthens the storage wait; it changes no delivery time if and only if the request has no modelled read or that read delivers nothing earlier |
| LoadPlannerRuns.FreeRiding | py_kvcache/load_planner.py:260-330 | in particular a request without a modelled read changes no delivery time |
| LoadPlannerRuns.OutstandingRiding | py_kvcache/load_planner.py:216-258 | a repeated DEFER charges nothing, covered or not, and changes no delivery time exactly when its own read delivers nothing new and nothing earlier |
| LoadPlannerExamples.RepeatedDeferMoves | py_kvcache/load_planner.py:216-258 | a run of two calls in which a repeated DEFER with all hashes covered brings a delivery forward |
| LoadPlannerVerdicts.FreshVerdict | py_kvcache/load_planner.py:260-354 | a request with blocks to load that is not blocked, hinted, resident or modelled is declined if and only if recomputing, GPU wait and table price added, finishes no later than loading, where its blocks arrive with the latest covered one and behind the storage wait, the GPU is free and they are copied; else admitted if and only if its deadline has passed or its missing hashes exceed the remaining budget; else deferred with all its blocks prefetched |
| LoadPlannerVerdicts.OtherVerdicts | py_kvcache/load_planner.py:143-258 | the verdict and the prefetch of every other candidate: being written, nothing to load, resident or hinted, overdue, still modelled |
| LoadPlannerVerdicts.RecomputePrice | py_kvcache/load_planner.py:382-384 | the recompute time of tokens that fill n blocks, the last one perhaps in part, is the table entry of n |
| LoadPlannerVerdicts.GpuWaitIsDeclined | py_kvcache/load_planner.py:133-277 | after any candidates of a call the GPU wait is the sum of the recompute times of those declined so far |
| LoadPlannerVerdicts.CallStartsWith | py_kvcache/load_planner.py:126-138 | a call starts with a free GPU, the whole budget, nothing covered, and the longer of what modelled reads and running loads still need as storage wait |
| LoadPlannerVerdicts.FreshEffects | py_kvcache/load_planner.py:275-354 | what each decision about such a request changes, and nothing else: declining the GPU wait, admitting the storage wait, deferring the budget, the queue, the deadline and the recorded deliveries |
| LoadPlannerVerdicts.BlockedEffects | py_kvcache/load_planner.py:143-183 | a request whose blocks are being written: its read is queued and recorded if the budget allows, a modelled one is recorded again, and no deadline is armed |
| LoadPlannerVerdicts.OtherEffects | py_kvcache/load_planner.py:185-258 | every other request: nothing to load keeps the GPU busy, an admission uses up the hint, a repeated DEFER arms the deadline by what its read still needs and records that read again; nothing else changes |
| LoadPlannerVerdicts.HintKept | py_kvcache/load_planner.py:386-433 | a request has a staged hint at the start of a call if and only if it had one or its read has just retired, and it is present or was not absent too often in a row |
| LoadPlannerRuns.WaitDropsIff | py_kvcache/load_planner.py:295-298 | the storage wait decreases over a candidate if and only if it is an overdue request whose blocks all arrive with other reads before the queue has drained |
| LoadPlannerExamples.WaitDropsExample | py_kvcache/load_planner.py:295-298 | a run of three calls in which it does: a staged request is admitted, and comes back overdue behind a longer read that covers its block |
| LoadPlannerObject.CountDistinct | py_kvcache/load_planner.py:21-22 | counts the hashes not yet covered |
| LoadPlannerObject.CoveredReadyIn | py_kvcache/load_planner.py:49-53 | finds the latest delivery among covered hashes |
| LoadPlannerObject.RecordStaged | py_kvcache/load_planner.py:25-46 | keeps the earliest delivery of each hash of the read |
| LoadPlannerObject.LoadPlanner.constructor | py_kvcache/load_planner.py:89-114 | a new planner remembers nothing |
| LoadPlannerObject.LoadPlanner.Plan | py_kvcache/load_planner.py:116-368 | one call retires, forgets and then decides candidate by candidate; the object ends in the state, and returns the decisions, of the fold over the candidates, whose verdicts LoadPlannerVerdicts states from the tables, the waits and the budget alone |
| LoadPlannerObject.LoadPlanner.PlanCandidate | py_kvcache/load_planner.py:142-354 | one candidate: state, waits, budget, deliveries and result of the step function |
| LoadPlannerObject.LoadPlanner.PlanBlockedCandidate | py_kvcache/load_planner.py:143-183 | a candidate whose blocks are being written |
| LoadPlannerObject.LoadPlanner.PlanOutstandingCandidate | py_kvcache/load_planner.py:216-258 | a candidate that already waits for a modelled read |
| LoadPlannerObject.LoadPlanner.PlanFreshCandidate | py_kvcache/load_planner.py:260-354 | a candidate without a modelled read: recompute, load now or stage, in the cases that LoadPlannerVerdicts.FreshVerdict states without it |
| LoadPlannerObject.LoadPlanner.Reset | py_kvcache/load_planner.py:374-380 | forgets everything |
| LoadPlannerObject.LoadPlanner.RetireShadowEntries | py_kvcache/load_planner.py:386-397 | pops ended reads from the front |
| LoadPlannerObject.LoadPlanner.ShadowResidual | py_kvcache/load_planner.py:399-404 | for a contiguous queue that has begun, the sum of the service all modelled reads still need |
| LoadPlannerObject.LoadPlanner.JobsFloorOf | py_kvcache/load_planner.py:406-407 | service time of the loads already running |
| LoadPlannerObject.LoadPlanner.AppendShadowEntry | py_kvcache/load_planner.py:409-422 | a read joins the queue behind the last one |
| LoadPlannerObject.LoadPlanner.GcStagedEntries | py_kvcache/load_planner.py:424-433 | presence resets, long absence drops a staged hint |
| LoadPlannerObject.LoadPlanner.ArmDeadline | py_kvcache/load_planner.py:435-449 | only the first DEFER arms the deadline |
| LoadPlannerObject.LoadPlanner.GcDeadlineEntries | py_kvcache/load_planner.py:451-463 | presence resets, long absence drops a deadline |
| ReactorRuns.InitialInv | py_kvcache/reactor.py:235-300 | a new reactor satisfies the invariant: all slots free, nothing counted |
| ReactorRuns.StepKeeps | py_kvcache/reactor.py:610-2043 | every intake, completion, scheduling step, flush and finish keeps the invariant, with sharing on and off and whatever the foreign calls answer, with one exception: the open of a promoted preload is not refused |
| ReactorRuns.RunKeeps | py_kvcache/reactor.py:561-567 | so does every run without that refusal |
| ReactorRuns.Reachable | py_kvcache/reactor.py:561-567 | every state of every run from a new reactor, without that refusal, satisfies the invariant |
| ReactorTheorems.OneOwner | py_kvcache/reactor.py:482-546 | in every reachable state each staging slot has exactly one owner: the free list, a read, a write, a store copy, an owned load copy, a private preload, a shared slot object or a cache entry |
| ReactorTheorems.NoStraySlots | py_kvcache/reactor.py:482-546 | and no owner holds anything that is not a staging slot |
| ReactorTheorems.CopiesReadTheirBytes | py_kvcache/reactor.py:795-833 | every load copy, queued or under way, reads a slot that holds exactly the bytes of its file and that is neither free nor being written, whether they came from a read, a preload, the cache or a store |
| ReactorTheorems.StagedBytes | py_kvcache/reactor.py:1143-1169 | slots being written to disk, cache entries, shared slots and private preloads hold the bytes of their hash |
| ReactorGuarantees.ReferenceCounts | py_kvcache/reactor.py:482-491 | the counts of shared slots and cache entries are the numbers of copies reading them, and an unclaimable shared slot is still being read |
| ReactorGuarantees.BudgetsHold | py_kvcache/reactor.py:1171-1177 | the device budget counts reads, writes and store copies and never exceeds the I/O depth; opens and open files never exceed the lookahead |
| ReactorGuarantees.OpensWithinLookahead | py_kvcache/reactor.py:1175-1177 | another file may be opened exactly when fewer files than the lookahead are being opened or are open |
| ReactorGuarantees.PrivateShare | py_kvcache/reactor.py:1201-1203 | with sharing off, staged and running preloads never exceed the slots not reserved for foreground loads |
| ReactorGuarantees.InflightCounts | py_kvcache/reactor.py:374-391 | the count per hash is its preload opens, open files and reads, and the total is their sum |
| ReactorGuarantees.NobodyStranded | py_kvcache/reactor.py:393-416 | with sharing off no more files wait on a hash than preloads of it are under way; with sharing on a waiting file has a preload under way |
| ReactorGuarantees.OnePreloadPerHash | py_kvcache/reactor.py:454-461 | with sharing on: one live queue entry, read or claimable slot per hash; nothing for a missing or blocked hash; an unclaimed preload under way leaves no queue entry, cancelled ones included; a claimable slot has demand |
| ReactorGuarantees.QueueOnlyIfNothingShared | py_kvcache/reactor.py:454-461 | with sharing on, queueing one more demand for a hash keeps it unique, and the invariant, if and only if no slot, read, queue entry, parked or missing demand exists for the hash |
| ReactorGuarantees.DemandNeverUndercounted | py_kvcache/reactor.py:498-512 | with sharing on the demand count of a hash covers every request on record as wanting it, and withdrawing one lowers record and count by exactly one, for that hash only |
| ReactorQueues.ServesLongestWaiting | py_kvcache/reactor.py:400-407 | the file that has waited longest for the hash is served, all others keep their places |
| ReactorQueues.PushesBehind | py_kvcache/reactor.py:351-359 | a new private copy goes behind those of its hash and changes no other queue |
| ReactorQueues.ClaimsOldest | py_kvcache/reactor.py:361-369 | the oldest private copy of a hash is claimed and no other queue changes |
| ReactorQueues.StaysGrouped | py_kvcache/reactor.py:351-369 | copies of one hash stay together, as in the table of queues |
| ReactorQueues.ParkedDemandWakes | py_kvcache/reactor.py:1456-1487 | after the last successful store of an uncached block the demand parked on it is queued again, all of it in order, or one entry for all with sharing on |
| ReactorQueues.FailedStoreDropsDemand | py_kvcache/reactor.py:1461-1466 | after a failed one nothing is queued and nothing stays parked |
| ReactorQueues.AnnouncedStoreParksDemand | py_kvcache/reactor.py:709-728 | with sharing off, announcing a store parks the known-missing demand of every other request and keeps what was parked |
| ReactorQueues.AnnouncedStoreParksShared | py_kvcache/reactor.py:709-728 | with sharing on, it parks the one demand that stands for the missing hash, as its only mark, if and only if demand is left after the producer's is withdrawn |
| ReactorQueues.OneMarkPerHash | py_kvcache/reactor.py:895-930 | with sharing on, one demand stands for all that want a missing hash and one for all that wait for its store, never both |
| ReactorDemandSafety.InstalledPart | py_kvcache/reactor.py:1116-1119 | a finished shared read that is installed breaks none of this |
| ReactorSlotSafety.InstallSound | py_kvcache/reactor.py:1116-1119 | installing it never replaces a slot: it is added to the claimable ones |
| ReactorBytes.BytesArriveIff | py_kvcache/reactor.py:936-1141 | in every step a slot comes to hold the bytes of a hash if and only if a read of that hash into it, or a store's copy of it, did what it should: a failed read is never taken for them |
| ReactorBytes.BytesLostOnlyToFilling | py_kvcache/reactor.py:1682-1794 | a slot loses its bytes only when it is given to a read or a store's copy |
| ReactorBytes.FillingIsAlone | py_kvcache/reactor.py:936-1141 | nothing else fills a slot whose filling is over |
| ReactorBytes.BeingFilledIsBlank | py_kvcache/reactor.py:936-1141 | a slot that is being filled has nobody's bytes |
| ReactorCompletions.LoadReadCompletes | py_kvcache/reactor.py:950-969 | a load's read: in full, the slot has the bytes and a copy that owns it is queued, and nothing ends; else no copy is queued, the file has failed, and the slot is free and has nobody's bytes |
| ReactorCompletions.PrivateReadCompletes | py_kvcache/reactor.py:971-1047 | a private preload's read: in full, it goes to the file that has waited longest, or is staged behind the others of its hash; else the slot is free and that file has failed |
| ReactorSharedReads.SharedReadDelivers | py_kvcache/reactor.py:1049-1121 | a shared preload's full read: all waiting files copy from its slot, in order, the demand of their requests is met, and the slot becomes the claimable one of its hash if and only if demand is left; else the copies keep it, and with no copies it is given back |
| ReactorSharedReads.SharedReadFails | py_kvcache/reactor.py:1122-1141 | its failed read: all waiting files have failed, in order, and the slot is free and has nobody's bytes |
| ReactorCompletions.LoadOpenCompletes | py_kvcache/reactor.py:895-948 | a load's open: the file is ready to be read, or has failed |
| ReactorCompletions.PreloadOpenCompletes | py_kvcache/reactor.py:895-948 | a preload's open: the file is ready to be read, or those that wait fail, all of them with shared preloading and else the first; if nobody waits, its demand is parked on a store under way, and otherwise remembered as missing within the cap |
| ReactorCompletions.CloseCompletes | py_kvcache/reactor.py:890-893 | a close only leaves the ring, whatever its result |
| ReactorStores.WriteCompletes | py_kvcache/reactor.py:1143-1169 | a write: in full, the file is done, its slot is given back and the store is over; else the file has failed and the slot is free; what the end of the last announced store queues, parks or forgets is spelled out |
| ReactorStores.StoreCopyCompletes | py_kvcache/reactor.py:835-873 | a store's copy from the GPU: the slot has the block's bytes and the write is submitted from it, or the file has failed and the slot is free |
| ReactorStores.StoreNextDoes | py_kvcache/reactor.py:1765-1794 | a store's next file: nothing if no slot can be had; else its copy begins, and if that is refused the file has failed |
| ReactorBatches.BatchCompletes | py_kvcache/reactor.py:795-833 | a batch of load copies: all files are done, in order, and each copy gives back what it holds - a reader of a cache entry, its own slot, or a reader of a shared slot with the slot if it was the last and nobody can claim it |
| ReactorBatches.FlushDoes | py_kvcache/reactor.py:1902-1960 | all queued copies are launched together in order, or all of their files have failed and each copy gives back what it holds |
| ReactorBatches.FinishDoes | py_kvcache/reactor.py:2028-2043 | exactly the active jobs whose future is resolved and that have no file under way are dropped, the others keep their order |
| ReactorRetention.GoesBack | py_kvcache/reactor.py:1257-1271 | a slot given back goes to the cache exactly if there is one that keeps anything and does not have the block, for which a full cache gives up a resident that no copy reads; otherwise it is free |
| ReactorRetention.KeptIff | py_kvcache/reactor.py:1257-1271 | so the block is in the cache afterwards if and only if it was before or the cache keeps anything |
| ReactorRetention.ForegroundOrder | py_kvcache/reactor.py:1241-1248 | a reservation takes the newest free slot, else the cache's victim, else the oldest shared slot that no copy reads or the first private copy, else nothing |
| ReactorRetention.SpareOrder | py_kvcache/reactor.py:1250-1255 | a speculative one takes the newest free slot, else the cache's victim, else nothing: never another preload's |
| ReactorRoutes.EntriesCounted | py_kvcache/reactor.py:427-438 | the count of queued preloads of a hash is the number of its entries in the queue |
| ReactorRoutes.RouteIff | py_kvcache/reactor.py:1317-1362 | by which route the next file of a load goes, one condition on the state for each: copied from the cache if and only if its block is there; else from a claimable shared slot or the oldest private copy if and only if there is one; else it waits for a preload if and only if one is under way that it may wait for; else nothing changes if and only if no more files may be opened; else a preload is opened for it if and only if preloads are shared and one is queued; else its own file is opened, or has failed if that is refused; with what each route changes |
| ReactorAnnouncements.PreloadRequestDoes | py_kvcache/reactor.py:670-698 | each hash of a request in order: nothing if it is cached or on record; else it goes on record and, with shared preloading, the demand grows and a preload is queued if and only if nothing of the hash exists; with private preloading it is queued, or joins a known miss |
| ReactorAnnouncements.LoadRequestDoes | py_kvcache/reactor.py:699-706 | an accepted load becomes an active job and its hashes are no longer known to be missing; a declined one is answered and never active |
| ReactorAnnouncements.StoreRequestDoes | py_kvcache/reactor.py:707-729 | each block of a store is announced in order: with shared preloading the producer's demand is withdrawn, what was known to be missing waits for the store, other than the producer's own; then the job is active |
| ReactorReads.LoadFdDoes | py_kvcache/reactor.py:1430-1440 | the file that was opened first is read into the slot that can be had; if the read is refused, the slot is free again and the file has failed |
| ReactorReads.PreloadFdDoes | py_kvcache/reactor.py:1489-1534 | the first open preload: with a file waiting it is read into a foreground slot; else it gives way, its demand queued again, if and only if a load wants the disk; else it is read into a spare slot |
| ReactorReads.PressureIff | py_kvcache/reactor.py:1179-1196 | a load wants the disk if and only if a load's file is being opened, open or read, or the next file of an active load is neither cached, claimable nor under way |
| ReactorReads.CancelledDoes | py_kvcache/reactor.py:1422-1428 | a cancelled preload leaves the queue, and its cancellation with it |
| ReactorReads.MaySpeculateIff | py_kvcache/reactor.py:1378-1382 | a queued preload may be handled if and only if there is one, a file may be opened, and preloads staged or under way leave the reserved slots alone |
| ReactorReads.SpeculativeOpenDoes | py_kvcache/reactor.py:1380-1411 | a queued preload is handled only while no load wants the disk, a file may be opened and preloads leave the reserved slots alone: dropped if cancelled, parked if its block is being stored, else opened |
| ReactorOutcomes.FileOnce | py_kvcache/reactor.py:2009-2027 | a started file is in exactly one place or has ended exactly once; any other file is nowhere |
| ReactorOutcomes.JobAccounts | py_kvcache/reactor.py:2009-2027 | files started are files under way, done and failed; the job counters are those numbers |
| ReactorOutcomes.FutureOnce | py_kvcache/reactor.py:2009-2043 | a future is resolved at most once: with success if and only if every file was done, with failure if and only if some file failed; a drained job is resolved; a dropped job has nothing under way |
| ReactorOutcomes.SuccessMeansAll | py_kvcache/reactor.py:2009-2027 | success means that each single file was transferred |
| ReactorOutcomes.AnnouncedStores | py_kvcache/reactor.py:1456-1464 | the count of announced stores is exactly the stores under way and the files that stores have not started |
| ReactorOutcomes.LeftoverStoreMark | py_kvcache/reactor.py:1456-1464 | once nothing is active a leftover mark means a failed store that never started that file |
| ReactorExamples.LeftoverReached | py_kvcache/reactor.py:1364-1375 | a run that ends with nothing active or under way and such a mark: a store of two files whose first copy fails |
| ReactorPersistence.StepParks | py_kvcache/reactor.py:1456-1464 | in every step a job stays what it is, a failed one starts nothing more, and parked demand stays parked unless the last announced store of its hash ends |
| ReactorPersistence.LeftForEver | py_kvcache/reactor.py:1456-1464 | from then on, in every run, the hashes a failed store had not started stay marked and the demand parked on them stays parked |
| ReactorOutcomes.NoSlotMeansAllBusy | py_kvcache/reactor.py:1241-1248 | a foreground reservation fails only if no slot is free and every slot is held by a read, a write or a copy, pinned cache entries and shared slots being read included |
| ReactorOutcomes.NoSlotDeadlock | py_kvcache/reactor.py:1241-1248 | so a failed reservation implies an outstanding completion |
| ReactorOutcomes.PromotionNeedsOpen | py_kvcache/reactor.py:1620-1625 | promoting a queued preload keeps the invariant if and only if the open could be submitted; otherwise the load waits for a read that is not there |
| ReactorExamples.PromotionReached | py_kvcache/reactor.py:1334-1343 | a run of two requests that reaches such a promotion |
| ReactorProgress.RestIsReady | py_kvcache/reactor.py:1171-1248 | with nothing outstanding a file may be opened and read and a slot can be had |
| ReactorProgress.JobMovesOn | py_kvcache/reactor.py:1311-1375 | no stall: with nothing outstanding every active job is finished, or its next file starts whatever the ring or the GPU answers, refused promotions apart |
| ReactorDelivery.DoneByDelivery | py_kvcache/reactor.py:795-833 | a file that is not a store's is marked as done only by the completion of a batch that copied it to the GPU |
| ReactorDelivery.SuccessMeansDelivered | py_kvcache/reactor.py:795-833 | for each file of a successful load the run contains that completion, and the copy read a slot that held the bytes of the file's hash and that nobody could change |
| ReactorDelivery.BatchFilesDiffer | py_kvcache/reactor.py:1902-1960 | the files of a fused batch are different files |
| ReactorDelivery.BatchDelivers | py_kvcache/reactor.py:1902-1960 | once the regions of a batch of any reachable state are copied, each block its files are for holds the bytes of its sub-block of that file, whatever else is in memory |
| ReactorDelivery.LoadArrives | py_kvcache/reactor.py:610-2043 | end to end: each file of a load that succeeded was, at some event of the run, copied byte for byte into the GPU blocks it is for, fused batches included |
| ReactorSlotSafety.ReserveForegroundSound | py_kvcache/reactor.py:1241-1248 | a reservation yields a slot nobody else holds, or nothing could be evicted |
| ReactorSlotSafety.ReservePreloadSound | py_kvcache/reactor.py:1250-1255 | the same for a speculative read, which evicts from the cache only |
| ReactorSlotSafety.EvictCacheSlotSound | py_kvcache/reactor.py:1225-1239 | evicting from the cache frees one unread slot, or all entries are being read |
| ReactorSlotSafety.EvictSharedSound | py_kvcache/reactor.py:524-546 | evicting a shared slot frees one that is not being read and drops its demand |
| ReactorSlotSafety.EvictPreloadSound | py_kvcache/reactor.py:1205-1223 | evicting a preload frees one slot |
| ReactorSlotSafety.ReleaseOrCacheSound | py_kvcache/reactor.py:1257-1271 | a slot handed to the cache is kept, or it or a victim is freed, never both |
| ReactorSlotSafety.UncacheSound | py_kvcache/reactor.py:482-486 | a shared slot leaves the claimable ones and keeps its bytes and its readers |
| ReactorSlotSafety.MaybeReleaseSound | py_kvcache/reactor.py:488-491 | a shared slot is given up exactly when neither claimable nor read |
| ReactorSlotSafety.DecrefSound | py_kvcache/reactor.py:498-512 | withdrawing demand lets the last demander's slot go and no other |
| ReactorSlotSafety.SettleSound | py_kvcache/reactor.py:1273-1288 | a copy that is over gives back exactly its hold on the slot |
| ReactorSlotSafety.PreloadPushSound | py_kvcache/reactor.py:351-359 | a private copy joins the table with its slot and bytes |
| ReactorSlotSafety.PreloadDropSound | py_kvcache/reactor.py:361-369 | a private copy leaves the table with its slot and bytes |
| ReactorSlotSafety.NewSharedSound | py_kvcache/reactor.py:1080-1085 | a finished shared read owns its slot through a new object |
| ReactorFileSafety.EndedJobOk | py_kvcache/reactor.py:2009-2027 | ending a file keeps the job's accounts and resolves the future by the first failure or the last success only |
| ReactorMoves.FileTerminalKeeps | py_kvcache/reactor.py:2009-2027 | ending a file that is under way keeps the invariant |
| ReactorMoves.StartFileKeeps | py_kvcache/reactor.py:1562-1563 | starting a file puts it under way once |
| ReactorMoves.NewJobKeeps | py_kvcache/reactor.py:699-729 | a new job starts with nothing under way |
| ReactorMoves.FinishKeeps | py_kvcache/reactor.py:2028-2043 | dropping finished jobs keeps the invariant |
| ReactorDemandSafety.InflightRemovePart | py_kvcache/reactor.py:380-388 | a preload being completed is no longer counted, and with nobody waiting nothing was queued for its hash |
| ReactorDemandSafety.CancelPart | py_kvcache/reactor.py:440-450 | cancelling leaves no live queue entry of the hash with sharing on |
| ReactorDemandSafety.TrimAgrees | py_kvcache/reactor.py:1445-1454 | known misses stay within their cap, oldest dropped first |
| ReactorDemandSafety.StoreEndedPart | py_kvcache/reactor.py:1456-1464 | the end of a store lowers its count and unparks demand with the last one |
| ReactorSafety.FailWaitersKeeps | py_kvcache/reactor.py:514-522 | a failed shared preload fails every waiting file |
| ReactorSafety.FailOneKeeps | py_kvcache/reactor.py:1040-1043 | a failed private preload fails at most one |
| ReactorSafety.ReleaseStoreKeeps | py_kvcache/reactor.py:1456-1487 | the end of a store, with what it wakes, keeps the invariant |
| ReactorSafety.SettleAllKeeps | py_kvcache/reactor.py:829-831 | a batch of copies that is over settles every slot and ends every file |
| ReactorSafety.CopyDoneKeeps | py_kvcache/reactor.py:795-873 | a finished GPU copy keeps the invariant, store copies going on to be written |
| ReactorSafety.PreloadOpenFailedKeeps | py_kvcache/reactor.py:895-934 | a preload whose file is missing fails its waiters or is parked or remembered |
| ReactorSafety.PrivateReadDoneKeeps | py_kvcache/reactor.py:971-1047 | a finished private preload serves one waiting file or is staged |
| ReactorSafety.ServeWaitersKeeps | py_kvcache/reactor.py:1087-1113 | a finished shared preload serves every waiting file from one slot |
| ReactorSafety.SharedReadDoneKeeps | py_kvcache/reactor.py:1049-1141 | a finished shared preload keeps the invariant, success or not |
| ReactorSafety.WriteDoneKeeps | py_kvcache/reactor.py:1143-1169 | a finished write keeps the invariant; its slot may stay as a cache entry |
| ReactorSafety.OpCompletesKeeps | py_kvcache/reactor.py:875-893 | any completion in any order keeps the invariant |
| ReactorSafety.ScheduleLoadKeeps | py_kvcache/reactor.py:1317-1362 | one file of a load, by any of its routes, keeps the invariant |
| ReactorSafety.ScheduleStoreKeeps | py_kvcache/reactor.py:1364-1375 | one file of a store keeps the invariant |
| ReactorSafety.DrainLoadFdKeeps | py_kvcache/reactor.py:1430-1440 | starting a load's read keeps the invariant |
| ReactorSafety.DrainPreloadFdKeeps | py_kvcache/reactor.py:1489-1534 | reading or giving up an open preload keeps the invariant |
| ReactorSafety.SpeculateKeeps | py_kvcache/reactor.py:1380-1411 | handling a pending entry keeps the invariant |
| ReactorSafety.FlushKeeps | py_kvcache/reactor.py:1902-1960 | launching the queued copies, or failing to, keeps the invariant |
| ReactorRuns.IntakeDemandKeeps | py_kvcache/reactor.py:670-698 | new demand keeps the invariant |
| ReactorRuns.IntakeLoadKeeps | py_kvcache/reactor.py:699-706 | a new load keeps the invariant, whichever way the break-even gate, a parameter here, decides |
| ReactorRuns.IntakeStoreKeeps | py_kvcache/reactor.py:707-729 | a new store, with the demand it parks, keeps the invariant |
| Reactor.LoadProgress | py_kvcache/reactor.py:1317-1362 | scheduling a load starts exactly one more file, or changes nothing because no more files may be opened |
| Reactor.StoreProgress | py_kvcache/reactor.py:1536-1541 | scheduling a store starts exactly one more file if a slot can be had |
| ReactorObject.IoReactor.constructor | py_kvcache/reactor.py:235-300 | a new reactor is in the initial state of the machine |
| ReactorObject.IoReactor.PurgeOwnedForHash | py_kvcache/reactor.py:493-496 | changes the fields exactly as the machine does: forgets who demanded a hash, and nothing else |
| ReactorObject.IoReactor.EvictOneSharedSlot | py_kvcache/reactor.py:524-546 | changes the fields exactly as the machine does: evicts the oldest shared slot that is not being read |
| ReactorObject.IoReactor.RememberKnownMissing | py_kvcache/reactor.py:1445-1454 | changes the fields exactly as the machine does: remembers a miss, dropping the oldest beyond the cap |
| ReactorObject.IoReactor.FailAllPreloadWaiters | py_kvcache/reactor.py:514-522 | changes the fields exactly as the machine does: fails every file waiting for a hash and says whether there was one |
| ReactorObject.IoReactor.SettleCopies | py_kvcache/reactor.py:829-831 | changes the fields exactly as the machine does: settles a batch in order |
| ReactorObject.IoReactor.ServeWaiters | py_kvcache/reactor.py:1087-1113 | changes the fields exactly as the machine does: every waiting file copies from the shared slot |
| ReactorObject.IoReactor.OnCompletion | py_kvcache/reactor.py:879-892 | changes the fields exactly as the machine does: one completion of the ring, unknown numbers being ignored; what each result of each operation means is said by ReactorCompletions, ReactorSharedReads and ReactorStores |
| ReactorObject.IoReactor.PreloadHasCopy | py_kvcache/reactor.py:463-470 | true exactly when the block is cached, staged or on its way |
| ReactorObject.IoReactor.HasRealLoadPressure | py_kvcache/reactor.py:1179-1196 | true exactly when a load has an open file, an open or read under way, or a next file that is nowhere in memory |
| ReactorObject.IoReactor.ScheduleLoad | py_kvcache/reactor.py:1321-1362 | changes the fields exactly as the machine does: the next file of a load, by the first route that applies, a refused open of a promoted preload included; ReactorRoutes.RouteIff says which and what it does |
| ReactorObject.IoReactor.FinishJobs | py_kvcache/reactor.py:2028-2043 | drops exactly the drained and resolved jobs |
| ReactorObject.IoReactor.Own | py_kvcache/reactor.py:418-425 | changes the fields exactly as the machine does: notes who demands a hash, within the cap |
| ReactorObject.IoReactor.IntakePreload | py_kvcache/reactor.py:670-698 | changes the fields exactly as the machine does: each hash of the request is demanded, in order |
| ReactorObject.IoReactor.IntakeStore | py_kvcache/reactor.py:707-729 | changes the fields exactly as the machine does: every block of the store is announced, then the job becomes active |
| ReactorObject.IoReactor.DrainCudaCopies | py_kvcache/reactor.py:795-833 | the loop over finished copies is a run of the machine |
| ReactorObject.IoReactor.PollRingCompletions | py_kvcache/reactor.py:875-893 | the loop over completions is a run of the machine after which none of the completed operations is in flight |
| ReactorObject.IoReactor.DrainReadyLoadFds | py_kvcache/reactor.py:1430-1440 | the loop over open load files is a run of the machine that stops only with no file left, no device budget or no slot |
| ReactorObject.IoReactor.ScheduleJobs | py_kvcache/reactor.py:1317-1375 | the loops over the active jobs are runs of the machine; if opens, budget and a slot can be had and some job has a file to start, one is started |
| ReactorObject.IoReactor.DrainReadyPreloadFds | py_kvcache/reactor.py:1489-1534 | the loop over open preloads is a run of the machine that stops only when none is left or the first one stays |
| ReactorObject.IoReactor.DrainCancelledPending | py_kvcache/reactor.py:1422-1428 | the loop over cancelled entries is a run of the machine after which the first entry, if any, is not cancelled |
| ReactorObject.IoReactor.SpeculatePreloads | py_kvcache/reactor.py:1380-1411 | the speculative loop is a run of the machine, in a state where no load wants the disk, that stops only when no further preload may be opened |
| ReactorObject.IoReactor.ScheduleWork | py_kvcache/reactor.py:1311-1413 | one scheduling pass is a run of the machine that leaves queued preloads only if none may be opened or a load wants the disk |
| ReactorObject.IoReactor.PumpOnce | py_kvcache/reactor.py:761-772 | one turn of the thread is a run of the machine and keeps the invariant; it leaves no copy queued and no finished job active; with nothing outstanding and some job active, the turn starts a file or drops a job |

## Left out

- Shutdown and crashes (`_STOP`, `_fail_everything`, cache drain, closing): runs end before the stop request; the accounting differs after it.
- Threads, locks and the incoming queue: one thread, intake as an event.
- A promoted preload whose open is refused, within runs; a single promotion is modelled with either answer.
- Chunks that do not line up: every chunk has 1 to factor ids (`Transfer.LoadMappingLinesUpIff`), so queueing a load copy does not fail, and a flush is never empty.
- Jobs without files: the callers submit at least one; a job without files would never be resolved.
- The break-even gate: its verdict on a load is a parameter of the intake.
- Ring, direct I/O, temporary files, links, fsync, CUDA streams and events: their results are arbitrary booleans, and a copy moves bytes when it completes.
- Object identity: a job is its position in the list of jobs ever taken in, a shared slot object is named by its slot, a cache entry by its hash; all three are unique while the object lives.
- Queues kept per hash in the program (private copies, waiting files) are one list each; `ReactorQueues` shows that every hash still has its own first-in-first-out queue.
- Order in which completions of one batch arrive, and which copies have finished: any order.
- Profiling events, timing samples and log lines: they do not affect state.
- Floating point: the interpolant, the tables and the planner work over the reals.
- Liveness of preload demand: demand is dropped on purpose by caps, eviction and cancelling, so only safety is claimed.
- Validation of configuration, paths, the manager and handler glue, bandwidth reports.
- Pchip.Derivatives: knots must increase, which its one caller has checked; without that the program divides by zero or computes slopes that mean nothing.
- ReactorRuns.StepKeeps: leaves out the refused open of a promoted preload, and with it ReactorRuns.RunKeeps and ReactorRuns.Reachable; ReactorOutcomes.PromotionNeedsOpen shows that the invariant does not survive it.
