# Verified model of ratelimit-flex

ratelimit-flex enforces request quotas: in one process, through a waiting queue, across cluster
workers, and across processes that share a DynamoDB item. This project models the algorithms and
protocols behind those guarantees in Dafny and proves what they promise for every input, every run
and every interleaving.

Clocks are explicit parameters in integer milliseconds, costs are integers of at least one, counts are
integers. In the queue, the DynamoDB loops, the cluster protocol and the breaker every `await` is a step
boundary, so interleavings are real: these are state machines over single steps, and a run is any sequence of
events, in which an event that is not possible does nothing. A call of a composition, a shield or a grouped
consume is one step at one instant. Where the original updates an object, the model has a class with the same
fields, and each method is proved equal to the step of the state machine that the theorems are about.

| files | part of the system |
|---|---|
| `Entries`, `EntryLaws`, `ReadLaws` | one key's quota state under the three strategies; what reads, assignments, resets and purges mean for the requests around them |
| `MemoryTable`, `MemoryStore`, `LruRuns`, `FewKeys`, `TidyRuns`, `SlidingRuns`, `FixedTable`, `FixedRuns`, `BucketRuns`, `BucketTable`, `BucketTicks` | the in-process store, its LRU order, what runs leave in it, and its quota bounds |
| `QueueSpec`, `QueueService`, `QueueRuns`, `QueueLedger`, `QueueShutdown`, `QueueWindow`, `QueueLimits`, `RateLimiterQueue` | the waiting queue: protocol, service, safety, accounting, its quota bound and how far it reaches, and the linked list on the heap |
| `SlidingWeighted`, `DynamoSliding`, `DynamoBucket` | the weighted sub-window model and the DynamoDB write loops |
| `Composition`, `CompositionLaws`, `Overflow`, `OverflowAnswers`, `ComposedStore` | compositions of stores |
| `ShieldSpec`, `ShieldService`, `ShieldRuns`, `ShieldLimits`, `InMemoryShield` | the block cache in front of a store |
| `GroupedWindows`, `GroupedCounts`, `RateLimitEngine` | grouped windows of the engine |
| `ClusterSpec`, `ClusterService`, `ClusterRuns`, `ClusterQuota`, `Cluster` | the worker/primary protocol |
| `CircuitBreaker`, `BreakerRuns` | the circuit breaker of the Redis store |
| `Percentile` | quickselect and nearest-rank percentiles |

`dafny verify dfyconfig.toml` checks everything.

## What turned out to hold only under a condition

Each of these has a lemma with the exact condition, and one with a run or a state where the property fails.

- Measured when the store charges, what the queue releases in any window is within the cap, under two
  hypotheses: the store does not evict the key live, and no `clear()` comes while a store call of the queue is in
  flight. Over all runs that request only keys of a given set, the cap holds if and only if the store has room
  for all of them and clears do not overlap store calls (`QueueLimits.QuotaHoldsIff`). Without room, the cap is
  released twice in one window (`QueueLimits.EvictionExceeds`); with an overlapping `clear()`, one unit too many is
  (`QueueLimits.ClearOverlapExceeds`), both in every configuration.
  Measured at the moment promises are resolved, with replies that take at most `delay`, the cap holds for an
  interval length if and only if that length is at most windowMs - `delay` (`QueueLimits.ReleaseBoundIff`,
  `QueueLimits.SlowReplyExceeds`).
- A fixed window of cap requests admits, in an interval of its own length, up to two caps less one, and no more
  (`FixedRuns.AdmittedBelowTwice`, `FixedRuns.BurstReachesBound`).
- The default sliding decrement drops the oldest stamps; made later, it restores the count exactly when
  nothing expired since the probe, by age or by a wall expiry (`EntryLaws.OldestUndoExactIff`,
  `EntryLaws.OldestUndoDrifts`).
- `set` gives a sliding entry a wall expiry, and an increment clears it. So an increment taken back from the newest
  end is invisible at a later time if and only if the entry had no wall, or the wall has not come by then, or
  everything it would have dropped has aged out too (`EntryLaws.NewestUndoInvisibleIff`,
  `EntryLaws.NewestUndoOutlivesWall`). The same condition on the leaves decides whether a composition's rollback or
  decrement leaves later counts alone (`CompositionLaws.RolledBackForGoodIff`,
  `CompositionLaws.NewestDecrementUndoesForGoodIff`).
- A second `shutdown` call after a wait timeout, before the first call has reported, makes that call count the
  timed-out waiter as drained; otherwise the number is exact (`QueueShutdown.DrainedExactIff`,
  `QueueShutdown.RepeatedShutdownMiscounts`).
- An operation keeps the store within `maxKeys` unless it is a `reset` that inserts an unseen key
  (`LruRuns.StepKeepsCap`, `LruRuns.ResetPassesCap`).
- `simulateWeightedIncrement` is documented as what the conditional writes do. On a clock behind the stored
  window the writes all fail and leave the item alone, while the simulation starts a fresh window
  (`DynamoSliding.SimulationResetsBehindClock`); the class follows the write loop.
- A DynamoDB fresh start forgets the previous slice exactly when another worker moved the item into that slice
  between the second and the third write of the attempt (`DynamoSliding.FreshStartExactIff`,
  `DynamoSliding.FreshStartForgets`).
- A shield and a bare store answer requests alike as long as neither evicts the key live. With evictions they can
  differ; after any run they agree on requests of every cost if and only if the windows they count in are alike
  (`ShieldLimits.RequestsAgreeIff`, `ShieldLimits.EvictionCanDisagree`). A `get` can differ at exactly the cap
  (`ShieldLimits.ReadDiffersIff`, `ShieldLimits.CachedReadDiffers`, `ShieldLimits.UnshieldedReadDiffers`), and a
  decrement after any run can put the two out of step, under an exact condition on the counts before it
  (`ShieldLimits.DecrementAgreesIff`, `ShieldLimits.DecrementCanDisagree`).
- Grouped windows: an unavailable store that lets the request through hides a later block. The merged result
  then reads as allowed, and in draft mode nothing is given back (`GroupedWindows.VerdictIff`,
  `GroupedWindows.BlockReadsAsAllowed`).
- Grouped windows give back from the oldest end. At the instant of the request every returned slot counts what it
  did; later, a returned sliding slot counts too much while its older stamps have expired and the request's has
  not, or when a wall expiry from `set` would have dropped them. A draft leaves no trace at any later time if and
  only if no unavailable slot came before the block and every sliding slot it charged held no live stamps, or only
  stamps of the request's own instant and no wall before the request's own end (`GroupedCounts.DraftTraceAtIff`,
  `GroupedCounts.DraftLeavesNoTraceIff`, `GroupedCounts.DraftTraceRemains`).
- `get`, `set` and `decrement` of the Redis store take half-open probes and never report; one such call can
  close the circuit's door for good (`BreakerRuns.QuietCallSticks`, `BreakerRuns.StuckForever`). Increments alone
  never do (`BreakerRuns.IncrementsNeverStick`).

## Model

| member | source | states |
|---|---|---|
| `EntryLaws.IncrementCharges` | src/stores/memory-store.ts:795-894 | a window increment raises the live count by exactly its cost, reports that count, and blocks exactly when it passes the cap |
| `EntryLaws.ResetIsFirstDrop` | src/stores/memory-store.ts:795-894 | the reported reset time of a window increment is the first instant at which any of the reported hits stops counting |
| `EntryLaws.NewestUndoRestoresStamps` | src/stores/memory-store.ts:850-865 | an increment undone from the newest end leaves, at every later time, exactly the stamps that were live before |
| `EntryLaws.ImmediateUndoRestoresCount` | src/stores/memory-store.ts:832-908 | undoing a window increment at the same instant restores the live count, from either end |
| `EntryLaws.OldestUndoDrift` | src/stores/memory-store.ts:832-848 | undone later from the oldest end, the count is too high by min(cost, stamps that expired in between) |
| `EntryLaws.OldestUndoExactIff` | src/stores/memory-store.ts:832-848 | the default undo restores the count if and only if nothing expired since the probe, by age or by a wall expiry |
| `EntryLaws.NewestUndoInvisibleIff` | src/stores/memory-store.ts:795-865 | an increment taken back from the newest end never lowers a later count, and leaves it as it would have been exactly when no wall expiry was to drop something that is still live by age |
| `EntryLaws.NewestUndoOutlivesWall` | src/stores/memory-store.ts:795-865 | an entry with a wall expiry that counts one after the increment was taken back, where it would count none |
| `EntryLaws.OldestUndoDrifts` | src/stores/memory-store.ts:832-848 | a state in which the default undo leaves one unit too many |
| `EntryLaws.RefillTwice` | src/stores/memory-store.ts:972-981 | refilling at two times equals refilling once at the later one, tokens and refill time |
| `EntryLaws.RefillLands` | src/utils/store-utils.ts:23-40 | a refill lands on the latest tick of the bucket's own lattice not after now |
| `ReadLaws.GetForetells` | src/stores/memory-store.ts:659-770 | a read foretells the next increment: its hits plus the cost, or the tokens it needs, and the same reset time; what reads as absent counts as absent; no answer changes by reading |
| `ReadLaws.SetReadsBack` | src/stores/memory-store.ts:686-792 | at the same instant a read reports what `set` returned, unless that quota is over already |
| `ReadLaws.ResetForgets` | src/stores/memory-store.ts:355-374 | after a reset the key is answered as one that was never seen, and a window store counts nothing for it |
| `ReadLaws.DecrementCounts` | src/stores/memory-store.ts:832-909 | a decrement takes its cost off the count of a window key, down to zero; from the oldest end it first takes stored stamps that have left the window |
| `ReadLaws.BucketUndoRestores` | src/stores/memory-store.ts:911-970 | an allowed bucket increment that is given back leaves the bucket as it was refilled |
| `ReadLaws.GivenBackCanBeTaken` | src/stores/memory-store.ts:962-970 | tokens that are given back can be taken again, as far as the bucket is large enough |
| `ReadLaws.PurgeDropsExactlyExpired` | src/stores/memory-store.ts:995-1058 | the purge drops exactly the expired entries; of the others at most stamps that no longer count |
| `MemoryTable.ApplyOk` | src/stores/memory-store.ts:305-521 | every operation keeps the table a duplicate-free ordered map of entries of the store's one strategy |
| `MemoryTable.MakeRoomKeeps` | src/stores/memory-store.ts:616-633 | making room only removes keys; survivors keep their entries |
| `MemoryTable.DropHeadIsDrop` | src/stores/memory-store.ts:571-582 | taking the head of the order is deleting that key and reporting it |
| `MemoryStore.PushStamps` | src/stores/memory-store.ts:809-814 | the stamping loop appends cost copies of now |
| `MemoryStore.ShiftStamps` | src/stores/memory-store.ts:832-848 | the loop drops min(cost, length) of the oldest stamps |
| `MemoryStore.PopStamps` | src/stores/memory-store.ts:850-865 | the loop drops min(cost, length) of the newest stamps |
| `MemoryStore.MemoryStore.constructor` | src/stores/memory-store.ts:222-275 | a new store is empty |
| `MemoryStore.MemoryStore.EvictOldest` | src/stores/memory-store.ts:571-582 | the first key of the map leaves as an LRU victim and is counted |
| `MemoryStore.MemoryStore.EnsureRoomForNewKey` | src/stores/memory-store.ts:616-633 | the loop terminates and equals dropping heads, expired or LRU, until one more key fits |
| `MemoryStore.MemoryStore.TouchKey` | src/stores/memory-store.ts:638-648 | a present key of a bounded store moves to the most recent place |
| `MemoryStore.MemoryStore.IncrementSliding` | src/stores/memory-store.ts:795-826 | result and new table equal the specification's increment |
| `MemoryStore.MemoryStore.IncrementFixed` | src/stores/memory-store.ts:869-894 | result and new table equal the specification's increment |
| `MemoryStore.MemoryStore.IncrementTokenBucket` | src/stores/memory-store.ts:911-960 | result and new table equal the specification's increment, which is the ticking bucket's (`BucketTicks.IncrementIsTicked`) |
| `MemoryStore.MemoryStore.Increment` | src/stores/memory-store.ts:305-319 | for every strategy, with the cost sanitized first |
| `MemoryStore.MemoryStore.DecrementSliding` | src/stores/memory-store.ts:832-865 | new table equals the specification's decrement, from either end; an emptied key is deleted |
| `MemoryStore.MemoryStore.DecrementFixed` | src/stores/memory-store.ts:896-909 | new table equals the specification's decrement; an emptied key is deleted |
| `MemoryStore.MemoryStore.DecrementTokenBucket` | src/stores/memory-store.ts:962-970 | tokens come back up to the bucket size |
| `MemoryStore.MemoryStore.Decrement` | src/stores/memory-store.ts:327-349 | for every strategy, with the cost sanitized first |
| `MemoryStore.MemoryStore.Reset` | src/stores/memory-store.ts:355-374 | sliding keys are forgotten, others are written without making room |
| `MemoryStore.MemoryStore.Get` | src/stores/memory-store.ts:469-488 | what a read reports, and that only a successful one touches the key |
| `MemoryStore.MemoryStore.SetHits` | src/stores/memory-store.ts:492-514 | the assigned entry takes the most recent place after room was made |
| `MemoryStore.MemoryStore.PurgeExpired` | src/stores/memory-store.ts:995-1058 | both passes over the keys equal the specification's purge |
| `LruRuns.OrderIsRecency` | src/stores/memory-store.ts:571-648 | in every run the map order is the order of last touch: an increment, a set, a successful get, or a reset that inserts a key not yet present |
| `LruRuns.EarlierIsLessRecent` | src/stores/memory-store.ts:571-648 | of two keys in the map, the earlier was touched less recently |
| `LruRuns.VictimsAreLeastRecent` | src/stores/memory-store.ts:571-633 | at every step of every run, each key reported as an LRU victim was live and touched before every key that stays, but for the one being written; only increments and sets evict |
| `LruRuns.InsertRestoresCap` | src/stores/memory-store.ts:616-633 | an insert of a new key brings the size back to at most maxKeys, however large it was |
| `LruRuns.StepKeepsCap` | src/stores/memory-store.ts:355-374 | a step from within the cap leaves it if and only if it resets an unseen key of a full fixed or bucket store |
| `LruRuns.ResetPassesCap` | src/stores/memory-store.ts:355-374 | a run after which a reset takes a store of one key to two |
| `LruRuns.SizeWithinCap` | src/stores/memory-store.ts:616-633 | in runs without such a reset the size never exceeds maxKeys |
| `FewKeys.RunHolds` | src/stores/memory-store.ts:616-633 | a run of any operations over at most maxKeys keys never evicts a live key |
| `TidyRuns.RunTidy` | src/stores/memory-store.ts:795-908 | every run with a forward clock leaves stamps in order, no stamp or refill in the future, and no negative count or level |
| `SlidingRuns.IncrementAgrees` | src/stores/memory-store.ts:795-826 | the decision is about the full hit history cut to the window |
| `SlidingRuns.KeptIsHistoryCut` | src/stores/memory-store.ts:795-826 | for every run with a nondecreasing clock that gives nothing of the key back and does not evict it live, whatever it does to other keys, the live stamps are exactly the full hit history cut to the window |
| `SlidingRuns.AdmittedWithinCap` | src/stores/memory-store.ts:795-826 | in every such run, whatever the costs, the reads, the purges and the operations on other keys, the cost admitted for the key in any (T - windowMs, T] is at most the cap |
| `SlidingRuns.AdmittedWithinCapFewKeys` | src/stores/memory-store.ts:795-826 | the same without a hypothesis on evictions, when the run uses at most maxKeys keys |
| `FixedRuns.CountIsHistory` | src/stores/memory-store.ts:869-894 | for every run that gives nothing of the key back and does not evict it live, the store counts what a window told from the record alone has counted (opened by the first hit after the last one ended), and decides the next increment on it |
| `FixedRuns.AdmittedBelowTwice` | src/stores/memory-store.ts:869-894 | in every such run the cost admitted in any interval of the window's length is at most twice the cap less one |
| `FixedRuns.AdmittedBelowTwiceFewKeys` | src/stores/memory-store.ts:869-894 | the same without a hypothesis on evictions, when the run uses at most maxKeys keys |
| `FixedRuns.BurstReachesBound` | src/stores/memory-store.ts:869-894 | for every cap and window of at least two, a run that admits twice the cap less one in such an interval |
| `BucketRuns.AdmittedWithinRefills` | src/stores/memory-store.ts:911-981 | between any s <= t of a key's life the admitted cost is at most bucketSize + tokensPerInterval * ceil((t - s)/interval), also across idle purges |
| `BucketRuns.TokensStayInBucket` | src/stores/memory-store.ts:911-981 | tokens stay between empty and full, and the refill time is never in the future |
| `BucketTable.RunSeen` | src/stores/memory-store.ts:911-981 | a run of the whole store, with any keys, reads, purges and evictions of others, is for one key a run of one bucket with the same grants |
| `BucketTable.StoreAdmitsWithinRefills` | src/stores/memory-store.ts:911-981 | after any earlier run of the store, the cost admitted for a key between two times is at most bucketSize + tokensPerInterval * ceil(elapsed / interval), unless the key is evicted live |
| `BucketTable.StoreAdmitsWithinRefillsFewKeys` | src/stores/memory-store.ts:911-960 | the same without a hypothesis on evictions, when the run uses at most maxKeys keys |
| `BucketTicks.RefillIsTicks` | src/utils/store-utils.ts:23-40 | refilling at once is ticking: one interval after the other adds its tokens as far as the bucket has room |
| `BucketTicks.IncrementIsTicked` | src/stores/memory-store.ts:911-960 | an increment is allowed exactly when the ticking bucket holds its cost, and takes it then; hits, remaining and reset time are that bucket's; a blocked one takes nothing |
| `BucketTicks.RunIsTicked` | src/stores/memory-store.ts:911-981 | after every run of a key's bucket the store holds what the ticking bucket holds |
| `BucketTicks.StoreIsTicked` | src/stores/memory-store.ts:911-981 | the same for runs of the whole store that do not evict the key live, and for the answer to the next increment |
| `BucketTicks.RestIsGranted` | src/stores/memory-store.ts:911-960 | after any run of any operations, a key that nobody writes for k whole intervals is granted any cost up to k * tokensPerInterval and the bucket size |
| `QueueRuns.NoLostWakeup` | src/queue/RateLimiterQueue.ts:488-536 | in every interleaving, overlapping drains included, a non-empty queue has a drain in flight or a retry timer armed |
| `QueueRuns.SettledOnce` | src/queue/RateLimiterQueue.ts:240-273 | every accepted request is either waiting or settled, exactly once |
| `QueueRuns.ResolvedInOrder` | src/queue/RateLimiterQueue.ts:488-536 | successes settle in enqueue order |
| `QueueService.AcceptedIff` | src/queue/RateLimiterQueue.ts:222-240 | a request is accepted exactly when the queue is open, has room and the cost is between 1 and maxRequests, and goes last; each refusal code has its exact condition, in order, and changes nothing |
| `QueueService.NeverOverfull` | src/queue/RateLimiterQueue.ts:226-228 | in every run the queue holds at most maxQueueSize requests |
| `QueueService.RejectedIff` | src/queue/RateLimiterQueue.ts:251-268 | a waiter is rejected exactly by its own timeout, by a clear, or by the end of a shutdown, with the code of that |
| `QueueService.ResolvedIff` | src/queue/RateLimiterQueue.ts:495-512 | a waiter is resolved exactly by an allowing answer to a charge made for it while it is the head, with that answer's figures |
| `QueueService.ShutdownEndsIff` | src/queue/RateLimiterQueue.ts:360-398 | a shutdown ends at once if nobody waits or there is no time to, else after a poll every 10 ms until its time is up or the queue is empty; until then nobody is turned away |
| `QueueService.EveryoneCanBeServed` | src/queue/RateLimiterQueue.ts:488-536 | from every reachable state, overlapping drains and shutdowns under way included, allowing answers and the retry timer alone resolve everybody who waits, in order |
| `QueueLedger.EveryCallAccounted` | src/queue/RateLimiterQueue.ts:471-536 | each store increment of the drain ends in exactly one of: resolving one entry, one decrement of the same key and cost, or no undo for a blocked bucket; or it is still in flight |
| `QueueLedger.NetChargeIsResolvedPlusInFlight` | src/queue/RateLimiterQueue.ts:471-536 | the net charge of a key equals the cost of its resolved entries plus the calls in flight |
| `QueueShutdown.ShutdownAddsUp` | src/queue/RateLimiterQueue.ts:360-398 | drained plus rejected plus timed out equals the length at the start of the shutdown |
| `QueueShutdown.DrainedExactIff` | src/queue/RateLimiterQueue.ts:360-398 | the reported drained number is exact unless a waiter timed out during the drain and shutdown was called again before the report |
| `QueueShutdown.RepeatedShutdownMiscounts` | src/queue/RateLimiterQueue.ts:360-370 | a run in which a timed-out waiter is reported as drained |
| `QueueWindow.StepOneDrain` | src/queue/RateLimiterQueue.ts:435-453 | without a clear that overlaps a store call, at most one drain is suspended, never beside an armed timer |
| `QueueWindow.ReleasedWithinCap` | src/queue/RateLimiterQueue.ts:471-536 | with its own sliding store of any maxKeys that does not evict the key live, and no clear that overlaps a store call, the cost charged for released requests of a key in any window is within maxRequests, although blocked and stale probes are charged and undone in between |
| `QueueLimits.EvictionExceeds` | src/queue/RateLimiterQueue.ts:488-536 | for every configuration and every key set that is larger than maxKeys, a run over it that releases twice the cap of a key in one window |
| `QueueLimits.ClearOverlapExceeds` | src/queue/RateLimiterQueue.ts:435-453 | for every configuration, a run with a `clear()` during a store call that releases one unit more than the cap in one window, with no eviction |
| `QueueLimits.QuotaHoldsIff` | src/queue/RateLimiterQueue.ts:435-536 | every run over a set of keys stays within the cap for every key and window if and only if the store has room for the set and clears do not overlap store calls |
| `QueueWindow.FewKeysUndisturbed` | src/queue/createRateLimiterQueue.ts:23-42 | a run that requests at most maxKeys keys, such as a single-key queue on the default store, evicts no live key, so it meets the hypotheses of the bound exactly when its clears do not overlap store calls |
| `QueueWindow.ReleasedWithinCapFewKeys` | src/queue/createRateLimiterQueue.ts:23-42 | for such runs the bound holds whenever no clear overlaps a store call |
| `QueueLimits.ResolvedWithinCap` | src/queue/RateLimiterQueue.ts:488-536 | measured at resolution, the same bound for intervals of length windowMs minus the longest reply time |
| `QueueLimits.SlowReplyExceeds` | src/queue/RateLimiterQueue.ts:488-536 | for every configuration and reply delay, a run that releases twice the cap within windowMs - delay + 1 |
| `QueueLimits.ReleaseBoundIff` | src/queue/RateLimiterQueue.ts:488-536 | measured at resolution, the cap holds in all runs for an interval length exactly when it is at most windowMs minus the longest reply time |
| `RateLimiterQueue.RateLimiterQueue.constructor` | src/queue/RateLimiterQueue.ts:185-194 | an empty, idle queue |
| `RateLimiterQueue.RateLimiterQueue.EnqueueTail` | src/queue/RateLimiterQueue.ts:400-413 | the doubly linked list represents the old sequence plus the new entry, with the recorded length |
| `RateLimiterQueue.RateLimiterQueue.MemberTest` | src/queue/RateLimiterQueue.ts:415-433 | the pointer test is true exactly for members of the list |
| `RateLimiterQueue.RateLimiterQueue.Unlink` | src/queue/RateLimiterQueue.ts:415-433 | removes exactly the entry from the represented sequence, or reports that it is not a member and changes nothing |
| `RateLimiterQueue.RateLimiterQueue.RemoveTokens` | src/queue/RateLimiterQueue.ts:222-273 | refusals, enqueueing and the first drain are the protocol's step, whose refusals `QueueService.AcceptedIff` states |
| `RateLimiterQueue.RateLimiterQueue.RunLoop` | src/queue/RateLimiterQueue.ts:488-500 | from the loop head to the next await: charge the head, or leave |
| `RateLimiterQueue.RateLimiterQueue.OnWaitTimeout` | src/queue/RateLimiterQueue.ts:251-268 | a wait timeout is the protocol's step |
| `RateLimiterQueue.RateLimiterQueue.OnRetry` | src/queue/RateLimiterQueue.ts:522-529 | the retry timer is the protocol's step |
| `RateLimiterQueue.RateLimiterQueue.OnReply` | src/queue/RateLimiterQueue.ts:495-520 | a store reply resolves the head, or undoes a stale or blocked charge, as the protocol's step |
| `RateLimiterQueue.RateLimiterQueue.OnUndoDone` | src/queue/RateLimiterQueue.ts:502-530 | after an undo the loop goes on, or leaves a retry timer |
| `RateLimiterQueue.RateLimiterQueue.ClearAll` | src/queue/RateLimiterQueue.ts:435-453 | the walk rejects every waiter in order and leaves all entries unlinked |
| `RateLimiterQueue.RateLimiterQueue.Clear` | src/queue/RateLimiterQueue.ts:324-329 | clearing is the protocol's step; after shutdown it throws and changes nothing |
| `RateLimiterQueue.RateLimiterQueue.Shutdown` | src/queue/RateLimiterQueue.ts:360-386 | the first part of a shutdown, up to its first sleep, is the protocol's step |
| `RateLimiterQueue.RateLimiterQueue.OnPollTick` | src/queue/RateLimiterQueue.ts:378-398 | every poll of the shutdown is the protocol's step |
| `SlidingWeighted.BoundaryIsSlice` | src/stores/dynamo/sliding-weighted.ts:8-10 | the slice start is the one multiple of the window whose slice contains now |
| `SlidingWeighted.WeightIsLinear` | src/stores/dynamo/sliding-weighted.ts:15-28 | the weight falls linearly from 1 at the start of the slice to 0 at its end |
| `SlidingWeighted.CountersExact` | src/stores/dynamo/sliding-weighted.ts:53-101 | after any single-writer run with a nondecreasing clock, the counters are the exact hit counts of the current and the preceding slice |
| `SlidingWeighted.EstimateWithin` | src/stores/dynamo/sliding-weighted.ts:33-42 | at any time from the last hit to the end of its slice, estimate minus exact sliding count lies in [-(1 - w) * previous, w * previous] |
| `SlidingWeighted.EstimateAfterSlice` | src/stores/dynamo/DynamoStore.ts:692-719 | read in the next slice the estimate is never too low and too high by at most the last slice; after that no hit is in the window |
| `SlidingWeighted.AdmittedWithinEstimate` | src/stores/dynamo/DynamoStore.ts:460-492 | a hit that passes the cap on the estimate exceeds it by at most the unweighted part of the previous slice |
| `SlidingWeighted.AnswerAgainstHistory` | src/stores/dynamo/DynamoStore.ts:460-492 | the reported hits, remaining, verdict and reset time of the last hit of any single-writer run, measured against the exact sliding count |
| `DynamoSliding.CountersMeanCommits` | src/stores/dynamo/DynamoStore.ts:192-279 | for any workers and clocks, currentCount is the cost committed for its boundary and previousCount that of the boundary before, or zero |
| `DynamoSliding.WindowNeverGoesBack` | src/stores/dynamo/DynamoStore.ts:192-279 | currentWindowStart never decreases |
| `DynamoSliding.FreshStartExactIff` | src/stores/dynamo/DynamoStore.ts:249-275 | a fresh start loses the previous slice exactly when another worker moved the item into it meanwhile |
| `DynamoSliding.FreshStartForgets` | src/stores/dynamo/DynamoStore.ts:249-275 | an interleaving in which a fresh start forgets a committed unit |
| `DynamoSliding.OnlyOvertakenFail` | src/stores/dynamo/DynamoStore.ts:204-279 | a worker that gives up, or reaches a third attempt, was overtaken by a later slice; contention alone never fails one |
| `DynamoSliding.OvertakenNeverCommits` | src/stores/dynamo/DynamoStore.ts:204-279 | an overtaken worker's writes change nothing |
| `DynamoSliding.NotOvertakenCommits` | src/stores/dynamo/DynamoStore.ts:204-279 | from every reachable state a worker that is not overtaken commits with at most four writes of its own, if nobody interferes |
| `DynamoSliding.GivesUpAfter24` | src/stores/dynamo/DynamoStore.ts:203-279 | a worker gives up after exactly 24 attempts of three writes |
| `DynamoSliding.Table.ConditionalWrite` | src/stores/dynamo/DynamoStore.ts:206-275 | one conditional write, all or nothing |
| `DynamoSliding.Table.RunSlidingIncrement` | src/stores/dynamo/DynamoStore.ts:192-279 | the retry loop commits exactly what the model simulates, unless the stored window is ahead of the clock |
| `DynamoSliding.Table.IncrementSliding` | src/stores/dynamo/DynamoStore.ts:192-279 | a request is answered from the counters its own write left, or not at all when the stored window is ahead of the clock |
| `DynamoSliding.SingleWriterNeverBehind` | src/stores/dynamo/DynamoStore.ts:192-279 | a single writer with a nondecreasing clock is never behind, so its writes follow the model at every hit |
| `DynamoSliding.AttemptSimulates` | src/stores/dynamo/DynamoStore.ts:206-275 | the three conditional writes of an undisturbed attempt write what the model simulates, unless the stored window is ahead of the clock |
| `DynamoSliding.SingleWriterFollowsModel` | src/stores/dynamo/DynamoStore.ts:192-279 | over any ordered hit sequence the write loop commits every hit and ends with the model's state |
| `DynamoSliding.SimulationResetsBehindClock` | src/stores/dynamo/sliding-weighted.ts:53-101 | behind the stored window the writes fail and the simulation resets |
| `DynamoBucket.EveryInterleavingIsSerial` | src/stores/dynamo/DynamoStore.ts:355-458 | the item is the serial refill-and-deduct of the commits in commit order, every returned result is its own commit's serial result, and a worker that gave up lost to twelve commits |
| `DynamoBucket.EveryResultIsTicked` | src/stores/dynamo/DynamoStore.ts:355-458 | in every interleaving the item holds what the ticking bucket holds after the commits so far, and each result is that bucket's answer at the worker's clock |
| `DynamoBucket.UndisturbedCommits` | src/stores/dynamo/DynamoStore.ts:364-458 | from every reachable state a worker about to read commits at once if nobody writes in between |
| `DynamoBucket.GivesUpAfter12` | src/stores/dynamo/DynamoStore.ts:364-458 | a worker gives up after exactly twelve lost writes |
| `DynamoBucket.AdmittedUnderSkew` | src/stores/dynamo/DynamoStore.ts:355-458 | whatever the clocks, tokens stay in [0, bucketSize] and all workers together are admitted at most bucketSize + tokensPerInterval * whole intervals from creation to the latest clock used |
| `DynamoBucket.IncrementTokenBucket` | src/stores/dynamo/DynamoStore.ts:364-458 | one worker's loop replaces exactly what its write found, at the first attempt that found what it had read, or writes nothing; what it writes is the ticking bucket's (`DynamoBucket.EveryResultIsTicked`) |
| `Composition.MergedMeaning` | src/composition/ComposedStore.ts:466-524 | the merged result has the most hits, the least remaining and the soonest reset, among blocked layers if any block |
| `Composition.OwnCapWins` | src/composition/ComposedStore.ts:26-36 | a layer that carries a cap answers the same whatever the caller asks for |
| `Composition.LayerHeldToCap` | src/composition/ComposedStore.ts:26-36 | a layer over a window store blocks exactly when the charged count passes its own cap, else the caller's, else the store's |
| `CompositionLaws.NestingIsFlat` | src/composition/ComposedStore.ts:404-524 | any nested tree of `all` compositions reports what the flat list of its leaves would; it allows exactly when every leaf allows |
| `CompositionLaws.BlockedChargesBlockersOnly` | src/composition/ComposedStore.ts:286-321 | when blocked, a leaf's live count grows by the cost exactly if that leaf blocked; all frame stacks are unchanged |
| `CompositionLaws.RolledBackForGoodIff` | src/composition/ComposedStore.ts:307-321 | leaves that let a blocked request through are, at a later time, as if nobody had called, exactly when no wall expiry of theirs came in between and took something |
| `CompositionLaws.DecrementUndoesAllowed` | src/composition/ComposedStore.ts:866-877 | an immediate decrement after an allowed request restores every leaf's count and every frame stack |
| `CompositionLaws.NewestDecrementUndoesForGoodIff` | src/composition/ComposedStore.ts:866-877 | from the newest end, the decrement restores every frame stack, and every leaf's count at a later time exactly when no leaf's wall expiry took something in between |
| `Overflow.StoresSeeOrdinaryRuns` | src/composition/ComposedStore.ts:526-600 | the primary runs every request, the burst store exactly those that the primary blocked |
| `Overflow.AdmittedWithinBothCaps` | src/composition/ComposedStore.ts:526-600 | over two sliding stores the cost admitted in any window of the shorter length is at most the sum of both caps |
| `Overflow.AdmittedWithinBothCapsFewKeys` | src/composition/ComposedStore.ts:526-600 | the same without a hypothesis on evictions, when each store sees at most its maxKeys keys |
| `Overflow.DecrementReturnsToConsumer` | src/composition/ComposedStore.ts:848-864 | a decrement returns an admitted request to the store that admitted it; a primary that blocked keeps its charge |
| `OverflowAnswers.AnswersFromCounts` | src/composition/ComposedStore.ts:526-600 | over window stores a request is blocked exactly when the charged count passes the cap in both; hits, remaining and reset time of the three outcomes, from the counts before |
| `OverflowAnswers.ChargesFromCounts` | src/composition/ComposedStore.ts:526-600 | the primary keeps every charge, the burst store is charged when the primary blocks, and a frame that names the consumer is pushed exactly for a request that was let through |
| `ComposedStore.ComposedStore.PushFrame` | src/composition/ComposedStore.ts:286-293 | the frame goes on top of the key's stack |
| `ComposedStore.ComposedStore.PopFrame` | src/composition/ComposedStore.ts:295-305 | the latest frame comes off; an empty stack is deleted |
| `ComposedStore.MergeResults` | src/composition/ComposedStore.ts:466-524 | filtering the blocked results and taking minima and maxima computes the merge |
| `ComposedStore.ComposedStore.ChargeLayers` | src/composition/ComposedStore.ts:404-410 | every layer's store takes exactly its own increment |
| `ComposedStore.ComposedStore.RollbackLayers` | src/composition/ComposedStore.ts:307-321 | exactly the layers that let the request through are decremented, from the newest end |
| `ComposedStore.ComposedStore.IncrementAll` | src/composition/ComposedStore.ts:404-524 | on distinct stores, result and new state are those of the tree model |
| `ComposedStore.ComposedStore.DecrementAll` | src/composition/ComposedStore.ts:866-877 | new state is that of the tree model; without a frame nothing changes |
| `ComposedStore.ComposedStore.IncrementOverflow` | src/composition/ComposedStore.ts:526-600 | result and new state are those of the overflow model, which `OverflowAnswers` states from the counts |
| `ComposedStore.ComposedStore.DecrementOverflow` | src/composition/ComposedStore.ts:848-864 | new state is that of the overflow model |
| `ShieldSpec.SweepDropsExactlyExpired` | src/shield/InMemoryShield.ts:253-265 | a sweep removes the expired keys and no other |
| `ShieldService.CacheAnswersIff` | src/shield/InMemoryShield.ts:100-169 | after a request that the store answered, the next one is answered by the cache exactly when the quota was used up and the block has not ended: blocked, with the first's figures, at no cost to the store |
| `ShieldService.GivesWayIff` | src/shield/InMemoryShield.ts:130-169 | a cached key gives way exactly when another is newly blocked, the cache is full and the key is the oldest |
| `ShieldService.CacheStaysBounded` | src/shield/InMemoryShield.ts:130-169 | the cache never holds more than its bound, and what was blocked last is in it |
| `ShieldService.DecrementUnblocks` | src/shield/InMemoryShield.ts:175-178 | after a decrement the key's next request is the store's to answer; other keys stay cached |
| `ShieldRuns.RequestAgrees` | src/shield/InMemoryShield.ts:100-169 | in related states a request gets the same answer from both stores and leaves them related |
| `ShieldRuns.ShieldingChangesNoAnswer` | src/shield/InMemoryShield.ts:100-169 | over every run of requests, reads, sweeps, unshields, shield evictions, resets, deletes, sets and purges, with stores of any maxKeys that have not evicted the key live, the shielded and the bare fixed-window store give the same verdict, remaining quota and reset time |
| `ShieldRuns.ShieldingChangesNoAnswerFewKeys` | src/shield/InMemoryShield.ts:100-169 | with at most maxKeys keys, or unbounded stores, they always do |
| `ShieldLimits.RequestsAgreeIff` | src/shield/InMemoryShield.ts:100-169 | after any run, evictions included, requests of every cost get the same answer from both exactly when the windows they are counted in are alike |
| `ShieldLimits.EvictionCanDisagree` | src/shield/InMemoryShield.ts:100-169 | a run on stores of one key in which the cache blocks a key that the bare store has evicted and allows |
| `ShieldLimits.ReadDiffersIff` | src/shield/InMemoryShield.ts:205-222 | from the state before the call: exactly when a `get` through the shield differs from one of the bare store |
| `ShieldLimits.CachedReadDiffers` | src/shield/InMemoryShield.ts:205-222 | a run after which a cached key reads as blocked and the bare store as open |
| `ShieldLimits.UnshieldedReadDiffers` | src/shield/InMemoryShield.ts:205-222 | a run after which an unshielded key reads as open and the bare store as blocked |
| `ShieldLimits.DecrementAgreesIff` | src/shield/InMemoryShield.ts:175-178 | after any run in which neither store evicted the key live: exactly when a decrement leaves both answering requests of every cost alike |
| `ShieldLimits.DecrementCanDisagree` | src/shield/InMemoryShield.ts:175-178 | a run after which the shielded store allows and the bare one blocks |
| `InMemoryShield.InMemoryShield.CacheBlock` | src/shield/InMemoryShield.ts:130-169 | a full cache drops its oldest key; the block lasts until the reset time unless a duration is set |
| `InMemoryShield.InMemoryShield.Increment` | src/shield/InMemoryShield.ts:100-123 | the model's answer; each call is counted as saved or as a store call, and a saved one leaves the store alone |
| `InMemoryShield.InMemoryShield.Sweep` | src/shield/InMemoryShield.ts:253-265 | the sweeping loop is the model's sweep |
| `InMemoryShield.InMemoryShield.Decrement` | src/shield/InMemoryShield.ts:175-178 | the key leaves the cache and the inner store is decremented |
| `InMemoryShield.InMemoryShield.Get` | src/shield/InMemoryShield.ts:205-222 | a live cache entry wins over the store |
| `GroupedWindows.MergeGroupedResults` | src/strategies/rate-limit-engine.ts:688-732 | the passes compute the merge whose meaning `GroupedWindows.MergedMeaning` states |
| `GroupedWindows.MergedMeaning` | src/strategies/rate-limit-engine.ts:688-732 | the merged result is the first unavailable answer as it is; else the first block with nothing remaining; else the least remaining, most hits and latest reset, attained |
| `GroupedWindows.ComputeBindingSlotIndex` | src/strategies/rate-limit-engine.ts:653-686 | the blocked slot with the latest reset, else the least-index minimum of remaining |
| `GroupedWindows.VerdictIff` | src/strategies/rate-limit-engine.ts:688-732 | the verdict is blocked exactly when a slot blocked and no unavailable slot had let the request through before it |
| `GroupedWindows.BlockReadsAsAllowed` | src/strategies/rate-limit-engine.ts:688-732 | a store that is down before a full one: the caller is told that the request is allowed |
| `GroupedCounts.RunsLeaveOrder` | src/stores/memory-store.ts:795-909 | every run of a store with a forward clock leaves its stamps in order, so the slots that the following rows speak of are those that runs leave |
| `GroupedCounts.SlotsLeftWith` | src/strategies/rate-limit-engine.ts:595-644 | for every mix of blocking, throwing and unavailable slots, each slot's count at any time from the request on: untouched, its own increment, or given back, with the exact drift of sliding slots |
| `GroupedCounts.SlotsLeftWithNow` | src/strategies/rate-limit-engine.ts:595-644 | at the request's instant kept charges count their cost and every other slot counts what it did |
| `GroupedCounts.ReturnInvisibleIff` | src/strategies/rate-limit-engine.ts:617-637 | giving back is invisible at a later time exactly for fixed slots, after the window, or when nothing that counted has expired |
| `GroupedCounts.BlockedOrThrownKeeps` | src/strategies/rate-limit-engine.ts:595-644 | with every store working or throwing, which slots keep their charge, and the verdict |
| `GroupedCounts.BlockedOrThrownLeavesOthers` | src/strategies/rate-limit-engine.ts:321-347 | at the request's instant a block charges only the blocking slot, in draft mode not even that; a throw charges nobody |
| `GroupedCounts.DraftTraceAtIff` | src/strategies/rate-limit-engine.ts:321-347 | exactly when a blocked draft shows at a given later time |
| `GroupedCounts.DraftLeavesNoTraceIff` | src/strategies/rate-limit-engine.ts:321-347 | a blocked draft shows at no later time exactly when no unavailable slot had let it through and every slot it charged holds nothing that can expire first |
| `GroupedCounts.DraftTraceRemains` | src/strategies/rate-limit-engine.ts:321-347 | a state in which a draft that was given back still counts later |
| `RateLimitEngine.RateLimitEngine.ChargeSlots` | src/strategies/rate-limit-engine.ts:605-616 | slots are charged in turn up to the first block or throw |
| `RateLimitEngine.RateLimitEngine.ReturnSlots` | src/strategies/rate-limit-engine.ts:617-637 | exactly the first slots are given back |
| `RateLimitEngine.RateLimitEngine.Consume` | src/strategies/rate-limit-engine.ts:595-644 | final stores, verdict, blocking and binding slot are those of the model; an available verdict reports the binding slot's figures, when allowed its remaining quota |
| `ClusterService.InitAnswered` | src/cluster/ClusterStorePrimary.ts:152-219 | an init is refused exactly when it states a version other than 1; an accepted one registers an empty store of its strategy with the primary's maxKeys, or finds its prefix served and changes nothing |
| `ClusterService.CallAnswered` | src/cluster/ClusterStorePrimary.ts:221-337 | a call on a served prefix runs once on that prefix's store and is answered with its result or an acknowledgement; any other fails and changes nothing |
| `ClusterService.ReplySettlesIff` | src/stores/ClusterStore.ts:171-239 | which replies end which waiting call, and how; which change the readiness of a worker |
| `ClusterService.BecomesReady` | src/stores/ClusterStore.ts:171-196 | from every reachable state a waiting worker with a usable init has a continuation in which it becomes ready |
| `ClusterService.WaitingWorkerCanBeServed` | src/cluster/ClusterStorePrimary.ts:106-263 | and in which any call of it resolves, an increment with a result |
| `ClusterRuns.NothingIsReset` | src/cluster/ClusterStorePrimary.ts:152-204 | over any stretch of a run, repeated inits included, no store is replaced and nothing it served is forgotten |
| `ClusterRuns.AcceptedIsSerial` | src/cluster/ClusterStorePrimary.ts:106-130 | every result a worker accepts is the answer at one position of the serial run of its prefix's store, and no other position belongs to that call |
| `ClusterQuota.EachCallSettlesOnce` | src/stores/ClusterStore.ts:198-286 | under delays, reordering, duplicated or lost replies and timeouts, a call is waiting or has settled exactly once |
| `ClusterQuota.WorkersShareOneWindow` | src/cluster/ClusterStorePrimary.ts:221-263 | the cost that all workers together had accepted for a key in any window is within the cap, whatever they do to other keys |
| `ClusterQuota.WorkersShareOneWindowFewKeys` | src/cluster/ClusterStorePrimary.ts:221-263 | the same without a hypothesis on evictions, when the prefix serves at most maxKeys keys |
| `Cluster.ClusterStore.SetPending` | src/stores/ClusterStore.ts:241-249 | a duplicate id rejects the call it supersedes |
| `Cluster.ClusterStore.DispatchResult` | src/stores/ClusterStore.ts:198-229 | a result settles its pending call as the protocol's step |
| `Cluster.ClusterStore.DispatchAck` | src/stores/ClusterStore.ts:231-239 | an acknowledgement settles only calls that wait for one |
| `Cluster.ClusterStore.HandleIncomingMessage` | src/stores/ClusterStore.ts:171-196 | every message, init answers included, is the protocol's step |
| `Cluster.ClusterStore.Invoke` | src/stores/ClusterStore.ts:251-286 | the call is pending before its request leaves |
| `Cluster.ClusterStore.OnTimeout` | src/stores/ClusterStore.ts:259-262 | a timeout rejects the call and forgets it |
| `Cluster.ClusterStorePrimary.HandleInit` | src/cluster/ClusterStorePrimary.ts:152-219 | version checks, and an existing store is shared, never replaced: the step that `ClusterService.InitAnswered` states |
| `Cluster.ClusterStorePrimary.Serve` | src/cluster/ClusterStorePrimary.ts:221-337 | one operation on the prefix's own store; all others are untouched |
| `Cluster.ClusterStorePrimary.DispatchWorkerMessage` | src/cluster/ClusterStorePrimary.ts:132-150 | every message is the protocol's step |
| `CircuitBreaker.CircuitBreaker.TryAttempt` | src/resilience/CircuitBreaker.ts:79-112 | the attempt is the machine's step, granted or refused |
| `CircuitBreaker.CircuitBreaker.RecordSuccess` | src/resilience/CircuitBreaker.ts:117-130 | a success is the machine's step; it closes only a half-open circuit |
| `CircuitBreaker.CircuitBreaker.RecordFailure` | src/resilience/CircuitBreaker.ts:135-154 | a failure is the machine's step |
| `CircuitBreaker.ResilientStore.BeginIncrement` | src/stores/redis-store.ts:995-1006 | an increment goes to Redis exactly when the breaker grants it |
| `CircuitBreaker.ResilientStore.ShouldRouteQuotaViaInsurance` | src/stores/redis-store.ts:806-808 | a quiet call takes a grant and reports nothing |
| `CircuitBreaker.ResilientStore.OnAnswer` | src/stores/redis-store.ts:1027-1030 | only the answer that closes the circuit raises onRecovery |
| `CircuitBreaker.ResilientStore.OnFailure` | src/stores/redis-store.ts:1048-1066 | only the failure that opens a closed circuit raises onFailover |
| `BreakerRuns.BreakerIsSafe` | src/resilience/CircuitBreaker.ts:79-154 | in every interleaving: grants of a half-open episode never exceed the cap, failures in CLOSED are the streak below the threshold, failovers and recoveries alternate starting with a failover, and reported downtimes are at least the recovery time |
| `BreakerRuns.NoGrantWithinRecovery` | src/resilience/CircuitBreaker.ts:79-103 | no attempt is granted within recoveryTimeMs of any opening |
| `BreakerRuns.LeavesClosedIff` | src/resilience/CircuitBreaker.ts:135-145 | the circuit leaves CLOSED exactly on failureThreshold consecutive failures |
| `BreakerRuns.GrantedIff` | src/resilience/CircuitBreaker.ts:79-112 | in every reachable state, told from the log alone: a call is let through exactly when the circuit is closed, or was opened the recovery time ago and may probe, or is half open with a probe of the episode left |
| `BreakerRuns.ChangesIff` | src/resilience/CircuitBreaker.ts:79-154 | every change of state and the hook it raises, from the log: a half-open circuit closes on an answer and opens on a failure, an open one turns half open with the first call after the recovery time, and a recovery reports the time since the failover |
| `BreakerRuns.IncrementsNeverStick` | src/stores/redis-store.ts:995-1066 | when every granted call reports, the breaker is never stuck half open |
| `BreakerRuns.StuckForever` | src/stores/redis-store.ts:806-808 | half open, probes taken and nobody left to report: every later call is refused, whatever comes |
| `BreakerRuns.NotStuckCanGrant` | src/resilience/CircuitBreaker.ts:79-112 | in every other state some continuation is granted a call |
| `BreakerRuns.QuietCallSticks` | src/stores/redis-store.ts:1258-1263 | one quiet call after a failure sticks the breaker |
| `Percentile.HoarePartition` | src/metrics/percentile.ts:11-25 | splits the range in two non-empty parts around a pivot and rearranges only the range |
| `Percentile.Quickselect` | src/metrics/percentile.ts:31-43 | terminates, rearranges only the range, and returns its k-th smallest, which is what sorting has at k |
| `Percentile.SortedIsKth` | src/metrics/stats.ts:16-27 | the sorted form has the k-th smallest at k, by counting |
| `Percentile.KthUnique` | src/metrics/percentile.ts:27-30 | there is only one k-th smallest value |
| `Percentile.NearestRankMeaning` | src/metrics/stats.ts:8-10 | fewer than p% of the samples are smaller than the percentile, at least p% are no larger |
| `Percentile.PercentileInPlace` | src/metrics/percentile.ts:50-55 | the in-place percentile is the nearest-rank value, and the samples are only rearranged |
| `Percentile.PercentileQuick` | src/metrics/stats.ts:32-37 | the copy-and-select percentile equals the sort-based one |
| `Percentile.PercentilesQuick` | src/metrics/stats.ts:16-27 | the sort-based percentiles, for every list of percentiles |

## Left out

- Framework adapters (Express, Fastify, Hono, NestJS), decorators, the admin interface, header formatting, presets and option merging: plumbing.
- Redis Lua scripts, MongoDB pipelines, PostgreSQL statements and TTL deletion: their meaning lives in servers. DynamoDB is an atomic compare-and-update on one item.
- DynamoDB fixed-window increments and decrements: the fixed window is the two-write instance of the sliding loop; decrements are best effort. Malformed items and errors other than a failed condition are not modelled.
- RedisStore counter synchronisation after recovery and the insurance store's own counting: best effort, with traffic racing it.
- ComposedStore modes `first-available` and `race`, layer labels, summaries, the overflow route map and the last-result cache: bookkeeping that decides nothing, or without a strong invariant. `rollbackDraftForBlockedIncrement` is not modelled.
- Compositions are nested as values; on the heap, `ComposedStore.ComposedStore` has one level over distinct in-process stores. Errors of layers are not modelled.
- Wait timers of the queue are held as a set on the queue object instead of one handle per entry; a store that throws and `getTokensRemaining` are not modelled in the queue.
- OverflowAnswers.AnswersFromCounts: for window stores as layers, as the caps are; a token bucket has no count to compare with one.
- QueueWindow.ReleasedWithinCap: for a store that only this queue uses, under the two hypotheses that `QueueLimits.QuotaHoldsIff` shows to be needed.
- ClusterQuota.WorkersShareOneWindow: for runs in which nobody decrements, resets, sets or deletes the key itself, which give its quota back on purpose; other keys may be. Shutting a limiter down is not part of the protocol machine, and init options are already parsed.
- ShieldRuns.ShieldingChangesNoAnswer: for a constant cap and a block duration taken from the reset time, while neither store has evicted the key live; `ShieldLimits.RequestsAgreeIff` covers runs with evictions.
- Penalty box, key manager, allow and block lists, metrics recording and callbacks of the engine.
- Eviction-velocity warnings, event emitters, audit log, environment detection and observability adapters.
- Floating point: numbers are integers or reals, and token-bucket options are integers with an interval of at least 1 ms; NaN and safe-integer clamps are not modelled.
