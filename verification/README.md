# pulse_map in Dafny

`pulse_map` is a bounded cache. A bucket packs four slots and their eviction metadata into
64 bytes; keys and values that do not fit in a slot live in a free-list slab; entries expire
by insertion epoch; the concurrent map grows by rehash and records reads in a lossy ring.
This project models that code and proves what it promises, from single bits to whole runs
and interleavings.

Verify everything with `dafny verify dfyconfig.toml`.

## How the model is laid out

| files | what they model |
|---|---|
| `Base`, `Hashing` | keys, stamps, the hash split, masks and table sizes. The hash is a function-valued parameter; every theorem holds for all of them, colliding ones included. |
| `MetaWord`, `MetaCas` | the packed 64-bit metadata word as real shifts and masks, proved to act on four records; concurrent `on_access` calls as a step system |
| `Slots`, `Slab` | the 14-byte slot; the slab entry and pool as classes over arrays |
| `Stores`, `Views`, `Table` | the stored table with its representation invariant `Good`; the bridge to what it means; the mutable class both maps use |
| `Cells`, `RawSpec`, `RawRuns`, `RawMap` | the meaning of a table, the raw map as functions on it, theorems over all runs, and the class (with its iterator) proved equal to those functions |
| `History`, `Scan` | what the access counters mean over a history; scan resistance |
| `AccessRing`, `AccessRingWrap`, `AccessBuffer` | the access ring as a step system of single atomic operations, its 64-bit wrap-around, and the class |
| `SyncSpec`, `Rehash`, `SyncRuns`, `SyncResults`, `ConcurrentMap` | the concurrent map used by one thread: deferred events, `resize`, auto-growth, whole histories |
| `LockSys`, `LockSteps`, `StoreGrow` | the concurrent map at lock granularity: any number of threads, any operations, any schedule |
| `LockSafety` to `LockGrow`, `LockSections` to `LockSectionEffects`, `LockRuns` | every step keeps the invariant, and the account of bucket sections and stamps |
| `LockTheorems`, `LockAtomic`, `LockTime`, `LockQueue`, `LockGrowth`, `LockCalls`, `LockEvictions`, `LockOrder` | what holds in every reachable state: current hits, slab ownership, atomic sections, exact expiry, the event queue, growth, calls from begin to end, evictions, lock order and progress |
| `Sharded` | shard routing |

Two facts the source comments state differently. The slab slot holds 39 fingerprint bits
(7 + 32), on top of the 7 in the word. And `resize` keeps keys, values, epochs and TTLs, but
`on_insert` resets the counters of every entry, so the next victims may differ.

In the lock-granularity system a step is the work between two lock operations. Scanned slots,
the epoch and the length counter have steps of their own, so other threads may run between
them; the eviction statistic and the two loads of the expiry condition share a step with their
neighbours. An operation takes effect inside its own bucket section, and `log` records effects
in that order.

## Model

| member | source | states |
|---|---|---|
| MetaWord.SetStateRefines | src/engine/meta.rs:72-78 | Storing a state changes the state of that slot's record and no other field of any slot. |
| MetaWord.SetH2Refines | src/engine/meta.rs:89-95 | Storing a fingerprint changes that slot's seven fingerprint bits and nothing else. |
| MetaWord.SetPrioRefines | src/engine/meta.rs:107-113 | Storing a priority replaces the two counters of one slot and nothing else. |
| MetaWord.OnInsertRefines | src/engine/meta.rs:254-256 | A fresh entry starts at frequency 0 and recency 1; the other three records are untouched. |
| MetaWord.OnAccessRefines | src/engine/meta.rs:208-250 | The packed computation equals, for every word, boosting one record and ageing the other Full ones. |
| MetaWord.ComputeOnAccess | src/engine/meta.rs:210-238 | The loop over the slots computes that word. |
| MetaWord.FindFreeSlot | src/engine/meta.rs:170-180 | The first slot that is not Full; None exactly when all four are. |
| MetaWord.FindEvictTarget | src/engine/meta.rs:184-201 | A Full slot of least priority, the first on ties; None exactly when no slot is Full. |
| MetaWord.ScalarMaskIsCandidates | src/engine/meta.rs:140-160 | The mask names exactly the Full slots with this fingerprint. |
| MetaWord.SimdEqualsScalar | src/simd.rs:21-50 | The sixteen-lane comparison gives the same mask as the scalar code for every word and fingerprint. |
| MetaWord.ClearLowest | src/raw.rs:156-158 | `m & (m - 1)` removes exactly the slot `trailing_zeros` names, which is the least one in the mask. |
| MetaWord.Walk | src/raw.rs:154-158 | The mask loop visits the mask's slots exactly once each, in ascending order. |
| MetaCas.NoLostUpdate | src/engine/meta.rs:208-250 | In every interleaving of compare-exchange loops, spurious failures included, the word is the completed accesses applied in some order, and each thread's calls complete once each in its own order. |
| Slots.InlineRoundTrip | src/engine/slot.rs:45-89 | A slot set inline reads back as inline with the same key and value, empty ones included. |
| Slots.SlabRoundTrip | src/engine/slot.rs:95-127 | A slot set to a slab index reads back the 39 fingerprint bits and the whole 64-bit index. |
| Slab.SlabEntry.Rewrite | src/engine/slab.rs:54-69 | The entry holds the new pair; the buffer and its capacity are reused whenever the pair fits. |
| Slab.SlabPool.Alloc | src/engine/slab.rs:97-124 | The last freed index, else a new one, now holds the pair; every other entry keeps its own. |
| Slab.SlabPool.Free | src/engine/slab.rs:128-131 | The index joins the free list; no entry's contents change. |
| Hashing.MaskedIsLow | src/sync.rs:228-235 | Indexing with the mask 2^k - 1 is taking the low k bits, for every k. |
| Hashing.PlainIndex | src/sync.rs:228-235 | The index of an unsharded table is the 64-bit hash masked with the bucket count less one, for every power-of-two count. |
| Hashing.HashSplit | src/engine/hash.rs:18-29 | The three fingerprints are the 7, 7 and 32 bits below each other at the top of the hash; with its low 18 bits they rebuild it. |
| Hashing.IndexNested | src/sync.rs:228-235 | Keys sharing a bucket of a larger table share one in every smaller table, with and without shard bits removed. |
| Stores.MatchesIsKey | src/engine/slot.rs:138-150 | On a good table the fingerprint filters never change the answer: a slot matches exactly when it holds the key. |
| Stores.PoolHasRoom | src/engine/slab.rs:97-124 | When the free list is empty there is room for one more entry within four per bucket, because each entry belongs to a different live slot. |
| Stores.ReleaseGood | src/raw.rs:161-163 | Freeing a slot's slab entry before rewriting the slot keeps the representation invariant and every other pair. |
| Stores.PlaceGood | src/raw.rs:164-170 | Storing a new key in a claimed slot keeps location, fingerprints, uniqueness and slab ownership, shows the pair there and moves no other pair. |
| Stores.VacateGood | src/raw.rs:307-308 | Marking a claimed slot Tombstone keeps the invariant and every other pair. |
| Views.UpdateView | src/raw.rs:156-175 | Freeing, storing, counting an access and stamping together update exactly one entry in place. |
| Views.FreshView | src/raw.rs:177-218 | Reclaiming, storing, announcing and stamping together replace exactly one cell by a fresh entry. |
| Views.RemoveView | src/raw.rs:292-314 | Freeing, tombstoning and clearing together empty exactly one cell. |
| Tables.Table.Locate | src/raw.rs:154-175 | The scan over fingerprint candidates finds the slot that holds the key, exactly when there is one. |
| Tables.NotFoundAbsent | src/raw.rs:154-175 | A key its bucket does not hold is in no slot of the table. |
| RawMaps.RawMap.constructor | src/raw.rs:60-76 | An empty map of the next power of two buckets, everything zero. |
| RawMaps.RawMap.SetTtl | src/raw.rs:91-93 | The default TTL is the given one; nothing else changes. |
| RawMaps.RawMap.Insert | src/raw.rs:146-218 | The whole new state equals the specification's insert: epoch, bucket, length and eviction counter. |
| RawMaps.RawMap.FindFreeOrExpired | src/raw.rs:221-234 | The first slot of the bucket that is free or expired. |
| RawMaps.RawMap.IsExpired | src/raw.rs:109-121 | Expired means older, in wrapping epochs, than the effective TTL; 0 and the maximum never expire. |
| RawMaps.RawMap.Get | src/raw.rs:237-267 | Returns the specification's answer, and the state changes only by counting the hit. |
| RawMaps.RawMap.Peek | src/raw.rs:270-289 | Returns the specification's answer and changes nothing. |
| RawMaps.RawMap.Remove | src/raw.rs:292-314 | True exactly for a resident key, which is then gone; the length drops by one and never underflows. |
| RawMaps.RawIter.Next | src/iter.rs:33-62 | Yields the first pair still to come and steps past it; None exactly when nothing is left. |
| RawMaps.IterationLength | src/iter.rs:33-62 | A full iteration yields as many pairs as there are Full slots. |
| RawRuns.HitIsLastInsert | src/raw.rs:146-289 | In every run a hit is the value of the last insert of that key with no remove since; a key with no such insert is absent. |
| RawRuns.OneSlotPerKey | src/raw.rs:146-218 | In every run a resident key sits in exactly one slot, in the bucket its hash selects, and is found there. |
| RawRuns.RemovedIsAbsent | src/raw.rs:292-314 | After a remove the key is absent through any further operations until it is inserted again. |
| RawRuns.ReadYourWrite | src/raw.rs:132-267 | A lookup right after an insert returns the inserted value, for every TTL and every state. |
| RawRuns.DefaultIsLast | src/raw.rs:91-93 | In every run the default TTL is the argument of the last set_ttl, 0 before any. |
| RawRuns.InsertPlaces | src/raw.rs:146-234 | For every map and TTL an insert updates a resident key in place, else fills the first vacant or outlived cell of the key's bucket, else the least-priority one; counters, stamp, length and evictions follow cell by cell, and no other bucket changes. |
| RawRuns.OnlyTheseLeave | src/raw.rs:177-314 | A resident key is gone after an operation only by its remove, or because an absent key took its cell: an outlived one, or the least-priority one of four that are not. |
| RawRuns.HiddenIffOld | src/raw.rs:91-129 | A resident entry is hidden if and only if its TTL (or that of the last set_ttl) is finite and more inserts than that came after its own, across counter wrap. |
| RawRuns.ExpiredStaysHidden | src/raw.rs:109-129 | Under a fixed default TTL an expired key stays hidden until it is inserted again. |
| RawRuns.DisplacesOnlyWhenFull | src/raw.rs:177-234 | An insert drops an unexpired entry only when all four slots are Full and unexpired, and then one of least priority. |
| RawRuns.InsertsBalance | src/raw.rs:146-314 | Over every run: inserts = updates + evictions + successful removes + length, and length is the number of Full slots. |
| History.ClosedForm | src/engine/meta.rs:208-256 | Over any history, frequency is min(15, accesses since the insert), and recency counts down from 7 after a hit, or from 1 after an insert, once per access to another slot. |
| History.RunIsTrace | src/raw.rs:146-314 | Every bucket of every run of the raw map is such a history. |
| History.RunCounters | src/engine/meta.rs:208-256 | So the closed form gives the counters of every entry of every run. |
| History.VictimIsNotRecent | src/engine/meta.rs:184-202 | Among hit slots of equal frequency the victim is never the more recently hit one, unless both recencies are 0. |
| Scan.ScanResistance | src/raw.rs:177-213 | From any state with TTL off, any scan of fresh keys, with reads of older keys and removes in between, evicts at most one ever-hit entry per bucket. |
| AccessRing.StepInv | src/engine/access_buffer.rs:55-106 | Each single atomic load, compare-exchange or store by any thread keeps the ring invariant. |
| AccessRing.RunSafety | src/engine/access_buffer.rs:55-106 | In every interleaving of any number of threads, over unlimited reuse of slots: a delivered event is the payload of the push that claimed its ticket, no ticket is delivered twice, a consumed ticket is delivered or in one pop's hands, and tail <= head <= tail + capacity. |
| AccessRing.ClaimedPopReturnsItsPayload | src/engine/access_buffer.rs:83-106 | A pop that holds a ticket will report that ticket's payload whatever the others do. |
| AccessRing.EventsWerePushed | src/engine/access_buffer.rs:55-80 | In every interleaving an event in the ring, or on its way there, is the argument of some push. |
| AccessRing.RefusalHasReason | src/engine/access_buffer.rs:55-106 | In every interleaving a push or pop gives up only because its ticket went to another call, the ring was full or empty, or the call that has the slot had not finished with it. |
| AccessRing.QuietPush | src/engine/access_buffer.rs:55-80 | With no call in flight a push succeeds exactly when the event is valid and the ring has room. |
| AccessRing.QuietDrain | src/engine/access_buffer.rs:110-117 | With no call in flight a drain hands out the queued events in ticket order, up to its limit. |
| AccessRing.ClearEmpties | src/engine/access_buffer.rs:121-123 | After any run that left no call in flight, `clear` delivers everything queued and leaves the ring empty. |
| AccessRingWrap.WrapRun | src/engine/access_buffer.rs:55-106 | Counters modulo any multiple of the capacity run in step with unbounded ones as long as no thread sleeps across the counter range. |
| AccessRingWrap.SixtyFourBitSafety | src/engine/access_buffer.rs:36-106 | So with 64-bit counters and any power-of-two capacity of at least 2 every delivery is the payload of its own push, once. |
| AccessBuffers.AccessBuffer.Push | src/engine/access_buffer.rs:55-80 | Appends to the queue exactly when the event is valid and the queue is not full, and says which. |
| AccessBuffers.AccessBuffer.Pop | src/engine/access_buffer.rs:83-106 | Takes the oldest event, or nothing from an empty queue. |
| AccessBuffers.AccessBuffer.Clear | src/engine/access_buffer.rs:121-123 | Empties the queue. |
| SyncSpec.SimulateInsert | src/sync.rs:335-407 | Right after its drain an insert sees the entries and counters of the raw map, so it picks the same victim and leaves the same state. |
| SyncSpec.DeferredSimulatesInline | src/sync.rs:335-458 | With TTL off and at most 64 read hits between inserts, deferring is invisible over any run: same answers, and the raw map's state is this one with the pending events applied. |
| Rehash.SucceedsIffFits | src/sync.rs:616-655 | A rehash attempt overflows exactly when some new bucket is asked for more than four entries. |
| Rehash.GrowthFits | src/sync.rs:613-668 | Growing a well-placed table, plain or sharded, to any larger power of two fits at the first attempt, so the retry branch is unreachable. |
| Rehash.PlacedExactly | src/sync.rs:626-652 | The rebuilt table holds exactly the collected entries, each in the bucket of its key. |
| Rehash.PlacedInOrder | src/sync.rs:626-652 | A new bucket has its items in its first cells in the order the old slots were scanned, each with frequency 0 and recency 1, and nothing else. |
| Rehash.GrowthKeepsItems | src/sync.rs:580-667 | Growth keeps the set of (key, value, epoch, TTL) over all Full slots, places each by its hash, and stores the count already there. |
| Rehash.GrowthKeepsAnswers | src/sync.rs:556-669 | Every lookup at the same epoch answers after a resize as before it. |
| ConcurrentMaps.TryRehash | src/sync.rs:617-652 | One attempt builds that table in place, and fails exactly when a bucket would overflow. |
| ConcurrentMaps.RehashLoop | src/sync.rs:613-668 | The retry loop stops at the first attempt, at the requested size. |
| ConcurrentMaps.ConcurrentMap.Collect | src/sync.rs:580-611 | Every Full slot is collected once in slot order with its stamp, expired ones and empty keys included. |
| ConcurrentMaps.ConcurrentMap.SetTtl | src/sync.rs:242-244 | The default TTL is the given one; nothing else changes. |
| ConcurrentMaps.ConcurrentMap.Resize | src/sync.rs:556-669 | The new state is the grown map with no queued events, of exactly the requested power of two, or unchanged if already that large. |
| ConcurrentMaps.ConcurrentMap.DrainBatch | src/sync.rs:335-341 | Applies the oldest 64 queued accesses in order and leaves the rest queued. |
| ConcurrentMaps.ConcurrentMap.Insert | src/sync.rs:300-407 | Equals the specification: grow when crowded, drain, then store. |
| ConcurrentMaps.ConcurrentMap.Get | src/sync.rs:413-469 | Returns the specification's answer; a hit queues one event, or none when the ring is full, and changes nothing else. |
| ConcurrentMaps.ConcurrentMap.Peek | src/sync.rs:473-505 | Returns the specification's answer and changes nothing. |
| ConcurrentMaps.ConcurrentMap.Remove | src/sync.rs:513-545 | True exactly for a resident key, which is then gone; queued events stay. |
| SyncRuns.HitIsLastInsert | src/sync.rs:300-669 | In every history of one thread, with resizes and auto-growth anywhere, a hit is the value of the last insert of its key with no remove since. |
| SyncRuns.HiddenIffOld | src/sync.rs:242-279 | In every such history a resident entry is hidden if and only if its TTL (or that of the last set_ttl) is finite and more inserts than that came after its own. |
| SyncRuns.ExpiredStaysHidden | src/sync.rs:260-279 | In every such history an expired key stays hidden until it is inserted again, under a fixed default. |
| SyncRuns.GrownOk | src/sync.rs:580-667 | Growth fits, and the grown table accounts for the whole history as the old one did: each entry from its last insert, in its bucket, alone with its key. |
| SyncRuns.ResizeKeepsAnswers | src/sync.rs:556-669 | After any such history a resize changes no answer. |
| SyncResults.InsertPlaces | src/sync.rs:342-407 | For every TTL an insert updates a resident key in place, else fills the first vacant cell of the key's bucket, expired entries getting no preference, else the least-priority one; counters, stamp, length and evictions follow cell by cell, and no other bucket changes. |
| SyncResults.ReadYourWrite | src/sync.rs:300-505 | A lookup right after an insert returns the inserted value, whatever the TTLs, the queue and the growth. |
| SyncResults.OnlyTheseLeave | src/sync.rs:374-545 | In every history a resident key is gone after a step only by its remove, or because an absent key was inserted while its bucket, as drained, had four entries and it was the one of least priority. |
| SyncResults.GetQueues | src/sync.rs:451-458 | A `get` queues an event exactly for a hit while fewer than 4096 are pending; the event names the cell that holds the key. |
| SyncResults.DrainKeepsSettled | src/sync.rs:335-341 | A drain takes the oldest 64 events, or all, and does not change the cells with every pending event applied. |
| SyncResults.SizeRule | src/sync.rs:301-312 | In every history an insert doubles the buckets exactly when the map auto-resizes and 4 * len > 12 * buckets before it, resize gives the next power of two or keeps the size, and nothing else changes it. |
| SyncResults.GrowthEmptiesQueue | src/sync.rs:567-569 | In every history a step that changes the bucket count leaves no event queued. |
| SyncResults.QueueIsRecent | src/sync.rs:458-569 | In every history each queued event was recorded by a hit, in the cell it names, at an earlier step with the present bucket count. |
| SyncResults.DefaultIsLast | src/sync.rs:242-244 | In every history the default TTL is the argument of the last set_ttl, across resizes. |
| SyncResults.InsertsBalance | src/sync.rs:300-545 | In every history: inserts = updates + evictions + successful removes + length, and length is the number of Full slots, across resizes. |
| StoreGrow.FillIsPlaceAll | src/sync.rs:616-667 | Filling an empty table with distinct keys gives a table with the whole representation invariant. |
| LockSys.RelockOk | src/sync.rs:52-86 | Taking only free locks keeps the lock words in agreement with who holds what: one writer or readers, one holder per bucket and mutex. |
| LockRuns.StepKeeps | src/sync.rs:300-669 | Every step of every operation keeps the whole invariant of the concurrent map, and the account of what each bucket section has done and when each slot was stamped. |
| LockTheorems.HitsAreCurrent | src/sync.rs:300-544 | In every interleaving of insert, get, peek, remove and resize a hit returns the value of the latest insert of its key with no remove since. |
| LockTheorems.MissesAreTrue | src/sync.rs:345-385 | In every interleaving an operation takes its "not found" path only when no slot of the table holds the key. |
| LockCalls.LookupAnswers | src/sync.rs:413-505 | In every interleaving a lookup answers for its bucket as it was when its lock was taken: it ends without a hit only if no cell held the key or the key's entry was older than its TTL, and its hit is the entry's value. |
| LockCalls.DrainsFirst | src/sync.rs:314-341 | In every interleaving an insert that has come to its bucket lock has advanced the epoch exactly once and drained until the queue was empty, a pop failed, or 64 events were applied. |
| LockCalls.ResizeTakesEffect | src/sync.rs:556-669 | In every interleaving, once a `resize` has returned the table has at least the requested power of two buckets. |
| LockTheorems.LogsUnderLock | src/sync.rs:300-544 | "Latest" is in bucket-lock order: each effect on a key happens while its thread holds the lock of that key's bucket. |
| LockTheorems.SlabOwnership | src/engine/slab.rs:97-131 | In every reachable state live slots use different entries, an entry is free exactly when no live slot uses it, the free list has no repeats, the pool has at most four entries per bucket, and only the bucket-lock holder is rewriting a slot. |
| LockTheorems.EventsAreCurrent | src/sync.rs:335-341 | Every event reaching the drain callback names a slot of the current table, was recorded after the last resize, and changes no state, fingerprint, key, value or TTL. |
| LockQueue.QueueSteps | src/sync.rs:335-569 | In every interleaving an action adds an event exactly when it is an unexpired hit of a `get` that the ring accepts, which it never does from 4096 on, and the event names a live slot holding that key; a drain with fewer than 64 behind it takes exactly the oldest event; enlarging the table empties the queue; nothing else changes it. |
| LockQueue.EventsWereHits | src/sync.rs:335-458 | In every interleaving an event that is queued, or in the hands of a draining thread, was recorded by a hit in the slot it names, under the layout it carries. |
| LockTheorems.CounterExact | src/sync.rs:397-406 | The counter differs from the Full slots only by operations still holding a bucket lock, never underflows, and is exact when nobody is inside. |
| LockEvictions.EvictionsExact | src/sync.rs:374-387 | In every interleaving the eviction counter is the number of times an insert claimed a slot of a bucket that, when locked, held four other keys. |
| LockAtomic.SectionIsAtomic | src/sync.rs:342-544 | In every interleaving, when an operation is about to free its bucket lock, the bucket is the result of that one operation on the bucket as it was when the lock was taken: an in-place update counted as an access, a fresh entry in the first free slot or else in place of the least-priority one, a removal, or nothing. The lock has been held ever since. |
| LockAtomic.InsertFinishes | src/sync.rs:345-403 | Cell by cell, an insert's section updates its resident key in place, else fills the first vacant cell, else the least-priority one, and leaves the other cells as they were. |
| LockAtomic.OthersUntouched | src/sync.rs:52-86 | In every interleaving a step changes no settled slot (pair, counters, stamp) of a bucket whose lock its thread does not hold, `resize` excepted. |
| LockAtomic.OnlyVictimsLeave | src/sync.rs:374-402 | Across such a section an entry leaves only by a remove of its key, or as the least-priority victim of a full bucket for a key that was not there. |
| LockAtomic.DrainIsTouch | src/sync.rs:335-341 | In every interleaving a drained event is exactly one access of its bucket. |
| LockTime.EpochCountsInserts | src/sync.rs:314-315 | In every interleaving the epoch is, modulo 2^64, the number of inserts that have advanced it. |
| LockTime.StampsAreLoaded | src/sync.rs:276-279 | Every stamp is that count at the moment its own insert loaded the epoch, after storing its pair. |
| LockTime.DefaultIsLast | src/sync.rs:242-244 | In every interleaving the default TTL is the argument of the last set_ttl, 0 before any. |
| LockTime.ExpiryIsExact | src/sync.rs:260-273 | In every interleaving, resizes included, a lookup that found its key is hidden if and only if the TTL of the key's latest insert (or that of the last set_ttl) is finite and more epoch advances than that came after its stamp, given fewer than 2^64 of them. |
| LockTime.HiddenUntilReinserted | src/sync.rs:260-273 | Under a fixed default an expired key stays hidden in every later state of every interleaving, until it is inserted again. |
| LockGrowth.ResizeLosesNothing | src/sync.rs:556-669 | Wherever a rehash happens in an interleaving, the table gets exactly the requested power of two or stays, the length and the set of (key, value, epoch, TTL) stay, and growth empties the queue and packs each new bucket in slot order with fresh counters. |
| LockGrowth.GrowthIsAsked | src/sync.rs:301-312 | In every interleaving a growth is a `resize` to its caller's size, or an auto-resizing insert's that saw more than three quarters taken and asks for twice the buckets it saw. |
| LockGrowth.LoadTestIsExact | src/sync.rs:301-312 | The load test asks for twice the buckets exactly when 4 * len > 12 * buckets (and twice the buckets is a size a map can have), and otherwise the insert goes on. |
| LockGrowth.GrowsBeforeStoring | src/sync.rs:301-335 | In every interleaving an auto-resizing insert past its load test made one, and if that found more than three quarters taken the table has at least doubled since. |
| LockGrow.Alone | src/sync.rs:560-569 | While a thread rehashes, no other thread is in a read-locked part and no slot is half written. |
| LockOrder.LocksInOrder | src/sync.rs:300-544 | Every step takes at most one lock, in the order RwLock, bucket, slab, epochs; the drain callback never nests bucket locks. |
| LockOrder.NoDeadlock | src/sync.rs:300-669 | In every reachable state with an unfinished operation some unfinished operation can step, even if queued writers hold back new readers. |
| LockOrder.OperationsFinish | src/sync.rs:300-669 | From its begin to its end an operation takes at most 1005 unblocked steps of its own, whatever the schedule; one that has not ended has taken fewer. |
| Sharded.JoinSplit | src/sharded.rs:36-39 | Shard and bucket hash together determine the 64-bit hash. |
| Sharded.SplitJoin | src/sharded.rs:36-39 | Every pair of a shard and a 60-bit bucket hash comes from a hash, and comes back. |
| Sharded.IndexIgnoresShard | src/sharded.rs:36-39 | Changing only the shard bits never changes the bucket index, at any table size. |
| Sharded.EveryPairReachable | src/sharded.rs:36-83 | For every power-of-two bucket count up to 2^60 and each shard and bucket index there is a hash whose keys are all routed to that shard and indexed to that bucket. |
| Sharded.HomesDiffer | src/sharded.rs:81-83 | Keys whose hashes differ only in bits 14 to 17 live in different shards, at the same index of every table size. |
| Sharded.ShardsIndependent | src/sharded.rs:86-144 | Although keyed operations, set_ttl and resize_all are applied one by one to the sixteen shards, each shard runs exactly the part of the history that concerns it. |
| Sharded.HitIsLastInsert | src/sharded.rs:86-133 | Over any history of operations, resize_all and auto-growth, a hit is the value of the key's last insert anywhere in it, with no remove since; a key without one is a miss. |
| Sharded.DefaultIsLast | src/sharded.rs:139-143 | Over any history every shard's default TTL is the argument of the map's last set_ttl. |
| Sharded.SetTtlAll | src/sharded.rs:139-143 | Run on the sixteen map objects: each takes the new default and is otherwise as it was. |
| Sharded.ResizeAll | src/sharded.rs:129-133 | Run on the sixteen map objects: they stay valid and share nothing, each is the grown map, and no lookup on any of them changes its answer. |
| Sharded.ResizeAllKeepsAnswers | src/sharded.rs:129-133 | At any point of any history, resizes among it, resize_all moves no key out of reach and changes no answer. |

## Left out

- The hash function (wyhash): any function from keys to 64-bit words; only its split into index and fingerprints is modelled.
- Weak memory orderings and prefetch: atomics are interleaved atomic steps. `compare_exchange_weak` may fail spuriously in `MetaCas`.
- Raw allocation in the slab: buffers are byte arrays with a capacity. Keys and values together are shorter than 2^32 bytes, since the source truncates longer lengths to 32 bits; the lock-granularity system keeps slab contents as values and has no such bound.
- Table sizes whose bucket vector the allocator refuses: the largest table is 2^56 buckets of 64 bytes, which is what `2 * Pow2(bits) <= MAX_BUCKETS` says in `Resize`. The lock-granularity system ignores a growth request beyond 2^57.
- The `f64` load factor: the auto-growth condition is 4 * len > 3 * capacity.
- Lock poisoning, panics, allocation failure, and `to_bytes`/`from_bytes` code that re-enters the map. A hit returns bytes; decoding them may fail in the source.
- Buckets are values inside a sequence that the table's methods reassign, so aliasing of bucket memory is not captured; the slab's entries and buffers are real objects.
- AccessBuffers.AccessBuffer.Push: counters are unbounded in the class; the 64-bit wrap-around is treated in AccessRingWrap. The rounding of the capacity to a power of two of at least 64 is not modelled; every capacity from 2 up is covered.
- AccessRingWrap.WrapRun: assumes no thread sleeps between loading a counter and its compare-exchange while nearly 2^64 tickets pass; the program has no defence against that either.
- In the lock-granularity system a ring push or pop is one step that may fail for no reason, because the ring's own protocol is proved separately; a resize empties the queue in one step; private work between two shared accesses is one step; set_ttl may happen at any time.
- SyncSpec.DeferredSimulatesInline: needs TTL off and no resize, because the raw map reclaims expired slots first and a resize resets counters; both differences are the code's.
- Scan.ScanResistance: for the raw map only. In the concurrent map a late event may credit a slot's new occupant.
- Sharded.ShardsIndependent: routed operations other than resize_all work on the sixteen shards as values; each shard's own operations are proved on the object in ConcurrentMap.
- RawRuns.HiddenIffOld: needs fewer than 2^64 inserts since the entry's own.
- SyncRuns.HiddenIffOld: needs fewer than 2^64 inserts since the entry's own.
- LockTime.ExpiryIsExact: needs fewer than 2^64 epoch advances since the stamp. An insert advances the epoch before it takes its bucket lock, so inserts in flight count as advances before their pairs are visible; that is the code's order.
- Lock fairness: NoDeadlock and OperationsFinish do not say that a given spinning thread ever gets its lock.
- Typed wrappers, the Entry API, numeric codecs, Debug, Display, Extend and From, statistics getters and the struct layout: thin.
