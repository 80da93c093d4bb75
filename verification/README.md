# Models of DeferredLRU, LRUCache, ConcurrentLRU and HashFixed, with proofs

The repository offers four fixed-size memoization caches. Each keeps its entries in one array of nodes and threads
several linked structures through it.

* **DeferredLRU** approximates least-recently-used replacement. A find only marks its node by pushing it on a Recent
  stack. Whoever gets the LRU lock later moves all marked nodes to the front of the LRU list (a pull) or evicts unmarked
  nodes from its tail (a purge), while inserters keep pushing new nodes at the head with compare-and-swap.
* **LRUCache** is an exact sequential LRU whose recency list, free list and buckets share one array of elements.
* **ConcurrentLRU** keeps an exact LRU list under one lock per node, with try-lock back-off and re-validation.
* **HashFixed** is a lock-free table that never evicts: slots are claimed with an optimistic counter.

## How the model is built

Sequential code is modelled by classes over arrays of links, with ghost sequences for what the links mean. Concurrent code
is modelled by machines: a state holds the shared cells and the program counter of every thread, `Step` is one atomic
access of one thread, and `Run` applies any schedule of such steps. What a whole request or a whole session of a thread does
is stated about records that an observer of the run keeps (`Watch`, `Follow`): it sees what every step changes in the shared
cells, and the steps do not know of it.

| file | content |
|---|---|
| `Links.dfy`, `Sequences.dfy`, `Entries.dfy` | lists as sequences of cell numbers; filtering and reversing; keys and values in nodes |
| `ExactLru.dfy` | the exact LRU policy on keys and its whole-trace theorems |
| `LruCache.dfy` | class `LRUCache`, proved against that policy |
| `DeferredPolicy.dfy`, `DeferredTheorems.dfy`, `Labels.dfy` | the DeferredLRU policy on nodes or keys, whole-run theorems, and that reading keys commutes with the policy |
| `DeferredLru.dfy` | class `DeferredLRU`, proved against that policy |
| `Replay.dfy` | both classes driven along a trace |
| `SharedLists.dfy` | the effect of every single write to the shared LRU list, with back links still owed |
| `DeferredMachine.dfy`, `DeferredInvariant.dfy` | the concurrent DeferredLRU and what holds in its reachable states |
| `DeferredThreads.dfy`, `DeferredInserts.dfy`, `DeferredConsolidator.dfy` | every step of a finder, an inserter and the holder of the LRU lock keeps the invariant |
| `DeferredSafety.dfy` | reachability and the safety theorems of the concurrent DeferredLRU |
| `DeferredRequests.dfy`, `DeferredSessions.dfy` | what every request and every session of the holder of the LRU lock does, over all runs |
| `DeferredSolo.dfy`, `DeferredProgress.dfy` | with one thread the machine is the sequential policy, and it finishes every request |
| `ConcurrentLru.dfy`, `ConcurrentLruSafety.dfy` | the machine of ConcurrentLRU, its invariant and its safety theorems |
| `ConcurrentLruLocks.dfy` | what the locks of ConcurrentLRU protect, and in which order threads wait for them |
| `ConcurrentLruRequests.dfy`, `ConcurrentLruSolo.dfy` | what every request does, the order of the appends, and that one thread sees an exact LRU cache |
| `HashFixed.dfy` | the machine of HashFixed, its invariant and its theorems |
| `HashFixedRequests.dfy` | what every request to HashFixed does, what is kept, and that nobody has to be waited for |

Decisions that a reader should know:

* Memory is sequentially consistent. A successful pop of the DeferredLRU pool is one step. Accesses to cells that no other
  thread may touch at that time (the fields of a node that the thread owns, or nodes whose locks it holds) are merged
  with a neighbouring step; in particular the writes of one ConcurrentLRU splice, made under the locks of every node
  involved, are one step, and so is a critical section of a bucket lock, except that a DeferredLRU find holds its bucket
  lock across the separate steps that mark the node.
* At most one thread is inside the LRU lock, so its control state is the field `con` of the machine; the fields named as
  history (`order`, `place`, `mark`, `owed`, ...) are written by the steps and never read by them.
* Compare-and-swap and try-lock may fail for no reason in the machines. In the sequential classes they succeed.
* The producer given to `consumeCachedOrCompute` is a function `f` of the key where values matter. The public `insert`
  does not reject a key that is already cached, so no claim is made that a find returns the last inserted value.
* Threshold factors are real numbers. Capacities are numbers of entries.
* A hit of ConcurrentLRU whose move has to back off unlocks its node for a while; the node can be evicted and reused for another
  key meanwhile, and is moved to the end all the same. So for several threads the recency order is stated about nodes and their
  appends (`ConcurrentLruRequests.OrderedByAppends`), and about keys for one thread.
* An insertion into `DeferredLRU` requires a free node or an unmarked one besides the first, because without it the
  allocation loop never ends (`DeferredTheorems.AllocationEndsIff`); a pull threshold below the capacity guarantees it
  (`DeferredLru.DeferredLRU.AlwaysRoom`).
* `LRUCache` needs at least two elements (`evict` indexes the successor of its victim) and at least one bucket (the
  bucket count is a rounded-down quotient).

Where the code and its own text differ, the code is followed:

* `benchmark/src/containers/hash_fixed.h:85-86` calls an insertion into a full table undefined behaviour; the code drops it.
* `coherent()` in `benchmark/src/containers/lru.h:372` compares an index with the element count and rejects valid states
  after an eviction; the invariant here is the true one.
* The documentation of `insert` in `include/deferred_lru.h:257-263` lets an inserter wait for purges; with a pull threshold
  at or above the capacity that wait never ends (`DeferredTheorems.StuckReachableIff`).

## Model

| member | source | states |
|---|---|---|
| ExactLru.RunIsNewest | benchmark/src/containers/lru.h:152-160 | after any trace of memoized accesses an exact LRU of capacity c holds exactly the last min(c, distinct) distinct keys, ordered by last use |
| ExactLru.Inclusion | benchmark/src/containers/lru.h:173-229 | on one trace the contents at a smaller capacity are the most recent part of the contents at a larger one, so every hit of the smaller cache is a hit of the larger |
| ExactLru.ByLastUseSorted | benchmark/src/containers/lru.h:232-284 | the recency order really is the order of last occurrences in the trace |
| ExactLru.ByLastUseSnoc | benchmark/src/containers/lru.h:252-275 | one more access moves exactly its key to the end of the last-use order |
| LruCache.LRUCache.constructor | benchmark/src/containers/lru.h:106-134 | a new cache is valid, lists nothing and has every element free, in order |
| LruCache.LRUCache.Relink | benchmark/src/containers/lru.h:254-268 | the link writes of a hit give a doubly linked list with the element moved to the tail and leave the free list alone |
| LruCache.LRUCache.SearchBucket | benchmark/src/containers/lru.h:232-284 | the walk along a bucket returns the element whose key it is, or the null link exactly when no listed element has it |
| LruCache.LRUCache.Find | benchmark/src/containers/lru.h:232-284 | a hit delivers the value and moves the element to the end, a miss changes nothing; all three overlaid structures stay valid |
| LruCache.LRUCache.RemoveFromBucket | benchmark/src/containers/lru.h:306-316 | the victim leaves its doubly linked bucket, whose head keeps the negative encoding of its bucket number |
| LruCache.LRUCache.AddToBucket | benchmark/src/containers/lru.h:212-224 | the element becomes the head of the bucket of its key with the right negative encoding |
| LruCache.LRUCache.UnlinkHead | benchmark/src/containers/lru.h:289-304 | the head of the recency list becomes the head of the free list |
| LruCache.LRUCache.Evict | benchmark/src/containers/lru.h:289-328 | exactly the least recently used element leaves list and bucket, becomes free and is handed to the deletion policy once |
| LruCache.LRUCache.Insert | benchmark/src/containers/lru.h:173-229 | the pair is appended, after evicting the first element exactly when the cache was full; pairs deleted and cached together are the pairs inserted |
| LruCache.LRUCache.HolderIsLabel | benchmark/src/containers/lru.h:232-284 | a search succeeds exactly for the keys in the recency list |
| LruCache.LRUCache.ConsumeCachedOrCompute | benchmark/src/containers/lru.h:152-160 | the keys change as the exact LRU policy says, the evicted keys are those it names, and a producer that is a function of the key always sees its value delivered |
| LruCache.LRUCache.ReleaseMemory | benchmark/src/containers/lru.h:137-149 | every pair inserted has been deleted exactly once in the end, in recency order, and a second release deletes nothing |
| LruCache.RemoveAt | benchmark/src/containers/lru.h:255-262 | the two writes that take a node out of a list without sentinels |
| LruCache.MoveLast | benchmark/src/containers/lru.h:254-268 | all writes of a move to the tail, in order, give the moved list |
| LruCache.CutBucket | benchmark/src/containers/lru.h:306-316 | cutting a node out of one bucket keeps all the others and their heads |
| LruCache.PushBucket | benchmark/src/containers/lru.h:218-224 | pushing a node on one bucket keeps all the others and their heads |
| LruCache.HeadToPool | benchmark/src/containers/lru.h:297-304 | the four writes that turn the list head into the first free element |
| DeferredPolicy.PullPermutes | include/deferred_lru.h:367-400 | a pull permutes the LRU list; what moves are the marked nodes except the first node of the list |
| DeferredPolicy.PullFrontsMarked | include/deferred_lru.h:367-400 | after a pull every marked node precedes every unmarked one |
| DeferredPolicy.PurgeEffect | include/deferred_lru.h:402-439 | a purge evicts exactly as many unmarked nodes as asked for or as there are besides the first one, never a marked node and never the first, and keeps the order of the others |
| DeferredPolicy.CandidatesBound | include/deferred_lru.h:412-419 | how many nodes a purge can find at least, given the number of marks |
| DeferredPolicy.PurgeFrees | include/deferred_lru.h:503-523 | with the Recent list below its threshold one purge of a full cache frees at least min(purge threshold, capacity - pull threshold) nodes |
| DeferredPolicy.FindQuiet | include/deferred_lru.h:236-255 | a find leaves the Recent list below its threshold and the set of cached keys as it was |
| DeferredPolicy.AccessQuiet | include/deferred_lru.h:324-332 | a memoized access keeps the bounds on list and marks and ends with its key cached |
| DeferredPolicy.RunQuiet | include/deferred_lru.h:324-332 | these bounds hold after any trace |
| DeferredTheorems.RunAged | include/deferred_lru.h:367-400 | along any trace, with pulls counted as epochs, the unmarked part of the LRU list is in non-increasing order of the epoch of last use, and marked keys were used in the current epoch |
| DeferredTheorems.VictimsAreStale | include/deferred_lru.h:402-439 | after any trace whatever a purge evicts was last used in an epoch no later than anything that survives |
| DeferredTheorems.PullOrdered | include/deferred_lru.h:367-400 | a pull brings the whole list into the order of last use |
| DeferredTheorems.SurvivorsPrecede | include/deferred_lru.h:402-439 | every unmarked survivor of a purge is nearer the head than every victim |
| DeferredTheorems.MirrorStep | include/deferred_lru.h:324-332 | with both thresholds 1 one access keeps the two caches mirror images and evicts the same keys |
| DeferredTheorems.ThresholdOneIsExactLru | include/deferred_lru.h:236-332 | with both thresholds 1 and capacity at least 2 DeferredLRU has, on every trace, the hits, misses, evictions and reversed order of the exact LRU |
| DeferredTheorems.AllocationEndsIff | include/deferred_lru.h:503-523 | the allocation loop ends if and only if there is a free node or an unmarked node other than the first; then one purge is enough |
| DeferredTheorems.StuckReachableIff | include/deferred_lru.h:140-143 | some trace leads to a full cache whose next insertion retries forever if and only if the pull threshold is not below the capacity |
| DeferredTheorems.ThresholdBelowCapacityIff | include/deferred_lru.h:140-143 | the pull threshold is below the capacity exactly for a factor below 1 and at least two nodes |
| DeferredTheorems.NotStuck | include/deferred_lru.h:348-365 | below the capacity no trace gets stuck |
| Labels.LabelPull | include/deferred_lru.h:367-400 | pulling nodes and then reading their keys is pulling keys, as long as different nodes hold different keys |
| Labels.LabelVictims | include/deferred_lru.h:402-439 | the same for a purge and its victims |
| Labels.LabelInsert | include/deferred_lru.h:289-308 | the same for an insertion into a reused node |
| DeferredLru.DeferredLRU.constructor | include/deferred_lru.h:129-161 | a new cache is valid, has every node in the pool, and each threshold is its fraction of the capacity rounded down, but 1 if that is less than one node, and there are as few buckets as the load factor allows |
| DeferredLru.DeferredLRU.RemoveNodeFromLru | include/deferred_lru.h:457-462 | the two writes take out exactly the given node |
| DeferredLru.DeferredLRU.AddSublistToLruHead | include/deferred_lru.h:446-455 | a linked sublist is put in front of the LRU list |
| DeferredLru.DeferredLRU.MarkNodeRecent | include/deferred_lru.h:473-483 | an unmarked node is pushed on the Recent stack and counted, a marked one is left alone |
| DeferredLru.DeferredLRU.PopRecentListSlice | include/deferred_lru.h:493-498 | the whole Recent stack is taken and the count cleared |
| DeferredLru.DeferredLRU.PullRecent | include/deferred_lru.h:367-400 | the new LRU order is the Recent stack, newest first and without the first LRU node, followed by the untouched rest in its old order, and all marks are cleared |
| DeferredLru.DeferredLRU.SearchBucket | include/deferred_lru.h:559-572 | the first node of the bucket with the key, null exactly when there is none |
| DeferredLru.DeferredLRU.AddNodeToBucket | include/deferred_lru.h:549-557 | the node becomes the head of the bucket of its key |
| DeferredLru.DeferredLRU.RemoveNodeFromBucket | include/deferred_lru.h:579-610 | it succeeds exactly when the node is in its bucket and is unmarked or may be marked, and then removes exactly that node |
| DeferredLru.DeferredLRU.DisposeNode | include/deferred_lru.h:525-530 | the node becomes the first one of the pool |
| DeferredLru.DeferredLRU.PurgeOld | include/deferred_lru.h:402-439 | exactly the min(max(required, 1), k) unmarked nodes nearest the tail leave bucket and list, are deleted and enter the pool; survivors keep their order |
| DeferredLru.DeferredLRU.ConsolidateCache | include/deferred_lru.h:348-365 | a pending purge and then a pending pull are carried out, and the requests are cleared |
| DeferredLru.DeferredLRU.Find | include/deferred_lru.h:236-255 | the value found, the mark, and the pull at the threshold, as the policy says; afterwards the Recent list is below its threshold |
| DeferredLru.DeferredLRU.AllocateNode | include/deferred_lru.h:503-523 | a free node is taken from the pool after at most one purge |
| DeferredLru.DeferredLRU.Insert | include/deferred_lru.h:289-308 | the pair is put in front of the LRU list and in its bucket, after the purge the policy prescribes; pairs deleted and cached together are the pairs inserted |
| DeferredLru.DeferredLRU.AlwaysRoom | include/deferred_lru.h:503-523 | a valid cache whose pull threshold is below its capacity can always allocate |
| DeferredLru.DeferredLRU.HolderIsLabel | include/deferred_lru.h:559-572 | a search succeeds exactly for the keys in the LRU list |
| DeferredLru.DeferredLRU.ConsumeCachedOrCompute | include/deferred_lru.h:324-332 | keys and marks change as the policy says, the evicted keys are those it names, and a producer that is a function of the key always sees its value delivered |
| DeferredLru.DeferredLRU.ReleaseMemory | include/deferred_lru.h:166-179 | every pair inserted has been deleted exactly once in the end, and a second release deletes nothing |
| Replay.ReplayDeferred | include/deferred_lru.h:324-332 | on any trace the class delivers the value of every key and ends with the keys, marks and evictions of the policy |
| Replay.ReplayExact | benchmark/src/containers/lru.h:152-160 | on any trace the class delivers the value of every key and holds the most recently used distinct keys in order |
| Replay.ReplayBoth | benchmark/src/containers/lru.h:152-160 | with threshold factors 0 the two classes deliver the same values, evict the same keys in the same order and hold mirrored orders |
| Replay.SameEvictions | include/deferred_lru.h:402-439 | the two policies evict the same keys along any trace when both thresholds are 1 |
| SharedLists.Publish | include/deferred_lru.h:446-455 | the successful compare-and-swap at the head adds the node to the path and leaves exactly the old first cell owed its back link |
| SharedLists.Settle | include/deferred_lru.h:454 | the back link that is written is the owed one, and it becomes right |
| SharedLists.Bypass | include/deferred_lru.h:457-462 | the first unlinking write takes exactly the node off the path and leaves its successor owed |
| SharedLists.Splice | include/deferred_lru.h:446-455 | the compare-and-swap of a pull puts the whole local list on the path, in order |
| SharedLists.Neighbours | include/deferred_lru.h:375-383 | a node that is not owed and does not have the head behind it lies between its true neighbours |
| SharedLists.Append | include/deferred_lru.h:384-388 | linking a taken node behind the local list of a pull |
| DeferredThreads.OneFinder | include/deferred_lru.h:236-248 | two threads never mark the same node at the same time, because both would hold the lock of its bucket |
| DeferredThreads.UnmarkedPlace | include/deferred_lru.h:473-483 | a bucketed node without a mark is in the LRU list or in the local list of a pull |
| DeferredInserts.PublishesNode | include/deferred_lru.h:446-455 | an inserter's compare-and-swap keeps everything the other threads and the consolidator know about the lists |
| DeferredInserts.OwnedAlone | include/deferred_lru.h:289-304 | the node an inserter has popped is used by no finder, no other inserter and no purge |
| DeferredInserts.InsertKeeps | include/deferred_lru.h:289-308 | every step of an insertion keeps the invariant: count, pop or request a purge, fill, shield, file, push, back link, unmark |
| DeferredConsolidator.TrueNeighbours | include/deferred_lru.h:410-424 | while the consolidator owes nothing, a listed node that does not have the head behind it is between its true neighbours, and neither neighbour is the head |
| DeferredConsolidator.SuccessorSettled | include/deferred_lru.h:457-462 | nobody owes the back link of the successor of a node whose insertion is over |
| DeferredConsolidator.NoFinder | include/deferred_lru.h:579-587 | no finder uses a node whose bucket lock is free, so a purge that holds it may decide on the mark |
| DeferredConsolidator.Unfiles | include/deferred_lru.h:579-610 | taking a node out of its bucket, or leaving a marked one there, keeps the invariant |
| DeferredConsolidator.PullKeeps | include/deferred_lru.h:367-400 | every step of a pull keeps the invariant |
| DeferredConsolidator.Acquires | include/deferred_lru.h:348-349 | taking the LRU lock |
| DeferredConsolidator.Releases | include/deferred_lru.h:360-361 | leaving the LRU lock and going on |
| DeferredSafety.Reachable | include/deferred_lru.h:324-365 | the invariant holds after any schedule of any number of threads, with at most one consolidator |
| DeferredSafety.BackLinks | include/deferred_lru.h:446-462 | in every reachable state the forward chain is a simple path, and every back link is right except where it still is the head and exactly one inserter or the consolidator has its write pending, or between the consolidator's own two unlinking writes |
| DeferredSafety.UnlinkSafe | include/deferred_lru.h:367-400 | whatever a pull or purge unlinks has two neighbours whose links are final, neither being the head whose forward link inserters race for |
| DeferredSafety.ShieldedNode | include/deferred_lru.h:271-307 | from its false mark to the end of the insertion a node is never on the Recent list, never in a slice, never unlinked and never evicted |
| DeferredSafety.MarkedNode | include/deferred_lru.h:419-422 | a node on the Recent list or in the slice being pulled is in its bucket and never in the hands of a purge |
| DeferredSafety.Conservation | include/deferred_lru.h:503-557 | every node is in exactly one of: the pool, one inserter's hands, the bucket of its key, the purge's hands |
| DeferredSafety.SizeAccounting | include/deferred_lru.h:289-308 | the element counter is the number of bucketed nodes plus the inserters past the increment that have not filed yet plus the purge's one node until its decrement |
| DeferredSafety.Quiescent | include/deferred_lru.h:348-365 | when all threads are idle nothing is half done: the doubly linked list is complete, the counter is its length and at most the capacity, every node is listed and bucketed or in the pool, and exactly the Recent nodes are marked |
| DeferredSafety.SearchIsExact | include/deferred_lru.h:236-248 | the search of a find succeeds exactly when some bucketed node has the key at that moment, and then delivers the value of the key |
| DeferredSafety.StartIsInitial | include/deferred_lru.h:129-161 | the allocation builds an initial state: empty LRU list, every node in the pool, no mark, empty buckets |
| DeferredRequests.RequestsComplete | include/deferred_lru.h:236-332 | in every interleaving each time a thread is idle again its request for k has delivered exactly one value, that of k; its search was right; a hit looked at one filed node with the key and pushed it on the Recent list unless it was marked; a miss filed one node with k and its value and put it at the head of the LRU list; a pull was asked for exactly if the Recent list had reached the threshold, a purge each time the pool was empty, and the LRU lock was taken whenever it was free then |
| DeferredRequests.FindFits | include/deferred_lru.h:236-255 | every step of a find, from its bucket lock to the threshold test, leaves the record of its request as far as the find has got: a find that missed goes on to produce its value, one that hit is over |
| DeferredRequests.BucketStable | include/deferred_lru.h:236-248 | from its search to its unlocking a find has its bucket for itself, however long other threads insert and evict |
| DeferredSessions.SessionsSound | include/deferred_lru.h:348-439 | in every interleaving a purge puts at most max(purge threshold, 1) nodes into the pool and never the whole list; if it frees less, it has looked at every node behind the cell where it stopped, whose back link was the head, and left only marked ones; a pull looks at all nodes of the Recent list it took and puts them in front, in order, except those with the head behind them; whoever releases the LRU lock has carried out the purge and the pull that were due |
| DeferredSessions.PurgeTracks | include/deferred_lru.h:402-439 | every step of a purge keeps the record of the nodes looked at, from the tail on, in line with the LRU list, however many new nodes are put in front meanwhile |
| DeferredSessions.PullTracks | include/deferred_lru.h:367-400 | every step of a pull keeps the record of the nodes moved and skipped in line with the LRU list and the local list |
| DeferredSessions.EveryRun | include/deferred_lru.h:324-365 | after any schedule of any number of threads on a new cache the safety facts above hold, filed nodes are in the bucket that their hash selects, every value delivered for a key is the value of that key, every request of an idle thread is completed and every session has done what it should, with evictions, reused nodes and duplicate insertions |
| DeferredSolo.PurgeIsPolicy | include/deferred_lru.h:402-439 | a purge that leaves exactly the marked nodes and stops where it should evicts the victims of the sequential policy |
| DeferredSolo.PullIsPolicy | include/deferred_lru.h:367-400 | a pull that skips exactly the first node of the list gives the order of the sequential policy |
| DeferredSolo.OneThreadIsPolicy | include/deferred_lru.h:236-439 | with one thread the machine refines the sequential policy: whenever the thread is idle the keys of the LRU list and of the Recent list are those of the policy on the keys asked for, whatever fails for no reason on the way |
| DeferredProgress.AloneItFinishes | include/deferred_lru.h:324-365 | alone with the cache, a thread finishes its request from every state it can be in, if the pull threshold is below the capacity and nothing fails for no reason |
| ConcurrentLruSafety.FreeIsLive | benchmark/src/containers/concurrent_lru.h:442-484 | a node that was ever in use is in the LRU list and in its bucket whenever its lock is free, although it may have been evicted and reused meanwhile |
| ConcurrentLruSafety.Relocks | benchmark/src/containers/concurrent_lru.h:454-484 | after the back-off the re-validation is sound, and the branches for a node without its LRU flag are never taken |
| ConcurrentLruSafety.UnlinkLists | benchmark/src/containers/concurrent_lru.h:338-344 | the writes of an unlinking take exactly that node out of its list and keep the other list |
| ConcurrentLruSafety.AppendLists | benchmark/src/containers/concurrent_lru.h:378-387 | the writes of an insertion before the tail append exactly that node |
| ConcurrentLruSafety.OthersKnow | benchmark/src/containers/concurrent_lru.h:442-511 | what a thread knows about cells whose locks it holds survives every step of the others |
| ConcurrentLruSafety.UnfileKeeps | benchmark/src/containers/concurrent_lru.h:623-657 | a node being evicted is found in the bucket of its key, leaves it, and its hash flag is cleared, which is the last assertion there |
| ConcurrentLruSafety.RemoveKeeps | benchmark/src/containers/concurrent_lru.h:442-511 | every step of `lruRemoveNode` keeps the invariant |
| ConcurrentLruSafety.AppendingKeeps | benchmark/src/containers/concurrent_lru.h:357-392 | every step of `listInsertBefore` at the LRU tail keeps the invariant |
| ConcurrentLruSafety.InsertKeeps | benchmark/src/containers/concurrent_lru.h:182-212 | every step of acquiring, evicting, filling and filing a node keeps the invariant |
| ConcurrentLruSafety.Reachable | benchmark/src/containers/concurrent_lru.h:182-244 | the invariant holds after any schedule of any number of threads |
| ConcurrentLruSafety.AssertionsHold | benchmark/src/containers/concurrent_lru.h:357-387 | in every reachable state the assertions of `listInsertBefore`, `lruRemoveNode` and `htRemove` hold |
| ConcurrentLruSafety.SplicesAdjacent | benchmark/src/containers/concurrent_lru.h:326-392 | whatever is unlinked lies between its two true neighbours, which are three different cells, whatever is inserted goes between the true last node and the tail, and the thread holds all three locks |
| ConcurrentLruSafety.EvictsOldest | benchmark/src/containers/concurrent_lru.h:326-345 | in one step the LRU order changes only by an eviction of its first node, a find taking out its own node, or a node put at the end |
| ConcurrentLruSafety.LinksStable | benchmark/src/containers/concurrent_lru.h:442-511 | whoever holds a lock sees the links of that cell unchanged and keeps the lock however long the others run |
| ConcurrentLruSafety.FlagsCoincide | benchmark/src/containers/concurrent_lru.h:674-676 | for every unlocked node the LRU flag, the hash flag, membership of the LRU list and membership of the right bucket coincide, and otherwise it is in the pool |
| ConcurrentLruSafety.Ownership | benchmark/src/containers/concurrent_lru.h:306-345 | every node is in the pool, in the LRU list, or detached by exactly one thread, which holds its lock |
| ConcurrentLruSafety.NoSelfLock | benchmark/src/containers/concurrent_lru.h:326-392 | no thread ever waits for a lock that it holds itself |
| ConcurrentLruSafety.SearchIsExact | benchmark/src/containers/concurrent_lru.h:589-618 | the search of a find succeeds exactly when some node with the key is in a bucket at that moment |
| ConcurrentLruSafety.StartIsInitial | benchmark/src/containers/concurrent_lru.h:127-164 | the allocation builds an initial state: an empty LRU list and every node in the pool |
| ConcurrentLruLocks.WaitsForward | benchmark/src/containers/concurrent_lru.h:326-515 | a thread that cannot go on waits for a cell locked by another thread, and all list cells that it holds are in front of that cell; against the list order locks are only tried |
| ConcurrentLruLocks.BucketLinksStable | benchmark/src/containers/concurrent_lru.h:623-657 | whoever holds the lock of a node sees its bucket link unchanged however long the others insert and evict, which is what trying the lock of the bucket neighbour is for |
| ConcurrentLruRequests.RequestsComplete | benchmark/src/containers/concurrent_lru.h:182-244 | in every interleaving each time a thread is idle again its request for k has delivered exactly one value, that of k; a hit took its node out of the LRU list, put it at the end and did nothing else; a miss, which found no node with the key or one reused for another key before it could be locked, took one node from the pool or the LRU list, put it at the end and filed it with k and its value |
| ConcurrentLruRequests.LookFits | benchmark/src/containers/concurrent_lru.h:215-233 | every step of a find up to the move leaves the record of its request as far as the find has got: a hit goes on to move its node, a miss to produce the value |
| ConcurrentLruRequests.OrderedByAppends | benchmark/src/containers/concurrent_lru.h:427-432 | in every interleaving the LRU list is in the order of the last appends of its nodes, and every hit and every insertion gives its node a stamp later than the delivery |
| ConcurrentLruRequests.EvictsWhenFull | benchmark/src/containers/concurrent_lru.h:306-320 | in every interleaving a request evicts only once the pool is empty |
| ConcurrentLruRequests.EveryRun | benchmark/src/containers/concurrent_lru.h:182-244 | after any schedule of any number of threads on a new cache the safety facts above hold, filed nodes are in the bucket that their hash selects, every value delivered for a key is the value of that key, the list is in the order of the last appends, every request of an idle thread is completed and nothing was evicted before the pool was empty |
| ConcurrentLruSolo.OneThreadIsExactLru | benchmark/src/containers/concurrent_lru.h:182-244 | with one thread the keys of the LRU list are, whenever the thread is idle, those of the exact LRU policy on the keys asked for: the most recently used distinct keys, ordered by last use |
| ConcurrentLruSolo.AloneItFinishes | benchmark/src/containers/concurrent_lru.h:236-244 | alone with the cache, a thread finishes its request in at most 60 steps from every state it can be in, if no lock attempt fails for no reason |
| HashFixed.TakesSlot | benchmark/src/containers/hash_fixed.h:171-176 | a claim hands out the first slot that was never handed out, and then no thread has overflowed |
| HashFixed.Publishes | benchmark/src/containers/hash_fixed.h:182-187 | the successful compare-and-swap puts the slot in front of its bucket and nowhere else |
| HashFixed.WalkAhead | benchmark/src/containers/hash_fixed.h:190-209 | a walking find is at the beginning of what is left of its bucket, and ends exactly when nothing is left |
| HashFixedRequests.RequestsComplete | benchmark/src/containers/hash_fixed.h:141-188 | in every interleaving each time a thread is idle again its request for k has delivered exactly one value, that of k; it published nothing if k was in its bucket when the find loaded the head; otherwise that very request published one element with k and its value, unless it read a counter at or past the capacity, and then every slot has been handed out |
| HashFixedRequests.DeliveredIsCached | benchmark/src/containers/hash_fixed.h:163-188 | after any schedule, with all threads idle and a slot left, every key whose value was ever delivered is in its bucket |
| HashFixedRequests.OneThreadKeepsFirst | benchmark/src/containers/hash_fixed.h:141-188 | with one thread the slots hold, in order, the first `capacity` distinct keys asked for, and the buckets exactly these |
| HashFixedRequests.NobodyIsWaitedFor | benchmark/src/containers/hash_fixed.h:141-209 | from every state of any number of threads a thread finishes its request in a bounded number of its own steps while the others pause |
| HashFixedRequests.EveryRun | benchmark/src/containers/hash_fixed.h:141-188 | after any schedule of any number of threads on a new table the counter is the number of slots handed out plus the overflowed threads not yet rolled back, which exist only when all slots are handed out; published elements are in the buckets that their hash selects; every value delivered is the value of its key; every request of an idle thread is completed |
| HashFixed.Reachable | benchmark/src/containers/hash_fixed.h:141-151 | the invariant holds after any schedule of any number of threads |
| HashFixed.Quiescent | benchmark/src/containers/hash_fixed.h:119-132 | with all threads idle the slots below the counter are exactly the published elements, so a release deletes each of them once |
| HashFixed.RunGrows | benchmark/src/containers/hash_fixed.h:182-187 | in every interleaving buckets only grow at the front and nothing below a published element ever changes |
| HashFixed.LaterFindsSee | benchmark/src/containers/hash_fixed.h:190-209 | a key that is published is found by every find that loads the head of its bucket later |
| HashFixed.FindEnds | benchmark/src/containers/hash_fixed.h:190-209 | a find makes no more moves than there were elements ahead when it began, whatever is published meanwhile |

## Left out

- Byte capacities and element sizes: only numbers of entries are modelled.
- 32-bit indices and counters in LRUCache and HashFixed: integers are unbounded.
- C++ memory orders, and the ABA problem of the untagged pool when the read of `lru_next` and the compare-and-swap of a pop are apart.
- Rounding of the threshold factors: they are reals.
- Progress of DeferredLRU with several threads: `recent_count_` and the request flags can lose updates, so termination is claimed for sequential runs and for a thread that is alone.
- Deadlock and progress of ConcurrentLRU with several threads: an evictor can spin in `htRemove` on a node whose holder waits for it.
- The failure branch of ConcurrentLRU's `insert` with `putNodeToPool`: `htInsert` always returns true. Its element counter is not modelled either.
- The deletion policy in the machines: deletions are accounted for in the sequential classes only.
- Bucket links in the machines of DeferredLRU and ConcurrentLRU: a bucket is a sequence there; the links themselves are modelled in the classes.
- Lock objects, weak compare-and-swap failures and the counter `recent_seen` in the sequential classes.
- Threads that call `find` or `insert` on their own: the threads of the machines run `consumeCachedOrCompute`, which is made of both.
- Release of the memory of ConcurrentLRU, and release of any cache while other threads are running.
- LRUCache with fewer than two elements, and capacity 0 other than in DeferredLRU.
- Profiling, tracing, `dump`, `coherent` and `assertIsCoherent`.
- `benchmark/src/containers/deferred_lru.h`: the same algorithm with profiling.
- The wrappers around other libraries, the sharding adapter and the benchmark driver.
