/** Whole runs of the two sequential caches: what the classes hold and have deleted after any trace of accesses. */
module Replay {
  import opened Links
  import opened Sequences
  import opened DeferredPolicy
  import opened DeferredTheorems
  import opened DeferredLru
  import opened LruCache
  import ExactLru

  /** The keys evicted along a trace. */
  function Evictions<K(==,!new)>(p: Params, trace: seq<K>): seq<K> {
    if trace == [] then []
    else Evictions(p, trace[..|trace| - 1]) + Evicted(p, Run(p, trace[..|trace| - 1]), trace[|trace| - 1])
  }

  function ExactEvictions<K(==,!new)>(capacity: nat, trace: seq<K>): seq<K> {
    if trace == [] then []
    else ExactEvictions(capacity, trace[..|trace| - 1])
         + ExactLru.Evicted(capacity, ExactLru.Run(capacity, trace[..|trace| - 1]), trace[|trace| - 1])
  }

  lemma {:induction false} SameEvictions<K(!new)>(capacity: nat, trace: seq<K>)
    requires capacity >= 2
    ensures Evictions(Params(capacity, 1, 1), trace) == ExactEvictions(capacity, trace)
    decreases |trace|
  {
    if trace != [] {
      SameEvictions(capacity, trace[..|trace| - 1]);
      ThresholdOneIsExactLru(capacity, trace[..|trace| - 1]);
    }
  }

  lemma PrefixStep<K>(trace: seq<K>, i: nat)
    requires i < |trace|
    ensures trace[..i + 1][..|trace[..i + 1]| - 1] == trace[..i] && trace[..i + 1] == trace[..i] + [trace[i]]
  {
  }

  /** Every access of a trace to a new DeferredLRU delivers the value of its key and changes the keys as the policy says. */
  method ReplayDeferred<K(==,0,!new), V(0)>(capacity: nat, pullFactor: real, purgeFactor: real, loadFactor: nat,
                                            hash: K -> nat, trace: seq<K>, f: K -> V)
    returns (cache: DeferredLRU<K, V>, out: seq<V>)
    requires 0.0 <= pullFactor < 1.0 && purgeFactor >= 0.0 && loadFactor > 0 && capacity >= 2
    ensures |out| == |trace| && forall i :: 0 <= i < |trace| ==> out[i] == f(trace[i])
    ensures cache.Valid() && cache.OneNodePerKey() && cache.Computes(f)
    ensures var p := Params(capacity, Threshold(pullFactor, capacity), Threshold(purgeFactor, capacity));
      cache.Keys() == Run(p, trace) && cache.DeletedKeys() == Evictions(p, trace)
  {
    hide DeferredLRU.Valid, DeferredLRU.OneNodePerKey, DeferredLRU.Computes, DeferredLRU.Keys, DeferredLRU.DeletedKeys;
    hide Threshold, Access, Evicted, CanAllocate;
    var p := Params(capacity, Threshold(pullFactor, capacity), Threshold(purgeFactor, capacity));
    ThresholdBelowCapacityIff(pullFactor, capacity);
    cache := new DeferredLRU(capacity, pullFactor, purgeFactor, loadFactor, hash);
    cache.StartsEmpty(f);
    out := [];
    for i := 0 to |trace|
      invariant fresh(cache) && fresh(cache.lruNext) && fresh(cache.lruPrev) && fresh(cache.recentNext)
      invariant fresh(cache.bucketNext) && fresh(cache.bucketHead) && fresh(cache.key) && fresh(cache.value)
      invariant |out| == i && forall j :: 0 <= j < i ==> out[j] == f(trace[j])
      invariant cache.Valid() && cache.OneNodePerKey() && cache.Computes(f) && cache.Parameters() == p
      invariant cache.Keys() == Run(p, trace[..i]) && cache.DeletedKeys() == Evictions(p, trace[..i])
    {
      PrefixStep(trace, i);
      cache.AlwaysRoom();
      var k := trace[i];
      var v := cache.ConsumeCachedOrCompute(k, () => f(k), f);
      out := out + [v];
    }
    assert trace[..|trace|] == trace;
  }

  /** Every access of a trace to a new LRUCache delivers the value of its key and keeps the most recently used keys. */
  method ReplayExact<K(==,0,!new), V(0)>(capacity: nat, loadFactor: nat, hash: K -> nat, trace: seq<K>, f: K -> V)
    returns (cache: LRUCache<K, V>, out: seq<V>)
    requires capacity >= 2 && loadFactor > 0 && capacity / loadFactor > 0
    ensures |out| == |trace| && forall i :: 0 <= i < |trace| ==> out[i] == f(trace[i])
    ensures cache.Valid() && cache.OneElementPerKey() && cache.Computes(f)
    ensures cache.Keys() == ExactLru.Newest(ExactLru.ByLastUse(trace), capacity)
    ensures cache.Keys() == ExactLru.Run(capacity, trace) && cache.DeletedKeys() == ExactEvictions(capacity, trace)
  {
    hide LRUCache.Valid, LRUCache.OneElementPerKey, LRUCache.Computes, LRUCache.Keys, LRUCache.DeletedKeys;
    hide ExactLru.Access, ExactLru.Evicted;
    cache := new LRUCache(capacity, loadFactor, hash);
    cache.StartsEmpty(f);
    out := [];
    for i := 0 to |trace|
      invariant fresh(cache) && fresh(cache.listPrev) && fresh(cache.listNext) && fresh(cache.bucketPrev)
      invariant fresh(cache.bucketNext) && fresh(cache.bucket) && fresh(cache.key) && fresh(cache.value)
      invariant |out| == i && forall j :: 0 <= j < i ==> out[j] == f(trace[j])
      invariant cache.Valid() && cache.OneElementPerKey() && cache.Computes(f) && cache.capacity == capacity
      invariant cache.Keys() == ExactLru.Run(capacity, trace[..i])
      invariant cache.DeletedKeys() == ExactEvictions(capacity, trace[..i])
    {
      PrefixStep(trace, i);
      var k := trace[i];
      var v := cache.ConsumeCachedOrCompute(k, () => f(k), f);
      out := out + [v];
    }
    assert trace[..|trace|] == trace;
    ExactLru.RunIsNewest(capacity, trace);
  }

  lemma ZeroFactor(capacity: nat)
    ensures Threshold(0.0, capacity) == 1
  {
    assert 0.0 * capacity as real == 0.0;
  }

  /** On the same trace, DeferredLRU with both thresholds 1 and LRUCache hold the same keys in mirrored order, have
      evicted the same keys in the same order, and have delivered the same values. */
  method ReplayBoth<K(==,0,!new), V(0)>(capacity: nat, loadFactor: nat, hash: K -> nat, trace: seq<K>, f: K -> V)
    returns (deferred: DeferredLRU<K, V>, exact: LRUCache<K, V>, fromDeferred: seq<V>, fromExact: seq<V>)
    requires capacity >= 2 && loadFactor > 0 && capacity / loadFactor > 0
    ensures deferred.Valid() && exact.Valid() && fromDeferred == fromExact
    ensures deferred.Keys().lru == Reverse(exact.Keys()) && deferred.Keys().recent == []
    ensures deferred.DeletedKeys() == exact.DeletedKeys()
  {
    hide DeferredLRU.Valid, DeferredLRU.OneNodePerKey, DeferredLRU.Computes, Threshold;
    hide LRUCache.Valid, LRUCache.OneElementPerKey, LRUCache.Computes;
    ZeroFactor(capacity);
    deferred, fromDeferred := ReplayDeferred(capacity, 0.0, 0.0, loadFactor, hash, trace, f);
    exact, fromExact := ReplayExact(capacity, loadFactor, hash, trace, f);
    ThresholdOneIsExactLru(capacity, trace);
    SameEvictions(capacity, trace);
  }
}
