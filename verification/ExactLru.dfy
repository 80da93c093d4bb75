/** The exact LRU policy on keys, least recently used first, and what it computes over a whole trace of accesses. */
module ExactLru {
  import opened Links
  import opened Sequences

  /** One memoized access: a hit moves the key to the end, a miss drops the first key of a full cache and appends. */
  function Access<K(==,!new)>(capacity: nat, order: seq<K>, k: K): seq<K> {
    if k in order then Without(order, {k}) + [k]
    else Admit(capacity, order) + [k]
  }

  function Admit<K>(capacity: nat, order: seq<K>): seq<K> {
    if |order| >= capacity && order != [] then order[1..] else order
  }

  /** The keys one access evicts. */
  function Evicted<K(==)>(capacity: nat, order: seq<K>, k: K): seq<K> {
    if k !in order && |order| >= capacity && order != [] then [order[0]] else []
  }

  function Run<K(==,!new)>(capacity: nat, trace: seq<K>): seq<K> {
    if trace == [] then [] else Access(capacity, Run(capacity, trace[..|trace| - 1]), trace[|trace| - 1])
  }

  /** The keys of a trace, each once, in the order of their last occurrences. */
  function ByLastUse<K(==,!new)>(trace: seq<K>): seq<K> {
    if trace == [] then []
    else if trace[0] in trace[1..] then ByLastUse(trace[1..])
    else [trace[0]] + ByLastUse(trace[1..])
  }

  function Newest<T>(s: seq<T>, n: nat): seq<T> {
    if |s| <= n then s else s[|s| - n..]
  }

  lemma {:induction false} ByLastUseDistinct<K(!new)>(trace: seq<K>)
    ensures Distinct(ByLastUse(trace))
    ensures forall k :: k in ByLastUse(trace) <==> k in trace
  {
    if trace != [] {
      ByLastUseDistinct(trace[1..]);
      assert trace == [trace[0]] + trace[1..];
    }
  }

  /** One more access moves its key to the end of the last-use order. */
  lemma {:induction false} ByLastUseSnoc<K(!new)>(trace: seq<K>, k: K)
    ensures ByLastUse(trace + [k]) == Without(ByLastUse(trace), {k}) + [k]
  {
    if trace == [] {
      assert ([k])[1..] == [] && trace + [k] == [k];
      assert ByLastUse([k]) == [k] + ByLastUse<K>([]);
    } else {
      var t := trace + [k];
      assert t[0] == trace[0] && t[1..] == trace[1..] + [k];
      ByLastUseSnoc(trace[1..], k);
      ByLastUseDistinct(trace);
      var rest := ByLastUse(trace[1..]);
      if trace[0] == k {
        assert t[0] in t[1..];
      } else if trace[0] !in trace[1..] {
        assert t[0] !in t[1..];
        assert ByLastUse(t) == [trace[0]] + (Without(rest, {k}) + [k]);
        assert Without([trace[0]] + rest, {k}) == [trace[0]] + Without(rest, {k});
      }
    }
  }

  lemma NewestOfSuffix<T>(older: seq<T>, recent: seq<T>, n: nat)
    requires |recent| <= n && (|recent| == n || older == [])
    ensures Newest(older + recent, n) == recent
  {
  }

  lemma MoveToEnd<K(!new)>(older: seq<K>, cached: seq<K>, k: K)
    requires Distinct(older + cached) && k in cached
    ensures |Without(cached, {k})| == |cached| - 1
    ensures Without(older + cached, {k}) == older + Without(cached, {k})
  {
    var j :| 0 <= j < |cached| && cached[j] == k;
    forall i | 0 <= i < |older| ensures older[i] != k {
      assert (older + cached)[i] != (older + cached)[|older| + j];
    }
    assert Distinct(cached) by {
      assert forall i :: 0 <= i < |cached| ==> cached[i] == (older + cached)[|older| + i];
    }
    WithoutConcat(older, cached, {k});
    WithoutNone(older, {k});
    WithoutIsDrop(cached, j);
  }

  lemma NewestHit<K(!new)>(full: seq<K>, capacity: nat, k: K)
    requires Distinct(full) && k in Newest(full, capacity)
    ensures Without(Newest(full, capacity), {k}) + [k] == Newest(Without(full, {k}) + [k], capacity)
  {
    var cached := Newest(full, capacity);
    var older := full[..|full| - |cached|];
    assert full == older + cached;
    MoveToEnd(older, cached, k);
    var kept := Without(cached, {k});
    NewestOfSuffix(older, kept + [k], capacity);
    Regroup(older, kept, [k]);
  }

  lemma NewestMiss<K(!new)>(full: seq<K>, capacity: nat, k: K)
    requires capacity > 0 && k !in Newest(full, capacity)
    ensures Admit(capacity, Newest(full, capacity)) + [k] == Newest(Without(full, {k}) + [k], capacity)
  {
    var cached := Newest(full, capacity);
    var older := full[..|full| - |cached|];
    assert full == older + cached;
    WithoutConcat(older, cached, {k});
    WithoutNone(cached, {k});
    MissOnParts(Without(older, {k}), cached, k, capacity, older == []);
  }

  lemma MissOnParts<K(!new)>(older: seq<K>, cached: seq<K>, k: K, capacity: nat, all: bool)
    requires capacity > 0 && |cached| <= capacity && (all || |cached| == capacity) && (all ==> older == [])
    ensures Admit(capacity, cached) + [k] == Newest(older + cached + [k], capacity)
  {
  }

  /** Whole-trace theorem: a cache of `capacity` entries always holds the `capacity` most recently used distinct
      keys of the trace, in the order of their last use. */
  lemma {:induction false} RunIsNewest<K(!new)>(capacity: nat, trace: seq<K>)
    requires capacity > 0
    ensures Run(capacity, trace) == Newest(ByLastUse(trace), capacity)
    decreases |trace|
  {
    if trace != [] {
      var before, k := trace[..|trace| - 1], trace[|trace| - 1];
      RunIsNewest(capacity, before);
      assert trace == before + [k];
      ByLastUseSnoc(before, k);
      ByLastUseDistinct(before);
      if k in Run(capacity, before) {
        NewestHit(ByLastUse(before), capacity, k);
      } else {
        NewestMiss(ByLastUse(before), capacity, k);
      }
    }
  }

  /** Inclusion: on the same trace the smaller cache holds the most recent part of what the larger one holds, so
      every hit of the smaller cache is a hit of the larger one. */
  lemma Inclusion<K(!new)>(small: nat, large: nat, trace: seq<K>)
    requires 0 < small <= large
    ensures Run(small, trace) == Newest(Run(large, trace), small)
    ensures forall k :: k in Run(small, trace) ==> k in Run(large, trace)
  {
    RunIsNewest(small, trace);
    RunIsNewest(large, trace);
  }

  function LastIndex<K(==)>(trace: seq<K>, k: K): (i: nat)
    requires k in trace
    ensures i < |trace| && trace[i] == k && k !in trace[i + 1..]
    decreases |trace|
  {
    if trace[|trace| - 1] == k then |trace| - 1 else LastIndex(trace[..|trace| - 1], k)
  }

  /** The last-use order really is the order of last occurrences. */
  lemma {:induction false} ByLastUseSorted<K(!new)>(trace: seq<K>)
    ensures forall i, j :: 0 <= i < j < |ByLastUse(trace)| ==>
      ByLastUse(trace)[i] in trace && ByLastUse(trace)[j] in trace
      && LastIndex(trace, ByLastUse(trace)[i]) < LastIndex(trace, ByLastUse(trace)[j])
  {
    ByLastUseDistinct(trace);
    if trace != [] {
      var tail, rest := trace[1..], ByLastUse(trace[1..]);
      ByLastUseDistinct(tail);
      ByLastUseSorted(tail);
      forall k | k in tail ensures k in trace && LastIndex(trace, k) == LastIndex(tail, k) + 1 {
        LastIndexUnique(trace, k, LastIndex(tail, k) + 1);
      }
      if trace[0] !in tail {
        LastIndexUnique(trace, trace[0], 0);
      }
    }
  }

  lemma LastIndexUnique<K>(trace: seq<K>, k: K, i: nat)
    requires i < |trace| && trace[i] == k && k !in trace[i + 1..]
    ensures k in trace && LastIndex(trace, k) == i
  {
    var m := LastIndex(trace, k);
    forall j | m < j < |trace| ensures trace[j] != k { assert trace[j] == trace[m + 1..][j - m - 1]; }
    forall j | i < j < |trace| ensures trace[j] != k { assert trace[j] == trace[i + 1..][j - i - 1]; }
  }
}
