/** What one sequential DeferredLRU operation does to the LRU order and to the Recent stack.
    Everything is generic: the same functions are applied to node numbers and to keys. */
module DeferredPolicy {
  import opened Links
  import opened Sequences

  function Max(a: int, b: int): int { if a > b then a else b }

  function Min(a: int, b: int): int { if a < b then a else b }

  /** The nodes a pull moves: the Recent stack, newest first, except the node that is first in the LRU list. */
  function Moved<T(==,!new)>(lru: seq<T>, recent: seq<T>): seq<T> {
    if lru == [] then recent else Without(recent, {lru[0]})
  }

  /** The LRU order (most recently used first) after a pull. */
  function PullOrder<T(==,!new)>(lru: seq<T>, recent: seq<T>): seq<T> {
    Moved(lru, recent) + Without(lru, Elements(Moved(lru, recent)))
  }

  /** The nodes a purge may evict: unmarked, and not first in the LRU list. */
  function Candidates<T(==,!new)>(lru: seq<T>, recent: seq<T>): seq<T> {
    if lru == [] then [] else Without(lru[1..], Elements(recent))
  }

  function VictimCount<T(==,!new)>(lru: seq<T>, recent: seq<T>, required: nat): nat {
    Min(Max(required, 1), |Candidates(lru, recent)|)
  }

  /** The candidates nearest the tail. */
  function Victims<T(==,!new)>(lru: seq<T>, recent: seq<T>, required: nat): seq<T> {
    var c := Candidates(lru, recent);
    c[|c| - VictimCount(lru, recent, required)..]
  }

  function PurgeOrder<T(==,!new)>(lru: seq<T>, recent: seq<T>, required: nat): seq<T> {
    Without(lru, Elements(Victims(lru, recent, required)))
  }

  /** Marked nodes are in the list, everything is there once. */
  ghost predicate Marks<T(!new)>(lru: seq<T>, recent: seq<T>) {
    Distinct(lru) && Distinct(recent) && forall x :: x in recent ==> x in lru
  }

  /** A pull is a permutation that puts every marked node before every unmarked one, except that the first node of
      the list is passed only by the nodes that move; unmoved nodes keep their order. */
  lemma PullPermutes<T(!new)>(lru: seq<T>, recent: seq<T>)
    requires Marks(lru, recent)
    ensures Distinct(PullOrder(lru, recent)) && |PullOrder(lru, recent)| == |lru|
    ensures forall x :: x in PullOrder(lru, recent) <==> x in lru
    ensures forall x :: x in Moved(lru, recent) <==> x in recent && x != lru[0]
  {
    var moved := Moved(lru, recent);
    WithoutMembers(lru, Elements(moved));
    if lru == [] {
      assert forall i :: 0 <= i < |recent| ==> recent[i] in lru;
    } else {
      WithoutDistinct(recent, {lru[0]});
      WithoutMembers(recent, {lru[0]});
    }
    WithoutDistinct(lru, Elements(moved));
    DistinctConcat(moved, Without(lru, Elements(moved)));
    WithoutLengthExact(lru, moved);
  }

  /** After a pull every marked node precedes every unmarked one. */
  lemma PullFrontsMarked<T(!new)>(lru: seq<T>, recent: seq<T>, i: nat, j: nat)
    requires Marks(lru, recent)
    requires i < |lru| && j < |lru| && |PullOrder(lru, recent)| == |lru|
    requires PullOrder(lru, recent)[i] in recent && PullOrder(lru, recent)[j] !in recent
    ensures i < j
  {
    var moved := Moved(lru, recent);
    var rest := Without(lru, Elements(moved));
    var order := PullOrder(lru, recent);
    WithoutMembers(recent, {lru[0]});
    WithoutMembers(lru, Elements(moved));
    assert forall m :: 0 <= m < |moved| ==> order[m] == moved[m] && moved[m] in moved;
    if i >= |moved| {
      // Only the first node of the list can be marked and not moved, and it is first among the unmoved.
      assert order[i] == rest[i - |moved|] && rest[i - |moved|] in rest;
      assert rest[0] == lru[0];
      WithoutDistinct(lru, Elements(moved));
    }
  }

  /** Who a purge evicts, and what it leaves alone. */
  lemma PurgeEffect<T(!new)>(lru: seq<T>, recent: seq<T>, required: nat)
    requires Marks(lru, recent)
    ensures Distinct(PurgeOrder(lru, recent, required)) && Distinct(Victims(lru, recent, required))
    ensures forall x :: x in Victims(lru, recent, required) ==> x in lru && x !in recent && x != lru[0]
    ensures |PurgeOrder(lru, recent, required)| == |lru| - VictimCount(lru, recent, required)
    ensures forall x :: x in PurgeOrder(lru, recent, required) <==> x in lru && x !in Victims(lru, recent, required)
    ensures Marks(PurgeOrder(lru, recent, required), recent)
    ensures lru != [] ==> PurgeOrder(lru, recent, required) != [] && PurgeOrder(lru, recent, required)[0] == lru[0]
  {
    var c := Candidates(lru, recent);
    var v := Victims(lru, recent, required);
    WithoutMembers(lru, Elements(v));
    if lru != [] {
      WithoutDistinct(lru[1..], Elements(recent));
      WithoutMembers(lru[1..], Elements(recent));
      forall x | x in v ensures x in lru && x !in recent && x != lru[0] {
        assert x in c;
      }
    }
    WithoutDistinct(lru, Elements(v));
    WithoutLengthExact(lru, v);
  }

  /** How many nodes a purge can free. */
  lemma CandidatesBound<T(!new)>(lru: seq<T>, recent: seq<T>)
    requires Marks(lru, recent)
    ensures |Candidates(lru, recent)| >= |lru| - 1 - |recent|
  {
    if lru != [] {
      WithoutLength(lru[1..], recent);
    }
  }

  /** What the allocation loop reads and changes: it retries while the pool is empty. */
  datatype Arena<!T> = Arena(lru: seq<T>, recent: seq<T>, pool: seq<T>)

  /** One failed attempt: the requested purge is carried out and its victims become free nodes. */
  function Retry<T(==,!new)>(a: Arena<T>, required: nat): Arena<T> {
    if a.pool != [] then a
    else Arena(PurgeOrder(a.lru, a.recent, required), a.recent, Victims(a.lru, a.recent, required))
  }

  predicate CanAllocate<T(==,!new)>(a: Arena<T>) {
    a.pool != [] || Candidates(a.lru, a.recent) != []
  }

  /** `n` is the given fraction of the capacity, rounded down, but 1 if the fraction is less than one node. */
  ghost predicate IsFraction(n: nat, factor: real, capacity: nat) {
    && (factor * capacity as real >= 1.0 ==> n as real <= factor * capacity as real < n as real + 1.0)
    && (factor * capacity as real < 1.0 ==> n == 1)
  }

  /** How a threshold is computed from its factor. */
  function Threshold(factor: real, capacity: nat): (r: nat)
    ensures r >= 1 && IsFraction(r, factor, capacity)
  {
    Max((factor * capacity as real).Floor, 1)
  }

  /** As few buckets as are needed for `factor` nodes in each. */
  ghost predicate FewestBuckets(buckets: nat, capacity: nat, factor: nat) {
    (buckets - 1) * factor < capacity <= buckets * factor
  }

  lemma BucketsRoundUp(capacity: nat, factor: nat)
    requires factor > 0
    ensures FewestBuckets((capacity + factor - 1) / factor, capacity, factor)
  {
    var n := (capacity + factor - 1) / factor;
    assert capacity + factor - 1 == n * factor + (capacity + factor - 1) % factor;
    assert (n - 1) * factor == n * factor - factor;
  }

  // ---------- whole operations on keys ----------

  datatype Params = Params(capacity: nat, pullThreshold: nat, purgeThreshold: nat)

  /** Cached keys, most recently used first, and the marked keys, newest mark first. */
  datatype Cache<!K> = Cache(lru: seq<K>, recent: seq<K>)

  function Find<K(==,!new)>(p: Params, c: Cache<K>, k: K): Cache<K> {
    var marked := if k in c.lru && k !in c.recent then c.(recent := [k] + c.recent) else c;
    if |marked.recent| >= p.pullThreshold then Cache(PullOrder(marked.lru, marked.recent), []) else marked
  }

  /** True iff the access ends with a pull. */
  predicate Pulls<K(==,!new)>(p: Params, c: Cache<K>, k: K) {
    |if k in c.lru && k !in c.recent then [k] + c.recent else c.recent| >= p.pullThreshold
  }

  function MakeRoom<K(==,!new)>(p: Params, c: Cache<K>): Cache<K> {
    if |c.lru| >= p.capacity then c.(lru := PurgeOrder(c.lru, c.recent, p.purgeThreshold)) else c
  }

  function Insert<K(==,!new)>(p: Params, c: Cache<K>, k: K): Cache<K> {
    var room := MakeRoom(p, c);
    room.(lru := [k] + room.lru)
  }

  /** One memoized access. */
  function Access<K(==,!new)>(p: Params, c: Cache<K>, k: K): Cache<K> {
    if k in c.lru then Find(p, c, k) else Insert(p, Find(p, c, k), k)
  }

  /** The keys one access evicts, in eviction order (tail first). */
  function Evicted<K(==,!new)>(p: Params, c: Cache<K>, k: K): seq<K> {
    if k !in c.lru && |c.lru| >= p.capacity then Reverse(Victims(c.lru, c.recent, p.purgeThreshold)) else []
  }

  function Run<K(==,!new)>(p: Params, trace: seq<K>): Cache<K> {
    if trace == [] then Cache([], [])
    else Access(p, Run(p, trace[..|trace| - 1]), trace[|trace| - 1])
  }

  /** The state between operations: the Recent stack is below its threshold. */
  ghost predicate Quiet<K(!new)>(p: Params, c: Cache<K>) {
    && Marks(c.lru, c.recent)
    && |c.lru| <= p.capacity
    && |c.recent| < p.pullThreshold
  }

  ghost predicate Sound(p: Params) {
    1 <= p.pullThreshold < p.capacity && 1 <= p.purgeThreshold
  }

  lemma FindQuiet<K(!new)>(p: Params, c: Cache<K>, k: K)
    requires Quiet(p, c)
    ensures Quiet(p, Find(p, c, k)) && |Find(p, c, k).lru| == |c.lru|
    ensures forall x :: x in Find(p, c, k).lru <==> x in c.lru
    ensures k !in c.lru ==> Find(p, c, k) == c
  {
    var marked := if k in c.lru && k !in c.recent then c.(recent := [k] + c.recent) else c;
    PullPermutes(marked.lru, marked.recent);
  }

  /** A purge of a full cache frees at least min(purge threshold, capacity - pull threshold) nodes, so one purge is
      enough for the next insertion. */
  lemma PurgeFrees<K(!new)>(p: Params, c: Cache<K>)
    requires Quiet(p, c) && |c.lru| == p.capacity
    ensures VictimCount(c.lru, c.recent, p.purgeThreshold)
            >= Min(Max(p.purgeThreshold, 1), p.capacity - p.pullThreshold)
    ensures Sound(p) ==> |MakeRoom(p, c).lru| < p.capacity
  {
    CandidatesBound(c.lru, c.recent);
    PurgeEffect(c.lru, c.recent, p.purgeThreshold);
  }

  lemma AccessQuiet<K(!new)>(p: Params, c: Cache<K>, k: K)
    requires Quiet(p, c) && Sound(p)
    ensures Quiet(p, Access(p, c, k)) && k in Access(p, c, k).lru
  {
    FindQuiet(p, c, k);
    if k !in c.lru {
      PurgeEffect(c.lru, c.recent, p.purgeThreshold);
      if |c.lru| == p.capacity { PurgeFrees(p, c); }
    }
  }

  lemma {:induction false} RunQuiet<K(!new)>(p: Params, trace: seq<K>)
    requires Sound(p)
    ensures Quiet(p, Run(p, trace))
    decreases |trace|
  {
    if trace != [] {
      RunQuiet(p, trace[..|trace| - 1]);
      AccessQuiet(p, Run(p, trace[..|trace| - 1]), trace[|trace| - 1]);
    }
  }
}
