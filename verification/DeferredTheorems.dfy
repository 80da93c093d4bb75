/** Theorems about whole runs of the sequential DeferredLRU policy. */
module DeferredTheorems {
  import opened Links
  import opened Sequences
  import opened DeferredPolicy
  import ExactLru

  // ---------- bounded staleness ----------

  /** A cache together with the number of pulls so far and, for every key, the epoch of its last access. */
  datatype History<!K> = History(cache: Cache<K>, epoch: nat, stamp: map<K, nat>)

  function Step<K(==,!new)>(p: Params, h: History<K>, k: K): History<K> {
    History(Access(p, h.cache, k), if Pulls(p, h.cache, k) then h.epoch + 1 else h.epoch, h.stamp[k := h.epoch])
  }

  function RunHistory<K(==,!new)>(p: Params, trace: seq<K>): History<K> {
    if trace == [] then History(Cache([], []), 0, map[])
    else Step(p, RunHistory(p, trace[..|trace| - 1]), trace[|trace| - 1])
  }

  function Stamp<K(==)>(h: History<K>, k: K): int {
    if k in h.stamp then h.stamp[k] else -1
  }

  /** Stamps do not increase along the unmarked part of the list. */
  ghost predicate Ordered<K(!new)>(lru: seq<K>, recent: seq<K>, h: History<K>) {
    forall i, j :: 0 <= i < j < |lru| && lru[i] !in recent && lru[j] !in recent ==> Stamp(h, lru[i]) >= Stamp(h, lru[j])
  }

  ghost predicate Aged<K(!new)>(p: Params, h: History<K>) {
    && Quiet(p, h.cache)
    && (forall k :: Stamp(h, k) <= h.epoch)
    && (forall k :: k in h.cache.recent ==> Stamp(h, k) == h.epoch)
    && Ordered(h.cache.lru, h.cache.recent, h)
  }

  /** Order is inherited by filtered lists. */
  lemma {:induction false} WithoutOrdered<K(!new)>(lru: seq<K>, drop: set<K>, recent: seq<K>, h: History<K>)
    requires Ordered(lru, recent, h)
    ensures Ordered(Without(lru, drop), recent, h)
  {
    if lru != [] {
      assert Ordered(lru[1..], recent, h);
      WithoutOrdered(lru[1..], drop, recent, h);
      WithoutMembers(lru[1..], drop);
      assert forall x :: x in lru[1..] && lru[0] !in recent && x !in recent ==> Stamp(h, lru[0]) >= Stamp(h, x);
    }
  }

  /** Stamps of the current epoch may be put in front. */
  lemma PrefixOrdered<K(!new)>(front: seq<K>, lru: seq<K>, recent: seq<K>, h: History<K>)
    requires Ordered(lru, recent, h)
    requires forall x, y :: x in front && (y in front || y in lru) ==> Stamp(h, x) >= Stamp(h, y)
    ensures Ordered(front + lru, recent, h)
  {
    var whole := front + lru;
    forall i, j | 0 <= i < j < |whole| && whole[i] !in recent && whole[j] !in recent
      ensures Stamp(h, whole[i]) >= Stamp(h, whole[j])
    {
      if i < |front| {
        assert whole[i] in front;
        if j >= |front| { assert whole[j] in lru; } else { assert whole[j] in front; }
      } else {
        assert whole[i] == lru[i - |front|] && whole[j] == lru[j - |front|];
      }
    }
  }

  /** A pull leaves the whole list in stamp order: what moves was used in this epoch, and so was the first node if
      it was marked. */
  lemma PullOrdered<K(!new)>(lru: seq<K>, recent: seq<K>, h: History<K>)
    requires Marks(lru, recent) && Ordered(lru, recent, h)
    requires forall k :: Stamp(h, k) <= h.epoch
    requires forall k :: k in recent ==> Stamp(h, k) == h.epoch
    ensures Ordered(PullOrder(lru, recent), [], h)
  {
    var moved := Moved(lru, recent);
    var rest := Without(lru, Elements(moved));
    PullPermutes(lru, recent);
    WithoutMembers(lru, Elements(moved));
    WithoutOrdered(lru, Elements(moved), recent, h);
    if lru != [] {
      assert rest[0] == lru[0];
      WithoutDistinct(lru, Elements(moved));
      assert forall i :: 1 <= i < |rest| ==> rest[i] in rest && rest[i] != lru[0];
      forall i, j | 0 <= i < j < |rest| ensures Stamp(h, rest[i]) >= Stamp(h, rest[j]) {
        assert rest[j] !in recent;
        assert i > 0 ==> rest[i] !in recent;
      }
    }
    PrefixOrdered(moved, rest, [], h);
  }

  /** Re-stamping a key outside a list does not disturb its order. */
  lemma RestampOrdered<K(!new)>(lru: seq<K>, recent: seq<K>, h: History<K>, h': History<K>, k: K)
    requires Ordered(lru, recent, h) && h'.stamp == h.stamp[k := h.epoch]
    requires k !in lru || k in recent
    ensures Ordered(lru, recent, h')
  {
    assert forall x :: x in lru && x !in recent ==> Stamp(h', x) == Stamp(h, x);
  }

  /** Marking the key that is being accessed. */
  lemma MarkAged<K(!new)>(lru: seq<K>, recent: seq<K>, h: History<K>, h': History<K>, k: K, recent': seq<K>)
    requires Marks(lru, recent) && Ordered(lru, recent, h) && k in lru
    requires forall x :: Stamp(h, x) <= h.epoch
    requires forall x :: x in recent ==> Stamp(h, x) == h.epoch
    requires h'.epoch == h.epoch && h'.stamp == h.stamp[k := h.epoch]
    requires recent' == if k !in recent then [k] + recent else recent
    ensures Marks(lru, recent') && Ordered(lru, recent', h')
    ensures forall x :: Stamp(h', x) <= h'.epoch
    ensures forall x :: x in recent' ==> Stamp(h', x) == h'.epoch
  {
    forall x ensures Stamp(h', x) <= h'.epoch { assert Stamp(h, x) <= h.epoch; }
    assert forall x :: x in recent' <==> x == k || x in recent;
    assert Ordered(lru, recent', h);
    RestampOrdered(lru, recent', h, h', k);
  }

  lemma HitAged<K(!new)>(p: Params, h: History<K>, k: K)
    requires Aged(p, h) && k in h.cache.lru
    ensures Ordered(Find(p, h.cache, k).lru, Find(p, h.cache, k).recent, Step(p, h, k))
    ensures forall x :: x in Find(p, h.cache, k).recent ==> Stamp(Step(p, h, k), x) == Step(p, h, k).epoch
  {
    var c := h.cache;
    var recent := if k !in c.recent then [k] + c.recent else c.recent;
    var marked := History(c, h.epoch, h.stamp[k := h.epoch]);
    MarkAged(c.lru, c.recent, h, marked, k, recent);
    if |recent| >= p.pullThreshold {
      PullOrdered(c.lru, recent, marked);
      assert Find(p, c, k) == Cache(PullOrder(c.lru, recent), []);
      SameStamps(PullOrder(c.lru, recent), [], marked, Step(p, h, k));
    } else {
      assert Find(p, c, k) == Cache(c.lru, recent);
      assert Step(p, h, k).stamp == marked.stamp && Step(p, h, k).epoch == h.epoch;
      SameStamps(c.lru, recent, marked, Step(p, h, k));
    }
  }

  lemma SameStamps<K(!new)>(lru: seq<K>, recent: seq<K>, h: History<K>, h': History<K>)
    requires Ordered(lru, recent, h) && h'.stamp == h.stamp
    ensures Ordered(lru, recent, h')
    ensures forall x :: Stamp(h', x) == Stamp(h, x)
  {
  }

  lemma MissAged<K(!new)>(p: Params, h: History<K>, k: K)
    requires Aged(p, h) && k !in h.cache.lru
    ensures Ordered(Insert(p, h.cache, k).lru, h.cache.recent, Step(p, h, k))
  {
    var c := h.cache;
    var h' := Step(p, h, k);
    var room := MakeRoom(p, c);
    PurgeEffect(c.lru, c.recent, p.purgeThreshold);
    WithoutOrdered(c.lru, Elements(Victims(c.lru, c.recent, p.purgeThreshold)), c.recent, h);
    RestampOrdered(room.lru, c.recent, h, h', k);
    forall y ensures Stamp(h', y) <= Stamp(h', k) { assert Stamp(h, y) <= h.epoch; }
    PrefixOrdered([k], room.lru, c.recent, h');
  }

  lemma StepAged<K(!new)>(p: Params, h: History<K>, k: K)
    requires Sound(p) && Aged(p, h)
    ensures Aged(p, Step(p, h, k))
  {
    AccessQuiet(p, h.cache, k);
    forall x ensures Stamp(Step(p, h, k), x) <= Step(p, h, k).epoch { assert Stamp(h, x) <= h.epoch; }
    if k in h.cache.lru {
      HitAged(p, h, k);
    } else {
      FindQuiet(p, h.cache, k);
      MissAged(p, h, k);
    }
  }

  lemma {:induction false} RunAged<K(!new)>(p: Params, trace: seq<K>)
    requires Sound(p)
    ensures Aged(p, RunHistory(p, trace)) && RunHistory(p, trace).cache == Run(p, trace)
    decreases |trace|
  {
    if trace != [] {
      RunAged(p, trace[..|trace| - 1]);
      StepAged(p, RunHistory(p, trace[..|trace| - 1]), trace[|trace| - 1]);
    }
  }

  /** Bounded staleness: after any trace, whatever a purge would evict was last used in an epoch no later than any
      key that would survive it. So only accesses between two consecutive pulls can be out of order. */
  lemma VictimsAreStale<K(!new)>(p: Params, trace: seq<K>, victim: K, survivor: K)
    requires Sound(p)
    requires victim in Victims(Run(p, trace).lru, Run(p, trace).recent, p.purgeThreshold)
    requires survivor in PurgeOrder(Run(p, trace).lru, Run(p, trace).recent, p.purgeThreshold)
    ensures Stamp(RunHistory(p, trace), victim) <= Stamp(RunHistory(p, trace), survivor)
  {
    RunAged(p, trace);
    var h := RunHistory(p, trace);
    var c := h.cache;
    PurgeEffect(c.lru, c.recent, p.purgeThreshold);
    if survivor !in c.recent {
      var i, j := SurvivorsPrecede(c.lru, c.recent, p.purgeThreshold, victim, survivor);
    }
  }

  /** An unmarked survivor is nearer the head than every victim. */
  lemma SurvivorsPrecede<K(!new)>(lru: seq<K>, recent: seq<K>, required: nat, victim: K, survivor: K)
    returns (i: nat, j: nat)
    requires Marks(lru, recent)
    requires victim in Victims(lru, recent, required)
    requires survivor in lru && survivor !in recent && survivor !in Victims(lru, recent, required)
    ensures i < j < |lru| && lru[i] == survivor && lru[j] == victim
  {
    PurgeEffect(lru, recent, required);
    var c := Candidates(lru, recent);
    var v := Victims(lru, recent, required);
    i :| 0 <= i < |lru| && lru[i] == survivor;
    j :| 0 <= j < |lru| && lru[j] == victim;
    if i > j {
      assert lru[1..][i - 1] == survivor && lru[1..][j - 1] == victim;
      var a :| 0 <= a < |v| && v[a] == victim;
      assert c[|c| - |v| + a] == victim;
      WithoutMembers(lru[1..], Elements(recent));
      assert survivor in c;
      var b :| 0 <= b < |c| && c[b] == survivor;
      assert b < |c| - |v| by {
        assert forall m :: 0 <= m < |v| ==> c[|c| - |v| + m] == v[m] && v[m] in v;
      }
      WithoutKeepsOrder(lru[1..], Elements(recent), b, |c| - |v| + a, i - 1, j - 1);
    }
  }

  /** Filtering keeps relative positions. */
  lemma {:induction false} WithoutKeepsOrder<T(!new)>(s: seq<T>, drop: set<T>, a: nat, b: nat, i: nat, j: nat)
    requires Distinct(s) && i < |s| && j < |s|
    requires a < b < |Without(s, drop)| && Without(s, drop)[a] == s[i] && Without(s, drop)[b] == s[j]
    ensures i < j
  {
    var r := Without(s, drop);
    WithoutMembers(s, drop);
    WithoutMembers(s[1..], drop);
    if s[0] in drop {
      assert r[a] in r && r[b] in r;
      WithoutKeepsOrder(s[1..], drop, a, b, i - 1, j - 1);
    } else if a == 0 {
      assert r[1..] == Without(s[1..], drop);
      assert r[b] in r[1..];
    } else {
      assert r[a - 1 + 1] in r[1..] && r[b - 1 + 1] in r[1..];
      assert r[1..] == Without(s[1..], drop);
      WithoutKeepsOrder(s[1..], drop, a - 1, b - 1, i - 1, j - 1);
    }
  }

  // ---------- equivalence with the exact LRU ----------

  /** A pull with one mark moves that key to the front. */
  lemma PullOne<K(!new)>(lru: seq<K>, k: K)
    requires Distinct(lru) && k in lru
    ensures PullOrder(lru, [k]) == [k] + Without(lru, {k})
  {
    if lru[0] == k {
      assert Moved(lru, [k]) == [];
      assert Elements<K>([]) == {};
      WithoutNone(lru, {});
      WithoutIsDrop(lru, 0);
    } else {
      assert Moved(lru, [k]) == [k];
      assert Elements([k]) == {k};
    }
  }

  /** A purge of one node without marks drops the last key of the list. */
  lemma PurgeOne<K(!new)>(lru: seq<K>)
    requires Distinct(lru) && |lru| >= 2
    ensures Victims(lru, [], 1) == [lru[|lru| - 1]] && PurgeOrder(lru, [], 1) == lru[..|lru| - 1]
  {
    WithoutNone(lru[1..], {});
    assert Elements<K>([]) == {};
    WithoutIsDrop(lru, |lru| - 1);
    assert Elements([lru[|lru| - 1]]) == {lru[|lru| - 1]};
  }

  lemma ReverseEnds<T(!new)>(s: seq<T>)
    requires s != []
    ensures Reverse(s)[|s| - 1] == s[0] && Reverse(s)[..|s| - 1] == Reverse(s[1..])
  {
  }

  lemma {:induction false} ReverseDistinct<T(!new)>(s: seq<T>)
    requires Distinct(s)
    ensures Distinct(Reverse(s))
  {
    if s != [] {
      ReverseDistinct(s[1..]);
      ReverseMembers(s[1..]);
      assert s[0] !in s[1..];
    }
  }

  ghost predicate Mirrors<K(!new)>(c: Cache<K>, order: seq<K>) {
    c.recent == [] && c.lru == Reverse(order) && Distinct(order)
  }

  lemma MirrorHit<K(!new)>(capacity: nat, c: Cache<K>, order: seq<K>, k: K)
    requires Mirrors(c, order) && k in order
    ensures Mirrors(Access(Params(capacity, 1, 1), c, k), ExactLru.Access(capacity, order, k))
    ensures |ExactLru.Access(capacity, order, k)| == |order|
  {
    ReverseDistinct(order);
    ReverseMembers(order);
    WithoutMembers(order, {k});
    PullOne(c.lru, k);
    assert Access(Params(capacity, 1, 1), c, k) == Cache([k] + Without(c.lru, {k}), []);
    ReverseWithout(order, {k});
    ReverseConcat(Without(order, {k}), [k]);
    assert Reverse([k]) == [k];
    WithoutDistinct(order, {k});
    var j :| 0 <= j < |order| && order[j] == k;
    WithoutIsDrop(order, j);
  }

  lemma MirrorMiss<K(!new)>(capacity: nat, c: Cache<K>, order: seq<K>, k: K)
    requires capacity >= 2 && Mirrors(c, order) && |order| <= capacity && k !in order
    ensures Mirrors(Access(Params(capacity, 1, 1), c, k), ExactLru.Access(capacity, order, k))
    ensures |ExactLru.Access(capacity, order, k)| <= capacity
    ensures Evicted(Params(capacity, 1, 1), c, k) == ExactLru.Evicted(capacity, order, k)
  {
    var p := Params(capacity, 1, 1);
    var kept := ExactLru.Admit(capacity, order);
    ReverseDistinct(order);
    ReverseMembers(order);
    if |order| == capacity {
      PurgeOne(c.lru);
      ReverseEnds(order);
      assert Reverse([order[0]]) == [order[0]];
    }
    assert MakeRoom(p, c).lru == Reverse(kept);
    ReverseConcat(kept, [k]);
    assert Reverse([k]) == [k];
    assert Distinct(kept + [k]);
  }

  /** With both thresholds 1, one access keeps the two caches mirror images and evicts the same keys. */
  lemma MirrorStep<K(!new)>(capacity: nat, c: Cache<K>, order: seq<K>, k: K)
    requires capacity >= 2 && Mirrors(c, order) && |order| <= capacity
    ensures Mirrors(Access(Params(capacity, 1, 1), c, k), ExactLru.Access(capacity, order, k))
    ensures |ExactLru.Access(capacity, order, k)| <= capacity
    ensures k in c.lru <==> k in order
    ensures Evicted(Params(capacity, 1, 1), c, k) == ExactLru.Evicted(capacity, order, k)
  {
    ReverseMembers(order);
    if k in order { MirrorHit(capacity, c, order, k); } else { MirrorMiss(capacity, c, order, k); }
  }

  /** On every trace, sequential DeferredLRU with both thresholds 1 is the exact LRU: same contents in mirrored order,
      same hits and misses, same evictions in the same order. */
  lemma {:induction false} ThresholdOneIsExactLru<K(!new)>(capacity: nat, trace: seq<K>)
    requires capacity >= 2
    ensures Mirrors(Run(Params(capacity, 1, 1), trace), ExactLru.Run(capacity, trace))
    ensures |ExactLru.Run(capacity, trace)| <= capacity
    ensures forall k :: k in Run(Params(capacity, 1, 1), trace).lru <==> k in ExactLru.Run(capacity, trace)
    ensures forall k :: Evicted(Params(capacity, 1, 1), Run(Params(capacity, 1, 1), trace), k)
                        == ExactLru.Evicted(capacity, ExactLru.Run(capacity, trace), k)
    decreases |trace|
  {
    var p := Params(capacity, 1, 1);
    if trace != [] {
      var before := trace[..|trace| - 1];
      ThresholdOneIsExactLru(capacity, before);
      MirrorStep(capacity, Run(p, before), ExactLru.Run(capacity, before), trace[|trace| - 1]);
    }
    ReverseMembers(ExactLru.Run(capacity, trace));
    forall k ensures Evicted(p, Run(p, trace), k) == ExactLru.Evicted(capacity, ExactLru.Run(capacity, trace), k) {
      MirrorStep(capacity, Run(p, trace), ExactLru.Run(capacity, trace), k);
    }
  }

  // ---------- termination of the allocation loop ----------

  function Retries<T(==,!new)>(a: Arena<T>, required: nat, n: nat): Arena<T>
    decreases n
  {
    if n == 0 then a else Retries(Retry(a, required), required, n - 1)
  }

  lemma RetryStuck<T(!new)>(a: Arena<T>, required: nat)
    requires !CanAllocate(a)
    ensures Retry(a, required) == a
  {
    assert Victims(a.lru, a.recent, required) == [] && Elements<T>([]) == {};
    WithoutNone(a.lru, {});
  }

  lemma {:induction false} RetriesStuck<T(!new)>(a: Arena<T>, required: nat, n: nat)
    requires !CanAllocate(a)
    ensures Retries(a, required, n) == a
  {
    if n > 0 {
      RetryStuck(a, required);
      RetriesStuck(a, required, n - 1);
    }
  }

  /** The allocation loop ends exactly when there is a free node or an unmarked node other than the first; and then
      one retry is enough. */
  lemma AllocationEndsIff<T(!new)>(a: Arena<T>, required: nat)
    ensures (exists n: nat :: Retries(a, required, n).pool != []) <==> CanAllocate(a)
    ensures CanAllocate(a) ==> Retries(a, required, 1).pool != []
  {
    if CanAllocate(a) {
      assert Retries(a, required, 1) == Retry(a, required) by {
        assert Retries(Retry(a, required), required, 0) == Retry(a, required);
      }
      if a.pool == [] {
        assert |Victims(a.lru, a.recent, required)| >= 1;
      }
      assert Retries(a, required, 1).pool != [];
    } else {
      forall n: nat ensures Retries(a, required, n).pool == [] { RetriesStuck(a, required, n); }
    }
  }

  predicate Stuck<K(==,!new)>(p: Params, c: Cache<K>) {
    |c.lru| >= p.capacity && Candidates(c.lru, c.recent) == []
  }

  function Up(n: nat): seq<int> { if n == 0 then [] else Up(n - 1) + [n - 1] }

  function Down(n: nat): (r: seq<int>)
    ensures |r| == n && forall x :: x in r <==> 0 <= x < n
  {
    if n == 0 then [] else [n - 1] + Down(n - 1)
  }

  lemma {:induction false} FillUp(p: Params, n: nat)
    requires n <= p.capacity && 1 <= p.pullThreshold
    ensures Run(p, Up(n)) == Cache(Down(n), [])
  {
    if n > 0 {
      FillUp(p, n - 1);
      assert Up(n)[..n - 1] == Up(n - 1) by { UpLength(n); UpLength(n - 1); }
      UpLength(n);
    }
  }

  lemma {:induction false} UpLength(n: nat)
    ensures |Up(n)| == n
  {
    if n > 0 { UpLength(n - 1); }
  }

  lemma {:induction false} MarkUp(p: Params, m: nat)
    requires m < p.capacity <= p.pullThreshold
    ensures Run(p, Up(p.capacity) + Up(m)) == Cache(Down(p.capacity), Down(m))
  {
    if m == 0 {
      FillUp(p, p.capacity);
      assert Up(p.capacity) + Up(0) == Up(p.capacity);
    } else {
      MarkUp(p, m - 1);
      var trace := Up(p.capacity) + Up(m);
      assert trace == (Up(p.capacity) + Up(m - 1)) + [m - 1];
      assert trace[..|trace| - 1] == Up(p.capacity) + Up(m - 1);
    }
  }

  lemma NotStuck<K(!new)>(p: Params, trace: seq<K>)
    requires 1 <= p.pullThreshold < p.capacity
    ensures !Stuck(p, Run(p, trace))
  {
    var q := p.(purgeThreshold := Max(p.purgeThreshold, 1));
    SameRun(p, q, trace);
    RunQuiet(q, trace);
    CandidatesBound(Run(p, trace).lru, Run(p, trace).recent);
  }

  lemma NothingToEvict(c: nat)
    requires c >= 1
    ensures Candidates(Down(c), Down(c - 1)) == []
  {
    assert Down(c)[1..] == Down(c - 1);
    WithoutAll(Down(c - 1), Elements(Down(c - 1)));
  }

  lemma ReachesStuck(p: Params)
    requires 1 <= p.capacity <= p.pullThreshold
    ensures Stuck(p, Run(p, Up(p.capacity) + Up(p.capacity - 1)))
  {
    hide Candidates;
    MarkUp(p, p.capacity - 1);
    NothingToEvict(p.capacity);
  }

  /** Some trace leaves a full cache with nothing to evict, so that the next insertion never ends, exactly when the pull
      threshold is not below the capacity: fill the cache, then find every key but the newest. */
  lemma StuckReachableIff(p: Params)
    requires p.capacity >= 1 && p.pullThreshold >= 1
    ensures (exists trace: seq<int> :: Stuck(p, Run(p, trace))) <==> p.pullThreshold >= p.capacity
  {
    hide Stuck;
    if p.pullThreshold < p.capacity {
      forall trace: seq<int> ensures !Stuck(p, Run(p, trace)) { NotStuck(p, trace); }
    } else {
      ReachesStuck(p);
      assert exists trace: seq<int> :: Stuck(p, Run(p, trace));
    }
  }

  /** A purge threshold of 0 acts as 1. */
  lemma {:induction false} SameRun<K(!new)>(p: Params, q: Params, trace: seq<K>)
    requires q == p.(purgeThreshold := Max(p.purgeThreshold, 1))
    ensures Run(p, trace) == Run(q, trace)
    decreases |trace|
  {
    if trace != [] { SameRun(p, q, trace[..|trace| - 1]); }
  }

  /** The threshold is below the capacity exactly for a factor below 1 and at least two nodes. */
  lemma ThresholdBelowCapacityIff(factor: real, capacity: nat)
    requires factor >= 0.0 && capacity >= 1
    ensures 1 <= Threshold(factor, capacity)
    ensures Threshold(factor, capacity) < capacity <==> factor < 1.0 && capacity >= 2
  {
    var c := capacity as real;
    var x := factor * c;
    Scale(factor, c, x);
    FloorBelow(x, capacity, factor < 1.0);
    assert Threshold(factor, capacity) == Max(x.Floor, 1);
  }

  lemma Scale(factor: real, c: real, x: real)
    requires c > 0.0 && x == factor * c
    ensures x < c <==> factor < 1.0
  {
    if factor < 1.0 {
      ProductPositive(1.0 - factor, c);
      Distribute(factor, c);
    } else if factor > 1.0 {
      ProductPositive(factor - 1.0, c);
      Distribute(factor, c);
    } else {
      assert factor == 1.0 && factor * c == c;
    }
  }

  lemma Distribute(factor: real, c: real)
    ensures (1.0 - factor) * c == c - factor * c
    ensures (factor - 1.0) * c == factor * c - c
  {
  }

  lemma ProductPositive(a: real, b: real)
    requires a > 0.0 && b > 0.0
    ensures a * b > 0.0
  {
  }

  lemma FloorBelow(x: real, n: int, below: bool)
    requires n >= 1 && (x < n as real <==> below)
    ensures Max(x.Floor, 1) < n <==> below && n >= 2
  {
    assert x.Floor as real <= x < (x.Floor + 1) as real;
    if x.Floor < n {
      assert (x.Floor + 1) as real <= n as real;
    }
  }
}
