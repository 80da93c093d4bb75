/** What every interleaving of DeferredLRU guarantees. */
module DeferredSafety {
  import opened Links
  import opened Sequences
  import opened SharedLists
  import opened DeferredMachine
  import opened DeferredInvariant
  import opened DeferredThreads
  import opened DeferredInserts
  import opened DeferredConsolidator
  import Entries

  lemma StepKeeps<K(!new), V>(c: Config<K, V>, s: State<K, V>, e: Choice<K>)
    requires Inv(c, s)
    ensures Inv(c, Step(c, s, e))
  {
    hide Inv, FindStep, InsertStep, PurgeStep, PullStep, Delivered;
    if WellFormed(c, s) && e.thread < |s.threads| {
      var t := e.thread;
      Log(c, s);
      match s.threads[t]
      case Idle => ThreadOnly(c, s, t, Find(e.k, Lock), s.log, s.pullRequest, s.purgeRequest);
      case Find(k, f) => FindKeeps(c, s, t, e.fails);
      case Produce(k) => Produces(c, s, t, k);
      case Insert(k, i) => InsertKeeps(c, s, t, e.fails);
      case Try(after) =>
        if s.lruLock == NULL { Acquires(c, s, t, after); } else { Leaves(c, s, t, after); }
      case Consolidate(after) =>
        if s.con.Release? { Releases(c, s, t, after); }
        else if Purging(s.con) { PurgeKeeps(c, s, e.fails); }
        else { PullKeeps(c, s, e.fails); }
    }
  }

  lemma Produces<K(!new), V>(c: Config<K, V>, s: State<K, V>, t: nat, k: K)
    requires Inv(c, s) && t < |s.threads| && s.threads[t] == Produce(k)
    ensures Inv(c, Jump(s.(log := s.log + [(k, c.f(k))]), t, Insert(k, Reserve)))
  {
    hide Inv;
    Log(c, s);
    ThreadOnly(c, s, t, Insert(k, Reserve), s.log + [(k, c.f(k))], s.pullRequest, s.purgeRequest);
  }

  lemma Leaves<K(!new), V>(c: Config<K, V>, s: State<K, V>, t: nat, after: After<K>)
    requires Inv(c, s) && t < |s.threads| && s.threads[t] == Try(after)
    ensures Inv(c, Jump(s, t, Resume(after)))
  {
    hide Inv, Delivered;
    Log(c, s);
    ThreadOnly(c, s, t, Resume(after), s.log, s.pullRequest, s.purgeRequest);
  }

  /** A cache that was just allocated: all nodes are in the pool, all threads are idle. */
  ghost predicate Initial<K, V>(c: Config<K, V>, s: State<K, V>) {
    && WellFormed(c, s)
    && (forall t :: 0 <= t < |s.threads| ==> s.threads[t] == Idle)
    && s.con == Off && s.lruLock == NULL && s.count == 0 && s.log == []
    && s.lists.order == [] && s.lists.temp == [] && s.lists.owed == map[]
    && s.lists.next[Head(c.capacity)] == Tail(c.capacity) && s.lists.prev[Tail(c.capacity)] == Head(c.capacity)
    && Chain(s.lists.next, s.lists.pool, NULL) && Distinct(s.lists.pool) && s.lists.ehead == First(s.lists.pool, NULL)
    && InRange(s.lists.pool, c.capacity)
    && (forall x :: 0 <= x < c.capacity ==> x in s.lists.pool && s.lists.place[x] == Free)
    && s.recent.stack == [] && s.recent.slice == [] && s.recent.head == DUMMY
    && (forall x :: 0 <= x < c.capacity ==> s.recent.next[x] == NULL && s.recent.mark[x] == Clear)
    && s.table.filed == {}
    && (forall b :: 0 <= b < c.buckets ==> s.table.chains[b] == [])
    && (forall i :: 0 <= i < |s.table.locks| ==> s.table.locks[i] == NULL)
  }

  /** The forward links of the empty LRU list and of the pool of all nodes. */
  function StartNext(capacity: nat): (r: seq<int>)
    ensures |r| == capacity + 3
  {
    seq(capacity + 3, i => if i < capacity - 1 then i + 1 else if i == capacity then Tail(capacity) else NULL)
  }

  /** The state after the allocation of the memory, with n idle threads; `key` and `value` are what unused nodes hold. */
  function Start<K, V>(c: Config<K, V>, n: nat, key: K, value: V): State<K, V> {
    var cap := c.capacity;
    State(
      Lists(StartNext(cap),
            seq(cap + 3, i => if i == Tail(cap) then Head(cap) else NULL),
            0, [], [], Entries.Iota(cap), seq(cap, i => Free), map[]),
      Recent(seq(cap, i => NULL), DUMMY, 0, [], [], seq(cap, i => Clear)),
      Table(seq(cap, i => key), seq(cap, i => value), seq(c.buckets, i => []),
            seq(if c.buckets <= STRIPES then c.buckets else STRIPES, i => NULL), {}),
      NULL, false, false, 0, seq(n, i => Idle), Off, [])
  }

  lemma StartIsInitial<K, V>(c: Config<K, V>, n: nat, key: K, value: V)
    requires c.capacity > 0 && c.buckets > 0
    ensures Initial(c, Start(c, n, key, value))
  {
    var next := StartNext(c.capacity);
    assert next[c.capacity - 1] == NULL;
    Entries.IotaChain(next, c.capacity);
  }

  lemma {:induction false} NoneReserved<K>(threads: seq<Pc<K>>)
    requires forall t :: 0 <= t < |threads| ==> threads[t] == Idle
    ensures Reserved(threads) == 0
  {
    if threads != [] { NoneReserved(threads[1..]); }
  }

  lemma InitialLists<K, V>(c: Config<K, V>, s: State<K, V>)
    requires Initial(c, s)
    ensures OnLists(c.capacity, s.lists, s.threads, s.con, s.recent.slice)
  {
    var path := Path(c.capacity, s.lists.order);
    assert path == [Head(c.capacity), Tail(c.capacity)];
    assert s.lists.owed.Keys == {};
  }

  lemma InitialRest<K, V>(c: Config<K, V>, s: State<K, V>)
    requires Initial(c, s)
    ensures OnRecent(c.capacity, s.recent, s.threads) && CrossOk(s.lists, s.table.filed, s.recent, s.con)
    ensures OnTable(c, s.table, s.count, s.threads, s.con) && HolderOk(s.lruLock, s.threads, s.con)
  {
    NoneReserved(s.threads);
  }

  /** The invariant holds in every interleaving of any number of threads. */
  lemma {:induction false} Reachable<K(!new), V>(c: Config<K, V>, s: State<K, V>, schedule: seq<Choice<K>>)
    requires Initial(c, s)
    ensures Inv(c, Run(c, s, schedule))
    decreases |schedule|
  {
    hide OnLists, OnRecent, OnTable, CrossOk, HolderOk, Step;
    if schedule == [] {
      InitialLists(c, s);
      InitialRest(c, s);
    } else {
      Reachable(c, s, schedule[..|schedule| - 1]);
      StepKeeps(c, Run(c, s, schedule[..|schedule| - 1]), schedule[|schedule| - 1]);
    }
  }

  // ---------- the LRU list ----------

  /** Thread t, and no other thread, is about to write the back link of y. */
  ghost predicate OnlyOwer<K>(threads: seq<Pc<K>>, t: int, y: int) {
    0 <= t < |threads| && OwesBack(threads[t], y) && forall u :: 0 <= u < |threads| && OwesBack(threads[u], y) ==> u == t
  }

  ghost predicate NoOwer<K>(threads: seq<Pc<K>>, y: int) {
    forall u :: 0 <= u < |threads| ==> !OwesBack(threads[u], y)
  }

  /** Neighbours on the path: the forward link is in place; the back link is too, unless exactly one inserter or the
      consolidator still owes it, and then it still is the head or the consolidator is between its two unlinking writes. */
  ghost predicate LinkSound<K, V>(c: Config<K, V>, s: State<K, V>, i: int) {
    var path := Path(c.capacity, s.lists.order);
    0 <= i < |path| - 1 ==>
      var x, y := path[i], path[i + 1];
      && At(s.lists.next, x) == y
      && (|| At(s.lists.prev, y) == x
          || (At(s.lists.prev, y) == Head(c.capacity) && !ConOwes(s.con, y) && exists t :: OnlyOwer(s.threads, t, y))
          || (At(s.lists.prev, y) == Head(c.capacity) && s.con.SpliceBack? && s.con.h == y && NoOwer(s.threads, y))
          || ((s.con.PurgeBack? || s.con.PullBack?) && s.con.y == y && NoOwer(s.threads, y)))
  }

  lemma BackLinks<K, V>(c: Config<K, V>, s: State<K, V>, i: int)
    requires Inv(c, s)
    ensures Distinct(Path(c.capacity, s.lists.order)) && LinkSound(c, s, i)
  {
    hide HoldOk, InserterList, PurgeOk, PullOk, SpliceOk, CrossOk, OnRecent, OnTable, HolderOk, Delivered, Placed, Side;
    var path := Path(c.capacity, s.lists.order);
    if 0 <= i < |path| - 1 {
      var y := path[i + 1];
      assert s.lists.next[path[i]] == path[i + 1];
      if y in s.lists.owed && s.lists.owed[y] >= 0 {
        assert OnlyOwer(s.threads, s.lists.owed[y], y);
      }
    }
  }

  /** Both unlinking loops only take out nodes whose two neighbours' links are final: neither the head's forward link,
      where inserters race, nor a link that someone still has to write. */
  ghost predicate UnlinkSound<K, V>(c: Config<K, V>, s: State<K, V>) {
    s.con.PurgeForward? || s.con.PullForward? ==>
      && s.con.p != Head(c.capacity) && s.con.p in s.lists.order && s.con.node in s.lists.order
      && At(s.lists.next, s.con.p) == s.con.node && At(s.lists.next, s.con.node) == s.con.y
      && At(s.lists.prev, s.con.y) == s.con.node && At(s.lists.prev, s.con.node) == s.con.p
      && NoOwer(s.threads, s.con.node) && NoOwer(s.threads, s.con.y)
  }

  lemma UnlinkSafe<K, V>(c: Config<K, V>, s: State<K, V>)
    requires Inv(c, s)
    ensures UnlinkSound(c, s)
  {
    hide HoldOk, InserterList, OnTable, HolderOk, Delivered, Placed, Side, ShieldOk, MarkingOk, RecentOk;
    if s.con.PurgeForward? || s.con.PullForward? {
      ConKnows(c, s);
      var x, y := s.con.node, s.con.y;
      if s.con.PullForward? { SliceHead(c, s); }
      TrueNeighbours(c, s, x);
      SuccessorSettled(c, s, x);
      OrderListed(c.capacity, s.lists, s.con.p);
      var i := PathIndex(c.capacity, s.lists, x);
      assert Path(c.capacity, s.lists.order)[i + 1] == y;
    }
  }

  // ---------- marks ----------

  /** From its false mark until the end of `insert` a new node is on neither Recent list nor slice, it is owned by its
      inserter or in the LRU list, and neither a pull nor a purge has it. */
  ghost predicate ShieldSound<K, V>(c: Config<K, V>, s: State<K, V>, t: int, n: int) {
    0 <= t < |s.threads| && Shields(s.threads[t], n) ==>
      && 0 <= n < c.capacity && At(s.recent.next, n) != NULL
      && n !in s.recent.stack && n !in s.recent.slice
      && (PlaceAt(s.lists, n) == Owned(t) || PlaceAt(s.lists, n) == Listed)
      && !ConTakes(s.con, n) && !ConUnfiled(s.con, n)
  }

  lemma ShieldedNode<K, V>(c: Config<K, V>, s: State<K, V>, t: int, n: int)
    requires Inv(c, s)
    ensures ShieldSound(c, s, t, n)
  {
    hide TableOk, LockOk, CountOk, HolderOk, Delivered, OwingOk, Main, Side, MarkingOk, FinderMark, InserterMark;
    if 0 <= t < |s.threads| && Shields(s.threads[t], n) {
      assert InserterList(c.capacity, s.lists, s.threads[t]);
      assert Holds(s.threads[t], n) || s.threads[t].i.WriteBack? || s.threads[t].i.Unmark?;
      assert s.recent.slice != [] ==> s.recent.slice[0] in s.recent.slice;
    }
  }

  /** A node on the Recent list, or popped by a pull and not yet moved, is in a bucket and is never in the hands of a purge. */
  ghost predicate MarkSound<K, V>(c: Config<K, V>, s: State<K, V>, n: int) {
    n in s.recent.stack || n in s.recent.slice ==>
      && 0 <= n < c.capacity == |s.table.key| && |s.table.chains| == c.buckets > 0
      && n in s.table.chains[BucketOf(c, s.table.key[n])] && !InPurge(s.con, n)
  }

  lemma MarkedNode<K, V>(c: Config<K, V>, s: State<K, V>, n: int)
    requires Inv(c, s)
    ensures MarkSound(c, s, n)
  {
    hide LockOk, CountOk, HolderOk, Delivered, OnLists, ShieldOk, MarkingOk, FinderMark, InserterMark, FinderTable,
         InserterTable;
    if n in s.recent.stack || n in s.recent.slice {
      if n in s.recent.stack { var i := IndexOf(s.recent.stack, n); } else { var i := IndexOf(s.recent.slice, n); }
      assert MarkAt(s.recent, n) == Stacked || MarkAt(s.recent, n) == Sliced;
    }
  }

  // ---------- finding ----------

  /** The search of a find, under the lock of the bucket, succeeds exactly when some bucketed node has the key at that
      moment, and then delivers the value of the key. */
  lemma SearchIsExact<K(!new), V>(c: Config<K, V>, s: State<K, V>, e: Choice<K>, k: K)
    requires Inv(c, s) && e.thread < |s.threads| && s.threads[e.thread] == Find(k, Search)
    ensures |s.table.key| == c.capacity && |Step(c, s, e).threads| == |s.threads|
    ensures Step(c, s, e).threads[e.thread] == Find(k, Unlock(false)) <==>
      forall x :: x in s.table.filed && 0 <= x < |s.table.key| ==> s.table.key[x] != k
    ensures Step(c, s, e).threads[e.thread] != Find(k, Unlock(false)) ==> Step(c, s, e).log == s.log + [(k, c.f(k))]
  {
    hide OnLists, OnRecent, CrossOk, HolderOk, Delivered, LockOk, CountOk, FinderTable, InserterTable;
    Knows(c, s, e.thread);
    var chain := s.table.chains[BucketOf(c, k)];
    Entries.SeekFinds(chain, s.table.key, k);
    if Entries.Seek(chain, s.table.key, k) < 0 { Entries.SeekMisses(chain, s.table.key, k); }
  }

  // ---------- nodes and their number ----------

  /** A purge has the node between its bucket and the pool. */
  predicate InPurge(con: Con, x: int) {
    Evicting(con) && con.node == x
  }

  /** An inserter has the node between the pool and its bucket. */
  predicate InInsert<K>(pc: Pc<K>, x: int) {
    pc.Insert? && (pc.i.Fill? || pc.i.File?) && pc.i.n == x
  }

  /** The node is in exactly one of: the pool, the hands of exactly one inserter, the one bucket of its key, and the
      hands of the purge. */
  ghost predicate NodeSound<K, V>(c: Config<K, V>, s: State<K, V>, x: int) {
    0 <= x < c.capacity ==>
      && |s.table.key| == |s.table.value| == c.capacity && |s.table.chains| == c.buckets > 0
      && (x in s.lists.pool || InPurge(s.con, x) || x in s.table.chains[BucketOf(c, s.table.key[x])]
          || exists t :: 0 <= t < |s.threads| && InInsert(s.threads[t], x))
      && (forall b :: 0 <= b < c.buckets && x in s.table.chains[b] ==>
            b == BucketOf(c, s.table.key[x]) && s.table.value[x] == c.f(s.table.key[x]) && x !in s.lists.pool && !InPurge(s.con, x))
      && (forall t :: 0 <= t < |s.threads| && InInsert(s.threads[t], x) ==>
            && x !in s.lists.pool && !InPurge(s.con, x) && (forall b :: 0 <= b < c.buckets ==> x !in s.table.chains[b])
            && forall u :: 0 <= u < |s.threads| && InInsert(s.threads[u], x) ==> u == t)
      && (x in s.lists.pool ==> !InPurge(s.con, x))
  }

  lemma Conservation<K, V>(c: Config<K, V>, s: State<K, V>, x: int)
    requires Inv(c, s)
    ensures NodeSound(c, s, x)
  {
    if 0 <= x < c.capacity { NodeApart(c, s, x); }
  }

  lemma NodeApart<K, V>(c: Config<K, V>, s: State<K, V>, x: int)
    requires Inv(c, s) && 0 <= x < c.capacity
    ensures NodeSound(c, s, x)
  {
    hide LockOk, CountOk, HolderOk, Delivered, OwingOk, Main, Side, MarkingOk, FinderMark, InserterMark,
         FinderTable, SpliceOk;
    forall t | 0 <= t < |s.threads| && InInsert(s.threads[t], x) ensures x !in s.table.filed && PlaceAt(s.lists, x) == Owned(t) {
      assert Holds(s.threads[t], x) && InserterTable(c, s.table, s.threads[t]);
    }
    if PlaceAt(s.lists, x).Owned? && x !in s.table.filed {
      var t := PlaceAt(s.lists, x).thread;
      assert Holds(s.threads[t], x) && InserterTable(c, s.table, s.threads[t]);
      assert InInsert(s.threads[t], x);
    }
    if PlaceAt(s.lists, x) == Taken && x !in s.table.filed {
      TakenByPurge(c, s, x);
    }
  }

  lemma TakenByPurge<K, V>(c: Config<K, V>, s: State<K, V>, x: int)
    requires Inv(c, s) && PlaceAt(s.lists, x) == Taken && x !in s.table.filed
    ensures InPurge(s.con, x)
  {
    hide OnTable, HolderOk, Delivered, ListsOk, HoldOk, OwingOk, InserterList;
    if s.recent.slice != [] { SliceHead(c, s); }
  }

  /** The element counter is the number of bucketed nodes, plus the inserters past the increment that have not filed
      their node yet, plus the one node that the purge has unfiled and not yet deducted. */
  ghost predicate SizeSound<K, V>(c: Config<K, V>, s: State<K, V>) {
    && s.count == |s.table.filed| + Reserved(s.threads) + (if ConCounts(s.con) then 1 else 0)
    && |s.table.filed| <= c.capacity && |s.table.chains| == c.buckets
    && (forall b, x :: 0 <= b < c.buckets && x in s.table.chains[b] ==> x in s.table.filed)
    && (forall x :: x in s.table.filed ==> exists b :: 0 <= b < c.buckets && x in s.table.chains[b])
  }

  lemma SizeAccounting<K, V>(c: Config<K, V>, s: State<K, V>)
    requires Inv(c, s)
    ensures SizeSound(c, s)
  {
    hide OnLists, OnRecent, CrossOk, HolderOk, Delivered, LockOk, FinderTable, InserterTable, Reserved;
    RangeSize(s.table.filed, c.capacity);
  }

  /** When every thread is idle the lists are what the sequential cache expects: nothing is half done, the counter is the
      length of the LRU list and at most the capacity, and every node is in the LRU list and in its bucket, or in the pool. */
  lemma Quiescent<K, V>(c: Config<K, V>, s: State<K, V>)
    requires Inv(c, s) && forall t :: 0 <= t < |s.threads| ==> s.threads[t] == Idle
    ensures s.con.Off? && s.lists.temp == [] && s.recent.slice == []
    ensures Doubly(s.lists.next, s.lists.prev, Path(c.capacity, s.lists.order), {})
    ensures s.count == |s.lists.order| <= c.capacity
    ensures forall x :: 0 <= x < c.capacity ==> (x in s.lists.order <==> x !in s.lists.pool)
    ensures forall x :: 0 <= x < c.capacity ==> (x in s.lists.order <==> x in s.table.filed)
    ensures forall x :: x in s.recent.stack ==> x in s.lists.order
    ensures forall x :: 0 <= x < c.capacity ==> (At(s.recent.next, x) != NULL <==> x in s.recent.stack)
  {
    hide OnLists, OnRecent, OnTable, CrossOk, Delivered;
    QuietLists(c, s);
    QuietNodes(c, s);
    QuietMarks(c, s);
    SizeAccounting(c, s);
    NoneReserved(s.threads);
    var order := s.lists.order;
    ElementsSize(order);
    forall x ensures x in order <==> x in s.table.filed {
      assert x in order ==> 0 <= x < c.capacity;
    }
    assert Elements(order) == s.table.filed;
  }

  lemma QuietLists<K, V>(c: Config<K, V>, s: State<K, V>)
    requires Inv(c, s) && s.con.Off? && forall t :: 0 <= t < |s.threads| ==> s.threads[t] == Idle
    ensures s.lists.temp == [] && s.recent.slice == [] && s.lists.owed == map[]
    ensures Doubly(s.lists.next, s.lists.prev, Path(c.capacity, s.lists.order), {})
    ensures Distinct(s.lists.order) && InRange(s.lists.order, c.capacity)
  {
    hide OnRecent, OnTable, CrossOk, HolderOk, Delivered, HoldOk, InserterList, PurgeOk, SpliceOk, Side;
    assert forall y :: y !in s.lists.owed;
    assert s.lists.owed.Keys == {};
    var path := Path(c.capacity, s.lists.order);
    assert forall j :: 0 <= j < |s.lists.order| ==> s.lists.order[j] == path[j + 1];
  }

  lemma QuietNodes<K, V>(c: Config<K, V>, s: State<K, V>)
    requires Inv(c, s) && s.con.Off? && forall t :: 0 <= t < |s.threads| ==> s.threads[t] == Idle
    ensures forall x :: 0 <= x < c.capacity ==> (x in s.lists.order <==> x !in s.lists.pool)
    ensures forall x :: 0 <= x < c.capacity ==> (x in s.lists.order <==> x in s.table.filed)
    ensures forall x :: x in s.table.filed ==> 0 <= x < c.capacity
    ensures forall x :: x in s.lists.order ==> 0 <= x < c.capacity
  {
    hide OnRecent, HolderOk, Delivered, OwingOk, InserterList, PurgeOk, SpliceOk, Main, Side, LockOk, CountOk,
         FinderTable, InserterTable;
    forall x | 0 <= x < c.capacity
      ensures (x in s.lists.order <==> x !in s.lists.pool) && (x in s.lists.order <==> x in s.table.filed)
    {
      var p := PlaceAt(s.lists, x);
      assert p == s.lists.place[x] && p != Local;
    }
    assert forall i :: 0 <= i < |s.lists.order| ==> s.lists.order[i] in s.lists.order;
  }

  lemma QuietMarks<K, V>(c: Config<K, V>, s: State<K, V>)
    requires Inv(c, s) && s.con.Off? && forall t :: 0 <= t < |s.threads| ==> s.threads[t] == Idle
    ensures forall x :: x in s.recent.stack ==> x in s.lists.order
    ensures forall x :: 0 <= x < c.capacity ==> (At(s.recent.next, x) != NULL <==> x in s.recent.stack)
  {
    hide OnTable, HolderOk, Delivered, OwingOk, InserterList, PurgeOk, SpliceOk, Main, Side, HoldOk, FinderMark,
         InserterMark;
    forall x | x in s.recent.stack ensures x in s.lists.order {
      var i := IndexOf(s.recent.stack, x);
      assert MarkAt(s.recent, x) == Stacked;
    }
    forall x | 0 <= x < c.capacity ensures At(s.recent.next, x) != NULL <==> x in s.recent.stack {
      var m := MarkAt(s.recent, x);
      assert !m.Shield? && !m.Marking? && m != Sliced;
    }
  }

  /** The LRU list is a simple path whose back links are right or owed by exactly one thread, unlinking is safe, shielded and
      marked nodes are left alone, nodes and their number are conserved, filed nodes are in the bucket that the hash of their
      key selects, and every value delivered for a key is the value of that key. */
  ghost predicate Safe<K, V>(c: Config<K, V>, s: State<K, V>) {
    && Distinct(Path(c.capacity, s.lists.order)) && (forall i :: LinkSound(c, s, i)) && UnlinkSound(c, s)
    && (forall t, x :: ShieldSound(c, s, t, x)) && (forall x :: MarkSound(c, s, x))
    && (forall x :: NodeSound(c, s, x)) && SizeSound(c, s) && InHashBuckets(c, s)
    && (forall i :: 0 <= i < |s.log| ==> s.log[i].1 == c.f(s.log[i].0))
  }

  ghost predicate InHashBuckets<K, V>(c: Config<K, V>, s: State<K, V>) {
    |s.table.chains| == c.buckets && forall x :: x in s.table.filed ==>
      0 <= x < |s.table.key| && c.buckets > 0 && x in s.table.chains[c.hash(s.table.key[x]) % c.buckets]
  }

  lemma FiledWhere<K, V>(c: Config<K, V>, s: State<K, V>)
    requires Inv(c, s)
    ensures InHashBuckets(c, s)
  {
    hide OnLists, OnRecent, CrossOk, HolderOk, Delivered, LockOk, CountOk, FinderTable, InserterTable;
  }

  /** All of this holds in every interleaving of any number of threads running memoized accesses on a new cache, in spite of
      evictions, reused nodes and duplicate insertions. */
  lemma SafeRun<K(!new), V>(c: Config<K, V>, n: nat, key: K, value: V, schedule: seq<Choice<K>>)
    requires c.capacity > 0 && c.buckets > 0
    ensures Safe(c, Run(c, Start(c, n, key, value), schedule))
  {
    hide Inv, Start, LinkSound, UnlinkSound, ShieldSound, MarkSound, NodeSound, SizeSound, InHashBuckets;
    StartIsInitial(c, n, key, value);
    Reachable(c, Start(c, n, key, value), schedule);
    var s := Run(c, Start(c, n, key, value), schedule);
    BackLinks(c, s, 0);
    forall i ensures LinkSound(c, s, i) { BackLinks(c, s, i); }
    UnlinkSafe(c, s);
    forall t, x ensures ShieldSound(c, s, t, x) { ShieldedNode(c, s, t, x); }
    forall x ensures MarkSound(c, s, x) && NodeSound(c, s, x) { MarkedNode(c, s, x); Conservation(c, s, x); }
    SizeAccounting(c, s);
    FiledWhere(c, s);
    Log(c, s);
  }
}
