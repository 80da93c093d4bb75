/** What the locks of ConcurrentLRU protect, and in which order threads wait for them. */
module ConcurrentLruLocks {
  import opened Links
  import opened Sequences
  import opened Entries
  import opened ConcurrentLru
  import opened ConcurrentLruSafety

  // ---------- who waits for what ----------

  /** What the thread waits for, spelled out; an evicted node is filed, so that the wait for its hash flag ends at once. */
  lemma Awaited<K(!new), V>(c: Config<K, V>, s: State<K, V>, t: nat)
    requires Inv(c, s) && t < |s.threads|
    ensures s.threads[t].AwaitFiled? ==> Cell(s.htFlag, s.threads[t].n, false)
    ensures NotSelfLocked(c, s, s.threads[t])
    ensures var pc := s.threads[t];
      && (pc.LockFound? || pc.Relock? || pc.RelockAlone? || pc.TryPrev? || pc.LockNext? ==> Wants(c, s, pc) != NULL)
      && (pc.WaitPrev? || pc.LockLast? || pc.LockTail? || pc.LockHead? || pc.LockSecond? ==> Wants(c, s, pc) != NULL)
  {
    hide Inv, Delivered, Carries;
    Log(c, s, t);
    NoSelfLock(c, s, t);
    match s.threads[t]
    case TryPrev(n) => LiveValue(c, s, n); PrevOf(c, s, Lru, n);
    case LockNext(n, p) => LiveValue(c, s, n); NextOf(c, s, Lru, n);
    case LockSecond(k, w, n) => InBounds(c, s, w, n); NextOf(c, s, w, n);
    case _ =>
  }

  /** Cell y comes before cell x in one of the two lists. */
  ghost predicate Precedes<K, V>(c: Config<K, V>, s: State<K, V>, y: int, x: int) {
    || OnPath(Path(c.capacity, s.lru, Lru), y, x)
    || OnPath(Path(c.capacity, s.pool, Pool), y, x)
  }

  ghost predicate OnPath(path: seq<int>, y: int, x: int) {
    exists i, j :: 0 <= i < j < |path| && path[i] == y && path[j] == x
  }

  /** The cell is in neither list. */
  ghost predicate Aside<K, V>(c: Config<K, V>, s: State<K, V>, y: int) {
    y !in Path(c.capacity, s.lru, Lru) && y !in Path(c.capacity, s.pool, Pool)
  }

  /** The step that thread t would take changes nothing. */
  ghost predicate Blocked<K(!new), V>(c: Config<K, V>, s: State<K, V>, t: nat, k: K) {
    Step(c, s, Choice(t, k, false)) == s
  }

  /** Every cell that the thread has locked is in front of x, or in no list at all. */
  ghost predicate HeldInFront<K, V>(c: Config<K, V>, s: State<K, V>, t: nat, x: int)
    requires t < |s.threads|
  {
    forall y :: HasLock(c.capacity, s.threads[t], y) ==> Precedes(c, s, y, x) || Aside(c, s, y)
  }

  /** A cell of a list is in front of the one it points to. */
  lemma NextOnPath<K, V>(c: Config<K, V>, s: State<K, V>, w: List, y: int)
    requires Inv(c, s) && (y == HeadOf(c.capacity, w) || (0 <= y < c.capacity && PlaceAt(s.place, y) == Where(w)))
    ensures Precedes(c, s, y, Cell(s.next, y, NULL))
  {
    hide LockOk, DetachOk, Buckets, FlagsOk, Delivered, Knows;
    var order := if w == Lru then s.lru else s.pool;
    var path := Path(c.capacity, order, w);
    var i := 0;
    if y != HeadOf(c.capacity, w) {
      var j := IndexOf(order, y);
      i := j + 1;
    }
    assert path[i] == y && s.next[path[i]] == path[i + 1];
    assert OnPath(path, y, path[i + 1]);
  }

  lemma TwoOnPath<K, V>(c: Config<K, V>, s: State<K, V>, w: List, y: int, n: int)
    requires Inv(c, s) && (y == HeadOf(c.capacity, w) || (0 <= y < c.capacity && PlaceAt(s.place, y) == Where(w)))
    requires Cell(s.next, y, NULL) == n && 0 <= n < c.capacity && PlaceAt(s.place, n) == Where(w)
    ensures Precedes(c, s, y, Cell(s.next, n, NULL)) && Precedes(c, s, n, Cell(s.next, n, NULL))
  {
    hide LockOk, DetachOk, Buckets, FlagsOk, Delivered, Knows;
    NextOnPath(c, s, w, n);
    var order := if w == Lru then s.lru else s.pool;
    var path := Path(c.capacity, order, w);
    var i := 0;
    if y != HeadOf(c.capacity, w) {
      var j := IndexOf(order, y);
      i := j + 1;
    }
    assert path[i] == y && s.next[path[i]] == path[i + 1];
    assert i + 1 < |path| - 1;
    assert s.next[path[i + 1]] == path[i + 2];
    assert OnPath(path, y, path[i + 2]);
  }

  /** A node that a thread has detached is in no list. */
  lemma DetachedAside<K, V>(c: Config<K, V>, s: State<K, V>, t: nat, n: int)
    requires Inv(c, s) && t < |s.threads| && Detaches(s.threads[t], n)
    ensures Aside(c, s, n)
  {
    hide LockOk, Buckets, FlagsOk, Delivered, Knows, Detaches;
    assert 0 <= n < c.capacity && PlaceAt(s.place, n) == Detached(t);
  }

  /** A live cell in front of another one is the head or a node of the LRU list. */
  lemma PrevPlace<K, V>(c: Config<K, V>, s: State<K, V>, p: int)
    requires Inv(c, s) && IsPrev(c, s, p)
    ensures p == HeadOf(c.capacity, Lru) || (0 <= p < c.capacity && PlaceAt(s.place, p) == Where(Lru))
  {
    hide ListsOk, LockOk, DetachOk, Buckets, FlagsOk, Delivered, Knows;
  }

  /** What a thread holds while it waits to lock the cell it wants. */
  lemma WaitsInOrder<K(!new), V>(c: Config<K, V>, s: State<K, V>, t: nat)
    requires Inv(c, s) && t < |s.threads| && Wants(c, s, s.threads[t]) != NULL && !s.threads[t].TryPrev?
    ensures HeldInFront(c, s, t, Wants(c, s, s.threads[t]))
  {
    hide Inv, Delivered, Carries, Precedes, Aside;
    Log(c, s, t);
    match s.threads[t]
    case Relock(n, p) => PrevPlace(c, s, p); NextOnPath(c, s, Lru, p);
    case LockNext(n, p) => LiveValue(c, s, n); PrevPlace(c, s, p); TwoOnPath(c, s, Lru, p, n);
    case LockLast(n, p, why) => DetachedAside(c, s, t, n);
    case LockTail(n, p, why) => DetachedAside(c, s, t, n); PrevPlace(c, s, p); NextOnPath(c, s, Lru, p);
    case LockFirst(k, w) => NextOnPath(c, s, w, HeadOf(c.capacity, w));
    case LockSecond(k, w, n) => InBounds(c, s, w, n); TwoOnPath(c, s, w, HeadOf(c.capacity, w), n);
    case _ =>
  }

  /** The lock that the thread wants is taken. */
  ghost predicate Waits<K, V>(c: Config<K, V>, s: State<K, V>, pc: Pc<K>) {
    Wants(c, s, pc) != NULL && Cell(s.lock, Wants(c, s, pc), 0) != NULL
  }

  /** The node in front of n in its bucket is locked. */
  ghost predicate NeighbourLocked<K, V>(c: Config<K, V>, s: State<K, V>, n: int)
    requires WellFormed(c, s)
  {
    0 <= n < c.capacity && var m := Before(s.chains[BucketOf(c, s.key[n])], n); m != NULL && Cell(s.lock, m, 0) != NULL
  }

  /** Where a thread can be stopped: only where it wants a lock, or in front of a bucket neighbour that is locked. */
  lemma BlockedWhere<K(!new), V>(c: Config<K, V>, s: State<K, V>, t: nat, k: K)
    requires Inv(c, s) && t < |s.threads| && Blocked(c, s, t, k)
    ensures WellFormed(c, s) && !s.threads[t].TryPrev?
    ensures var pc := s.threads[t];
      if pc.Unfile? then NeighbourLocked(c, s, pc.n) else Waits(c, s, pc)
  {
    hide Inv, FindStep, RemoveStep, AppendStep, InsertStep, Wants;
    var pc := s.threads[t];
    Log(c, s, t);
    Awaited(c, s, t);
    if Finding(pc) { FindStuck(c, s, t, k); }
    else if Removing(pc) { RemoveStuck(c, s, t, k); }
    else if Appending(pc) { AppendStuck(c, s, t, k); }
    else { InsertStuck(c, s, t, k); }
  }

  lemma FindStuck<K(!new), V>(c: Config<K, V>, s: State<K, V>, t: nat, k: K)
    requires WellFormed(c, s) && t < |s.threads| && Finding(s.threads[t]) && FindStep(c, s, t, Choice(t, k, false)) == s
    requires s.threads[t].LockFound? ==> Wants(c, s, s.threads[t]) != NULL
    ensures Waits(c, s, s.threads[t])
  {
    hide WellFormed;
    assert FindStep(c, s, t, Choice(t, k, false)).threads[t] == s.threads[t];
  }

  lemma RemoveStuck<K(!new), V>(c: Config<K, V>, s: State<K, V>, t: nat, k: K)
    requires WellFormed(c, s) && t < |s.threads| && Removing(s.threads[t]) && RemoveStep(c, s, t, Choice(t, k, false)) == s
    requires var pc := s.threads[t];
      pc.WaitPrev? || pc.Relock? || pc.RelockAlone? || pc.LockNext? ==> Wants(c, s, pc) != NULL
    ensures Waits(c, s, s.threads[t]) && !s.threads[t].TryPrev?
  {
    hide WellFormed;
    assert RemoveStep(c, s, t, Choice(t, k, false)).threads[t] == s.threads[t];
  }

  lemma AppendStuck<K(!new), V>(c: Config<K, V>, s: State<K, V>, t: nat, k: K)
    requires WellFormed(c, s) && t < |s.threads| && Appending(s.threads[t]) && AppendStep(c, s, t) == s
    requires s.threads[t].LockLast? || s.threads[t].LockTail? ==> Wants(c, s, s.threads[t]) != NULL
    ensures Waits(c, s, s.threads[t])
  {
    hide WellFormed;
    assert AppendStep(c, s, t).threads[t] == s.threads[t];
  }

  lemma InsertStuck<K(!new), V>(c: Config<K, V>, s: State<K, V>, t: nat, k: K)
    requires Inv(c, s) && WellFormed(c, s) && t < |s.threads| && InsertStep(c, s, t, Choice(t, k, false)) == s
    requires var pc := s.threads[t]; !Finding(pc) && !Removing(pc) && !Appending(pc)
    requires s.threads[t].LockHead? || s.threads[t].LockSecond? ==> Wants(c, s, s.threads[t]) != NULL
    requires s.threads[t].AwaitFiled? ==> Cell(s.htFlag, s.threads[t].n, false)
    ensures var pc := s.threads[t];
      if pc.Unfile? then NeighbourLocked(c, s, pc.n) else Waits(c, s, pc)
  {
    hide Inv, Before;
    var pc := s.threads[t];
    assert InsertStep(c, s, t, Choice(t, k, false)).threads[t] == pc;
    if pc.LockFirst? { NextOf(c, s, pc.w, HeadOf(c.capacity, pc.w)); }
  }

  /** Another thread has locked cell x, and every cell of a list that thread t has locked itself is in front of x. */
  ghost predicate WaitsFor<K, V>(c: Config<K, V>, s: State<K, V>, t: nat, x: int)
    requires t < |s.threads|
  {
    0 <= x < c.capacity + 4 && Cell(s.lock, x, NULL) != NULL && Cell(s.lock, x, NULL) != t && HeldInFront(c, s, t, x)
  }

  /** A thread that cannot go on waits for a cell that another thread has locked, and every cell of a list that it has locked
      itself is in front of that cell, unless the cell is the neighbour in its bucket of a node that it is evicting. So
      threads wait for each other's list nodes in list order; where the code goes the other way it only tries the lock. */
  lemma WaitsForward<K(!new), V>(c: Config<K, V>, s: State<K, V>, t: nat, k: K)
    requires Inv(c, s) && t < |s.threads| && Blocked(c, s, t, k)
    ensures exists x :: WaitsFor(c, s, t, x)
  {
    hide Inv, Blocked, Wants, HeldInFront;
    var pc := s.threads[t];
    BlockedWhere(c, s, t, k);
    if pc.Unfile? {
      EvictorWaits(c, s, t);
    } else {
      NoSelfLock(c, s, t);
      WaitsInOrder(c, s, t);
      NotOwn(c, s, t, Wants(c, s, pc));
      assert WaitsFor(c, s, t, Wants(c, s, pc));
    }
  }

  lemma NotOwn<K, V>(c: Config<K, V>, s: State<K, V>, t: nat, x: int)
    requires Inv(c, s) && t < |s.threads| && 0 <= x < c.capacity + 4 && !HasLock(c.capacity, s.threads[t], x)
    requires Cell(s.lock, x, 0) != NULL
    ensures Cell(s.lock, x, NULL) != NULL && Cell(s.lock, x, NULL) != t
  {
    hide ListsOk, DetachOk, Buckets, FlagsOk, Delivered, Knows;
  }

  lemma EvictorWaits<K(!new), V>(c: Config<K, V>, s: State<K, V>, t: nat)
    requires Inv(c, s) && WellFormed(c, s) && t < |s.threads| && s.threads[t].Unfile? && NeighbourLocked(c, s, s.threads[t].n)
    ensures exists x :: WaitsFor(c, s, t, x)
  {
    hide Inv, Aside, Precedes, Before;
    var n := s.threads[t].n;
    var b := BucketOf(c, s.key[n]);
    var m := Before(s.chains[b], n);
    BeforeIn(s.chains[b], n);
    ChainDistinct(c, s, b);
    NotOwn(c, s, t, m);
    DetachedAside(c, s, t, n);
    assert WaitsFor(c, s, t, m);
  }

  lemma ChainDistinct<K, V>(c: Config<K, V>, s: State<K, V>, b: nat)
    requires Inv(c, s) && WellFormed(c, s) && b < c.buckets
    ensures Distinct(s.chains[b]) && forall x :: x in s.chains[b] ==> 0 <= x < c.capacity
  {
    hide ListsOk, LockOk, DetachOk, FlagsOk, Delivered, Knows;
  }

  lemma {:induction false} BeforeIn(chain: seq<int>, n: int)
    ensures var m := Before(chain, n); m != NULL ==> m in chain && (Distinct(chain) ==> m != n)
  {
    if !(|chain| < 2 || chain[0] == n) && chain[1] != n {
      BeforeIn(chain[1..], n);
      assert forall x :: x in chain[1..] ==> x in chain;
    }
  }

  // ---------- the links of a bucket ----------

  /** The node behind x in its bucket, NULL if x is the last one. */
  function Behind(chain: seq<int>, x: int): int {
    if |chain| < 2 then NULL else if chain[0] == x then chain[1] else Behind(chain[1..], x)
  }

  lemma BehindPush(chain: seq<int>, n: int, x: int)
    requires x != n
    ensures Behind([n] + chain, x) == Behind(chain, x)
  {
    assert ([n] + chain)[1..] == chain;
  }

  /** Taking n out of a bucket changes only the link of the node in front of it. */
  lemma {:induction false} BehindDrop(chain: seq<int>, n: int, x: int)
    requires Distinct(chain) && x >= 0 && x != n && x != Before(chain, n)
    ensures Behind(Without(chain, {n}), x) == Behind(chain, x)
  {
    if |chain| >= 2 {
      var a, rest := chain[0], chain[1..];
      WithoutMembers(rest, {n});
      if a == n {
        WithoutNone(rest, {n});
      } else {
        var w := Without(rest, {n});
        assert Without(chain, {n}) == [a] + w;
        assert ([a] + w)[1..] == w;
        if a != x { BehindDrop(rest, n, x); }
        else { assert rest[1..] == chain[2..]; }
      }
    }
  }

  /** Node x is in the same buckets and has the same node behind it. */
  ghost predicate SameLink<K, V>(c: Config<K, V>, s: State<K, V>, s': State<K, V>, x: int) {
    && |s.chains| == |s'.chains| == c.buckets
    && forall b :: 0 <= b < c.buckets ==>
      (x in s'.chains[b] <==> x in s.chains[b]) && Behind(s'.chains[b], x) == Behind(s.chains[b], x)
  }

  lemma BucketStep<K(!new), V>(c: Config<K, V>, s: State<K, V>, e: Choice<K>, u: nat, x: int)
    requires Inv(c, s) && 0 <= x < c.capacity && Cell(s.lock, x, NULL) == u && e.thread != u
    ensures SameLink(c, s, Step(c, s, e), x)
  {
    hide Inv, Before, Behind, FindStep, RemoveStep, AppendStep, InsertStep;
    Bounds(c, s);
    if e.thread < |s.threads| {
      var pc := s.threads[e.thread];
      Log(c, s, e.thread);
      if pc.Unfile? { UnfileLink(c, s, e, u, x); }
      else if pc.File? { FileLink(c, s, e, u, x); }
      else { OtherLink(c, s, e, x); }
    }
  }

  lemma Bounds<K, V>(c: Config<K, V>, s: State<K, V>)
    requires Inv(c, s)
    ensures WellFormed(c, s)
  {
  }

  lemma OtherLink<K(!new), V>(c: Config<K, V>, s: State<K, V>, e: Choice<K>, x: int)
    requires WellFormed(c, s) && e.thread < |s.threads| && !s.threads[e.thread].Unfile? && !s.threads[e.thread].File?
    ensures SameLink(c, s, Step(c, s, e), x)
  {
    hide Behind, FindStep, RemoveStep, AppendStep, InsertStep;
    var t := e.thread;
    var pc := s.threads[t];
    if Finding(pc) { FindKeepsChains(c, s, t, e); }
    else if Removing(pc) { RemoveKeepsChains(c, s, t, e); }
    else if Appending(pc) { AppendKeepsChains(c, s, t); }
    else { InsertKeepsChains(c, s, t, e); }
  }

  lemma FindKeepsChains<K(!new), V>(c: Config<K, V>, s: State<K, V>, t: nat, e: Choice<K>)
    requires WellFormed(c, s) && t < |s.threads|
    ensures FindStep(c, s, t, e).chains == s.chains
  {
    hide WellFormed;
  }

  lemma RemoveKeepsChains<K(!new), V>(c: Config<K, V>, s: State<K, V>, t: nat, e: Choice<K>)
    requires WellFormed(c, s) && t < |s.threads|
    ensures RemoveStep(c, s, t, e).chains == s.chains
  {
    hide WellFormed;
  }

  lemma AppendKeepsChains<K(!new), V>(c: Config<K, V>, s: State<K, V>, t: nat)
    requires WellFormed(c, s) && t < |s.threads|
    ensures AppendStep(c, s, t).chains == s.chains
  {
    hide WellFormed;
  }

  lemma InsertKeepsChains<K(!new), V>(c: Config<K, V>, s: State<K, V>, t: nat, e: Choice<K>)
    requires WellFormed(c, s) && t < |s.threads| && !s.threads[t].Unfile? && !s.threads[t].File?
    ensures InsertStep(c, s, t, e).chains == s.chains
  {
    hide WellFormed;
  }

  /** A node leaves its bucket only while the node in front of it is not locked by another thread. */
  lemma UnfileLink<K(!new), V>(c: Config<K, V>, s: State<K, V>, e: Choice<K>, u: nat, x: int)
    requires Inv(c, s) && WellFormed(c, s) && e.thread < |s.threads| && s.threads[e.thread].Unfile?
    requires 0 <= x < c.capacity && Cell(s.lock, x, NULL) == u && e.thread != u
    ensures SameLink(c, s, Step(c, s, e), x)
  {
    hide Inv, Before, Behind;
    var n := s.threads[e.thread].n;
    OwnNode(c, s, e.thread, n);
    var b := BucketOf(c, s.key[n]);
    ChainDistinct(c, s, b);
    WithoutMembers(s.chains[b], {n});
    if Before(s.chains[b], n) != x { BehindDrop(s.chains[b], n, x); }
  }

  lemma FileLink<K(!new), V>(c: Config<K, V>, s: State<K, V>, e: Choice<K>, u: nat, x: int)
    requires Inv(c, s) && WellFormed(c, s) && e.thread < |s.threads| && s.threads[e.thread].File?
    requires 0 <= x < c.capacity && Cell(s.lock, x, NULL) == u && e.thread != u
    ensures SameLink(c, s, Step(c, s, e), x)
  {
    hide Inv, Behind;
    var n, k := s.threads[e.thread].n, s.threads[e.thread].k;
    LockedByIt(c, s, e.thread, n);
    BehindPush(s.chains[BucketOf(c, k)], n, x);
  }

  lemma LockedByIt<K, V>(c: Config<K, V>, s: State<K, V>, t: nat, n: int)
    requires Inv(c, s) && t < |s.threads| && HasLock(c.capacity, s.threads[t], n)
    ensures Cell(s.lock, n, NULL) == t
  {
    hide ListsOk, DetachOk, Buckets, FlagsOk, Delivered, Knows;
  }

  /** Whoever holds the lock of a node sees its bucket link, which shares a word with its flags, unchanged however long the other
      threads insert and evict. */
  lemma {:induction false} BucketLinksStable<K(!new), V>(c: Config<K, V>, s: State<K, V>, schedule: seq<Choice<K>>,
                                                         u: nat, x: int)
    requires Inv(c, s) && 0 <= x < c.capacity && Cell(s.lock, x, NULL) == u
    requires forall i :: 0 <= i < |schedule| ==> schedule[i].thread != u
    ensures SameLink(c, s, Run(c, s, schedule), x)
    decreases |schedule|
  {
    hide Inv, Step, Behind;
    Bounds(c, s);
    if schedule != [] {
      var before, e := schedule[..|schedule| - 1], schedule[|schedule| - 1];
      BucketLinksStable(c, s, before, u, x);
      LinksStable(c, s, before, u, x);
      Bounds(c, Run(c, s, before));
      BucketStep(c, Run(c, s, before), e, u, x);
    }
  }
}
