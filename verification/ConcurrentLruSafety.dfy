/** What every interleaving of ConcurrentLRU guarantees. */
module ConcurrentLruSafety {
  import opened Links
  import opened Sequences
  import opened Entries
  import opened ConcurrentLru

  function Path(capacity: nat, order: seq<int>, w: List): seq<int> {
    [HeadOf(capacity, w)] + order + [TailOf(capacity, w)]
  }

  function PlaceAt(place: seq<Place>, x: int): Place {
    Cell(place, x, InPool)
  }

  /** The place of the nodes in list w. */
  function Where(w: List): Place {
    if w == Lru then InLru else InPool
  }

  /** The lists hold the nodes whose place says so. */
  ghost predicate Placed(capacity: nat, lru: seq<int>, pool: seq<int>, place: seq<Place>) {
    && |place| == capacity && InRange(lru, capacity) && InRange(pool, capacity)
    && (forall x :: 0 <= x < capacity ==> (x in lru <==> place[x] == InLru))
    && (forall x :: 0 <= x < capacity ==> (x in pool <==> place[x] == InPool))
  }

  /** Both lists are doubly linked, and hold the nodes whose place says so. */
  ghost predicate ListsOk(capacity: nat, next: seq<int>, prev: seq<int>, lru: seq<int>, pool: seq<int>, place: seq<Place>) {
    && |next| == |prev| == capacity + 4 && Placed(capacity, lru, pool, place)
    && Doubly(next, prev, Path(capacity, lru, Lru), {}) && Doubly(next, prev, Path(capacity, pool, Pool), {})
  }

  /** A lock is held by exactly the thread whose program counter says so. */
  ghost predicate LockOk<K>(capacity: nat, threads: seq<Pc<K>>, lock: seq<int>) {
    && |lock| == capacity + 4
    && (forall t, x {:trigger HasLock(capacity, threads[t], x)} :: 0 <= t < |threads| && HasLock(capacity, threads[t], x) ==>
          0 <= x < capacity + 4 && lock[x] == t)
    && (forall x :: 0 <= x < capacity + 4 && lock[x] != NULL ==> 0 <= lock[x] < |threads| && HasLock(capacity, threads[lock[x]], x))
  }

  ghost predicate DetachOk<K>(capacity: nat, threads: seq<Pc<K>>, place: seq<Place>) {
    && (forall t, x {:trigger Detaches(threads[t], x)} :: 0 <= t < |threads| && Detaches(threads[t], x) ==>
          0 <= x < capacity && PlaceAt(place, x) == Detached(t))
    && (forall x {:trigger PlaceAt(place, x)} :: PlaceAt(place, x).Detached? ==>
          0 <= PlaceAt(place, x).thread < |threads| && Detaches(threads[PlaceAt(place, x).thread], x))
  }

  /** A filed node is in the bucket of its key and in no other, and has the value of its key. */
  ghost predicate Buckets<K, V>(c: Config<K, V>, s: State<K, V>) {
    && c.buckets > 0 && |s.chains| == c.buckets && |s.key| == |s.value| == |s.htFlag| == |s.lruFlag| == c.capacity
    && (forall b :: 0 <= b < c.buckets ==> Distinct(s.chains[b]))
    && (forall b, x {:trigger x in s.chains[b]} :: 0 <= b < c.buckets && x in s.chains[b] ==>
          0 <= x < c.capacity && s.htFlag[x] && BucketOf(c, s.key[x]) == b && s.value[x] == c.f(s.key[x]))
    && (forall x {:trigger s.htFlag[x]} :: 0 <= x < c.capacity && s.htFlag[x] ==> x in s.chains[BucketOf(c, s.key[x])])
  }

  /** How the flags go with the place of a node: a node of the LRU list that is not filed is locked by its inserter. */
  ghost predicate FlagsOk<K, V>(c: Config<K, V>, s: State<K, V>) {
    && (forall x {:trigger PlaceAt(s.place, x)} :: 0 <= x < c.capacity && PlaceAt(s.place, x) == InPool ==>
          !Cell(s.lruFlag, x, false) && !Cell(s.htFlag, x, false))
    && (forall x {:trigger PlaceAt(s.place, x)} :: PlaceAt(s.place, x) == InLru ==>
          Cell(s.lruFlag, x, false) && (Cell(s.lock, x, NULL) == NULL ==> Cell(s.htFlag, x, false)))
  }

  /** A node that was in use and therefore never is in the pool again. */
  predicate Used<K, V>(c: Config<K, V>, s: State<K, V>, x: int) {
    0 <= x < c.capacity && PlaceAt(s.place, x) != InPool
  }

  /** A cell that was before another one in the LRU list. */
  predicate WasPrev<K, V>(c: Config<K, V>, s: State<K, V>, p: int) {
    p == HeadOf(c.capacity, Lru) || Used(c, s, p)
  }

  /** In the LRU list and filed. */
  predicate Live<K, V>(s: State<K, V>, n: int) {
    PlaceAt(s.place, n) == InLru && Cell(s.htFlag, n, false)
  }

  /** A cell that is before another one in the LRU list. */
  predicate IsPrev<K, V>(c: Config<K, V>, s: State<K, V>, p: int) {
    p == HeadOf(c.capacity, Lru) || Live(s, p)
  }

  predicate Next<K, V>(s: State<K, V>, p: int, n: int) {
    Cell(s.next, p, NULL) == n
  }

  /** What the node to append holds: unless it is only being moved it is not filed yet and has the key of the insertion. */
  ghost predicate Carries<K, V>(c: Config<K, V>, s: State<K, V>, n: int, why: Why<K>) {
    && Cell(s.lruFlag, n, false) && (Cell(s.htFlag, n, false) <==> why.Move?)
    && (why.Add? ==> 0 <= n < |s.key| && n < |s.value| && s.key[n] == why.k && s.value[n] == c.f(why.k))
  }

  /** What a thread knows in lruRemoveNode and before. */
  ghost predicate KnowsRemoving<K, V>(c: Config<K, V>, s: State<K, V>, pc: Pc<K>) {
    match pc
    case LockFound(_, n) => Used(c, s, n)
    case TestFound(_, n) => Live(s, n)
    case DropFound(_, n) => Live(s, n)
    case TryPrev(n) => Live(s, n)
    case BackOff(n, p) => Live(s, n) && WasPrev(c, s, p) && p != n
    case WaitPrev(n, p) => Used(c, s, n) && WasPrev(c, s, p) && p != n
    case CheckPrev(n, p) => Used(c, s, n) && IsPrev(c, s, p) && p != n
    case Relock(n, p) => Used(c, s, n) && IsPrev(c, s, p) && p != n && Next(s, p, n)
    case TestBoth(n, p) => Live(s, n) && IsPrev(c, s, p) && p != n && Next(s, p, n)
    case DropBoth(n, p) => Live(s, n) && IsPrev(c, s, p) && p != n
    case DropPrev(n, p) => Used(c, s, n) && IsPrev(c, s, p) && p != n
    case RelockAlone(n) => Used(c, s, n)
    case TestAlone(n) => Live(s, n)
    case LockNext(n, p) => Live(s, n) && IsPrev(c, s, p) && p != n && Next(s, p, n)
    case Unlink(n, p, x) => Live(s, n) && IsPrev(c, s, p) && p != n && Next(s, p, n) && Next(s, n, x) && x != n && x != p
                            && (Live(s, x) || x == TailOf(c.capacity, Lru))
    case UnlockLeft(n, p, x) => Carries(c, s, n, Move) && p != n && x != n && x != p && IsPrev(c, s, p)
                                && (Live(s, x) || x == TailOf(c.capacity, Lru))
    case UnlockRight(n, x) => Carries(c, s, n, Move) && x != n && (Live(s, x) || x == TailOf(c.capacity, Lru))
    case ClearLinks(n) => Carries(c, s, n, Move)
    case _ => true
  }

  ghost predicate KnowsAppending<K, V>(c: Config<K, V>, s: State<K, V>, pc: Pc<K>) {
    match pc
    case LoadLast(n, why) => Carries(c, s, n, why)
    case LockLast(n, p, why) => Carries(c, s, n, why) && WasPrev(c, s, p) && p != n
    case CheckLast(n, p, why) => Carries(c, s, n, why) && IsPrev(c, s, p) && p != n
    case DropLast(n, p, why) => Carries(c, s, n, why) && IsPrev(c, s, p) && p != n
    case LockTail(n, p, why) => Carries(c, s, n, why) && IsPrev(c, s, p) && p != n && Next(s, p, TailOf(c.capacity, Lru))
    case Append(n, p, why) => Carries(c, s, n, why) && IsPrev(c, s, p) && p != n && Next(s, p, TailOf(c.capacity, Lru))
    case UnlockLast(n, p, why) => Carries(c, s, n, why) && PlaceAt(s.place, n) == InLru && IsPrev(c, s, p) && p != n
    case UnlockTail(n, why) => Carries(c, s, n, why) && PlaceAt(s.place, n) == InLru
    case Leave(n) => Live(s, n)
    case File(k, n) => Carries(c, s, n, Add(k)) && PlaceAt(s.place, n) == InLru
    case _ => true
  }

  predicate In<K, V>(s: State<K, V>, w: List, n: int) {
    if w == Lru then PlaceAt(s.place, n) == InLru && Cell(s.htFlag, n, false)
    else 0 <= n < |s.place| && PlaceAt(s.place, n) == InPool && !Cell(s.htFlag, n, false)
  }

  ghost predicate KnowsInserting<K, V>(c: Config<K, V>, s: State<K, V>, pc: Pc<K>) {
    match pc
    case LockSecond(k, w, n) => In(s, w, n) && Next(s, HeadOf(c.capacity, w), n)
    case Detach(k, w, n, x) => In(s, w, n) && Next(s, HeadOf(c.capacity, w), n) && Next(s, n, x)
                               && x != n && x != HeadOf(c.capacity, w)
                               && Neighbour(c, s, x)
    case UnlockHead(k, w, n, x) => (Cell(s.htFlag, n, false) <==> w == Lru) && x != n && x != HeadOf(c.capacity, w)
                                   && Neighbour(c, s, x)
    case UnlockSecond(k, w, n, x) => (Cell(s.htFlag, n, false) <==> w == Lru) && x != n && Neighbour(c, s, x)
    case ClearFirst(k, w, n) => Cell(s.htFlag, n, false) <==> w == Lru
    case Unflag(k, n) => Cell(s.htFlag, n, false)
    case AwaitFiled(k, n) => Cell(s.htFlag, n, false)
    case Unfile(k, n) => Cell(s.htFlag, n, false)
    case Fill(k, n) => !Cell(s.htFlag, n, false)
    case _ => true
  }

  /** A cell of a list that may be unlocked: a sentinel, a node of the pool or a live node. */
  predicate Neighbour<K, V>(c: Config<K, V>, s: State<K, V>, x: int) {
    x >= c.capacity || In(s, Pool, x) || In(s, Lru, x)
  }

  ghost predicate Knows<K, V>(c: Config<K, V>, s: State<K, V>, pc: Pc<K>) {
    KnowsRemoving(c, s, pc) && KnowsAppending(c, s, pc) && KnowsInserting(c, s, pc)
  }

  ghost predicate Delivered<K, V>(c: Config<K, V>, log: seq<(K, V)>) {
    forall i :: 0 <= i < |log| ==> log[i].1 == c.f(log[i].0)
  }

  ghost predicate Inv<K, V>(c: Config<K, V>, s: State<K, V>) {
    && WellFormed(c, s) && ListsOk(c.capacity, s.next, s.prev, s.lru, s.pool, s.place)
    && LockOk(c.capacity, s.threads, s.lock) && DetachOk(c.capacity, s.threads, s.place)
    && Buckets(c, s) && FlagsOk(c, s) && Delivered(c, s.log)
    && forall t :: 0 <= t < |s.threads| ==> Knows(c, s, s.threads[t])
  }

  // ---------- threads do not disturb each other ----------

  /** Nothing about a cell changes. */
  ghost predicate Same<K, V>(c: Config<K, V>, s: State<K, V>, s': State<K, V>, x: int) {
    && Cell(s'.next, x, NULL) == Cell(s.next, x, NULL) && Cell(s'.prev, x, NULL) == Cell(s.prev, x, NULL)
    && PlaceAt(s'.place, x) == PlaceAt(s.place, x)
    && Cell(s'.lruFlag, x, false) == Cell(s.lruFlag, x, false) && Cell(s'.htFlag, x, false) == Cell(s.htFlag, x, false)
    && (0 <= x < |s.key| && x < |s.value| ==>
          x < |s'.key| && x < |s'.value| && s'.key[x] == s.key[x] && s'.value[x] == s.value[x])
  }

  /** A step of thread t changes only cells whose locks it holds, and puts nothing into the pool. */
  ghost predicate OnlyOwn<K, V>(c: Config<K, V>, s: State<K, V>, s': State<K, V>, t: int) {
    && |s'.place| == |s.place|
    && (forall x {:trigger Same(c, s, s', x)} :: Cell(s.lock, x, NULL) != t ==> Same(c, s, s', x))
    && (forall x {:trigger PlaceAt(s'.place, x)} :: PlaceAt(s'.place, x) == InPool ==> PlaceAt(s.place, x) == InPool)
  }

  /** The cells a thread has locked are unchanged, and nothing was put into the pool. */
  ghost predicate Kept<K, V>(c: Config<K, V>, s: State<K, V>, s': State<K, V>, pc: Pc<K>) {
    && |s'.place| == |s.place|
    && (forall x {:trigger HasLock(c.capacity, pc, x)} :: HasLock(c.capacity, pc, x) ==> Same(c, s, s', x))
    && (forall x {:trigger PlaceAt(s'.place, x)} :: PlaceAt(s'.place, x) == InPool ==> PlaceAt(s.place, x) == InPool)
  }

  lemma StillRemoving<K, V>(c: Config<K, V>, s: State<K, V>, s': State<K, V>, pc: Pc<K>)
    requires KnowsRemoving(c, s, pc) && Kept(c, s, s', pc)
    ensures KnowsRemoving(c, s', pc)
  {
    match pc
    case TestFound(_, n) => assert HasLock(c.capacity, pc, n);
    case DropFound(_, n) => assert HasLock(c.capacity, pc, n);
    case TryPrev(n) => assert HasLock(c.capacity, pc, n);
    case BackOff(n, p) => assert HasLock(c.capacity, pc, n);
    case CheckPrev(n, p) => assert HasLock(c.capacity, pc, p);
    case Relock(n, p) => assert HasLock(c.capacity, pc, p);
    case TestBoth(n, p) => assert HasLock(c.capacity, pc, n) && HasLock(c.capacity, pc, p);
    case DropBoth(n, p) => assert HasLock(c.capacity, pc, n) && HasLock(c.capacity, pc, p);
    case DropPrev(n, p) => assert HasLock(c.capacity, pc, p);
    case TestAlone(n) => assert HasLock(c.capacity, pc, n);
    case LockNext(n, p) => assert HasLock(c.capacity, pc, n) && HasLock(c.capacity, pc, p);
    case Unlink(n, p, x) => assert HasLock(c.capacity, pc, n) && HasLock(c.capacity, pc, p) && HasLock(c.capacity, pc, x);
    case UnlockLeft(n, p, x) => assert HasLock(c.capacity, pc, n) && HasLock(c.capacity, pc, p) && HasLock(c.capacity, pc, x);
    case UnlockRight(n, x) => assert HasLock(c.capacity, pc, n) && HasLock(c.capacity, pc, x);
    case ClearLinks(n) => assert HasLock(c.capacity, pc, n);
    case _ =>
  }

  lemma StillAppending<K, V>(c: Config<K, V>, s: State<K, V>, s': State<K, V>, pc: Pc<K>)
    requires KnowsAppending(c, s, pc) && Kept(c, s, s', pc)
    ensures KnowsAppending(c, s', pc)
  {
    match pc
    case LoadLast(n, why) => assert HasLock(c.capacity, pc, n);
    case LockLast(n, p, why) => assert HasLock(c.capacity, pc, n);
    case CheckLast(n, p, why) => assert HasLock(c.capacity, pc, n) && HasLock(c.capacity, pc, p);
    case DropLast(n, p, why) => assert HasLock(c.capacity, pc, n) && HasLock(c.capacity, pc, p);
    case LockTail(n, p, why) => assert HasLock(c.capacity, pc, n) && HasLock(c.capacity, pc, p);
    case Append(n, p, why) => assert HasLock(c.capacity, pc, n) && HasLock(c.capacity, pc, p);
    case UnlockLast(n, p, why) => assert HasLock(c.capacity, pc, n) && HasLock(c.capacity, pc, p);
    case UnlockTail(n, why) => assert HasLock(c.capacity, pc, n);
    case Leave(n) => assert HasLock(c.capacity, pc, n);
    case File(k, n) => assert HasLock(c.capacity, pc, n);
    case _ =>
  }

  lemma StillInserting<K, V>(c: Config<K, V>, s: State<K, V>, s': State<K, V>, pc: Pc<K>)
    requires KnowsInserting(c, s, pc) && Kept(c, s, s', pc)
    ensures KnowsInserting(c, s', pc)
  {
    match pc
    case LockSecond(k, w, n) => assert HasLock(c.capacity, pc, n) && HasLock(c.capacity, pc, HeadOf(c.capacity, w));
    case Detach(k, w, n, x) =>
      assert HasLock(c.capacity, pc, n) && HasLock(c.capacity, pc, HeadOf(c.capacity, w)) && HasLock(c.capacity, pc, x);
    case UnlockHead(k, w, n, x) => assert HasLock(c.capacity, pc, n) && HasLock(c.capacity, pc, x);
    case UnlockSecond(k, w, n, x) => assert HasLock(c.capacity, pc, n) && HasLock(c.capacity, pc, x);
    case ClearFirst(k, w, n) => assert HasLock(c.capacity, pc, n);
    case Unflag(k, n) => assert HasLock(c.capacity, pc, n);
    case AwaitFiled(k, n) => assert HasLock(c.capacity, pc, n);
    case Unfile(k, n) => assert HasLock(c.capacity, pc, n);
    case Fill(k, n) => assert HasLock(c.capacity, pc, n);
    case _ =>
  }

  /** What other threads know survives the step of thread t. */
  lemma OthersKnow<K, V>(c: Config<K, V>, s: State<K, V>, s': State<K, V>, t: nat, u: nat)
    requires Inv(c, s) && OnlyOwn(c, s, s', t) && u < |s.threads| && u != t
    ensures Knows(c, s', s.threads[u])
  {
    hide ListsOk, DetachOk, Buckets, FlagsOk, Delivered, KnowsRemoving, KnowsAppending, KnowsInserting, Same, HasLock;
    var pc := s.threads[u];
    assert Knows(c, s, pc);
    assert Kept(c, s, s', pc);
    StillRemoving(c, s, s', pc);
    StillAppending(c, s, s', pc);
    StillInserting(c, s, s', pc);
  }

  /** Everybody knows what they should after a step of thread t. */
  lemma AllKnow<K, V>(c: Config<K, V>, s: State<K, V>, s': State<K, V>, t: nat)
    requires Inv(c, s) && OnlyOwn(c, s, s', t) && t < |s.threads| && |s'.threads| == |s.threads|
    requires forall u :: 0 <= u < |s.threads| && u != t ==> s'.threads[u] == s.threads[u]
    requires Knows(c, s', s'.threads[t])
    ensures forall u :: 0 <= u < |s'.threads| ==> Knows(c, s', s'.threads[u])
  {
    hide Inv, OnlyOwn, Knows;
    forall u | 0 <= u < |s'.threads| ensures Knows(c, s', s'.threads[u]) {
      if u != t { OthersKnow(c, s, s', t, u); }
    }
  }

  /** What a thread knows does not depend on the locks, the threads and the log. */
  lemma SameKnows<K, V>(c: Config<K, V>, s: State<K, V>, s': State<K, V>, pc: Pc<K>)
    requires Knows(c, s, pc) && s'.next == s.next && s'.prev == s.prev && s'.place == s.place && s'.lruFlag == s.lruFlag
    requires s'.htFlag == s.htFlag && s'.key == s.key && s'.value == s.value
    ensures Knows(c, s', pc)
  {
    hide KnowsRemoving, KnowsAppending, KnowsInserting, HasLock, Kept;
    AllKept(c, s, s', pc);
    StillRemoving(c, s, s', pc);
    StillAppending(c, s, s', pc);
    StillInserting(c, s, s', pc);
  }

  lemma AllKept<K, V>(c: Config<K, V>, s: State<K, V>, s': State<K, V>, pc: Pc<K>)
    requires s'.next == s.next && s'.prev == s.prev && s'.place == s.place && s'.lruFlag == s.lruFlag
    requires s'.htFlag == s.htFlag && s'.key == s.key && s'.value == s.value
    ensures Kept(c, s, s', pc)
  {
    hide HasLock;
    forall x ensures Same(c, s, s', x) {}
  }

  lemma SameDetaches<K(!new)>(capacity: nat, threads: seq<Pc<K>>, place: seq<Place>, t: nat, pc: Pc<K>)
    requires DetachOk(capacity, threads, place) && t < |threads| && forall x :: Detaches(threads[t], x) <==> Detaches(pc, x)
    ensures DetachOk(capacity, threads[t := pc], place)
  {
    hide Detaches;
  }

  /** A step that changes no cell. */
  lemma GoKeeps<K(!new), V>(c: Config<K, V>, s: State<K, V>, t: nat, pc: Pc<K>, log: seq<(K, V)>)
    requires Inv(c, s) && t < |s.threads| && Knows(c, s, pc) && Delivered(c, log)
    requires forall x :: HasLock(c.capacity, s.threads[t], x) <==> HasLock(c.capacity, pc, x)
    requires forall x :: Detaches(s.threads[t], x) <==> Detaches(pc, x)
    ensures Inv(c, Go(s.(log := log), t, pc))
  {
    hide ListsOk, DetachOk, Buckets, Delivered, Knows, HasLock, Detaches;
    var s' := Go(s.(log := log), t, pc);
    SameKnows(c, s, s', pc);
    AllKnow(c, s, s', t);
    SameDetaches(c.capacity, s.threads, s.place, t, pc);
    SameBuckets(c, s, s');
  }

  lemma SameBuckets<K, V>(c: Config<K, V>, s: State<K, V>, s': State<K, V>)
    requires Buckets(c, s) && s'.chains == s.chains && s'.key == s.key && s'.value == s.value && s'.htFlag == s.htFlag
    requires s'.lruFlag == s.lruFlag
    ensures Buckets(c, s')
  {
  }

  /** Taking a free lock. */
  lemma TakeKeeps<K(!new), V>(c: Config<K, V>, s: State<K, V>, t: nat, x: int, pc: Pc<K>)
    requires Inv(c, s) && t < |s.threads| && 0 <= x < c.capacity + 4
    requires Cell(s.lock, x, 0) == NULL ==> Knows(c, s, pc)
    requires forall y :: HasLock(c.capacity, pc, y) <==> HasLock(c.capacity, s.threads[t], y) || y == x
    requires forall y :: Detaches(s.threads[t], y) <==> Detaches(pc, y)
    ensures Inv(c, Take(s, t, x, pc))
  {
    hide ListsOk, DetachOk, Buckets, Delivered, Knows, HasLock, Detaches;
    if Cell(s.lock, x, 0) == NULL {
      var s' := Take(s, t, x, pc);
      SameKnows(c, s, s', pc);
      AllKnow(c, s, s', t);
      SameDetaches(c.capacity, s.threads, s.place, t, pc);
      SameBuckets(c, s, s');
      TakeLock(c.capacity, s.threads, s.lock, t, x, pc);
    }
  }

  lemma TakeLock<K(!new)>(capacity: nat, threads: seq<Pc<K>>, lock: seq<int>, t: nat, x: int, pc: Pc<K>)
    requires LockOk(capacity, threads, lock) && t < |threads| && 0 <= x < capacity + 4 && lock[x] == NULL
    requires forall y :: HasLock(capacity, pc, y) <==> HasLock(capacity, threads[t], y) || y == x
    ensures LockOk(capacity, threads[t := pc], lock[x := t])
  {
    hide HasLock;
    var threads', lock' := threads[t := pc], lock[x := t];
    forall u, y {:trigger HasLock(capacity, threads'[u], y)} | 0 <= u < |threads'| && HasLock(capacity, threads'[u], y)
      ensures 0 <= y < capacity + 4 && lock'[y] == u
    {
      assert y != x ==> HasLock(capacity, threads[u], y);
      assert u != t ==> HasLock(capacity, threads[u], y);
    }
  }

  lemma DropLock<K(!new)>(capacity: nat, threads: seq<Pc<K>>, lock: seq<int>, t: nat, x: int, pc: Pc<K>)
    requires LockOk(capacity, threads, lock) && t < |threads| && HasLock(capacity, threads[t], x)
    requires forall y :: HasLock(capacity, pc, y) <==> HasLock(capacity, threads[t], y) && y != x
    ensures LockOk(capacity, threads[t := pc], lock[x := NULL])
  {
    hide HasLock;
    var threads', lock' := threads[t := pc], lock[x := NULL];
    forall u, y {:trigger HasLock(capacity, threads'[u], y)} | 0 <= u < |threads'| && HasLock(capacity, threads'[u], y)
      ensures 0 <= y < capacity + 4 && lock'[y] == u
    {
      assert HasLock(capacity, threads[u], y);
    }
  }

  /** Dropping a lock that the thread holds. */
  lemma ReleaseKeeps<K(!new), V>(c: Config<K, V>, s: State<K, V>, t: nat, x: int, pc: Pc<K>)
    requires Inv(c, s) && t < |s.threads| && Knows(c, s, pc) && HasLock(c.capacity, s.threads[t], x)
    requires PlaceAt(s.place, x) == InLru ==> Cell(s.htFlag, x, false)
    requires forall y :: HasLock(c.capacity, pc, y) <==> HasLock(c.capacity, s.threads[t], y) && y != x
    requires forall y :: Detaches(s.threads[t], y) <==> Detaches(pc, y)
    ensures Inv(c, Release(s, t, x, pc))
  {
    hide ListsOk, DetachOk, Buckets, Delivered, Knows, HasLock, Detaches;
    var s' := Release(s, t, x, pc);
    SameKnows(c, s, s', pc);
    AllKnow(c, s, s', t);
    SameDetaches(c.capacity, s.threads, s.place, t, pc);
    SameBuckets(c, s, s');
    DropLock(c.capacity, s.threads, s.lock, t, x, pc);
  }

  // ---------- reading the lists ----------

  /** A node that is not locked and is not in the pool is in the LRU list and filed. */
  lemma FreeIsLive<K, V>(c: Config<K, V>, s: State<K, V>, x: int)
    requires Inv(c, s) && Used(c, s, x) && Cell(s.lock, x, 0) == NULL
    ensures Live(s, x)
  {
    hide ListsOk, Buckets, Delivered, Knows, HasLock;
    if PlaceAt(s.place, x).Detached? {
      var t := PlaceAt(s.place, x).thread;
      DetachedIsLocked(c.capacity, s.threads[t], x);
    }
  }

  lemma DetachedIsLocked<K>(capacity: nat, pc: Pc<K>, x: int)
    requires Detaches(pc, x)
    ensures HasLock(capacity, pc, x)
  {
  }

  /** What is known about the next cell after the head or a node of a list. */
  lemma NextInList(capacity: nat, next: seq<int>, prev: seq<int>, lru: seq<int>, pool: seq<int>, place: seq<Place>, w: List, x: int)
    requires ListsOk(capacity, next, prev, lru, pool, place)
    requires x == HeadOf(capacity, w) || PlaceAt(place, x) == Where(w)
    requires 0 <= x < capacity + 4 && (x < capacity || x == HeadOf(capacity, w))
    ensures var y := Cell(next, x, NULL);
      && (y == TailOf(capacity, w) || (0 <= y < capacity && PlaceAt(place, y) == Where(w)))
      && y != x && y != HeadOf(capacity, w) && Cell(prev, y, NULL) == x
  {
    var order := if w == Lru then lru else pool;
    var path := Path(capacity, order, w);
    var i := 0;
    if x != HeadOf(capacity, w) {
      var j := IndexOf(order, x);
      i := j + 1;
    }
    assert path[i] == x && next[path[i]] == path[i + 1] && prev[path[i + 1]] == path[i];
    if i + 1 < |path| - 1 { assert path[i + 1] == order[i] && order[i] in order; }
  }

  /** What is known about the cell before the tail or a node of a list. */
  lemma PrevInList(capacity: nat, next: seq<int>, prev: seq<int>, lru: seq<int>, pool: seq<int>, place: seq<Place>, w: List, x: int)
    requires ListsOk(capacity, next, prev, lru, pool, place)
    requires x == TailOf(capacity, w) || PlaceAt(place, x) == Where(w)
    requires 0 <= x < capacity + 4 && (x < capacity || x == TailOf(capacity, w))
    ensures var y := Cell(prev, x, NULL);
      && (y == HeadOf(capacity, w) || (0 <= y < capacity && PlaceAt(place, y) == Where(w)))
      && y != x && y != TailOf(capacity, w) && Cell(next, y, NULL) == x
  {
    var order := if w == Lru then lru else pool;
    var path := Path(capacity, order, w);
    var i := |path| - 2;
    if x != TailOf(capacity, w) {
      i := IndexOf(order, x);
    }
    assert path[i + 1] == x && next[path[i]] == path[i + 1] && prev[path[i + 1]] == path[i];
    if i > 0 { assert path[i] == order[i - 1] && order[i - 1] in order; }
  }

  lemma NextOf<K, V>(c: Config<K, V>, s: State<K, V>, w: List, x: int)
    requires Inv(c, s)
    requires x == HeadOf(c.capacity, w) || (0 <= x < c.capacity && PlaceAt(s.place, x) == Where(w))
    ensures 0 <= x < c.capacity + 4 && WellFormed(c, s)
    ensures var y := Cell(s.next, x, NULL);
      && (y == TailOf(c.capacity, w) || (0 <= y < c.capacity && PlaceAt(s.place, y) == Where(w)))
      && y != x && y != HeadOf(c.capacity, w) && Cell(s.prev, y, NULL) == x && 0 <= y < c.capacity + 4
  {
    hide LockOk, DetachOk, Buckets, FlagsOk, Delivered, Knows, ListsOk, PlaceAt;
    NextInList(c.capacity, s.next, s.prev, s.lru, s.pool, s.place, w, x);
  }

  lemma PrevOf<K, V>(c: Config<K, V>, s: State<K, V>, w: List, x: int)
    requires Inv(c, s)
    requires x == TailOf(c.capacity, w) || (0 <= x < c.capacity && PlaceAt(s.place, x) == Where(w))
    ensures var y := Cell(s.prev, x, NULL);
      && (y == HeadOf(c.capacity, w) || (0 <= y < c.capacity && PlaceAt(s.place, y) == Where(w)))
      && y != x && y != TailOf(c.capacity, w) && Cell(s.next, y, NULL) == x && 0 <= y < c.capacity + 4
  {
    hide LockOk, DetachOk, Buckets, FlagsOk, Delivered, Knows, ListsOk, PlaceAt;
    PrevInList(c.capacity, s.next, s.prev, s.lru, s.pool, s.place, w, x);
  }

  lemma Log<K, V>(c: Config<K, V>, s: State<K, V>, t: nat)
    requires Inv(c, s) && t < |s.threads|
    ensures WellFormed(c, s) && Delivered(c, s.log) && Knows(c, s, s.threads[t])
  {
    hide ListsOk, LockOk, DetachOk, Buckets, FlagsOk, Delivered, Knows;
  }

  /** A live node is filed under its key with the value of its key. */
  lemma LiveValue<K, V>(c: Config<K, V>, s: State<K, V>, n: int)
    requires Inv(c, s) && Live(s, n)
    ensures 0 <= n < c.capacity && s.lruFlag[n] && s.value[n] == c.f(s.key[n])
  {
    hide ListsOk, LockOk, DetachOk, Delivered, Knows;
  }

  // ---------- finding ----------

  /** Threads that are finding or removing know nothing about appending and inserting. */
  lemma JustFinding<K, V>(c: Config<K, V>, s: State<K, V>, pc: Pc<K>)
    requires Finding(pc) || Removing(pc) || pc.LockHead?
    ensures KnowsAppending(c, s, pc) && KnowsInserting(c, s, pc)
    ensures pc.Idle? || pc.Search? || pc.Produce? || pc.LockHead? ==> KnowsRemoving(c, s, pc)
  {
  }

  lemma SearchKeeps<K(!new), V>(c: Config<K, V>, s: State<K, V>, t: nat, e: Choice<K>)
    requires Inv(c, s) && WellFormed(c, s) && t < |s.threads|
    requires s.threads[t].Idle? || s.threads[t].Search? || s.threads[t].Produce?
    ensures Inv(c, FindStep(c, s, t, e))
  {
    hide Inv, Delivered, KnowsAppending, KnowsInserting;
    Log(c, s, t);
    var s' := FindStep(c, s, t, e);
    JustFinding(c, s, s'.threads[t]);
    match s.threads[t]
    case Idle => GoKeeps(c, s, t, Search(e.k), s.log);
    case Search(k) =>
      SeekFinds(s.chains[BucketOf(c, k)], s.key, k);
      SeekNull(s.chains[BucketOf(c, k)], s.key, k);
      var n := Seek(s.chains[BucketOf(c, k)], s.key, k);
      if n != NULL { FoundIsUsed(c, s, BucketOf(c, k), n); }
      GoKeeps(c, s, t, s'.threads[t], s.log);
    case Produce(k) =>
      Logged(c, s.log, k, c.f(k));
      GoKeeps(c, s, t, LockHead(k, Pool), s'.log);
  }

  lemma FoundKeeps<K(!new), V>(c: Config<K, V>, s: State<K, V>, t: nat, e: Choice<K>)
    requires Inv(c, s) && WellFormed(c, s) && t < |s.threads|
    requires s.threads[t].LockFound? || s.threads[t].TestFound? || s.threads[t].DropFound?
    ensures Inv(c, FindStep(c, s, t, e))
  {
    hide Inv, Delivered, KnowsAppending, KnowsInserting;
    Log(c, s, t);
    var s' := FindStep(c, s, t, e);
    match s.threads[t]
    case LockFound(k, n) =>
      if Cell(s.lock, n, 0) == NULL { FreeIsLive(c, s, n); }
      JustFinding(c, s, TestFound(k, n));
      TakeKeeps(c, s, t, n, TestFound(k, n));
    case TestFound(k, n) =>
      LiveValue(c, s, n);
      Logged(c, s.log, k, s.value[n]);
      JustFinding(c, s, s'.threads[t]);
      GoKeeps(c, s, t, s'.threads[t], s'.log);
    case DropFound(k, n) =>
      JustFinding(c, s, Produce(k));
      ReleaseKeeps(c, s, t, n, Produce(k));
  }

  lemma FindKeeps<K(!new), V>(c: Config<K, V>, s: State<K, V>, t: nat, e: Choice<K>)
    requires Inv(c, s) && WellFormed(c, s) && t < |s.threads| && Finding(s.threads[t])
    ensures Inv(c, FindStep(c, s, t, e))
  {
    hide Inv, FindStep;
    var pc := s.threads[t];
    if pc.LockFound? || pc.TestFound? || pc.DropFound? { FoundKeeps(c, s, t, e); } else { SearchKeeps(c, s, t, e); }
  }

  lemma Logged<K, V>(c: Config<K, V>, log: seq<(K, V)>, k: K, v: V)
    requires Delivered(c, log)
    ensures v == c.f(k) ==> Delivered(c, log + [(k, v)])
  {
  }

  lemma {:induction false} SeekNull<K>(chain: seq<int>, key: seq<K>, k: K)
    ensures Seek(chain, key, k) == NULL || Seek(chain, key, k) >= 0
  {
    if chain != [] { SeekNull(chain[1..], key, k); }
  }

  lemma FoundIsUsed<K, V>(c: Config<K, V>, s: State<K, V>, b: nat, n: int)
    requires Inv(c, s) && b < c.buckets && |s.chains| == c.buckets && n in s.chains[b]
    ensures Used(c, s, n)
  {
    hide ListsOk, LockOk, DetachOk, Delivered, Knows;
  }

  // ---------- the writes to the lists ----------

  /** The two lists share no cell. */
  lemma ListsApart(capacity: nat, next: seq<int>, prev: seq<int>, lru: seq<int>, pool: seq<int>, place: seq<Place>)
    requires ListsOk(capacity, next, prev, lru, pool, place)
    ensures Apart(Path(capacity, lru, Lru), Path(capacity, pool, Pool))
    ensures Apart(Path(capacity, pool, Pool), Path(capacity, lru, Lru))
  {
    var a, b := Path(capacity, lru, Lru), Path(capacity, pool, Pool);
    forall x | x in a ensures x !in b {
      if x in lru { var i := IndexOf(lru, x); }
      if x in pool { var i := IndexOf(pool, x); }
    }
  }

  /** Unlinking node n from list w between p and x. */
  lemma UnlinkLists(capacity: nat, next: seq<int>, prev: seq<int>, lru: seq<int>, pool: seq<int>, place: seq<Place>,
                    w: List, n: int, p: int, x: int, t: int)
    requires ListsOk(capacity, next, prev, lru, pool, place)
    requires 0 <= n < |place| == capacity && place[n] == Where(w)
    requires Cell(prev, n, NULL) == p && Cell(next, n, NULL) == x
    ensures ListsOk(capacity, Put(next, p, x), Put(prev, x, p), if w == Lru then Without(lru, {n}) else lru,
                    if w == Pool then Without(pool, {n}) else pool, Put(place, n, Detached(t)))
  {
    hide Doubly, Path, Placed;
    UnlinkedIn(capacity, lru, pool, place, w, n);
    var order, other := if w == Lru then lru else pool, if w == Lru then pool else lru;
    var v := if w == Lru then Pool else Lru;
    ListsApart(capacity, next, prev, lru, pool, place);
    UnlinkPath(capacity, next, prev, order, w, n, p, x);
    UnlinkPlaces(capacity, lru, pool, place, w, n, t);
    assert Apart(Path(capacity, other, v), Path(capacity, order, w));
    PathDistinct(capacity, next, prev, other, v);
    OutsideSame(Path(capacity, other, v), next, p, x);
    OutsideSame(Path(capacity, other, v), prev, x, p);
    DoublyFrame(next, prev, Put(next, p, x), Put(prev, x, p), Path(capacity, other, v), {});
  }

  lemma UnlinkedIn(capacity: nat, lru: seq<int>, pool: seq<int>, place: seq<Place>, w: List, n: int)
    requires Placed(capacity, lru, pool, place) && 0 <= n < |place| && place[n] == Where(w)
    ensures n in (if w == Lru then lru else pool) && |place| == capacity
  {
  }

  lemma UnlinkPlaces(capacity: nat, lru: seq<int>, pool: seq<int>, place: seq<Place>, w: List, n: int, t: int)
    requires Placed(capacity, lru, pool, place) && 0 <= n < capacity && place[n] == Where(w)
    ensures Placed(capacity, if w == Lru then Without(lru, {n}) else lru, if w == Pool then Without(pool, {n}) else pool,
                   Put(place, n, Detached(t)))
  {
    var order := if w == Lru then lru else pool;
    WithoutMembers(order, {n});
    WithoutRange(order, {n}, capacity);
  }

  lemma UnlinkPath(capacity: nat, next: seq<int>, prev: seq<int>, order: seq<int>, w: List, n: int, p: int, x: int)
    requires Doubly(next, prev, Path(capacity, order, w), {}) && n in order && 0 <= n < |next|
    requires Cell(prev, n, NULL) == p && Cell(next, n, NULL) == x
    ensures Doubly(Put(next, p, x), Put(prev, x, p), Path(capacity, Without(order, {n}), w), {})
    ensures p in Path(capacity, order, w) && x in Path(capacity, order, w)
  {
    hide Doubly;
    var path := Path(capacity, order, w);
    var j := IndexOf(order, n);
    PathDistinct(capacity, next, prev, order, w);
    assert path[j + 1] == n;
    Links.Unlink(next, prev, path, j + 1);
    WithoutIsDrop(order, j);
    assert path[j] == p && path[j + 2] == x;
    assert Drop(path, j + 1) == Path(capacity, Without(order, {n}), w);
  }

  lemma PathDistinct(capacity: nat, next: seq<int>, prev: seq<int>, order: seq<int>, w: List)
    requires Doubly(next, prev, Path(capacity, order, w), {})
    ensures Distinct(order) && |next| == |prev| && InRange(Path(capacity, order, w), |next|)
  {
    var path := Path(capacity, order, w);
    forall a, b | 0 <= a < b < |order| ensures order[a] != order[b] {
      assert order[a] == path[a + 1] && order[b] == path[b + 1];
    }
  }

  lemma WithoutRange(order: seq<int>, drop: set<int>, n: int)
    requires InRange(order, n)
    ensures InRange(Without(order, drop), n)
  {
    WithoutMembers(order, drop);
    var r := Without(order, drop);
    forall i | 0 <= i < |r| ensures 0 <= r[i] < n {
      assert r[i] in r;
      var j := IndexOf(order, r[i]);
    }
  }

  /** Inserting a detached node before the tail of the LRU list. */
  lemma AppendLists(capacity: nat, next: seq<int>, prev: seq<int>, lru: seq<int>, pool: seq<int>, place: seq<Place>, n: int, p: int)
    requires ListsOk(capacity, next, prev, lru, pool, place)
    requires 0 <= n < capacity && place[n].Detached? && Cell(prev, TailOf(capacity, Lru), NULL) == p
    ensures var tail := TailOf(capacity, Lru);
      ListsOk(capacity, Put(Put(next, p, n), n, tail), Put(Put(prev, n, p), tail, n), lru + [n], pool, Put(place, n, InLru))
  {
    hide Doubly;
    var path, tail := Path(capacity, lru, Lru), TailOf(capacity, Lru);
    ListsApart(capacity, next, prev, lru, pool, place);
    PathDistinct(capacity, next, prev, lru, Lru);
    LastBack(next, prev, path);
    var k := |path| - 1;
    assert path[k] == tail && path[k - 1] == p;
    assert n !in path && n !in Path(capacity, pool, Pool);
    InsertBeforeLast(next, prev, path, n);
    assert path[..k] + [n] + path[k..] == Path(capacity, lru + [n], Lru);
    assert p in path && tail in path;
    DoublyFrame(next, prev, next[p := n][n := tail], prev[n := p][tail := n], Path(capacity, pool, Pool), {});
    AppendPlaces(capacity, lru, pool, place, n);
  }

  lemma AppendPlaces(capacity: nat, lru: seq<int>, pool: seq<int>, place: seq<Place>, n: int)
    requires Placed(capacity, lru, pool, place) && 0 <= n < capacity && place[n].Detached?
    ensures Placed(capacity, lru + [n], pool, Put(place, n, InLru))
  {
    assert forall x :: x in lru + [n] <==> x in lru || x == n;
  }

  lemma LastBack(next: seq<int>, prev: seq<int>, path: seq<int>)
    requires Doubly(next, prev, path, {}) && |path| >= 2
    ensures Cell(prev, path[|path| - 1], NULL) == path[|path| - 2]
  {
    var i := |path| - 2;
    assert prev[path[i + 1]] == path[i];
  }

  lemma ClearLists(capacity: nat, next: seq<int>, prev: seq<int>, lru: seq<int>, pool: seq<int>, place: seq<Place>, n: int)
    requires ListsOk(capacity, next, prev, lru, pool, place) && 0 <= n < capacity && place[n].Detached?
    ensures ListsOk(capacity, Put(next, n, NULL), Put(prev, n, NULL), lru, pool, place)
  {
    hide Doubly;
    PathDistinct(capacity, next, prev, lru, Lru);
    DoublyFrame(next, prev, next[n := NULL], prev[n := NULL], Path(capacity, lru, Lru), {});
    DoublyFrame(next, prev, next[n := NULL], prev[n := NULL], Path(capacity, pool, Pool), {});
  }

  // ---------- steps that write ----------

  /** What a step that writes cells owes to the invariant. */
  lemma WriteKeeps<K(!new), V>(c: Config<K, V>, s: State<K, V>, s1: State<K, V>, t: nat, pc: Pc<K>)
    requires Inv(c, s) && t < |s.threads| && s1.threads == s.threads && s1.lock == s.lock && s1.log == s.log
    requires WellFormed(c, s1) && ListsOk(c.capacity, s1.next, s1.prev, s1.lru, s1.pool, s1.place)
    requires DetachOk(c.capacity, s.threads[t := pc], s1.place) && Buckets(c, s1) && FlagsOk(c, s1)
    requires OnlyOwn(c, s, s1, t) && Knows(c, s1, pc)
    requires forall x :: HasLock(c.capacity, s.threads[t], x) <==> HasLock(c.capacity, pc, x)
    ensures Inv(c, Go(s1, t, pc))
  {
    hide ListsOk, DetachOk, Buckets, FlagsOk, Delivered, Knows, HasLock, OnlyOwn;
    var s' := Go(s1, t, pc);
    SameKnows(c, s1, s', pc);
    OwnSame(c, s, s1, s', t);
    AllKnow(c, s, s', t);
    SameBuckets(c, s1, s');
    SameFlags(c, s1, s');
  }

  lemma OwnSame<K, V>(c: Config<K, V>, s: State<K, V>, s1: State<K, V>, s': State<K, V>, t: int)
    requires OnlyOwn(c, s, s1, t) && s' == s1.(threads := s'.threads)
    ensures OnlyOwn(c, s, s', t)
  {
    forall x | Cell(s.lock, x, NULL) != t ensures Same(c, s, s', x) { assert Same(c, s, s1, x); }
  }

  lemma SameFlags<K, V>(c: Config<K, V>, s: State<K, V>, s': State<K, V>)
    requires FlagsOk(c, s) && s' == s.(threads := s'.threads)
    ensures FlagsOk(c, s')
  {
  }

  /** Unlinking, for a move to the tail, for the pool and for an eviction. */
  lemma UnlinkKeeps<K(!new), V>(c: Config<K, V>, s: State<K, V>, t: nat, w: List, n: int, p: int, x: int, pc: Pc<K>)
    requires Inv(c, s) && t < |s.threads| && 0 <= n < c.capacity && PlaceAt(s.place, n) == Where(w)
    requires Cell(s.prev, n, NULL) == p && Cell(s.next, n, NULL) == x
    requires HasLock(c.capacity, s.threads[t], n) && HasLock(c.capacity, s.threads[t], p)
    requires HasLock(c.capacity, s.threads[t], x)
    requires (forall y :: HasLock(c.capacity, s.threads[t], y) <==> HasLock(c.capacity, pc, y))
    requires (forall y :: !Detaches(s.threads[t], y)) && (forall y :: Detaches(pc, y) <==> y == n)
    requires Knows(c, Unlinked(s, w, n, p, x, t), pc)
    ensures Inv(c, Go(Unlinked(s, w, n, p, x, t), t, pc))
  {
    hide ListsOk, Buckets, Delivered, Knows, HasLock, Detaches;
    var s1 := Unlinked(s, w, n, p, x, t);
    UnlinkLists(c.capacity, s.next, s.prev, s.lru, s.pool, s.place, w, n, p, x, t);
    DetachAdd(c.capacity, s.threads, s.place, t, pc, n);
    SameBuckets(c, s, s1);
    PlaceFlags(c, s, s1, n);
    WriteKeeps(c, s, s1, t, pc);
  }

  /** The flags still fit after one node has changed its place. */
  lemma PlaceFlags<K, V>(c: Config<K, V>, s: State<K, V>, s1: State<K, V>, n: int)
    requires FlagsOk(c, s) && s1.lock == s.lock && s1.lruFlag == s.lruFlag && s1.htFlag == s.htFlag
    requires forall x {:trigger PlaceAt(s1.place, x)} :: x != n ==> PlaceAt(s1.place, x) == PlaceAt(s.place, x)
    requires PlaceAt(s1.place, n).Detached?
             || (PlaceAt(s1.place, n) == InLru && Cell(s.lruFlag, n, false) && Cell(s.lock, n, NULL) != NULL)
    ensures FlagsOk(c, s1)
  {
  }

  lemma DetachAdd<K(!new)>(capacity: nat, threads: seq<Pc<K>>, place: seq<Place>, t: nat, pc: Pc<K>, n: int)
    requires DetachOk(capacity, threads, place) && t < |threads| && 0 <= n < capacity == |place| && !place[n].Detached?
    requires (forall y :: !Detaches(threads[t], y)) && (forall y :: Detaches(pc, y) <==> y == n)
    ensures DetachOk(capacity, threads[t := pc], Put(place, n, Detached(t)))
  {
    hide Detaches;
    var threads', place' := threads[t := pc], Put(place, n, Detached(t));
    forall u, x {:trigger Detaches(threads'[u], x)} | 0 <= u < |threads'| && Detaches(threads'[u], x)
      ensures 0 <= x < capacity && PlaceAt(place', x) == Detached(u)
    {
      assert u != t ==> Detaches(threads[u], x);
    }
    forall x {:trigger PlaceAt(place', x)} | PlaceAt(place', x).Detached?
      ensures 0 <= PlaceAt(place', x).thread < |threads'| && Detaches(threads'[PlaceAt(place', x).thread], x)
    {
      assert x != n ==> PlaceAt(place, x).Detached?;
    }
  }

  lemma DetachDrop<K(!new)>(capacity: nat, threads: seq<Pc<K>>, place: seq<Place>, t: nat, pc: Pc<K>, n: int)
    requires DetachOk(capacity, threads, place) && t < |threads| && |place| == capacity
    requires (forall y :: Detaches(threads[t], y) <==> y == n) && (forall y :: !Detaches(pc, y))
    ensures 0 <= n < capacity && place[n] == Detached(t)
    ensures DetachOk(capacity, threads[t := pc], Put(place, n, InLru))
  {
    hide Detaches;
    assert Detaches(threads[t], n);
    var threads', place' := threads[t := pc], Put(place, n, InLru);
    forall u, x {:trigger Detaches(threads'[u], x)} | 0 <= u < |threads'| && Detaches(threads'[u], x)
      ensures 0 <= x < capacity && PlaceAt(place', x) == Detached(u)
    {
      assert Detaches(threads[u], x);
    }
    forall x {:trigger PlaceAt(place', x)} | PlaceAt(place', x).Detached?
      ensures 0 <= PlaceAt(place', x).thread < |threads'| && Detaches(threads'[PlaceAt(place', x).thread], x)
    {
      assert x != n && PlaceAt(place, x).Detached?;
    }
  }

  /** Putting the detached node at the end of the LRU list. */
  lemma AppendKeeps<K(!new), V>(c: Config<K, V>, s: State<K, V>, t: nat, n: int, p: int, pc: Pc<K>)
    requires Inv(c, s) && t < |s.threads| && Cell(s.prev, TailOf(c.capacity, Lru), NULL) == p
    requires Cell(s.lruFlag, n, false)
    requires HasLock(c.capacity, s.threads[t], n) && HasLock(c.capacity, s.threads[t], p)
    requires HasLock(c.capacity, s.threads[t], TailOf(c.capacity, Lru))
    requires (forall y :: HasLock(c.capacity, s.threads[t], y) <==> HasLock(c.capacity, pc, y))
    requires (forall y :: Detaches(s.threads[t], y) <==> y == n) && (forall y :: !Detaches(pc, y))
    requires Knows(c, Appended(c, s, n, p), pc)
    ensures Inv(c, Go(Appended(c, s, n, p), t, pc))
  {
    hide ListsOk, Buckets, Delivered, Knows, HasLock, Detaches, DetachOk;
    var s1 := Appended(c, s, n, p);
    DetachDrop(c.capacity, s.threads, s.place, t, pc, n);
    AppendLists(c.capacity, s.next, s.prev, s.lru, s.pool, s.place, n, p);
    SameBuckets(c, s, s1);
    PlaceFlags(c, s, s1, n);
    WriteKeeps(c, s, s1, t, pc);
  }

  /** Clearing the links of the node just taken out. */
  lemma ClearKeeps<K(!new), V>(c: Config<K, V>, s: State<K, V>, t: nat, n: int, pc: Pc<K>)
    requires Inv(c, s) && t < |s.threads| && Detaches(s.threads[t], n) && HasLock(c.capacity, s.threads[t], n)
    requires (forall y :: HasLock(c.capacity, s.threads[t], y) <==> HasLock(c.capacity, pc, y))
    requires (forall y :: Detaches(s.threads[t], y) <==> Detaches(pc, y))
    requires Knows(c, Cleared(s, n), pc)
    ensures Inv(c, Go(Cleared(s, n), t, pc))
  {
    hide ListsOk, Buckets, Delivered, Knows, HasLock, Detaches;
    var s1 := Cleared(s, n);
    assert 0 <= n < c.capacity && PlaceAt(s.place, n) == Detached(t);
    ClearLists(c.capacity, s.next, s.prev, s.lru, s.pool, s.place, n);
    SameDetaches(c.capacity, s.threads, s.place, t, pc);
    SameBuckets(c, s, s1);
    PlaceFlags(c, s, s1, n);
    WriteKeeps(c, s, s1, t, pc);
  }

  /** Every thread keeps its node apart from the others while it evicts, fills and files it. */
  lemma OwnNode<K, V>(c: Config<K, V>, s: State<K, V>, t: nat, n: int)
    requires Inv(c, s) && t < |s.threads| && Detaches(s.threads[t], n)
    ensures 0 <= n < c.capacity && PlaceAt(s.place, n) == Detached(t) && Cell(s.lock, n, NULL) == t
    ensures HasLock(c.capacity, s.threads[t], n)
  {
    hide ListsOk, Buckets, FlagsOk, Delivered, Knows;
    DetachedIsLocked(c.capacity, s.threads[t], n);
  }

  lemma UnflagKeeps<K(!new), V>(c: Config<K, V>, s: State<K, V>, t: nat, k: K, n: int)
    requires Inv(c, s) && WellFormed(c, s) && t < |s.threads| && s.threads[t] == Unflag(k, n)
    ensures Inv(c, Go(s.(lruFlag := Put(s.lruFlag, n, false)), t, AwaitFiled(k, n)))
  {
    hide ListsOk, Delivered, KnowsRemoving, KnowsAppending, LockOk, DetachOk, HasLock;
    var s1 := s.(lruFlag := Put(s.lruFlag, n, false));
    assert Knows(c, s, s.threads[t]);
    OwnNode(c, s, t, n);
    SameDetaches(c.capacity, s.threads, s.place, t, AwaitFiled(k, n));
    FreshKnows(c, s1, AwaitFiled(k, n));
    SameLocks(c.capacity, s.threads[t], AwaitFiled(k, n));
    WriteKeeps(c, s, s1, t, AwaitFiled(k, n));
  }

  lemma FreshKnows<K, V>(c: Config<K, V>, s: State<K, V>, pc: Pc<K>)
    requires (pc.AwaitFiled? && Cell(s.htFlag, pc.n, false)) || (pc.Fill? && !Cell(s.htFlag, pc.n, false))
             || (pc.LoadLast? && Carries(c, s, pc.n, pc.why)) || (pc.Leave? && Live(s, pc.n))
    ensures Knows(c, s, pc)
  {
  }

  lemma SameLocks<K>(capacity: nat, pc: Pc<K>, pc': Pc<K>)
    requires pc.Unflag? || pc.Unfile? || pc.Fill? || pc.File?
    requires pc'.AwaitFiled? || pc'.Fill? || pc'.LoadLast? || pc'.Leave?
    requires pc.n == pc'.n
    ensures forall x :: HasLock(capacity, pc, x) <==> HasLock(capacity, pc', x)
  {
  }

  /** htRemove's last assertion holds: the node is found in its bucket and its flag is cleared. */
  lemma UnfileKeeps<K(!new), V>(c: Config<K, V>, s: State<K, V>, t: nat, k: K, n: int)
    requires Inv(c, s) && WellFormed(c, s) && t < |s.threads| && s.threads[t] == Unfile(k, n)
    ensures 0 <= n < c.capacity && n in s.chains[BucketOf(c, s.key[n])] && !Unfiled(c, s, n).htFlag[n]
    ensures Inv(c, Go(Unfiled(c, s, n), t, Fill(k, n)))
  {
    hide ListsOk, Delivered, KnowsRemoving, KnowsAppending, LockOk, DetachOk, Buckets, HasLock;
    assert Knows(c, s, s.threads[t]);
    OwnNode(c, s, t, n);
    InItsBucket(c, s, n);
    var s1 := Unfiled(c, s, n);
    UnfiledBuckets(c, s, n);
    SameDetaches(c.capacity, s.threads, s.place, t, Fill(k, n));
    FreshKnows(c, s1, Fill(k, n));
    SameLocks(c.capacity, s.threads[t], Fill(k, n));
    WriteKeeps(c, s, s1, t, Fill(k, n));
  }

  lemma InItsBucket<K, V>(c: Config<K, V>, s: State<K, V>, n: int)
    requires Buckets(c, s) && 0 <= n < c.capacity && s.htFlag[n]
    ensures n in s.chains[BucketOf(c, s.key[n])]
  {
  }

  lemma UnfiledBuckets<K(!new), V>(c: Config<K, V>, s: State<K, V>, n: int)
    requires WellFormed(c, s) && Buckets(c, s) && 0 <= n < c.capacity && s.htFlag[n]
    ensures Buckets(c, Unfiled(c, s, n))
  {
    var b := BucketOf(c, s.key[n]);
    WithoutMembers(s.chains[b], {n});
    WithoutDistinct(s.chains[b], {n});
  }

  lemma FillKeeps<K(!new), V>(c: Config<K, V>, s: State<K, V>, t: nat, k: K, n: int)
    requires Inv(c, s) && WellFormed(c, s) && t < |s.threads| && s.threads[t] == Fill(k, n)
    ensures Inv(c, Go(Filled(c, s, n, k), t, LoadLast(n, Add(k))))
  {
    hide ListsOk, Delivered, KnowsRemoving, KnowsAppending, LockOk, DetachOk, HasLock;
    var s1 := Filled(c, s, n, k);
    assert Knows(c, s, s.threads[t]);
    OwnNode(c, s, t, n);
    SameDetaches(c.capacity, s.threads, s.place, t, LoadLast(n, Add(k)));
    FreshKnows(c, s1, LoadLast(n, Add(k)));
    SameLocks(c.capacity, s.threads[t], LoadLast(n, Add(k)));
    WriteKeeps(c, s, s1, t, LoadLast(n, Add(k)));
  }

  lemma FileKeeps<K(!new), V>(c: Config<K, V>, s: State<K, V>, t: nat, k: K, n: int)
    requires Inv(c, s) && WellFormed(c, s) && t < |s.threads| && s.threads[t] == File(k, n)
    ensures Inv(c, Go(ConcurrentLru.Filed(c, s, n, k), t, Leave(n)))
  {
    hide ListsOk, Delivered, KnowsRemoving, KnowsInserting, DetachOk, Buckets;
    var s1 := ConcurrentLru.Filed(c, s, n, k);
    assert Knows(c, s, s.threads[t]) && HasLock(c.capacity, s.threads[t], n);
    FiledBuckets(c, s, n, k);
    SameDetaches(c.capacity, s.threads, s.place, t, Leave(n));
    FreshKnows(c, s1, Leave(n));
    SameLocks(c.capacity, s.threads[t], Leave(n));
    WriteKeeps(c, s, s1, t, Leave(n));
  }

  lemma FiledBuckets<K(!new), V>(c: Config<K, V>, s: State<K, V>, n: int, k: K)
    requires WellFormed(c, s) && Buckets(c, s) && 0 <= n < c.capacity && !s.htFlag[n] && s.key[n] == k
    requires s.value[n] == c.f(k)
    ensures Buckets(c, ConcurrentLru.Filed(c, s, n, k))
  {
    var b := BucketOf(c, k);
    assert n !in s.chains[b];
    assert forall x :: x in [n] + s.chains[b] <==> x == n || x in s.chains[b];
  }

  // ---------- whole steps ----------

  /** Both neighbours of a node of the LRU list. */
  lemma Around<K, V>(c: Config<K, V>, s: State<K, V>, n: int)
    requires Inv(c, s) && PlaceAt(s.place, n) == InLru
    ensures 0 <= n < c.capacity && Cell(s.prev, n, NULL) != Cell(s.next, n, NULL)
  {
    hide LockOk, DetachOk, Buckets, FlagsOk, Delivered, Knows;
    var path := Path(c.capacity, s.lru, Lru);
    var i := IndexOf(s.lru, n);
    assert path[i + 1] == n && s.next[path[i + 1]] == path[i + 2] && s.prev[path[i + 1]] == path[i];
  }

  /** Threads in lruRemoveNode know nothing about appending and inserting. */
  lemma JustRemoving<K, V>(c: Config<K, V>, s: State<K, V>, pc: Pc<K>)
    requires Removing(pc)
    ensures KnowsAppending(c, s, pc) && KnowsInserting(c, s, pc)
  {
  }

  lemma TriesPrev<K(!new), V>(c: Config<K, V>, s: State<K, V>, t: nat, n: int, e: Choice<K>)
    requires Inv(c, s) && WellFormed(c, s) && t < |s.threads| && s.threads[t] == TryPrev(n)
    ensures Inv(c, RemoveStep(c, s, t, e))
  {
    hide Inv, Delivered, KnowsAppending, KnowsInserting;
    Log(c, s, t);
    var p := Cell(s.prev, n, NULL);
    PrevOf(c, s, Lru, n);
    if e.fails || Cell(s.lock, p, 0) != NULL {
      JustRemoving(c, s, BackOff(n, p));
      GoKeeps(c, s, t, BackOff(n, p), s.log);
    } else {
      if p != HeadOf(c.capacity, Lru) { FreeIsLive(c, s, p); }
      JustRemoving(c, s, LockNext(n, p));
      TakeKeeps(c, s, t, p, LockNext(n, p));
    }
  }

  lemma BacksOff<K(!new), V>(c: Config<K, V>, s: State<K, V>, t: nat, e: Choice<K>)
    requires Inv(c, s) && WellFormed(c, s) && t < |s.threads|
    requires s.threads[t].BackOff? || s.threads[t].WaitPrev? || s.threads[t].CheckPrev? || s.threads[t].DropPrev?
    ensures Inv(c, RemoveStep(c, s, t, e))
  {
    hide Inv, Delivered, KnowsAppending, KnowsInserting;
    Log(c, s, t);
    var pc := s.threads[t];
    var n, p := pc.n, pc.p;
    match pc
    case BackOff(_, _) =>
      JustRemoving(c, s, WaitPrev(n, p));
      ReleaseKeeps(c, s, t, n, WaitPrev(n, p));
    case WaitPrev(_, _) =>
      if p != HeadOf(c.capacity, Lru) && Cell(s.lock, p, 0) == NULL { FreeIsLive(c, s, p); }
      JustRemoving(c, s, CheckPrev(n, p));
      TakeKeeps(c, s, t, p, CheckPrev(n, p));
    case CheckPrev(_, _) =>
      JustRemoving(c, s, RemoveStep(c, s, t, e).threads[t]);
      GoKeeps(c, s, t, RemoveStep(c, s, t, e).threads[t], s.log);
    case DropPrev(_, _) =>
      JustRemoving(c, s, RelockAlone(n));
      ReleaseKeeps(c, s, t, p, RelockAlone(n));
  }

  /** After a back-off the node may have been evicted and reused, but it is in the LRU list whenever it is locked again. */
  lemma Relocks<K(!new), V>(c: Config<K, V>, s: State<K, V>, t: nat, e: Choice<K>)
    requires Inv(c, s) && WellFormed(c, s) && t < |s.threads|
    requires s.threads[t].Relock? || s.threads[t].RelockAlone? || s.threads[t].TestAlone? || s.threads[t].TestBoth?
    ensures Inv(c, RemoveStep(c, s, t, e))
  {
    hide Inv, Delivered, KnowsAppending, KnowsInserting;
    Log(c, s, t);
    match s.threads[t]
    case Relock(n, p) =>
      if Cell(s.lock, n, 0) == NULL { FreeIsLive(c, s, n); }
      JustRemoving(c, s, TestBoth(n, p));
      TakeKeeps(c, s, t, n, TestBoth(n, p));
    case RelockAlone(n) =>
      if Cell(s.lock, n, 0) == NULL { FreeIsLive(c, s, n); }
      JustRemoving(c, s, TestAlone(n));
      TakeKeeps(c, s, t, n, TestAlone(n));
    case TestAlone(n) =>
      LiveValue(c, s, n);
      JustRemoving(c, s, TryPrev(n));
      GoKeeps(c, s, t, TryPrev(n), s.log);
    case TestBoth(n, p) =>
      LiveValue(c, s, n);
      JustRemoving(c, s, LockNext(n, p));
      GoKeeps(c, s, t, LockNext(n, p), s.log);
  }

  lemma LocksNext<K(!new), V>(c: Config<K, V>, s: State<K, V>, t: nat, n: int, p: int, e: Choice<K>)
    requires Inv(c, s) && WellFormed(c, s) && t < |s.threads| && s.threads[t] == LockNext(n, p)
    ensures Inv(c, RemoveStep(c, s, t, e))
  {
    hide Inv, Delivered, KnowsAppending, KnowsInserting;
    Log(c, s, t);
    var x := Cell(s.next, n, NULL);
    NextOf(c, s, Lru, n);
    NextOf(c, s, Lru, p);
    Around(c, s, n);
    if x != TailOf(c.capacity, Lru) && Cell(s.lock, x, 0) == NULL { FreeIsLive(c, s, x); }
    JustRemoving(c, s, Unlink(n, p, x));
    TakeKeeps(c, s, t, x, Unlink(n, p, x));
  }

  lemma Unlinks<K(!new), V>(c: Config<K, V>, s: State<K, V>, t: nat, n: int, p: int, x: int, e: Choice<K>)
    requires Inv(c, s) && WellFormed(c, s) && t < |s.threads| && s.threads[t] == Unlink(n, p, x)
    ensures Inv(c, RemoveStep(c, s, t, e))
  {
    hide Inv, Delivered, KnowsAppending, KnowsInserting;
    Log(c, s, t);
    NextOf(c, s, Lru, p);
    LiveValue(c, s, n);
    UnlinkKnows(c, s, t, n, p, x);
    UnlinkKeeps(c, s, t, Lru, n, p, x, UnlockLeft(n, p, x));
  }

  lemma Unlocks<K(!new), V>(c: Config<K, V>, s: State<K, V>, t: nat, e: Choice<K>)
    requires Inv(c, s) && WellFormed(c, s) && t < |s.threads|
    requires s.threads[t].DropBoth? || s.threads[t].UnlockLeft? || s.threads[t].UnlockRight? || s.threads[t].ClearLinks?
    ensures Inv(c, RemoveStep(c, s, t, e))
  {
    hide Inv, Delivered, Carries, Unlinked, Appended;
    Log(c, s, t);
    match s.threads[t]
    case DropBoth(n, p) => ReleaseKeeps(c, s, t, p, Leave(n));
    case UnlockLeft(n, p, x) => ReleaseKeeps(c, s, t, p, UnlockRight(n, x));
    case UnlockRight(n, x) => ReleaseKeeps(c, s, t, x, ClearLinks(n));
    case ClearLinks(n) =>
      SameCarries(c, s, Cleared(s, n), n, Move);
      ClearKeeps(c, s, t, n, LoadLast(n, Move));
  }

  lemma SameCarries<K, V>(c: Config<K, V>, s: State<K, V>, s': State<K, V>, n: int, why: Why<K>)
    requires Carries(c, s, n, why) && s'.lruFlag == s.lruFlag && s'.htFlag == s.htFlag && s'.key == s.key
    requires s'.value == s.value
    ensures Carries(c, s', n, why)
  {
  }

  lemma RemoveKeeps<K(!new), V>(c: Config<K, V>, s: State<K, V>, t: nat, e: Choice<K>)
    requires Inv(c, s) && WellFormed(c, s) && t < |s.threads| && Removing(s.threads[t])
    ensures Inv(c, RemoveStep(c, s, t, e))
  {
    hide Inv, RemoveStep;
    match s.threads[t]
    case TryPrev(n) => TriesPrev(c, s, t, n, e);
    case BackOff(_, _) => BacksOff(c, s, t, e);
    case WaitPrev(_, _) => BacksOff(c, s, t, e);
    case CheckPrev(_, _) => BacksOff(c, s, t, e);
    case DropPrev(_, _) => BacksOff(c, s, t, e);
    case Relock(_, _) => Relocks(c, s, t, e);
    case RelockAlone(_) => Relocks(c, s, t, e);
    case TestAlone(_) => Relocks(c, s, t, e);
    case TestBoth(_, _) => Relocks(c, s, t, e);
    case LockNext(n, p) => LocksNext(c, s, t, n, p, e);
    case Unlink(n, p, x) => Unlinks(c, s, t, n, p, x, e);
    case DropBoth(_, _) => Unlocks(c, s, t, e);
    case UnlockLeft(_, _, _) => Unlocks(c, s, t, e);
    case UnlockRight(_, _) => Unlocks(c, s, t, e);
    case ClearLinks(_) => Unlocks(c, s, t, e);
  }

  lemma UnlinkKnows<K, V>(c: Config<K, V>, s: State<K, V>, t: nat, n: int, p: int, x: int)
    requires WellFormed(c, s) && Knows(c, s, Unlink(n, p, x)) && Cell(s.lruFlag, n, false)
    ensures Knows(c, Unlinked(s, Lru, n, p, x, t), UnlockLeft(n, p, x))
  {
  }

  /** Threads in listInsertBefore know nothing about removing and inserting. */
  lemma JustAppending<K, V>(c: Config<K, V>, s: State<K, V>, pc: Pc<K>)
    requires Appending(pc) || pc.Idle?
    ensures KnowsRemoving(c, s, pc) && KnowsInserting(c, s, pc)
  {
  }

  /** Reading and locking the last node and the tail. */
  lemma LocksLast<K(!new), V>(c: Config<K, V>, s: State<K, V>, t: nat)
    requires Inv(c, s) && WellFormed(c, s) && t < |s.threads|
    requires s.threads[t].LoadLast? || s.threads[t].LockLast? || s.threads[t].CheckLast? || s.threads[t].LockTail?
    ensures Inv(c, AppendStep(c, s, t))
  {
    hide Inv, Delivered, Carries, KnowsRemoving, KnowsInserting;
    Log(c, s, t);
    var tail := TailOf(c.capacity, Lru);
    match s.threads[t]
    case LoadLast(n, why) =>
      PrevOf(c, s, Lru, tail);
      OwnNode(c, s, t, n);
      JustAppending(c, s, LockLast(n, Cell(s.prev, tail, NULL), why));
      GoKeeps(c, s, t, LockLast(n, Cell(s.prev, tail, NULL), why), s.log);
    case LockLast(n, p, why) =>
      if p != HeadOf(c.capacity, Lru) && Cell(s.lock, p, 0) == NULL { FreeIsLive(c, s, p); }
      JustAppending(c, s, CheckLast(n, p, why));
      TakeKeeps(c, s, t, p, CheckLast(n, p, why));
    case CheckLast(n, p, why) =>
      JustAppending(c, s, AppendStep(c, s, t).threads[t]);
      GoKeeps(c, s, t, AppendStep(c, s, t).threads[t], s.log);
    case LockTail(n, p, why) =>
      JustAppending(c, s, Append(n, p, why));
      TakeKeeps(c, s, t, tail, Append(n, p, why));
  }

  lemma UnlocksLast<K(!new), V>(c: Config<K, V>, s: State<K, V>, t: nat)
    requires Inv(c, s) && WellFormed(c, s) && t < |s.threads|
    requires s.threads[t].DropLast? || s.threads[t].UnlockLast? || s.threads[t].Leave?
    ensures Inv(c, AppendStep(c, s, t))
  {
    hide Inv, Delivered, Carries, KnowsRemoving, KnowsInserting;
    Log(c, s, t);
    match s.threads[t]
    case DropLast(n, p, why) =>
      JustAppending(c, s, LoadLast(n, why));
      ReleaseKeeps(c, s, t, p, LoadLast(n, why));
    case UnlockLast(n, p, why) =>
      JustAppending(c, s, UnlockTail(n, why));
      ReleaseKeeps(c, s, t, p, UnlockTail(n, why));
    case Leave(n) =>
      JustAppending(c, s, Idle);
      ReleaseKeeps(c, s, t, n, Idle);
  }

  lemma AppendingKeeps<K(!new), V>(c: Config<K, V>, s: State<K, V>, t: nat)
    requires Inv(c, s) && WellFormed(c, s) && t < |s.threads| && Appending(s.threads[t])
    ensures Inv(c, AppendStep(c, s, t))
  {
    hide Inv, AppendStep;
    match s.threads[t]
    case LoadLast(_, _) => LocksLast(c, s, t);
    case LockLast(_, _, _) => LocksLast(c, s, t);
    case CheckLast(_, _, _) => LocksLast(c, s, t);
    case LockTail(_, _, _) => LocksLast(c, s, t);
    case DropLast(_, _, _) => UnlocksLast(c, s, t);
    case Append(n, p, why) => Appends(c, s, t, n, p, why);
    case UnlockLast(_, _, _) => UnlocksLast(c, s, t);
    case UnlockTail(n, why) => LeavesTail(c, s, t, n, why);
    case Leave(_) => UnlocksLast(c, s, t);
  }

  lemma LeavesTail<K(!new), V>(c: Config<K, V>, s: State<K, V>, t: nat, n: int, why: Why<K>)
    requires Inv(c, s) && WellFormed(c, s) && t < |s.threads| && s.threads[t] == UnlockTail(n, why)
    ensures Inv(c, AppendStep(c, s, t))
  {
    hide Inv, Delivered;
    Log(c, s, t);
    ReleaseKeeps(c, s, t, TailOf(c.capacity, Lru), if why.Move? then Leave(n) else File(why.k, n));
  }

  lemma Appends<K(!new), V>(c: Config<K, V>, s: State<K, V>, t: nat, n: int, p: int, why: Why<K>)
    requires Inv(c, s) && WellFormed(c, s) && t < |s.threads| && s.threads[t] == Append(n, p, why)
    ensures Inv(c, AppendStep(c, s, t))
  {
    hide Inv, Delivered;
    Log(c, s, t);
    NextOf(c, s, Lru, p);
    OwnNode(c, s, t, n);
    AppendKeeps(c, s, t, n, p, UnlockLast(n, p, why));
  }

  // ---------- evicting and inserting ----------

  lemma LocksHead<K(!new), V>(c: Config<K, V>, s: State<K, V>, t: nat, e: Choice<K>)
    requires Inv(c, s) && WellFormed(c, s) && t < |s.threads| && (s.threads[t].LockHead? || s.threads[t].LeaveEmpty?)
    ensures Inv(c, InsertStep(c, s, t, e))
  {
    hide Inv, Delivered, KnowsRemoving, KnowsAppending;
    Log(c, s, t);
    match s.threads[t]
    case LockHead(k, w) =>
      JustInserting(c, s, LockFirst(k, w));
      TakeKeeps(c, s, t, HeadOf(c.capacity, w), LockFirst(k, w));
    case LeaveEmpty(k, w) =>
      var v := if w == Pool then Lru else Pool;
      JustInserting(c, s, LockHead(k, v));
      ReleaseKeeps(c, s, t, HeadOf(c.capacity, w), LockHead(k, v));
  }

  /** Locking the first node of a list, if there is one. */
  lemma LocksFirst<K(!new), V>(c: Config<K, V>, s: State<K, V>, t: nat, k: K, w: List, e: Choice<K>)
    requires Inv(c, s) && WellFormed(c, s) && t < |s.threads| && s.threads[t] == LockFirst(k, w)
    ensures Inv(c, InsertStep(c, s, t, e))
  {
    hide Inv, Delivered, KnowsRemoving, KnowsAppending;
    Log(c, s, t);
    var n := Cell(s.next, HeadOf(c.capacity, w), NULL);
    NextOf(c, s, w, HeadOf(c.capacity, w));
    if n == TailOf(c.capacity, w) {
      JustInserting(c, s, LeaveEmpty(k, w));
      GoKeeps(c, s, t, LeaveEmpty(k, w), s.log);
    } else {
      if Cell(s.lock, n, 0) == NULL { FirstIn(c, s, w, n); }
      JustInserting(c, s, LockSecond(k, w, n));
      TakeKeeps(c, s, t, n, LockSecond(k, w, n));
    }
  }

  lemma LocksSecond<K(!new), V>(c: Config<K, V>, s: State<K, V>, t: nat, k: K, w: List, n: int, e: Choice<K>)
    requires Inv(c, s) && WellFormed(c, s) && t < |s.threads| && s.threads[t] == LockSecond(k, w, n)
    ensures Inv(c, InsertStep(c, s, t, e))
  {
    hide Inv, Delivered, KnowsRemoving, KnowsAppending;
    Log(c, s, t);
    var x := Cell(s.next, n, NULL);
    InBounds(c, s, w, n);
    NextOf(c, s, w, n);
    if x != TailOf(c.capacity, w) && Cell(s.lock, x, 0) == NULL { FirstIn(c, s, w, x); }
    JustInserting(c, s, Detach(k, w, n, x));
    TakeKeeps(c, s, t, x, Detach(k, w, n, x));
  }

  lemma JustInserting<K, V>(c: Config<K, V>, s: State<K, V>, pc: Pc<K>)
    requires !Removing(pc) && !Appending(pc) && !Finding(pc) && !pc.File?
    ensures KnowsRemoving(c, s, pc) && KnowsAppending(c, s, pc)
  {
  }

  /** An unlocked node of list w. */
  lemma FirstIn<K, V>(c: Config<K, V>, s: State<K, V>, w: List, n: int)
    requires Inv(c, s) && 0 <= n < c.capacity && PlaceAt(s.place, n) == Where(w) && Cell(s.lock, n, 0) == NULL
    ensures In(s, w, n)
  {
    hide ListsOk, LockOk, DetachOk, Buckets, Delivered, Knows;
  }

  lemma Detaching<K(!new), V>(c: Config<K, V>, s: State<K, V>, t: nat, k: K, w: List, n: int, x: int, e: Choice<K>)
    requires Inv(c, s) && WellFormed(c, s) && t < |s.threads| && s.threads[t] == Detach(k, w, n, x)
    ensures Inv(c, InsertStep(c, s, t, e))
  {
    hide Inv, Delivered, KnowsRemoving, KnowsAppending;
    Log(c, s, t);
    var head := HeadOf(c.capacity, w);
    InBounds(c, s, w, n);
    NextOf(c, s, w, head);
    var pc := UnlockHead(k, w, n, x);
    JustInserting(c, Unlinked(s, w, n, head, x, t), pc);
    UnlinkKeeps(c, s, t, w, n, head, x, pc);
  }

  lemma InBounds<K, V>(c: Config<K, V>, s: State<K, V>, w: List, n: int)
    requires Inv(c, s) && In(s, w, n)
    ensures 0 <= n < c.capacity && PlaceAt(s.place, n) == Where(w)
  {
    hide ListsOk, LockOk, DetachOk, Buckets, Delivered, Knows;
  }

  /** Unlocking the neighbours of the node just taken out of its list. */
  lemma UnlocksFirst<K(!new), V>(c: Config<K, V>, s: State<K, V>, t: nat, e: Choice<K>)
    requires Inv(c, s) && WellFormed(c, s) && t < |s.threads| && (s.threads[t].UnlockHead? || s.threads[t].UnlockSecond?)
    ensures Inv(c, InsertStep(c, s, t, e))
  {
    hide Inv, Delivered, KnowsRemoving, KnowsAppending, Unlinked, Cleared, Filled;
    Log(c, s, t);
    match s.threads[t]
    case UnlockHead(k, w, n, x) =>
      OwnNode(c, s, t, n);
      JustInserting(c, s, UnlockSecond(k, w, n, x));
      ReleaseKeeps(c, s, t, HeadOf(c.capacity, w), UnlockSecond(k, w, n, x));
    case UnlockSecond(k, w, n, x) =>
      JustInserting(c, s, ClearFirst(k, w, n));
      ReleaseKeeps(c, s, t, x, ClearFirst(k, w, n));
  }

  lemma Evicts<K(!new), V>(c: Config<K, V>, s: State<K, V>, t: nat, e: Choice<K>)
    requires Inv(c, s) && WellFormed(c, s) && t < |s.threads| && (s.threads[t].ClearFirst? || s.threads[t].AwaitFiled?)
    ensures Inv(c, InsertStep(c, s, t, e))
  {
    hide Inv, Delivered, KnowsRemoving, KnowsAppending, Unlinked, Filled;
    Log(c, s, t);
    match s.threads[t]
    case ClearFirst(k, w, n) =>
      var pc := if w == Pool then Fill(k, n) else Unflag(k, n);
      JustInserting(c, Cleared(s, n), pc);
      ClearKeeps(c, s, t, n, pc);
    case AwaitFiled(k, n) =>
      JustInserting(c, s, Unfile(k, n));
      GoKeeps(c, s, t, Unfile(k, n), s.log);
  }

  lemma InsertKeeps<K(!new), V>(c: Config<K, V>, s: State<K, V>, t: nat, e: Choice<K>)
    requires Inv(c, s) && WellFormed(c, s) && t < |s.threads|
    requires !Finding(s.threads[t]) && !Removing(s.threads[t]) && !Appending(s.threads[t])
    ensures Inv(c, InsertStep(c, s, t, e))
  {
    hide Inv, HasLock, Detaches;
    match s.threads[t]
    case LockHead(_, _) => LocksHead(c, s, t, e);
    case LockFirst(k, w) => LocksFirst(c, s, t, k, w, e);
    case LeaveEmpty(_, _) => LocksHead(c, s, t, e);
    case LockSecond(k, w, n) => LocksSecond(c, s, t, k, w, n, e);
    case Detach(k, w, n, x) => Detaching(c, s, t, k, w, n, x, e);
    case UnlockHead(_, _, _, _) => UnlocksFirst(c, s, t, e);
    case UnlockSecond(_, _, _, _) => UnlocksFirst(c, s, t, e);
    case ClearFirst(_, _, _) => Evicts(c, s, t, e);
    case Unflag(k, n) => UnflagKeeps(c, s, t, k, n);
    case AwaitFiled(_, _) => Evicts(c, s, t, e);
    case Unfile(k, n) => UnfileKeeps(c, s, t, k, n);
    case Fill(k, n) => FillKeeps(c, s, t, k, n);
    case File(k, n) => FileKeeps(c, s, t, k, n);
  }

  lemma StepKeeps<K(!new), V>(c: Config<K, V>, s: State<K, V>, e: Choice<K>)
    requires Inv(c, s)
    ensures Inv(c, Step(c, s, e))
  {
    hide Inv, FindStep, RemoveStep, AppendStep, InsertStep;
    if WellFormed(c, s) && e.thread < |s.threads| {
      var pc := s.threads[e.thread];
      if Finding(pc) { FindKeeps(c, s, e.thread, e); }
      else if Removing(pc) { RemoveKeeps(c, s, e.thread, e); }
      else if Appending(pc) { AppendingKeeps(c, s, e.thread); }
      else { InsertKeeps(c, s, e.thread, e); }
    }
  }

  /** A cache that was just allocated: every node is in the pool, every thread is idle. */
  ghost predicate Initial<K, V>(c: Config<K, V>, s: State<K, V>) {
    && WellFormed(c, s) && s.lru == [] && s.log == []
    && ListsOk(c.capacity, s.next, s.prev, s.lru, s.pool, s.place)
    && (forall x :: 0 <= x < c.capacity ==> s.place[x] == InPool && !s.lruFlag[x] && !s.htFlag[x])
    && (forall x :: 0 <= x < c.capacity + 4 ==> s.lock[x] == NULL)
    && (forall b :: 0 <= b < c.buckets ==> s.chains[b] == [])
    && (forall t :: 0 <= t < |s.threads| ==> s.threads[t] == Idle)
  }

  /** The state after the allocation of the memory, with n idle threads; `key` and `value` are what unused nodes hold. */
  function Start<K, V>(c: Config<K, V>, n: nat, key: K, value: V): State<K, V> {
    var cap := c.capacity;
    State(
      seq(cap + 4, i => if i < cap - 1 then i + 1 else if i == cap - 1 then TailOf(cap, Pool)
                        else if i == HeadOf(cap, Lru) then TailOf(cap, Lru) else if i == HeadOf(cap, Pool) then 0 else NULL),
      seq(cap + 4, i => if i == 0 then HeadOf(cap, Pool) else if i < cap then i - 1
                        else if i == TailOf(cap, Lru) then HeadOf(cap, Lru) else if i == TailOf(cap, Pool) then cap - 1 else NULL),
      seq(cap + 4, i => NULL), seq(cap, i => false), seq(cap, i => false), seq(cap, i => key), seq(cap, i => value),
      seq(c.buckets, i => []), seq(n, i => Idle), [], Iota(cap), seq(cap, i => InPool), [])
  }

  lemma StartIsInitial<K, V>(c: Config<K, V>, n: nat, key: K, value: V)
    requires c.capacity > 0 && c.buckets > 0
    ensures Initial(c, Start(c, n, key, value))
  {
    var s := Start(c, n, key, value);
    var pool, lru := Path(c.capacity, s.pool, Pool), Path(c.capacity, s.lru, Lru);
    IotaIsAll(c.capacity);
    assert lru == [HeadOf(c.capacity, Lru), TailOf(c.capacity, Lru)];
    forall i | 0 <= i < |pool| - 1 ensures s.next[pool[i]] == pool[i + 1] && s.prev[pool[i + 1]] == pool[i] {
      assert i > 0 ==> pool[i] == i - 1;
      assert i + 1 < |pool| - 1 ==> pool[i + 1] == i;
    }
  }

  lemma InitialKeeps<K, V>(c: Config<K, V>, s: State<K, V>)
    requires Initial(c, s)
    ensures Inv(c, s)
  {
    hide ListsOk;
  }

  /** The invariant holds in every interleaving of any number of threads. */
  lemma {:induction false} Reachable<K(!new), V>(c: Config<K, V>, s: State<K, V>, schedule: seq<Choice<K>>)
    requires Initial(c, s)
    ensures Inv(c, Run(c, s, schedule))
    decreases |schedule|
  {
    hide Inv, Step;
    if schedule == [] {
      InitialKeeps(c, s);
    } else {
      Reachable(c, s, schedule[..|schedule| - 1]);
      StepKeeps(c, Run(c, s, schedule[..|schedule| - 1]), schedule[|schedule| - 1]);
    }
  }

  // ---------- what follows ----------

  /** The assertions in the code hold. In lruRemoveNode the node has its LRU flag and a predecessor; in
      listInsertBefore there is a last node, and once it and the tail are locked they are neighbours; htRemove finds
      its node, so that the flag is clear afterwards. */
  ghost predicate Asserted<K, V>(c: Config<K, V>, s: State<K, V>, pc: Pc<K>) {
    var tail := TailOf(c.capacity, Lru);
    && (pc.TryPrev? || pc.LockNext? ==>
          Cell(s.lruFlag, pc.n, false) && Cell(s.prev, pc.n, NULL) != NULL && Cell(s.next, pc.n, NULL) != NULL)
    && (pc.LoadLast? ==> Cell(s.prev, tail, NULL) != NULL)
    && (pc.Append? ==> Cell(s.next, pc.p, NULL) == tail && Cell(s.prev, tail, NULL) == pc.p)
    && (pc.Unfile? ==> 0 <= pc.n < |s.key| && |s.chains| == c.buckets > 0 && pc.n in s.chains[BucketOf(c, s.key[pc.n])])
  }

  lemma AssertionsHold<K(!new), V>(c: Config<K, V>, s: State<K, V>, t: nat)
    requires Inv(c, s) && t < |s.threads|
    ensures Asserted(c, s, s.threads[t])
  {
    hide Inv, Delivered, Carries;
    Log(c, s, t);
    match s.threads[t]
    case TryPrev(n) => LiveValue(c, s, n); PrevOf(c, s, Lru, n); NextOf(c, s, Lru, n);
    case LockNext(n, p) => LiveValue(c, s, n); PrevOf(c, s, Lru, n); NextOf(c, s, Lru, n);
    case LoadLast(n, why) => PrevOf(c, s, Lru, TailOf(c.capacity, Lru));
    case Append(n, p, why) => NextOf(c, s, Lru, p);
    case Unfile(k, n) => UnfileKeeps(c, s, t, k, n);
    case _ =>
  }

  /** Three different cells that follow each other, all locked by thread t. */
  ghost predicate HeldInRow<K, V>(s: State<K, V>, t: int, p: int, n: int, x: int) {
    && p != n && n != x && p != x
    && Cell(s.next, p, NULL) == n && Cell(s.prev, n, NULL) == p && Cell(s.next, n, NULL) == x && Cell(s.prev, x, NULL) == n
    && Cell(s.lock, p, NULL) == t && Cell(s.lock, n, NULL) == t && Cell(s.lock, x, NULL) == t
  }

  /** Every unlinking takes a node from between its two true neighbours, and every insertion puts a node between the
      true last node and the tail, holding all three locks, in spite of the unlocked reads and the back-off before. */
  ghost predicate Adjacent<K, V>(c: Config<K, V>, s: State<K, V>, t: int) {
    0 <= t < |s.threads| ==>
      var pc := s.threads[t];
      && (pc.Unlink? ==> HeldInRow(s, t, pc.p, pc.n, pc.x))
      && (pc.Detach? ==> HeldInRow(s, t, HeadOf(c.capacity, pc.w), pc.n, pc.x))
      && (pc.Append? ==>
            var tail := TailOf(c.capacity, Lru);
            && pc.p != pc.n && Cell(s.next, pc.p, NULL) == tail && Cell(s.prev, tail, NULL) == pc.p
            && Cell(s.lock, pc.p, NULL) == t && Cell(s.lock, pc.n, NULL) == t && Cell(s.lock, tail, NULL) == t)
  }

  lemma SplicesAdjacent<K(!new), V>(c: Config<K, V>, s: State<K, V>, t: int)
    requires Inv(c, s)
    ensures Adjacent(c, s, t)
  {
    hide ListsOk, DetachOk, Buckets, FlagsOk, Delivered, Carries;
    if 0 <= t < |s.threads| && (s.threads[t].Unlink? || s.threads[t].Detach?) {
      Log(c, s, t);
      var pc := s.threads[t];
      var p := if pc.Unlink? then pc.p else HeadOf(c.capacity, pc.w);
      var w := if pc.Unlink? then Lru else pc.w;
      if pc.Detach? { InBounds(c, s, w, pc.n); } else { LiveValue(c, s, pc.n); }
      NextOf(c, s, w, p);
      NextOf(c, s, w, pc.n);
      assert HasLock(c.capacity, pc, p) && HasLock(c.capacity, pc, pc.n) && HasLock(c.capacity, pc, pc.x);
    } else if 0 <= t < |s.threads| && s.threads[t].Append? {
      Log(c, s, t);
      var pc := s.threads[t];
      NextOf(c, s, Lru, pc.p);
      assert HasLock(c.capacity, pc, pc.p) && HasLock(c.capacity, pc, pc.n) && HasLock(c.capacity, pc, TailOf(c.capacity, Lru));
    }
  }

  /** A node that is not locked: its LRU flag, its hash flag, its being in the LRU list and its being in the bucket of
      its key all coincide; otherwise it is in the pool. */
  ghost predicate Coincide<K, V>(c: Config<K, V>, s: State<K, V>, x: int) {
    0 <= x < c.capacity && Cell(s.lock, x, 0) == NULL ==>
      && |s.key| == |s.lruFlag| == |s.htFlag| == c.capacity && |s.chains| == c.buckets > 0
      && (s.lruFlag[x] <==> x in s.lru) && (s.htFlag[x] <==> x in s.lru)
      && (x in s.chains[BucketOf(c, s.key[x])] <==> x in s.lru) && (x in s.pool <==> x !in s.lru)
      && (forall b :: 0 <= b < c.buckets && x in s.chains[b] ==> b == BucketOf(c, s.key[x]))
  }

  lemma FlagsCoincide<K, V>(c: Config<K, V>, s: State<K, V>, x: int)
    requires Inv(c, s)
    ensures Coincide(c, s, x)
  {
    hide Delivered, Knows;
    var p := PlaceAt(s.place, x);
    if p.Detached? { DetachedIsLocked(c.capacity, s.threads[p.thread], x); }
  }

  /** The search of a find succeeds exactly when some node with the key is in a bucket at that moment. */
  lemma SearchIsExact<K(!new), V>(c: Config<K, V>, s: State<K, V>, e: Choice<K>, k: K)
    requires Inv(c, s) && e.thread < |s.threads| && s.threads[e.thread] == Search(k)
    ensures |s.key| == |s.htFlag| == c.capacity && |Step(c, s, e).threads| == |s.threads|
    ensures Step(c, s, e).threads[e.thread] == Produce(k) <==> forall x :: 0 <= x < c.capacity && s.htFlag[x] ==> s.key[x] != k
  {
    hide ListsOk, LockOk, DetachOk, FlagsOk, Delivered, Knows;
    var chain := s.chains[BucketOf(c, k)];
    SeekFinds(chain, s.key, k);
    SeekNull(chain, s.key, k);
    if Seek(chain, s.key, k) < 0 { SeekMisses(chain, s.key, k); }
  }

  ghost predicate OnlyDetacher<K>(threads: seq<Pc<K>>, t: int, x: int) {
    0 <= t < |threads| && Detaches(threads[t], x) && forall u :: 0 <= u < |threads| && Detaches(threads[u], x) ==> u == t
  }

  /** Every node is in the pool, in the LRU list, or detached by exactly one thread, which holds its lock. */
  ghost predicate OwnedOnce<K, V>(c: Config<K, V>, s: State<K, V>, x: int) {
    0 <= x < c.capacity ==>
      && (x in s.lru ==> x !in s.pool)
      && (x in s.lru || x in s.pool ==> forall t :: 0 <= t < |s.threads| ==> !Detaches(s.threads[t], x))
      && (x !in s.lru && x !in s.pool ==> OnlyDetacher(s.threads, Cell(s.lock, x, NULL), x))
  }

  lemma Ownership<K, V>(c: Config<K, V>, s: State<K, V>, x: int)
    requires Inv(c, s)
    ensures OwnedOnce(c, s, x)
  {
    hide Buckets, FlagsOk, Delivered, Knows;
    var p := PlaceAt(s.place, x);
    if p.Detached? { DetachedIsLocked(c.capacity, s.threads[p.thread], x); }
  }

  /** The cell that a thread is about to lock, NULL if it is not locking. */
  function Wants<K, V>(c: Config<K, V>, s: State<K, V>, pc: Pc<K>): int {
    match pc
    case LockFound(_, n) => n
    case TryPrev(n) => Cell(s.prev, n, NULL)
    case WaitPrev(_, p) => p
    case Relock(n, _) => n
    case RelockAlone(n) => n
    case LockNext(n, _) => Cell(s.next, n, NULL)
    case LockLast(_, p, _) => p
    case LockTail(_, _, _) => TailOf(c.capacity, Lru)
    case LockHead(_, w) => HeadOf(c.capacity, w)
    case LockFirst(_, w) =>
      var n := Cell(s.next, HeadOf(c.capacity, w), NULL);
      if n == TailOf(c.capacity, w) then NULL else n
    case LockSecond(_, _, n) => Cell(s.next, n, NULL)
    case _ => NULL
  }

  /** No thread ever waits for a lock that it holds itself. */
  ghost predicate NotSelfLocked<K, V>(c: Config<K, V>, s: State<K, V>, pc: Pc<K>) {
    Wants(c, s, pc) != NULL ==> 0 <= Wants(c, s, pc) < c.capacity + 4 && !HasLock(c.capacity, pc, Wants(c, s, pc))
  }

  lemma NoSelfLock<K, V>(c: Config<K, V>, s: State<K, V>, t: nat)
    requires Inv(c, s) && t < |s.threads|
    ensures NotSelfLocked(c, s, s.threads[t])
  {
    hide Inv, Delivered, Carries;
    Log(c, s, t);
    match s.threads[t]
    case TryPrev(n) => PrevOf(c, s, Lru, n);
    case LockNext(n, p) => NextOf(c, s, Lru, n); NextOf(c, s, Lru, p); Around(c, s, n);
    case LockFirst(k, w) => NextOf(c, s, w, HeadOf(c.capacity, w));
    case LockSecond(k, w, n) => InBounds(c, s, w, n); NextOf(c, s, w, n);
    case LockLast(n, p, why) => OwnNode(c, s, t, n);
    case LockTail(n, p, why) => OwnNode(c, s, t, n);
    case _ =>
  }

  /** What a step may do to the LRU order: a find takes its node out, an eviction takes the first node and no other, an
      append puts a node at the end. */
  ghost predicate OrderStep<K>(pc: Pc<K>, before: seq<int>, after: seq<int>) {
    || after == before
    || (pc.Unlink? && pc.n in before && after == Without(before, {pc.n}))
    || (pc.Detach? && pc.w == Lru && before != [] && pc.n == before[0] && after == before[1..])
    || (pc.Append? && pc.n !in before && after == before + [pc.n])
  }

  /** Whatever the threads do, an eviction takes the first node, which has been in the list longest since it was last
      appended, and nothing else changes the order of the nodes that stay. */
  lemma EvictsOldest<K(!new), V>(c: Config<K, V>, s: State<K, V>, e: Choice<K>)
    requires Inv(c, s) && e.thread < |s.threads|
    ensures OrderStep(s.threads[e.thread], s.lru, Step(c, s, e).lru)
  {
    hide Inv, Delivered, Carries, KnowsAppending;
    Log(c, s, e.thread);
    match s.threads[e.thread]
    case Unlink(n, p, x) =>
      LiveValue(c, s, n);
      Listed(c, s, n);
    case Append(n, p, why) =>
      OwnNode(c, s, e.thread, n);
      Listed(c, s, n);
    case Detach(k, w, n, x) =>
      if w == Lru { FirstOfList(c, s, n); }
    case _ =>
  }

  lemma Listed<K, V>(c: Config<K, V>, s: State<K, V>, n: int)
    requires Inv(c, s) && 0 <= n < c.capacity
    ensures n in s.lru <==> PlaceAt(s.place, n) == InLru
  {
    hide LockOk, DetachOk, Buckets, FlagsOk, Delivered, Knows;
  }

  lemma FirstOfList<K(!new), V>(c: Config<K, V>, s: State<K, V>, n: int)
    requires Inv(c, s) && Next(s, HeadOf(c.capacity, Lru), n) && 0 <= n < c.capacity
    ensures s.lru != [] && n == s.lru[0] && Without(s.lru, {n}) == s.lru[1..]
  {
    hide LockOk, DetachOk, Buckets, FlagsOk, Delivered, Knows;
    var path := Path(c.capacity, s.lru, Lru);
    PathDistinct(c.capacity, s.next, s.prev, s.lru, Lru);
    assert s.next[path[0]] == path[0 + 1];
    if s.lru != [] {
      WithoutIsDrop(s.lru, 0);
      assert Links.Drop(s.lru, 0) == s.lru[1..];
    }
  }

  /** The assertions in the code hold, splices act on truly adjacent locked nodes, flags and memberships of unlocked nodes
      coincide, every node has exactly one owner, no thread waits for itself, filed nodes are in the bucket that the hash of
      their key selects, and every value delivered for a key is the value of that key. */
  ghost predicate Safe<K, V>(c: Config<K, V>, s: State<K, V>) {
    && (forall t :: 0 <= t < |s.threads| ==> Asserted(c, s, s.threads[t]) && NotSelfLocked(c, s, s.threads[t]))
    && (forall t :: Adjacent(c, s, t)) && (forall x :: Coincide(c, s, x)) && (forall x :: OwnedOnce(c, s, x))
    && InHashBuckets(c, s)
    && (forall i :: 0 <= i < |s.log| ==> s.log[i].1 == c.f(s.log[i].0))
  }

  ghost predicate InHashBuckets<K, V>(c: Config<K, V>, s: State<K, V>) {
    |s.chains| == c.buckets && forall x :: 0 <= x < |s.htFlag| && s.htFlag[x] ==>
      x < |s.key| && c.buckets > 0 && x in s.chains[c.hash(s.key[x]) % c.buckets]
  }

  lemma FiledWhere<K, V>(c: Config<K, V>, s: State<K, V>)
    requires Inv(c, s)
    ensures InHashBuckets(c, s)
  {
    hide ListsOk, LockOk, DetachOk, FlagsOk, Delivered, Knows;
  }

  /** All of this holds in every interleaving of any number of threads running memoized accesses on a new cache, in spite of
      evictions, reused nodes and duplicate insertions. */
  lemma SafeRun<K(!new), V>(c: Config<K, V>, n: nat, key: K, value: V, schedule: seq<Choice<K>>)
    requires c.capacity > 0 && c.buckets > 0
    ensures Safe(c, Run(c, Start(c, n, key, value), schedule))
  {
    hide Inv, Start, Asserted, NotSelfLocked, Adjacent, Coincide, OwnedOnce, InHashBuckets;
    StartIsInitial(c, n, key, value);
    Reachable(c, Start(c, n, key, value), schedule);
    var s := Run(c, Start(c, n, key, value), schedule);
    forall t | 0 <= t < |s.threads| ensures Asserted(c, s, s.threads[t]) && NotSelfLocked(c, s, s.threads[t]) {
      AssertionsHold(c, s, t);
      NoSelfLock(c, s, t);
    }
    forall t ensures Adjacent(c, s, t) { SplicesAdjacent(c, s, t); }
    forall x ensures Coincide(c, s, x) && OwnedOnce(c, s, x) { FlagsCoincide(c, s, x); Ownership(c, s, x); }
    FiledWhere(c, s);
    AllDelivered(c, s);
  }

  lemma AllDelivered<K, V>(c: Config<K, V>, s: State<K, V>)
    requires Inv(c, s)
    ensures Delivered(c, s.log)
  {
    hide ListsOk, LockOk, DetachOk, Buckets, FlagsOk, Delivered, Knows;
  }

  // ---------- links under a lock are stable ----------

  /** No step of another thread changes a cell whose lock one holds, or takes that lock away. */
  lemma StepLeaves<K(!new), V>(c: Config<K, V>, s: State<K, V>, e: Choice<K>, x: int)
    requires Inv(c, s) && 0 <= x < c.capacity + 4 && s.lock[x] != NULL && s.lock[x] != e.thread
    ensures WellFormed(c, Step(c, s, e))
    ensures Step(c, s, e).next[x] == s.next[x] && Step(c, s, e).prev[x] == s.prev[x]
    ensures Step(c, s, e).lock[x] == s.lock[x]
  {
    hide ListsOk, DetachOk, Buckets, FlagsOk, Delivered, Knows, Carries;
    StepKeeps(c, s, e);
    if e.thread < |s.threads| {
      var t := e.thread;
      var pc := s.threads[t];
      assert forall y :: HasLock(c.capacity, pc, y) ==> 0 <= y < c.capacity + 4 && s.lock[y] == t;
      if Finding(pc) { FindLeaves(c, s, t, e, x); }
      else if Removing(pc) { RemoveLeaves(c, s, t, e, x); }
      else if Appending(pc) { AppendLeaves(c, s, t, x); }
      else { InsertLeaves(c, s, t, e, x); }
    }
  }

  lemma FindLeaves<K(!new), V>(c: Config<K, V>, s: State<K, V>, t: nat, e: Choice<K>, x: int)
    requires WellFormed(c, s) && t < |s.threads| && 0 <= x < c.capacity + 4 && s.lock[x] != NULL && s.lock[x] != t
    requires forall y :: HasLock(c.capacity, s.threads[t], y) ==> 0 <= y < c.capacity + 4 && s.lock[y] == t
    ensures var s' := FindStep(c, s, t, e);
      s'.next == s.next && s'.prev == s.prev && |s'.lock| == |s.lock| && s'.lock[x] == s.lock[x]
  {
    match s.threads[t]
    case DropFound(k, n) => assert HasLock(c.capacity, s.threads[t], n);
    case _ =>
  }

  lemma RemoveLeaves<K(!new), V>(c: Config<K, V>, s: State<K, V>, t: nat, e: Choice<K>, x: int)
    requires WellFormed(c, s) && t < |s.threads| && 0 <= x < c.capacity + 4 && s.lock[x] != NULL && s.lock[x] != t
    requires forall y :: HasLock(c.capacity, s.threads[t], y) ==> 0 <= y < c.capacity + 4 && s.lock[y] == t
    ensures var s' := RemoveStep(c, s, t, e);
      |s'.next| == |s.next| && |s'.prev| == |s.prev| && |s'.lock| == |s.lock|
      && s'.next[x] == s.next[x] && s'.prev[x] == s.prev[x] && s'.lock[x] == s.lock[x]
  {
    var pc := s.threads[t];
    if pc.BackOff? || pc.DropBoth? || pc.DropPrev? || pc.UnlockLeft? || pc.UnlockRight? || pc.Unlink? || pc.ClearLinks? {
      RemoveWrites(c, s, t, e, x);
    } else {
      hide HasLock;
    }
  }

  lemma RemoveWrites<K(!new), V>(c: Config<K, V>, s: State<K, V>, t: nat, e: Choice<K>, x: int)
    requires WellFormed(c, s) && t < |s.threads| && 0 <= x < c.capacity + 4 && s.lock[x] != NULL && s.lock[x] != t
    requires s.threads[t].BackOff? || s.threads[t].DropBoth? || s.threads[t].DropPrev? || s.threads[t].UnlockLeft?
             || s.threads[t].UnlockRight? || s.threads[t].Unlink? || s.threads[t].ClearLinks?
    requires forall y :: HasLock(c.capacity, s.threads[t], y) ==> 0 <= y < c.capacity + 4 && s.lock[y] == t
    ensures var s' := RemoveStep(c, s, t, e);
      |s'.next| == |s.next| && |s'.prev| == |s.prev| && |s'.lock| == |s.lock|
      && s'.next[x] == s.next[x] && s'.prev[x] == s.prev[x] && s'.lock[x] == s.lock[x]
  {
    var pc := s.threads[t];
    match pc
    case BackOff(n, p) => assert HasLock(c.capacity, pc, n);
    case DropBoth(n, p) => assert HasLock(c.capacity, pc, p);
    case DropPrev(n, p) => assert HasLock(c.capacity, pc, p);
    case Unlink(n, p, y) => assert HasLock(c.capacity, pc, p) && HasLock(c.capacity, pc, y);
    case UnlockLeft(n, p, y) => assert HasLock(c.capacity, pc, p);
    case UnlockRight(n, y) => assert HasLock(c.capacity, pc, y);
    case ClearLinks(n) => assert HasLock(c.capacity, pc, n);
  }

  lemma AppendLeaves<K(!new), V>(c: Config<K, V>, s: State<K, V>, t: nat, x: int)
    requires WellFormed(c, s) && t < |s.threads| && 0 <= x < c.capacity + 4 && s.lock[x] != NULL && s.lock[x] != t
    requires forall y :: HasLock(c.capacity, s.threads[t], y) ==> 0 <= y < c.capacity + 4 && s.lock[y] == t
    ensures var s' := AppendStep(c, s, t);
      |s'.next| == |s.next| && |s'.prev| == |s.prev| && |s'.lock| == |s.lock|
      && s'.next[x] == s.next[x] && s'.prev[x] == s.prev[x] && s'.lock[x] == s.lock[x]
  {
    var pc, tail := s.threads[t], TailOf(c.capacity, Lru);
    match pc
    case DropLast(n, p, why) => assert HasLock(c.capacity, pc, p);
    case Append(n, p, why) => assert HasLock(c.capacity, pc, p) && HasLock(c.capacity, pc, n) && HasLock(c.capacity, pc, tail);
    case UnlockLast(n, p, why) => assert HasLock(c.capacity, pc, p);
    case UnlockTail(n, why) => assert HasLock(c.capacity, pc, tail);
    case Leave(n) => assert HasLock(c.capacity, pc, n);
    case _ =>
  }

  lemma InsertLeaves<K(!new), V>(c: Config<K, V>, s: State<K, V>, t: nat, e: Choice<K>, x: int)
    requires WellFormed(c, s) && t < |s.threads| && 0 <= x < c.capacity + 4 && s.lock[x] != NULL && s.lock[x] != t
    requires forall y :: HasLock(c.capacity, s.threads[t], y) ==> 0 <= y < c.capacity + 4 && s.lock[y] == t
    ensures var s' := InsertStep(c, s, t, e);
      |s'.next| == |s.next| && |s'.prev| == |s.prev| && |s'.lock| == |s.lock|
      && s'.next[x] == s.next[x] && s'.prev[x] == s.prev[x] && s'.lock[x] == s.lock[x]
  {
    var pc := s.threads[t];
    match pc
    case LeaveEmpty(k, w) => assert HasLock(c.capacity, pc, HeadOf(c.capacity, w));
    case Detach(k, w, n, y) => assert HasLock(c.capacity, pc, HeadOf(c.capacity, w)) && HasLock(c.capacity, pc, y);
    case UnlockHead(k, w, n, y) => assert HasLock(c.capacity, pc, HeadOf(c.capacity, w));
    case UnlockSecond(k, w, n, y) => assert HasLock(c.capacity, pc, y);
    case ClearFirst(k, w, n) => assert HasLock(c.capacity, pc, n);
    case _ =>
  }

  /** Whoever holds the lock of a cell sees its links unchanged however long the other threads run. */
  lemma {:induction false} LinksStable<K(!new), V>(c: Config<K, V>, s: State<K, V>, schedule: seq<Choice<K>>, u: nat, x: int)
    requires Inv(c, s) && 0 <= x < c.capacity + 4 && s.lock[x] == u
    requires forall i :: 0 <= i < |schedule| ==> schedule[i].thread != u
    ensures var s' := Run(c, s, schedule);
      Inv(c, s') && s'.next[x] == s.next[x] && s'.prev[x] == s.prev[x] && s'.lock[x] == u
    decreases |schedule|
  {
    hide ListsOk, LockOk, DetachOk, Buckets, FlagsOk, Delivered, Knows, Step;
    if schedule != [] {
      var before, e := schedule[..|schedule| - 1], schedule[|schedule| - 1];
      LinksStable(c, s, before, u, x);
      StepKeeps(c, Run(c, s, before), e);
      StepLeaves(c, Run(c, s, before), e, x);
    }
  }
}
