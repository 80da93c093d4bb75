/** The fine-grained locking cache ConcurrentLRU, as a machine of threads running consumeCachedOrCompute. A step is one
    lock or unlock, one unlocked read, one bucket operation, or the writes made to nodes whose locks the thread holds. */
module ConcurrentLru {
  import opened Links
  import opened Sequences
  import opened Entries

  datatype Config<!K, !V> = Config(capacity: nat, buckets: nat, hash: K -> nat, f: K -> V)

  datatype List = Pool | Lru

  /** Cells are the nodes 0..capacity-1 and the sentinels of the two lists. */
  function HeadOf(capacity: nat, w: List): int {
    if w == Lru then capacity else capacity + 2
  }

  function TailOf(capacity: nat, w: List): int {
    HeadOf(capacity, w) + 1
  }

  function BucketOf<K, V>(c: Config<K, V>, k: K): (b: nat)
    requires c.buckets > 0
    ensures b < c.buckets
  {
    c.hash(k) % c.buckets
  }

  datatype Place = InPool | InLru | Detached(thread: int)

  /** Why a node is put at the end of the LRU list. */
  datatype Why<K> = Move | Add(k: K)

  datatype Pc<K> =
    | Idle | Search(k: K) | LockFound(k: K, n: int) | TestFound(k: K, n: int) | DropFound(k: K, n: int)
    // lruRemoveNode
    | TryPrev(n: int) | BackOff(n: int, p: int) | WaitPrev(n: int, p: int) | CheckPrev(n: int, p: int)
    | Relock(n: int, p: int) | TestBoth(n: int, p: int) | DropBoth(n: int, p: int)
    | DropPrev(n: int, p: int) | RelockAlone(n: int) | TestAlone(n: int)
    | LockNext(n: int, p: int) | Unlink(n: int, p: int, x: int) | UnlockLeft(n: int, p: int, x: int)
    | UnlockRight(n: int, x: int) | ClearLinks(n: int)
    // listInsertBefore at the tail of the LRU list
    | LoadLast(n: int, why: Why<K>) | LockLast(n: int, p: int, why: Why<K>) | CheckLast(n: int, p: int, why: Why<K>)
    | DropLast(n: int, p: int, why: Why<K>) | LockTail(n: int, p: int, why: Why<K>) | Append(n: int, p: int, why: Why<K>)
    | UnlockLast(n: int, p: int, why: Why<K>) | UnlockTail(n: int, why: Why<K>) | Leave(n: int)
    // acquireFreeNode with listEvictNext
    | Produce(k: K) | LockHead(k: K, w: List) | LockFirst(k: K, w: List) | LeaveEmpty(k: K, w: List)
    | LockSecond(k: K, w: List, n: int) | Detach(k: K, w: List, n: int, x: int) | UnlockHead(k: K, w: List, n: int, x: int)
    | UnlockSecond(k: K, w: List, n: int, x: int) | ClearFirst(k: K, w: List, n: int)
    | Unflag(k: K, n: int) | AwaitFiled(k: K, n: int) | Unfile(k: K, n: int)
    | Fill(k: K, n: int) | File(k: K, n: int)

  /** A lock is NULL or the thread that holds it. `lru`, `pool`, `place` and `log` record what the links mean, where each
      node is and what was delivered. */
  datatype State<!K, !V> = State(
    next: seq<int>, prev: seq<int>, lock: seq<int>, lruFlag: seq<bool>, htFlag: seq<bool>, key: seq<K>, value: seq<V>,
    chains: seq<seq<int>>, threads: seq<Pc<K>>, lru: seq<int>, pool: seq<int>, place: seq<Place>, log: seq<(K, V)>)

  datatype Choice<K> = Choice(thread: nat, k: K, fails: bool)

  predicate WellFormed<K, V>(c: Config<K, V>, s: State<K, V>) {
    && c.buckets > 0 && |s.chains| == c.buckets
    && |s.next| == |s.prev| == |s.lock| == c.capacity + 4
    && |s.lruFlag| == |s.htFlag| == |s.key| == |s.value| == |s.place| == c.capacity
  }

  function Cell<T>(cells: seq<T>, i: int, none: T): T {
    if 0 <= i < |cells| then cells[i] else none
  }

  function Go<K, V>(s: State<K, V>, t: nat, pc: Pc<K>): State<K, V>
    requires t < |s.threads|
  {
    s.(threads := s.threads[t := pc])
  }

  /** Waits until the lock of x is free and takes it. */
  function Take<K, V>(s: State<K, V>, t: nat, x: int, pc: Pc<K>): State<K, V>
    requires t < |s.threads|
  {
    if Cell(s.lock, x, 0) == NULL then s.(lock := Put(s.lock, x, t), threads := s.threads[t := pc]) else s
  }

  function Release<K, V>(s: State<K, V>, t: nat, x: int, pc: Pc<K>): State<K, V>
    requires t < |s.threads|
  {
    s.(lock := Put(s.lock, x, NULL), threads := s.threads[t := pc])
  }

  /** The node in front of n in its bucket, NULL if n is the first one. */
  function Before(chain: seq<int>, n: int): int {
    if |chain| < 2 || chain[0] == n then NULL
    else if chain[1] == n then chain[0]
    else Before(chain[1..], n)
  }

  // ---------- the steps ----------

  function FindStep<K(==,!new), V>(c: Config<K, V>, s: State<K, V>, t: nat, e: Choice<K>): State<K, V>
    requires WellFormed(c, s) && t < |s.threads|
  {
    match s.threads[t]
    case Idle => Go(s, t, Search(e.k))
    case Search(k) =>
      var n := Seek(s.chains[BucketOf(c, k)], s.key, k);
      Go(s, t, if n == NULL then Produce(k) else LockFound(k, n))
    case LockFound(k, n) => Take(s, t, n, TestFound(k, n))
    case TestFound(k, n) =>
      if 0 <= n < c.capacity && s.lruFlag[n] && s.key[n] == k then
        Go(s.(log := s.log + [(k, s.value[n])]), t, TryPrev(n))
      else Go(s, t, DropFound(k, n))
    case DropFound(k, n) => Release(s, t, n, Produce(k))
    case Produce(k) => Go(s.(log := s.log + [(k, c.f(k))]), t, LockHead(k, Pool))
    case _ => s
  }

  function Unlinked<K, V>(s: State<K, V>, w: List, n: int, p: int, x: int, t: int): State<K, V> {
    s.(next := Put(s.next, p, x), prev := Put(s.prev, x, p), place := Put(s.place, n, Detached(t)),
       lru := if w == Lru then Without(s.lru, {n}) else s.lru, pool := if w == Pool then Without(s.pool, {n}) else s.pool)
  }

  function Cleared<K, V>(s: State<K, V>, n: int): State<K, V> {
    s.(next := Put(s.next, n, NULL), prev := Put(s.prev, n, NULL))
  }

  /** lruRemoveNode: lock the predecessor, backing off if it is busy, then the successor, and unlink. */
  function RemoveStep<K(!new), V>(c: Config<K, V>, s: State<K, V>, t: nat, e: Choice<K>): State<K, V>
    requires WellFormed(c, s) && t < |s.threads|
  {
    match s.threads[t]
    case TryPrev(n) =>
      var p := Cell(s.prev, n, NULL);
      if e.fails || Cell(s.lock, p, 0) != NULL then Go(s, t, BackOff(n, p)) else Take(s, t, p, LockNext(n, p))
    case BackOff(n, p) => Release(s, t, n, WaitPrev(n, p))
    case WaitPrev(n, p) => Take(s, t, p, CheckPrev(n, p))
    case CheckPrev(n, p) => Go(s, t, if Cell(s.next, p, NULL) == n then Relock(n, p) else DropPrev(n, p))
    case Relock(n, p) => Take(s, t, n, TestBoth(n, p))
    case TestBoth(n, p) => Go(s, t, if Cell(s.lruFlag, n, false) then LockNext(n, p) else DropBoth(n, p))
    case DropBoth(n, p) => Release(s, t, p, Leave(n))
    case DropPrev(n, p) => Release(s, t, p, RelockAlone(n))
    case RelockAlone(n) => Take(s, t, n, TestAlone(n))
    case TestAlone(n) => Go(s, t, if Cell(s.lruFlag, n, false) then TryPrev(n) else Leave(n))
    case LockNext(n, p) => Take(s, t, Cell(s.next, n, NULL), Unlink(n, p, Cell(s.next, n, NULL)))
    case Unlink(n, p, x) => Go(Unlinked(s, Lru, n, p, x, t), t, UnlockLeft(n, p, x))
    case UnlockLeft(n, p, x) => Release(s, t, p, UnlockRight(n, x))
    case UnlockRight(n, x) => Release(s, t, x, ClearLinks(n))
    case ClearLinks(n) => Go(Cleared(s, n), t, LoadLast(n, Move))
    case _ => s
  }

  function Appended<K, V>(c: Config<K, V>, s: State<K, V>, n: int, p: int): State<K, V> {
    var tail := TailOf(c.capacity, Lru);
    s.(next := Put(Put(s.next, p, n), n, tail), prev := Put(Put(s.prev, n, p), tail, n),
       place := Put(s.place, n, InLru), lru := s.lru + [n])
  }

  /** listInsertBefore: read the last node without a lock, lock it, check that it still is the last one. */
  function AppendStep<K(!new), V>(c: Config<K, V>, s: State<K, V>, t: nat): State<K, V>
    requires WellFormed(c, s) && t < |s.threads|
  {
    var tail := TailOf(c.capacity, Lru);
    match s.threads[t]
    case LoadLast(n, why) => Go(s, t, LockLast(n, Cell(s.prev, tail, NULL), why))
    case LockLast(n, p, why) => Take(s, t, p, CheckLast(n, p, why))
    case CheckLast(n, p, why) => Go(s, t, if Cell(s.next, p, NULL) == tail then LockTail(n, p, why) else DropLast(n, p, why))
    case DropLast(n, p, why) => Release(s, t, p, LoadLast(n, why))
    case LockTail(n, p, why) => Take(s, t, tail, Append(n, p, why))
    case Append(n, p, why) => Go(Appended(c, s, n, p), t, UnlockLast(n, p, why))
    case UnlockLast(n, p, why) => Release(s, t, p, UnlockTail(n, why))
    case UnlockTail(n, why) => Release(s, t, tail, if why.Move? then Leave(n) else File(why.k, n))
    case Leave(n) => Release(s, t, n, Idle)
    case _ => s
  }

  function Filled<K, V>(c: Config<K, V>, s: State<K, V>, n: int, k: K): State<K, V> {
    s.(key := Put(s.key, n, k), value := Put(s.value, n, c.f(k)), lruFlag := Put(s.lruFlag, n, true))
  }

  function Unfiled<K, V>(c: Config<K, V>, s: State<K, V>, n: int): State<K, V>
    requires WellFormed(c, s) && 0 <= n < c.capacity
  {
    var b := BucketOf(c, s.key[n]);
    s.(chains := s.chains[b := Without(s.chains[b], {n})], htFlag := s.htFlag[n := false])
  }

  function Filed<K, V>(c: Config<K, V>, s: State<K, V>, n: int, k: K): State<K, V>
    requires WellFormed(c, s)
  {
    var b := BucketOf(c, k);
    s.(chains := s.chains[b := [n] + s.chains[b]], htFlag := Put(s.htFlag, n, true))
  }

  /** insert: get a node from the pool or evict one, fill it, append it and file it. */
  function InsertStep<K(!new), V>(c: Config<K, V>, s: State<K, V>, t: nat, e: Choice<K>): State<K, V>
    requires WellFormed(c, s) && t < |s.threads|
  {
    match s.threads[t]
    case LockHead(k, w) => Take(s, t, HeadOf(c.capacity, w), LockFirst(k, w))
    case LockFirst(k, w) =>
      var n := Cell(s.next, HeadOf(c.capacity, w), NULL);
      if n == TailOf(c.capacity, w) then Go(s, t, LeaveEmpty(k, w)) else Take(s, t, n, LockSecond(k, w, n))
    case LeaveEmpty(k, w) => Release(s, t, HeadOf(c.capacity, w), LockHead(k, if w == Pool then Lru else Pool))
    case LockSecond(k, w, n) => Take(s, t, Cell(s.next, n, NULL), Detach(k, w, n, Cell(s.next, n, NULL)))
    case Detach(k, w, n, x) => Go(Unlinked(s, w, n, HeadOf(c.capacity, w), x, t), t, UnlockHead(k, w, n, x))
    case UnlockHead(k, w, n, x) => Release(s, t, HeadOf(c.capacity, w), UnlockSecond(k, w, n, x))
    case UnlockSecond(k, w, n, x) => Release(s, t, x, ClearFirst(k, w, n))
    case ClearFirst(k, w, n) => Go(Cleared(s, n), t, if w == Pool then Fill(k, n) else Unflag(k, n))
    case Unflag(k, n) => Go(s.(lruFlag := Put(s.lruFlag, n, false)), t, AwaitFiled(k, n))
    case AwaitFiled(k, n) => if Cell(s.htFlag, n, false) then Go(s, t, Unfile(k, n)) else s
    case Unfile(k, n) =>
      if !(0 <= n < c.capacity) || n !in s.chains[BucketOf(c, s.key[n])] then Go(s, t, Fill(k, n)) else
      var m := Before(s.chains[BucketOf(c, s.key[n])], n);
      if m != NULL && (e.fails || Cell(s.lock, m, 0) != NULL) then s
      else Go(Unfiled(c, s, n), t, Fill(k, n))
    case Fill(k, n) => Go(Filled(c, s, n, k), t, LoadLast(n, Add(k)))
    case File(k, n) => Go(Filed(c, s, n, k), t, Leave(n))
    case _ => s
  }

  predicate Finding<K>(pc: Pc<K>) {
    pc.Idle? || pc.Search? || pc.LockFound? || pc.TestFound? || pc.DropFound? || pc.Produce?
  }

  predicate Removing<K>(pc: Pc<K>) {
    || pc.TryPrev? || pc.BackOff? || pc.WaitPrev? || pc.CheckPrev? || pc.Relock? || pc.TestBoth? || pc.DropBoth? || pc.DropPrev?
    || pc.RelockAlone? || pc.TestAlone? || pc.LockNext? || pc.Unlink? || pc.UnlockLeft? || pc.UnlockRight? || pc.ClearLinks?
  }

  predicate Appending<K>(pc: Pc<K>) {
    || pc.LoadLast? || pc.LockLast? || pc.CheckLast? || pc.DropLast? || pc.LockTail? || pc.Append? || pc.UnlockLast?
    || pc.UnlockTail? || pc.Leave?
  }

  function Step<K(==,!new), V>(c: Config<K, V>, s: State<K, V>, e: Choice<K>): State<K, V> {
    if !WellFormed(c, s) || e.thread >= |s.threads| then s else
    var pc := s.threads[e.thread];
    if Finding(pc) then FindStep(c, s, e.thread, e)
    else if Removing(pc) then RemoveStep(c, s, e.thread, e)
    else if Appending(pc) then AppendStep(c, s, e.thread)
    else InsertStep(c, s, e.thread, e)
  }

  function Run<K(==,!new), V>(c: Config<K, V>, s: State<K, V>, schedule: seq<Choice<K>>): State<K, V> {
    if schedule == [] then s
    else Step(c, Run(c, s, schedule[..|schedule| - 1]), schedule[|schedule| - 1])
  }

  // ---------- what every thread has locked, detached and knows ----------

  predicate HasLock<K>(capacity: nat, pc: Pc<K>, x: int) {
    match pc
    case Idle => false
    case Search(_) => false
    case LockFound(_, _) => false
    case TestFound(_, n) => x == n
    case DropFound(_, n) => x == n
    case TryPrev(n) => x == n
    case BackOff(n, _) => x == n
    case WaitPrev(_, _) => false
    case CheckPrev(_, p) => x == p
    case Relock(_, p) => x == p
    case TestBoth(n, p) => x == n || x == p
    case DropBoth(n, p) => x == n || x == p
    case DropPrev(_, p) => x == p
    case RelockAlone(_) => false
    case TestAlone(n) => x == n
    case LockNext(n, p) => x == n || x == p
    case Unlink(n, p, y) => x == n || x == p || x == y
    case UnlockLeft(n, p, y) => x == n || x == p || x == y
    case UnlockRight(n, y) => x == n || x == y
    case ClearLinks(n) => x == n
    case LoadLast(n, _) => x == n
    case LockLast(n, _, _) => x == n
    case CheckLast(n, p, _) => x == n || x == p
    case DropLast(n, p, _) => x == n || x == p
    case LockTail(n, p, _) => x == n || x == p
    case Append(n, p, _) => x == n || x == p || x == TailOf(capacity, Lru)
    case UnlockLast(n, p, _) => x == n || x == p || x == TailOf(capacity, Lru)
    case UnlockTail(n, _) => x == n || x == TailOf(capacity, Lru)
    case Leave(n) => x == n
    case Produce(_) => false
    case LockHead(_, _) => false
    case LockFirst(_, w) => x == HeadOf(capacity, w)
    case LeaveEmpty(_, w) => x == HeadOf(capacity, w)
    case LockSecond(_, w, n) => x == n || x == HeadOf(capacity, w)
    case Detach(_, w, n, y) => x == n || x == y || x == HeadOf(capacity, w)
    case UnlockHead(_, w, n, y) => x == n || x == y || x == HeadOf(capacity, w)
    case UnlockSecond(_, _, n, y) => x == n || x == y
    case ClearFirst(_, _, n) => x == n
    case Unflag(_, n) => x == n
    case AwaitFiled(_, n) => x == n
    case Unfile(_, n) => x == n
    case Fill(_, n) => x == n
    case File(_, n) => x == n
  }

  /** The thread has taken the node out of its list and not yet put it back. */
  predicate Detaches<K>(pc: Pc<K>, x: int) {
    (|| pc.UnlockLeft? || pc.UnlockRight? || pc.ClearLinks? || pc.LoadLast? || pc.LockLast? || pc.CheckLast? || pc.DropLast?
     || pc.LockTail? || pc.Append? || pc.UnlockHead? || pc.UnlockSecond? || pc.ClearFirst? || pc.Unflag? || pc.AwaitFiled?
     || pc.Unfile? || pc.Fill?)
    && pc.n == x
  }
}
