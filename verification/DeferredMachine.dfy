/** DeferredLRU under concurrency: a machine whose steps are the atomic accesses of any number of threads running
    consumeCachedOrCompute, at most one of which holds the LRU lock. */
module DeferredMachine {
  import opened Links
  import opened Sequences
  import opened DeferredPolicy
  import opened Entries
  import opened SharedLists

  datatype Config<!K, !V> = Config(capacity: nat, buckets: nat, pullThreshold: nat, purgeThreshold: nat,
                                   hash: K -> nat, f: K -> V)

  /** The number of bucket locks never exceeds this. */
  const STRIPES := 32768

  function BucketOf<K, V>(c: Config<K, V>, k: K): (b: nat) {
    if c.buckets == 0 then 0 else c.hash(k) % c.buckets
  }

  function StripeOf<K, V>(c: Config<K, V>, k: K): (i: nat)
    ensures c.buckets > 0 ==> i < Min(c.buckets, STRIPES)
  {
    BucketOf(c, k) % STRIPES
  }

  /** Why the recent link of a node is set, if it is. */
  datatype Mark = Clear | Shield(thread: int) | Marking(thread: int) | Stacked | Sliced

  /** The recent links; `stack` is the Recent list, `slice` what a pull has popped and not yet handled. */
  datatype Recent = Recent(next: seq<int>, head: int, count: int, stack: seq<int>, slice: seq<int>, mark: seq<Mark>)

  /** Keys, values, buckets and their locks; `filed` holds the nodes that are in a bucket. A lock is NULL or its holder. */
  datatype Table<!K, !V> = Table(key: seq<K>, value: seq<V>, chains: seq<seq<int>>, locks: seq<int>, filed: set<int>)

  /** What comes after a try to consolidate. */
  datatype After<K> = Finish | Compute(k: K) | Retry(k: K)

  datatype FindPc =
    | Lock | Search | Check(n: int) | LoadMark(n: int) | StoreMark(n: int, h: int, again: bool) | CasMark(n: int, h: int)
    | CountMark | Unlock(found: bool) | TestThreshold(found: bool) | RequestPull(found: bool)

  datatype InsertPc =
    | Reserve | Allocate | RequestPurge | Fill(n: int) | File(n: int)
    | LoadHead(n: int) | StoreNext(n: int, h: int) | CasHead(n: int, h: int) | WriteBack(n: int, h: int) | Unmark(n: int)

  datatype Pc<K> = Idle | Find(k: K, f: FindPc) | Produce(k: K) | Insert(k: K, i: InsertPc) | Try(after: After<K>)
    | Consolidate(after: After<K>)

  /** Where the holder of the LRU lock is. */
  datatype Con = Off
    | PurgeTest | PurgeStart | PurgeLoop(node: int, freed: nat)
    | PurgeCheck(node: int, ahead: int, freed: nat) | PurgeUnfile(node: int, ahead: int, freed: nat)
    | PurgeRead(node: int, ahead: int, freed: nat) | PurgeForward(node: int, ahead: int, freed: nat, p: int, y: int)
    | PurgeBack(node: int, ahead: int, freed: nat, p: int, y: int) | PurgeDelete(node: int, ahead: int, freed: nat)
    | DisposeLoad(node: int, ahead: int, freed: nat) | DisposeStore(node: int, ahead: int, freed: nat, h: int)
    | DisposeCas(node: int, ahead: int, freed: nat, h: int) | PurgeDone
    | PullTest | PullPop | PullZero(node: int) | PullLoop(node: int, last: int) | PullSkip(node: int, last: int)
    | PullRead(node: int, last: int) | PullForward(node: int, last: int, p: int, y: int)
    | PullBack(node: int, last: int, p: int, y: int) | PullLocal(node: int, last: int) | PullNext(node: int)
    | SpliceLoad(last: int) | SpliceStore(first: int, last: int, h: int) | SpliceCas(first: int, last: int, h: int)
    | SpliceBack(last: int, h: int) | PullDone | Release

  /** `log` records every value delivered. */
  datatype State<!K, !V> = State(lists: Lists, recent: Recent, table: Table<K, V>, lruLock: int, pullRequest: bool,
                                 purgeRequest: bool, count: int, threads: seq<Pc<K>>, con: Con, log: seq<(K, V)>)

  /** A scheduling choice: the thread that moves, the key an idle thread asks for, and whether a weak compare-and-swap
      fails for no reason. */
  datatype Choice<K> = Choice(thread: nat, k: K, fails: bool)

  predicate WellFormed<K, V>(c: Config<K, V>, s: State<K, V>) {
    && c.buckets > 0
    && |s.lists.next| == |s.lists.prev| == c.capacity + 3 && |s.lists.place| == c.capacity
    && |s.recent.next| == |s.recent.mark| == c.capacity
    && |s.table.key| == |s.table.value| == c.capacity
    && |s.table.chains| == c.buckets && |s.table.locks| == Min(c.buckets, STRIPES)
  }

  function Jump<K, V>(s: State<K, V>, t: nat, pc: Pc<K>): State<K, V>
    requires t < |s.threads|
  {
    s.(threads := s.threads[t := pc])
  }

  // ---------- looking a key up ----------

  function Marked(r: Recent, n: int, h: int, t: nat): Recent {
    r.(next := Put(r.next, n, h), mark := Put(r.mark, n, Marking(t)))
  }

  function PushedMark(r: Recent, n: int): Recent {
    r.(head := n, stack := [n] + r.stack, mark := Put(r.mark, n, Stacked))
  }

  function FindStep<K(==,!new), V>(c: Config<K, V>, s: State<K, V>, t: nat, k: K, f: FindPc, fails: bool): State<K, V>
    requires WellFormed(c, s) && t < |s.threads|
  {
    var stripe := StripeOf(c, k);
    match f
    case Lock =>
      if s.table.locks[stripe] != NULL then s
      else Jump(s.(table := s.table.(locks := s.table.locks[stripe := t])), t, Find(k, FindPc.Search))
    case Search =>
      var n := Seek(s.table.chains[BucketOf(c, k)], s.table.key, k);
      if 0 <= n < c.capacity then Jump(s.(log := s.log + [(k, s.table.value[n])]), t, Find(k, Check(n)))
      else Jump(s, t, Find(k, Unlock(false)))
    case Check(n) =>
      Jump(s, t, Find(k, if At(s.recent.next, n) == NULL then LoadMark(n) else Unlock(true)))
    case LoadMark(n) =>
      Jump(s, t, Find(k, StoreMark(n, s.recent.head, false)))
    case StoreMark(n, h, again) =>
      Jump(s.(recent := Marked(s.recent, n, h, t)), t, Find(k, CasMark(n, h)))
    case CasMark(n, h) =>
      if fails || s.recent.head != h then Jump(s, t, Find(k, StoreMark(n, s.recent.head, true)))
      else Jump(s.(recent := PushedMark(s.recent, n)), t, Find(k, CountMark))
    case CountMark =>
      Jump(s.(recent := s.recent.(count := s.recent.count + 1)), t, Find(k, Unlock(true)))
    case Unlock(found) =>
      Jump(s.(table := s.table.(locks := s.table.locks[stripe := NULL])), t, Find(k, TestThreshold(found)))
    case TestThreshold(found) =>
      Jump(s, t, if s.recent.count >= c.pullThreshold then Find(k, RequestPull(found))
                  else if found then Idle else Produce(k))
    case RequestPull(found) =>
      Jump(s.(pullRequest := true), t, Try(if found then Finish else Compute(k)))
  }

  // ---------- inserting ----------

  function Filled<K, V>(c: Config<K, V>, tb: Table<K, V>, n: int, k: K): Table<K, V> {
    tb.(key := Put(tb.key, n, k), value := Put(tb.value, n, c.f(k)))
  }

  function Filed<K, V>(c: Config<K, V>, tb: Table<K, V>, n: int, k: K): Table<K, V>
    requires c.buckets > 0 && |tb.chains| == c.buckets
  {
    var b := BucketOf(c, k);
    tb.(chains := tb.chains[b := [n] + tb.chains[b]], filed := tb.filed + {n})
  }

  function InsertStep<K(==,!new), V>(c: Config<K, V>, s: State<K, V>, t: nat, k: K, i: InsertPc, fails: bool): State<K, V>
    requires WellFormed(c, s) && t < |s.threads|
  {
    var head := Head(c.capacity);
    match i
    case Reserve =>
      Jump(s.(count := s.count + 1), t, Insert(k, Allocate))
    case Allocate =>
      if s.lists.ehead == NULL then Jump(s, t, Insert(k, RequestPurge))
      else Jump(s.(lists := Popped(s.lists, t)), t, Insert(k, Fill(s.lists.ehead)))
    case RequestPurge =>
      Jump(s.(purgeRequest := true), t, Try(Retry(k)))
    case Fill(n) =>
      Jump(s.(table := Filled(c, s.table, n, k),
               recent := s.recent.(next := Put(s.recent.next, n, DUMMY), mark := Put(s.recent.mark, n, Shield(t)))),
            t, Insert(k, File(n)))
    case File(n) =>
      if s.table.locks[StripeOf(c, k)] != NULL then s
      else Jump(s.(table := Filed(c, s.table, n, k)), t, Insert(k, LoadHead(n)))
    case LoadHead(n) =>
      Jump(s.(lists := s.lists.(prev := Put(s.lists.prev, n, head))), t, Insert(k, StoreNext(n, At(s.lists.next, head))))
    case StoreNext(n, h) =>
      Jump(s.(lists := s.lists.(next := Put(s.lists.next, n, h))), t, Insert(k, CasHead(n, h)))
    case CasHead(n, h) =>
      if fails || At(s.lists.next, head) != h then Jump(s, t, Insert(k, StoreNext(n, At(s.lists.next, head))))
      else Jump(s.(lists := Published(c.capacity, s.lists, n, h, t)), t, Insert(k, WriteBack(n, h)))
    case WriteBack(n, h) =>
      Jump(s.(lists := Settled(s.lists, n, h)), t, Insert(k, Unmark(n)))
    case Unmark(n) =>
      Jump(s.(recent := s.recent.(next := Put(s.recent.next, n, NULL), mark := Put(s.recent.mark, n, Clear))), t, Idle)
  }

  // ---------- consolidating ----------

  function Resume<K>(after: After<K>): Pc<K> {
    match after
    case Finish => Idle
    case Compute(k) => Produce(k)
    case Retry(k) => Insert(k, Allocate)
  }

  function Unfiled<K, V>(c: Config<K, V>, tb: Table<K, V>, n: int): Table<K, V>
    requires c.buckets > 0 && |tb.chains| == c.buckets && 0 <= n < |tb.key|
  {
    var b := BucketOf(c, tb.key[n]);
    tb.(chains := tb.chains[b := Without(tb.chains[b], {n})], filed := tb.filed - {n})
  }

  function PurgeStep<K(!new), V>(c: Config<K, V>, s: State<K, V>, fails: bool): State<K, V>
    requires WellFormed(c, s)
  {
    var head := Head(c.capacity);
    match s.con
    case PurgeTest =>
      s.(con := if s.purgeRequest then PurgeStart else PullTest)
    case PurgeStart =>
      s.(con := PurgeLoop(At(s.lists.prev, Tail(c.capacity)), 0))
    case PurgeLoop(node, freed) =>
      if node == head || freed >= Max(c.purgeThreshold, 1) || At(s.lists.prev, node) == head then s.(con := PurgeDone)
      else s.(con := PurgeCheck(node, At(s.lists.prev, node), freed))
    case PurgeCheck(node, ahead, freed) =>
      s.(con := if At(s.recent.next, node) == NULL then PurgeUnfile(node, ahead, freed) else PurgeLoop(ahead, freed))
    case PurgeUnfile(node, ahead, freed) =>
      if !(0 <= node < c.capacity) || s.table.locks[StripeOf(c, s.table.key[node])] != NULL then s
      else if s.recent.next[node] != NULL || node !in s.table.chains[BucketOf(c, s.table.key[node])] then
        s.(con := PurgeLoop(ahead, freed))
      else s.(table := Unfiled(c, s.table, node), con := PurgeRead(node, ahead, freed))
    case PurgeRead(node, ahead, freed) =>
      s.(con := PurgeForward(node, ahead, freed, At(s.lists.prev, node), At(s.lists.next, node)))
    case PurgeForward(node, ahead, freed, p, y) =>
      s.(lists := Bypassed(s.lists, node, p, y), con := PurgeBack(node, ahead, freed, p, y))
    case PurgeBack(node, ahead, freed, p, y) =>
      s.(lists := Settled(s.lists, p, y), con := PurgeDelete(node, ahead, freed))
    case PurgeDelete(node, ahead, freed) =>
      s.(count := s.count - 1, con := DisposeLoad(node, ahead, freed))
    case DisposeLoad(node, ahead, freed) =>
      s.(con := DisposeStore(node, ahead, freed, s.lists.ehead))
    case DisposeStore(node, ahead, freed, h) =>
      s.(lists := s.lists.(next := Put(s.lists.next, node, h)), con := DisposeCas(node, ahead, freed, h))
    case DisposeCas(node, ahead, freed, h) =>
      if fails || s.lists.ehead != h then s.(con := DisposeStore(node, ahead, freed, s.lists.ehead))
      else s.(lists := Pushed(s.lists, node), con := PurgeLoop(ahead, freed + 1))
    case PurgeDone =>
      s.(purgeRequest := false, con := PullTest)
    case _ => s
  }

  function Popping(r: Recent): Recent {
    r.(head := DUMMY, stack := [], slice := r.stack,
       mark := seq(|r.mark|, x requires 0 <= x < |r.mark| => if r.mark[x] == Stacked then Sliced else r.mark[x]))
  }

  function Unsliced(r: Recent, n: int): Recent {
    r.(next := Put(r.next, n, NULL), mark := Put(r.mark, n, Clear), slice := if r.slice == [] then [] else r.slice[1..])
  }

  function PullStep<K(!new), V>(c: Config<K, V>, s: State<K, V>, fails: bool): State<K, V>
    requires WellFormed(c, s)
  {
    var head, local := Head(c.capacity), LocalHead(c.capacity);
    match s.con
    case PullTest =>
      s.(con := if s.pullRequest then PullPop else Release)
    case PullPop =>
      s.(recent := Popping(s.recent), con := PullZero(s.recent.head))
    case PullZero(node) =>
      s.(recent := s.recent.(count := 0), con := PullLoop(node, local))
    case PullLoop(node, last) =>
      if node == DUMMY then s.(con := if last == local then PullDone else SpliceLoad(last))
      else s.(con := if At(s.lists.prev, node) == head then PullSkip(node, last) else PullRead(node, last))
    case PullSkip(node, last) =>
      s.(recent := Unsliced(s.recent, node), con := PullLoop(At(s.recent.next, node), last))
    case PullRead(node, last) =>
      s.(con := PullForward(node, last, At(s.lists.prev, node), At(s.lists.next, node)))
    case PullForward(node, last, p, y) =>
      s.(lists := Bypassed(s.lists, node, p, y), con := PullBack(node, last, p, y))
    case PullBack(node, last, p, y) =>
      s.(lists := Settled(s.lists, p, y), con := PullLocal(node, last))
    case PullLocal(node, last) =>
      s.(lists := Appended(s.lists, node, last), con := PullNext(node))
    case PullNext(node) =>
      s.(recent := Unsliced(s.recent, node), con := PullLoop(At(s.recent.next, node), node))
    case SpliceLoad(last) =>
      var first := At(s.lists.next, local);
      s.(lists := s.lists.(prev := Put(s.lists.prev, first, head)), con := SpliceStore(first, last, At(s.lists.next, head)))
    case SpliceStore(first, last, h) =>
      s.(lists := s.lists.(next := Put(s.lists.next, last, h)), con := SpliceCas(first, last, h))
    case SpliceCas(first, last, h) =>
      if fails || At(s.lists.next, head) != h then s.(con := SpliceStore(first, last, At(s.lists.next, head)))
      else s.(lists := Spliced(c.capacity, s.lists, first, h), con := SpliceBack(last, h))
    case SpliceBack(last, h) =>
      s.(lists := Settled(s.lists, last, h), con := PullDone)
    case PullDone =>
      s.(pullRequest := false, con := Release)
    case _ => s
  }

  predicate Purging(con: Con) {
    || con.PurgeTest? || con.PurgeStart? || con.PurgeLoop? || con.PurgeCheck? || con.PurgeUnfile? || con.PurgeRead?
    || con.PurgeForward? || con.PurgeBack? || con.PurgeDelete? || con.DisposeLoad? || con.DisposeStore?
    || con.DisposeCas? || con.PurgeDone?
  }

  function ConsolidateStep<K(!new), V>(c: Config<K, V>, s: State<K, V>, t: nat, after: After<K>, fails: bool): State<K, V>
    requires WellFormed(c, s) && t < |s.threads|
  {
    if s.con.Release? then Jump(s.(lruLock := NULL, con := Off), t, Resume(after))
    else if Purging(s.con) then PurgeStep(c, s, fails)
    else PullStep(c, s, fails)
  }

  // ---------- one step of one thread, and runs ----------

  function Step<K(==,!new), V>(c: Config<K, V>, s: State<K, V>, e: Choice<K>): State<K, V> {
    if !WellFormed(c, s) || e.thread >= |s.threads| then s else
    var t := e.thread;
    match s.threads[t]
    case Idle => Jump(s, t, Find(e.k, Lock))
    case Find(k, f) => FindStep(c, s, t, k, f, e.fails)
    case Produce(k) => Jump(s.(log := s.log + [(k, c.f(k))]), t, Insert(k, Reserve))
    case Insert(k, i) => InsertStep(c, s, t, k, i, e.fails)
    case Try(after) =>
      if s.lruLock == NULL then Jump(s.(lruLock := t, con := PurgeTest), t, Consolidate(after))
      else Jump(s, t, Resume(after))
    case Consolidate(after) => ConsolidateStep(c, s, t, after, e.fails)
  }

  function Run<K(==,!new), V>(c: Config<K, V>, s: State<K, V>, schedule: seq<Choice<K>>): State<K, V> {
    if schedule == [] then s
    else Step(c, Run(c, s, schedule[..|schedule| - 1]), schedule[|schedule| - 1])
  }
}
