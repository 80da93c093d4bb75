/** What holds in every reachable state of the concurrent DeferredLRU. */
module DeferredInvariant {
  import opened Links
  import opened Sequences
  import opened DeferredPolicy
  import opened SharedLists
  import opened DeferredMachine

  function MarkAt(r: Recent, n: int): Mark {
    if 0 <= n < |r.mark| then r.mark[n] else Clear
  }

  function PlaceAt(l: Lists, n: int): Place {
    if 0 <= n < |l.place| then l.place[n] else Free
  }

  // ---------- the Recent list ----------

  /** Exactly the unmarked nodes have a null recent link; the Recent list and the slice being pulled are chains. */
  ghost predicate RecentOk(capacity: nat, r: Recent) {
    && |r.next| == |r.mark| == capacity
    && Chain(r.next, r.stack, DUMMY) && Distinct(r.stack) && r.head == First(r.stack, DUMMY)
    && Chain(r.next, r.slice, DUMMY) && Distinct(r.slice)
    && (forall x :: 0 <= x < capacity ==> (x in r.stack <==> r.mark[x] == Stacked))
    && (forall x :: 0 <= x < capacity ==> (x in r.slice <==> r.mark[x] == Sliced))
    && (forall x :: 0 <= x < capacity ==> (r.next[x] == NULL <==> r.mark[x] == Clear))
  }

  /** Writing the recent link of a node that is in neither list. */
  lemma WriteMark(capacity: nat, r: Recent, n: int, h: int, m: Mark)
    requires RecentOk(capacity, r) && 0 <= n < capacity && r.mark[n] != Stacked && r.mark[n] != Sliced
    requires m != Stacked && m != Sliced && (h == NULL <==> m == Clear)
    ensures RecentOk(capacity, r.(next := Put(r.next, n, h), mark := Put(r.mark, n, m)))
  {
    var r' := r.(next := Put(r.next, n, h), mark := Put(r.mark, n, m));
    ChainFrame(r.next, r'.next, r.stack, DUMMY);
    ChainFrame(r.next, r'.next, r.slice, DUMMY);
  }

  lemma PushRecent(capacity: nat, r: Recent, n: int)
    requires RecentOk(capacity, r) && 0 <= n < capacity && r.mark[n].Marking? && r.next[n] == r.head
    ensures RecentOk(capacity, PushedMark(r, n))
  {
    PushChain(r.next, r.stack, DUMMY, n);
    assert forall x :: x in [n] + r.stack <==> x == n || x in r.stack;
  }

  /** The exchange that starts a pull. */
  lemma PopRecent(capacity: nat, r: Recent)
    requires RecentOk(capacity, r) && r.slice == []
    ensures RecentOk(capacity, Popping(r)) && r.head == First(Popping(r).slice, DUMMY)
  {
  }

  /** Unmarking the first node of the slice. */
  lemma Unslice(capacity: nat, r: Recent)
    requires RecentOk(capacity, r) && r.slice != []
    ensures RecentOk(capacity, Unsliced(r, r.slice[0]))
    ensures At(r.next, r.slice[0]) == First(Unsliced(r, r.slice[0]).slice, DUMMY)
  {
    hide Chain;
    var n := r.slice[0];
    var r' := Unsliced(r, n);
    ChainInRange(r.next, r.slice, DUMMY);
    assert n in r.slice && r.slice == [n] + r'.slice;
    assert n !in r'.slice && n !in r.stack;
    ChainTail(r.next, r.slice, DUMMY);
    ChainInRange(r.next, r'.slice, DUMMY);
    ChainInRange(r.next, r.stack, DUMMY);
    OutsideSame(r'.slice, r.next, n, NULL);
    OutsideSame(r.stack, r.next, n, NULL);
    ChainFrame(r.next, r'.next, r'.slice, DUMMY);
    ChainFrame(r.next, r'.next, r.stack, DUMMY);
  }

  // ---------- the buckets ----------

  /** Each filed node is in the bucket of its key and in no other, and has the value of its key. */
  ghost predicate TableOk<K, V>(c: Config<K, V>, tb: Table<K, V>) {
    && c.buckets > 0 && |tb.key| == |tb.value| == c.capacity
    && |tb.chains| == c.buckets && |tb.locks| == Min(c.buckets, STRIPES)
    && (forall x :: x in tb.filed ==> 0 <= x < c.capacity && tb.value[x] == c.f(tb.key[x]))
    && (forall b :: 0 <= b < c.buckets ==> Distinct(tb.chains[b]))
    && (forall b, x :: 0 <= b < c.buckets && x in tb.chains[b] ==> x in tb.filed && BucketOf(c, tb.key[x]) == b)
    && (forall x :: x in tb.filed ==> x in tb.chains[BucketOf(c, tb.key[x])])
  }

  /** Filling a node that is in no bucket. */
  lemma FillTable<K, V>(c: Config<K, V>, tb: Table<K, V>, n: int, k: K)
    requires TableOk(c, tb) && n !in tb.filed
    ensures TableOk(c, Filled(c, tb, n, k))
  {
  }

  lemma FileTable<K, V>(c: Config<K, V>, tb: Table<K, V>, n: int, k: K)
    requires TableOk(c, tb) && n !in tb.filed && 0 <= n < c.capacity && tb.key[n] == k && tb.value[n] == c.f(k)
    ensures TableOk(c, Filed(c, tb, n, k))
  {
    var b := BucketOf(c, k);
    assert forall x :: x in [n] + tb.chains[b] <==> x == n || x in tb.chains[b];
  }

  lemma UnfileTable<K(!new), V>(c: Config<K, V>, tb: Table<K, V>, n: int)
    requires TableOk(c, tb) && n in tb.filed
    ensures TableOk(c, Unfiled(c, tb, n))
  {
    var b := BucketOf(c, tb.key[n]);
    WithoutMembers(tb.chains[b], {n});
    WithoutDistinct(tb.chains[b], {n});
  }

  // ---------- what the threads are doing ----------

  /** The thread owns the node: it is not in the pool any more and not yet in the LRU list. */
  predicate Holds<K>(pc: Pc<K>, x: int) {
    pc.Insert? && (pc.i.Fill? || pc.i.File? || pc.i.LoadHead? || pc.i.StoreNext? || pc.i.CasHead?) && pc.i.n == x
  }

  /** The thread is between marking its new node falsely and unmarking it. */
  predicate Shields<K>(pc: Pc<K>, x: int) {
    pc.Insert? && (pc.i.File? || pc.i.LoadHead? || pc.i.StoreNext? || pc.i.CasHead? || pc.i.WriteBack? || pc.i.Unmark?)
    && pc.i.n == x
  }

  /** The thread has written the recent link of the node but not yet pushed it. */
  predicate MarksNow<K>(pc: Pc<K>, x: int) {
    pc.Find? && ((pc.f.StoreMark? && pc.f.again) || pc.f.CasMark?) && pc.f.n == x
  }

  predicate OwesBack<K>(pc: Pc<K>, y: int) {
    pc.Insert? && pc.i.WriteBack? && pc.i.h == y
  }

  predicate HasStripe<K>(pc: Pc<K>) {
    pc.Find? && !pc.f.Lock? && !pc.f.TestThreshold? && !pc.f.RequestPull?
  }

  /** The thread has counted its element but not yet filed it. */
  predicate Reserves<K>(pc: Pc<K>) {
    || (pc.Insert? && (pc.i.Allocate? || pc.i.RequestPurge? || pc.i.Fill? || pc.i.File?))
    || ((pc.Try? || pc.Consolidate?) && pc.after.Retry?)
  }

  function Reserved<K>(threads: seq<Pc<K>>): nat {
    if threads == [] then 0 else (if Reserves(threads[0]) then 1 else 0) + Reserved(threads[1..])
  }

  /** The back link the consolidator owes. */
  predicate ConOwes(con: Con, y: int) {
    ((con.PurgeBack? || con.PullBack?) && con.y == y) || (con.SpliceBack? && con.h == y)
  }

  /** The node that the consolidator has taken out of the LRU list and not yet put anywhere. */
  predicate ConTakes(con: Con, x: int) {
    (|| con.PurgeBack? || con.PurgeDelete? || con.DisposeLoad? || con.DisposeStore? || con.DisposeCas?
     || con.PullBack? || con.PullLocal?)
    && con.node == x
  }

  /** The node that the purge has taken out of its bucket but not yet out of the LRU list. */
  predicate ConUnfiled(con: Con, x: int) {
    (con.PurgeRead? || con.PurgeForward?) && con.node == x
  }

  /** The purge has taken a node out of its bucket and not yet decremented the counter. */
  predicate ConCounts(con: Con) {
    con.PurgeRead? || con.PurgeForward? || con.PurgeBack? || con.PurgeDelete?
  }

  ghost predicate HoldOk<K>(capacity: nat, threads: seq<Pc<K>>, l: Lists) {
    && (forall t, x {:trigger Holds(threads[t], x)} :: 0 <= t < |threads| && Holds(threads[t], x) ==>
          0 <= x < capacity && PlaceAt(l, x) == Owned(t))
    && (forall x :: PlaceAt(l, x).Owned? ==> 0 <= PlaceAt(l, x).thread < |threads| && Holds(threads[PlaceAt(l, x).thread], x))
  }

  ghost predicate ShieldOk<K>(capacity: nat, threads: seq<Pc<K>>, r: Recent) {
    && (forall t, x {:trigger Shields(threads[t], x)} :: 0 <= t < |threads| && Shields(threads[t], x) ==>
          0 <= x < capacity && MarkAt(r, x) == Shield(t))
    && (forall x :: MarkAt(r, x).Shield? ==> 0 <= MarkAt(r, x).thread < |threads| && Shields(threads[MarkAt(r, x).thread], x))
  }

  ghost predicate MarkingOk<K>(capacity: nat, threads: seq<Pc<K>>, r: Recent) {
    && (forall t, x {:trigger MarksNow(threads[t], x)} :: 0 <= t < |threads| && MarksNow(threads[t], x) ==>
          0 <= x < capacity && MarkAt(r, x) == Marking(t))
    && (forall x :: MarkAt(r, x).Marking? ==> 0 <= MarkAt(r, x).thread < |threads| && MarksNow(threads[MarkAt(r, x).thread], x))
  }

  /** A back link is owed by exactly one thread or by the consolidator. */
  ghost predicate OwingOk<K>(threads: seq<Pc<K>>, con: Con, l: Lists) {
    && (forall t, y {:trigger OwesBack(threads[t], y)} :: 0 <= t < |threads| && OwesBack(threads[t], y) ==>
          y in l.owed && l.owed[y] == t)
    && (forall y :: ConOwes(con, y) <==> y in l.owed && l.owed[y] < 0)
    && (forall y :: y in l.owed && l.owed[y] < 0 ==> l.owed[y] == if con.SpliceBack? then SPLICER else UNLINKER)
    && (forall y :: y in l.owed && l.owed[y] >= 0 ==> l.owed[y] < |threads| && OwesBack(threads[l.owed[y]], y))
  }

  ghost predicate LockOk<K, V>(c: Config<K, V>, threads: seq<Pc<K>>, locks: seq<int>) {
    && (forall t :: 0 <= t < |threads| && HasStripe(threads[t]) ==> At(locks, StripeOf(c, threads[t].k)) == t)
    && (forall i :: 0 <= i < |locks| && locks[i] != NULL ==>
          0 <= locks[i] < |threads| && HasStripe(threads[locks[i]]) && StripeOf(c, threads[locks[i]].k) == i)
  }

  ghost predicate CountOk<K>(count: int, filed: set<int>, threads: seq<Pc<K>>, con: Con) {
    count == |filed| + Reserved(threads) + if ConCounts(con) then 1 else 0
  }

  ghost predicate HolderOk<K>(lruLock: int, threads: seq<Pc<K>>, con: Con) {
    && (forall t :: 0 <= t < |threads| && threads[t].Consolidate? ==> lruLock == t)
    && (lruLock != NULL ==> 0 <= lruLock < |threads| && threads[lruLock].Consolidate?)
    && (con.Off? <==> lruLock == NULL)
  }

  ghost predicate Delivered<K, V>(c: Config<K, V>, log: seq<(K, V)>) {
    forall i :: 0 <= i < |log| ==> log[i].1 == c.f(log[i].0)
  }

  // ---------- what each thread knows ----------

  /** A finder past its search holds a filed node with its key. */
  ghost predicate FinderTable<K, V>(tb: Table<K, V>, pc: Pc<K>) {
    pc.Find? && (pc.f.Check? || pc.f.LoadMark? || pc.f.StoreMark? || pc.f.CasMark?) ==>
      pc.f.n in tb.filed && 0 <= pc.f.n < |tb.key| && tb.key[pc.f.n] == pc.k
  }

  /** A node that a finder has seen unmarked stays so until the finder marks it. */
  ghost predicate FinderMark<K>(r: Recent, pc: Pc<K>) {
    && (pc.Find? && (pc.f.LoadMark? || (pc.f.StoreMark? && !pc.f.again)) ==> MarkAt(r, pc.f.n) == Clear)
    && (pc.Find? && (pc.f.StoreMark? || pc.f.CasMark?) ==> pc.f.h != NULL)
    && (pc.Find? && pc.f.CasMark? ==> At(r.next, pc.f.n) == pc.f.h)
  }

  ghost predicate InserterTable<K, V>(c: Config<K, V>, tb: Table<K, V>, pc: Pc<K>) {
    && (pc.Insert? && pc.i.Fill? ==> pc.i.n !in tb.filed)
    && (pc.Insert? && pc.i.File? ==>
          pc.i.n !in tb.filed && 0 <= pc.i.n < |tb.key| && pc.i.n < |tb.value|
          && tb.key[pc.i.n] == pc.k && tb.value[pc.i.n] == c.f(pc.k))
    && (pc.Insert? && (pc.i.LoadHead? || pc.i.StoreNext? || pc.i.CasHead?) ==> pc.i.n in tb.filed)
  }

  ghost predicate InserterMark<K>(r: Recent, pc: Pc<K>) {
    pc.Insert? && pc.i.Fill? ==> MarkAt(r, pc.i.n) == Clear
  }

  ghost predicate InserterList<K>(capacity: nat, l: Lists, pc: Pc<K>) {
    && (pc.Insert? && (pc.i.StoreNext? || pc.i.CasHead?) ==> At(l.prev, pc.i.n) == Head(capacity))
    && (pc.Insert? && pc.i.CasHead? ==> At(l.next, pc.i.n) == pc.i.h)
    && (pc.Insert? && (pc.i.WriteBack? || pc.i.Unmark?) ==> PlaceAt(l, pc.i.n) == Listed)
    && (pc.Insert? && pc.i.WriteBack? ==> At(l.next, pc.i.n) == pc.i.h)
  }

  // ---------- what the consolidator knows ----------

  predicate InPull(con: Con) {
    || con.PullZero? || con.PullLoop? || con.PullSkip? || con.PullRead? || con.PullForward? || con.PullBack?
    || con.PullLocal? || con.PullNext?
  }

  predicate InSplice(con: Con) {
    con.SpliceLoad? || con.SpliceStore? || con.SpliceCas?
  }

  /** The purge is done with the bucket of its node and not yet with the node. */
  predicate Evicting(con: Con) {
    || con.PurgeRead? || con.PurgeForward? || con.PurgeBack? || con.PurgeDelete?
    || con.DisposeLoad? || con.DisposeStore? || con.DisposeCas?
  }

  /** The node of the purge and the one it will look at next. */
  ghost predicate PurgeOk(capacity: nat, l: Lists, con: Con) {
    && (con.PurgeLoop? ==> con.node == Head(capacity) || PlaceAt(l, con.node) == Listed)
    && (con.PurgeCheck? || con.PurgeUnfile? || Evicting(con) ==> PlaceAt(l, con.ahead) == Listed && con.ahead != con.node)
    && (con.PurgeCheck? || con.PurgeUnfile? || con.PurgeRead? || con.PurgeForward? ==>
          PlaceAt(l, con.node) == Listed && At(l.prev, con.node) != Head(capacity))
    && (con.PurgeForward? ==> con.p == At(l.prev, con.node) && con.y == At(l.next, con.node))
    && (con.PurgeBack? ==> PlaceAt(l, con.p) == Listed && At(l.next, con.p) == con.y)
    && (con.PurgeBack? || con.PurgeDelete? || con.DisposeLoad? || con.DisposeStore? || con.DisposeCas? ==>
          PlaceAt(l, con.node) == Taken)
    && (con.DisposeCas? ==> At(l.next, con.node) == con.h)
  }

  /** The slice is what is left to move, the local list what was moved. */
  ghost predicate PullOk(capacity: nat, l: Lists, slice: seq<int>, con: Con) {
    && (!InPull(con) && !InSplice(con) ==> l.temp == [])
    && (!InPull(con) ==> slice == [])
    && (con.PullZero? ==> l.temp == [])
    && (con.PullZero? || con.PullLoop? ==> con.node == First(slice, DUMMY))
    && (con.PullLoop? || con.PullSkip? || con.PullRead? || con.PullForward? || con.PullBack? || con.PullLocal? ==>
          con.last == LocalEnd(capacity, l))
    && (con.PullSkip? || con.PullRead? || con.PullForward? || con.PullBack? || con.PullLocal? || con.PullNext? ==>
          slice != [] && con.node == slice[0])
    && (con.PullSkip? || con.PullRead? || con.PullForward? ==> PlaceAt(l, con.node) == Listed)
    && (con.PullRead? || con.PullForward? ==> At(l.prev, con.node) != Head(capacity))
    && (con.PullForward? ==> con.p == At(l.prev, con.node) && con.y == At(l.next, con.node))
    && (con.PullBack? ==> PlaceAt(l, con.p) == Listed && At(l.next, con.p) == con.y)
    && (con.PullBack? || con.PullLocal? ==> PlaceAt(l, con.node) == Taken)
    && (con.PullNext? ==> l.temp != [] && con.node == LocalEnd(capacity, l))
  }

  ghost predicate SpliceOk(capacity: nat, l: Lists, con: Con) {
    && (InSplice(con) ==> l.temp != [] && con.last == LocalEnd(capacity, l))
    && (con.SpliceStore? || con.SpliceCas? ==> l.temp != [] && con.first == l.temp[0] && At(l.prev, con.first) == Head(capacity))
    && (con.SpliceCas? ==> At(l.next, con.last) == con.h)
    && (con.SpliceBack? ==> PlaceAt(l, con.last) == Listed && At(l.next, con.last) == con.h)
  }

  // ---------- all together ----------

  /** Everything about the LRU list, the local list and the pool. */
  ghost predicate OnLists<K>(capacity: nat, l: Lists, threads: seq<Pc<K>>, con: Con, slice: seq<int>) {
    && ListsOk(capacity, l) && HoldOk(capacity, threads, l) && OwingOk(threads, con, l)
    && (forall t :: 0 <= t < |threads| ==> InserterList(capacity, l, threads[t]))
    && PurgeOk(capacity, l, con) && PullOk(capacity, l, slice, con) && SpliceOk(capacity, l, con)
  }

  /** Everything about the recent links. */
  ghost predicate OnRecent<K>(capacity: nat, r: Recent, threads: seq<Pc<K>>) {
    && RecentOk(capacity, r) && ShieldOk(capacity, threads, r) && MarkingOk(capacity, threads, r)
    && (forall t :: 0 <= t < |threads| ==> FinderMark(r, threads[t]) && InserterMark(r, threads[t]))
  }

  /** Everything about the buckets, their locks and the counter. */
  ghost predicate OnTable<K, V>(c: Config<K, V>, tb: Table<K, V>, count: int, threads: seq<Pc<K>>, con: Con) {
    && TableOk(c, tb) && LockOk(c, threads, tb.locks) && CountOk(count, tb.filed, threads, con)
    && (forall t :: 0 <= t < |threads| ==> FinderTable(tb, threads[t]) && InserterTable(c, tb, threads[t]))
  }

  /** Where a node is decides whether it is filed and how it may be marked. */
  ghost predicate CrossOk(l: Lists, filed: set<int>, r: Recent, con: Con) {
    && (forall x {:trigger PlaceAt(l, x)} :: PlaceAt(l, x) == Free ==> x !in filed && MarkAt(r, x) == Clear)
    && (forall x {:trigger PlaceAt(l, x)} :: PlaceAt(l, x) == Local ==> x in filed)
    && (forall x {:trigger PlaceAt(l, x)} :: PlaceAt(l, x) == Listed && x !in filed ==> ConUnfiled(con, x))
    && (forall x {:trigger PlaceAt(l, x)} :: PlaceAt(l, x) == Taken ==> ConTakes(con, x))
    && (forall x {:trigger MarkAt(r, x)} :: MarkAt(r, x) == Stacked || MarkAt(r, x).Marking? ==>
          x in filed && (PlaceAt(l, x) == Listed || PlaceAt(l, x) == Local))
    && (forall x {:trigger MarkAt(r, x)} :: MarkAt(r, x) == Sliced ==>
          x in filed && (PlaceAt(l, x) == Listed || ConTakes(con, x) || (con.PullNext? && con.node == x)))
    && (Evicting(con) ==> con.node !in filed && MarkAt(r, con.node) == Clear)
  }

  ghost predicate Inv<K, V>(c: Config<K, V>, s: State<K, V>) {
    && OnLists(c.capacity, s.lists, s.threads, s.con, s.recent.slice)
    && OnRecent(c.capacity, s.recent, s.threads)
    && OnTable(c, s.table, s.count, s.threads, s.con)
    && CrossOk(s.lists, s.table.filed, s.recent, s.con)
    && HolderOk(s.lruLock, s.threads, s.con)
    && Delivered(c, s.log)
  }
}
