/** The concurrent DeferredLRU used by one thread is the sequential policy. */
module DeferredSolo {
  import opened Links
  import opened Sequences
  import opened Labels
  import opened Entries
  import opened SharedLists
  import opened DeferredMachine
  import opened DeferredInvariant
  import opened DeferredThreads
  import opened DeferredSafety
  import opened DeferredRequests
  import opened DeferredSessions
  import Policy = DeferredPolicy

  // ---------- what the records of a session amount to ----------

  /** The nodes that were taken are those that are not in `drop`, if exactly the nodes in `drop` were left. */
  lemma {:induction false} GoneIsWithout(seen: seq<Seen>, drop: set<int>)
    requires forall i :: 0 <= i < |seen| ==> (seen[i].Left? <==> seen[i].node in drop)
    ensures Gone(seen) == Without(Nodes(seen), drop)
  {
    if seen != [] {
      var front, x := seen[..|seen| - 1], seen[|seen| - 1];
      GoneIsWithout(front, drop);
      SeenOne(front, x);
      assert seen == front + [x];
      WithoutConcat(Nodes(front), [x.node], drop);
      WithoutOne(x.node, drop);
    }
  }

  lemma {:induction false} StayedIsWithout(seen: seq<Seen>, drop: set<int>)
    requires forall i :: 0 <= i < |seen| ==> (seen[i].Took? <==> seen[i].node in drop)
    ensures Stayed(seen) == Without(Nodes(seen), drop)
  {
    if seen != [] {
      var front, x := seen[..|seen| - 1], seen[|seen| - 1];
      StayedIsWithout(front, drop);
      SeenOne(front, x);
      assert seen == front + [x];
      WithoutConcat(Nodes(front), [x.node], drop);
      WithoutOne(x.node, drop);
    }
  }

  lemma WithoutOne(x: int, drop: set<int>)
    ensures Without([x], drop) == if x in drop then [] else [x]
  {
    assert [x][1..] == [];
  }

  ghost predicate LeftIff(seen: seq<Seen>, marked: seq<int>) {
    forall i :: 0 <= i < |seen| ==> (seen[i].Left? <==> seen[i].node in marked)
  }

  lemma TookIff(seen: seq<Seen>, marked: seq<int>)
    requires LeftIff(seen, marked)
    ensures Gone(seen) == Without(Nodes(seen), Elements(marked))
    ensures Stayed(seen) == Without(Nodes(seen), Elements(Reverse(Gone(seen))))
  {
    GoneIsWithout(seen, Elements(marked));
    WithoutMembers(Nodes(seen), Elements(marked));
    ReverseMembers(Gone(seen));
    forall i | 0 <= i < |seen| ensures seen[i].Took? <==> seen[i].node in Elements(Reverse(Gone(seen))) {
      assert Nodes(seen)[i] == seen[i].node && seen[i].node in Nodes(seen);
    }
    StayedIsWithout(seen, Elements(Reverse(Gone(seen))));
  }

  /** A purge that leaves exactly the marked nodes does what the policy says. */
  lemma PurgeIsPolicy(p: Purge, marked: seq<int>, required: nat)
    requires FromTail(p) && Distinct(p.line) && LeftIff(p.seen, marked)
    requires |Gone(p.seen)| <= Policy.Max(required, 1) && (Rest(p) == [] ==> p.seen == [])
    requires |Gone(p.seen)| < Policy.Max(required, 1) ==> |Rest(p)| <= 1
    ensures Policy.Victims(p.line, marked, required) == Reverse(Gone(p.seen))
    ensures Policy.PurgeOrder(p.line, marked, required) == Rest(p) + Reverse(Stayed(p.seen))
  {
    hide Gone, Stayed, Nodes;
    var rest, back := Rest(p), Reverse(Nodes(p.seen));
    TookIff(p.seen, marked);
    var victims := Reverse(Gone(p.seen));
    ReverseWithout(Nodes(p.seen), Elements(marked));
    ReverseWithout(Nodes(p.seen), Elements(victims));
    ReverseMembers(Gone(p.seen));
    WithoutMembers(Nodes(p.seen), Elements(marked));
    ReverseMembers(Nodes(p.seen));
    NotBehind(rest, back, victims);
    WithoutConcat(rest, back, Elements(victims));
    WithoutNone(rest, Elements(victims));
    if p.line != [] {
      assert p.line[1..] == rest[1..] + back;
      WithoutConcat(rest[1..], back, Elements(marked));
      assert Policy.Candidates(p.line, marked) == Without(rest[1..], Elements(marked)) + victims;
      LastOnes(Without(rest[1..], Elements(marked)), victims, Policy.Max(required, 1));
    } else {
      assert p.seen == [] by { assert |p.seen| <= |p.line|; }
      NoneSeen();
    }
  }

  lemma NoneSeen()
    ensures Nodes([]) == [] && Gone([]) == [] && Stayed([]) == []
  {
  }

  lemma NotBehind(rest: seq<int>, back: seq<int>, victims: seq<int>)
    requires Distinct(rest + back) && forall x :: x in victims ==> x in back
    ensures forall x :: x in rest ==> x !in victims
  {
    forall x | x in rest ensures x !in back {
      var i := IndexOf(rest, x);
      assert (rest + back)[i] == x;
      forall j | 0 <= j < |back| ensures back[j] != x { assert (rest + back)[|rest| + j] == back[j]; }
    }
  }

  lemma LastOnes(front: seq<int>, victims: seq<int>, wanted: int)
    requires |victims| <= wanted && (|victims| < wanted ==> front == [])
    ensures var c := front + victims; c[|c| - Policy.Min(wanted, |c|)..] == victims
  {
  }

  /** A pull that leaves exactly the first node of the list does what the policy says. */
  lemma PullIsPolicy(line: seq<int>, seen: seq<Seen>)
    requires forall i :: 0 <= i < |seen| ==> (seen[i].Left? <==> line != [] && seen[i].node == line[0])
    ensures Gone(seen) == Policy.Moved(line, Nodes(seen))
    ensures Policy.PullOrder(line, Nodes(seen)) == Gone(seen) + Without(line, Elements(Gone(seen)))
  {
    GoneIsWithout(seen, if line == [] then {} else {line[0]});
    if line == [] { WithoutNone(Nodes(seen), {}); }
  }

  // ---------- how far the only thread has got ----------

  function ParamsOf<K, V>(c: Config<K, V>): Policy.Params {
    Policy.Params(c.capacity, c.pullThreshold, c.purgeThreshold)
  }

  /** The given nodes hold the keys of the cache, each key once. */
  ghost predicate Shows<K>(keys: seq<K>, order: seq<int>, marked: seq<int>, x: Policy.Cache<K>) {
    && Label(order, keys) == x.lru && Label(marked, keys) == x.recent
    && Named(order, keys) && Within(marked, order)
  }

  /** The LRU list and the Recent list show the cache, and nobody has asked for anything. */
  ghost predicate Rests<K, V>(s: State<K, V>, x: Policy.Cache<K>) {
    && Shows(s.table.key, s.lists.order, s.recent.stack, x)
    && s.recent.count == |s.recent.stack| && !s.pullRequest && !s.purgeRequest
  }

  /** The cache after the mark of a find. */
  function Touch<K(==)>(x: Policy.Cache<K>, k: K): Policy.Cache<K> {
    if k in x.lru && k !in x.recent then x.(recent := [k] + x.recent) else x
  }

  predicate HasKey<K(==), V>(s: State<K, V>, n: int, k: K) {
    0 <= n < |s.table.key| && s.table.key[n] == k
  }

  /** A find: its mark is not made yet, pushed but not counted, or made. */
  ghost predicate AtFind<K, V>(c: Config<K, V>, s: State<K, V>, f: FindPc, x: Policy.Cache<K>, k: K) {
    && (f.Lock? || f.Search? ==> Rests(s, x))
    && (f.Check? || f.LoadMark? || f.StoreMark? || f.CasMark? ==> Rests(s, x) && f.n in s.lists.order && HasKey(s, f.n, k))
    && (f.LoadMark? || f.StoreMark? || f.CasMark? ==> f.n !in s.recent.stack)
    && (f.CountMark? ==> k in x.lru && Rests(s.(recent := s.recent.(count := s.recent.count + 1)), Touch(x, k)))
    && (f.Unlock? || f.TestThreshold? || f.RequestPull? ==> Rests(s, Touch(x, k)) && (f.found <==> k in x.lru))
    && (f.RequestPull? ==> |Touch(x, k).recent| >= c.pullThreshold)
  }

  /** A pull is due. */
  ghost predicate PullDue<K, V>(c: Config<K, V>, s: State<K, V>, after: After<K>, x: Policy.Cache<K>, k: K) {
    && Rests(s.(pullRequest := false), Touch(x, k)) && s.pullRequest && |Touch(x, k).recent| >= c.pullThreshold
    && !after.Retry? && (after.Finish? <==> k in x.lru) && (after.Compute? ==> after.k == k)
  }

  /** The list is full, and a purge is due. */
  ghost predicate PurgeDue<K(!new), V>(c: Config<K, V>, s: State<K, V>, after: After<K>, x: Policy.Cache<K>, k: K) {
    var mid := Policy.Find(ParamsOf(c), x, k);
    && Rests(s.(purgeRequest := false), mid) && s.purgeRequest && |mid.lru| == c.capacity
    && after == Retry(k) && k !in x.lru
  }

  /** Where the pull's own record of the LRU order is the one it began with. */
  function Origin(con: Con, q: Pull): seq<int> {
    if (con.SpliceBack? || con.PullDone?) && q.front != [] then q.before else q.line
  }

  ghost predicate LeftFirst(seen: seq<Seen>, line: seq<int>) {
    forall i :: 0 <= i < |seen| ==> (seen[i].Left? <==> line != [] && seen[i].node == line[0])
  }

  ghost predicate SoloPull<K, V>(s: State<K, V>, q: Pull, x: Policy.Cache<K>) {
    var con, o := s.con, Origin(s.con, q);
    && Shows(s.table.key, o, q.popped, x) && Distinct(o) && s.recent.stack == [] && s.pullRequest && !s.purgeRequest
    && LeftFirst(q.seen, o)
    && (con.PullRead? || con.PullForward? || Carrying(con) ==> o != [] && con.node != o[0])
    && (!con.PullZero? ==> s.recent.count == 0)
    && ((con.SpliceBack? || con.PullDone?) && q.front != [] ==> s.lists.order == q.after)
  }

  ghost predicate SoloPurge<K, V>(c: Config<K, V>, s: State<K, V>, p: Purge, x: Policy.Cache<K>) {
    && Shows(s.table.key, p.line, s.recent.stack, x) && Distinct(p.line) && LeftIff(p.seen, s.recent.stack)
    && s.purgeRequest && !s.pullRequest && s.recent.count == |s.recent.stack|
    && (s.con.PurgeLoop? && s.con.node == Head(c.capacity) ==> p.line == [])
    && (s.con.PurgeDone? && |Gone(p.seen)| < Policy.Max(c.purgeThreshold, 1) ==> |Rest(p)| <= 1)
  }

  ghost predicate AtPull<K(!new), V>(c: Config<K, V>, s: State<K, V>, h: Session, after: After<K>, x: Policy.Cache<K>, k: K) {
    && !after.Retry? && (after.Finish? <==> k in x.lru) && (after.Compute? ==> after.k == k)
    && |Touch(x, k).recent| >= c.pullThreshold
    && (s.con.PurgeTest? || s.con.PullTest? || s.con.PullPop? || PullRuns(s.con) || s.con.Release?)
    && (s.con.PurgeTest? || s.con.PullTest? || s.con.PullPop? ==> PullDue(c, s, after, x, k))
    && (PullRuns(s.con) && !s.con.PullPop? ==> SoloPull(s, h.pull, Touch(x, k)))
    && (s.con.Release? ==> Rests(s, Policy.Find(ParamsOf(c), x, k)))
  }

  ghost predicate AtPurge<K(!new), V>(c: Config<K, V>, s: State<K, V>, h: Session, after: After<K>,
                                      x: Policy.Cache<K>, k: K) {
    var mid := Policy.Find(ParamsOf(c), x, k);
    && after == Retry(k) && k !in x.lru && |mid.lru| == c.capacity && (Purging(s.con) || s.con.PullTest? || s.con.Release?)
    && (s.con.PurgeTest? || s.con.PurgeStart? ==> PurgeDue(c, s, after, x, k))
    && (Purging(s.con) && !s.con.PurgeTest? && !s.con.PurgeStart? ==> SoloPurge(c, s, h.purge, mid))
    && (s.con.PullTest? || s.con.Release? ==> Rests(s, Policy.MakeRoom(ParamsOf(c), mid)))
  }

  /** An insertion: the room for it is not made yet, or made, or the node is in its place. */
  ghost predicate AtInsert<K(!new), V>(c: Config<K, V>, s: State<K, V>, i: InsertPc, x: Policy.Cache<K>, k: K) {
    var mid := Policy.Find(ParamsOf(c), x, k);
    var room := Policy.MakeRoom(ParamsOf(c), mid);
    && k !in x.lru
    && (i.Reserve? ==> Rests(s, mid))
    && (i.Allocate? ==> Rests(s, mid) || (Rests(s, room) && |mid.lru| == c.capacity))
    && (i.RequestPurge? ==> Rests(s, mid) && |mid.lru| == c.capacity)
    && (i.Fill? || i.File? || i.LoadHead? || i.StoreNext? || i.CasHead? ==> Rests(s, room))
    && (i.File? || i.LoadHead? || i.StoreNext? || i.CasHead? ==> HasKey(s, i.n, k))
    && (i.WriteBack? || i.Unmark? ==> Rests(s, Policy.Insert(ParamsOf(c), mid, k)))
  }

  ghost predicate Stage<K(!new), V>(c: Config<K, V>, s: State<K, V>, h: Session, pc: Pc<K>, x: Policy.Cache<K>, k: K) {
    && Policy.Marks(x.lru, x.recent)
    && match pc
       case Idle => false
       case Find(k', f) => k' == k && AtFind(c, s, f, x, k)
       case Produce(k') => k' == k && k !in x.lru && Rests(s, Policy.Find(ParamsOf(c), x, k))
       case Insert(k', i) => k' == k && AtInsert(c, s, i, x, k)
       case Try(after) => PullDue(c, s, after, x, k) || PurgeDue(c, s, after, x, k)
       case Consolidate(after) => AtPull(c, s, h, after, x, k) || AtPurge(c, s, h, after, x, k)
  }

  /** The cache shown is the one of the policy after the keys asked for, as far as the thread has got with the last one. */
  ghost predicate Solo<K(!new), V>(c: Config<K, V>, s: State<K, V>, h: Session, asked: seq<K>) {
    && |s.threads| == 1
    && if s.threads[0].Idle? then Rests(s, Policy.Run(ParamsOf(c), asked))
       else asked != [] && Stage(c, s, h, s.threads[0], Policy.Run(ParamsOf(c), asked[..|asked| - 1]), asked[|asked| - 1])
  }

  // ---------- what holds with one thread ----------

  lemma ListShape<K, V>(c: Config<K, V>, s: State<K, V>)
    requires Inv(c, s)
    ensures WellFormed(c, s) && Distinct(s.lists.order) && InRange(s.lists.order, c.capacity)
    ensures Distinct(s.recent.stack) && InRange(s.recent.stack, c.capacity)
  {
    hide OnTable, CrossOk, HolderOk, Delivered, OwingOk, HoldOk, InserterList, PurgeOk, PullOk, SpliceOk, Side, ShieldOk,
         MarkingOk, FinderMark, InserterMark;
    Shape(c, s);
    DistinctOrder(c, s);
    ChainInRange(s.recent.next, s.recent.stack, DUMMY);
  }

  /** While the only thread does not hold the LRU lock nobody does. */
  lemma NobodyHolds<K, V>(c: Config<K, V>, s: State<K, V>)
    requires Inv(c, s) && |s.threads| == 1 && !s.threads[0].Consolidate?
    ensures s.con.Off? && s.lruLock == NULL && s.lists.temp == [] && s.recent.slice == []
  {
    hide OnRecent, OnTable, CrossOk, Delivered, ListsOk, OwingOk, HoldOk, InserterList, PurgeOk, SpliceOk;
  }

  /** While the only thread is not inserting and nobody holds the LRU lock, the filed nodes are those of the LRU list. */
  lemma FiledListed<K, V>(c: Config<K, V>, s: State<K, V>)
    requires Inv(c, s) && |s.threads| == 1 && s.con.Off? && !s.threads[0].Insert?
    ensures forall x :: x in s.table.filed <==> x in s.lists.order
  {
    hide OnRecent, HolderOk, Delivered, OwingOk, InserterList, PurgeOk, SpliceOk, Main, Side, LockOk, CountOk, FinderTable,
         InserterTable;
    forall x ensures x in s.table.filed <==> x in s.lists.order {
      var p := PlaceAt(s.lists, x);
      if x in s.lists.order { var i := IndexOf(s.lists.order, x); }
      if x in s.table.filed { assert p != Local && !p.Owned?; }
    }
  }

  /** While the only thread is marking nothing and no pull is going on, the marked nodes are those of the Recent list. */
  lemma MarkedStacked<K, V>(c: Config<K, V>, s: State<K, V>, n: int)
    requires Inv(c, s) && |s.threads| == 1 && s.recent.slice == [] && 0 <= n < c.capacity
    requires (forall x :: !Shields(s.threads[0], x)) && (forall x :: !MarksNow(s.threads[0], x))
    ensures At(s.recent.next, n) != NULL <==> n in s.recent.stack
  {
    hide OnLists, OnTable, CrossOk, HolderOk, Delivered, FinderMark, InserterMark, Shields, MarksNow;
    var m := MarkAt(s.recent, n);
    assert !m.Shield? && !m.Marking?;
  }

  /** Keys and nodes are the same thing. */
  lemma ShownKey<K, V>(c: Config<K, V>, s: State<K, V>, order: seq<int>, marked: seq<int>, x: Policy.Cache<K>, n: int, k: K)
    requires Shows(s.table.key, order, marked, x) && HasKey(s, n, k) && n in order
    ensures k in x.lru && (n in marked <==> k in x.recent)
  {
    LabelMember(n, order, order, s.table.key);
    LabelMember(n, marked, order, s.table.key);
  }

  lemma KeyShown<K, V>(s: State<K, V>, order: seq<int>, marked: seq<int>, x: Policy.Cache<K>, k: K)
    requires Shows(s.table.key, order, marked, x) && k in x.lru
    ensures exists n :: n in order && HasKey(s, n, k)
  {
    LabelAt(order, s.table.key);
    var i := IndexOf(x.lru, k);
    assert order[i] in order && HasKey(s, order[i], k);
  }

  /** As many keys as nodes. */
  lemma ShownSizes<K, V>(s: State<K, V>, order: seq<int>, marked: seq<int>, x: Policy.Cache<K>)
    requires Shows(s.table.key, order, marked, x)
    ensures |x.lru| == |order| && |x.recent| == |marked|
  {
    LabelAt(order, s.table.key);
    WithinRange(marked, order, s.table.key);
    LabelAt(marked, s.table.key);
  }

  lemma DistinctKeys<K>(nodes: seq<int>, all: seq<int>, keys: seq<K>)
    requires Named(all, keys) && Within(nodes, all) && Distinct(nodes)
    ensures Distinct(Label(nodes, keys))
  {
    WithinRange(nodes, all, keys);
    LabelAt(nodes, keys);
    var l := Label(nodes, keys);
    forall i, j | 0 <= i < j < |l| ensures l[i] != l[j] {
      assert nodes[i] in nodes && nodes[j] in nodes;
    }
  }

  lemma ShownMarks<K(!new), V>(s: State<K, V>, order: seq<int>, marked: seq<int>, x: Policy.Cache<K>)
    requires Shows(s.table.key, order, marked, x) && Distinct(order) && Distinct(marked)
    ensures Policy.Marks(x.lru, x.recent)
  {
    DistinctKeys(order, order, s.table.key);
    DistinctKeys(marked, order, s.table.key);
    WithinRange(marked, order, s.table.key);
    LabelAt(marked, s.table.key);
    forall k | k in x.recent ensures k in x.lru {
      var i := IndexOf(x.recent, k);
      assert marked[i] in marked;
      LabelMember(marked[i], order, order, s.table.key);
    }
  }

  // ---------- a find ----------

  lemma SoloSearch<K(!new), V>(c: Config<K, V>, s: State<K, V>, x: Policy.Cache<K>, k: K)
    requires Inv(c, s) && WellFormed(c, s) && |s.threads| == 1 && s.threads[0].Find? && Rests(s, x)
    ensures var n := Seek(s.table.chains[BucketOf(c, k)], s.table.key, k);
      if 0 <= n < c.capacity then n in s.lists.order && HasKey(s, n, k) else k !in x.lru
  {
    hide Inv;
    var chain := s.table.chains[BucketOf(c, k)];
    NobodyHolds(c, s);
    FiledListed(c, s);
    SearchFinds(c, s, k);
    SeekFinds(chain, s.table.key, k);
    ChainFiled(c, s, BucketOf(c, k));
    if k in x.lru {
      KeyShown(s, s.lists.order, s.recent.stack, x, k);
      var n :| n in s.lists.order && HasKey(s, n, k);
      assert SomeFiled(s.table, k);
    }
  }

  lemma ChainFiled<K, V>(c: Config<K, V>, s: State<K, V>, b: nat)
    requires Inv(c, s) && WellFormed(c, s) && b < c.buckets
    ensures forall x :: x in s.table.chains[b] ==> x in s.table.filed
  {
    hide OnLists, OnRecent, CrossOk, HolderOk, Delivered, LockOk, CountOk, FinderTable, InserterTable;
  }

  /** What a step of a find leaves as it was, and what it does to the marks. */
  lemma FindStage<K(!new), V>(c: Config<K, V>, s: State<K, V>, s': State<K, V>, e: Choice<K>, x: Policy.Cache<K>, k: K)
    requires Inv(c, s) && WellFormed(c, s) && |s.threads| == |s'.threads| == 1 && s.threads[0].Find? && e.thread == 0
    requires s.threads[0].k == k && s' == FindStep(c, s, 0, k, s.threads[0].f, e.fails) && AtFind(c, s, s.threads[0].f, x, k)
    ensures var pc := s'.threads[0];
      && (pc.Find? || pc.Idle? || pc.Produce? || pc.Try?)
      && (pc.Find? ==> pc.k == k && AtFind(c, s', pc.f, x, k))
      && (pc.Produce? ==> pc.k == k && k !in x.lru && Rests(s', Policy.Find(ParamsOf(c), x, k)))
      && (pc.Idle? ==> k in x.lru && Rests(s', Policy.Find(ParamsOf(c), x, k)))
      && (pc.Try? ==> PullDue(c, s', pc.after, x, k))
  {
    hide Inv, Shows, Label, Named, WellFormed, Policy.PullOrder;
    var f := s.threads[0].f;
    if f.Search? { SoloSearch(c, s, x, k); }
    else if f.Check? { CheckStage(c, s, x, k); }
    else if f.CasMark? { CasStage(c, s, s', e, x, k); }
    else if f.TestThreshold? { ShownSizes(s, s.lists.order, s.recent.stack, Touch(x, k)); }
  }

  /** The check sees whether the key is marked. */
  lemma CheckStage<K(!new), V>(c: Config<K, V>, s: State<K, V>, x: Policy.Cache<K>, k: K)
    requires Inv(c, s) && WellFormed(c, s) && |s.threads| == 1 && s.threads[0].Find? && s.threads[0].f.Check?
    requires AtFind(c, s, s.threads[0].f, x, k)
    ensures k in x.lru && (At(s.recent.next, s.threads[0].f.n) != NULL <==> s.threads[0].f.n in s.recent.stack)
    ensures At(s.recent.next, s.threads[0].f.n) != NULL ==> Touch(x, k) == x
  {
    hide Inv, Label, Named;
    NobodyHolds(c, s);
    MarkedStacked(c, s, s.threads[0].f.n);
    ShownKey(c, s, s.lists.order, s.recent.stack, x, s.threads[0].f.n, k);
  }

  /** The push on the Recent list is the mark of the policy. */
  lemma CasStage<K(!new), V>(c: Config<K, V>, s: State<K, V>, s': State<K, V>, e: Choice<K>, x: Policy.Cache<K>, k: K)
    requires Inv(c, s) && WellFormed(c, s) && |s.threads| == |s'.threads| == 1 && s.threads[0].Find?
    requires s.threads[0].f.CasMark?
    requires s.threads[0].k == k && s' == FindStep(c, s, 0, k, s.threads[0].f, e.fails) && AtFind(c, s, s.threads[0].f, x, k)
    ensures s'.threads[0].Find? && s'.threads[0].k == k && AtFind(c, s', s'.threads[0].f, x, k)
  {
    hide Inv;
    var n := s.threads[0].f.n;
    ShownKey(c, s, s.lists.order, s.recent.stack, x, n, k);
    LabelOne(n, s.table.key);
    LabelConcat([n], s.recent.stack, s.table.key);
  }

  // ---------- an insertion ----------

  /** With one thread that holds no node, every node is in the LRU list or in the pool. */
  lemma PoolSize<K, V>(c: Config<K, V>, s: State<K, V>)
    requires Inv(c, s) && |s.threads| == 1 && s.threads[0].Insert? && s.threads[0].i.Allocate?
    ensures |s.lists.order| <= c.capacity && (s.lists.pool == [] <==> |s.lists.order| == c.capacity)
    ensures s.lists.ehead == NULL <==> s.lists.pool == []
  {
    hide OnRecent, OnTable, Delivered, OwingOk, InserterList, PurgeOk, SpliceOk, Main;
    PoolHead(c, s);
    NobodyHolds(c, s);
    var order := s.lists.order;
    ListShape(c, s);
    DistinctBelow(order, c.capacity);
    forall x | 0 <= x < c.capacity ensures x in order || x in s.lists.pool {
      var p := PlaceAt(s.lists, x);
      assert !p.Owned? && p != Local && p != SharedLists.Taken;
    }
    if s.lists.pool != [] {
      var x := s.lists.pool[0];
      assert x in s.lists.pool && 0 <= x < c.capacity && x !in order;
    }
  }

  /** Nothing to evict, nothing evicted. */
  lemma NoRoom<K(!new)>(p: Policy.Params, mid: Policy.Cache<K>)
    requires Policy.Marks(mid.lru, mid.recent) && |Policy.MakeRoom(p, mid).lru| == |mid.lru|
    ensures Policy.MakeRoom(p, mid) == mid
  {
    Policy.PurgeEffect(mid.lru, mid.recent, p.purgeThreshold);
    if |mid.lru| >= p.capacity {
      assert Policy.Victims(mid.lru, mid.recent, p.purgeThreshold) == [];
      WithoutNone(mid.lru, Elements(Policy.Victims(mid.lru, mid.recent, p.purgeThreshold)));
    }
  }

  /** A find keeps what is cached and what may be marked. */
  lemma FindMarks<K(!new)>(p: Policy.Params, x: Policy.Cache<K>, k: K)
    requires Policy.Marks(x.lru, x.recent)
    ensures var mid := Policy.Find(p, x, k); Policy.Marks(mid.lru, mid.recent) && forall y :: y in mid.lru <==> y in x.lru
  {
    var t := Touch(x, k);
    Policy.PullPermutes(t.lru, t.recent);
  }

  lemma RoomMarks<K(!new)>(p: Policy.Params, mid: Policy.Cache<K>)
    requires Policy.Marks(mid.lru, mid.recent)
    ensures var room := Policy.MakeRoom(p, mid); Policy.Marks(room.lru, room.recent) && forall y :: y in room.lru ==> y in mid.lru
  {
    Policy.PurgeEffect(mid.lru, mid.recent, p.purgeThreshold);
  }

  lemma AllocateStage<K(!new), V>(c: Config<K, V>, s: State<K, V>, s': State<K, V>, e: Choice<K>, x: Policy.Cache<K>, k: K)
    requires Inv(c, s) && WellFormed(c, s) && |s.threads| == |s'.threads| == 1 && s.threads[0].Insert?
    requires s.threads[0].i.Allocate?
    requires s' == InsertStep(c, s, 0, k, s.threads[0].i, e.fails) && AtInsert(c, s, s.threads[0].i, x, k)
    requires Policy.Marks(x.lru, x.recent)
    ensures s'.threads[0].Insert? && s'.threads[0].k == k && AtInsert(c, s', s'.threads[0].i, x, k)
  {
    hide Inv, Shows, Policy.Find, Policy.MakeRoom, WellFormed;
    var mid := Policy.Find(ParamsOf(c), x, k);
    var room := Policy.MakeRoom(ParamsOf(c), mid);
    PoolSize(c, s);
    FindMarks(ParamsOf(c), x, k);
    if Rests(s, mid) {
      ShownSizes(s, s.lists.order, s.recent.stack, mid);
      if s.lists.pool != [] { Roomy(ParamsOf(c), mid); }
    } else {
      ShownSizes(s, s.lists.order, s.recent.stack, room);
      if s.lists.pool == [] { NoRoom(ParamsOf(c), mid); }
    }
  }

  lemma Roomy<K(!new)>(p: Policy.Params, mid: Policy.Cache<K>)
    requires |mid.lru| < p.capacity
    ensures Policy.MakeRoom(p, mid) == mid
  {
  }

  /** Filling a node outside the list. */
  lemma FillStage<K(!new), V>(c: Config<K, V>, s: State<K, V>, s': State<K, V>, e: Choice<K>, x: Policy.Cache<K>, k: K)
    requires Inv(c, s) && WellFormed(c, s) && |s.threads| == |s'.threads| == 1 && s.threads[0].Insert? && s.threads[0].i.Fill?
    requires s' == InsertStep(c, s, 0, k, s.threads[0].i, e.fails) && AtInsert(c, s, s.threads[0].i, x, k)
    ensures s'.threads[0].Insert? && s'.threads[0].k == k && AtInsert(c, s', s'.threads[0].i, x, k)
  {
    hide Inv, Policy.Find, Policy.MakeRoom;
    var n := s.threads[0].i.n;
    OwnsAside(c, s);
    assert n !in s.recent.stack;
    LabelWrite(s.lists.order, s.table.key, n, k);
    LabelWrite(s.recent.stack, s.table.key, n, k);
  }

  /** The node that the only thread is inserting is outside the LRU list. */
  lemma OwnsAside<K, V>(c: Config<K, V>, s: State<K, V>)
    requires Inv(c, s) && |s.threads| == 1 && s.threads[0].Insert?
    requires var i := s.threads[0].i; i.Fill? || i.File? || i.LoadHead? || i.StoreNext? || i.CasHead?
    ensures 0 <= s.threads[0].i.n < c.capacity && s.threads[0].i.n !in s.lists.order
  {
    hide OnRecent, OnTable, CrossOk, HolderOk, Delivered, OwingOk, InserterList, PurgeOk, PullOk, SpliceOk, Main, Side;
    assert Holds(s.threads[0], s.threads[0].i.n);
  }

  /** The node becomes the first one of the list. */
  lemma LinkStage<K(!new), V>(c: Config<K, V>, s: State<K, V>, s': State<K, V>, e: Choice<K>, x: Policy.Cache<K>, k: K)
    requires Inv(c, s) && WellFormed(c, s) && |s.threads| == |s'.threads| == 1 && s.threads[0].Insert?
    requires s.threads[0].i.CasHead?
    requires s' == InsertStep(c, s, 0, k, s.threads[0].i, e.fails) && AtInsert(c, s, s.threads[0].i, x, k)
    requires Policy.Marks(x.lru, x.recent)
    ensures s'.threads[0].Insert? && s'.threads[0].k == k && AtInsert(c, s', s'.threads[0].i, x, k)
  {
    hide Inv, Policy.Find, Policy.MakeRoom;
    var n := s.threads[0].i.n;
    var mid := Policy.Find(ParamsOf(c), x, k);
    var room := Policy.MakeRoom(ParamsOf(c), mid);
    OwnsAside(c, s);
    FindMarks(ParamsOf(c), x, k);
    RoomMarks(ParamsOf(c), mid);
    assert k !in room.lru;
    LinkShown(s.table.key, s.lists.order, s.recent.stack, room, n, k);
  }

  lemma LinkShown<K>(keys: seq<K>, order: seq<int>, marked: seq<int>, x: Policy.Cache<K>, n: int, k: K)
    requires Shows(keys, order, marked, x) && 0 <= n < |keys| && keys[n] == k && n !in order && k !in x.lru
    ensures Shows(keys, [n] + order, marked, x.(lru := [k] + x.lru))
  {
    LabelOne(n, keys);
    LabelConcat([n], order, keys);
    forall y | y in order ensures 0 <= y < |keys| && keys[y] != k {
      var i := IndexOf(order, y);
      LabelMember(y, order, order, keys);
    }
  }

  lemma InsertStage<K(!new), V>(c: Config<K, V>, s: State<K, V>, s': State<K, V>, e: Choice<K>, x: Policy.Cache<K>, k: K)
    requires Inv(c, s) && WellFormed(c, s) && |s.threads| == |s'.threads| == 1 && s.threads[0].Insert? && s.threads[0].k == k
    requires s' == InsertStep(c, s, 0, k, s.threads[0].i, e.fails) && AtInsert(c, s, s.threads[0].i, x, k)
    requires Policy.Marks(x.lru, x.recent)
    ensures var pc := s'.threads[0];
      && (pc.Insert? || pc.Idle? || pc.Try?)
      && (pc.Insert? ==> pc.k == k && AtInsert(c, s', pc.i, x, k))
      && (pc.Idle? ==> k !in x.lru && Rests(s', Policy.Insert(ParamsOf(c), Policy.Find(ParamsOf(c), x, k), k)))
      && (pc.Try? ==> PurgeDue(c, s', pc.after, x, k))
  {
    hide Inv, Shows, Policy.Find, Policy.MakeRoom, Policy.Insert, WellFormed;
    var i := s.threads[0].i;
    if i.Allocate? { AllocateStage(c, s, s', e, x, k); }
    else if i.Fill? { FillStage(c, s, s', e, x, k); }
    else if i.CasHead? { LinkStage(c, s, s', e, x, k); }
  }

  // ---------- a pull ----------

  /** While the only thread holds the LRU lock and owes no link itself, every back link is right. */
  lemma BehindHead<K, V>(c: Config<K, V>, s: State<K, V>, x: int)
    requires Inv(c, s) && |s.threads| == 1 && s.threads[0].Consolidate? && (s.con.PullLoop? || s.con.PurgeLoop?)
    requires x in s.lists.order
    ensures At(s.lists.prev, x) == Head(c.capacity) <==> x == s.lists.order[0]
  {
    hide OnRecent, OnTable, CrossOk, HolderOk, Delivered, HoldOk, InserterList, PurgeOk, PullOk, SpliceOk, Side;
    var path := Path(c.capacity, s.lists.order);
    var i := IndexOf(s.lists.order, x);
    assert path[i + 1] == x && x !in s.lists.owed;
    assert s.lists.prev[path[i + 1]] == path[i];
    if i > 0 { assert path[i] == s.lists.order[i - 1]; }
    ListShape(c, s);
  }

  /** The first node of the list stays the first one while a pull takes out others. */
  lemma FirstStays(line: seq<int>, drop: set<int>)
    requires line != [] && line[0] !in drop
    ensures Without(line, drop) != [] && Without(line, drop)[0] == line[0]
  {
  }

  lemma FirstNotGone(seen: seq<Seen>, line: seq<int>)
    requires line != [] && LeftFirst(seen, line)
    ensures line[0] !in Gone(seen)
  {
    GoneIsWithout(seen, {line[0]});
    WithoutMembers(Nodes(seen), {line[0]});
  }

  lemma PullBegins<K(!new), V>(c: Config<K, V>, s: State<K, V>, s': State<K, V>, q: Pull, after: After<K>,
                               x: Policy.Cache<K>, k: K, fails: bool)
    requires Inv(c, s) && WellFormed(c, s) && s.con.PullPop? && PullDue(c, s, after, x, k) && s' == PullStep(c, s, fails)
    ensures SoloPull(s', ObservePull(c, s, s', q), Touch(x, k))
  {
    hide Inv, Shows, WellFormed;
    ListShape(c, s);
  }

  /** The pull finds the first node of the list behind the head, and no other. */
  lemma PullLooked<K(!new), V>(c: Config<K, V>, s: State<K, V>, s': State<K, V>, q: Pull, x: Policy.Cache<K>, fails: bool)
    requires Inv(c, s) && WellFormed(c, s) && |s.threads| == 1 && s.threads[0].Consolidate? && s.con.PullLoop?
    requires SoloPull(s, q, x) && PullTrack(s.lists, s.recent.slice, s.con, q) && s' == PullStep(c, s, fails)
    ensures SoloPull(s', ObservePull(c, s, s', q), x)
  {
    hide Inv, Shows, WellFormed, Gone, Nodes, Without;
    SliceKnown(c, s);
    var slice := s.recent.slice;
    if slice != [] {
      var node := slice[0];
      assert node in q.popped by { assert q.popped[|Nodes(q.seen)|] == node; }
      InLine(s.table.key, q.line, q.popped, x, node);
      FirstNotGone(q.seen, q.line);
      FirstStays(q.line, Elements(s.lists.temp) + {});
      StillListed(c, s, node, q);
      BehindHead(c, s, node);
    }
  }

  lemma InLine<K>(keys: seq<K>, line: seq<int>, popped: seq<int>, x: Policy.Cache<K>, node: int)
    requires Shows(keys, line, popped, x) && node in popped
    ensures node in line && line != []
  {
  }

  /** A node of the slice is in the LRU list. */
  lemma StillListed<K, V>(c: Config<K, V>, s: State<K, V>, node: int, q: Pull)
    requires Inv(c, s) && s.con.PullLoop? && s.recent.slice != [] && node == s.recent.slice[0]
    ensures node in s.lists.order
  {
    hide OnTable, HolderOk, Delivered, OwingOk, HoldOk, InserterList, PurgeOk, SpliceOk, Main, Side, ShieldOk, MarkingOk,
         FinderMark, InserterMark;
    ChainInRange(s.recent.next, s.recent.slice, DUMMY);
    assert node in s.recent.slice && MarkAt(s.recent, node) == Sliced;
  }

  lemma PullGoes<K(!new), V>(c: Config<K, V>, s: State<K, V>, s': State<K, V>, q: Pull, x: Policy.Cache<K>, fails: bool)
    requires Inv(c, s) && WellFormed(c, s) && SoloPull(s, q, x) && PullTrack(s.lists, s.recent.slice, s.con, q)
    requires PullRuns(s.con) && !s.con.PullPop? && !s.con.PullLoop? && !s.con.PullDone? && s' == PullStep(c, s, fails)
    ensures SoloPull(s', ObservePull(c, s, s', q), x)
  {
    hide Inv, Shows, WellFormed, Gone, Nodes, Without, Distinct;
    if InPull(s.con) || InSplice(s.con) { SliceKnown(c, s); }
  }

  /** The pull of the policy has been carried out. */
  lemma PullEnds<K(!new), V>(c: Config<K, V>, s: State<K, V>, s': State<K, V>, q: Pull, x: Policy.Cache<K>, k: K)
    requires s.con.PullDone? && SoloPull(s, q, Touch(x, k)) && PullSound(s.lists.order, q)
    requires |Touch(x, k).recent| >= c.pullThreshold && s' == s.(pullRequest := false, con := Con.Release)
    ensures Rests(s', Policy.Find(ParamsOf(c), x, k))
  {
    hide Gone, Nodes, Without, Label, Named;
    var o := Origin(s.con, q);
    PullIsPolicy(o, q.seen);
    if q.front == [] { NothingMoved(o); }
    assert s.lists.order == Policy.PullOrder(o, q.popped);
    LabelPull(o, q.popped, s.table.key);
    NamedWithin(s.lists.order, o, s.table.key);
    NoLabel(s.table.key);
  }

  lemma NothingMoved(line: seq<int>)
    ensures [] + Without(line, Elements<int>([])) == line
  {
    WithoutNone(line, Elements<int>([]));
  }

  lemma NoLabel<K>(keys: seq<K>)
    ensures Label([], keys) == []
  {
  }

  // ---------- a purge ----------

  lemma PurgeBegins<K(!new), V>(c: Config<K, V>, s: State<K, V>, s': State<K, V>, p: Purge, after: After<K>,
                                x: Policy.Cache<K>, k: K, fails: bool)
    requires Inv(c, s) && WellFormed(c, s) && |s.threads| == 1 && s.threads[0].Consolidate? && s.con.PurgeStart?
    requires PurgeDue(c, s, after, x, k) && s' == PurgeStep(c, s, fails)
    ensures SoloPurge(c, s', ObservePurge(c, s, s', p), Policy.Find(ParamsOf(c), x, k))
  {
    hide Inv, Shows, WellFormed, Policy.Find;
    ListShape(c, s);
    TailBehind(c, s);
  }

  lemma TailBehind<K, V>(c: Config<K, V>, s: State<K, V>)
    requires Inv(c, s) && |s.threads| == 1 && s.threads[0].Consolidate? && s.con.PurgeStart?
    ensures At(s.lists.prev, Tail(c.capacity)) == Head(c.capacity) ==> s.lists.order == []
  {
    hide OnRecent, OnTable, CrossOk, HolderOk, Delivered, HoldOk, InserterList, PurgeOk, PullOk, SpliceOk, Side;
    var path := Path(c.capacity, s.lists.order);
    var i := |path| - 2;
    assert path[i + 1] == Tail(c.capacity) && Tail(c.capacity) !in s.lists.owed;
    assert s.lists.prev[path[i + 1]] == path[i];
    if s.lists.order != [] {
      assert path[i] == s.lists.order[|s.lists.order| - 1] && path[i] in s.lists.order;
      ListShape(c, s);
    }
  }

  /** The purge stops at the first node of the list. */
  lemma PurgeLooked<K(!new), V>(c: Config<K, V>, s: State<K, V>, s': State<K, V>, p: Purge, x: Policy.Cache<K>, fails: bool)
    requires Inv(c, s) && WellFormed(c, s) && |s.threads| == 1 && s.threads[0].Consolidate? && s.con.PurgeLoop?
    requires SoloPurge(c, s, p, x) && PurgeTrack(c, s.lists.order, s.con, p) && s' == PurgeStep(c, s, fails)
    ensures SoloPurge(c, s', ObservePurge(c, s, s', p), x)
  {
    hide Inv, Shows, WellFormed, Gone, Nodes, Stayed, Reverse;
    var rest, kept := Rest(p), Reverse(Stayed(p.seen));
    if s.con.node != Head(c.capacity) {
      ListShape(c, s);
      assert s.lists.order[|rest| - 1] == s.con.node;
      BehindHead(c, s, s.con.node);
    }
  }

  /** A purge leaves exactly the marked nodes. */
  lemma PurgeDecides<K(!new), V>(c: Config<K, V>, s: State<K, V>, s': State<K, V>, p: Purge, x: Policy.Cache<K>, fails: bool)
    requires Inv(c, s) && WellFormed(c, s) && |s.threads| == 1 && s.threads[0].Consolidate?
    requires s.con.PurgeCheck? || s.con.PurgeUnfile? || s.con.DisposeCas?
    requires SoloPurge(c, s, p, x) && PurgeTrack(c, s.lists.order, s.con, p) && s' == PurgeStep(c, s, fails)
    ensures SoloPurge(c, s', ObservePurge(c, s, s', p), x)
  {
    hide Inv, Shows, Gone, Nodes, Stayed, Reverse, Rest, FromTail, Last;
    PurgeMark(c, s);
    NotHead(c, s, s.con.ahead);
    if !s.con.DisposeCas? { PurgeNodeFiled(c, s); }
  }

  /** Whether the node of the purge is marked. */
  lemma PurgeMark<K, V>(c: Config<K, V>, s: State<K, V>)
    requires Inv(c, s) && |s.threads| == 1 && s.threads[0].Consolidate?
    requires s.con.PurgeCheck? || s.con.PurgeUnfile? || s.con.DisposeCas?
    ensures s.con.DisposeCas? ==> s.con.node !in s.recent.stack
    ensures At(s.recent.next, s.con.node) != NULL ==> s.con.node in s.recent.stack
  {
    hide OnTable, HolderOk, Delivered, OwingOk, HoldOk, InserterList, PurgeOk, SpliceOk, ListsOk, FinderMark, InserterMark;
    var m := MarkAt(s.recent, s.con.node);
    assert !m.Shield? && !m.Marking?;
    ChainInRange(s.recent.next, s.recent.stack, DUMMY);
    if s.con.node in s.recent.stack { var i := IndexOf(s.recent.stack, s.con.node); }
  }

  lemma PurgeGoes<K(!new), V>(c: Config<K, V>, s: State<K, V>, s': State<K, V>, p: Purge, x: Policy.Cache<K>, fails: bool)
    requires WellFormed(c, s) && SoloPurge(c, s, p, x) && s' == PurgeStep(c, s, fails)
    requires var con := s.con;
      || con.PurgeRead? || con.PurgeForward? || con.PurgeBack? || con.PurgeDelete? || con.DisposeLoad? || con.DisposeStore?
    ensures SoloPurge(c, s', ObservePurge(c, s, s', p), x)
  {
    hide Shows, WellFormed, Gone, Nodes, Stayed, Reverse, Rest, FromTail, Last;
  }

  /** The purge of the policy has been carried out. */
  lemma PurgeEnds<K(!new), V>(c: Config<K, V>, s: State<K, V>, s': State<K, V>, p: Purge, mid: Policy.Cache<K>)
    requires Inv(c, s) && s.con.PurgeDone? && SoloPurge(c, s, p, mid) && PurgeSound(c, s.lists.order, p)
    requires |mid.lru| == c.capacity && s' == s.(purgeRequest := false, con := PullTest)
    ensures Rests(s', Policy.MakeRoom(ParamsOf(c), mid))
  {
    hide Inv, Gone, Nodes, Stayed, Reverse, Rest, FromTail, Last, Label, Named;
    var stack := s.recent.stack;
    ListShape(c, s);
    PurgeIsPolicy(p, stack, c.purgeThreshold);
    LabelVictims(p.line, stack, c.purgeThreshold, s.table.key);
    NamedWithin(s.lists.order, p.line, s.table.key);
    Policy.PurgeEffect(p.line, stack, c.purgeThreshold);
  }

  // ---------- a session ----------

  lemma PullStage<K(!new), V>(c: Config<K, V>, s: State<K, V>, s': State<K, V>, h: Session, e: Choice<K>,
                              x: Policy.Cache<K>, k: K)
    requires Inv(c, s) && WellFormed(c, s) && |s.threads| == |s'.threads| == 1 && s.threads[0].Consolidate? && !s.con.Release?
    requires AtPull(c, s, h, s.threads[0].after, x, k) && Track(c, s, h)
    requires s' == ConsolidateStep(c, s, 0, s.threads[0].after, e.fails)
    ensures s'.threads == s.threads && AtPull(c, s', DeferredSessions.Observe(c, s, s', 0, h), s.threads[0].after, x, k)
  {
    hide Inv, WellFormed, Shows, SoloPull, PullTrack, PurgeTrack, ObservePull, ObservePurge, PurgeStep, PullStep,
         Policy.Find, Touch,
         PullSound;
    ConsolidateQuiet(c, s, 0, e.fails);
    if s.con.PurgeTest? {
      NoPurge(c, s, e.fails);
    } else {
      PullOnward(c, s, e.fails);
      if s.con.PullTest? { PullTested(c, s, e.fails); }
      else if s.con.PullPop? { PullBegins(c, s, s', h.pull, s.threads[0].after, x, k, e.fails); }
      else if s.con.PullLoop? { PullLooked(c, s, s', h.pull, Touch(x, k), e.fails); }
      else if s.con.PullDone? { PullDoneStep(c, s, s', h, e.fails); PullEnds(c, s, s', h.pull, x, k); }
      else { PullGoes(c, s, s', h.pull, Touch(x, k), e.fails); }
    }
  }

  lemma NoPurge<K(!new), V>(c: Config<K, V>, s: State<K, V>, fails: bool)
    requires WellFormed(c, s) && s.con.PurgeTest?
    ensures PurgeStep(c, s, fails) == s.(con := if s.purgeRequest then PurgeStart else PullTest)
  {
  }

  lemma PullTested<K(!new), V>(c: Config<K, V>, s: State<K, V>, fails: bool)
    requires WellFormed(c, s) && s.con.PullTest?
    ensures PullStep(c, s, fails) == s.(con := if s.pullRequest then PullPop else Con.Release)
  {
  }

  lemma PullDoneStep<K(!new), V>(c: Config<K, V>, s: State<K, V>, s': State<K, V>, h: Session, fails: bool)
    requires WellFormed(c, s) && s.con.PullDone? && s' == PullStep(c, s, fails)
    requires PullTrack(s.lists, s.recent.slice, s.con, h.pull)
    ensures s' == s.(pullRequest := false, con := Con.Release) && PullSound(s.lists.order, h.pull)
  {
  }

  lemma PurgeStage<K(!new), V>(c: Config<K, V>, s: State<K, V>, s': State<K, V>, h: Session, e: Choice<K>,
                               x: Policy.Cache<K>, k: K)
    requires Inv(c, s) && WellFormed(c, s) && |s.threads| == |s'.threads| == 1 && s.threads[0].Consolidate? && !s.con.Release?
    requires AtPurge(c, s, h, s.threads[0].after, x, k) && Track(c, s, h)
    requires s' == ConsolidateStep(c, s, 0, s.threads[0].after, e.fails)
    ensures s'.threads == s.threads && AtPurge(c, s', DeferredSessions.Observe(c, s, s', 0, h), s.threads[0].after, x, k)
  {
    hide Inv, WellFormed, Shows, SoloPurge, PullTrack, PurgeTrack, ObservePull, ObservePurge, PurgeStep, PullStep,
         Policy.Find,
         Policy.MakeRoom, PurgeSound;
    var mid := Policy.Find(ParamsOf(c), x, k);
    ConsolidateQuiet(c, s, 0, e.fails);
    if s.con.PullTest? {
      PullTested(c, s, e.fails);
    } else {
      PurgeOnward(c, s, e.fails);
      if s.con.PurgeTest? { NoPurge(c, s, e.fails); }
      else if s.con.PurgeStart? { PurgeBegins(c, s, s', h.purge, s.threads[0].after, x, k, e.fails); PurgeStarted(c, s, e.fails); }
      else if s.con.PurgeLoop? { PurgeLooked(c, s, s', h.purge, mid, e.fails); NotBack(c, s, e.fails); }
      else if s.con.PurgeDone? { PurgeDoneStep(c, s, s', h, e.fails); PurgeEnds(c, s, s', h.purge, mid); }
      else {
        NotBack(c, s, e.fails);
        if s.con.PurgeCheck? || s.con.PurgeUnfile? || s.con.DisposeCas? {
          PurgeDecides(c, s, s', h.purge, mid, e.fails);
        } else {
          PurgeGoes(c, s, s', h.purge, mid, e.fails);
        }
      }
    }
  }

  lemma PurgeStarted<K(!new), V>(c: Config<K, V>, s: State<K, V>, fails: bool)
    requires WellFormed(c, s) && s.con.PurgeStart?
    ensures PurgeStep(c, s, fails).con.PurgeLoop?
  {
  }

  /** A purge that has begun does not begin again. */
  lemma NotBack<K(!new), V>(c: Config<K, V>, s: State<K, V>, fails: bool)
    requires WellFormed(c, s) && Purging(s.con) && !s.con.PurgeTest?
    ensures !PurgeStep(c, s, fails).con.PurgeStart?
  {
    hide WellFormed;
  }

  lemma PurgeDoneStep<K(!new), V>(c: Config<K, V>, s: State<K, V>, s': State<K, V>, h: Session, fails: bool)
    requires WellFormed(c, s) && s.con.PurgeDone? && s' == PurgeStep(c, s, fails)
    requires PurgeTrack(c, s.lists.order, s.con, h.purge)
    ensures s' == s.(purgeRequest := false, con := PullTest) && PurgeSound(c, s.lists.order, h.purge)
  {
  }

  // ---------- whole runs of one thread ----------

  /** Releasing the LRU lock, the thread goes on with what the policy says. */
  lemma ReleaseStage<K(!new), V>(c: Config<K, V>, s: State<K, V>, s': State<K, V>, h: Session, h': Session,
                                 e: Choice<K>, x: Policy.Cache<K>, k: K)
    requires WellFormed(c, s) && |s.threads| == |s'.threads| == 1 && s.threads[0].Consolidate? && s.con.Release?
    requires Stage(c, s, h, s.threads[0], x, k) && s' == ConsolidateStep(c, s, 0, s.threads[0].after, e.fails)
    ensures s'.threads[0].Idle? ==> k in x.lru && Rests(s', Policy.Find(ParamsOf(c), x, k))
    ensures !s'.threads[0].Idle? ==> Stage(c, s', h', s'.threads[0], x, k)
  {
    hide WellFormed, Shows, Policy.Find, Policy.MakeRoom, Touch, Policy.Marks;
  }

  lemma TryStage<K(!new), V>(c: Config<K, V>, s: State<K, V>, s': State<K, V>, h: Session, h': Session, e: Choice<K>,
                             x: Policy.Cache<K>, k: K)
    requires Inv(c, s) && WellFormed(c, s) && |s.threads| == |s'.threads| == 1 && e.thread == 0 && s.threads[0].Try?
    requires Stage(c, s, h, s.threads[0], x, k) && s' == Step(c, s, e)
    ensures s'.threads[0].Consolidate? && Stage(c, s', h', s'.threads[0], x, k)
  {
    hide Inv, WellFormed, Shows, Policy.Find, Policy.MakeRoom, Touch, Policy.Marks;
    NobodyHolds(c, s);
  }

  lemma ConsolidateStage<K(!new), V>(c: Config<K, V>, s: State<K, V>, s': State<K, V>, h: Session, e: Choice<K>,
                                     x: Policy.Cache<K>, k: K)
    requires Inv(c, s) && WellFormed(c, s) && |s.threads| == |s'.threads| == 1 && s.threads[0].Consolidate? && !s.con.Release?
    requires Stage(c, s, h, s.threads[0], x, k) && Track(c, s, h)
    requires s' == ConsolidateStep(c, s, 0, s.threads[0].after, e.fails)
    ensures s'.threads == s.threads && Stage(c, s', DeferredSessions.Observe(c, s, s', 0, h), s.threads[0], x, k)
  {
    hide Inv, WellFormed, AtPull, AtPurge, Track, ConsolidateStep, Policy.Marks, DeferredSessions.Observe;
    if AtPull(c, s, h, s.threads[0].after, x, k) { PullStage(c, s, s', h, e, x, k); } else { PurgeStage(c, s, s', h, e, x, k); }
  }

  lemma SoloStep<K(!new), V>(c: Config<K, V>, s: State<K, V>, s': State<K, V>, h: Session, e: Choice<K>, asked: seq<K>)
    requires Inv(c, s) && WellFormed(c, s) && Solo(c, s, h, asked) && e.thread == 0 && s' == Step(c, s, e)
    requires |s'.threads| == 1
    requires Track(c, s, h)
    ensures Solo(c, s', DeferredSessions.Observe(c, s, s', 0, h), if s.threads[0].Idle? then asked + [e.k] else asked)
  {
    hide Inv, WellFormed, Track, Stage, AtFind, AtInsert, FindStep, InsertStep, ConsolidateStep,
         DeferredSessions.Observe, Rests,
         Policy.Find, Policy.Insert, Policy.Marks;
    var pc := s.threads[0];
    if pc.Idle? {
      BeginStage(c, s, s', h, e, asked);
    } else {
      var before, k := asked[..|asked| - 1], asked[|asked| - 1];
      assert asked == before + [k];
      OneStage(c, s, s', h, e, Policy.Run(ParamsOf(c), before), k);
      RunSnoc(ParamsOf(c), before, k);
    }
  }

  lemma RunSnoc<K(!new)>(p: Policy.Params, trace: seq<K>, k: K)
    ensures Policy.Run(p, trace + [k]) == Policy.Access(p, Policy.Run(p, trace), k)
  {
    assert (trace + [k])[..|trace|] == trace;
  }

  lemma OneStage<K(!new), V>(c: Config<K, V>, s: State<K, V>, s': State<K, V>, h: Session, e: Choice<K>,
                             x: Policy.Cache<K>, k: K)
    requires Inv(c, s) && WellFormed(c, s) && |s.threads| == |s'.threads| == 1 && e.thread == 0 && s' == Step(c, s, e)
    requires !s.threads[0].Idle? && Stage(c, s, h, s.threads[0], x, k) && Track(c, s, h)
    ensures s'.threads[0].Idle? ==> Rests(s', Policy.Access(ParamsOf(c), x, k))
    ensures !s'.threads[0].Idle? ==> Stage(c, s', DeferredSessions.Observe(c, s, s', 0, h), s'.threads[0], x, k)
  {
    hide Inv, WellFormed, Track, AtFind, AtInsert, AtPull, AtPurge, PullDue, PurgeDue, FindStep, InsertStep, ConsolidateStep,
         DeferredSessions.Observe, Rests, Policy.Find, Policy.Insert, Policy.Marks;
    var pc := s.threads[0];
    if pc.Find? { FindStage(c, s, s', e, x, k); }
    else if pc.Insert? { InsertStage(c, s, s', e, x, k); }
    else if pc.Try? { TryStage(c, s, s', h, DeferredSessions.Observe(c, s, s', 0, h), e, x, k); }
    else if pc.Produce? { ProduceStage(c, s, s', e, x, k); }
    else if s.con.Release? { ReleaseStage(c, s, s', h, DeferredSessions.Observe(c, s, s', 0, h), e, x, k); }
    else { ConsolidateStage(c, s, s', h, e, x, k); }
  }

  lemma ProduceStage<K(!new), V>(c: Config<K, V>, s: State<K, V>, s': State<K, V>, e: Choice<K>, x: Policy.Cache<K>, k: K)
    requires WellFormed(c, s) && |s.threads| == 1 && e.thread == 0 && s' == Step(c, s, e) && s.threads[0] == Produce(k)
    requires k !in x.lru && Rests(s, Policy.Find(ParamsOf(c), x, k))
    ensures |s'.threads| == 1 && s'.threads[0] == Insert(k, Reserve) && AtInsert(c, s', Reserve, x, k)
  {
    hide WellFormed, Policy.Find, Shows, Policy.MakeRoom;
  }

  lemma BeginStage<K(!new), V>(c: Config<K, V>, s: State<K, V>, s': State<K, V>, h: Session, e: Choice<K>, asked: seq<K>)
    requires Inv(c, s) && WellFormed(c, s) && |s.threads| == 1 && e.thread == 0 && s.threads[0].Idle? && s' == Step(c, s, e)
    requires Rests(s, Policy.Run(ParamsOf(c), asked))
    ensures Solo(c, s', DeferredSessions.Observe(c, s, s', 0, h), asked + [e.k])
  {
    hide Inv, WellFormed, Shows, Policy.Marks, DeferredSessions.Observe;
    ListShape(c, s);
    ShownMarks(s, s.lists.order, s.recent.stack, Policy.Run(ParamsOf(c), asked));
    assert (asked + [e.k])[..|asked|] == asked;
  }

  lemma {:induction false} SoloRun<K(!new), V>(c: Config<K, V>, s: State<K, V>, schedule: seq<Choice<K>>)
    requires Initial(c, s) && |s.threads| == 1 && !s.pullRequest && !s.purgeRequest && s.recent.count == 0
    ensures Solo(c, DeferredMachine.Run(c, s, schedule), Follow(c, s, schedule), Watch(c, s, schedule).asked)
    decreases |schedule|
  {
    hide Inv, Step, Stage, DeferredSessions.Observe, DeferredRequests.Observe, Track;
    if schedule == [] {
      NoLabel(s.table.key);
    } else {
      var before, e := schedule[..|schedule| - 1], schedule[|schedule| - 1];
      var m := DeferredMachine.Run(c, s, before);
      SoloRun(c, s, before);
      Reachable(c, s, before);
      FollowTracks(c, s, before);
      WatchFits(c, s, before);
      StepMoves(c, m, e);
      if e.thread == 0 { SoloStep(c, m, Step(c, m, e), Follow(c, s, before), e, Watch(c, s, before).asked); }
    }
  }

  /** With one thread the concurrent cache is the sequential policy: whenever the thread is idle the keys of the LRU list and
      of the Recent list are those of the policy on the keys asked for so far. */
  lemma OneThreadIsPolicy<K(!new), V>(c: Config<K, V>, key: K, value: V, schedule: seq<Choice<K>>)
    requires c.capacity > 0 && c.buckets > 0
    ensures var s := DeferredMachine.Run(c, Start(c, 1, key, value), schedule);
      |s.threads| == 1 && (s.threads[0].Idle? ==>
        Policy.Cache(Label(s.lists.order, s.table.key), Label(s.recent.stack, s.table.key))
        == Policy.Run(ParamsOf(c), Watch(c, Start(c, 1, key, value), schedule).asked))
  {
    hide Inv, Step, Stage;
    StartIsInitial(c, 1, key, value);
    SoloRun(c, Start(c, 1, key, value), schedule);
  }
}
