/** Every step of the thread that holds the LRU lock keeps the invariant of the concurrent DeferredLRU. */
module DeferredConsolidator {
  import opened Links
  import opened Sequences
  import opened SharedLists
  import opened DeferredMachine
  import opened DeferredInvariant
  import opened DeferredThreads

  // ---------- the consolidator moves on without touching one of the parts ----------

  lemma ConTable<K, V>(c: Config<K, V>, tb: Table<K, V>, count: int, threads: seq<Pc<K>>, con: Con, con': Con)
    requires OnTable(c, tb, count, threads, con) && (ConCounts(con) <==> ConCounts(con'))
    ensures OnTable(c, tb, count, threads, con')
  {
    hide TableOk, LockOk, FinderTable, InserterTable;
  }

  lemma ConHolder<K>(lruLock: int, threads: seq<Pc<K>>, con: Con, con': Con)
    requires HolderOk(lruLock, threads, con) && !con.Off? && !con'.Off?
    ensures HolderOk(lruLock, threads, con')
  {
  }

  /** Nothing but the place of the consolidator in its code changes. */
  ghost predicate SameDuties(con: Con, con': Con) {
    && !con.Off? && !con'.Off? && !con.PullNext? && !con'.PullNext? && (ConCounts(con) <==> ConCounts(con'))
    && (forall y :: ConOwes(con, y) <==> ConOwes(con', y)) && (con.SpliceBack? <==> con'.SpliceBack?)
    && (forall x :: ConUnfiled(con, x) <==> ConUnfiled(con', x))
    && (forall x :: ConTakes(con, x) <==> ConTakes(con', x))
    && (Evicting(con') ==> Evicting(con) && con'.node == con.node)
  }

  lemma ConMoves<K(!new), V>(c: Config<K, V>, s: State<K, V>, con': Con, pull: bool, purge: bool)
    requires Inv(c, s) && SameDuties(s.con, con')
    requires PurgeOk(c.capacity, s.lists, con') && PullOk(c.capacity, s.lists, s.recent.slice, con')
    requires SpliceOk(c.capacity, s.lists, con')
    ensures Inv(c, s.(con := con', pullRequest := pull, purgeRequest := purge))
  {
    hide OnRecent, OnTable, Delivered, PurgeOk, PullOk, SpliceOk, ListsOk, HoldOk, HolderOk, ConCounts, InserterList;
    ConTable(c, s.table, s.count, s.threads, s.con, con');
    ConHolder(s.lruLock, s.threads, s.con, con');
    ConCross(s.lists, s.table.filed, s.recent, s.con, con');
    hide ConOwes;
  }

  lemma ConCross(l: Lists, filed: set<int>, r: Recent, con: Con, con': Con)
    requires CrossOk(l, filed, r, con) && SameDuties(con, con')
    ensures CrossOk(l, filed, r, con')
  {
    hide ConUnfiled, ConTakes, ConOwes, ConCounts;
  }

  lemma ConKnows<K, V>(c: Config<K, V>, s: State<K, V>)
    requires Inv(c, s)
    ensures WellFormed(c, s) && ListsOk(c.capacity, s.lists) && RecentOk(c.capacity, s.recent) && TableOk(c, s.table)
    ensures PurgeOk(c.capacity, s.lists, s.con) && PullOk(c.capacity, s.lists, s.recent.slice, s.con)
    ensures SpliceOk(c.capacity, s.lists, s.con)
    ensures CrossOk(s.lists, s.table.filed, s.recent, s.con)
    ensures forall y :: ConOwes(s.con, y) <==> y in s.lists.owed && s.lists.owed[y] < 0
  {
    hide HoldOk, InserterList, PurgeOk, PullOk, SpliceOk, CrossOk, ShieldOk, MarkingOk, LockOk, CountOk, HolderOk,
         Delivered;
  }

  /** While the consolidator owes nothing, a listed node that does not have the head behind it is between its true
      neighbours. */
  lemma TrueNeighbours<K, V>(c: Config<K, V>, s: State<K, V>, x: int)
    requires Inv(c, s) && PlaceAt(s.lists, x) == Listed && At(s.lists.prev, x) != Head(c.capacity)
    requires forall y :: !ConOwes(s.con, y)
    ensures 0 <= x < c.capacity && x in s.lists.order && x !in s.lists.owed
    ensures var p, y := At(s.lists.prev, x), At(s.lists.next, x);
      && PlaceAt(s.lists, p) == Listed && p in s.lists.order && p != x && At(s.lists.next, p) == x
      && (y in s.lists.order || y == Tail(c.capacity)) && y != x && y != p
  {
    hide HoldOk, InserterList, PurgeOk, PullOk, SpliceOk, CrossOk, OnRecent, OnTable, HolderOk, Delivered, Side,
         ConOwes;
    hide Doubly;
    assert x !in s.lists.owed;
    Neighbours(c.capacity, s.lists, x);
    var p := At(s.lists.prev, x);
    assert p in s.lists.order;
    OrderListed(c.capacity, s.lists, p);
  }

  lemma OrderListed(capacity: nat, l: Lists, x: int)
    requires ListsOk(capacity, l) && x in l.order
    ensures PlaceAt(l, x) == Listed && 0 <= x < capacity
  {
    var i := IndexOf(l.order, x);
  }

  // ---------- the steps of a purge that only read ----------

  /** Finding the node to look at next. */
  lemma PurgeLooks<K(!new), V>(c: Config<K, V>, s: State<K, V>)
    requires Inv(c, s) && WellFormed(c, s) && (s.con.PurgeStart? || s.con.PurgeLoop?)
    ensures Inv(c, PurgeStep(c, s, false))
  {
    hide Inv, OnLists, ListsOk, RecentOk, TableOk, CrossOk;
    ConKnows(c, s);
    var s' := PurgeStep(c, s, false);
    if s.con.PurgeStart? {
      NotOwing(c, s);
      TailPrev(c.capacity, s.lists);
      var last := At(s.lists.prev, Tail(c.capacity));
      if last in s.lists.order { OrderListed(c.capacity, s.lists, last); }
    } else if s.con.node != Head(c.capacity) && At(s.lists.prev, s.con.node) != Head(c.capacity) {
      TrueNeighbours(c, s, s.con.node);
    }
    ConMoves(c, s, s'.con, s'.pullRequest, s'.purgeRequest);
  }

  lemma PurgeReads<K(!new), V>(c: Config<K, V>, s: State<K, V>, fails: bool)
    requires Inv(c, s) && WellFormed(c, s)
    requires s.con.PurgeTest? || s.con.PurgeCheck? || s.con.PurgeRead? || s.con.DisposeLoad? || s.con.PurgeDone?
    ensures Inv(c, PurgeStep(c, s, fails))
  {
    hide Inv, OnLists, ListsOk, RecentOk, TableOk, CrossOk;
    ConKnows(c, s);
    var s' := PurgeStep(c, s, fails);
    ConMoves(c, s, s'.con, s'.pullRequest, s'.purgeRequest);
  }

  lemma NotOwing<K, V>(c: Config<K, V>, s: State<K, V>)
    requires Inv(c, s) && forall y :: !ConOwes(s.con, y)
    ensures Tail(c.capacity) in s.lists.owed ==> s.lists.owed[Tail(c.capacity)] != UNLINKER
  {
    ConKnows(c, s);
  }

  // ---------- the steps of a pull that only read ----------

  lemma PullReads<K(!new), V>(c: Config<K, V>, s: State<K, V>, fails: bool)
    requires Inv(c, s) && WellFormed(c, s)
    requires s.con.PullTest? || s.con.PullLoop? || s.con.PullRead? || s.con.PullDone?
    ensures Inv(c, PullStep(c, s, fails))
  {
    hide Inv, OnLists, RecentOk, TableOk, CrossOk, Main, Side;
    ConKnows(c, s);
    var s' := PullStep(c, s, fails);
    if s.con.PullLoop? && s.con.node != DUMMY {
      SlicedListed(c, s);
    }
    EndIsLocal(c.capacity, s.lists);
    if s.recent.slice != [] { SliceHead(c, s); }
    ConMoves(c, s, s'.con, s'.pullRequest, s'.purgeRequest);
  }

  lemma EndIsLocal(capacity: nat, l: Lists)
    requires ListsOk(capacity, l)
    ensures l.temp != [] ==> LocalEnd(capacity, l) in l.temp && 0 <= LocalEnd(capacity, l) < capacity
    ensures LocalEnd(capacity, l) == LocalHead(capacity) <==> l.temp == []
  {
    if l.temp != [] { assert l.temp[|l.temp| - 1] in l.temp; }
  }

  /** What is left in the slice is in the LRU list, as long as the consolidator has nothing in its hands. */
  lemma SlicedListed<K, V>(c: Config<K, V>, s: State<K, V>)
    requires Inv(c, s) && s.con.PullLoop? && s.con.node != DUMMY
    ensures s.recent.slice != [] && s.con.node == s.recent.slice[0] && PlaceAt(s.lists, s.con.node) == Listed
  {
    hide ListsOk, HoldOk, OwingOk, InserterList, PurgeOk, SpliceOk, OnTable, OnRecent, HolderOk, Delivered;
    if s.recent.slice != [] { SliceHead(c, s); }
  }

  lemma SpliceFails<K(!new), V>(c: Config<K, V>, s: State<K, V>, fails: bool)
    requires Inv(c, s) && WellFormed(c, s) && s.con.SpliceCas?
    requires fails || At(s.lists.next, Head(c.capacity)) != s.con.h
    ensures Inv(c, PullStep(c, s, fails))
  {
    hide Inv, OnLists, RecentOk, TableOk, CrossOk, ListsOk;
    ConKnows(c, s);
    ConMoves(c, s, PullStep(c, s, fails).con, s.pullRequest, s.purgeRequest);
  }

  lemma DisposeFails<K(!new), V>(c: Config<K, V>, s: State<K, V>, fails: bool)
    requires Inv(c, s) && WellFormed(c, s) && s.con.DisposeCas? && (fails || s.lists.ehead != s.con.h)
    ensures Inv(c, PurgeStep(c, s, fails))
  {
    hide Inv, OnLists, RecentOk, TableOk, CrossOk, ListsOk;
    ConKnows(c, s);
    ConMoves(c, s, PurgeStep(c, s, fails).con, s.pullRequest, s.purgeRequest);
  }

  lemma PullZeroes<K(!new), V>(c: Config<K, V>, s: State<K, V>)
    requires Inv(c, s) && WellFormed(c, s) && s.con.PullZero?
    ensures Inv(c, PullStep(c, s, false))
  {
    hide Inv, OnLists, RecentOk, TableOk, CrossOk, ListsOk;
    ConKnows(c, s);
    var con' := PullLoop(s.con.node, LocalHead(c.capacity));
    ConMoves(c, s, con', s.pullRequest, s.purgeRequest);
    Recount(c, s.(con := con'), 0);
  }

  // ---------- taking a node out of its bucket ----------

  /** No finder uses a node whose bucket lock is free. */
  lemma NoFinder<K, V>(c: Config<K, V>, s: State<K, V>, u: nat, n: int)
    requires Inv(c, s) && WellFormed(c, s) && u < |s.threads| && 0 <= n < c.capacity
    requires s.table.locks[StripeOf(c, s.table.key[n])] == NULL
    ensures !Uses(s.threads[u], n)
  {
    hide OnLists, OnRecent, CrossOk, HolderOk, Delivered, TableOk, CountOk, InserterTable;
    var pc := s.threads[u];
    assert FinderTable(s.table, pc);
    assert Uses(pc, n) ==> HasStripe(pc);
  }

  lemma UnfilesTable<K(!new), V>(c: Config<K, V>, s: State<K, V>, n: int, con': Con)
    requires Inv(c, s) && WellFormed(c, s) && 0 <= n < c.capacity && n in s.table.filed && PlaceAt(s.lists, n) == Listed
    requires s.table.locks[StripeOf(c, s.table.key[n])] == NULL && !ConCounts(s.con) && ConCounts(con')
    ensures OnTable(c, Unfiled(c, s.table, n), s.count, s.threads, con')
  {
    hide OnRecent, CrossOk, HolderOk, Delivered, TableOk, LockOk, ListsOk, OwingOk, PurgeOk, PullOk, SpliceOk;
    var tb' := Unfiled(c, s.table, n);
    UnfileTable(c, s.table, n);
    forall u | 0 <= u < |s.threads| ensures FinderTable(tb', s.threads[u]) && InserterTable(c, tb', s.threads[u]) {
      assert FinderTable(s.table, s.threads[u]) && InserterTable(c, s.table, s.threads[u]);
      NoFinder(c, s, u, n);
      assert !Holds(s.threads[u], n);
    }
  }

  lemma UnfilesCross(l: Lists, filed: set<int>, r: Recent, con: Con, con': Con, n: int)
    requires CrossOk(l, filed, r, con) && PlaceAt(l, n) == Listed && MarkAt(r, n) == Clear
    requires con.PurgeUnfile? && con'.PurgeRead? && con'.node == n
    ensures CrossOk(l, filed - {n}, r, con')
  {
  }

  lemma ConLists<K(!new)>(capacity: nat, l: Lists, threads: seq<Pc<K>>, con: Con, con': Con, slice: seq<int>, slice': seq<int>)
    requires OnLists(capacity, l, threads, con, slice) && forall y :: ConOwes(con, y) <==> ConOwes(con', y)
    requires con.SpliceBack? <==> con'.SpliceBack?
    requires PurgeOk(capacity, l, con') && PullOk(capacity, l, slice', con') && SpliceOk(capacity, l, con')
    ensures OnLists(capacity, l, threads, con', slice')
  {
    hide ListsOk, HoldOk, InserterList, PurgeOk, PullOk, SpliceOk, ConOwes;
  }

  lemma Unfiles<K(!new), V>(c: Config<K, V>, s: State<K, V>, fails: bool)
    requires Inv(c, s) && WellFormed(c, s) && s.con.PurgeUnfile?
    ensures Inv(c, PurgeStep(c, s, fails))
  {
    hide OnLists, OnRecent, OnTable, CrossOk, ListsOk, HolderOk, Delivered, RecentOk, TableOk;
    ConKnows(c, s);
    var n, s' := s.con.node, PurgeStep(c, s, fails);
    if s'.con.PurgeLoop? {
      ConMoves(c, s, s'.con, s.pullRequest, s.purgeRequest);
    } else if s'.con.PurgeRead? {
      Unmarked(c, s, n);
      UnfilesTable(c, s, n, s'.con);
      UnfilesCross(s.lists, s.table.filed, s.recent, s.con, s'.con, n);
      ConHolder(s.lruLock, s.threads, s.con, s'.con);
      ConLists(c.capacity, s.lists, s.threads, s.con, s'.con, s.recent.slice, s.recent.slice);
    }
  }

  /** A node with a null recent link is unmarked, and a bucket holds only filed nodes. */
  lemma Unmarked<K, V>(c: Config<K, V>, s: State<K, V>, n: int)
    requires Inv(c, s) && WellFormed(c, s) && 0 <= n < c.capacity
    ensures s.recent.next[n] == NULL <==> MarkAt(s.recent, n) == Clear
    ensures n in s.table.chains[BucketOf(c, s.table.key[n])] ==> n in s.table.filed
  {
    hide OnLists, CrossOk, HolderOk, Delivered, LockOk, CountOk, FinderTable, InserterTable, ShieldOk, MarkingOk,
         FinderMark, InserterMark;
  }

  // ---------- unlinking ----------

  /** The successor of an unshielded node is not owed its back link. */
  lemma SuccessorSettled<K, V>(c: Config<K, V>, s: State<K, V>, x: int)
    requires Inv(c, s) && x in s.lists.order && !MarkAt(s.recent, x).Shield? && forall y :: !ConOwes(s.con, y)
    ensures At(s.lists.next, x) !in s.lists.owed
  {
    hide ListsOk, HoldOk, PurgeOk, PullOk, SpliceOk, CrossOk, OnTable, RecentOk, MarkingOk, HolderOk, Delivered,
         FinderMark, InserterMark, ConOwes;
    ConKnows(c, s);
    var y := At(s.lists.next, x);
    if y in s.lists.owed {
      var u := s.lists.owed[y];
      assert OwesBack(s.threads[u], y) && InserterList(c.capacity, s.lists, s.threads[u]);
      var n := s.threads[u].i.n;
      assert Shields(s.threads[u], n);
      ListedOrder(c.capacity, s.lists, n);
      NextInjective(c.capacity, s.lists, x, n);
    }
  }

  lemma ListedOrder(capacity: nat, l: Lists, x: int)
    requires ListsOk(capacity, l) && PlaceAt(l, x) == Listed
    ensures x in l.order && 0 <= x < capacity
  {
  }

  /** The first of the two unlinking writes, for a purge or a pull. */
  lemma Bypasses<K(!new), V>(c: Config<K, V>, s: State<K, V>, x: int, con': Con)
    requires Inv(c, s) && PlaceAt(s.lists, x) == Listed && At(s.lists.prev, x) != Head(c.capacity)
    requires !MarkAt(s.recent, x).Shield? && !con'.SpliceBack? && forall y :: !ConOwes(s.con, y)
    requires var p, y := At(s.lists.prev, x), At(s.lists.next, x);
      forall z :: ConOwes(con', z) <==> z == y
    ensures var p, y := At(s.lists.prev, x), At(s.lists.next, x);
      var l' := Bypassed(s.lists, x, p, y);
      && ListsOk(c.capacity, l') && HoldOk(c.capacity, s.threads, l') && OwingOk(s.threads, con', l')
      && (forall t :: 0 <= t < |s.threads| ==> InserterList(c.capacity, l', s.threads[t]))
      && PlaceAt(l', p) == Listed && At(l'.next, p) == y && PlaceAt(l', x) == Taken
      && forall z {:trigger PlaceAt(l', z)} :: z != x ==> PlaceAt(l', z) == PlaceAt(s.lists, z)
  {
    hide PurgeOk, PullOk, SpliceOk, CrossOk, OnTable, RecentOk, MarkingOk, ShieldOk, HolderOk, Delivered, Main,
         Side, ConOwes;
    var p, y := At(s.lists.prev, x), At(s.lists.next, x);
    var l' := Bypassed(s.lists, x, p, y);
    TrueNeighbours(c, s, x);
    SuccessorSettled(c, s, x);
    Bypass(c.capacity, s.lists, x);
    OrderListed(c.capacity, l', p);
    forall t | 0 <= t < |s.threads| ensures InserterList(c.capacity, l', s.threads[t]) {
      BypassInserter(c, s, x, p, y, t);
    }
    BypassOwing(s.threads, s.con, con', s.lists, l', y);
    KeepHolds(c.capacity, s.threads, s.lists, l', x);
  }

  lemma KeepHolds<K>(capacity: nat, threads: seq<Pc<K>>, l: Lists, l': Lists, x: int)
    requires HoldOk(capacity, threads, l) && !PlaceAt(l, x).Owned? && !PlaceAt(l', x).Owned?
    requires forall z {:trigger PlaceAt(l', z)} :: z != x ==> PlaceAt(l', z) == PlaceAt(l, z)
    ensures HoldOk(capacity, threads, l')
  {
    hide Holds;
  }

  lemma BypassOwing<K(!new)>(threads: seq<Pc<K>>, con: Con, con': Con, l: Lists, l': Lists, y: int)
    requires OwingOk(threads, con, l) && y !in l.owed && l'.owed == l.owed[y := if con'.SpliceBack? then SPLICER else UNLINKER]
    requires (forall z :: !ConOwes(con, z)) && (forall z :: ConOwes(con', z) <==> z == y)
    ensures OwingOk(threads, con', l')
  {
    hide ConOwes, OwesBack;
  }

  lemma BypassInserter<K(!new), V>(c: Config<K, V>, s: State<K, V>, x: int, p: int, y: int, t: nat)
    requires Inv(c, s) && t < |s.threads| && 0 <= x < c.capacity && PlaceAt(s.lists, x) == Listed && x !in s.lists.owed
    requires PlaceAt(s.lists, p) == Listed && At(s.lists.next, p) == x && !MarkAt(s.recent, x).Shield?
    ensures InserterList(c.capacity, Bypassed(s.lists, x, p, y), s.threads[t])
  {
    hide ListsOk, PurgeOk, PullOk, SpliceOk, CrossOk, OnTable, RecentOk, MarkingOk, HolderOk, Delivered, FinderMark,
         InserterMark;
    var pc := s.threads[t];
    assert InserterList(c.capacity, s.lists, pc);
    if pc.Insert? {
      if pc.i.WriteBack? {
        assert Shields(pc, pc.i.n) && OwesBack(pc, pc.i.h);
      } else if pc.i.Unmark? {
        assert Shields(pc, pc.i.n);
      } else if pc.i.StoreNext? || pc.i.CasHead? {
        assert Holds(pc, pc.i.n);
      }
    }
  }

  lemma PurgeBypasses<K(!new), V>(c: Config<K, V>, s: State<K, V>)
    requires Inv(c, s) && WellFormed(c, s) && s.con.PurgeForward?
    ensures Inv(c, PurgeStep(c, s, false))
  {
    hide OnLists, OnRecent, OnTable, HolderOk, Delivered, ListsOk, RecentOk, TableOk, HoldOk, OwingOk, InserterList;
    ConKnows(c, s);
    var s' := PurgeStep(c, s, false);
    Bypasses(c, s, s.con.node, s'.con);
    BypassedTemp(s.lists, s.con.node, s.con.p, s.con.y);
    assert PurgeOk(c.capacity, s'.lists, s'.con) && PullOk(c.capacity, s'.lists, s.recent.slice, s'.con);
    assert CrossOk(s'.lists, s.table.filed, s.recent, s'.con);
    ListsChanged(c, s, s'.lists, s'.con);
  }

  /** A step of the consolidator that changes the lists only. */
  lemma ListsChanged<K(!new), V>(c: Config<K, V>, s: State<K, V>, l': Lists, con': Con)
    requires Inv(c, s) && !s.con.Off? && !con'.Off? && (ConCounts(s.con) <==> ConCounts(con'))
    requires ListsOk(c.capacity, l') && HoldOk(c.capacity, s.threads, l') && OwingOk(s.threads, con', l')
    requires forall t :: 0 <= t < |s.threads| ==> InserterList(c.capacity, l', s.threads[t])
    requires PurgeOk(c.capacity, l', con') && PullOk(c.capacity, l', s.recent.slice, con')
    requires SpliceOk(c.capacity, l', con')
    requires CrossOk(l', s.table.filed, s.recent, con')
    ensures Inv(c, s.(lists := l', con := con'))
  {
    hide OnRecent, OnTable, HolderOk, Delivered, ListsOk, HoldOk, OwingOk, InserterList, PurgeOk, PullOk, SpliceOk,
         CrossOk, ConCounts;
    ConTable(c, s.table, s.count, s.threads, s.con, con');
    ConHolder(s.lruLock, s.threads, s.con, con');
  }

  /** The places of the nodes and the duties of the consolidator stay the same. */
  lemma PlainCross(l: Lists, l': Lists, filed: set<int>, r: Recent, con: Con, con': Con)
    requires CrossOk(l, filed, r, con) && !con.PullNext? && !con'.PullNext?
    requires forall x {:trigger PlaceAt(l', x)} :: PlaceAt(l', x) == PlaceAt(l, x)
    requires (forall x :: ConUnfiled(con, x) <==> ConUnfiled(con', x)) && (forall x :: ConTakes(con, x) <==> ConTakes(con', x))
    requires Evicting(con') ==> Evicting(con) && con'.node == con.node
    ensures CrossOk(l', filed, r, con')
  {
    hide ConUnfiled, ConTakes;
  }

  lemma BypassedTemp(l: Lists, x: int, p: int, y: int)
    ensures Bypassed(l, x, p, y).temp == l.temp
  {
  }

  lemma PullBypasses<K(!new), V>(c: Config<K, V>, s: State<K, V>)
    requires Inv(c, s) && WellFormed(c, s) && s.con.PullForward?
    ensures Inv(c, PullStep(c, s, false))
  {
    hide OnLists, OnRecent, OnTable, HolderOk, Delivered, ListsOk, RecentOk, TableOk, HoldOk, OwingOk, InserterList;
    ConKnows(c, s);
    SliceHead(c, s);
    var s' := PullStep(c, s, false);
    Bypasses(c, s, s.con.node, s'.con);
    BypassedTemp(s.lists, s.con.node, s.con.p, s.con.y);
    assert PurgeOk(c.capacity, s'.lists, s'.con) && PullOk(c.capacity, s'.lists, s.recent.slice, s'.con);
    assert CrossOk(s'.lists, s.table.filed, s.recent, s'.con);
    ListsChanged(c, s, s'.lists, s'.con);
  }

  /** The node a pull has in its hands is still marked as sliced. */
  lemma SliceHead<K, V>(c: Config<K, V>, s: State<K, V>)
    requires Inv(c, s) && s.recent.slice != []
    ensures MarkAt(s.recent, s.recent.slice[0]) == Sliced && 0 <= s.recent.slice[0] < c.capacity
    ensures s.recent.slice[0] in s.table.filed
  {
    hide OnLists, OnTable, HolderOk, Delivered, ShieldOk, MarkingOk, FinderMark, InserterMark;
    assert s.recent.slice[0] in s.recent.slice;
  }

  // ---------- writing the back link the consolidator owes ----------

  lemma ConSettles<K(!new), V>(c: Config<K, V>, s: State<K, V>, p: int, y: int, con': Con)
    requires Inv(c, s) && PlaceAt(s.lists, p) == Listed && At(s.lists.next, p) == y && ConOwes(s.con, y)
    requires (forall z :: ConOwes(s.con, z) <==> z == y) && (forall z :: !ConOwes(con', z))
    ensures var l' := Settled(s.lists, p, y);
      && ListsOk(c.capacity, l') && HoldOk(c.capacity, s.threads, l') && OwingOk(s.threads, con', l')
      && (forall t :: 0 <= t < |s.threads| ==> InserterList(c.capacity, l', s.threads[t]))
      && (forall z {:trigger PlaceAt(l', z)} :: PlaceAt(l', z) == PlaceAt(s.lists, z))
      && (forall z {:trigger At(l'.prev, z)} :: z != y ==> At(l'.prev, z) == At(s.lists.prev, z))
  {
    hide PurgeOk, PullOk, SpliceOk, CrossOk, OnTable, OnRecent, HolderOk, Delivered, Side, ConOwes;
    var l' := Settled(s.lists, p, y);
    ListedOrder(c.capacity, s.lists, p);
    assert y in s.lists.owed && s.lists.owed[y] < 0;
    Settle(c.capacity, s.lists, p);
    forall t | 0 <= t < |s.threads| ensures InserterList(c.capacity, l', s.threads[t]) {
      assert InserterList(c.capacity, s.lists, s.threads[t]);
      var pc := s.threads[t];
      if pc.Insert? && (pc.i.StoreNext? || pc.i.CasHead?) { assert Holds(pc, pc.i.n); }
    }
    KeepHolds(c.capacity, s.threads, s.lists, l', y);
    SettledOwing(s.threads, s.con, con', s.lists, l', y);
  }

  lemma SettledOwing<K(!new)>(threads: seq<Pc<K>>, con: Con, con': Con, l: Lists, l': Lists, y: int)
    requires OwingOk(threads, con, l) && l'.owed == l.owed - {y} && y in l.owed && l.owed[y] < 0
    requires (forall z :: ConOwes(con, z) <==> z == y) && (forall z :: !ConOwes(con', z))
    ensures OwingOk(threads, con', l')
  {
    hide ConOwes, OwesBack;
  }

  lemma PurgeSettles<K(!new), V>(c: Config<K, V>, s: State<K, V>)
    requires Inv(c, s) && WellFormed(c, s) && s.con.PurgeBack?
    ensures Inv(c, PurgeStep(c, s, false))
  {
    hide OnLists, OnRecent, OnTable, CrossOk, HolderOk, Delivered, ListsOk, RecentOk, TableOk, HoldOk, OwingOk,
         InserterList;
    ConKnows(c, s);
    var s' := PurgeStep(c, s, false);
    ConSettles(c, s, s.con.p, s.con.y, s'.con);
    assert PurgeOk(c.capacity, s'.lists, s'.con) && PullOk(c.capacity, s'.lists, s.recent.slice, s'.con);
    PlainCross(s.lists, s'.lists, s.table.filed, s.recent, s.con, s'.con);
    ListsChanged(c, s, s'.lists, s'.con);
  }

  lemma PullSettles<K(!new), V>(c: Config<K, V>, s: State<K, V>)
    requires Inv(c, s) && WellFormed(c, s) && s.con.PullBack?
    ensures Inv(c, PullStep(c, s, false))
  {
    hide OnLists, OnRecent, OnTable, CrossOk, HolderOk, Delivered, ListsOk, RecentOk, TableOk, HoldOk, OwingOk,
         InserterList;
    ConKnows(c, s);
    var s' := PullStep(c, s, false);
    ConSettles(c, s, s.con.p, s.con.y, s'.con);
    assert PurgeOk(c.capacity, s'.lists, s'.con) && PullOk(c.capacity, s'.lists, s.recent.slice, s'.con);
    PlainCross(s.lists, s'.lists, s.table.filed, s.recent, s.con, s'.con);
    ListsChanged(c, s, s'.lists, s'.con);
  }

  lemma SpliceSettles<K(!new), V>(c: Config<K, V>, s: State<K, V>)
    requires Inv(c, s) && WellFormed(c, s) && s.con.SpliceBack?
    ensures Inv(c, PullStep(c, s, false))
  {
    hide OnLists, OnRecent, OnTable, CrossOk, HolderOk, Delivered, ListsOk, RecentOk, TableOk, HoldOk, OwingOk,
         InserterList;
    ConKnows(c, s);
    var s' := PullStep(c, s, false);
    ConSettles(c, s, s.con.last, s.con.h, s'.con);
    assert PurgeOk(c.capacity, s'.lists, s'.con) && PullOk(c.capacity, s'.lists, s.recent.slice, s'.con);
    PlainCross(s.lists, s'.lists, s.table.filed, s.recent, s.con, s'.con);
    ListsChanged(c, s, s'.lists, s'.con);
  }

  // ---------- getting rid of the evicted node ----------

  lemma Deletes<K(!new), V>(c: Config<K, V>, s: State<K, V>)
    requires Inv(c, s) && WellFormed(c, s) && s.con.PurgeDelete?
    ensures Inv(c, PurgeStep(c, s, false))
  {
    hide OnLists, OnRecent, HolderOk, Delivered, ListsOk, RecentOk, TableOk, LockOk, FinderTable, InserterTable;
    var s' := PurgeStep(c, s, false);
    KnowsPurge(c, s);
    ConLists(c.capacity, s.lists, s.threads, s.con, s'.con, s.recent.slice, s.recent.slice);
    ConHolder(s.lruLock, s.threads, s.con, s'.con);
    assert CrossOk(s.lists, s.table.filed, s.recent, s'.con);
  }

  lemma KnowsPurge<K, V>(c: Config<K, V>, s: State<K, V>)
    requires Inv(c, s)
    ensures PurgeOk(c.capacity, s.lists, s.con) && PullOk(c.capacity, s.lists, s.recent.slice, s.con)
    ensures SpliceOk(c.capacity, s.lists, s.con)
    ensures CrossOk(s.lists, s.table.filed, s.recent, s.con) && ListsOk(c.capacity, s.lists) && WellFormed(c, s)
  {
    hide HoldOk, InserterList, PurgeOk, PullOk, SpliceOk, CrossOk, ShieldOk, MarkingOk, LockOk, CountOk, HolderOk,
         Delivered, OwingOk;
  }

  /** A write that no inserter can notice. */
  lemma ConWrites<K(!new)>(capacity: nat, l: Lists, l': Lists, threads: seq<Pc<K>>, con: Con, con': Con, slice: seq<int>, x: int)
    requires OnLists(capacity, l, threads, con, slice) && ListsOk(capacity, l') && l'.owed == l.owed
    requires (forall y :: ConOwes(con, y) <==> ConOwes(con', y)) && (con.SpliceBack? <==> con'.SpliceBack?)
    requires !PlaceAt(l, x).Owned? && !PlaceAt(l', x).Owned? && (PlaceAt(l, x) == Listed ==> PlaceAt(l', x) == Listed)
    requires forall z {:trigger PlaceAt(l', z)} :: z != x ==> PlaceAt(l', z) == PlaceAt(l, z)
    requires forall z {:trigger At(l'.next, z)} ::
      PlaceAt(l, z) == Listed || PlaceAt(l, z).Owned? ==> At(l'.next, z) == At(l.next, z)
    requires forall z {:trigger At(l'.prev, z)} :: PlaceAt(l, z).Owned? ==> At(l'.prev, z) == At(l.prev, z)
    ensures HoldOk(capacity, threads, l') && OwingOk(threads, con', l')
    ensures forall t :: 0 <= t < |threads| ==> InserterList(capacity, l', threads[t])
  {
    hide ListsOk, PurgeOk, PullOk, SpliceOk, ConOwes, OwesBack;
    KeepHolds(capacity, threads, l, l', x);
    forall t | 0 <= t < |threads| ensures InserterList(capacity, l', threads[t]) {
      assert InserterList(capacity, l, threads[t]);
      var pc := threads[t];
      if pc.Insert? && (pc.i.StoreNext? || pc.i.CasHead?) { assert Holds(pc, pc.i.n); }
    }
  }

  lemma DisposeStores<K(!new), V>(c: Config<K, V>, s: State<K, V>)
    requires Inv(c, s) && WellFormed(c, s) && s.con.DisposeStore?
    ensures Inv(c, PurgeStep(c, s, false))
  {
    hide OnLists, OnRecent, OnTable, CrossOk, HolderOk, Delivered, ListsOk, RecentOk, TableOk, HoldOk, OwingOk,
         InserterList;
    ConKnows(c, s);
    var n, s' := s.con.node, PurgeStep(c, s, false);
    assert 0 <= n < c.capacity;
    WriteLoose(c.capacity, s.lists, s'.lists.next, s'.lists.prev, n);
    ConWrites(c.capacity, s.lists, s'.lists, s.threads, s.con, s'.con, s.recent.slice, n);
    assert PurgeOk(c.capacity, s'.lists, s'.con) && PullOk(c.capacity, s'.lists, s.recent.slice, s'.con);
    PlainCross(s.lists, s'.lists, s.table.filed, s.recent, s.con, s'.con);
    ListsChanged(c, s, s'.lists, s'.con);
  }

  lemma Disposes<K(!new), V>(c: Config<K, V>, s: State<K, V>)
    requires Inv(c, s) && WellFormed(c, s) && s.con.DisposeCas? && s.lists.ehead == s.con.h
    ensures Inv(c, PurgeStep(c, s, false))
  {
    hide OnLists, OnRecent, OnTable, HolderOk, Delivered, ListsOk, RecentOk, TableOk, HoldOk, OwingOk, InserterList;
    ConKnows(c, s);
    var n, s' := s.con.node, PurgeStep(c, s, false);
    assert 0 <= n < c.capacity;
    Push(c.capacity, s.lists, n);
    ConWrites(c.capacity, s.lists, s'.lists, s.threads, s.con, s'.con, s.recent.slice, n);
    assert PurgeOk(c.capacity, s'.lists, s'.con) && PullOk(c.capacity, s'.lists, s.recent.slice, s'.con);
    assert CrossOk(s'.lists, s.table.filed, s.recent, s'.con);
    ListsChanged(c, s, s'.lists, s'.con);
  }

  // ---------- the recent links during a pull ----------

  lemma ConRecent<K(!new)>(capacity: nat, r: Recent, r': Recent, threads: seq<Pc<K>>)
    requires OnRecent(capacity, r, threads) && RecentOk(capacity, r')
    requires forall x {:trigger MarkAt(r', x)} ::
      || MarkAt(r', x) == MarkAt(r, x)
      || (MarkAt(r, x) == Stacked && MarkAt(r', x) == Sliced)
      || (MarkAt(r, x) == Sliced && MarkAt(r', x) == Clear)
    requires forall x {:trigger At(r'.next, x)} :: At(r'.next, x) == At(r.next, x) || MarkAt(r, x) == Sliced
    ensures OnRecent(capacity, r', threads)
  {
    hide RecentOk;
    forall t | 0 <= t < |threads| ensures FinderMark(r', threads[t]) && InserterMark(r', threads[t]) {
      assert FinderMark(r, threads[t]) && InserterMark(r, threads[t]);
      var pc := threads[t];
      if pc.Find? && pc.f.CasMark? { assert MarksNow(pc, pc.f.n); }
    }
    forall x | MarkAt(r', x).Shield? ensures MarkAt(r, x) == MarkAt(r', x) {}
    forall x | MarkAt(r', x).Marking? ensures MarkAt(r, x) == MarkAt(r', x) {}
  }

  lemma PullPops<K(!new), V>(c: Config<K, V>, s: State<K, V>)
    requires Inv(c, s) && WellFormed(c, s) && s.con.PullPop?
    ensures Inv(c, PullStep(c, s, false))
  {
    hide OnLists, OnRecent, OnTable, HolderOk, Delivered, RecentOk, TableOk, Main, Side;
    ConKnows(c, s);
    var s' := PullStep(c, s, false);
    PopRecent(c.capacity, s.recent);
    forall x ensures MarkAt(s'.recent, x) == if MarkAt(s.recent, x) == Stacked then Sliced else MarkAt(s.recent, x) {}
    ConRecent(c.capacity, s.recent, s'.recent, s.threads);
    ConLists(c.capacity, s.lists, s.threads, s.con, s'.con, s.recent.slice, s'.recent.slice);
    ConTable(c, s.table, s.count, s.threads, s.con, s'.con);
    ConHolder(s.lruLock, s.threads, s.con, s'.con);
    assert forall x :: PlaceAt(s.lists, x) != Local;
    assert CrossOk(s.lists, s.table.filed, s'.recent, s'.con);
  }

  /** The pull goes on with the rest of the slice. */
  lemma NextInSlice(capacity: nat, l: Lists, slice: seq<int>, con: Con, con': Con)
    requires PullOk(capacity, l, slice, con) && (con.PullSkip? || con.PullNext?)
    requires slice != [] ==> con' == PullLoop(First(slice[1..], DUMMY), if con.PullSkip? then con.last else con.node)
    ensures slice != [] && con.node == slice[0]
    ensures PurgeOk(capacity, l, con') && PullOk(capacity, l, slice[1..], con') && SpliceOk(capacity, l, con')
  {
  }

  lemma UnsliceCross(l: Lists, filed: set<int>, r: Recent, r': Recent, con: Con, con': Con)
    requires CrossOk(l, filed, r, con) && (con.PullSkip? || con.PullNext?) && con'.PullLoop? && MarkAt(r, con.node) == Sliced
    requires forall x {:trigger MarkAt(r', x)} :: MarkAt(r', x) == if x == con.node then Clear else MarkAt(r, x)
    ensures CrossOk(l, filed, r', con')
  {
  }

  /** Unmarking the first node of the slice, whether it was skipped or moved. */
  lemma Unslices<K(!new), V>(c: Config<K, V>, s: State<K, V>)
    requires Inv(c, s) && WellFormed(c, s) && (s.con.PullSkip? || s.con.PullNext?)
    ensures Inv(c, PullStep(c, s, false))
  {
    hide OnLists, OnRecent, OnTable, CrossOk, HolderOk, Delivered, RecentOk, TableOk, ListsOk, PurgeOk, PullOk,
         SpliceOk;
    ConKnows(c, s);
    var s' := PullStep(c, s, false);
    SliceStarts(c.capacity, s.lists, s.recent.slice, s.con);
    SliceHead(c, s);
    Unslice(c.capacity, s.recent);
    RecentSize(c.capacity, s.recent);
    NextInSlice(c.capacity, s.lists, s.recent.slice, s.con, s'.con);
    ConRecent(c.capacity, s.recent, s'.recent, s.threads);
    ConLists(c.capacity, s.lists, s.threads, s.con, s'.con, s.recent.slice, s'.recent.slice);
    ConTable(c, s.table, s.count, s.threads, s.con, s'.con);
    ConHolder(s.lruLock, s.threads, s.con, s'.con);
    UnsliceCross(s.lists, s.table.filed, s.recent, s'.recent, s.con, s'.con);
  }

  lemma SliceStarts(capacity: nat, l: Lists, slice: seq<int>, con: Con)
    requires PullOk(capacity, l, slice, con) && (con.PullSkip? || con.PullNext?)
    ensures slice != [] && con.node == slice[0]
  {
  }

  lemma RecentSize(capacity: nat, r: Recent)
    requires RecentOk(capacity, r)
    ensures |r.next| == |r.mark| == capacity
  {
  }

  // ---------- the local list and the splice ----------

  lemma MovesToLocal<K(!new), V>(c: Config<K, V>, s: State<K, V>)
    requires Inv(c, s) && WellFormed(c, s) && s.con.PullLocal?
    ensures Inv(c, PullStep(c, s, false))
  {
    hide OnLists, OnRecent, OnTable, HolderOk, Delivered, Main, Side, RecentOk, TableOk, HoldOk, OwingOk, InserterList;
    ConKnows(c, s);
    SliceHead(c, s);
    EndIsLocal(c.capacity, s.lists);
    var n, s' := s.con.node, PullStep(c, s, false);
    Append(c.capacity, s.lists, n);
    assert s.lists.temp != [] ==> PlaceAt(s.lists, s.con.last) == Local;
    ConWrites(c.capacity, s.lists, s'.lists, s.threads, s.con, s'.con, s.recent.slice, n);
    assert PurgeOk(c.capacity, s'.lists, s'.con) && PullOk(c.capacity, s'.lists, s.recent.slice, s'.con);
    assert CrossOk(s'.lists, s.table.filed, s.recent, s'.con);
    ListsChanged(c, s, s'.lists, s'.con);
  }

  lemma SpliceLoads<K(!new), V>(c: Config<K, V>, s: State<K, V>)
    requires Inv(c, s) && WellFormed(c, s) && s.con.SpliceLoad?
    ensures Inv(c, PullStep(c, s, false))
  {
    hide OnLists, OnRecent, OnTable, CrossOk, HolderOk, Delivered, Main, RecentOk, TableOk, HoldOk, OwingOk,
         InserterList;
    ConKnows(c, s);
    var s' := PullStep(c, s, false);
    var first := s.lists.temp[0];
    assert first in s.lists.temp && PlaceAt(s.lists, first) == Local;
    LinkFront(c.capacity, s.lists);
    ConWrites(c.capacity, s.lists, s'.lists, s.threads, s.con, s'.con, s.recent.slice, first);
    assert PurgeOk(c.capacity, s'.lists, s'.con) && PullOk(c.capacity, s'.lists, s.recent.slice, s'.con);
    PlainCross(s.lists, s'.lists, s.table.filed, s.recent, s.con, s'.con);
    ListsChanged(c, s, s'.lists, s'.con);
  }

  lemma SpliceStores<K(!new), V>(c: Config<K, V>, s: State<K, V>)
    requires Inv(c, s) && WellFormed(c, s) && s.con.SpliceStore?
    ensures Inv(c, PullStep(c, s, false))
  {
    hide OnLists, OnRecent, OnTable, CrossOk, HolderOk, Delivered, Main, Side, RecentOk, TableOk, HoldOk, OwingOk,
         InserterList;
    ConKnows(c, s);
    EndIsLocal(c.capacity, s.lists);
    var s' := PullStep(c, s, false);
    var last := s.con.last;
    assert PlaceAt(s.lists, last) == Local;
    LinkEnd(c.capacity, s.lists, s.con.h);
    ConWrites(c.capacity, s.lists, s'.lists, s.threads, s.con, s'.con, s.recent.slice, last);
    assert PurgeOk(c.capacity, s'.lists, s'.con) && PullOk(c.capacity, s'.lists, s.recent.slice, s'.con);
    PlainCross(s.lists, s'.lists, s.table.filed, s.recent, s.con, s'.con);
    ListsChanged(c, s, s'.lists, s'.con);
  }

  /** The compare-and-swap that puts the local list in front. */
  lemma Splices<K(!new), V>(c: Config<K, V>, s: State<K, V>)
    requires Inv(c, s) && WellFormed(c, s) && s.con.SpliceCas? && At(s.lists.next, Head(c.capacity)) == s.con.h
    ensures Inv(c, PullStep(c, s, false))
  {
    hide OnLists, OnRecent, OnTable, HolderOk, Delivered, Main, Side, RecentOk, TableOk, HoldOk, OwingOk, InserterList;
    ConKnows(c, s);
    EndIsLocal(c.capacity, s.lists);
    var s' := PullStep(c, s, false);
    var l, l' := s.lists, s'.lists;
    Splice(c.capacity, l);
    SplicedPlaces(c.capacity, l, s.con.first, s.con.h);
    SplicedThreads(c, s, s'.con);
    assert PurgeOk(c.capacity, l', s'.con) && PullOk(c.capacity, l', s.recent.slice, s'.con);
    assert CrossOk(l', s.table.filed, s.recent, s'.con);
    ListsChanged(c, s, l', s'.con);
  }

  lemma SplicedPlaces(capacity: nat, l: Lists, first: int, h: int)
    requires ListsOk(capacity, l)
    ensures var l' := Spliced(capacity, l, first, h);
      forall x {:trigger PlaceAt(l', x)} :: PlaceAt(l', x) == if PlaceAt(l, x) == Local then Listed else PlaceAt(l, x)
    ensures var l' := Spliced(capacity, l, first, h);
      forall x {:trigger At(l'.next, x)} :: 0 <= x < capacity ==> At(l'.next, x) == At(l.next, x)
  {
    hide Main, Side;
    assert forall x :: x in l.temp ==> PlaceAt(l, x) == Local by {
      assert forall i :: 0 <= i < |l.temp| ==> l.temp[i] in l.temp;
    }
  }

  lemma SplicedThreads<K(!new), V>(c: Config<K, V>, s: State<K, V>, con': Con)
    requires Inv(c, s) && s.con.SpliceCas? && At(s.lists.next, Head(c.capacity)) == s.con.h
    requires con' == SpliceBack(s.con.last, s.con.h)
    ensures var l' := Spliced(c.capacity, s.lists, s.con.first, s.con.h);
      && HoldOk(c.capacity, s.threads, l') && OwingOk(s.threads, con', l')
      && forall t :: 0 <= t < |s.threads| ==> InserterList(c.capacity, l', s.threads[t])
  {
    hide PurgeOk, PullOk, SpliceOk, CrossOk, OnTable, OnRecent, HolderOk, Delivered, Main, Side;
    var l, l' := s.lists, Spliced(c.capacity, s.lists, s.con.first, s.con.h);
    SplicedPlaces(c.capacity, l, s.con.first, s.con.h);
    HeadNext(c.capacity, l);
    FirstSettled(c.capacity, l);
    forall t | 0 <= t < |s.threads| ensures InserterList(c.capacity, l', s.threads[t]) {
      assert InserterList(c.capacity, l, s.threads[t]);
      var pc := s.threads[t];
      if pc.Insert? && (pc.i.StoreNext? || pc.i.CasHead?) { assert Holds(pc, pc.i.n); }
      if pc.Insert? && pc.i.WriteBack? { OrderBounds(c.capacity, l, pc.i.n); }
    }
    SplicedHolds(c.capacity, s.threads, l, l');
    BypassOwing(s.threads, s.con, con', l, l', s.con.h);
  }

  lemma FirstSettled(capacity: nat, l: Lists)
    requires ListsOk(capacity, l)
    ensures First(l.order, Tail(capacity)) !in l.owed
  {
  }

  lemma OrderBounds(capacity: nat, l: Lists, x: int)
    requires ListsOk(capacity, l) && PlaceAt(l, x) == Listed
    ensures 0 <= x < capacity
  {
  }

  lemma SplicedHolds<K>(capacity: nat, threads: seq<Pc<K>>, l: Lists, l': Lists)
    requires HoldOk(capacity, threads, l)
    requires forall x {:trigger PlaceAt(l', x)} :: PlaceAt(l', x) == if PlaceAt(l, x) == Local then Listed else PlaceAt(l, x)
    ensures HoldOk(capacity, threads, l')
  {
    hide Holds;
  }

  // ---------- taking and leaving the LRU lock ----------

  lemma Acquires<K(!new), V>(c: Config<K, V>, s: State<K, V>, t: nat, after: After<K>)
    requires Inv(c, s) && t < |s.threads| && s.threads[t] == Try(after) && s.lruLock == NULL
    ensures Inv(c, Jump(s.(lruLock := t, con := PurgeTest), t, Consolidate(after)))
  {
    hide OnLists, OnRecent, OnTable, CrossOk, Delivered, PurgeOk, PullOk, SpliceOk;
    var pc := Consolidate(after);
    ConKnows(c, s);
    Knows(c, s, t);
    Fresh(c, s, pc);
    OffOk(c.capacity, s.lists, s.recent.slice, s.con, PurgeTest);
    ConLists(c.capacity, s.lists, s.threads, s.con, PurgeTest, s.recent.slice, s.recent.slice);
    ConTable(c, s.table, s.count, s.threads, s.con, PurgeTest);
    OffCross(s.lists, s.table.filed, s.recent, s.con, PurgeTest);
    KeepLists(c.capacity, s.lists, s.threads, PurgeTest, s.recent.slice, t, pc);
    KeepRecent(c.capacity, s.recent, s.threads, t, pc);
    KeepTable(c, s.table, s.count, s.threads, PurgeTest, t, pc);
  }

  lemma Fresh<K, V>(c: Config<K, V>, s: State<K, V>, pc: Pc<K>)
    requires !pc.Find? && (pc.Insert? ==> pc.i.Allocate?)
    ensures Fits(c, s, pc)
  {
  }

  predicate Outside(con: Con) {
    con.Off? || con.PurgeTest? || con.Release?
  }

  lemma OffOk(capacity: nat, l: Lists, slice: seq<int>, con: Con, con': Con)
    requires PullOk(capacity, l, slice, con) && Outside(con) && Outside(con')
    ensures PurgeOk(capacity, l, con') && PullOk(capacity, l, slice, con') && SpliceOk(capacity, l, con')
  {
  }

  lemma OffCross(l: Lists, filed: set<int>, r: Recent, con: Con, con': Con)
    requires CrossOk(l, filed, r, con) && Outside(con) && Outside(con')
    ensures CrossOk(l, filed, r, con')
  {
  }

  lemma Releases<K(!new), V>(c: Config<K, V>, s: State<K, V>, t: nat, after: After<K>)
    requires Inv(c, s) && t < |s.threads| && s.threads[t] == Consolidate(after) && s.con.Release?
    ensures Inv(c, Jump(s.(lruLock := NULL, con := Off), t, Resume(after)))
  {
    hide OnLists, OnRecent, OnTable, CrossOk, Delivered, PurgeOk, PullOk, SpliceOk;
    var pc := Resume(after);
    ConKnows(c, s);
    Knows(c, s, t);
    Fresh(c, s, pc);
    OffOk(c.capacity, s.lists, s.recent.slice, s.con, Off);
    ConLists(c.capacity, s.lists, s.threads, s.con, Off, s.recent.slice, s.recent.slice);
    ConTable(c, s.table, s.count, s.threads, s.con, Off);
    OffCross(s.lists, s.table.filed, s.recent, s.con, Off);
    KeepLists(c.capacity, s.lists, s.threads, Off, s.recent.slice, t, pc);
    KeepRecent(c.capacity, s.recent, s.threads, t, pc);
    KeepTable(c, s.table, s.count, s.threads, Off, t, pc);
  }

  // ---------- whole steps ----------

  lemma PurgeKeeps<K(!new), V>(c: Config<K, V>, s: State<K, V>, fails: bool)
    requires Inv(c, s) && WellFormed(c, s) && Purging(s.con)
    ensures Inv(c, PurgeStep(c, s, fails))
  {
    hide Inv;
    match s.con
    case PurgeUnfile(_, _, _) => Unfiles(c, s, fails);
    case PurgeForward(_, _, _, _, _) => PurgeBypasses(c, s);
    case PurgeBack(_, _, _, _, _) => PurgeSettles(c, s);
    case PurgeDelete(_, _, _) => Deletes(c, s);
    case DisposeStore(_, _, _, _) => DisposeStores(c, s);
    case DisposeCas(_, _, _, h) =>
      if fails || s.lists.ehead != h { DisposeFails(c, s, fails); } else { Disposes(c, s); }
    case PurgeStart => PurgeLooks(c, s);
    case PurgeLoop(_, _) => PurgeLooks(c, s);
    case _ => PurgeReads(c, s, fails);
  }

  lemma PullKeeps<K(!new), V>(c: Config<K, V>, s: State<K, V>, fails: bool)
    requires Inv(c, s) && WellFormed(c, s) && !Purging(s.con)
    ensures Inv(c, PullStep(c, s, fails))
  {
    hide Inv;
    match s.con
    case PullPop => PullPops(c, s);
    case PullZero(_) => PullZeroes(c, s);
    case PullSkip(_, _) => Unslices(c, s);
    case PullForward(_, _, _, _) => PullBypasses(c, s);
    case PullBack(_, _, _, _) => PullSettles(c, s);
    case PullLocal(_, _) => MovesToLocal(c, s);
    case PullNext(_) => Unslices(c, s);
    case SpliceLoad(_) => SpliceLoads(c, s);
    case SpliceStore(_, _, _) => SpliceStores(c, s);
    case SpliceCas(_, _, h) =>
      if fails || At(s.lists.next, Head(c.capacity)) != h { SpliceFails(c, s, fails); } else { Splices(c, s); }
    case SpliceBack(_, _) => SpliceSettles(c, s);
    case PullTest => PullReads(c, s, fails);
    case PullLoop(_, _) => PullReads(c, s, fails);
    case PullRead(_, _) => PullReads(c, s, fails);
    case PullDone => PullReads(c, s, fails);
    case _ =>
  }
}
