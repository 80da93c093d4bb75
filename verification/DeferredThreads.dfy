/** Every step of a finding or inserting thread keeps the invariant of the concurrent DeferredLRU. */
module DeferredThreads {
  import opened Links
  import opened Sequences
  import opened SharedLists
  import opened DeferredMachine
  import opened DeferredInvariant
  import Entries

  // ---------- a thread moves on without touching one of the three parts ----------

  lemma KeepLists<K(!new)>(capacity: nat, l: Lists, threads: seq<Pc<K>>, con: Con, slice: seq<int>, t: nat, pc: Pc<K>)
    requires OnLists(capacity, l, threads, con, slice) && t < |threads|
    requires forall x :: Holds(threads[t], x) <==> Holds(pc, x)
    requires forall y :: OwesBack(threads[t], y) <==> OwesBack(pc, y)
    requires InserterList(capacity, l, pc)
    ensures OnLists(capacity, l, threads[t := pc], con, slice)
  {
    hide ListsOk, PurgeOk, PullOk, SpliceOk, InserterList, Holds, OwesBack;
  }

  lemma KeepRecent<K(!new)>(capacity: nat, r: Recent, threads: seq<Pc<K>>, t: nat, pc: Pc<K>)
    requires OnRecent(capacity, r, threads) && t < |threads|
    requires forall x :: Shields(threads[t], x) <==> Shields(pc, x)
    requires forall x :: MarksNow(threads[t], x) <==> MarksNow(pc, x)
    requires FinderMark(r, pc) && InserterMark(r, pc)
    ensures OnRecent(capacity, r, threads[t := pc])
  {
    hide RecentOk, FinderMark, InserterMark, Shields, MarksNow;
  }

  lemma KeepTable<K(!new), V>(c: Config<K, V>, tb: Table<K, V>, count: int, threads: seq<Pc<K>>, con: Con, t: nat, pc: Pc<K>)
    requires OnTable(c, tb, count, threads, con) && t < |threads|
    requires HasStripe(threads[t]) <==> HasStripe(pc)
    requires HasStripe(pc) ==> threads[t].k == pc.k
    requires Reserves(threads[t]) <==> Reserves(pc)
    requires FinderTable(tb, pc) && InserterTable(c, tb, pc)
    ensures OnTable(c, tb, count, threads[t := pc], con)
  {
    hide TableOk, FinderTable, InserterTable, HasStripe, Reserves;
    ReservedUpdate(threads, t, pc);
  }

  lemma {:induction false} ReservedUpdate<K>(threads: seq<Pc<K>>, t: nat, pc: Pc<K>)
    requires t < |threads|
    ensures Reserved(threads[t := pc])
            == Reserved(threads) - (if Reserves(threads[t]) then 1 else 0) + (if Reserves(pc) then 1 else 0)
  {
    if t > 0 {
      assert threads[t := pc][1..] == threads[1..][t - 1 := pc];
      ReservedUpdate(threads[1..], t - 1, pc);
    }
  }

  lemma KeepHolder<K>(lruLock: int, threads: seq<Pc<K>>, con: Con, t: nat, pc: Pc<K>)
    requires HolderOk(lruLock, threads, con) && t < |threads|
    requires threads[t].Consolidate? <==> pc.Consolidate?
    ensures HolderOk(lruLock, threads[t := pc], con)
  {
  }

  /** What one thread knows. */
  lemma Knows<K, V>(c: Config<K, V>, s: State<K, V>, t: nat)
    requires Inv(c, s) && t < |s.threads|
    ensures WellFormed(c, s)
    ensures FinderTable(s.table, s.threads[t]) && InserterTable(c, s.table, s.threads[t])
    ensures FinderMark(s.recent, s.threads[t]) && InserterMark(s.recent, s.threads[t])
    ensures InserterList(c.capacity, s.lists, s.threads[t])
  {
    hide OwingOk, LockOk, CountOk, HolderOk, CrossOk, PurgeOk, PullOk, SpliceOk, HoldOk, ShieldOk, MarkingOk,
         FinderTable, InserterTable, FinderMark, InserterMark, InserterList;
  }

  ghost predicate SameOnLists<K(!new)>(pc: Pc<K>, pc': Pc<K>) {
    && (forall x :: Holds(pc, x) <==> Holds(pc', x)) && (forall y :: OwesBack(pc, y) <==> OwesBack(pc', y))
  }

  ghost predicate SameOnRecent<K(!new)>(pc: Pc<K>, pc': Pc<K>) {
    && (forall x :: Shields(pc, x) <==> Shields(pc', x)) && (forall x :: MarksNow(pc, x) <==> MarksNow(pc', x))
  }

  ghost predicate SameOnTable<K(!new)>(pc: Pc<K>, pc': Pc<K>) {
    && (HasStripe(pc) <==> HasStripe(pc')) && (HasStripe(pc') ==> pc.k == pc'.k) && (Reserves(pc) <==> Reserves(pc'))
  }

  /** What the new program counter knows. */
  ghost predicate Fits<K, V>(c: Config<K, V>, s: State<K, V>, pc: Pc<K>) {
    && FinderTable(s.table, pc) && InserterTable(c, s.table, pc)
    && FinderMark(s.recent, pc) && InserterMark(s.recent, pc) && InserterList(c.capacity, s.lists, pc)
  }

  /** A step that changes no list, no mark, no bucket and no lock. */
  lemma ThreadOnly<K(!new), V>(c: Config<K, V>, s: State<K, V>, t: nat, pc: Pc<K>, log: seq<(K, V)>, pull: bool, purge: bool)
    requires Inv(c, s) && t < |s.threads| && (s.threads[t].Consolidate? <==> pc.Consolidate?)
    requires SameOnLists(s.threads[t], pc) && SameOnRecent(s.threads[t], pc) && SameOnTable(s.threads[t], pc)
    requires Fits(c, s, pc) && Delivered(c, log)
    ensures Inv(c, Jump(s.(log := log, pullRequest := pull, purgeRequest := purge), t, pc))
  {
    hide OnLists, OnRecent, OnTable, CrossOk, HolderOk, Delivered, FinderTable, InserterTable, FinderMark,
         InserterMark, InserterList, Holds, OwesBack, Shields, MarksNow, HasStripe, Reserves;
    KeepLists(c.capacity, s.lists, s.threads, s.con, s.recent.slice, t, pc);
    KeepRecent(c.capacity, s.recent, s.threads, t, pc);
    KeepTable(c, s.table, s.count, s.threads, s.con, t, pc);
    KeepHolder(s.lruLock, s.threads, s.con, t, pc);
  }

  // ---------- finders ----------

  lemma FindKeeps<K(!new), V>(c: Config<K, V>, s: State<K, V>, t: nat, fails: bool)
    requires Inv(c, s) && WellFormed(c, s) && t < |s.threads| && s.threads[t].Find?
    ensures Inv(c, FindStep(c, s, t, s.threads[t].k, s.threads[t].f, fails))
  {
    hide Inv, Delivered;
    Knows(c, s, t);
    Log(c, s);
    var k, f := s.threads[t].k, s.threads[t].f;
    var pc := FindStep(c, s, t, k, f, fails).threads[t];
    match f
    case Lock => TakesLock(c, s, t);
    case Search => Searches(c, s, t);
    case Check(n) =>
      ReadsMark(c, s, n);
      ThreadOnly(c, s, t, pc, s.log, s.pullRequest, s.purgeRequest);
    case LoadMark(n) =>
      HeadNotNull(c, s);
      ThreadOnly(c, s, t, pc, s.log, s.pullRequest, s.purgeRequest);
    case StoreMark(n, h, again) => StoresMark(c, s, t);
    case CasMark(n, h) =>
      HeadNotNull(c, s);
      if fails || s.recent.head != h {
        ThreadOnly(c, s, t, pc, s.log, s.pullRequest, s.purgeRequest);
      } else {
        PushesMark(c, s, t);
      }
    case CountMark => CountsMark(c, s, t);
    case Unlock(found) => DropsLock(c, s, t);
    case TestThreshold(found) => ThreadOnly(c, s, t, pc, s.log, s.pullRequest, s.purgeRequest);
    case RequestPull(found) => ThreadOnly(c, s, t, pc, s.log, true, s.purgeRequest);
  }

  lemma Log<K, V>(c: Config<K, V>, s: State<K, V>)
    requires Inv(c, s)
    ensures Delivered(c, s.log)
  {
    hide OnLists, OnRecent, OnTable, CrossOk, HolderOk;
  }

  lemma HeadNotNull<K, V>(c: Config<K, V>, s: State<K, V>)
    requires Inv(c, s)
    ensures s.recent.head != NULL
  {
    hide OnLists, OnTable, CrossOk, HolderOk, Delivered;
  }

  lemma ReadsMark<K, V>(c: Config<K, V>, s: State<K, V>, n: int)
    requires Inv(c, s) && WellFormed(c, s) && 0 <= n < |s.table.key|
    ensures At(s.recent.next, n) == NULL <==> MarkAt(s.recent, n) == Clear
  {
    hide OnLists, OnTable, CrossOk, HolderOk, Delivered;
  }

  lemma Searches<K(!new), V>(c: Config<K, V>, s: State<K, V>, t: nat)
    requires Inv(c, s) && WellFormed(c, s) && t < |s.threads| && s.threads[t].Find? && s.threads[t].f.Search?
    ensures Inv(c, FindStep(c, s, t, s.threads[t].k, FindPc.Search, false))
  {
    hide Inv;
    Log(c, s);
    var k := s.threads[t].k;
    var chain := s.table.chains[BucketOf(c, k)];
    var n := Entries.Seek(chain, s.table.key, k);
    Entries.SeekFinds(chain, s.table.key, k);
    if 0 <= n < c.capacity {
      Found(c, s, k, n);
      ThreadOnly(c, s, t, Find(k, Check(n)), s.log + [(k, s.table.value[n])], s.pullRequest, s.purgeRequest);
    } else {
      ThreadOnly(c, s, t, Find(k, Unlock(false)), s.log, s.pullRequest, s.purgeRequest);
    }
  }

  /** What a search finds has the value of the key. */
  lemma Found<K, V>(c: Config<K, V>, s: State<K, V>, k: K, n: int)
    requires Inv(c, s) && WellFormed(c, s) && 0 <= n < c.capacity && s.table.key[n] == k
    requires n in s.table.chains[BucketOf(c, k)]
    ensures n in s.table.filed && s.table.value[n] == c.f(k)
  {
    hide OnLists, OnRecent, CrossOk, HolderOk, Delivered, LockOk, CountOk, FinderTable, InserterTable;
  }

  /** Taking or dropping a bucket lock. */
  lemma LocksTable<K(!new), V>(c: Config<K, V>, s: State<K, V>, t: nat, pc: Pc<K>, holder: int)
    requires Inv(c, s) && WellFormed(c, s) && t < |s.threads| && s.threads[t].Find? && pc.Find?
    requires pc.k == s.threads[t].k
    requires var i := StripeOf(c, pc.k);
      || (holder == t && HasStripe(pc) && !HasStripe(s.threads[t]) && s.table.locks[i] == NULL)
      || (holder == NULL && !HasStripe(pc) && HasStripe(s.threads[t]))
    requires FinderTable(s.table, pc)
    ensures OnTable(c, s.table.(locks := s.table.locks[StripeOf(c, pc.k) := holder]), s.count, s.threads[t := pc], s.con)
  {
    hide OnLists, OnRecent, CrossOk, HolderOk, Delivered;
    ReservedUpdate(s.threads, t, pc);
    var tb' := s.table.(locks := s.table.locks[StripeOf(c, pc.k) := holder]);
    var threads' := s.threads[t := pc];
    forall u | 0 <= u < |threads'| ensures FinderTable(tb', threads'[u]) && InserterTable(c, tb', threads'[u]) {
      assert u != t ==> FinderTable(s.table, s.threads[u]) && InserterTable(c, s.table, s.threads[u]);
    }
    assert TableOk(c, tb');
    forall u | 0 <= u < |threads'| && HasStripe(threads'[u]) ensures At(tb'.locks, StripeOf(c, threads'[u].k)) == u {
      assert u != t ==> HasStripe(s.threads[u]);
    }
  }

  lemma TakesLock<K(!new), V>(c: Config<K, V>, s: State<K, V>, t: nat)
    requires Inv(c, s) && WellFormed(c, s) && t < |s.threads| && s.threads[t].Find? && s.threads[t].f.Lock?
    ensures Inv(c, FindStep(c, s, t, s.threads[t].k, FindPc.Lock, false))
  {
    hide OnLists, OnRecent, OnTable, CrossOk, HolderOk, Delivered;
    var k := s.threads[t].k;
    if s.table.locks[StripeOf(c, k)] == NULL {
      var pc := Find(k, FindPc.Search);
      KeepLists(c.capacity, s.lists, s.threads, s.con, s.recent.slice, t, pc);
      KeepRecent(c.capacity, s.recent, s.threads, t, pc);
      KeepHolder(s.lruLock, s.threads, s.con, t, pc);
      LocksTable(c, s, t, pc, t);
    }
  }

  lemma DropsLock<K(!new), V>(c: Config<K, V>, s: State<K, V>, t: nat)
    requires Inv(c, s) && WellFormed(c, s) && t < |s.threads| && s.threads[t].Find? && s.threads[t].f.Unlock?
    ensures Inv(c, FindStep(c, s, t, s.threads[t].k, s.threads[t].f, false))
  {
    hide OnLists, OnRecent, OnTable, CrossOk, HolderOk, Delivered;
    var pc := Find(s.threads[t].k, TestThreshold(s.threads[t].f.found));
    KeepLists(c.capacity, s.lists, s.threads, s.con, s.recent.slice, t, pc);
    KeepRecent(c.capacity, s.recent, s.threads, t, pc);
    KeepHolder(s.lruLock, s.threads, s.con, t, pc);
    LocksTable(c, s, t, pc, NULL);
  }

  predicate Uses<K>(pc: Pc<K>, n: int) {
    pc.Find? && (pc.f.Check? || pc.f.LoadMark? || pc.f.StoreMark? || pc.f.CasMark?) && pc.f.n == n
  }

  /** Two threads that have found the same node would hold the same lock. */
  lemma OneFinder<K, V>(c: Config<K, V>, tb: Table<K, V>, count: int, threads: seq<Pc<K>>, con: Con, t: nat, u: nat, n: int)
    requires OnTable(c, tb, count, threads, con) && t < |threads| && u < |threads|
    requires Uses(threads[t], n) && Uses(threads[u], n)
    ensures t == u
  {
    hide TableOk, CountOk, InserterTable;
    assert FinderTable(tb, threads[t]) && FinderTable(tb, threads[u]);
    assert HasStripe(threads[t]) && HasStripe(threads[u]);
  }

  /** A thread writes or pushes the mark of the node that it alone uses. */
  lemma MarksRecent<K(!new), V>(c: Config<K, V>, s: State<K, V>, t: nat, n: int, r': Recent, pc: Pc<K>)
    requires Inv(c, s) && WellFormed(c, s) && t < |s.threads| && 0 <= n < c.capacity && RecentOk(c.capacity, r')
    requires Uses(s.threads[t], n) && pc.Find?
    requires forall x :: x != n ==> MarkAt(r', x) == MarkAt(s.recent, x) && At(r'.next, x) == At(s.recent.next, x)
    requires MarkAt(s.recent, n) == Clear || MarkAt(s.recent, n) == Marking(t)
    requires if MarksNow(pc, n) then MarkAt(r', n) == Marking(t) else MarkAt(r', n) == Stacked
    requires forall x :: MarksNow(pc, x) ==> x == n
    requires FinderMark(r', pc)
    ensures OnRecent(c.capacity, r', s.threads[t := pc])
  {
    hide OnLists, CrossOk, HolderOk, Delivered, OnTable, RecentOk, Reserved;
    var threads' := s.threads[t := pc];
    forall u | 0 <= u < |threads'| ensures FinderMark(r', threads'[u]) && InserterMark(r', threads'[u]) {
      if u != t {
        assert FinderMark(s.recent, s.threads[u]) && InserterMark(s.recent, s.threads[u]);
        if Uses(s.threads[u], n) { OneFinder(c, s.table, s.count, s.threads, s.con, t, u, n); }
        FillNotFiled(c, s, t, u, n);
      }
    }
    forall u, x | 0 <= u < |threads'| && MarksNow(threads'[u], x) ensures 0 <= x < c.capacity && MarkAt(r', x) == Marking(u) {
      if u != t { assert MarksNow(s.threads[u], x); }
    }
    assert forall u :: 0 <= u < |s.threads| && u != t ==> threads'[u] == s.threads[u];
    forall u, x | 0 <= u < |threads'| && Shields(threads'[u], x) ensures 0 <= x < c.capacity && MarkAt(r', x) == Shield(u) {
      assert Shields(s.threads[u], x);
    }
  }

  /** A node that is being filled is not the one a finder has found. */
  lemma FillNotFiled<K, V>(c: Config<K, V>, s: State<K, V>, t: nat, u: nat, n: int)
    requires Inv(c, s) && t < |s.threads| && u < |s.threads| && Uses(s.threads[t], n)
    ensures s.threads[u].Insert? && s.threads[u].i.Fill? ==> s.threads[u].i.n != n
  {
    hide OnLists, CrossOk, HolderOk, Delivered, OnRecent, TableOk, LockOk, CountOk;
    assert FinderTable(s.table, s.threads[t]) && InserterTable(c, s.table, s.threads[u]);
  }

  /** A filed node without a mark is in the LRU list or in the local list. */
  lemma UnmarkedPlace<K, V>(c: Config<K, V>, s: State<K, V>, n: int)
    requires Inv(c, s) && 0 <= n < c.capacity && n in s.table.filed && MarkAt(s.recent, n) == Clear
    ensures PlaceAt(s.lists, n) == Listed || PlaceAt(s.lists, n) == Local
  {
    hide TableOk, LockOk, CountOk, MarkingOk, OwingOk, HolderOk, Delivered, Main, Side, PurgeOk, SpliceOk;
    assert forall u :: 0 <= u < |s.threads| && Holds(s.threads[u], n) ==>
      InserterTable(c, s.table, s.threads[u]) && (s.threads[u].i.Fill? || Shields(s.threads[u], n));
    assert s.recent.slice != [] ==> s.recent.slice[0] in s.recent.slice;
  }

  lemma MarksCross<K, V>(c: Config<K, V>, s: State<K, V>, t: nat, n: int, r': Recent)
    requires Inv(c, s) && WellFormed(c, s) && t < |s.threads| && Uses(s.threads[t], n)
    requires forall x :: x != n ==> MarkAt(r', x) == MarkAt(s.recent, x)
    requires MarkAt(s.recent, n) == Clear || MarkAt(s.recent, n) == Marking(t)
    requires MarkAt(r', n) == Marking(t) || MarkAt(r', n) == Stacked
    ensures CrossOk(s.lists, s.table.filed, r', s.con)
  {
    hide OnLists, OnRecent, HolderOk, Delivered, TableOk, LockOk, CountOk;
    assert FinderTable(s.table, s.threads[t]);
    if MarkAt(s.recent, n) == Clear { UnmarkedPlace(c, s, n); }
  }

  /** The mark of the node a finder is about to write or push. */
  lemma OwnMark<K, V>(c: Config<K, V>, s: State<K, V>, t: nat)
    requires Inv(c, s) && WellFormed(c, s) && t < |s.threads| && s.threads[t].Find?
    requires s.threads[t].f.StoreMark? || s.threads[t].f.CasMark?
    ensures RecentOk(c.capacity, s.recent)
    ensures 0 <= s.threads[t].f.n < c.capacity && FinderMark(s.recent, s.threads[t])
    ensures var m := MarkAt(s.recent, s.threads[t].f.n); m == Clear || m == Marking(t)
    ensures s.threads[t].f.CasMark? ==> MarkAt(s.recent, s.threads[t].f.n) == Marking(t)
  {
    hide OnLists, CrossOk, HolderOk, Delivered, RecentOk, ShieldOk, TableOk, LockOk, CountOk;
    var f := s.threads[t].f;
    assert FinderTable(s.table, s.threads[t]) && FinderMark(s.recent, s.threads[t]);
    if f.CasMark? || f.again { assert MarksNow(s.threads[t], f.n); }
  }

  lemma StoresMark<K(!new), V>(c: Config<K, V>, s: State<K, V>, t: nat)
    requires Inv(c, s) && WellFormed(c, s) && t < |s.threads| && s.threads[t].Find? && s.threads[t].f.StoreMark?
    ensures Inv(c, FindStep(c, s, t, s.threads[t].k, s.threads[t].f, false))
  {
    hide OnLists, OnRecent, OnTable, CrossOk, HolderOk, Delivered, RecentOk;
    var k, n, h := s.threads[t].k, s.threads[t].f.n, s.threads[t].f.h;
    var pc := Find(k, CasMark(n, h));
    Knows(c, s, t);
    OwnMark(c, s, t);
    WriteMark(c.capacity, s.recent, n, h, Marking(t));
    MarksRecent(c, s, t, n, Marked(s.recent, n, h, t), pc);
    MarksCross(c, s, t, n, Marked(s.recent, n, h, t));
    KeepLists(c.capacity, s.lists, s.threads, s.con, s.recent.slice, t, pc);
    KeepTable(c, s.table, s.count, s.threads, s.con, t, pc);
    KeepHolder(s.lruLock, s.threads, s.con, t, pc);
  }

  lemma PushesMark<K(!new), V>(c: Config<K, V>, s: State<K, V>, t: nat)
    requires Inv(c, s) && WellFormed(c, s) && t < |s.threads| && s.threads[t].Find? && s.threads[t].f.CasMark?
    requires s.recent.head == s.threads[t].f.h
    ensures Inv(c, FindStep(c, s, t, s.threads[t].k, s.threads[t].f, false))
  {
    hide OnLists, OnRecent, OnTable, CrossOk, HolderOk, Delivered, RecentOk;
    var k, n := s.threads[t].k, s.threads[t].f.n;
    var pc := Find(k, CountMark);
    Knows(c, s, t);
    OwnMark(c, s, t);
    PushRecent(c.capacity, s.recent, n);
    MarksRecent(c, s, t, n, PushedMark(s.recent, n), pc);
    MarksCross(c, s, t, n, PushedMark(s.recent, n));
    KeepLists(c.capacity, s.lists, s.threads, s.con, s.recent.slice, t, pc);
    KeepTable(c, s.table, s.count, s.threads, s.con, t, pc);
    KeepHolder(s.lruLock, s.threads, s.con, t, pc);
  }

  lemma CountsMark<K(!new), V>(c: Config<K, V>, s: State<K, V>, t: nat)
    requires Inv(c, s) && WellFormed(c, s) && t < |s.threads| && s.threads[t].Find? && s.threads[t].f.CountMark?
    ensures Inv(c, FindStep(c, s, t, s.threads[t].k, CountMark, false))
  {
    hide Inv, Delivered;
    Log(c, s);
    var pc := Find(s.threads[t].k, Unlock(true));
    ThreadOnly(c, s, t, pc, s.log, s.pullRequest, s.purgeRequest);
    Recount(c, Jump(s, t, pc), s.recent.count + 1);
  }

  /** The recent count means nothing to the invariant: updates of it can be lost. */
  lemma Recount<K, V>(c: Config<K, V>, s: State<K, V>, n: int)
    requires Inv(c, s)
    ensures Inv(c, s.(recent := s.recent.(count := n)))
  {
    hide OnLists, OnTable, HolderOk, Delivered;
    var r := s.recent.(count := n);
    forall x ensures MarkAt(r, x) == MarkAt(s.recent, x) {}
    forall u | 0 <= u < |s.threads| ensures FinderMark(r, s.threads[u]) && InserterMark(r, s.threads[u]) {
      assert FinderMark(s.recent, s.threads[u]) && InserterMark(s.recent, s.threads[u]);
    }
  }
}
