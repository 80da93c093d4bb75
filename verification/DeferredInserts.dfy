/** Every step of an inserting thread keeps the invariant of the concurrent DeferredLRU. */
module DeferredInserts {
  import opened Links
  import opened Sequences
  import opened SharedLists
  import opened DeferredMachine
  import opened DeferredInvariant
  import opened DeferredThreads

  // ---------- steps on the lists ----------

  /** The lists change only where no one else looks. */
  ghost predicate Undisturbed(capacity: nat, l: Lists, l': Lists, t: int) {
    && l'.temp == l.temp
    && (forall x {:trigger PlaceAt(l', x)} :: PlaceAt(l, x) == Listed || PlaceAt(l, x) == Taken || PlaceAt(l, x) == Local ==>
          PlaceAt(l', x) == PlaceAt(l, x))
    && (forall x {:trigger At(l'.next, x)} :: PlaceAt(l, x) != Free && PlaceAt(l, x) != Owned(t) ==>
          At(l'.next, x) == At(l.next, x))
    && (forall x {:trigger At(l'.prev, x)} :: PlaceAt(l, x) != Free && PlaceAt(l, x) != Owned(t) ==>
          At(l'.prev, x) == At(l.prev, x) || (At(l.prev, x) == Head(capacity) && PlaceAt(l, x) == Listed))
  }

  lemma PurgeUndisturbed(capacity: nat, l: Lists, l': Lists, con: Con, t: int)
    requires Undisturbed(capacity, l, l', t) && PurgeOk(capacity, l, con)
    ensures PurgeOk(capacity, l', con)
  {
  }

  lemma PullUndisturbed(capacity: nat, l: Lists, l': Lists, con: Con, slice: seq<int>, t: int)
    requires Undisturbed(capacity, l, l', t) && PullOk(capacity, l, slice, con)
    ensures PullOk(capacity, l', slice, con)
  {
    assert LocalEnd(capacity, l') == LocalEnd(capacity, l);
  }

  lemma SpliceUndisturbed(capacity: nat, l: Lists, l': Lists, con: Con, t: int)
    requires ListsOk(capacity, l) && Undisturbed(capacity, l, l', t) && SpliceOk(capacity, l, con)
    ensures SpliceOk(capacity, l', con)
  {
    hide Main, Side;
    assert l.temp != [] ==> l.temp[0] in l.temp && LocalEnd(capacity, l) in l.temp;
    assert LocalEnd(capacity, l') == LocalEnd(capacity, l);
  }

  lemma ListsStep<K(!new)>(capacity: nat, l: Lists, l': Lists, threads: seq<Pc<K>>, con: Con, slice: seq<int>, t: nat, pc: Pc<K>)
    requires OnLists(capacity, l, threads, con, slice) && t < |threads| && Undisturbed(capacity, l, l', t)
    requires ListsOk(capacity, l') && HoldOk(capacity, threads[t := pc], l') && OwingOk(threads[t := pc], con, l')
    requires InserterList(capacity, l', pc)
    ensures OnLists(capacity, l', threads[t := pc], con, slice)
  {
    hide ListsOk, OwingOk, PurgeOk, PullOk, SpliceOk;
    PurgeUndisturbed(capacity, l, l', con, t);
    PullUndisturbed(capacity, l, l', con, slice, t);
    SpliceUndisturbed(capacity, l, l', con, t);
    var threads' := threads[t := pc];
    forall u | 0 <= u < |threads'| ensures InserterList(capacity, l', threads'[u]) {
      if u != t {
        assert InserterList(capacity, l, threads[u]);
        assert threads[u].Insert? && (threads[u].i.StoreNext? || threads[u].i.CasHead?) ==> Holds(threads[u], threads[u].i.n);
      }
    }
  }

  /** One node changes hands between a thread and the lists. */
  lemma HandOver<K(!new)>(capacity: nat, l: Lists, l': Lists, threads: seq<Pc<K>>, t: nat, pc: Pc<K>, n: int)
    requires HoldOk(capacity, threads, l) && t < |threads| && 0 <= n < capacity
    requires forall x {:trigger PlaceAt(l', x)} :: x != n ==> PlaceAt(l', x) == PlaceAt(l, x)
    requires forall x :: x != n ==> (Holds(threads[t], x) <==> Holds(pc, x))
    requires Holds(pc, n) <==> PlaceAt(l', n) == Owned(t)
    requires PlaceAt(l, n).Owned? ==> PlaceAt(l, n) == Owned(t)
    requires PlaceAt(l', n).Owned? ==> PlaceAt(l', n) == Owned(t)
    ensures HoldOk(capacity, threads[t := pc], l')
  {
    hide Holds;
    var threads' := threads[t := pc];
    forall u, x | 0 <= u < |threads'| && Holds(threads'[u], x) ensures 0 <= x < capacity && PlaceAt(l', x) == Owned(u) {
      assert u != t ==> Holds(threads[u], x);
      assert x != n ==> Holds(threads[u], x);
    }
    forall x | PlaceAt(l', x).Owned? ensures 0 <= PlaceAt(l', x).thread < |threads| && Holds(threads'[PlaceAt(l', x).thread], x) {
      if x != n { assert PlaceAt(l, x).Owned?; }
    }
  }

  lemma PopsNode<K(!new)>(capacity: nat, l: Lists, threads: seq<Pc<K>>, con: Con, slice: seq<int>, t: nat, k: K)
    requires OnLists(capacity, l, threads, con, slice) && t < |threads| && threads[t] == Insert(k, Allocate)
    requires l.ehead != NULL
    ensures OnLists(capacity, Popped(l, t), threads[t := Insert(k, Fill(l.ehead))], con, slice)
    ensures PlaceAt(l, l.ehead) == Free && PlaceAt(Popped(l, t), l.ehead) == Owned(t) && 0 <= l.ehead < capacity
    ensures forall x {:trigger PlaceAt(Popped(l, t), x)} :: x != l.ehead ==> PlaceAt(Popped(l, t), x) == PlaceAt(l, x)
  {
    hide Main, OwingOk, PurgeOk, PullOk, SpliceOk;
    var n, l', pc := l.ehead, Popped(l, t), Insert(k, Fill(l.ehead));
    Pop(capacity, l, t);
    HandOver(capacity, l, l', threads, t, pc, n);
    OwingSame(threads, con, l, l', t, pc);
    ListsStep(capacity, l, l', threads, con, slice, t, pc);
  }

  lemma OwingSame<K(!new)>(threads: seq<Pc<K>>, con: Con, l: Lists, l': Lists, t: nat, pc: Pc<K>)
    requires OwingOk(threads, con, l) && l'.owed == l.owed && t < |threads|
    requires forall y :: OwesBack(threads[t], y) <==> OwesBack(pc, y)
    ensures OwingOk(threads[t := pc], con, l')
  {
    hide OwesBack;
  }

  /** Writing the links of the node that the thread owns. */
  lemma WritesOwn<K(!new)>(capacity: nat, l: Lists, l': Lists, threads: seq<Pc<K>>, con: Con, slice: seq<int>, t: nat,
                           n: int, pc: Pc<K>)
    requires OnLists(capacity, l, threads, con, slice) && t < |threads|
    requires Holds(threads[t], n) && Holds(pc, n) && l' == l.(next := l'.next, prev := l'.prev)
    requires |l'.next| == |l'.prev| == |l.next|
    requires forall x :: x != n ==> At(l'.next, x) == At(l.next, x) && At(l'.prev, x) == At(l.prev, x)
    requires InserterList(capacity, l', pc)
    ensures OnLists(capacity, l', threads[t := pc], con, slice)
  {
    hide Main, Side, OwingOk, PurgeOk, PullOk, SpliceOk;
    assert PlaceAt(l, n) == Owned(t) && 0 <= n < capacity;
    assert forall x :: PlaceAt(l', x) == PlaceAt(l, x);
    ListsSize(capacity, l);
    forall x | 0 <= x < |l.next| && x != n ensures l'.next[x] == l.next[x] && l'.prev[x] == l.prev[x] {
      assert At(l'.next, x) == At(l.next, x) && At(l'.prev, x) == At(l.prev, x);
    }
    WriteLoose(capacity, l, l'.next, l'.prev, n);
    HandOver(capacity, l, l', threads, t, pc, n);
    OwingSame(threads, con, l, l', t, pc);
    ListsStep(capacity, l, l', threads, con, slice, t, pc);
  }

  lemma ListsSize(capacity: nat, l: Lists)
    requires ListsOk(capacity, l)
    ensures |l.next| == |l.prev| == capacity + 3 && |l.place| == capacity
  {
  }

  /** The compare-and-swap at the head of the list. */
  lemma PublishesNode<K(!new)>(capacity: nat, l: Lists, threads: seq<Pc<K>>, con: Con, slice: seq<int>, t: nat, k: K,
                               n: int, h: int)
    requires OnLists(capacity, l, threads, con, slice) && t < |threads| && threads[t] == Insert(k, CasHead(n, h))
    requires At(l.next, Head(capacity)) == h
    ensures OnLists(capacity, Published(capacity, l, n, h, t), threads[t := Insert(k, WriteBack(n, h))], con, slice)
    ensures PlaceAt(l, n) == Owned(t) && PlaceAt(Published(capacity, l, n, h, t), n) == Listed
    ensures var l' := Published(capacity, l, n, h, t);
      forall x {:trigger PlaceAt(l', x)} :: x != n ==> PlaceAt(l', x) == PlaceAt(l, x)
  {
    hide Main, Side, PurgeOk, PullOk, SpliceOk;
    var l', pc := Published(capacity, l, n, h, t), Insert(k, WriteBack(n, h));
    assert Holds(threads[t], n) && InserterList(capacity, l, threads[t]);
    ListsSize(capacity, l);
    HeadNext(capacity, l);
    FirstNotOwed(capacity, l);
    Publish(capacity, l, n, t);
    HandOver(capacity, l, l', threads, t, pc, n);
    OwingAdd(threads, con, l, l', t, pc, h);
    ListsStep(capacity, l, l', threads, con, slice, t, pc);
  }

  lemma FirstNotOwed(capacity: nat, l: Lists)
    requires ListsOk(capacity, l)
    ensures First(l.order, Tail(capacity)) !in l.owed
  {
  }

  lemma OwingAdd<K(!new)>(threads: seq<Pc<K>>, con: Con, l: Lists, l': Lists, t: nat, pc: Pc<K>, h: int)
    requires OwingOk(threads, con, l) && t < |threads| && h !in l.owed && l'.owed == l.owed[h := t]
    requires (forall y :: !OwesBack(threads[t], y)) && (forall y :: OwesBack(pc, y) <==> y == h)
    ensures OwingOk(threads[t := pc], con, l')
  {
    hide OwesBack, ConOwes;
  }

  lemma OwingDrop<K(!new)>(threads: seq<Pc<K>>, con: Con, l: Lists, l': Lists, t: nat, pc: Pc<K>, h: int)
    requires OwingOk(threads, con, l) && t < |threads| && l'.owed == l.owed - {h}
    requires (forall y :: OwesBack(threads[t], y) <==> y == h) && (forall y :: !OwesBack(pc, y))
    ensures OwingOk(threads[t := pc], con, l')
  {
    hide OwesBack, ConOwes;
    assert OwesBack(threads[t], h);
    assert !ConOwes(con, h);
  }

  /** The write of the back link that the thread owes. */
  lemma PaysBack<K(!new)>(capacity: nat, l: Lists, threads: seq<Pc<K>>, con: Con, slice: seq<int>, t: nat, k: K, n: int, h: int)
    requires OnLists(capacity, l, threads, con, slice) && t < |threads| && threads[t] == Insert(k, WriteBack(n, h))
    ensures OnLists(capacity, Settled(l, n, h), threads[t := Insert(k, Unmark(n))], con, slice)
    ensures PlaceAt(l, n) == Listed
  {
    hide Side, PurgeOk, PullOk, SpliceOk;
    var l', pc := Settled(l, n, h), Insert(k, Unmark(n));
    assert InserterList(capacity, l, threads[t]) && OwesBack(threads[t], h);
    Settle(capacity, l, n);
    KeepHold(capacity, threads, t, pc, l, l');
    OwingDrop(threads, con, l, l', t, pc, h);
    ListsStep(capacity, l, l', threads, con, slice, t, pc);
  }

  lemma KeepHold<K(!new)>(capacity: nat, threads: seq<Pc<K>>, t: nat, pc: Pc<K>, l: Lists, l': Lists)
    requires HoldOk(capacity, threads, l) && l'.place == l.place && t < |threads|
    requires forall x :: Holds(threads[t], x) <==> Holds(pc, x)
    ensures HoldOk(capacity, threads[t := pc], l')
  {
    hide Holds;
    assert forall x :: PlaceAt(l', x) == PlaceAt(l, x);
  }

  // ---------- steps on the recent links and on the table ----------

  /** The node a thread owns before it is filed is used by no one else. */
  lemma OwnedAlone<K, V>(c: Config<K, V>, s: State<K, V>, t: nat, n: int)
    requires Inv(c, s) && WellFormed(c, s) && t < |s.threads| && Holds(s.threads[t], n)
    ensures 0 <= n < c.capacity && PlaceAt(s.lists, n) == Owned(t) && RecentOk(c.capacity, s.recent)
    ensures forall u :: 0 <= u < |s.threads| && u != t ==> !Holds(s.threads[u], n)
    ensures Evicting(s.con) ==> s.con.node != n
    ensures n !in s.table.filed ==> forall u :: 0 <= u < |s.threads| ==> !Uses(s.threads[u], n)
  {
    hide ListsOk, OwingOk, InserterList, PullOk, SpliceOk, LockOk, TableOk, CountOk, InserterTable, ShieldOk,
         MarkingOk, HolderOk, Delivered, Holds, RecentOk;
    forall u | 0 <= u < |s.threads| && u != t ensures !Holds(s.threads[u], n) {
      assert PlaceAt(s.lists, n) == Owned(t);
    }
    forall u | 0 <= u < |s.threads| && n !in s.table.filed ensures !Uses(s.threads[u], n) {
      assert FinderTable(s.table, s.threads[u]);
    }
  }

  /** Marking the new node falsely. */
  lemma ShieldsNode<K(!new), V>(c: Config<K, V>, s: State<K, V>, t: nat, k: K, n: int)
    requires Inv(c, s) && WellFormed(c, s) && t < |s.threads| && s.threads[t] == Insert(k, Fill(n))
    ensures OnRecent(c.capacity, s.recent.(next := Put(s.recent.next, n, DUMMY), mark := Put(s.recent.mark, n, Shield(t))),
                     s.threads[t := Insert(k, File(n))])
  {
    hide OnLists, OnTable, CrossOk, HolderOk, Delivered, RecentOk;
    var pc, r' := Insert(k, File(n)), s.recent.(next := Put(s.recent.next, n, DUMMY), mark := Put(s.recent.mark, n, Shield(t)));
    var threads' := s.threads[t := pc];
    NotFiled(c, s, t, n);
    OwnedAlone(c, s, t, n);
    assert InserterMark(s.recent, s.threads[t]);
    WriteMark(c.capacity, s.recent, n, DUMMY, Shield(t));
    forall u | 0 <= u < |threads'| ensures FinderMark(r', threads'[u]) && InserterMark(r', threads'[u]) {
      if u != t {
        assert FinderMark(s.recent, s.threads[u]) && InserterMark(s.recent, s.threads[u]);
        assert !Uses(s.threads[u], n) && !Holds(s.threads[u], n);
      }
    }
    assert Shields(pc, n);
    ShieldAdd(c.capacity, s.threads, s.recent, r', t, pc, n);
    KeepMarking(c.capacity, s.threads, s.recent, r', t, pc, n);
  }

  lemma NotFiled<K, V>(c: Config<K, V>, s: State<K, V>, t: nat, n: int)
    requires Inv(c, s) && t < |s.threads| && Holds(s.threads[t], n) && (s.threads[t].i.Fill? || s.threads[t].i.File?)
    ensures n !in s.table.filed
  {
    hide OnLists, OnRecent, TableOk, LockOk, CountOk, CrossOk, HolderOk, Delivered;
    assert InserterTable(c, s.table, s.threads[t]);
  }

  lemma ShieldAdd<K(!new)>(capacity: nat, threads: seq<Pc<K>>, r: Recent, r': Recent, t: nat, pc: Pc<K>, n: int)
    requires ShieldOk(capacity, threads, r) && t < |threads| && 0 <= n < capacity
    requires forall x :: x != n ==> MarkAt(r', x) == MarkAt(r, x)
    requires MarkAt(r, n) == Clear && MarkAt(r', n) == Shield(t)
    requires (forall x :: !Shields(threads[t], x)) && (forall x :: Shields(pc, x) <==> x == n)
    ensures ShieldOk(capacity, threads[t := pc], r')
  {
    hide Shields;
    var threads' := threads[t := pc];
    forall u, x | 0 <= u < |threads'| && Shields(threads'[u], x) ensures 0 <= x < capacity && MarkAt(r', x) == Shield(u) {
      assert u != t ==> Shields(threads[u], x);
    }
    forall x | MarkAt(r', x).Shield? ensures 0 <= MarkAt(r', x).thread < |threads| && Shields(threads'[MarkAt(r', x).thread], x) {
      assert x != n ==> MarkAt(r, x).Shield?;
    }
  }

  lemma ShieldDrop<K(!new)>(capacity: nat, threads: seq<Pc<K>>, r: Recent, r': Recent, t: nat, pc: Pc<K>, n: int)
    requires ShieldOk(capacity, threads, r) && t < |threads| && 0 <= n < capacity
    requires forall x :: x != n ==> MarkAt(r', x) == MarkAt(r, x)
    requires MarkAt(r, n) == Shield(t) && MarkAt(r', n) == Clear
    requires (forall x :: Shields(threads[t], x) <==> x == n) && (forall x :: !Shields(pc, x))
    ensures ShieldOk(capacity, threads[t := pc], r')
  {
    hide Shields;
    var threads' := threads[t := pc];
    forall u, x | 0 <= u < |threads'| && Shields(threads'[u], x) ensures 0 <= x < capacity && MarkAt(r', x) == Shield(u) {
      assert Shields(threads[u], x);
    }
    forall x | MarkAt(r', x).Shield? ensures 0 <= MarkAt(r', x).thread < |threads| && Shields(threads'[MarkAt(r', x).thread], x) {
      assert MarkAt(r, x).Shield?;
    }
  }

  lemma KeepMarking<K(!new)>(capacity: nat, threads: seq<Pc<K>>, r: Recent, r': Recent, t: nat, pc: Pc<K>, n: int)
    requires MarkingOk(capacity, threads, r) && t < |threads|
    requires forall x :: x != n ==> MarkAt(r', x) == MarkAt(r, x)
    requires !MarkAt(r, n).Marking? && !MarkAt(r', n).Marking?
    requires forall x :: MarksNow(threads[t], x) <==> MarksNow(pc, x)
    ensures MarkingOk(capacity, threads[t := pc], r')
  {
    hide MarksNow;
    forall x | MarkAt(r', x).Marking? ensures MarkAt(r, x).Marking? && MarkAt(r', x) == MarkAt(r, x) { assert x != n; }
    forall x | MarkAt(r, x).Marking? ensures MarkAt(r', x) == MarkAt(r, x) { assert x != n; }
  }

  /** Writing key and value of the node. */
  lemma FillsNode<K(!new), V>(c: Config<K, V>, s: State<K, V>, t: nat, k: K, n: int)
    requires Inv(c, s) && WellFormed(c, s) && t < |s.threads| && s.threads[t] == Insert(k, Fill(n))
    ensures OnTable(c, Filled(c, s.table, n, k), s.count, s.threads[t := Insert(k, File(n))], s.con)
  {
    hide OnLists, OnRecent, CrossOk, HolderOk, Delivered, TableOk, LockOk;
    var pc, tb' := Insert(k, File(n)), Filled(c, s.table, n, k);
    var threads' := s.threads[t := pc];
    NotFiled(c, s, t, n);
    OwnedAlone(c, s, t, n);
    FillTable(c, s.table, n, k);
    forall u | 0 <= u < |threads'| ensures FinderTable(tb', threads'[u]) && InserterTable(c, tb', threads'[u]) {
      if u != t {
        assert FinderTable(s.table, s.threads[u]) && InserterTable(c, s.table, s.threads[u]);
        assert !Uses(s.threads[u], n) && !Holds(s.threads[u], n);
      }
    }
    KeepLock(c, s.threads, s.table.locks, t, pc);
    ReservedUpdate(s.threads, t, pc);
  }

  lemma KeepLock<K(!new), V>(c: Config<K, V>, threads: seq<Pc<K>>, locks: seq<int>, t: nat, pc: Pc<K>)
    requires LockOk(c, threads, locks) && t < |threads| && !HasStripe(threads[t]) && !HasStripe(pc)
    ensures LockOk(c, threads[t := pc], locks)
  {
  }

  lemma FilesNode<K(!new), V>(c: Config<K, V>, s: State<K, V>, t: nat, k: K, n: int)
    requires Inv(c, s) && WellFormed(c, s) && t < |s.threads| && s.threads[t] == Insert(k, File(n))
    ensures OnTable(c, Filed(c, s.table, n, k), s.count, s.threads[t := Insert(k, LoadHead(n))], s.con)
  {
    hide OnLists, OnRecent, CrossOk, HolderOk, Delivered, TableOk, LockOk;
    var pc, tb' := Insert(k, LoadHead(n)), Filed(c, s.table, n, k);
    var threads' := s.threads[t := pc];
    NotFiled(c, s, t, n);
    OwnedAlone(c, s, t, n);
    assert InserterTable(c, s.table, s.threads[t]);
    FileTable(c, s.table, n, k);
    forall u | 0 <= u < |threads'| ensures FinderTable(tb', threads'[u]) && InserterTable(c, tb', threads'[u]) {
      if u != t {
        assert FinderTable(s.table, s.threads[u]) && InserterTable(c, s.table, s.threads[u]);
        assert !Holds(s.threads[u], n);
      }
    }
    KeepLock(c, s.threads, s.table.locks, t, pc);
    ReservedUpdate(s.threads, t, pc);
  }

  /** The end of an insertion: the node may be marked from now on. */
  lemma UnshieldsNode<K(!new), V>(c: Config<K, V>, s: State<K, V>, t: nat, k: K, n: int)
    requires Inv(c, s) && WellFormed(c, s) && t < |s.threads| && s.threads[t] == Insert(k, Unmark(n))
    ensures MarkAt(s.recent, n) == Shield(t) && 0 <= n < c.capacity
    ensures var r' := s.recent.(next := Put(s.recent.next, n, NULL), mark := Put(s.recent.mark, n, Clear));
      OnRecent(c.capacity, r', s.threads[t := Idle])
  {
    hide OnLists, OnTable, CrossOk, HolderOk, Delivered, RecentOk;
    var r' := s.recent.(next := Put(s.recent.next, n, NULL), mark := Put(s.recent.mark, n, Clear));
    var threads' := s.threads[t := Idle];
    assert Shields(s.threads[t], n);
    WriteMark(c.capacity, s.recent, n, NULL, Clear);
    forall u | 0 <= u < |threads'| ensures FinderMark(r', threads'[u]) && InserterMark(r', threads'[u]) {
      if u != t {
        assert FinderMark(s.recent, s.threads[u]) && InserterMark(s.recent, s.threads[u]);
        assert MarksNow(s.threads[u], n) ==> MarkAt(s.recent, n) == Marking(u);
      }
    }
    ShieldDrop(c.capacity, s.threads, s.recent, r', t, Idle, n);
    KeepMarking(c.capacity, s.threads, s.recent, r', t, Idle, n);
  }

  // ---------- whole steps ----------

  lemma CrossPlace(l: Lists, l': Lists, filed: set<int>, r: Recent, con: Con, n: int)
    requires CrossOk(l, filed, r, con)
    requires forall x {:trigger PlaceAt(l', x)} :: x != n ==> PlaceAt(l', x) == PlaceAt(l, x)
    requires PlaceAt(l, n) == PlaceAt(l', n) || (PlaceAt(l, n) == Free && PlaceAt(l', n).Owned?)
             || (PlaceAt(l, n).Owned? && PlaceAt(l', n) == Listed && n in filed)
    ensures CrossOk(l', filed, r, con)
  {
  }

  lemma CrossMark(l: Lists, filed: set<int>, r: Recent, r': Recent, con: Con, n: int)
    requires CrossOk(l, filed, r, con)
    requires forall x {:trigger MarkAt(r', x)} :: x != n ==> MarkAt(r', x) == MarkAt(r, x)
    requires MarkAt(r', n) == Clear || (MarkAt(r', n).Shield? && PlaceAt(l, n).Owned? && (Evicting(con) ==> con.node != n))
    ensures CrossOk(l, filed, r', con)
  {
  }

  lemma CrossFiled(l: Lists, filed: set<int>, r: Recent, con: Con, n: int)
    requires CrossOk(l, filed, r, con) && PlaceAt(l, n).Owned? && (Evicting(con) ==> con.node != n)
    ensures CrossOk(l, filed + {n}, r, con)
  {
  }

  lemma CountsElement<K(!new), V>(c: Config<K, V>, s: State<K, V>, t: nat, k: K)
    requires Inv(c, s) && WellFormed(c, s) && t < |s.threads| && s.threads[t] == Insert(k, Reserve)
    ensures Inv(c, InsertStep(c, s, t, k, Reserve, false))
  {
    hide OnLists, OnRecent, CrossOk, HolderOk, Delivered, TableOk, LockOk, FinderTable, InserterTable;
    var pc := Insert(k, Allocate);
    KeepLists(c.capacity, s.lists, s.threads, s.con, s.recent.slice, t, pc);
    KeepRecent(c.capacity, s.recent, s.threads, t, pc);
    KeepHolder(s.lruLock, s.threads, s.con, t, pc);
    KeepLock(c, s.threads, s.table.locks, t, pc);
    ReservedUpdate(s.threads, t, pc);
    NewFits(c, s, pc);
  }

  lemma NewFits<K, V>(c: Config<K, V>, s: State<K, V>, pc: Pc<K>)
    requires pc.Insert? && (pc.i.Reserve? || pc.i.Allocate? || pc.i.RequestPurge?)
    ensures Fits(c, s, pc)
  {
  }

  lemma Allocates<K(!new), V>(c: Config<K, V>, s: State<K, V>, t: nat, k: K)
    requires Inv(c, s) && WellFormed(c, s) && t < |s.threads| && s.threads[t] == Insert(k, Allocate)
    requires s.lists.ehead != NULL
    ensures Inv(c, InsertStep(c, s, t, k, Allocate, false))
  {
    hide OnLists, OnRecent, OnTable, HolderOk, Delivered, CrossOk;
    var n, l := s.lists.ehead, s.lists;
    var pc := Insert(k, Fill(n));
    PopsNode(c.capacity, l, s.threads, s.con, s.recent.slice, t, k);
    FreeNode(c, s, n);
    CrossPlace(l, Popped(l, t), s.table.filed, s.recent, s.con, n);
    KeepRecent(c.capacity, s.recent, s.threads, t, pc);
    KeepTable(c, s.table, s.count, s.threads, s.con, t, pc);
    KeepHolder(s.lruLock, s.threads, s.con, t, pc);
  }

  lemma FreeNode<K, V>(c: Config<K, V>, s: State<K, V>, n: int)
    requires Inv(c, s) && PlaceAt(s.lists, n) == Free
    ensures n !in s.table.filed && MarkAt(s.recent, n) == Clear
  {
    hide OnLists, OnRecent, OnTable, HolderOk, Delivered;
  }

  lemma FillsAndShields<K(!new), V>(c: Config<K, V>, s: State<K, V>, t: nat, k: K, n: int)
    requires Inv(c, s) && WellFormed(c, s) && t < |s.threads| && s.threads[t] == Insert(k, Fill(n))
    ensures Inv(c, InsertStep(c, s, t, k, Fill(n), false))
  {
    hide OnLists, OnRecent, OnTable, HolderOk, Delivered, CrossOk, RecentOk, Filled;
    var pc := Insert(k, File(n));
    var r' := s.recent.(next := Put(s.recent.next, n, DUMMY), mark := Put(s.recent.mark, n, Shield(t)));
    OwnedAlone(c, s, t, n);
    ShieldsNode(c, s, t, k, n);
    FillsNode(c, s, t, k, n);
    CrossMark(s.lists, s.table.filed, s.recent, r', s.con, n);
    KeepLists(c.capacity, s.lists, s.threads, s.con, s.recent.slice, t, pc);
    KeepHolder(s.lruLock, s.threads, s.con, t, pc);
    assert Filled(c, s.table, n, k).filed == s.table.filed by { FilledKeeps(c, s.table, n, k); }
  }

  lemma FilledKeeps<K, V>(c: Config<K, V>, tb: Table<K, V>, n: int, k: K)
    ensures Filled(c, tb, n, k).filed == tb.filed
  {
  }

  lemma Files<K(!new), V>(c: Config<K, V>, s: State<K, V>, t: nat, k: K, n: int)
    requires Inv(c, s) && WellFormed(c, s) && t < |s.threads| && s.threads[t] == Insert(k, File(n))
    ensures Inv(c, InsertStep(c, s, t, k, File(n), false))
  {
    hide OnLists, OnRecent, OnTable, HolderOk, Delivered, CrossOk, RecentOk;
    if s.table.locks[StripeOf(c, k)] == NULL {
      var pc := Insert(k, LoadHead(n));
      OwnedAlone(c, s, t, n);
      FilesNode(c, s, t, k, n);
      CrossFiled(s.lists, s.table.filed, s.recent, s.con, n);
      KeepLists(c.capacity, s.lists, s.threads, s.con, s.recent.slice, t, pc);
      KeepRecent(c.capacity, s.recent, s.threads, t, pc);
      KeepHolder(s.lruLock, s.threads, s.con, t, pc);
    }
  }

  /** Writing `lru_prev` or `lru_next` of the own node. */
  lemma Writes<K(!new), V>(c: Config<K, V>, s: State<K, V>, t: nat, k: K, i: InsertPc)
    requires Inv(c, s) && WellFormed(c, s) && t < |s.threads| && s.threads[t] == Insert(k, i) && (i.LoadHead? || i.StoreNext?)
    ensures Inv(c, InsertStep(c, s, t, k, i, false))
  {
    hide OnLists, OnRecent, OnTable, HolderOk, Delivered, CrossOk, RecentOk;
    var s' := InsertStep(c, s, t, k, i, false);
    var pc, n := s'.threads[t], i.n;
    Knows(c, s, t);
    OwnedAlone(c, s, t, n);
    WritesOwn(c.capacity, s.lists, s'.lists, s.threads, s.con, s.recent.slice, t, n, pc);
    assert forall x :: PlaceAt(s'.lists, x) == PlaceAt(s.lists, x);
    CrossPlace(s.lists, s'.lists, s.table.filed, s.recent, s.con, n);
    KeepRecent(c.capacity, s.recent, s.threads, t, pc);
    KeepTable(c, s.table, s.count, s.threads, s.con, t, pc);
    KeepHolder(s.lruLock, s.threads, s.con, t, pc);
  }

  lemma Publishes<K(!new), V>(c: Config<K, V>, s: State<K, V>, t: nat, k: K, n: int, h: int)
    requires Inv(c, s) && WellFormed(c, s) && t < |s.threads| && s.threads[t] == Insert(k, CasHead(n, h))
    requires At(s.lists.next, Head(c.capacity)) == h
    ensures Inv(c, InsertStep(c, s, t, k, CasHead(n, h), false))
  {
    hide OnLists, OnRecent, OnTable, HolderOk, Delivered, CrossOk;
    var pc := Insert(k, WriteBack(n, h));
    Knows(c, s, t);
    PublishesNode(c.capacity, s.lists, s.threads, s.con, s.recent.slice, t, k, n, h);
    CrossPlace(s.lists, Published(c.capacity, s.lists, n, h, t), s.table.filed, s.recent, s.con, n);
    KeepRecent(c.capacity, s.recent, s.threads, t, pc);
    KeepTable(c, s.table, s.count, s.threads, s.con, t, pc);
    KeepHolder(s.lruLock, s.threads, s.con, t, pc);
  }

  lemma WritesBack<K(!new), V>(c: Config<K, V>, s: State<K, V>, t: nat, k: K, n: int, h: int)
    requires Inv(c, s) && WellFormed(c, s) && t < |s.threads| && s.threads[t] == Insert(k, WriteBack(n, h))
    ensures Inv(c, InsertStep(c, s, t, k, WriteBack(n, h), false))
  {
    hide OnLists, OnRecent, OnTable, HolderOk, Delivered, CrossOk;
    var pc := Insert(k, Unmark(n));
    PaysBack(c.capacity, s.lists, s.threads, s.con, s.recent.slice, t, k, n, h);
    assert forall x :: PlaceAt(Settled(s.lists, n, h), x) == PlaceAt(s.lists, x);
    CrossPlace(s.lists, Settled(s.lists, n, h), s.table.filed, s.recent, s.con, n);
    KeepRecent(c.capacity, s.recent, s.threads, t, pc);
    KeepTable(c, s.table, s.count, s.threads, s.con, t, pc);
    KeepHolder(s.lruLock, s.threads, s.con, t, pc);
  }

  lemma Unmarks<K(!new), V>(c: Config<K, V>, s: State<K, V>, t: nat, k: K, n: int)
    requires Inv(c, s) && WellFormed(c, s) && t < |s.threads| && s.threads[t] == Insert(k, Unmark(n))
    ensures Inv(c, InsertStep(c, s, t, k, Unmark(n), false))
  {
    hide OnLists, OnRecent, OnTable, HolderOk, Delivered, CrossOk;
    var r' := s.recent.(next := Put(s.recent.next, n, NULL), mark := Put(s.recent.mark, n, Clear));
    UnshieldsNode(c, s, t, k, n);
    CrossMark(s.lists, s.table.filed, s.recent, r', s.con, n);
    KeepLists(c.capacity, s.lists, s.threads, s.con, s.recent.slice, t, Idle);
    KeepTable(c, s.table, s.count, s.threads, s.con, t, Idle);
    KeepHolder(s.lruLock, s.threads, s.con, t, Idle);
  }

  lemma InsertKeeps<K(!new), V>(c: Config<K, V>, s: State<K, V>, t: nat, fails: bool)
    requires Inv(c, s) && WellFormed(c, s) && t < |s.threads| && s.threads[t].Insert?
    ensures Inv(c, InsertStep(c, s, t, s.threads[t].k, s.threads[t].i, fails))
  {
    hide Inv, Delivered;
    Knows(c, s, t);
    Log(c, s);
    var k, i := s.threads[t].k, s.threads[t].i;
    var pc := InsertStep(c, s, t, k, i, fails).threads[t];
    match i
    case Reserve => CountsElement(c, s, t, k);
    case Allocate =>
      if s.lists.ehead == NULL { ThreadOnly(c, s, t, pc, s.log, s.pullRequest, s.purgeRequest); } else { Allocates(c, s, t, k); }
    case RequestPurge => ThreadOnly(c, s, t, pc, s.log, s.pullRequest, true);
    case Fill(n) => FillsAndShields(c, s, t, k, n);
    case File(n) => Files(c, s, t, k, n);
    case LoadHead(n) => Writes(c, s, t, k, i);
    case StoreNext(n, h) => Writes(c, s, t, k, i);
    case CasHead(n, h) =>
      if fails || At(s.lists.next, Head(c.capacity)) != h {
        ThreadOnly(c, s, t, pc, s.log, s.pullRequest, s.purgeRequest);
      } else {
        Publishes(c, s, t, k, n, h);
      }
    case WriteBack(n, h) => WritesBack(c, s, t, k, n, h);
    case Unmark(n) => Unmarks(c, s, t, k, n);
  }
}
