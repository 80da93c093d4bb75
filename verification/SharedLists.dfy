/** The LRU list, the local list of a pull and the pool in shared memory, while several threads are changing them:
    the effect of every single write, with back links still to be written. */
module SharedLists {
  import opened Links
  import opened Sequences

  /** Whose turn it is to change a node: it is in one of the lists, a thread owns it, or the consolidator took it. */
  datatype Place = Free | Listed | Local | Owned(thread: int) | Taken

  /** Who owes a back link if it is not an inserting thread: the consolidator, after its splice at the head, or between
      the two writes that unlink a node. */
  const SPLICER := -1
  const UNLINKER := -2

  /** The cells `next`, `prev` and `ehead` are shared memory; what they mean is `order` (the LRU list), `temp` (the
      local list of a pull), `pool`, the place of every node and who still owes the back link of a cell. */
  datatype Lists = Lists(next: seq<int>, prev: seq<int>, ehead: int, order: seq<int>, temp: seq<int>, pool: seq<int>,
                         place: seq<Place>, owed: map<int, int>)

  /** Cells are the nodes 0..capacity-1 and three sentinels. */
  function Head(capacity: nat): int { capacity }

  function Tail(capacity: nat): int { capacity + 1 }

  /** The head of the local list of a pull. */
  function LocalHead(capacity: nat): int { capacity + 2 }

  function Path(capacity: nat, order: seq<int>): seq<int> {
    [Head(capacity)] + order + [Tail(capacity)]
  }

  ghost predicate Placed(capacity: nat, l: Lists) {
    && |l.place| == capacity
    && InRange(l.order, capacity) && InRange(l.temp, capacity) && InRange(l.pool, capacity)
    && (forall x :: 0 <= x < capacity ==> (x in l.order <==> l.place[x] == Listed))
    && (forall x :: 0 <= x < capacity ==> (x in l.temp <==> l.place[x] == Local))
    && (forall x :: 0 <= x < capacity ==> (x in l.pool <==> l.place[x] == Free))
  }

  /** The forward chain from head to tail is a simple path, and every back link is right except the owed ones. The
      first node is never owed its back link. */
  ghost predicate Main(capacity: nat, l: Lists) {
    && |l.next| == capacity + 3
    && Doubly(l.next, l.prev, Path(capacity, l.order), l.owed.Keys)
    && First(l.order, Tail(capacity)) !in l.owed
    && (forall y :: y in l.owed ==> y in l.order || y == Tail(capacity))
    && (forall y :: y in l.owed && l.owed[y] != UNLINKER ==> At(l.prev, y) == Head(capacity))
  }

  ghost predicate Side(capacity: nat, l: Lists) {
    && Doubly(l.next, l.prev, l.temp, {})
    && (l.temp != [] ==> At(l.next, LocalHead(capacity)) == l.temp[0])
    && Chain(l.next, l.pool, NULL) && Distinct(l.pool) && l.ehead == First(l.pool, NULL)
  }

  ghost predicate ListsOk(capacity: nat, l: Lists) {
    Placed(capacity, l) && Main(capacity, l) && Side(capacity, l)
  }

  // ---------- reading ----------

  lemma PathIndex(capacity: nat, l: Lists, x: int) returns (i: nat)
    requires ListsOk(capacity, l) && x in l.order
    ensures 0 < i < |Path(capacity, l.order)| - 1 && Path(capacity, l.order)[i] == x
    ensures 0 <= x < capacity && l.next[x] == Path(capacity, l.order)[i + 1]
    ensures x !in l.owed ==> l.prev[x] == Path(capacity, l.order)[i - 1]
  {
    var j := IndexOf(l.order, x);
    i := j + 1;
    var path := Path(capacity, l.order);
    assert path[i] == x && path[i - 1 + 1] == x;
  }

  /** What follows the head, and that its back link is in place. */
  lemma HeadNext(capacity: nat, l: Lists)
    requires ListsOk(capacity, l)
    ensures At(l.next, Head(capacity)) == First(l.order, Tail(capacity))
    ensures At(l.prev, First(l.order, Tail(capacity))) == Head(capacity)
  {
    var path := Path(capacity, l.order);
    assert l.next[path[0]] == path[0 + 1] && l.prev[path[0 + 1]] == path[0];
  }

  /** Different nodes have different successors. */
  lemma NextInjective(capacity: nat, l: Lists, a: int, b: int)
    requires ListsOk(capacity, l) && a in l.order && b in l.order && At(l.next, a) == At(l.next, b)
    ensures a == b
  {
    var i := PathIndex(capacity, l, a);
    var j := PathIndex(capacity, l, b);
  }

  /** A node of the list that does not have the head behind it: both neighbours are true neighbours. */
  lemma Neighbours(capacity: nat, l: Lists, x: int)
    requires ListsOk(capacity, l) && x in l.order && x !in l.owed && At(l.prev, x) != Head(capacity)
    ensures At(l.prev, x) in l.order && At(l.prev, x) != x && At(l.next, At(l.prev, x)) == x
    ensures At(l.next, x) in l.order || At(l.next, x) == Tail(capacity)
    ensures At(l.next, x) != x && At(l.next, x) != At(l.prev, x) && At(l.next, x) != First(l.order, Tail(capacity))
  {
    var i := PathIndex(capacity, l, x);
    var path := Path(capacity, l.order);
    assert path[i - 1] == l.order[i - 2] && l.next[path[i - 1]] == path[i - 1 + 1];
    assert path[i + 1] in l.order || i + 1 == |path| - 1 by {
      assert i + 1 < |path| - 1 ==> path[i + 1] == l.order[i];
    }
    assert path[1] == First(l.order, Tail(capacity));
  }

  /** The tail's back link names the last node, or still the head. */
  lemma TailPrev(capacity: nat, l: Lists)
    requires ListsOk(capacity, l) && (Tail(capacity) in l.owed ==> l.owed[Tail(capacity)] != UNLINKER)
    ensures At(l.prev, Tail(capacity)) == Head(capacity) || At(l.prev, Tail(capacity)) in l.order
  {
    var path := Path(capacity, l.order);
    var i := |path| - 2;
    assert path[i + 1] == Tail(capacity);
    if Tail(capacity) !in l.owed {
      assert l.prev[path[i + 1]] == path[i];
      assert l.order != [] ==> path[i] == l.order[|l.order| - 1];
    }
  }

  // ---------- private writes ----------

  /** Writing the links of a cell that is on none of the lists. */
  lemma WriteLoose(capacity: nat, l: Lists, next: seq<int>, prev: seq<int>, n: int)
    requires ListsOk(capacity, l) && 0 <= n < capacity && (l.place[n].Owned? || l.place[n].Taken?)
    requires |next| == |prev| == |l.next|
    requires forall x :: 0 <= x < |next| && x != n ==> next[x] == l.next[x] && prev[x] == l.prev[x]
    ensures ListsOk(capacity, l.(next := next, prev := prev))
  {
    assert n !in Path(capacity, l.order) && n !in l.temp && n !in l.pool;
    DoublyFrame(l.next, l.prev, next, prev, Path(capacity, l.order), l.owed.Keys);
    DoublyFrame(l.next, l.prev, next, prev, l.temp, {});
    ChainFrame(l.next, next, l.pool, NULL);
    assert l.temp != [] ==> l.temp[0] in l.temp;
  }

  // ---------- the pool ----------

  function Popped(l: Lists, t: int): Lists {
    l.(ehead := At(l.next, l.ehead), pool := if l.pool == [] then [] else l.pool[1..],
       place := Put(l.place, l.ehead, Owned(t)))
  }

  /** Popping the first node of the pool. */
  lemma Pop(capacity: nat, l: Lists, t: int)
    requires ListsOk(capacity, l) && l.pool != []
    ensures l.ehead == l.pool[0] && 0 <= l.ehead < capacity && l.place[l.ehead] == Free
    ensures ListsOk(capacity, Popped(l, t))
  {
    ChainTail(l.next, l.pool, NULL);
    assert l.pool[0] in l.pool;
    var rest := l.pool[1..];
    assert l.pool == [l.pool[0]] + rest;
    assert l.pool[0] !in rest;
  }

  function Pushed(l: Lists, n: int): Lists {
    l.(ehead := n, pool := [n] + l.pool, place := Put(l.place, n, Free))
  }

  /** Pushing a node that the consolidator took, its link being ready. */
  lemma Push(capacity: nat, l: Lists, n: int)
    requires ListsOk(capacity, l) && 0 <= n < capacity && l.place[n] == Taken && l.next[n] == l.ehead
    ensures ListsOk(capacity, Pushed(l, n))
  {
    PushChain(l.next, l.pool, NULL, n);
    assert forall x :: x in [n] + l.pool <==> x == n || x in l.pool;
  }

  // ---------- the LRU list ----------

  function Published(capacity: nat, l: Lists, n: int, h: int, t: int): Lists {
    l.(next := Put(l.next, Head(capacity), n), order := [n] + l.order, place := Put(l.place, n, Listed), owed := l.owed[h := t])
  }

  /** The compare-and-swap that makes a node the first one: the old first cell is owed its back link from now on. */
  lemma Publish(capacity: nat, l: Lists, n: int, t: int)
    requires ListsOk(capacity, l) && 0 <= n < capacity && l.place[n].Owned? && t >= 0
    requires l.next[n] == At(l.next, Head(capacity)) && l.prev[n] == Head(capacity)
    ensures ListsOk(capacity, Published(capacity, l, n, l.next[n], t))
  {
    var path, h := Path(capacity, l.order), First(l.order, Tail(capacity));
    HeadNext(capacity, l);
    assert n !in path && path[1] == h;
    PushSecond(l.next, l.prev, path, l.owed.Keys, n);
    var l' := Published(capacity, l, n, h, t);
    assert [path[0], n] + path[1..] == Path(capacity, l'.order);
    assert l'.owed.Keys == l.owed.Keys + {h};
    assert Head(capacity) !in l.pool && Head(capacity) !in l.temp;
    ChainFrame(l.next, l'.next, l.pool, NULL);
    DoublyFrame(l.next, l.prev, l'.next, l'.prev, l.temp, {});
    assert h in l.order || h == Tail(capacity) by { if l.order != [] { assert l.order[0] in l.order; } }
  }

  function Settled(l: Lists, n: int, y: int): Lists {
    l.(prev := Put(l.prev, y, n), owed := l.owed - {y})
  }

  /** Writing the back link of the cell behind `n`. */
  lemma Settle(capacity: nat, l: Lists, n: int)
    requires ListsOk(capacity, l) && n in l.order && At(l.next, n) in l.owed
    ensures ListsOk(capacity, Settled(l, n, At(l.next, n)))
  {
    var path, y := Path(capacity, l.order), At(l.next, n);
    var i := PathIndex(capacity, l, n);
    BackLink(l.next, l.prev, path, l.owed.Keys, i);
    var l' := Settled(l, n, y);
    assert l'.owed.Keys == l.owed.Keys - {y};
    assert y in path && y !in l.temp by {
      assert path[i + 1] == y;
    }
    DoublyFrame(l.next, l.prev, l'.next, l'.prev, l.temp, {});
  }

  function Bypassed(l: Lists, x: int, p: int, y: int): Lists {
    l.(next := Put(l.next, p, y), order := Without(l.order, {x}), place := Put(l.place, x, Taken),
       owed := l.owed[y := UNLINKER])
  }

  lemma OrderDistinct(capacity: nat, l: Lists)
    requires ListsOk(capacity, l)
    ensures Distinct(l.order) && InRange(l.order, capacity)
  {
    var path := Path(capacity, l.order);
    forall a, b | 0 <= a < b < |l.order| ensures l.order[a] != l.order[b] {
      assert l.order[a] == path[a + 1] && l.order[b] == path[b + 1];
    }
  }

  lemma BypassOrder(capacity: nat, order: seq<int>, x: int, i: nat)
    requires Distinct(order) && InRange(order, capacity) && 1 < i < |Path(capacity, order)| - 1
    requires Path(capacity, order)[i] == x
    ensures var rest := Without(order, {x});
      && Drop(Path(capacity, order), i) == Path(capacity, rest) && InRange(rest, capacity)
      && First(rest, Tail(capacity)) == First(order, Tail(capacity))
    ensures forall z :: z in Without(order, {x}) <==> z in order && z != x
  {
    assert order[i - 1] == x;
    WithoutIsDrop(order, i - 1);
    WithoutMembers(order, {x});
    DropPath(capacity, order, i - 1);
  }

  lemma DropPath(capacity: nat, order: seq<int>, k: nat)
    requires k < |order|
    ensures Drop(Path(capacity, order), k + 1) == Path(capacity, Drop(order, k))
  {
    var path := Path(capacity, order);
    assert path[..k + 1] == [Head(capacity)] + order[..k];
    assert path[k + 2..] == order[k + 1..] + [Tail(capacity)];
  }

  /** The first of the two writes that take a node out of the list. */
  lemma Bypass(capacity: nat, l: Lists, x: int)
    requires ListsOk(capacity, l) && x in l.order && x !in l.owed && At(l.prev, x) != Head(capacity)
    requires At(l.next, x) !in l.owed
    ensures var p, y := At(l.prev, x), At(l.next, x);
      ListsOk(capacity, Bypassed(l, x, p, y)) && p in Bypassed(l, x, p, y).order && At(Bypassed(l, x, p, y).next, p) == y
  {
    hide Path, First, Doubly, Distinct, Chain;
    var path, p, y := Path(capacity, l.order), At(l.prev, x), At(l.next, x);
    Neighbours(capacity, l, x);
    var i := BeforeAndBehind(capacity, l, x);
    UnlinkForward(l.next, l.prev, path, l.owed.Keys, i);
    OrderDistinct(capacity, l);
    BypassOrder(capacity, l.order, x, i);
    var l' := Bypassed(l, x, p, y);
    assert l'.owed.Keys == l.owed.Keys + {y};
    SideFrame(capacity, l, l');
  }

  lemma BeforeAndBehind(capacity: nat, l: Lists, x: int) returns (i: nat)
    requires ListsOk(capacity, l) && x in l.order && x !in l.owed && At(l.prev, x) != Head(capacity)
    ensures 1 < i < |Path(capacity, l.order)| - 1 && Path(capacity, l.order)[i] == x && 0 <= x < capacity
    ensures Path(capacity, l.order)[i - 1] == At(l.prev, x) && Path(capacity, l.order)[i + 1] == At(l.next, x)
    ensures 0 <= At(l.prev, x) < |l.next| && |l.next| == |l.prev|
  {
    i := PathIndex(capacity, l, x);
    HeadNext(capacity, l);
    assert Path(capacity, l.order)[1] == First(l.order, Tail(capacity));
  }

  /** Writes to nodes of the list do not touch the local list and the pool. */
  lemma SideFrame(capacity: nat, l: Lists, l': Lists)
    requires ListsOk(capacity, l) && l'.temp == l.temp && l'.pool == l.pool && l'.ehead == l.ehead
    requires |l'.next| == |l'.prev| == |l.next|
    requires forall x :: 0 <= x < |l.next| && x !in l.order && x < capacity ==> l'.next[x] == l.next[x] && l'.prev[x] == l.prev[x]
    requires At(l'.next, LocalHead(capacity)) == At(l.next, LocalHead(capacity))
    ensures Side(capacity, l')
  {
    DoublyFrame(l.next, l.prev, l'.next, l'.prev, l.temp, {});
    ChainFrame(l.next, l'.next, l.pool, NULL);
  }

  // ---------- the local list ----------

  /** The last cell of the local list. */
  function LocalEnd(capacity: nat, l: Lists): int {
    if l.temp == [] then LocalHead(capacity) else l.temp[|l.temp| - 1]
  }

  function Appended(l: Lists, x: int, last: int): Lists {
    l.(next := Put(l.next, last, x), prev := Put(l.prev, x, last), temp := l.temp + [x], place := Put(l.place, x, Local))
  }

  /** Linking a taken node behind the local list. */
  lemma Append(capacity: nat, l: Lists, x: int)
    requires ListsOk(capacity, l) && 0 <= x < capacity && l.place[x] == Taken
    ensures ListsOk(capacity, Appended(l, x, LocalEnd(capacity, l)))
  {
    hide Main, Side, Placed;
    AppendPlaced(capacity, l, x);
    AppendMain(capacity, l, x);
    AppendSide(capacity, l, x);
  }

  lemma AppendMain(capacity: nat, l: Lists, x: int)
    requires ListsOk(capacity, l) && 0 <= x < capacity && l.place[x] == Taken
    ensures Main(capacity, Appended(l, x, LocalEnd(capacity, l)))
  {
    var l' := Appended(l, x, LocalEnd(capacity, l));
    var last := LocalEnd(capacity, l);
    assert l.temp != [] ==> last in l.temp;
    assert last !in Path(capacity, l.order) && x !in Path(capacity, l.order);
    DoublyFrame(l.next, l.prev, l'.next, l'.prev, Path(capacity, l.order), l.owed.Keys);
  }

  lemma AppendSide(capacity: nat, l: Lists, x: int)
    requires ListsOk(capacity, l) && 0 <= x < capacity && l.place[x] == Taken
    ensures Side(capacity, Appended(l, x, LocalEnd(capacity, l)))
  {
    var l' := Appended(l, x, LocalEnd(capacity, l));
    var last := LocalEnd(capacity, l);
    assert l.temp != [] ==> last in l.temp;
    ChainFrame(l.next, l'.next, l.pool, NULL);
    if l.temp != [] { AppendLink(l.next, l.prev, l.temp, x); }
  }

  lemma AppendPlaced(capacity: nat, l: Lists, x: int)
    requires Placed(capacity, l) && 0 <= x < capacity && l.place[x] == Taken
    ensures Placed(capacity, Appended(l, x, LocalEnd(capacity, l)))
  {
    assert forall z :: z in l.temp + [x] <==> z in l.temp || z == x;
  }

  function Replaced(place: seq<Place>, nodes: seq<int>): seq<Place> {
    seq(|place|, x requires 0 <= x < |place| => if x in nodes then Listed else place[x])
  }

  function Spliced(capacity: nat, l: Lists, first: int, h: int): Lists {
    l.(next := Put(l.next, Head(capacity), first), order := l.temp + l.order, temp := [],
       place := Replaced(l.place, l.temp), owed := l.owed[h := SPLICER])
  }

  /** Linking the end of the local list to what follows the head. */
  lemma LinkEnd(capacity: nat, l: Lists, h: int)
    requires ListsOk(capacity, l) && l.temp != []
    ensures ListsOk(capacity, l.(next := Put(l.next, l.temp[|l.temp| - 1], h)))
    ensures At(Put(l.next, l.temp[|l.temp| - 1], h), l.temp[|l.temp| - 1]) == h
  {
    var last := l.temp[|l.temp| - 1];
    var next' := Put(l.next, last, h);
    assert last in l.temp && last !in Path(capacity, l.order) && last !in l.pool;
    DoublyFrame(l.next, l.prev, next', l.prev, Path(capacity, l.order), l.owed.Keys);
    ChainFrame(l.next, next', l.pool, NULL);
  }

  /** Linking the front of the local list to the head. */
  lemma LinkFront(capacity: nat, l: Lists)
    requires ListsOk(capacity, l) && l.temp != []
    ensures ListsOk(capacity, l.(prev := Put(l.prev, l.temp[0], Head(capacity))))
    ensures At(Put(l.prev, l.temp[0], Head(capacity)), l.temp[0]) == Head(capacity)
  {
    var prev' := Put(l.prev, l.temp[0], Head(capacity));
    assert l.temp[0] in l.temp && l.temp[0] !in Path(capacity, l.order);
    DoublyFrame(l.next, l.prev, l.next, prev', Path(capacity, l.order), l.owed.Keys);
    forall i | 0 <= i < |l.temp| - 1 ensures prev'[l.temp[i + 1]] == l.temp[i] { assert l.temp[i + 1] != l.temp[0]; }
  }

  /** The compare-and-swap that puts the whole local list in front. */
  lemma Splice(capacity: nat, l: Lists)
    requires ListsOk(capacity, l) && l.temp != []
    requires At(l.next, l.temp[|l.temp| - 1]) == At(l.next, Head(capacity)) && At(l.prev, l.temp[0]) == Head(capacity)
    ensures ListsOk(capacity, Spliced(capacity, l, l.temp[0], At(l.next, Head(capacity))))
  {
    var path, h := Path(capacity, l.order), First(l.order, Tail(capacity));
    HeadNext(capacity, l);
    assert path[1] == h;
    forall x | x in l.temp ensures x !in path && x !in l.owed.Keys {
      assert x !in l.order;
    }
    SpliceSecond(l.next, l.prev, path, l.owed.Keys, l.temp);
    var l' := Spliced(capacity, l, l.temp[0], h);
    assert [path[0]] + l.temp + path[1..] == Path(capacity, l'.order);
    assert l'.owed.Keys == l.owed.Keys + {h};
    assert Head(capacity) !in l.pool;
    ChainFrame(l.next, l'.next, l.pool, NULL);
    assert h in l.order || h == Tail(capacity) by { if l.order != [] { assert l.order[0] in l.order; } }
    assert l'.order[0] in l.temp;
  }
}
