/** The index-based exact LRU cache: a recency list, a free list and doubly linked buckets over one array of elements. */
module LruCache {
  import opened Links
  import opened Sequences
  import opened Entries
  import opened Labels
  import ExactLru

  function Last(path: seq<int>, front: int): int {
    if path == [] then front else path[|path| - 1]
  }

  /** What the first node of bucket b has behind it. */
  function HeadMark(b: int): int {
    -b - 1
  }

  /** A doubly linked list without sentinels: the first node has `front` behind it, the last one NULL before it. */
  ghost predicate DList(next: seq<int>, prev: seq<int>, path: seq<int>, front: int) {
    && Doubly(next, prev, path, {})
    && (path != [] ==> prev[path[0]] == front && next[path[|path| - 1]] == NULL)
  }

  lemma DListFrame(next: seq<int>, prev: seq<int>, next': seq<int>, prev': seq<int>, path: seq<int>, front: int)
    requires DList(next, prev, path, front) && |next'| == |prev'| == |next|
    requires forall x :: x in path ==> next'[x] == next[x] && prev'[x] == prev[x]
    ensures DList(next', prev', path, front)
  {
    DoublyFrame(next, prev, next', prev', path, {});
  }

  /** The two writes that take the node at `j` out of a list. */
  lemma RemoveAt(next: seq<int>, prev: seq<int>, path: seq<int>, front: int, j: nat)
    requires DList(next, prev, path, front) && j < |path|
    ensures next[path[j]] == After(path, j, NULL) && prev[path[j]] == if j == 0 then front else path[j - 1]
    ensures DList(if j > 0 then next[path[j - 1] := next[path[j]]] else next,
                  if j + 1 < |path| then prev[path[j + 1] := prev[path[j]]] else prev, Drop(path, j), front)
  {
    var x := path[j];
    var next' := if j > 0 then next[path[j - 1] := next[x]] else next;
    var prev' := if j + 1 < |path| then prev[path[j + 1] := prev[x]] else prev;
    var r := Drop(path, j);
    DropKeeps(path, j);
    assert j > 0 ==> prev[path[j - 1 + 1]] == path[j - 1];
    assert j + 1 < |path| ==> next[path[j]] == path[j + 1];
    forall i | 0 <= i < |r| - 1 ensures next'[r[i]] == r[i + 1] && prev'[r[i + 1]] == r[i] {
      RemovedLink(next, prev, path, front, j, i);
    }
  }

  lemma RemovedLink(next: seq<int>, prev: seq<int>, path: seq<int>, front: int, j: nat, i: nat)
    requires DList(next, prev, path, front) && j < |path| && i + 2 < |path|
    ensures var r := Drop(path, j);
      && (if j > 0 then next[path[j - 1] := next[path[j]]] else next)[r[i]] == r[i + 1]
      && (if j + 1 < |path| then prev[path[j + 1] := prev[path[j]]] else prev)[r[i + 1]] == r[i]
  {
    var a := if i < j then i else i + 1;
    assert next[path[i]] == path[i + 1] && next[path[i + 1]] == path[i + 2];
    assert prev[path[i + 1]] == path[i] && prev[path[i + 1 + 1]] == path[i + 1];
    assert Drop(path, j)[i] == path[a];
  }

  /** Publishing a node with ready links at the front. */
  lemma PushFront(next: seq<int>, prev: seq<int>, path: seq<int>, front: int, n: int)
    requires DList(next, prev, path, front) && 0 <= n < |next| && n !in path
    requires next[n] == First(path, NULL) && prev[n] == front
    ensures DList(next, if path != [] then prev[path[0] := n] else prev, [n] + path, front)
  {
    var prev' := if path != [] then prev[path[0] := n] else prev;
    var r := [n] + path;
    forall i | 0 <= i < |r| - 1 ensures next[r[i]] == r[i + 1] && prev'[r[i + 1]] == r[i] {
      if i > 0 { assert next[path[i - 1]] == path[i] && prev[path[i - 1 + 1]] == path[i - 1]; }
    }
  }

  /** Publishing a node with ready links at the end. */
  lemma Append(next: seq<int>, prev: seq<int>, path: seq<int>, front: int, n: int)
    requires DList(next, prev, path, front) && 0 <= n < |next| && n !in path
    requires next[n] == NULL && prev[n] == Last(path, front)
    ensures DList(if path != [] then next[path[|path| - 1] := n] else next, prev, path + [n], front)
  {
    var next' := if path != [] then next[path[|path| - 1] := n] else next;
    var r := path + [n];
    forall i | 0 <= i < |r| - 1 ensures next'[r[i]] == r[i + 1] && prev[r[i + 1]] == r[i] {
      if i + 1 < |path| { assert next[path[i]] == path[i + 1] && prev[path[i + 1]] == path[i]; }
    }
  }

  /** Buckets are doubly linked; the node at the head of bucket b has -b-1 behind it. */
  ghost predicate Buckets(next: seq<int>, prev: seq<int>, heads: seq<int>, chains: seq<seq<int>>) {
    && |chains| == |heads| && |next| == |prev|
    && (forall b :: 0 <= b < |chains| ==> DList(next, prev, chains[b], HeadMark(b)) && heads[b] == First(chains[b], NULL))
    && (forall b, c :: 0 <= b < |chains| && 0 <= c < |chains| && b != c ==> Apart(chains[b], chains[c]))
  }

  lemma PushBucket(next: seq<int>, prev: seq<int>, heads: seq<int>, chains: seq<seq<int>>, b: nat, n: int)
    requires Buckets(next, prev, heads, chains) && b < |chains| && 0 <= n < |next|
    requires forall c :: 0 <= c < |chains| ==> n !in chains[c]
    ensures var prev1 := if heads[b] != NULL then prev[heads[b] := n] else prev;
      Buckets(next[n := heads[b]], prev1[n := HeadMark(b)], heads[b := n], chains[b := [n] + chains[b]])
  {
    var chain := chains[b];
    assert DList(next, prev, chain, HeadMark(b));
    var prev1 := if heads[b] != NULL then prev[heads[b] := n] else prev;
    var next', prev' := next[n := heads[b]], prev1[n := HeadMark(b)];
    forall c | 0 <= c < |chains| && c != b ensures DList(next', prev', chains[c], HeadMark(c)) {
      if chain != [] { assert chain[0] in chain && Apart(chain, chains[c]); }
      DListFrame(next, prev, next', prev', chains[c], HeadMark(c));
    }
    DListFrame(next, prev, next', prev[n := HeadMark(b)], chain, HeadMark(b));
    PushFront(next', prev[n := HeadMark(b)], chain, HeadMark(b), n);
    assert chain != [] ==> prev' == prev[n := HeadMark(b)][chain[0] := n];
  }

  lemma CutBucket(next: seq<int>, prev: seq<int>, heads: seq<int>, chains: seq<seq<int>>, b: nat, j: nat)
    requires Buckets(next, prev, heads, chains) && b < |chains| && j < |chains[b]|
    ensures var chain := chains[b];
      && next[chain[j]] == After(chain, j, NULL) && prev[chain[j]] == (if j == 0 then HeadMark(b) else chain[j - 1])
      && Buckets(if j > 0 then next[chain[j - 1] := next[chain[j]]] else next,
                 if j + 1 < |chain| then prev[chain[j + 1] := prev[chain[j]]] else prev,
                 if j == 0 then heads[b := next[chain[0]]] else heads, chains[b := Drop(chain, j)])
  {
    hide Distinct, Doubly;
    var chain := chains[b];
    ChainDistinct(next, prev, chain, HeadMark(b));
    var next' := if j > 0 then next[chain[j - 1] := next[chain[j]]] else next;
    var prev' := if j + 1 < |chain| then prev[chain[j + 1] := prev[chain[j]]] else prev;
    RemoveAt(next, prev, chain, HeadMark(b), j);
    forall c | 0 <= c < |chains| && c != b ensures DList(next', prev', chains[c], HeadMark(c)) {
      CutElsewhere(next, prev, chain, chains[c], HeadMark(c), j);
    }
    ApartAfterDrop(chains, b, j);
    assert j > 0 ==> Drop(chain, j)[0] == chain[0];
  }

  lemma ChainDistinct(next: seq<int>, prev: seq<int>, chain: seq<int>, front: int)
    requires DList(next, prev, chain, front)
    ensures Distinct(chain) && InRange(chain, |next|) && |next| == |prev|
  {
  }

  lemma CutElsewhere(next: seq<int>, prev: seq<int>, chain: seq<int>, other: seq<int>, front: int, j: nat)
    requires DList(next, prev, other, front) && Apart(chain, other) && j < |chain|
    requires InRange(chain, |next|) && |next| == |prev|
    ensures DList(if j > 0 then next[chain[j - 1] := next[chain[j]]] else next,
                  if j + 1 < |chain| then prev[chain[j + 1] := prev[chain[j]]] else prev, other, front)
  {
    assert j > 0 ==> chain[j - 1] in chain;
    assert j + 1 < |chain| ==> chain[j + 1] in chain;
    DListFrame(next, prev, if j > 0 then next[chain[j - 1] := next[chain[j]]] else next,
               if j + 1 < |chain| then prev[chain[j + 1] := prev[chain[j]]] else prev, other, front);
  }

  /** The writes of a move to the end, for a node that is not already there. */
  lemma MoveLast(next: seq<int>, prev: seq<int>, path: seq<int>, j: nat) returns (next': seq<int>, prev': seq<int>)
    requires DList(next, prev, path, NULL) && j + 1 < |path|
    ensures next[path[j]] == path[j + 1] && prev[path[j]] == if j == 0 then NULL else path[j - 1]
    ensures next' == (if j > 0 then next[path[j - 1] := path[j + 1]] else next)[path[j] := NULL][path[|path| - 1] := path[j]]
    ensures prev' == prev[path[j + 1] := prev[path[j]]][path[j] := path[|path| - 1]]
    ensures DList(next', prev', Drop(path, j) + [path[j]], NULL)
  {
    var x, tail, rest := path[j], path[|path| - 1], Drop(path, j);
    RemoveAt(next, prev, path, NULL, j);
    var next1 := if j > 0 then next[path[j - 1] := path[j + 1]] else next;
    var prev1 := prev[path[j + 1] := prev[x]];
    DropKeeps(path, j);
    var next2 := next1[x := NULL];
    prev' := prev1[x := tail];
    DListFrame(next1, prev1, next2, prev', rest, NULL);
    Append(next2, prev', rest, NULL, x);
    next' := next2[tail := x];
  }

  /** Every element is in the recency list or free. */
  ghost predicate Split(order: seq<int>, pool: seq<int>, loose: set<int>, capacity: nat) {
    && Distinct(order) && Distinct(pool) && InRange(order, capacity) && InRange(pool, capacity)
    && |order| + |pool| + |loose| == capacity
    && forall x :: 0 <= x < capacity ==> (x in order <==> x !in pool && x !in loose) && (x in loose ==> x !in pool)
  }

  class LRUCache<K(==,0,!new), V(0)> {
    const capacity: nat
    const hash: K -> nat

    var count: int
    var lruListHead: int
    var lruListTail: int
    var emptyNodesHead: int

    var listPrev: array<int>
    var listNext: array<int>
    var bucketPrev: array<int>
    var bucketNext: array<int>
    var bucket: array<int>
    var key: array<K>
    var value: array<V>

    // What the links mean.
    ghost var order: seq<int>      // least recently used first
    ghost var pool: seq<int>
    ghost var chains: seq<seq<int>>

    // What went in and what was handed to the deletion policy, in order.
    ghost var inserted: multiset<(K, V)>
    ghost var deleted: seq<(K, V)>

    ghost predicate Shape()
      reads `listPrev, `listNext, `bucketPrev, `bucketNext, `bucket, `key, `value
    {
      && capacity >= 2
      && listPrev.Length == listNext.Length == bucketPrev.Length == bucketNext.Length == capacity
      && key.Length == value.Length == capacity && bucket.Length > 0
      && listPrev != listNext && listPrev != bucketPrev && listPrev != bucketNext && listPrev != bucket
      && listNext != bucketPrev && listNext != bucketNext && listNext != bucket
      && bucketPrev != bucketNext && bucketPrev != bucket && bucketNext != bucket
      && key as object !in {listPrev, listNext, bucketPrev, bucketNext, bucket, value}
      && value as object !in {listPrev, listNext, bucketPrev, bucketNext, bucket}
    }

    ghost predicate ListOk()
      reads `order, `lruListHead, `lruListTail, `listPrev, `listNext, listPrev, listNext
    {
      && DList(listNext[..], listPrev[..], order, NULL)
      && lruListHead == First(order, NULL) && lruListTail == Last(order, NULL)
    }

    ghost predicate PoolOk()
      reads `pool, `emptyNodesHead, `listNext, listNext
    {
      Chain(listNext[..], pool, NULL) && emptyNodesHead == First(pool, NULL)
    }

    ghost predicate BucketsOk()
      reads `chains, `bucket, `bucketPrev, `bucketNext, bucket, bucketPrev, bucketNext
    {
      Buckets(bucketNext[..], bucketPrev[..], bucket[..], chains)
    }

    function WhichBucket(k: K): (b: int)
      requires bucket.Length > 0
      reads `bucket
      ensures 0 <= b < bucket.Length
    {
      hash(k) % bucket.Length
    }

    ghost function Slots(): (r: seq<int>)
      requires bucket.Length > 0 && key.Length == capacity
      reads `bucket, `key, key
      ensures |r| == capacity && forall x :: 0 <= x < capacity ==> r[x] == WhichBucket(key[x])
    {
      SlotsOf(key[..], hash, bucket.Length)
    }

    /** Everything the three overlaid structures promise, with the given elements in none of them. */
    ghost predicate Structure(loose: set<int>)
      reads `order, `pool, `chains, `lruListHead, `lruListTail, `emptyNodesHead
      reads `listPrev, `listNext, `bucketPrev, `bucketNext, `bucket, `key, `value
      reads listPrev, listNext, bucketPrev, bucketNext, bucket, key
    {
      && Shape() && ListOk() && PoolOk() && BucketsOk()
      && Split(order, pool, loose, capacity) && Filed(chains, order, Slots())
    }

    ghost function Balance(): multiset<(K, V)>
      reads `deleted, `order, `key, `value, key, value
    {
      multiset(deleted) + multiset(Pairs(order, key[..], value[..]))
    }

    ghost predicate Valid()
      reads this, listPrev, listNext, bucketPrev, bucketNext, bucket, key, value
    {
      Structure({}) && count == |order| && Balance() == inserted
    }

    /** The link writes of a move to the tail. */
    method Relink(current: int, ghost j: nat)
      requires Shape() && ListOk() && j + 1 < |order| && current == order[j]
      modifies `lruListHead, `lruListTail, listPrev, listNext
      ensures DList(listNext[..], listPrev[..], Drop(order, j) + [current], NULL)
      ensures lruListHead == First(Drop(order, j) + [current], NULL) && lruListTail == current
      ensures forall x :: 0 <= x < capacity && x !in order ==> listNext[x] == old(listNext[x])
    {
      hide Doubly;
      ghost var next', prev' := MoveLast(listNext[..], listPrev[..], order, j);
      OrderRange(listNext[..], listPrev[..], order);
      assert j > 0 ==> order[j - 1] in order;
      if listPrev[current] == NULL {
        lruListHead := listNext[current];
      } else {
        listNext[listPrev[current]] := listNext[current];
      }
      listPrev[listNext[current]] := listPrev[current];
      listNext[current] := NULL;
      listNext[lruListTail] := current;
      listPrev[current] := lruListTail;
      lruListTail := current;
      assert listNext[..] == next' && listPrev[..] == prev';
    }

    method MoveToTail(current: int, ghost j: nat)
      requires Shape() && ListOk() && PoolOk() && Split(order, pool, {}, capacity)
      requires j < |order| && current == order[j]
      modifies `order, `lruListHead, `lruListTail, listPrev, listNext
      ensures ListOk() && PoolOk() && Split(order, pool, {}, capacity)
      ensures order == Without(old(order), {current}) + [current]
    {
      hide DList, Split;
      MovedSplit(order, pool, j, capacity);
      TailIndex(order, pool, j, capacity);
      if current != lruListTail {
        Relink(current, j);
        order := Drop(order, j) + [current];
        ChainFrame(old(listNext[..]), listNext[..], pool, NULL);
      }
    }

    /** The element a search for the key finds, NULL if there is none. */
    ghost function Holder(k: K): (n: int)
      requires Structure({})
      reads `order, `pool, `chains, `lruListHead, `lruListTail, `emptyNodesHead
      reads `listPrev, `listNext, `bucketPrev, `bucketNext, `bucket, `key, `value
      reads listPrev, listNext, bucketPrev, bucketNext, bucket, key
      ensures n == NULL || (n in order && 0 <= n < capacity && key[n] == k)
      ensures n == NULL ==> forall x :: x in order ==> 0 <= x < capacity && key[x] != k
    {
      BucketRange(bucketNext[..], bucketPrev[..], bucket[..], chains, WhichBucket(k));
      assert forall i :: 0 <= i < |order| ==> order[i] in order;
      Lookup(chains[WhichBucket(k)], key[..], k)
    }

    method SearchBucket(k: K) returns (current: int)
      requires Structure({})
      ensures current == Holder(k)
    {
      hide ListOk, PoolOk, Split, Filed;
      ghost var chain := chains[WhichBucket(k)];
      ghost var i := 0;
      BucketRange(bucketNext[..], bucketPrev[..], bucket[..], chains, WhichBucket(k));
      assert chain[0..] == chain;
      current := bucket[WhichBucket(k)];
      while current != NULL
        invariant 0 <= i <= |chain| && current == First(chain[i..], NULL)
        invariant InRange(chain[i..], key.Length) && Lookup(chain, key[..], k) == Lookup(chain[i..], key[..], k)
        decreases |chain| - i
      {
        LookupStep(chain, i, key[..], k);
        if key[current] == k {
          return;
        }
        assert bucketNext[..][chain[i]] == After(chain, i, NULL);
        current := bucketNext[current];
        i := i + 1;
      }
    }

    /** Moves an element to the tail of the recency list. */
    method Touch(current: int)
      requires Structure({}) && current in order
      modifies `order, `lruListHead, `lruListTail, listPrev, listNext
      ensures Structure({}) && order == Without(old(order), {current}) + [current] && |order| == old(|order|)
      ensures key[..] == old(key[..]) && value[..] == old(value[..])
      ensures Balance() == old(Balance())
    {
      hide DList, Split, Buckets, Chain, Filed, Distinct;
      ghost var j := IndexOf(order, current);
      MovedOrder(order, pool, j, chains, Slots(), capacity, key[..], value[..]);
      MoveToTail(current, j);
    }

    /** A hit moves the element found to the tail of the recency list. */
    method Find(k: K) returns (r: Option<V>)
      requires Valid()
      modifies `order, `lruListHead, `lruListTail, listPrev, listNext
      ensures Valid() && key[..] == old(key[..]) && value[..] == old(value[..])
      ensures old(Holder(k)) != NULL ==> 0 <= old(Holder(k)) < value.Length
      ensures r == if old(Holder(k)) == NULL then None else Some(value[..][old(Holder(k))])
      ensures order == if old(Holder(k)) == NULL then old(order) else Without(old(order), {old(Holder(k))}) + [old(Holder(k))]
    {
      hide Structure, Holder, Balance;
      AtMostFull();
      var current := SearchBucket(k);
      if current == NULL {
        return None;
      }
      r := Some(value[current]);
      Touch(current);
    }

    /** Takes an element out of its bucket. */
    method RemoveFromBucket(victim: int)
      requires Shape() && BucketsOk() && 0 <= victim < capacity && victim in chains[WhichBucket(key[victim])]
      modifies `chains, bucket, bucketNext, bucketPrev
      ensures BucketsOk()
      ensures var b := WhichBucket(key[victim]); chains == old(chains)[b := Without(old(chains)[b], {victim})]
    {
      hide DList, Apart;
      ghost var b := WhichBucket(key[victim]);
      ghost var chain := chains[b];
      ghost var j := IndexOf(chain, victim);
      CutBucket(bucketNext[..], bucketPrev[..], bucket[..], chains, b, j);
      BucketRange(bucketNext[..], bucketPrev[..], bucket[..], chains, b);
      DropFromChain(chain, j, key.Length);
      if bucketPrev[victim] < 0 {
        bucket[-bucketPrev[victim] - 1] := bucketNext[victim];
      } else {
        bucketNext[bucketPrev[victim]] := bucketNext[victim];
      }
      if bucketNext[victim] >= 0 {
        bucketPrev[bucketNext[victim]] := bucketPrev[victim];
      }
      chains := chains[b := Drop(chain, j)];
    }

    /** Moves the head of the recency list to the front of the free list. */
    method UnlinkHead() returns (victim: int)
      requires Shape() && ListOk() && PoolOk() && Split(order, pool, {}, capacity) && |order| >= 2
      modifies `order, `pool, `lruListHead, `emptyNodesHead, listPrev, listNext
      ensures ListOk() && PoolOk() && Split(order, pool, {}, capacity) && victim == old(order)[0]
      ensures order == Drop(old(order), 0) && pool == [victim] + old(pool)
    {
      hide DList, Chain, Split;
      HeadToPool(listNext[..], listPrev[..], order, pool, capacity);
      victim := lruListHead;
      // the successor of the victim is the new head
      lruListHead := listNext[victim];
      listPrev[lruListHead] := NULL;
      listNext[victim] := emptyNodesHead;
      emptyNodesHead := victim;
      order, pool := Drop(order, 0), [victim] + pool;
    }

    /** Takes the head of the recency list out of the list and of its bucket. */
    method DropHead() returns (victim: int)
      requires Structure({}) && |order| >= 2
      modifies `order, `pool, `chains, `lruListHead, `emptyNodesHead
      modifies listPrev, listNext, bucketPrev, bucketNext, bucket
      ensures Structure({}) && 0 <= victim < capacity && victim == old(order)[0] && order == old(order)[1..]
      ensures key[..] == old(key[..]) && value[..] == old(value[..])
    {
      hide DList, Chain, Split, Buckets, Filed, Distinct;
      DroppedHead(order, pool, chains, Slots(), capacity);
      BucketCount(bucketNext[..], bucketPrev[..], bucket[..], chains);
      victim := UnlinkHead();
      RemoveFromBucket(victim);
    }

    /** Evicts the least recently used element; there must be another one. */
    method Evict()
      requires Structure({}) && |order| >= 2
      modifies `order, `pool, `chains, `lruListHead, `emptyNodesHead, `count, `deleted
      modifies listPrev, listNext, bucketPrev, bucketNext, bucket
      ensures Structure({}) && count == old(count) - 1 && Balance() == old(Balance())
      ensures order == old(order)[1..] && key[..] == old(key[..]) && value[..] == old(value[..])
      ensures deleted == old(deleted) + Pairs([old(order)[0]], key[..], value[..])
    {
      hide Structure;
      AtMostFull();
      var victim := DropHead();
      EvictedPairs(old(order), key[..], value[..]);
      count := count - 1;
      deleted := deleted + [(key[victim], value[victim])];
    }

    method TakeFree() returns (newelem: int)
      requires Structure({}) && |order| < capacity
      modifies `pool, `emptyNodesHead
      ensures Structure({newelem}) && 0 <= newelem < capacity == key.Length == value.Length && newelem !in order
    {
      hide DList, Buckets, Filed;
      FreeExists(order, pool, capacity);
      ChainTail(listNext[..], pool, NULL);
      newelem := emptyNodesHead;
      emptyNodesHead := listNext[newelem];
      pool := pool[1..];
    }

    method AppendToList(newelem: int)
      requires Shape() && ListOk() && PoolOk() && Split(order, pool, {newelem}, capacity) && 0 <= newelem < capacity
      modifies `order, `lruListHead, `lruListTail, listPrev, listNext
      ensures ListOk() && PoolOk() && Split(order, pool, {}, capacity) && order == old(order) + [newelem]
    {
      hide Chain, Distinct;
      SplitAppend(order, pool, newelem, capacity);
      ghost var next0, prev0 := listNext[..], listPrev[..];
      listPrev[newelem] := lruListTail;
      listNext[newelem] := NULL;
      DListFrame(next0, prev0, listNext[..], listPrev[..], order, NULL);
      Append(listNext[..], listPrev[..], order, NULL, newelem);
      LastInRange(order, capacity);
      if lruListTail != NULL {
        listNext[lruListTail] := newelem;
      }
      lruListTail := newelem;
      // if the list is empty, the tail is the head
      if lruListHead == NULL {
        lruListHead := lruListTail;
      }
      order := order + [newelem];
      ChainFrame(next0, listNext[..], pool, NULL);
    }

    method AddToBucket(newelem: int)
      requires Shape() && BucketsOk() && 0 <= newelem < capacity
      requires forall b :: 0 <= b < |chains| ==> newelem !in chains[b]
      modifies `chains, bucket, bucketNext, bucketPrev
      ensures BucketsOk()
      ensures var b := WhichBucket(key[newelem]); chains == old(chains)[b := [newelem] + old(chains)[b]]
    {
      hide DList, Apart, Distinct;
      var wbuck := WhichBucket(key[newelem]);
      BucketRange(bucketNext[..], bucketPrev[..], bucket[..], chains, wbuck);
      PushBucket(bucketNext[..], bucketPrev[..], bucket[..], chains, wbuck, newelem);
      bucketNext[newelem] := bucket[wbuck];
      if bucket[wbuck] != NULL {
        bucketPrev[bucket[wbuck]] := newelem;
      }
      bucketPrev[newelem] := -wbuck - 1;
      bucket[wbuck] := newelem;
      chains := chains[wbuck := [newelem] + chains[wbuck]];
    }

    method FillElement(newelem: int, k: K, v: V)
      requires Structure({newelem}) && 0 <= newelem < capacity && newelem !in order
      modifies key, value
      ensures key[..] == old(key[..])[newelem := k] && value[..] == old(value[..])[newelem := v]
      ensures Structure({newelem}) && Balance() == old(Balance())
      ensures forall b :: 0 <= b < |chains| ==> newelem !in chains[b]
    {
      hide DList, Chain, Split, Buckets;
      BucketCount(bucketNext[..], bucketPrev[..], bucket[..], chains);
      FiledFill(chains, order, Slots(), newelem, WhichBucket(k));
      PairsFrame(newelem, order, key[..], value[..], k, v);
      ghost var slots := Slots();
      key[newelem] := k;
      value[newelem] := v;
      assert Slots() == slots[newelem := WhichBucket(k)];
    }

    method Link(newelem: int)
      requires Structure({newelem}) && 0 <= newelem < capacity && newelem !in order
      requires forall b :: 0 <= b < |chains| ==> newelem !in chains[b]
      modifies `order, `chains, `lruListHead, `lruListTail, listPrev, listNext, bucketPrev, bucketNext, bucket
      ensures Structure({}) && order == old(order) + [newelem]
      ensures key[..] == old(key[..]) && value[..] == old(value[..])
    {
      hide DList, Chain, Split, Buckets, Filed, Distinct;
      BucketCount(bucketNext[..], bucketPrev[..], bucket[..], chains);
      FiledAppend(chains, order, Slots(), newelem);
      AppendToList(newelem);
      AddToBucket(newelem);
    }

    /** Writes a pair into a taken element and publishes it. */
    method Store(newelem: int, k: K, v: V)
      requires Structure({newelem}) && 0 <= newelem < capacity == key.Length == value.Length && newelem !in order
      modifies `order, `chains, `lruListHead, `lruListTail, listPrev, listNext, bucketPrev, bucketNext, bucket, key
      modifies value
      ensures Structure({}) && order == old(order) + [newelem] && Balance() == old(Balance()) + multiset{(k, v)}
      ensures key[..] == old(key[..])[newelem := k] && value[..] == old(value[..])[newelem := v]
    {
      hide Structure;
      FillElement(newelem, k, v);
      PairsSnoc(order, newelem, key[..], value[..]);
      Link(newelem);
    }

    /** Evicts while the cache is full. */
    method EvictWhileFull()
      requires Structure({}) && count == |order|
      modifies `order, `pool, `chains, `lruListHead, `emptyNodesHead, `count, `deleted
      modifies listPrev, listNext, bucketPrev, bucketNext, bucket
      ensures Structure({}) && count == |order| < capacity && Balance() == old(Balance())
      ensures order == ExactLru.Admit(capacity, old(order))
      ensures key[..] == old(key[..]) && value[..] == old(value[..])
      ensures deleted == old(deleted)
        + Pairs(if old(|order|) >= capacity then [old(order)[0]] else [], old(key[..]), old(value[..]))
    {
      hide Structure, Balance;
      AtMostFull();
      while count >= capacity
        invariant Structure({}) && count == |order| <= capacity && Balance() == old(Balance())
        invariant key[..] == old(key[..]) && value[..] == old(value[..])
        invariant
          || (order == old(order) && deleted == old(deleted))
          || (count < capacity == |old(order)| && order == old(order)[1..]
              && deleted == old(deleted) + Pairs([old(order)[0]], key[..], value[..]))
        decreases count
      {
        Evict();
      }
    }

    /** Inserts a pair at the tail of the recency list, evicting while the cache is full. */
    method Insert(k: K, v: V) returns (ghost newelem: int)
      requires Valid()
      modifies `order, `pool, `chains, `lruListHead, `lruListTail, `emptyNodesHead, `count, `deleted, `inserted
      modifies listPrev, listNext, bucketPrev, bucketNext, bucket, key, value
      ensures Valid() && inserted == old(inserted) + multiset{(k, v)}
      ensures order == ExactLru.Admit(capacity, old(order)) + [newelem]
      ensures 0 <= newelem < capacity && newelem !in ExactLru.Admit(capacity, old(order))
      ensures key[..] == old(key[..])[newelem := k] && value[..] == old(value[..])[newelem := v]
      ensures deleted == old(deleted)
        + Pairs(if old(|order|) >= capacity then [old(order)[0]] else [], old(key[..]), old(value[..]))
    {
      hide Structure, Balance, ExactLru.Admit;
      EvictWhileFull();
      count := count + 1;
      var n := TakeFree();
      assert Balance() == inserted;
      newelem := n;
      Store(n, k, v);
      inserted := inserted + multiset{(k, v)};
    }

    /** The keys of the elements in the recency list, least recently used first. */
    ghost function Keys(): seq<K>
      reads `order, `key, key
    {
      Label(order, key[..])
    }

    ghost predicate OneElementPerKey()
      reads `order, `key, key
    {
      Named(order, key[..])
    }

    /** The keys handed to the deletion policy, in order. */
    ghost function DeletedKeys(): seq<K>
      reads `deleted
    {
      Firsts(deleted)
    }

    /** Every cached value is what the function gives for its key. */
    ghost predicate Computes(f: K -> V)
      reads `order, `key, `value, key, value
    {
      forall x :: x in order && 0 <= x < key.Length && x < value.Length ==> value[x] == f(key[x])
    }

    lemma HolderIsLabel(k: K)
      requires Structure({}) && OneElementPerKey()
      ensures Holder(k) != NULL <==> k in Keys()
      ensures Holder(k) != NULL ==> Holder(k) in order && 0 <= Holder(k) < |key[..]| && key[..][Holder(k)] == k
    {
      hide ListOk, PoolOk, BucketsOk, Filed, Lookup;
      LabelAt(order, key[..]);
      if Holder(k) == NULL {
        assert forall i :: 0 <= i < |order| ==> order[i] in order;
      } else {
        var i := IndexOf(order, Holder(k));
        assert Label(order, key[..])[i] == k;
      }
    }

    /** Looks the key up, otherwise computes the value and caches it. */
    method ConsumeCachedOrCompute(k: K, producer: () -> V, ghost f: K -> V) returns (v: V)
      requires Valid() && OneElementPerKey()
      modifies `order, `pool, `chains, `lruListHead, `lruListTail, `emptyNodesHead, `count, `deleted, `inserted
      modifies listPrev, listNext, bucketPrev, bucketNext, bucket, key, value
      ensures Valid() && OneElementPerKey()
      ensures Keys() == ExactLru.Access(capacity, old(Keys()), k)
      ensures inserted == if k in old(Keys()) then old(inserted) else old(inserted) + multiset{(k, producer())}
      ensures k !in old(Keys()) ==> v == producer()
      ensures DeletedKeys() == old(DeletedKeys()) + ExactLru.Evicted(capacity, old(Keys()), k)
      ensures old(Computes(f)) && producer() == f(k) ==> Computes(f) && v == f(k)
    {
      hide Structure, Balance, Named;
      var r := FindKey(k, f);
      match r
      case Some(x) =>
        return x;
      case None =>
        v := producer();
        InsertKey(k, v, f);
    }

    lemma StartsEmpty(f: K -> V)
      requires order == [] && deleted == []
      ensures OneElementPerKey() && Computes(f) && Keys() == [] && DeletedKeys() == []
    {
    }

    /** A find, seen through the keys. */
    method FindKey(k: K, ghost f: K -> V) returns (r: Option<V>)
      requires Valid() && OneElementPerKey()
      modifies `order, `lruListHead, `lruListTail, listPrev, listNext
      ensures Valid() && OneElementPerKey() && r.Some? == (k in old(Keys()))
      ensures Keys() == if k in old(Keys()) then Without(old(Keys()), {k}) + [k] else old(Keys())
      ensures old(Computes(f)) ==> Computes(f) && (r.Some? ==> r.value == f(k))
    {
      hide Structure, Balance, Named;
      ghost var n := Holder(k);
      HolderIsLabel(k);
      if n != NULL {
        LabelToEnd(order, n, key[..]);
      }
      r := Find(k);
    }

    /** An insertion of a key that is not cached, seen through the keys. */
    method InsertKey(k: K, v: V, ghost f: K -> V)
      requires Valid() && OneElementPerKey() && k !in Keys()
      modifies `order, `pool, `chains, `lruListHead, `lruListTail, `emptyNodesHead, `count, `deleted, `inserted
      modifies listPrev, listNext, bucketPrev, bucketNext, bucket, key, value
      ensures Valid() && OneElementPerKey() && inserted == old(inserted) + multiset{(k, v)}
      ensures Keys() == ExactLru.Admit(capacity, old(Keys())) + [k]
      ensures DeletedKeys() == old(DeletedKeys()) + ExactLru.Evicted(capacity, old(Keys()), k)
      ensures old(Computes(f)) && v == f(k) ==> Computes(f)
    {
      hide Structure, Balance, Named;
      AtMostFull();
      ghost var order0, keys, values, deleted0 := order, key[..], value[..], deleted;
      var n := Insert(k, v);
      LabelAdmitted(order0, n, keys, values, k, capacity, deleted0);
    }

    lemma AtMostFull()
      requires Structure({})
      ensures |order| <= capacity && capacity >= 2 && |key[..]| == |value[..]| == capacity
    {
      hide ListOk, PoolOk, BucketsOk, Filed;
    }

    constructor (capacity: nat, loadFactor: nat, hash: K -> nat)
      requires capacity >= 2 && loadFactor > 0 && capacity / loadFactor > 0
      ensures this.capacity == capacity && this.hash == hash && Valid() && order == [] && pool == Iota(capacity)
      ensures deleted == [] && inserted == multiset{} && bucket.Length == capacity / loadFactor
      ensures fresh(listPrev) && fresh(listNext) && fresh(bucketPrev) && fresh(bucketNext) && fresh(bucket)
      ensures fresh(key) && fresh(value)
    {
      hide Valid;
      this.capacity, this.hash := capacity, hash;
      count, lruListHead, lruListTail, emptyNodesHead := 0, NULL, NULL, 0;
      order, pool, chains := [], [], [];
      inserted, deleted := multiset{}, [];
      listPrev, listNext := new int[capacity], new int[capacity];
      bucketPrev, bucketNext := new int[capacity], new int[capacity];
      bucket := new int[capacity / loadFactor](_ => NULL);
      key, value := new K[capacity], new V[capacity];
      new;
      InitializeLists();
    }

    method InitializeLists()
      requires Shape() && order == [] && count == 0 && emptyNodesHead == 0
      requires lruListHead == lruListTail == NULL && deleted == [] && inserted == multiset{}
      requires forall b :: 0 <= b < bucket.Length ==> bucket[b] == NULL
      modifies listNext, `pool, `chains
      ensures Valid() && pool == Iota(capacity)
    {
      hide PoolOk, Split, Valid;
      LinkFreeElements();
      chains := seq(bucket.Length, i => []);
      FreshIsValid();
    }

    method LinkFreeElements()
      requires Shape() && emptyNodesHead == 0 && order == []
      modifies listNext, `pool
      ensures PoolOk() && pool == Iota(capacity) && Split(order, pool, {}, capacity)
    {
      hide Chain;
      for i := 0 to capacity - 1
        invariant forall j :: 0 <= j < i ==> listNext[j] == j + 1
      {
        listNext[i] := i + 1;
      }
      listNext[capacity - 1] := NULL;
      pool := Iota(capacity);
      IotaChain(listNext[..], capacity);
    }

    lemma FreshIsValid()
      requires Shape() && PoolOk() && Split(order, pool, {}, capacity) && order == [] && count == 0
      requires lruListHead == lruListTail == NULL && deleted == [] && inserted == multiset{}
      requires forall b :: 0 <= b < bucket.Length ==> bucket[b] == NULL
      requires |chains| == bucket.Length && forall b :: 0 <= b < |chains| ==> chains[b] == []
      ensures Valid()
    {
      hide Chain, Split;
    }

    /** Nothing allocated any more. */
    ghost predicate Released()
      reads `bucket, `deleted, `inserted
    {
      bucket.Length == 0 && multiset(deleted) == inserted
    }

    /** Hands every cached pair to the deletion policy, least recently used first, so that every pair inserted is
        deleted exactly once; a second release deletes nothing. */
    method ReleaseMemory()
      requires Valid() || Released()
      modifies `deleted, `listPrev, `listNext, `bucketPrev, `bucketNext, `bucket, `key, `value, `order, `pool, `chains
      ensures Released() && inserted == old(inserted)
      ensures old(Released()) ==> deleted == old(deleted)
      ensures old(Valid()) ==> deleted == old(deleted) + old(Pairs(order, key[..], value[..]))
    {
      hide Valid;
      Allocated();
      if bucket.Length > 0 {
        DeleteAll();
      }
      FreeArrays();
    }

    lemma Allocated()
      ensures Valid() ==> bucket.Length > 0
    {
      hide ListOk, PoolOk, BucketsOk, Filed, Split;
    }

    method FreeArrays()
      modifies `listPrev, `listNext, `bucketPrev, `bucketNext, `bucket, `key, `value, `order, `pool, `chains
      ensures bucket.Length == 0
    {
      listPrev, listNext, bucketPrev, bucketNext := new int[0], new int[0], new int[0], new int[0];
      bucket, key, value := new int[0], new K[0], new V[0];
      order, pool, chains := [], [], [];
    }

    method DeleteAll()
      requires Valid()
      modifies `deleted
      ensures deleted == old(deleted) + Pairs(order, key[..], value[..]) && multiset(deleted) == inserted
    {
      hide PoolOk, BucketsOk, Filed, Split, DList;
      SweepList();
    }

    method SweepList()
      requires Shape() && DList(listNext[..], listPrev[..], order, NULL) && lruListHead == First(order, NULL)
      modifies `deleted
      ensures deleted == old(deleted) + Pairs(order, key[..], value[..])
    {
      hide Distinct;
      ghost var i := 0;
      assert order[0..] == order && [] + order[..0] == [];
      var node := lruListHead;
      while node != NULL
        invariant 0 <= i <= |order| && node == First(order[i..], NULL)
        invariant deleted == old(deleted) + Pairs([] + order[..i], key[..], value[..])
        decreases |order| - i
      {
        assert listNext[..][order[i]] == After(order, i, NULL);
        SweptOne(old(deleted), [], order, i, key[..], value[..]);
        deleted := deleted + [(key[node], value[node])];
        node := listNext[node];
        i := i + 1;
      }
      assert [] + order[..i] == order by { assert InRange(order, capacity); }
    }
  }

  /** Moving an element to the end moves its key to the end. */
  lemma LabelToEnd<K(!new)>(order: seq<int>, n: int, keys: seq<K>)
    requires Named(order, keys) && n in order
    ensures 0 <= n < |keys|
    ensures Label(Without(order, {n}) + [n], keys) == Without(Label(order, keys), {keys[n]}) + [keys[n]]
    ensures Named(Without(order, {n}) + [n], keys) && Within(Without(order, {n}) + [n], order)
  {
    LabelMember(n, order, order, keys);
    LabelOne(n, keys);
    LabelWithout(order, [n], order, keys);
    LabelConcat(Without(order, {n}), [n], keys);
    WithoutMembers(order, {n});
    NamedWithin(Without(order, {n}) + [n], order, keys);
  }

  /** An admission, seen through the keys. */
  lemma LabelAdmitted<K(!new), V>(order: seq<int>, n: int, keys: seq<K>, values: seq<V>, k: K, capacity: nat,
                                  deleted: seq<(K, V)>)
    requires Named(order, keys) && 0 <= n < capacity == |keys| == |values| && k !in Label(order, keys)
    requires n !in ExactLru.Admit(capacity, order)
    ensures var after := ExactLru.Admit(capacity, order) + [n];
      Named(after, keys[n := k]) && Label(after, keys[n := k]) == ExactLru.Admit(capacity, Label(order, keys)) + [k]
    ensures var out := if |order| >= capacity then [order[0]] else [];
      Firsts(deleted + Pairs(out, keys, values)) == Firsts(deleted) + ExactLru.Evicted(capacity, Label(order, keys), k)
  {
    var room := ExactLru.Admit(capacity, order);
    LabelAt(order, keys);
    LabelOne(n, keys[n := k]);
    LabelWrite(room, keys, n, k);
    LabelConcat(room, [n], keys[n := k]);
    NamedInsert(order, room, n, k, keys);
    NamedWithin(room + [n], [n] + room, keys[n := k]);
    if |order| >= capacity {
      EvictedPairs(order, keys, values);
      FirstsConcat(deleted, [(keys[order[0]], values[order[0]])]);
      assert [(keys[order[0]], values[order[0]])][1..] == [];
    } else {
      assert deleted + [] == deleted;
    }
  }

  lemma BucketCount(next: seq<int>, prev: seq<int>, heads: seq<int>, chains: seq<seq<int>>)
    requires Buckets(next, prev, heads, chains)
    ensures |chains| == |heads|
  {
  }

  lemma SplitEvict(order: seq<int>, pool: seq<int>, capacity: nat)
    requires Split(order, pool, {}, capacity) && order != []
    ensures Split(Drop(order, 0), [order[0]] + pool, {}, capacity)
    ensures Apart(pool, order) && order[0] !in Drop(order, 0) && order[0] !in pool
    ensures Drop(order, 0) == order[1..]
  {
    DropKeeps(order, 0);
    SplitApart(order, pool, {}, capacity);
    assert order[0] in order;
    assert Distinct([order[0]] + pool);
  }

  /** The writes that make the first node of the list the first node of the pool. */
  lemma HeadToPool(next: seq<int>, prev: seq<int>, order: seq<int>, pool: seq<int>, capacity: nat)
    requires DList(next, prev, order, NULL) && Chain(next, pool, NULL) && Split(order, pool, {}, capacity)
    requires |order| >= 2 && |next| == |prev| == capacity
    ensures 0 <= order[0] < capacity && 0 <= order[1] < capacity && next[order[0]] == order[1]
    ensures var next', prev' := next[order[0] := First(pool, NULL)], prev[order[1] := NULL];
      DList(next', prev', Drop(order, 0), NULL) && Chain(next', [order[0]] + pool, NULL)
    ensures First(Drop(order, 0), NULL) == order[1] && Last(Drop(order, 0), NULL) == Last(order, NULL)
    ensures Split(Drop(order, 0), [order[0]] + pool, {}, capacity) && Drop(order, 0) == order[1..]
  {
    hide Doubly;
    SplitEvict(order, pool, capacity);
    RemoveAt(next, prev, order, NULL, 0);
    var next', prev' := next[order[0] := First(pool, NULL)], prev[order[1] := NULL];
    DListFrame(next, prev', next', prev', Drop(order, 0), NULL);
    ChainFrame(next, next', pool, NULL);
    PushChain(next', pool, NULL, order[0]);
  }

  lemma DroppedHead(order: seq<int>, pool: seq<int>, chains: seq<seq<int>>, slots: seq<int>, capacity: nat)
    requires Split(order, pool, {}, capacity) && order != [] && Filed(chains, order, slots) && |slots| == capacity
    ensures 0 <= order[0] < capacity && Drop(order, 0) == order[1..]
    ensures 0 <= slots[order[0]] < |chains| ==>
      && order[0] in chains[slots[order[0]]]
      && var b := slots[order[0]]; Filed(chains[b := Without(chains[b], {order[0]})], Drop(order, 0), slots)
  {
    SplitEvict(order, pool, capacity);
    assert order[0] in order;
    if 0 <= slots[order[0]] < |chains| {
      FiledDrop(chains, order, slots, 0);
    }
  }

  lemma EvictedPairs<K, V>(order: seq<int>, keys: seq<K>, values: seq<V>)
    requires order != [] && 0 <= order[0] < |keys| == |values|
    ensures Pairs([order[0]], keys, values) == [(keys[order[0]], values[order[0]])]
    ensures multiset(Pairs(order, keys, values))
            == multiset{(keys[order[0]], values[order[0]])} + multiset(Pairs(order[1..], keys, values))
  {
    assert [order[0]][1..] == [];
  }

  lemma FreeExists(order: seq<int>, pool: seq<int>, capacity: nat)
    requires Split(order, pool, {}, capacity) && |order| < capacity
    ensures pool != [] && Split(order, pool[1..], {pool[0]}, capacity) && pool[0] !in order && 0 <= pool[0] < capacity
  {
    SplitApart(order, pool, {}, capacity);
    assert forall x :: x in pool <==> x == pool[0] || x in pool[1..];
    assert pool[0] !in pool[1..];
  }

  lemma SplitAppend(order: seq<int>, pool: seq<int>, n: int, capacity: nat)
    requires Split(order, pool, {n}, capacity) && 0 <= n < capacity
    ensures Split(order + [n], pool, {}, capacity) && n !in order && n !in pool
    ensures Apart(pool, order) && Apart(order, pool)
  {
    SplitApart(order, pool, {n}, capacity);
    assert Distinct(order + [n]);
    assert forall x :: x in order + [n] <==> x in order || x == n;
  }

  lemma LastInRange(order: seq<int>, capacity: nat)
    requires InRange(order, capacity) || order == []
    ensures Last(order, NULL) == NULL <==> order == []
    ensures First(order, NULL) == NULL <==> order == []
    ensures order != [] ==> Last(order, NULL) in order
  {
  }

  /** An element that is not listed may change its key. */
  lemma FiledFill(chains: seq<seq<int>>, order: seq<int>, slots: seq<int>, n: int, b: int)
    requires Filed(chains, order, slots) && 0 <= n < |slots| && n !in order
    ensures Filed(chains, order, slots[n := b]) && forall c :: 0 <= c < |chains| ==> n !in chains[c]
  {
  }

  lemma FiledAppend(chains: seq<seq<int>>, order: seq<int>, slots: seq<int>, n: int)
    requires Filed(chains, order, slots) && 0 <= n < |slots| && 0 <= slots[n] < |chains|
    ensures var b := slots[n]; Filed(chains[b := [n] + chains[b]], order + [n], slots)
  {
  }

  lemma BucketRange(next: seq<int>, prev: seq<int>, heads: seq<int>, chains: seq<seq<int>>, b: nat)
    requires Buckets(next, prev, heads, chains) && b < |heads|
    ensures b < |chains| && InRange(chains[b], |next|) && Distinct(chains[b]) && heads[b] == First(chains[b], NULL)
    ensures forall i :: 0 <= i < |chains[b]| ==> next[chains[b][i]] == After(chains[b], i, NULL)
  {
    var chain := chains[b];
    assert DList(next, prev, chain, HeadMark(b));
    forall i | 0 <= i < |chain| ensures next[chain[i]] == After(chain, i, NULL) {
      if i + 1 < |chain| { assert next[chain[i]] == chain[i + 1]; }
    }
  }

  lemma DropFromChain(chain: seq<int>, j: nat, n: nat)
    requires Distinct(chain) && InRange(chain, n) && j < |chain|
    ensures Without(chain, {chain[j]}) == Drop(chain, j)
    ensures j > 0 ==> 0 <= chain[j - 1] && chain[j - 1] != chain[j]
    ensures j + 1 < |chain| ==> 0 <= chain[j + 1] && chain[j + 1] != chain[j]
  {
    WithoutIsDrop(chain, j);
  }

  /** Moving an element to the end changes neither membership nor what is cached. */
  lemma MovedOrder<K, V>(order: seq<int>, pool: seq<int>, j: nat, chains: seq<seq<int>>, slots: seq<int>, capacity: nat,
                         keys: seq<K>, values: seq<V>)
    requires Split(order, pool, {}, capacity) && j < |order| && Filed(chains, order, slots)
    ensures var after := Without(order, {order[j]}) + [order[j]];
      && |after| == |order| && Filed(chains, after, slots)
      && multiset(Pairs(after, keys, values)) == multiset(Pairs(order, keys, values))
  {
    var after := Drop(order, j) + [order[j]];
    WithoutIsDrop(order, j);
    DropKeeps(order, j);
    assert Distinct(after);
    assert forall x :: x in after <==> x in order;
    PairsPermute(after, order, keys, values);
  }

  lemma OrderRange(next: seq<int>, prev: seq<int>, order: seq<int>)
    requires DList(next, prev, order, NULL)
    ensures InRange(order, |next|) && Distinct(order)
  {
  }

  lemma MovedSplit(order: seq<int>, pool: seq<int>, j: nat, capacity: nat)
    requires Split(order, pool, {}, capacity) && j < |order|
    ensures Split(Drop(order, j) + [order[j]], pool, {}, capacity) && Apart(pool, order)
    ensures Without(order, {order[j]}) == Drop(order, j)
  {
    DropKeeps(order, j);
    WithoutIsDrop(order, j);
    SplitApart(order, pool, {}, capacity);
  }

  lemma SplitApart(order: seq<int>, pool: seq<int>, loose: set<int>, capacity: nat)
    requires Split(order, pool, loose, capacity)
    ensures Apart(pool, order) && Apart(order, pool)
  {
    forall x | x in order ensures x !in pool {
      var i := IndexOf(order, x);
    }
  }

  lemma TailIndex(order: seq<int>, pool: seq<int>, j: nat, capacity: nat)
    requires Split(order, pool, {}, capacity) && j < |order|
    ensures 0 <= order[j] && (order[j] == Last(order, NULL) <==> j + 1 == |order|)
    ensures j + 1 == |order| ==> Drop(order, j) + [order[j]] == order
  {
  }
}
