/** The sequential behaviour of DeferredLRU: four linked structures over one fixed array of nodes. */
module DeferredLru {
  import opened Links
  import opened Sequences
  import opened DeferredPolicy
  import opened Labels
  import opened Entries

  /** The Recent stack: exactly the stacked nodes have a non-null recent link. */
  ghost predicate Stacked(recentNext: seq<int>, stack: seq<int>) {
    && Chain(recentNext, stack, DUMMY)
    && forall x :: 0 <= x < |recentNext| && x !in stack ==> recentNext[x] == NULL
  }

  /** Every node is in the LRU list, in the pool or loose; marked nodes are in the list. */
  ghost predicate Partition(lru: seq<int>, recent: seq<int>, pool: seq<int>, loose: set<int>, capacity: nat) {
    && Marks(lru, recent) && Distinct(pool)
    && |lru| + |pool| + |loose| == capacity
    && (forall x :: x in pool ==> x !in loose)
    && (forall x :: 0 <= x < capacity ==> (x in lru <==> x !in pool && x !in loose))
  }

  /** Singly linked buckets without common nodes. */
  ghost predicate Buckets(next: seq<int>, heads: seq<int>, chains: seq<seq<int>>) {
    && |chains| == |heads|
    && (forall b :: 0 <= b < |chains| ==> Chain(next, chains[b], NULL) && Distinct(chains[b]) && heads[b] == First(chains[b], NULL))
    && (forall b, c :: 0 <= b < |chains| && 0 <= c < |chains| && b != c ==> Apart(chains[b], chains[c]))
  }

  class DeferredLRU<K(==,0,!new), V(0)> {
    const capacity: nat
    const hash: K -> nat
    const pullThreshold: nat
    const purgeThreshold: nat
    const HEAD: int
    const TAIL: int
    const LOCAL: int  // the list head a pull keeps on its stack

    var count: int
    var emptyHead: int
    var recentHead: int
    var recentCount: nat
    var pullRequest: bool
    var purgeRequest: bool

    var lruNext: array<int>
    var lruPrev: array<int>
    var recentNext: array<int>
    var bucketNext: array<int>
    var bucketHead: array<int>
    var key: array<K>
    var value: array<V>

    // What the links mean.
    ghost var lru: seq<int>        // most recently used first
    ghost var recent: seq<int>     // newest mark first
    ghost var pool: seq<int>
    ghost var chains: seq<seq<int>>

    // What went in and what was handed to the deletion policy, in order.
    ghost var inserted: multiset<(K, V)>
    ghost var deleted: seq<(K, V)>

    ghost predicate Shape()
      reads `lruNext, `lruPrev, `recentNext, `bucketNext, `bucketHead, `key, `value
    {
      && capacity > 0 && HEAD == capacity && TAIL == capacity + 1 && LOCAL == capacity + 2
      && lruNext.Length == capacity + 3 && lruPrev.Length == capacity + 3
      && recentNext.Length == capacity && bucketNext.Length == capacity
      && key.Length == capacity && value.Length == capacity
      && bucketHead.Length > 0
      && lruNext != lruPrev && lruNext != recentNext && lruNext != bucketNext && lruNext != bucketHead
      && lruPrev != recentNext && lruPrev != bucketNext && lruPrev != bucketHead
      && recentNext != bucketNext && recentNext != bucketHead && bucketNext != bucketHead
      && key as object !in {lruNext, lruPrev, recentNext, bucketNext, bucketHead, value}
      && value as object !in {lruNext, lruPrev, recentNext, bucketNext, bucketHead}
    }

    ghost function Path(order: seq<int>): seq<int> {
      [HEAD] + order + [TAIL]
    }

    ghost predicate LruOk()
      reads `lru, `lruNext, `lruPrev, lruNext, lruPrev
    {
      Doubly(lruNext[..], lruPrev[..], Path(lru), {}) && InRange(lru, capacity)
    }

    ghost predicate RecentOk()
      reads `recent, `recentHead, `recentCount, `recentNext, recentNext
    {
      Stacked(recentNext[..], recent) && recentHead == First(recent, DUMMY) && recentCount == |recent|
    }

    ghost predicate PoolOk()
      reads `pool, `emptyHead, `lruNext, lruNext
    {
      Chain(lruNext[..], pool, NULL) && InRange(pool, capacity) && emptyHead == First(pool, NULL)
    }

    ghost predicate ChainsOk()
      reads `chains, `bucketNext, `bucketHead, bucketNext, bucketHead
    {
      Buckets(bucketNext[..], bucketHead[..], chains)
    }

    function BucketOf(k: K): (b: int)
      requires bucketHead.Length > 0
      reads `bucketHead
      ensures 0 <= b < bucketHead.Length
    {
      hash(k) % bucketHead.Length
    }

    /** The bucket number of every node's key. */
    ghost function Slots(): (r: seq<int>)
      requires bucketHead.Length > 0 && key.Length == capacity
      reads `bucketHead, `key, key
      ensures |r| == capacity && forall x :: 0 <= x < capacity ==> r[x] == BucketOf(key[x])
    {
      SlotsOf(key[..], hash, bucketHead.Length)
    }

    ghost predicate Structure()
      reads `lruNext, `lruPrev, `recentNext, `bucketNext, `bucketHead, `key, `value, `lru, `recent, `pool, `chains,
            `emptyHead, `recentHead, `recentCount, lruNext, lruPrev, recentNext, bucketNext, bucketHead, key
    {
      && Shape() && LruOk() && RecentOk() && PoolOk() && ChainsOk()
      && Partition(lru, recent, pool, {}, capacity) && Filed(chains, lru, Slots())
    }

    method RemoveNodeFromLru(node: int, ghost path: seq<int>, ghost j: nat)
      requires Doubly(lruNext[..], lruPrev[..], path, {})
      requires lruNext != lruPrev && 0 < j < |path| - 1 && path[j] == node
      modifies lruNext, lruPrev
      ensures lruNext[..] == old(lruNext[..])[path[j - 1] := path[j + 1]]
      ensures lruPrev[..] == old(lruPrev[..])[path[j + 1] := path[j - 1]]
      ensures Doubly(lruNext[..], lruPrev[..], Drop(path, j), {})
    {
      Unlink(lruNext[..], lruPrev[..], path, j);
      var prev := lruPrev[node];
      var next := lruNext[node];
      lruNext[prev] := next;
      lruPrev[next] := prev;
    }

    /** In a sequential run the compare-and-swap succeeds at once. */
    method AddSublistToLruHead(first: int, last: int, ghost sub: seq<int>)
      requires Shape() && LruOk()
      requires Doubly(lruNext[..], lruPrev[..], sub, {}) && InRange(sub, capacity)
      requires sub != [] && first == sub[0] && last == sub[|sub| - 1]
      requires PoolOk() && Apart(sub, lru) && Apart(pool, lru) && Apart(pool, sub)
      modifies lruNext, lruPrev, `lru
      ensures LruOk() && PoolOk() && lru == sub + old(lru)
    {
      ghost var path := Path(lru);
      assert lruNext[..][path[0]] == path[1];
      lruPrev[first] := HEAD;
      var currentNext := lruNext[HEAD];
      lruNext[last] := currentNext;
      assert currentNext == path[1];
      DoublyFrame(old(lruNext[..]), old(lruPrev[..]), lruNext[..], lruPrev[..], path, {});
      assert Doubly(lruNext[..], lruPrev[..], sub, {});
      SpliceSecond(lruNext[..], lruPrev[..], path, {}, sub);
      lruNext[HEAD] := first;
      ghost var whole := Path(sub + lru);
      assert whole == [HEAD] + sub + path[1..];
      assert whole[|sub|] == last && whole[|sub| + 1] == currentNext;
      BackLink(lruNext[..], lruPrev[..], whole, {currentNext}, |sub|);
      lruPrev[currentNext] := last;
      assert {currentNext} - {currentNext} == {};
      lru := sub + lru;
      ChainFrame(old(lruNext[..]), lruNext[..], pool, NULL);
    }

    predicate MarkedRecent(node: int)
      requires 0 <= node < recentNext.Length
      reads this, recentNext
    {
      recentNext[node] != NULL
    }

    method MarkNodeRecent(node: int)
      requires Shape() && RecentOk() && 0 <= node < capacity && Distinct(recent)
      modifies `recentHead, `recentCount, `recent, recentNext
      ensures RecentOk() && Distinct(recent)
      ensures recent == if node in old(recent) then old(recent) else [node] + old(recent)
    {
      MarkedIff(recentNext[..], recent, node);
      if !MarkedRecent(node) {
        ghost var before := recentNext[..];
        recentNext[node] := recentHead;
        ChainFrame(before, recentNext[..], recent, DUMMY);
        recentHead := node;
        recentCount := recentCount + 1;
        PushChain(recentNext[..], recent, DUMMY, node);
        recent := [node] + recent;
      }
    }

    /** Takes the whole stack; what it held is returned in `slice`. */
    method PopRecentListSlice() returns (first: int, ghost slice: seq<int>)
      requires RecentOk()
      modifies `recentHead, `recentCount, `recent
      ensures recentHead == DUMMY && recentCount == 0 && recent == []
      ensures slice == old(recent) && first == First(slice, DUMMY)
    {
      first, slice := recentHead, recent;
      recentHead, recentCount, recent := DUMMY, 0, [];
    }

    /** Takes a node that is not first out of the LRU list and appends it to the local list. */
    method MoveToLocal(node: int, last: int, ghost moved: seq<int>)
      requires Shape() && LruOk() && InRange(moved, capacity)
      requires Doubly(lruNext[..], lruPrev[..], [LOCAL] + moved, {}) && last == ([LOCAL] + moved)[|moved|]
      requires node in lru && node != lru[0]
      requires PoolOk() && Apart(moved, lru) && Apart(pool, lru) && Apart(pool, moved)
      modifies lruNext, lruPrev, `lru
      ensures LruOk() && lru == Without(old(lru), {node})
      ensures Doubly(lruNext[..], lruPrev[..], [LOCAL] + (moved + [node]), {})
      ensures PoolOk()
    {
      hide Chain, Distinct;
      ghost var path := Path(lru);
      ghost var i := IndexOf(lru, node);
      ghost var next', prev' := Transfer(lruNext[..], lruPrev[..], path, i + 1, [LOCAL] + moved);
      RemoveNodeFromLru(node, path, i + 1);
      lruNext[last] := node;
      lruPrev[node] := last;
      assert lruNext[..] == next' && lruPrev[..] == prev';
      Regroup([LOCAL], moved, [node]);
      ListDistinct(path, lru, HEAD, TAIL);
      WithoutIsDrop(lru, i);
      lru := Drop(lru, i);
      assert Drop(path, i + 1) == Path(lru);
      ChainFrame(old(lruNext[..]), lruNext[..], pool, NULL);
    }

    /** Clears the recent link of the first node of the slice and returns the next one. */
    method TakeFirst(node: int, ghost slice: seq<int>) returns (next: int)
      requires Stacked(recentNext[..], slice) && Distinct(slice) && slice != [] && node == slice[0]
      modifies recentNext
      ensures Stacked(recentNext[..], slice[1..]) && next == First(slice[1..], DUMMY)
    {
      ghost var links := recentNext[..];
      ChainTail(links, slice, DUMMY);
      next := recentNext[node];
      recentNext[node] := NULL;
      ChainFrame(links, recentNext[..], slice[1..], DUMMY);
    }

    /** State of the pulling loop: `done` nodes of the slice `all` are processed, `moved` of them are in the local list. */
    ghost predicate Pulling(lru0: seq<int>, all: seq<int>, moved: seq<int>, done: int, current: int, last: int)
      reads this, lruNext, lruPrev, recentNext
    {
      && Shape() && LruOk() && PoolOk()
      && Moving(lru0, all, moved, done) && InRange(lru0, capacity) && Apart(pool, lru0)
      && lru == Without(lru0, Elements(moved))
      && Stacked(recentNext[..], all[done..]) && current == First(all[done..], DUMMY)
      && Doubly(lruNext[..], lruPrev[..], [LOCAL] + moved, {}) && last == ([LOCAL] + moved)[|moved|]
    }

    /** Takes the current node out of the LRU list unless it is first there. */
    method MoveUnlessFirst(current: int, last: int, ghost lru0: seq<int>, ghost all: seq<int>, ghost moved: seq<int>,
                           ghost done: nat)
      returns (last': int, ghost moved': seq<int>)
      requires Pulling(lru0, all, moved, done, current, last) && done < |all| && current == all[done] && current in lru
      requires lru != [] && lru[0] == lru0[0]
      requires Apart(moved, lru) && Apart(pool, moved) && InRange(moved, capacity) && Apart(pool, lru)
      modifies `lru, lruNext, lruPrev
      ensures LruOk() && PoolOk() && lru == Without(lru0, Elements(moved'))
      ensures moved' == if all[done] == lru0[0] then moved else moved + [all[done]]
      ensures Doubly(lruNext[..], lruPrev[..], [LOCAL] + moved', {}) && last' == ([LOCAL] + moved')[|moved'|]
    {
      hide Doubly, Distinct, Marks, Chain, Moving;
      FirstHasHeadBehind(lruNext[..], lruPrev[..], lru, HEAD, TAIL, current);
      last', moved' := last, moved;
      if lruPrev[current] == HEAD {
        // skip this node
      } else {
        MoveToLocal(current, last, moved);
        WithoutOneMore(lru0, moved, current);
        last', moved' := current, moved + [current];
      }
    }

    method PullStep(current: int, last: int, ghost lru0: seq<int>, ghost all: seq<int>, ghost moved: seq<int>, ghost done: nat)
      returns (current': int, last': int, ghost moved': seq<int>)
      requires Pulling(lru0, all, moved, done, current, last) && current != DUMMY
      modifies `lru, lruNext, lruPrev, recentNext
      ensures done < |all| && Pulling(lru0, all, moved', done + 1, current', last')
    {
      hide Doubly, Distinct, Marks, Chain;
      MovingStep(lru0, all, moved, done, lru);
      MovingApart(lru0, all, moved, done, pool, capacity);
      last', moved' := MoveUnlessFirst(current, last, lru0, all, moved, done);
      current' := TakeFirst(current, all[done..]);
    }

    method PullLoop(first: int, ghost all: seq<int>) returns (last: int, ghost moved: seq<int>, ghost done: nat)
      requires Shape() && LruOk() && PoolOk() && Partition(lru, all, pool, {}, capacity)
      requires Stacked(recentNext[..], all) && first == First(all, DUMMY)
      modifies `lru, lruNext, lruPrev, recentNext
      ensures Pulling(old(lru), all, moved, done, DUMMY, last)
    {
      ghost var lru0 := lru;
      var current := first;
      last, moved, done := LOCAL, [], 0;
      StartMoving(lru0, all, pool, capacity);
      while current != DUMMY
        invariant Pulling(lru0, all, moved, done, current, last)
        decreases |all| - done
      {
        current, last, moved := PullStep(current, last, lru0, all, moved, done);
        done := done + 1;
      }
    }

    /** Moves the marked nodes to the front of the LRU list and clears all marks. */
    method PullRecent()
      requires Structure()
      modifies `recentHead, `recentCount, `recent, `lru, lruNext, lruPrev, recentNext
      ensures Structure()
      ensures lru == PullOrder(old(lru), old(recent)) && recent == []
      ensures key[..] == old(key[..]) && value[..] == old(value[..])
    {
      hide Doubly, Marks, Chain, Moving, Filed, Partition, PullOrder, Apart, InRange;
      ghost var lru0 := lru;
      PulledPartition(lru, recent, pool, capacity);
      var current; ghost var all;
      current, all := PopRecentListSlice();
      var last; ghost var moved, done;
      last, moved, done := PullLoop(current, all);
      SpliceMoved(last, lru0, all, moved, done);
      FiledPulled(chains, lru0, Slots(), all);
    }

    /** The end of a pull: if anything moved, the local list goes to the front in one splice. */
    method SpliceMoved(last: int, ghost lru0: seq<int>, ghost all: seq<int>, ghost moved: seq<int>, ghost done: nat)
      requires Pulling(lru0, all, moved, done, DUMMY, last)
      modifies `lru, lruNext, lruPrev
      ensures LruOk() && PoolOk() && Stacked(recentNext[..], [])
      ensures lru == PullOrder(lru0, all)
    {
      EndMoving(lru0, all, moved, done, pool, capacity);
      LocalList(lruNext[..], lruPrev[..], LOCAL, moved);
      if last != LOCAL {
        AddSublistToLruHead(lruNext[LOCAL], last, moved);
      }
    }

    method SearchBucket(k: K, b: int) returns (node: int)
      requires Shape() && ChainsOk() && 0 <= b < bucketHead.Length
      ensures InRange(chains[b], key.Length) && node == Lookup(chains[b], key[..], k)
    {
      ghost var chain := chains[b];
      ghost var i := 0;
      assert Chain(bucketNext[..], chain, NULL) && chain[0..] == chain;
      node := bucketHead[b];
      while node != NULL
        invariant 0 <= i <= |chain| && node == First(chain[i..], NULL)
        invariant InRange(chain[i..], key.Length) && Lookup(chain, key[..], k) == Lookup(chain[i..], key[..], k)
        decreases |chain| - i
      {
        LookupStep(chain, i, key[..], k);
        if key[node] == k {
          return;
        }
        assert bucketNext[..][chain[i]] == After(chain, i, NULL);
        node := bucketNext[node];
        i := i + 1;
      }
    }

    method AddNodeToBucket(node: int)
      requires Shape() && ChainsOk() && 0 <= node < capacity
      requires forall b :: 0 <= b < |chains| ==> node !in chains[b]
      modifies `chains, bucketNext, bucketHead
      ensures ChainsOk()
      ensures var b := BucketOf(key[node]); chains == old(chains)[b := [node] + old(chains)[b]]
    {
      var b := BucketOf(key[node]);
      PushBucket(bucketNext[..], bucketHead[..], chains, b, node);
      bucketNext[node] := bucketHead[b];
      bucketHead[b] := node;
      chains := chains[b := [node] + chains[b]];
    }

    /** Fails if the node is marked (unless that is allowed) or not in its bucket. */
    method RemoveNodeFromBucket(node: int, removeIfRecent: bool) returns (ok: bool)
      requires Shape() && ChainsOk() && 0 <= node < capacity
      modifies `chains, bucketNext, bucketHead
      ensures ChainsOk()
      ensures ok <==> (removeIfRecent || recentNext[node] == NULL) && node in old(chains)[BucketOf(key[node])]
      ensures !ok ==> chains == old(chains)
      ensures ok ==> var b := BucketOf(key[node]); chains == old(chains)[b := Without(old(chains)[b], {node})]
    {
      var b := BucketOf(key[node]);
      ghost var chain := chains[b];
      if !removeIfRecent && MarkedRecent(node) {
        return false;
      }
      if bucketHead[b] == node {
        assert chain[0] == node;
        CutBucketHead(bucketNext[..], bucketHead[..], chains, b);
        WithoutIsDrop(chain, 0);
        bucketHead[b] := bucketNext[node];
        bucketNext[node] := NULL;
        chains := chains[b := Drop(chain, 0)];
        return true;
      }
      var parent := bucketHead[b];
      ghost var i := 0;
      assert chain[0..] == chain && chain[..0] == [];
      while parent != NULL
        invariant 0 <= i <= |chain| && parent == First(chain[i..], NULL)
        invariant forall m :: 0 <= m <= i && m < |chain| ==> chain[m] != node
        decreases |chain| - i
      {
        assert bucketNext[..][chain[i]] == After(chain, i, NULL);
        if bucketNext[parent] == node {
          CutBucketInner(bucketNext[..], bucketHead[..], chains, b, i + 1);
          WithoutIsDrop(chain, i + 1);
          bucketNext[parent] := bucketNext[node];
          bucketNext[node] := NULL;
          chains := chains[b := Drop(chain, i + 1)];
          return true;
        }
        parent := bucketNext[parent];
        i := i + 1;
      }
      return false;
    }

    /** In a sequential run the compare-and-swap succeeds at once. */
    method DisposeNode(node: int)
      requires Shape() && LruOk() && PoolOk() && 0 <= node < capacity && node !in lru && node !in pool
      modifies `pool, `emptyHead, lruNext
      ensures LruOk() && PoolOk() && pool == [node] + old(pool)
    {
      ghost var before := lruNext[..];
      lruNext[node] := emptyHead;
      DoublyFrame(before, lruPrev[..], lruNext[..], lruPrev[..], Path(lru), {});
      ChainFrame(before, lruNext[..], pool, NULL);
      PushChain(lruNext[..], pool, NULL, node);
      emptyHead := node;
      pool := [node] + pool;
    }

    /** The body of the purge loop for one node that is not first: an unmarked node leaves its bucket and the LRU
        list, is handed to the deletion policy and becomes free. */
    method EvictUnlessMarked(node: int, ghost j: nat) returns (freed: bool)
      requires Structure() && 0 < j < |lru| && node == lru[j]
      modifies `lru, `pool, `emptyHead, `chains, `count, `deleted, lruNext, lruPrev, bucketNext, bucketHead
      ensures Structure()
      ensures freed <==> node !in recent
      ensures lru == if freed then Drop(old(lru), j) else old(lru)
      ensures pool == if freed then [node] + old(pool) else old(pool)
      ensures count == if freed then old(count) - 1 else old(count)
      ensures deleted == if freed then old(deleted) + [(key[node], value[node])] else old(deleted)
      ensures key[..] == old(key[..]) && value[..] == old(value[..])
    {
      hide Doubly, Chain, Distinct, Marks, Buckets;
      MarkedIff(recentNext[..], recent, node);
      if MarkedRecent(node) {
        return false;
      }
      ghost var lru0, chains0 := lru, chains;
      assert node in lru0;
      ChainCount(bucketNext[..], bucketHead[..], chains);
      freed := RemoveNodeFromBucket(node, false);
      FiledDropMarked(chains0, lru0, Slots(), j, recent);
      Reclaim(node, j);
    }

    method Reclaim(node: int, ghost j: nat)
      requires Shape() && LruOk() && RecentOk() && PoolOk() && Partition(lru, recent, pool, {}, capacity)
      requires 0 < j < |lru| && node == lru[j] && node !in recent
      modifies `lru, `pool, `emptyHead, `count, `deleted, lruNext, lruPrev
      ensures LruOk() && PoolOk() && Partition(lru, recent, pool, {}, capacity)
      ensures lru == Drop(old(lru), j) && pool == [node] + old(pool) && count == old(count) - 1
      ensures deleted == old(deleted) + [(key[node], value[node])]
    {
      hide Doubly, Chain, Distinct, Marks;
      PartitionEvict(lru, recent, pool, j, capacity);
      UnlinkVictim(node, j);
      deleted := deleted + [(key[node], value[node])];
      count := count - 1;
      DisposeNode(node);
    }

    method UnlinkVictim(node: int, ghost j: nat)
      requires Shape() && LruOk() && PoolOk() && Partition(lru, recent, pool, {}, capacity)
      requires 0 < j < |lru| && node == lru[j]
      modifies `lru, lruNext, lruPrev
      ensures LruOk() && PoolOk() && lru == Drop(old(lru), j) && node !in lru && node !in pool
    {
      hide Marks;
      ghost var path := Path(lru);
      ApartFromPool(lru, recent, pool, {}, capacity);
      ListDistinct(path, lru, HEAD, TAIL);
      DropKeeps(lru, j);
      DropInside(lru, j, HEAD, TAIL);
      assert forall x :: x in pool ==> 0 <= x < capacity;
      RemoveNodeFromLru(node, path, j + 1);
      ChainFrame(old(lruNext[..]), lruNext[..], pool, NULL);
      lru := Drop(lru, j);
    }

    /** State of the purging loop: the nodes of `lru0` from position `p` on are examined, `out` of them are evicted. */
    ghost predicate PurgeState(lru0: seq<int>, pool0: seq<int>, count0: int, deleted0: seq<(K, V)>,
                               out: seq<int>, p: int, node: int)
      reads this, lruNext, lruPrev, recentNext, bucketNext, bucketHead, key, value
    {
      && Structure() && InRange(lru0, capacity)
      && Purging(lru0, recent, out, p, lru)
      && node == (if p == 0 then HEAD else lru0[p - 1]) && (p == 0 ==> lru0 == [])
      && pool == out + pool0 && count == count0 - |out|
      && deleted == deleted0 + Reverse(Pairs(out, key[..], value[..]))
    }

    lemma PurgePredecessor(lru0: seq<int>, pool0: seq<int>, count0: int, deleted0: seq<(K, V)>,
                           out: seq<int>, p: int, node: int)
      requires PurgeState(lru0, pool0, count0, deleted0, out, p, node) && node != HEAD
      ensures 0 < p <= |lru0| && 0 <= node < lruPrev.Length
      ensures lruPrev[node] == if p == 1 then HEAD else lru0[p - 2]
      ensures p > 1 ==> lruPrev[node] != HEAD
    {
      hide Doubly, Chain, Marks;
      PurgingAt(lru0, recent, out, p, lru);
      BehindNode(lruNext[..], lruPrev[..], lru, HEAD, TAIL, p - 1);
      assert p > 1 ==> lru[..p][p - 2] == lru0[p - 2];
    }

    lemma PurgeNode(lru0: seq<int>, pool0: seq<int>, count0: int, deleted0: seq<(K, V)>, out: seq<int>, p: int, node: int)
      requires PurgeState(lru0, pool0, count0, deleted0, out, p, node) && p > 1
      ensures p <= |lru| && node == lru[p - 1] && 0 <= node < key.Length == value.Length
    {
      hide LruOk, RecentOk, PoolOk, ChainsOk, Partition, Filed;
      PurgingAt(lru0, recent, out, p, lru);
    }

    method PurgeStep(node: int, next: int, ghost lru0: seq<int>, ghost pool0: seq<int>, ghost count0: int,
                     ghost deleted0: seq<(K, V)>, ghost out: seq<int>, ghost p: int)
      returns (freed: bool, ghost out': seq<int>)
      requires PurgeState(lru0, pool0, count0, deleted0, out, p, node) && 1 < p <= |lru0| && next == lru0[p - 2]
      modifies `lru, `pool, `emptyHead, `chains, `count, `deleted, lruNext, lruPrev, bucketNext, bucketHead
      ensures PurgeState(lru0, pool0, count0, deleted0, out', p - 1, next)
      ensures |out'| == if freed then |out| + 1 else |out|
      ensures key[..] == old(key[..]) && value[..] == old(value[..])
    {
      hide Structure, Purging, InRange;
      PurgeNode(lru0, pool0, count0, deleted0, out, p, node);
      PurgingNext(lru0, recent, out, p, lru, capacity);
      PairsPush(node, out, key[..], value[..]);
      Regroup(deleted0, Reverse(Pairs(out, key[..], value[..])), [(key[node], value[node])]);
      Regroup([node], out, pool0);
      freed := EvictUnlessMarked(node, p - 1);
      out' := if freed then [node] + out else out;
    }

    lemma PurgeBegin()
      requires Structure()
      ensures 0 <= TAIL < lruPrev.Length && PurgeState(lru, pool, count, deleted, [], |lru|, lruPrev[TAIL])
    {
      hide Doubly, Chain, Marks, Distinct, Buckets, Filed, Stacked;
      StartPurging(lru, recent, pool, capacity);
      LastBehindTail(lruNext[..], lruPrev[..], lru, HEAD, TAIL);
      assert [] + pool == pool && deleted + [] == deleted;
    }

    lemma PurgeEnd(lru0: seq<int>, pool0: seq<int>, count0: int, deleted0: seq<(K, V)>, out: seq<int>, p: nat, node: int,
                   required: nat)
      requires PurgeState(lru0, pool0, count0, deleted0, out, p, node)
      requires |out| <= Max(required, 1) && (p <= 1 || |out| == Max(required, 1))
      ensures Structure() && lru == PurgeOrder(lru0, recent, required) && out == Victims(lru0, recent, required)
      ensures pool == out + pool0 && count == count0 - |out|
      ensures deleted == deleted0 + Reverse(Pairs(out, key[..], value[..]))
    {
      hide Structure, Victims, PurgeOrder, Purging;
      PurgingDone(lru0, recent, out, p, lru, required);
    }

    lemma HeadIsNoNode(lru0: seq<int>, pool0: seq<int>, count0: int, deleted0: seq<(K, V)>, out: seq<int>, p: int)
      requires PurgeState(lru0, pool0, count0, deleted0, out, p, HEAD)
      ensures p == 0
    {
      hide LruOk, RecentOk, PoolOk, ChainsOk, Partition, Filed;
    }

    /** Evicts unmarked nodes from the tail on, never the first node of the list. */
    method PurgeOld(requiredNodes: nat)
      requires Structure()
      modifies `lru, `pool, `emptyHead, `chains, `count, `deleted, lruNext, lruPrev, bucketNext, bucketHead
      ensures Structure()
      ensures lru == PurgeOrder(old(lru), recent, requiredNodes)
      ensures pool == Victims(old(lru), recent, requiredNodes) + old(pool)
      ensures count == old(count) - |Victims(old(lru), recent, requiredNodes)|
      ensures deleted == old(deleted) + Reverse(Pairs(Victims(old(lru), recent, requiredNodes), key[..], value[..]))
      ensures key[..] == old(key[..]) && value[..] == old(value[..])
    {
      hide PurgeState, Structure, Victims, PurgeOrder;
      var nodesFreed: nat := 0;
      var needed := if requiredNodes == 0 then 1 else requiredNodes;
      ghost var lru0, pool0, count0, deleted0, p, out := lru, pool, count, deleted, |lru|, [];
      PurgeBegin();
      var node := lruPrev[TAIL];
      while node != HEAD && nodesFreed < needed
        invariant PurgeState(lru0, pool0, count0, deleted0, out, p, node)
        invariant nodesFreed == |out| <= needed && 0 <= p
        invariant key[..] == old(key[..]) && value[..] == old(value[..])
        decreases p
      {
        PurgePredecessor(lru0, pool0, count0, deleted0, out, p, node);
        var next := lruPrev[node];
        if next == HEAD {
          break;
        }
        var freed;
        freed, out := PurgeStep(node, next, lru0, pool0, count0, deleted0, out, p);
        if freed {
          nodesFreed := nodesFreed + 1;
        }
        node := next;
        p := p - 1;
      }
      if node == HEAD {
        HeadIsNoNode(lru0, pool0, count0, deleted0, out, p);
      }
      PurgeEnd(lru0, pool0, count0, deleted0, out, p, node, requiredNodes);
    }

    /** Nobody else holds the consolidation lock in a sequential run. */
    method ConsolidateCache()
      requires Structure()
      modifies `lru, `recent, `recentHead, `recentCount, `pool, `emptyHead, `chains, `count, `deleted
      modifies `purgeRequest, `pullRequest
      modifies lruNext, lruPrev, recentNext, bucketNext, bucketHead
      ensures Structure() && !purgeRequest && !pullRequest
      ensures ConsolidatedFrom(old(purgeRequest), old(pullRequest), old(lru), old(recent), old(pool), old(count), old(deleted))
      ensures !old(purgeRequest) ==> chains == old(chains)
      ensures key[..] == old(key[..]) && value[..] == old(value[..])
    {
      hide Structure, PurgeOrder, PullOrder, Victims;
      NothingPurged();
      ghost var purge, lru0, recent0, pool0, count0, deleted0 := purgeRequest, lru, recent, pool, count, deleted;
      if purgeRequest {
        PurgeOld(purgeThreshold);
        purgeRequest := false;
      }
      assert ConsolidatedFrom(purge, false, lru0, recent0, pool0, count0, deleted0);
      if pullRequest {
        PullRecent();
        pullRequest := false;
      }
    }

    /** The effect of a consolidation: a purge if requested, then a pull if requested. */
    ghost predicate ConsolidatedFrom(purge: bool, pull: bool, lru0: seq<int>, recent0: seq<int>, pool0: seq<int>,
                                     count0: int, deleted0: seq<(K, V)>)
      reads `lru, `recent, `pool, `count, `deleted, `key, `value, key, value
    {
      var victims := if purge then Victims(lru0, recent0, purgeThreshold) else [];
      var purged := if purge then PurgeOrder(lru0, recent0, purgeThreshold) else lru0;
      && lru == (if pull then PullOrder(purged, recent0) else purged)
      && recent == (if pull then [] else recent0)
      && pool == victims + pool0
      && count == count0 - |victims|
      && deleted == deleted0 + Reverse(Pairs(victims, key[..], value[..]))
    }

    lemma NothingPurged()
      ensures ConsolidatedFrom(false, false, lru, recent, pool, count, deleted)
    {
      assert [] + pool == pool && deleted + [] == deleted;
    }

    method RequestPull()
      requires Structure() && !purgeRequest
      modifies `lru, `recent, `recentHead, `recentCount, `pool, `emptyHead, `chains, `count, `deleted
      modifies `purgeRequest, `pullRequest
      modifies lruNext, lruPrev, recentNext, bucketNext, bucketHead
      ensures Structure() && !purgeRequest && !pullRequest
      ensures ConsolidatedFrom(false, true, old(lru), old(recent), old(pool), old(count), old(deleted))
      ensures chains == old(chains)
    {
      hide LruOk, RecentOk, PoolOk, ChainsOk, Partition, Filed;
      pullRequest := true;
      ConsolidateCache();
    }

    method RequestPurge()
      requires Structure() && !pullRequest
      modifies `lru, `recent, `recentHead, `recentCount, `pool, `emptyHead, `chains, `count, `deleted
      modifies `purgeRequest, `pullRequest
      modifies lruNext, lruPrev, recentNext, bucketNext, bucketHead
      ensures Structure() && !purgeRequest && !pullRequest
      ensures ConsolidatedFrom(true, false, old(lru), old(recent), old(pool), old(count), old(deleted))
      ensures key[..] == old(key[..]) && value[..] == old(value[..])
    {
      hide LruOk, RecentOk, PoolOk, ChainsOk, Partition, Filed;
      purgeRequest := true;
      ConsolidateCache();
    }

    /** The values of what the operations are about. */
    ghost predicate Valid()
      reads this, lruNext, lruPrev, recentNext, bucketNext, bucketHead, key, value
    {
      && Structure() && count == |lru|
      && !pullRequest && !purgeRequest && recentCount < pullThreshold
      && Balance() == inserted
    }

    /** The pairs handed to the deletion policy and the pairs cached. */
    ghost function Balance(): multiset<(K, V)>
      reads `deleted, `lru, `key, `value, key, value
    {
      multiset(deleted) + multiset(Pairs(lru, key[..], value[..]))
    }

    function Parameters(): Params {
      Params(capacity, pullThreshold, purgeThreshold)
    }

    ghost function Nodes(): Cache<int>
      reads `lru, `recent
    {
      Cache(lru, recent)
    }

    /** The node a search for the key finds, NULL if there is none. */
    ghost function Holder(k: K): (n: int)
      requires Structure()
      reads this, lruNext, lruPrev, recentNext, bucketNext, bucketHead, key
      ensures n == NULL || (n in lru && 0 <= n < capacity && key[n] == k)
      ensures n == NULL ==> forall x :: x in lru ==> 0 <= x < capacity && key[x] != k
    {
      ChainRange(bucketNext[..], bucketHead[..], chains, BucketOf(k));
      assert forall i :: 0 <= i < |lru| ==> lru[i] in lru;
      Lookup(chains[BucketOf(k)], key[..], k)
    }

    method MarkFound(node: int)
      requires Structure() && node in lru && 0 <= node < capacity
      modifies `recentHead, `recentCount, `recent, recentNext
      ensures Structure()
      ensures recent == if node in old(recent) then old(recent) else [node] + old(recent)
      ensures recentCount == |recent|
      ensures key[..] == old(key[..]) && value[..] == old(value[..]) && Balance() == old(Balance())
    {
      hide Doubly, Chain, Filed, Buckets;
      MarkNodeRecent(node);
    }

    /** The end of a find: a pull if the Recent stack has reached its threshold. */
    method PullAtThreshold()
      requires Structure() && !purgeRequest && !pullRequest && pullThreshold > 0
      modifies `lru, `recent, `recentHead, `recentCount, `pool, `emptyHead, `chains, `count, `deleted
      modifies `purgeRequest, `pullRequest
      modifies lruNext, lruPrev, recentNext, bucketNext, bucketHead
      ensures Structure() && !purgeRequest && !pullRequest && recentCount < pullThreshold
      ensures Nodes() == if old(recentCount) >= pullThreshold then Cache(PullOrder(old(lru), old(recent)), []) else old(Nodes())
      ensures pool == old(pool) && chains == old(chains) && count == old(count) && deleted == old(deleted)
      ensures |lru| == old(|lru|)
      ensures key[..] == old(key[..]) && value[..] == old(value[..])
      ensures Balance() == old(Balance())
    {
      hide LruOk, PoolOk, ChainsOk, Filed, Stacked, PullOrder, Marks;
      PairsPulled(lru, recent, pool, capacity, key[..], value[..]);
      if recentCount >= pullThreshold {
        RequestPull();
      }
    }

    method Probe(k: K) returns (node: int, r: Option<V>)
      requires Structure()
      ensures node == Holder(k)
      ensures node != NULL ==> 0 <= node < value.Length
      ensures r == if node == NULL then None else Some(value[..][node])
    {
      hide LruOk, PoolOk, RecentOk, Partition, Filed, Buckets;
      ghost var holder := Holder(k);
      node := SearchBucket(k, BucketOf(k));
      r := if node == NULL then None else Some(value[node]);
    }

    lemma NullOutside()
      requires Structure()
      ensures NULL !in lru && NULL !in recent && recentCount == |recent|
    {
      hide Doubly, Filed;
    }

    method Find(k: K) returns (r: Option<V>)
      requires Valid() && pullThreshold > 0
      modifies `lru, `recent, `recentHead, `recentCount, `pool, `emptyHead, `chains, `count, `deleted
      modifies `purgeRequest, `pullRequest
      modifies lruNext, lruPrev, recentNext, bucketNext, bucketHead
      ensures Valid()
      ensures old(Holder(k)) != NULL ==> 0 <= old(Holder(k)) < value.Length
      ensures r == if old(Holder(k)) == NULL then None else Some(old(value[..])[old(Holder(k))])
      ensures key[..] == old(key[..]) && value[..] == old(value[..])
      ensures Nodes() == DeferredPolicy.Find(Parameters(), old(Nodes()), old(Holder(k)))
      ensures pool == old(pool) && chains == old(chains) && count == old(count) && deleted == old(deleted)
    {
      hide Structure, PullOrder, Balance;
      NullOutside();
      ghost var holder := Holder(k);
      var node;
      node, r := Probe(k);
      if node != NULL {
        MarkFound(node);
      }
      PullAtThreshold();
    }

    ghost function Free(): Arena<int>
      reads `lru, `recent, `pool
    {
      Arena(lru, recent, pool)
    }

    /** The structure while one node is in neither the pool nor the LRU list. */
    ghost predicate StructureBut(node: int)
      reads `lruNext, `lruPrev, `recentNext, `bucketNext, `bucketHead, `key, `value, `lru, `recent, `pool, `chains,
            `emptyHead, `recentHead, `recentCount, lruNext, lruPrev, recentNext, bucketNext, bucketHead, key
    {
      && Shape() && LruOk() && RecentOk() && PoolOk() && ChainsOk() && 0 <= node < capacity
      && Partition(lru, recent, pool, {node}, capacity) && Filed(chains, lru, Slots())
    }

    /** The effect of the allocation loop before the pop. */
    ghost predicate Awaited(from: Arena<int>, deleted0: seq<(K, V)>, balance0: multiset<(K, V)>, surplus: int)
      reads `lru, `recent, `pool, `count, `deleted, `key, `value, key, value
    {
      && Free() == Retry(from, purgeThreshold)
      && deleted == deleted0
         + Reverse(Pairs(if from.pool == [] then Victims(from.lru, from.recent, purgeThreshold) else [], key[..], value[..]))
      && count - |lru| == surplus && Balance() == balance0
    }

    /** The allocation loop: asks for a purge as long as there is no free node. */
    method AwaitFreeNode() returns (node: int)
      requires Structure() && !pullRequest && !purgeRequest && CanAllocate(Free())
      modifies `lru, `recent, `recentHead, `recentCount, `pool, `emptyHead, `chains, `count, `deleted
      modifies `purgeRequest, `pullRequest
      modifies lruNext, lruPrev, recentNext, bucketNext, bucketHead
      ensures Structure() && !pullRequest && !purgeRequest && pool != [] && node == emptyHead
      ensures Awaited(old(Free()), old(deleted), old(Balance()), old(count - |lru|))
      ensures key[..] == old(key[..]) && value[..] == old(value[..])
    {
      hide Structure, PurgeOrder, Victims, Candidates, Balance;
      ghost var all, deleted0, balance0, surplus := Free(), deleted, Balance(), count - |lru|;
      FreeHead();
      node := emptyHead;
      while node == NULL
        invariant Structure() && !pullRequest && !purgeRequest
        invariant node == emptyHead && (node == NULL <==> pool == [])
        invariant pool == [] ==> Free() == all && deleted == deleted0 && Balance() == balance0 && count - |lru| == surplus
        invariant pool != [] ==> Awaited(all, deleted0, balance0, surplus)
        invariant key[..] == old(key[..]) && value[..] == old(value[..])
        decreases pool == []
      {
        PurgeOnce();
        FreeHead();
        node := emptyHead;
      }
    }

    /** One retry of the allocation loop. */
    method PurgeOnce()
      requires Structure() && !pullRequest && !purgeRequest && CanAllocate(Free()) && pool == []
      modifies `lru, `recent, `recentHead, `recentCount, `pool, `emptyHead, `chains, `count, `deleted
      modifies `purgeRequest, `pullRequest
      modifies lruNext, lruPrev, recentNext, bucketNext, bucketHead
      ensures Structure() && !pullRequest && !purgeRequest && pool != []
      ensures Awaited(old(Free()), old(deleted), old(Balance()), old(count - |lru|))
      ensures key[..] == old(key[..]) && value[..] == old(value[..])
    {
      hide Structure, PurgeOrder, Victims, Candidates, Retry, CanAllocate;
      RetryPurges(lru, recent, purgeThreshold);
      PurgedPairs(purgeThreshold);
      RequestPurge();
    }

    lemma FreeHead()
      requires Structure()
      ensures emptyHead == NULL <==> pool == []
    {
      hide Doubly, Stacked, Buckets, Filed, Marks, Partition;
      FirstFree(lruNext[..], pool);
    }

    method AllocateNode() returns (node: int)
      requires Structure() && !pullRequest && !purgeRequest && CanAllocate(Free())
      modifies `lru, `recent, `recentHead, `recentCount, `pool, `emptyHead, `chains, `count, `deleted
      modifies `purgeRequest, `pullRequest
      modifies lruNext, lruPrev, recentNext, bucketNext, bucketHead
      ensures StructureBut(node) && !pullRequest && !purgeRequest
      ensures Arena(lru, recent, [node] + pool) == Retry(old(Free()), purgeThreshold)
      ensures key[..] == old(key[..]) && value[..] == old(value[..])
      ensures deleted == old(deleted)
        + Reverse(Pairs(if old(pool) == [] then Victims(old(lru), old(recent), purgeThreshold) else [], key[..], value[..]))
      ensures count - |lru| == old(count - |lru|) && Balance() == old(Balance())
      ensures node !in lru && 0 <= node < capacity && recentCount == |recent|
    {
      hide Structure, StructureBut, Victims, PurgeOrder, Candidates, Balance, Retry;
      node := AwaitFreeNode();
      PopPool(node);
      LooseOutside(node);
    }

    method PopPool(node: int)
      requires Structure() && pool != [] && node == emptyHead
      modifies `pool, `emptyHead
      ensures StructureBut(node) && [node] + pool == old(pool)
      ensures Free().(pool := old(pool)) == old(Free())
    {
      hide Doubly, Stacked, Filed, Marks;
      ChainTail(lruNext[..], pool, NULL);
      emptyHead := lruNext[node];
      PartitionPop(lru, recent, pool, capacity);
      pool := pool[1..];
    }

    method FillNode(node: int, k: K, v: V)
      requires StructureBut(node)
      modifies key, value, recentNext
      ensures Shape() && LruOk() && PoolOk() && ChainsOk() && Filed(chains, lru, Slots())
      ensures key[..] == old(key[..])[node := k] && value[..] == old(value[..])[node := v]
      ensures recentNext[..] == old(recentNext[..])[node := DUMMY]
    {
      hide Doubly, Stacked, Chain, Partition, Buckets;
      FiledRekey(chains, lru, recent, pool, Slots(), node, BucketOf(k), capacity);
      ghost var slots := Slots();
      key[node] := k;
      value[node] := v;
      // prevents the node from being marked while it is not in the LRU list
      recentNext[node] := DUMMY;
      assert Slots() == slots[node := BucketOf(k)];
    }

    method FileNode(node: int)
      requires Shape() && LruOk() && PoolOk() && ChainsOk() && Filed(chains, lru, Slots())
      requires Partition(lru, recent, pool, {node}, capacity) && 0 <= node < capacity
      modifies `lru, `chains, lruNext, lruPrev, bucketNext, bucketHead
      ensures LruOk() && PoolOk() && ChainsOk() && Filed(chains, lru, Slots())
      ensures lru == [node] + old(lru) && Partition(lru, recent, pool, {}, capacity)
    {
      hide Doubly, Chain, Partition, Buckets, Distinct;
      PartitionPush(lru, recent, pool, node, capacity);
      ChainCount(bucketNext[..], bucketHead[..], chains);
      FiledPush(chains, lru, Slots(), node);
      AddNodeToBucket(node);
      Singleton(lruNext[..], lruPrev[..], node);
      AddSublistToLruHead(node, node, [node]);
    }

    /** Initializes a free node and publishes it: bucket first, then LRU list; only then it can be marked. */
    method PublishNode(node: int, k: K, v: V)
      requires StructureBut(node)
      modifies `lru, `chains, lruNext, lruPrev, recentNext, bucketNext, bucketHead, key, value
      ensures Structure() && lru == [node] + old(lru)
      ensures key[..] == old(key[..])[node := k] && value[..] == old(value[..])[node := v]
      ensures Balance() == old(Balance()) + multiset{(k, v)}
    {
      hide Doubly, Chain, Partition, Buckets, Distinct, Filed, Stacked;
      LooseOutside(node);
      PairsWrite(node, lru, key[..], value[..], k, v);
      UnmarkedLoose(recentNext[..], lru, recent, pool, node, capacity);
      FillNode(node, k, v);
      FileNode(node);
      recentNext[node] := NULL;
      assert recentNext[..] == old(recentNext[..]);
    }

    /** Inserts a pair; ends exactly when there is something to allocate. The node used is returned for the contract. */
    method Insert(k: K, v: V) returns (ghost node: int)
      requires Valid() && CanAllocate(Free())
      modifies `lru, `recent, `recentHead, `recentCount, `pool, `emptyHead, `chains, `count, `deleted, `inserted
      modifies `purgeRequest, `pullRequest
      modifies lruNext, lruPrev, recentNext, bucketNext, bucketHead, key, value
      ensures Valid() && inserted == old(inserted) + multiset{(k, v)}
      ensures Nodes() == DeferredPolicy.Insert(Parameters(), old(Nodes()), node)
      ensures 0 <= node < capacity && node !in MakeRoom(Parameters(), old(Nodes())).lru
      ensures key[..] == old(key[..])[node := k] && value[..] == old(value[..])[node := v]
      ensures deleted == old(deleted)
        + Reverse(Pairs(if old(|lru|) >= capacity then Victims(old(lru), old(recent), purgeThreshold) else [], old(key[..]), old(value[..])))
    {
      hide Structure, StructureBut, Victims, PurgeOrder, Candidates, CanAllocate, Balance, Retry, MakeRoom;
      FullIffPoolEmpty();
      RoomIsRetry(lru, recent, pool, Parameters());
      count := count + 1;
      var n := AllocateNode();
      node := n;
      PublishNode(n, k, v);
      inserted := inserted + multiset{(k, v)};
    }

    lemma FullIffPoolEmpty()
      requires Structure()
      ensures pool == [] <==> |lru| >= capacity
      ensures key.Length == value.Length == capacity && recentCount == |recent|
    {
      hide Doubly, Stacked, Chain, Buckets, Filed, Marks;
    }

    lemma LooseOutside(node: int)
      requires StructureBut(node)
      ensures node !in lru && 0 <= node < capacity == key.Length == value.Length && recentCount == |recent|
    {
      hide Doubly, Stacked, Chain, Buckets, Filed, Marks;
    }

    lemma PurgedPairs(required: nat)
      requires Structure()
      ensures var v := Victims(lru, recent, required); var o := PurgeOrder(lru, recent, required);
        && |o| == |lru| - |v|
        && multiset(Pairs(lru, key[..], value[..]))
           == multiset(Pairs(o, key[..], value[..])) + multiset(Reverse(Pairs(v, key[..], value[..])))
    {
      hide LruOk, RecentOk, PoolOk, ChainsOk, Filed;
      PairsPurged(lru, recent, required, key[..], value[..]);
    }

    /** The cache as its user sees it. */
    ghost function Keys(): Cache<K>
      reads `lru, `recent, `key, key
    {
      LabelCache(Nodes(), key[..])
    }

    ghost predicate OneNodePerKey()
      reads `lru, `recent, `key, key
    {
      Named(lru, key[..]) && Within(recent, lru)
    }

    /** The keys handed to the deletion policy, in order. */
    ghost function DeletedKeys(): seq<K>
      reads `deleted
    {
      Firsts(deleted)
    }

    /** Every cached value is what the function gives for its key. */
    ghost predicate Computes(f: K -> V)
      reads `lru, `key, `value, key, value
    {
      forall x :: x in lru && 0 <= x < key.Length && x < value.Length ==> value[x] == f(key[x])
    }

    lemma HolderIsLabel(k: K)
      requires Structure() && OneNodePerKey()
      ensures Holder(k) != NULL <==> k in Keys().lru
      ensures Holder(k) == NULL ==> Holder(k) !in lru
    {
      hide LruOk, RecentOk, PoolOk, ChainsOk, Partition, Filed, Lookup;
      NullOutside();
      LabelAt(lru, key[..]);
      if Holder(k) == NULL {
        assert forall i :: 0 <= i < |lru| ==> lru[i] in lru;
      } else {
        var i := IndexOf(lru, Holder(k));
        assert Label(lru, key[..])[i] == k;
      }
    }

    /** Looks the key up, otherwise computes the value and caches it. For a producer that is a function of the key, the
        value delivered is the value of that function, whatever was evicted before. */
    method ConsumeCachedOrCompute(k: K, producer: () -> V, ghost f: K -> V) returns (v: V)
      requires Valid() && OneNodePerKey() && pullThreshold > 0
      requires k in Keys().lru || CanAllocate(Free())
      modifies `lru, `recent, `recentHead, `recentCount, `pool, `emptyHead, `chains, `count, `deleted, `inserted
      modifies `purgeRequest, `pullRequest
      modifies lruNext, lruPrev, recentNext, bucketNext, bucketHead, key, value
      ensures Valid() && OneNodePerKey()
      ensures Keys() == Access(Parameters(), old(Keys()), k)
      ensures inserted == if k in old(Keys()).lru then old(inserted) else old(inserted) + multiset{(k, producer())}
      ensures k !in old(Keys()).lru ==> v == producer()
      ensures DeletedKeys() == old(DeletedKeys()) + Evicted(Parameters(), old(Keys()), k)
      ensures old(Computes(f)) && producer() == f(k) ==> Computes(f) && v == f(k)
    {
      hide Structure, Balance, CanAllocate, DeferredPolicy.Find, DeferredPolicy.Insert, LabelCache, Named, Within,
           Victims;
      var r := FindKey(k, f);
      match r
      case Some(x) =>
        return x;
      case None =>
        v := producer();
        InsertKey(k, v, f);
    }

    /** Below the capacity, the pull threshold leaves room for every insertion. */
    lemma AlwaysRoom()
      requires Valid() && pullThreshold < capacity
      ensures CanAllocate(Free())
    {
      hide LruOk, PoolOk, ChainsOk, Filed, Stacked;
      CandidatesBound(lru, recent);
      FullIffPoolEmpty();
    }

    lemma StartsEmpty(f: K -> V)
      requires lru == [] && recent == [] && deleted == []
      ensures OneNodePerKey() && Computes(f) && Keys() == Cache([], []) && DeletedKeys() == []
    {
    }

    /** A find, seen through the keys. */
    method FindKey(k: K, ghost f: K -> V) returns (r: Option<V>)
      requires Valid() && OneNodePerKey() && pullThreshold > 0
      modifies `lru, `recent, `recentHead, `recentCount, `pool, `emptyHead, `chains, `count, `deleted
      modifies `purgeRequest, `pullRequest
      modifies lruNext, lruPrev, recentNext, bucketNext, bucketHead
      ensures Valid() && OneNodePerKey() && inserted == old(inserted)
      ensures Keys() == DeferredPolicy.Find(Parameters(), old(Keys()), k)
      ensures r.Some? <==> k in old(Keys()).lru
      ensures r == None ==> Keys() == old(Keys()) && Free() == old(Free())
      ensures old(Computes(f)) ==> Computes(f) && (r.Some? ==> r.value == f(k))
      ensures deleted == old(deleted)
    {
      hide Structure, DeferredPolicy.Find, Balance, CanAllocate;
      ghost var n := Holder(k);
      HolderIsLabel(k);
      FindEffect(k);
      r := Find(k);
      NamedWithin(lru, old(lru), key[..]);
    }

    lemma FindEffect(k: K)
      requires Valid() && OneNodePerKey() && pullThreshold > 0
      ensures var c := DeferredPolicy.Find(Parameters(), Nodes(), Holder(k));
        && LabelCache(c, key[..]) == DeferredPolicy.Find(Parameters(), Keys(), k)
        && Within(c.lru, lru) && Within(c.recent, c.lru)
        && (Holder(k) == NULL ==> c == Nodes())
    {
      hide LruOk, PoolOk, ChainsOk, Filed, Stacked, Lookup, Moved, PullOrder;
      HolderIsLabel(k);
      FindQuiet(Parameters(), Nodes(), Holder(k));
      if Holder(k) == NULL {
        LabelMiss(Parameters(), Nodes(), NULL, k, key[..]);
      } else {
        LabelFind(Parameters(), Nodes(), Holder(k), key[..]);
      }
    }

    lemma InsertEffect(room: Cache<int>)
      requires Structure() && OneNodePerKey() && room == MakeRoom(Parameters(), Nodes())
      ensures Within(room.lru, lru) && Within(recent, room.lru) && room.recent == recent
    {
      hide LruOk, PoolOk, ChainsOk, Filed, Stacked, PurgeOrder, Victims;
      PurgeEffect(lru, recent, purgeThreshold);
    }

    /** An insertion of a key that is not cached, seen through the keys. */
    method InsertKey(k: K, v: V, ghost f: K -> V)
      requires Valid() && OneNodePerKey() && CanAllocate(Free()) && k !in Keys().lru
      modifies `lru, `recent, `recentHead, `recentCount, `pool, `emptyHead, `chains, `count, `deleted, `inserted
      modifies `purgeRequest, `pullRequest
      modifies lruNext, lruPrev, recentNext, bucketNext, bucketHead, key, value
      ensures Valid() && OneNodePerKey() && inserted == old(inserted) + multiset{(k, v)}
      ensures Keys() == DeferredPolicy.Insert(Parameters(), old(Keys()), k)
      ensures DeletedKeys() == old(DeletedKeys()) + Evicted(Parameters(), old(Keys()), k)
      ensures old(Computes(f)) && v == f(k) ==> Computes(f)
    {
      hide Structure, Balance, CanAllocate, MakeRoom, Victims, Named, Within, LabelCache, DeferredPolicy.Insert;
      ghost var keys, values, c := key[..], value[..], Nodes();
      ghost var room := MakeRoom(Parameters(), c);
      InsertEffect(room);
      FullIffPoolEmpty();
      EvictedLabels(lru, recent, Parameters(), k, deleted, key[..], value[..]);
      var node := Insert(k, v);
      InsertLabels(Parameters(), c, room, node, k, keys);
      if old(Computes(f)) && v == f(k) {
        ComputedInsert(Parameters(), c, room, node, keys, values, k, v, f);
      }
    }

    /** Nothing allocated: a cache of capacity 0, or one after the release of its memory. */
    ghost predicate Released()
      reads `bucketHead, `deleted, `inserted
    {
      bucketHead.Length == 0 && multiset(deleted) == inserted
    }

    constructor (capacity: nat, pullFactor: real, purgeFactor: real, loadFactor: nat, hash: K -> nat)
      requires pullFactor >= 0.0 && purgeFactor >= 0.0 && loadFactor > 0
      ensures this.capacity == capacity && this.hash == hash && deleted == [] && inserted == multiset{}
      ensures capacity == 0 ==> Released()
      ensures capacity > 0 ==>
        && Valid() && lru == [] && recent == [] && pool == Iota(capacity)
        && FewestBuckets(bucketHead.Length, capacity, loadFactor)
        && IsFraction(pullThreshold, pullFactor, capacity) && IsFraction(purgeThreshold, purgeFactor, capacity)
        && Parameters() == Params(capacity, Threshold(pullFactor, capacity), Threshold(purgeFactor, capacity))
        && fresh(lruNext) && fresh(lruPrev) && fresh(recentNext) && fresh(bucketNext) && fresh(bucketHead)
        && fresh(key) && fresh(value)
    {
      hide Threshold, Valid, IsFraction, FewestBuckets;
      BucketsRoundUp(capacity, loadFactor);
      this.capacity, this.hash := capacity, hash;
      HEAD, TAIL, LOCAL := capacity, capacity + 1, capacity + 2;
      pullThreshold := Threshold(pullFactor, capacity);
      purgeThreshold := Threshold(purgeFactor, capacity);
      count, recentCount := 0, 0;
      emptyHead, recentHead := NULL, DUMMY;
      pullRequest, purgeRequest := false, false;
      lru, recent, pool, chains := [], [], [], [];
      inserted, deleted := multiset{}, [];
      lruNext, lruPrev := new int[capacity + 3], new int[capacity + 3];
      recentNext := new int[capacity](_ => NULL);
      bucketNext := new int[capacity];
      bucketHead := new int[(capacity + loadFactor - 1) / loadFactor](_ => NULL);
      key, value := new K[capacity], new V[capacity];
      new;
      if capacity == 0 {
        return;
      }
      InitializeLists();
    }

    method InitializeLists()
      requires Shape() && lru == [] && recent == [] && deleted == [] && inserted == multiset{}
      requires count == recentCount == 0
      requires recentHead == DUMMY && !pullRequest && !purgeRequest && pullThreshold > 0
      requires forall x :: 0 <= x < recentNext.Length ==> recentNext[x] == NULL
      requires forall b :: 0 <= b < bucketHead.Length ==> bucketHead[b] == NULL
      modifies lruNext, lruPrev, `emptyHead, `pool, `chains
      ensures Valid() && pool == Iota(capacity)
    {
      hide LruOk, PoolOk, Partition, Valid;
      LinkEmptyLists();
      chains := seq(bucketHead.Length, i => []);
      FreshIsValid();
    }

    lemma FreshIsValid()
      requires Shape() && LruOk() && PoolOk() && Partition(lru, recent, pool, {}, capacity)
      requires lru == [] && recent == [] && deleted == [] && inserted == multiset{} && count == recentCount == 0
      requires recentHead == DUMMY && !pullRequest && !purgeRequest && pullThreshold > 0
      requires forall x :: 0 <= x < recentNext.Length ==> recentNext[x] == NULL
      requires forall b :: 0 <= b < bucketHead.Length ==> bucketHead[b] == NULL
      requires |chains| == bucketHead.Length && forall b :: 0 <= b < |chains| ==> chains[b] == []
      ensures Valid()
    {
      hide Doubly, Partition;
    }

    /** Links the empty LRU list and the pool of all nodes. */
    method LinkEmptyLists()
      requires Shape() && lru == [] && recent == []
      modifies lruNext, lruPrev, `emptyHead, `pool
      ensures LruOk() && PoolOk() && Partition(lru, recent, pool, {}, capacity) && pool == Iota(capacity)
    {
      hide Chain;
      lruPrev[HEAD], lruNext[HEAD] := NULL, TAIL;
      lruPrev[TAIL], lruNext[TAIL] := HEAD, NULL;
      emptyHead := 0;
      for i := 0 to capacity - 1
        invariant lruNext[HEAD] == TAIL && lruPrev[TAIL] == HEAD && emptyHead == 0
        invariant forall j :: 0 <= j < i ==> lruNext[j] == j + 1
      {
        lruNext[i] := i + 1;
      }
      lruNext[capacity - 1] := NULL;
      pool := Iota(capacity);
      FreshPool(lruNext[..], capacity);
      assert Path(lru) == [HEAD, TAIL];
    }

    /** Hands every cached pair to the deletion policy, bucket by bucket. */
    method SweepBuckets()
      requires Structure()
      modifies `deleted
      ensures deleted == old(deleted) + Pairs(Flat(chains), key[..], value[..])
    {
      hide LruOk, RecentOk, PoolOk, Partition, Filed;
      ghost var swept: seq<int> := [];
      assert deleted + [] == deleted && Flat(chains[..0]) == [];
      for b := 0 to bucketHead.Length
        invariant b <= |chains| == bucketHead.Length && swept == Flat(chains[..b])
        invariant deleted == old(deleted) + Pairs(swept, key[..], value[..])
      {
        SweepBucket(b, swept, old(deleted));
        FlatSnoc(chains, b);
        swept := swept + chains[b];
      }
      assert chains[..|chains|] == chains;
    }

    method SweepBucket(b: nat, ghost swept: seq<int>, ghost deleted0: seq<(K, V)>)
      requires Shape() && ChainsOk() && b < |chains| == bucketHead.Length
      requires deleted == deleted0 + Pairs(swept, key[..], value[..])
      modifies `deleted
      ensures deleted == deleted0 + Pairs(swept + chains[b], key[..], value[..])
    {
      hide Distinct, Apart;
      ghost var chain := chains[b];
      ghost var i := 0;
      assert Chain(bucketNext[..], chain, NULL) && chain[0..] == chain && swept + chain[..0] == swept;
      var node := bucketHead[b];
      while node != NULL
        invariant 0 <= i <= |chain| && node == First(chain[i..], NULL)
        invariant deleted == deleted0 + Pairs(swept + chain[..i], key[..], value[..])
        decreases |chain| - i
      {
        assert bucketNext[..][chain[i]] == After(chain, i, NULL);
        SweptOne(deleted0, swept, chain, i, key[..], value[..]);
        deleted := deleted + [(key[node], value[node])];
        node := bucketNext[node];
        i := i + 1;
      }
      assert chain[..i] == chain by { assert InRange(chain, capacity); }
    }

    /** Deletes everything that is cached, so that every pair inserted is deleted exactly once; a second release deletes
        nothing. */
    method ReleaseMemory()
      requires Valid() || Released()
      modifies `deleted, `lruNext, `lruPrev, `recentNext, `bucketNext, `bucketHead, `key, `value, `lru, `recent
      modifies `pool, `chains
      ensures Released() && inserted == old(inserted) && multiset(deleted) == inserted
      ensures old(Released()) ==> deleted == old(deleted)
    {
      hide Valid;
      Allocated();
      if bucketHead.Length > 0 {
        DeleteAll();
      }
      FreeArrays();
    }

    lemma Allocated()
      ensures Valid() ==> bucketHead.Length > 0
    {
      hide LruOk, RecentOk, PoolOk, ChainsOk, Filed, Partition;
    }

    method FreeArrays()
      modifies `lruNext, `lruPrev, `recentNext, `bucketNext, `bucketHead, `key, `value, `lru, `recent, `pool, `chains
      ensures bucketHead.Length == 0
    {
      lruNext, lruPrev, recentNext := new int[0], new int[0], new int[0];
      bucketNext, bucketHead := new int[0], new int[0];
      key, value := new K[0], new V[0];
      lru, recent, pool, chains := [], [], [], [];
    }

    method DeleteAll()
      requires Valid()
      modifies `deleted
      ensures multiset(deleted) == inserted
    {
      hide Structure;
      FlatIsLru();
      SweepBuckets();
    }

    lemma FlatIsLru()
      requires Structure()
      ensures multiset(Pairs(Flat(chains), key[..], value[..])) == multiset(Pairs(lru, key[..], value[..]))
    {
      hide RecentOk, PoolOk, Filed;
      ChainCount(bucketNext[..], bucketHead[..], chains);
      FlatMembers(bucketNext[..], bucketHead[..], chains, lru, Slots());
      PairsPermute(Flat(chains), lru, key[..], value[..]);
    }
  }

  lemma PulledPartition(lru: seq<int>, recent: seq<int>, pool: seq<int>, capacity: nat)
    requires Partition(lru, recent, pool, {}, capacity)
    ensures Partition(PullOrder(lru, recent), [], pool, {}, capacity)
    ensures Marks(lru, recent)
  {
    PullPermutes(lru, recent);
  }

  lemma PairsPulled<K, V>(lru: seq<int>, recent: seq<int>, pool: seq<int>, capacity: nat, keys: seq<K>, values: seq<V>)
    requires Partition(lru, recent, pool, {}, capacity)
    ensures multiset(Pairs(PullOrder(lru, recent), keys, values)) == multiset(Pairs(lru, keys, values))
    ensures |PullOrder(lru, recent)| == |lru|
  {
    PullPermutes(lru, recent);
    PairsPermute(PullOrder(lru, recent), lru, keys, values);
  }

  /** The keys an insertion evicts, seen through the keys. */
  lemma EvictedLabels<K(!new), V>(lru: seq<int>, recent: seq<int>, p: Params, k: K, deleted: seq<(K, V)>,
                                  keys: seq<K>, values: seq<V>)
    requires Named(lru, keys) && Within(recent, lru) && |keys| == |values|
    requires k !in LabelCache(Cache(lru, recent), keys).lru
    ensures var v := if |lru| >= p.capacity then Victims(lru, recent, p.purgeThreshold) else [];
      Firsts(deleted + Reverse(Pairs(v, keys, values)))
        == Firsts(deleted) + Evicted(p, LabelCache(Cache(lru, recent), keys), k)
  {
    var v := if |lru| >= p.capacity then Victims(lru, recent, p.purgeThreshold) else [];
    LabelVictims(lru, recent, p.purgeThreshold, keys);
    LabelAt(lru, keys);
    FirstsConcat(deleted, Reverse(Pairs(v, keys, values)));
    FirstsReverse(v, keys, values);
  }

  /** Progress of a purge: the nodes from position `p` on are examined, the unmarked ones among them are `out`. */
  ghost predicate Purging(lru0: seq<int>, recent: seq<int>, out: seq<int>, p: int, lru: seq<int>) {
    && Marks(lru0, recent) && 0 <= p <= |lru0|
    && out == Without(lru0[p..], Elements(recent))
    && lru == Without(lru0, Elements(out))
  }

  lemma StartPurging(lru: seq<int>, recent: seq<int>, pool: seq<int>, capacity: nat)
    requires Partition(lru, recent, pool, {}, capacity)
    ensures Purging(lru, recent, [], |lru|, lru)
  {
    assert Elements<int>([]) == {};
    WithoutNone(lru, {});
  }

  lemma PurgingAt(lru0: seq<int>, recent: seq<int>, out: seq<int>, p: nat, lru: seq<int>)
    requires Purging(lru0, recent, out, p, lru) && p > 0
    ensures p <= |lru| && lru[..p] == lru0[..p] && lru[p - 1] == lru0[p - 1]
  {
    assert lru0 == lru0[..p] + lru0[p..];
    WithoutMembers(lru0[p..], Elements(recent));
    WithoutConcat(lru0[..p], lru0[p..], Elements(out));
    WithoutNone(lru0[..p], Elements(out));
  }

  lemma PurgingNext(lru0: seq<int>, recent: seq<int>, out: seq<int>, p: nat, lru: seq<int>, capacity: nat)
    requires Purging(lru0, recent, out, p, lru) && p > 0 && InRange(lru0, capacity)
    ensures p <= |lru| && InRange(out, capacity) && 0 <= lru0[p - 1] < capacity
    ensures var node := lru0[p - 1];
      if node in recent then Purging(lru0, recent, out, p - 1, lru)
      else Purging(lru0, recent, [node] + out, p - 1, Drop(lru, p - 1))
  {
    var node := lru0[p - 1];
    PurgingAt(lru0, recent, out, p, lru);
    assert lru0[p - 1..] == [node] + lru0[p..];
    WithoutConcat([node], lru0[p..], Elements(recent));
    WithoutMembers(lru0[p..], Elements(recent));
    assert forall i :: 0 <= i < |out| ==> out[i] in lru0[p..];
    assert [node][1..] == [];
    if node !in recent {
      WithoutTwice(lru0, Elements(out), {node});
      assert Elements(out) + {node} == Elements([node] + out);
      WithoutDistinct(lru0, Elements(out));
      WithoutIsDrop(lru, p - 1);
    }
  }

  lemma PurgingDone(lru0: seq<int>, recent: seq<int>, out: seq<int>, p: nat, lru: seq<int>, required: nat)
    requires Purging(lru0, recent, out, p, lru) && |out| <= Max(required, 1)
    requires p <= 1 || |out| == Max(required, 1)
    requires p == 0 ==> lru0 == []
    ensures out == Victims(lru0, recent, required) && lru == PurgeOrder(lru0, recent, required)
  {
    if p > 0 {
      assert lru0[1..] == lru0[1..p] + lru0[p..];
      WithoutConcat(lru0[1..p], lru0[p..], Elements(recent));
    }
  }

  lemma BehindNode(next: seq<int>, prev: seq<int>, order: seq<int>, head: int, tail: int, j: nat)
    requires Doubly(next, prev, [head] + order + [tail], {}) && j < |order|
    ensures 0 <= order[j] < |prev|
    ensures prev[order[j]] == if j == 0 then head else order[j - 1]
    ensures prev[order[j]] == head <==> j == 0
  {
    var path := [head] + order + [tail];
    assert path[j + 1] == order[j] && prev[path[j + 1]] == path[j];
    assert path[0] == head;
  }

  lemma LastBehindTail(next: seq<int>, prev: seq<int>, order: seq<int>, head: int, tail: int)
    requires Doubly(next, prev, [head] + order + [tail], {})
    ensures 0 <= tail < |prev| && prev[tail] == if order == [] then head else order[|order| - 1]
    ensures forall x :: x in order ==> x != head
  {
    var path := [head] + order + [tail];
    var last := |order|;
    assert path[last + 1] == tail && prev[path[last + 1]] == path[last];
    forall x | x in order ensures x != head {
      var i := IndexOf(order, x);
      assert path[0] != path[i + 1];
    }
  }

  lemma ChainRange(next: seq<int>, heads: seq<int>, chains: seq<seq<int>>, b: nat)
    requires Buckets(next, heads, chains) && b < |heads|
    ensures b < |chains| && InRange(chains[b], |next|)
  {
  }

  lemma ChainCount(next: seq<int>, heads: seq<int>, chains: seq<seq<int>>)
    requires Buckets(next, heads, chains)
    ensures |chains| == |heads|
  {
  }

  lemma FiledPulled(chains: seq<seq<int>>, order: seq<int>, slots: seq<int>, marks: seq<int>)
    requires Filed(chains, order, slots) && Marks(order, marks)
    ensures Filed(chains, PullOrder(order, marks), slots)
  {
    PullPermutes(order, marks);
  }

  lemma FiledDropMarked(chains: seq<seq<int>>, order: seq<int>, slots: seq<int>, j: nat, marks: seq<int>)
    requires Filed(chains, order, slots) && j < |order| && Marks(order, marks)
    requires 0 <= order[j] < |slots| && 0 <= slots[order[j]] < |chains|
    ensures var b := slots[order[j]]; Filed(chains[b := Without(chains[b], {order[j]})], Drop(order, j), slots)
  {
    FiledDrop(chains, order, slots, j);
  }

  lemma ApartFromPool(lru: seq<int>, recent: seq<int>, pool: seq<int>, loose: set<int>, capacity: nat)
    requires Partition(lru, recent, pool, loose, capacity) && InRange(lru, capacity)
    ensures Apart(pool, lru) && Apart(lru, pool)
  {
    forall x | x in lru ensures x !in pool {
      var i := IndexOf(lru, x);
    }
  }

  lemma FiledRekey(chains: seq<seq<int>>, lru: seq<int>, recent: seq<int>, pool: seq<int>, slots: seq<int>, node: int,
                   b: int, capacity: nat)
    requires Filed(chains, lru, slots) && 0 <= node < |slots| == capacity
    requires Partition(lru, recent, pool, {node}, capacity)
    ensures Filed(chains, lru, slots[node := b])
  {
  }

  lemma PartitionPush(lru: seq<int>, recent: seq<int>, pool: seq<int>, node: int, capacity: nat)
    requires Partition(lru, recent, pool, {node}, capacity) && InRange(lru, capacity) && 0 <= node < capacity
    ensures Partition([node] + lru, recent, pool, {}, capacity)
    ensures node !in lru && node !in pool && Apart([node], lru) && Apart(pool, lru) && Apart(pool, [node])
  {
    ApartFromPool(lru, recent, pool, {node}, capacity);
    assert Distinct([node] + lru);
  }

  lemma UnmarkedLoose(recentNext: seq<int>, lru: seq<int>, recent: seq<int>, pool: seq<int>, node: int, capacity: nat)
    requires Partition(lru, recent, pool, {node}, capacity) && Stacked(recentNext, recent)
    requires 0 <= node < |recentNext| == capacity
    ensures recentNext[node] == NULL
  {
  }

  lemma Singleton(next: seq<int>, prev: seq<int>, node: int)
    requires 0 <= node < |next| == |prev|
    ensures Doubly(next, prev, [node], {})
  {
  }

  lemma RoomIsRetry(lru: seq<int>, recent: seq<int>, pool: seq<int>, p: Params)
    requires pool == [] <==> |lru| >= p.capacity
    ensures MakeRoom(p, Cache(lru, recent)) == Cache(Retry(Arena(lru, recent, pool), p.purgeThreshold).lru, recent)
    ensures Retry(Arena(lru, recent, pool), p.purgeThreshold).recent == recent
  {
  }

  lemma FreshPool(next: seq<int>, capacity: nat)
    requires capacity > 0 && |next| >= capacity && next[capacity - 1] == NULL
    requires forall j :: 0 <= j < capacity - 1 ==> next[j] == j + 1
    ensures var pool := Iota(capacity);
      && Chain(next, pool, NULL) && InRange(pool, capacity) && First(pool, NULL) == 0
      && Partition([], [], pool, {}, capacity)
  {
    IotaChain(next, capacity);
  }

  /** All chains one after the other. */
  function Flat(chains: seq<seq<int>>): seq<int> {
    if chains == [] then [] else chains[0] + Flat(chains[1..])
  }

  lemma {:induction false} FlatConcat(a: seq<seq<int>>, b: seq<seq<int>>)
    ensures Flat(a + b) == Flat(a) + Flat(b)
  {
    if a == [] {
      assert a + b == b;
    } else {
      assert (a + b)[1..] == a[1..] + b;
      FlatConcat(a[1..], b);
    }
  }

  lemma FlatSnoc(chains: seq<seq<int>>, b: nat)
    requires b < |chains|
    ensures Flat(chains[..b + 1]) == Flat(chains[..b]) + chains[b]
  {
    assert chains[..b + 1] == chains[..b] + [chains[b]];
    FlatConcat(chains[..b], [chains[b]]);
    assert [chains[b]][1..] == [];
  }

  ghost predicate InSome(chains: seq<seq<int>>, n: nat, x: int)
    requires n <= |chains|
  {
    exists b :: 0 <= b < n && x in chains[b]
  }

  lemma {:induction false} FlatDistinct(chains: seq<seq<int>>, n: nat)
    requires n <= |chains|
    requires forall b :: 0 <= b < |chains| ==> Distinct(chains[b])
    requires forall b, c :: 0 <= b < |chains| && 0 <= c < |chains| && b != c ==> Apart(chains[b], chains[c])
    ensures Distinct(Flat(chains[..n]))
    ensures forall x :: x in Flat(chains[..n]) <==> InSome(chains, n, x)
  {
    if n > 0 {
      FlatDistinct(chains, n - 1);
      FlatSnoc(chains, n - 1);
      var before, last := Flat(chains[..n - 1]), chains[n - 1];
      forall x | x in before ensures x !in last {
        var b :| 0 <= b < n - 1 && x in chains[b];
        assert Apart(chains[b], last);
      }
      DistinctConcat(before, last);
    }
  }

  lemma FlatMembers(next: seq<int>, heads: seq<int>, chains: seq<seq<int>>, lru: seq<int>, slots: seq<int>)
    requires Buckets(next, heads, chains) && Filed(chains, lru, slots) && InRange(lru, |slots|) && |next| == |slots|
    requires forall x :: 0 <= x < |slots| ==> 0 <= slots[x] < |chains|
    ensures Distinct(Flat(chains)) && forall x :: x in Flat(chains) <==> x in lru
  {
    assert chains[..|chains|] == chains;
    FlatDistinct(chains, |chains|);
    forall x | x in lru ensures x in Flat(chains) {
      var i := IndexOf(lru, x);
      assert x in chains[slots[x]];
    }
    forall x | x in Flat(chains) ensures x in lru {
      ChainMemberLive(next, heads, chains, lru, slots, x);
    }
  }

  lemma ChainMemberLive(next: seq<int>, heads: seq<int>, chains: seq<seq<int>>, lru: seq<int>, slots: seq<int>, x: int)
    requires Buckets(next, heads, chains) && Filed(chains, lru, slots) && |next| == |slots|
    requires InSome(chains, |chains|, x)
    ensures x in lru
  {
    hide Buckets;
    var b :| 0 <= b < |chains| && x in chains[b];
    ChainCount(next, heads, chains);
    ChainRange(next, heads, chains, b);
    var i := IndexOf(chains[b], x);
  }

  lemma PartitionPop(lru: seq<int>, recent: seq<int>, pool: seq<int>, capacity: nat)
    requires Partition(lru, recent, pool, {}, capacity) && pool != []
    ensures Partition(lru, recent, pool[1..], {pool[0]}, capacity)
    ensures [pool[0]] + pool[1..] == pool
  {
    assert forall x :: x in pool <==> x == pool[0] || x in pool[1..];
    assert pool[0] !in pool[1..];
  }

  lemma RetryPurges(lru: seq<int>, recent: seq<int>, required: nat)
    ensures CanAllocate(Arena(lru, recent, [])) ==> Victims(lru, recent, required) != []
    ensures Retry(Arena(lru, recent, []), required)
            == Arena(PurgeOrder(lru, recent, required), recent, Victims(lru, recent, required))
  {
  }

  lemma FirstFree(next: seq<int>, pool: seq<int>)
    requires Chain(next, pool, NULL)
    ensures First(pool, NULL) == NULL <==> pool == []
  {
  }

  lemma PartitionEvict(lru: seq<int>, recent: seq<int>, pool: seq<int>, j: nat, capacity: nat)
    requires Partition(lru, recent, pool, {}, capacity) && InRange(lru, capacity)
    requires j < |lru| && lru[j] !in recent
    ensures Partition(Drop(lru, j), recent, [lru[j]] + pool, {}, capacity)
  {
    DropKeeps(lru, j);
    ApartFromPool(lru, recent, pool, {}, capacity);
    assert lru[j] in lru;
    assert Marks(Drop(lru, j), recent);
    assert Distinct([lru[j]] + pool);
  }

  lemma StartMoving(lru0: seq<int>, all: seq<int>, pool: seq<int>, capacity: nat)
    requires Partition(lru0, all, pool, {}, capacity) && InRange(lru0, capacity)
    ensures Moving(lru0, all, [], 0) && Apart(pool, lru0) && Without(lru0, Elements<int>([])) == lru0
    ensures all[0..] == all
  {
    assert Elements<int>([]) == {};
    WithoutNone(lru0, {});
    forall x | x in pool ensures x !in lru0 {
      if x in lru0 { var i := IndexOf(lru0, x); }
    }
  }

  lemma EndMoving(lru0: seq<int>, all: seq<int>, moved: seq<int>, done: nat, pool: seq<int>, capacity: nat)
    requires Moving(lru0, all, moved, done) && InRange(lru0, capacity) && Apart(pool, lru0)
    requires First(all[done..], DUMMY) == DUMMY && InRange(all[done..], capacity)
    ensures done == |all| && all[done..] == [] && moved == Moved(lru0, all)
    ensures Apart(moved, Without(lru0, Elements(moved))) && Apart(pool, moved) && InRange(moved, capacity)
    ensures Apart(pool, Without(lru0, Elements(moved)))
    ensures PullOrder(lru0, all) == moved + Without(lru0, Elements(moved))
  {
    MovingApart(lru0, all, moved, done, pool, capacity);
    assert all[done..] == [];
    assert all[..done] == all;
    assert forall x :: x in lru0 ==> 0 <= x;
    assert forall i :: 0 <= i < |all| ==> all[i] in lru0;
  }

  lemma WithoutOneMore(lru0: seq<int>, moved: seq<int>, x: int)
    ensures Without(Without(lru0, Elements(moved)), {x}) == Without(lru0, Elements(moved + [x]))
  {
    WithoutTwice(lru0, Elements(moved), {x});
    assert Elements(moved) + {x} == Elements(moved + [x]);
  }

  lemma LocalList(next: seq<int>, prev: seq<int>, local: int, moved: seq<int>)
    requires Doubly(next, prev, [local] + moved, {})
    ensures 0 <= local < |next| && Doubly(next, prev, moved, {}) && next[local] == First(moved, next[local])
    ensures ([local] + moved)[|moved|] == if moved == [] then local else moved[|moved| - 1]
  {
    var path := [local] + moved;
    DoublyTail(next, prev, path);
    assert path[1..] == moved;
    if moved != [] { assert next[path[0]] == path[1]; }
  }

  lemma DropInside(order: seq<int>, j: nat, head: int, tail: int)
    requires j < |order|
    ensures Drop([head] + order + [tail], j + 1) == [head] + Drop(order, j) + [tail]
    ensures order[j] == ([head] + order + [tail])[j + 1]
  {
  }

  lemma ListDistinct(path: seq<int>, order: seq<int>, head: int, tail: int)
    requires Distinct(path) && path == [head] + order + [tail]
    ensures Distinct(order)
  {
    assert forall i :: 0 <= i < |order| ==> order[i] == path[i + 1];
  }

  /** In a complete list exactly the first node has the head behind it. */
  lemma FirstHasHeadBehind(next: seq<int>, prev: seq<int>, order: seq<int>, head: int, tail: int, x: int)
    requires Doubly(next, prev, [head] + order + [tail], {}) && x in order && 0 <= x < |prev|
    ensures prev[x] == head <==> x == order[0]
  {
    var path := [head] + order + [tail];
    var i := IndexOf(order, x);
    assert path[i + 1] == x && prev[path[i + 1]] == path[i];
    assert path[0] == head && path[1] == order[0];
  }

  /** Progress of a pull after `done` nodes of the slice `all`. */
  ghost predicate Moving(lru0: seq<int>, all: seq<int>, moved: seq<int>, done: int) {
    && 0 <= done <= |all| && Marks(lru0, all)
    && moved == if lru0 == [] then [] else Without(all[..done], {lru0[0]})
  }

  lemma MovingStep(lru0: seq<int>, all: seq<int>, moved: seq<int>, done: nat, lru: seq<int>)
    requires Moving(lru0, all, moved, done) && done < |all|
    requires lru == Without(lru0, Elements(moved))
    ensures lru != [] && lru[0] == lru0[0] && all[done] in lru
    ensures Moving(lru0, all, if all[done] == lru0[0] then moved else moved + [all[done]], done + 1)
    ensures all[done..] != [] && all[done..][0] == all[done] && all[done..][1..] == all[done + 1..]
    ensures Distinct(all[done..])
  {
    hide Distinct;
    assert all[done] in lru0;
    FreshAt(all, done);
    WithoutMembers(lru0, Elements(moved));
    WithoutMembers(all[..done], {lru0[0]});
    assert all[..done + 1] == all[..done] + [all[done]];
    WithoutConcat(all[..done], [all[done]], {lru0[0]});
    OneOrNone(all[done], lru0[0]);
    FirstSurvives(lru0, Elements(moved));
  }

  lemma FreshAt(s: seq<int>, i: nat)
    requires Distinct(s) && i < |s|
    ensures s[i] !in s[..i] && Distinct(s[i..])
  {
  }

  lemma OneOrNone(x: int, y: int)
    ensures Without([x], {y}) == if x == y then [] else [x]
  {
    assert [x][1..] == [];
  }

  lemma FirstSurvives(s: seq<int>, drop: set<int>)
    requires s != [] && s[0] !in drop
    ensures Without(s, drop) != [] && Without(s, drop)[0] == s[0]
  {
  }

  lemma MovingApart(lru0: seq<int>, all: seq<int>, moved: seq<int>, done: nat, pool: seq<int>, capacity: nat)
    requires Moving(lru0, all, moved, done) && InRange(lru0, capacity) && Apart(pool, lru0)
    ensures Apart(moved, Without(lru0, Elements(moved))) && Apart(pool, moved) && InRange(moved, capacity)
    ensures Apart(pool, Without(lru0, Elements(moved)))
  {
    WithoutMembers(lru0, Elements(moved));
    if lru0 != [] {
      WithoutMembers(all[..done], {lru0[0]});
    }
    forall x | x in moved ensures x in lru0 {
      assert x in all[..done] && x in all;
    }
    assert forall i :: 0 <= i < |moved| ==> moved[i] in lru0;
  }

  lemma PushBucket(next: seq<int>, heads: seq<int>, chains: seq<seq<int>>, b: nat, n: int)
    requires Buckets(next, heads, chains) && b < |chains| && 0 <= n < |next|
    requires forall c :: 0 <= c < |chains| ==> n !in chains[c]
    ensures Buckets(next[n := heads[b]], heads[b := n], chains[b := [n] + chains[b]])
  {
    var next', heads', chains' := next[n := heads[b]], heads[b := n], chains[b := [n] + chains[b]];
    forall c | 0 <= c < |chains| ensures Chain(next', chains[c], NULL) {
      ChainFrame(next, next', chains[c], NULL);
    }
    PushChain(next', chains[b], NULL, n);
  }

  /** Cutting the first node of a bucket out and clearing its link. */
  lemma CutBucketHead(next: seq<int>, heads: seq<int>, chains: seq<seq<int>>, b: nat)
    requires Buckets(next, heads, chains) && b < |chains| && chains[b] != []
    ensures Buckets(next[chains[b][0] := NULL], heads[b := next[chains[b][0]]], chains[b := Drop(chains[b], 0)])
  {
    var chain := chains[b];
    var next' := next[chain[0] := NULL];
    assert Drop(chain, 0) == chain[1..];
    ChainTail(next, chain, NULL);
    forall c | 0 <= c < |chains| && c != b ensures Chain(next', chains[c], NULL) {
      assert chain[0] in chain && Apart(chain, chains[c]);
      ChainFrame(next, next', chains[c], NULL);
    }
    DropKeeps(chain, 0);
    ChainFrame(next, next', chain[1..], NULL);
    ApartAfterDrop(chains, b, 0);
  }

  /** Cutting a later node of a bucket out and clearing its link. */
  lemma CutBucketInner(next: seq<int>, heads: seq<int>, chains: seq<seq<int>>, b: nat, j: nat)
    requires Buckets(next, heads, chains) && b < |chains| && 0 < j < |chains[b]|
    ensures Buckets(next[chains[b][j - 1] := next[chains[b][j]]][chains[b][j] := NULL], heads, chains[b := Drop(chains[b], j)])
  {
    var chain := chains[b];
    var next1 := next[chain[j - 1] := next[chain[j]]];
    var next' := next1[chain[j] := NULL];
    CutChain(next, chain, NULL, j);
    DropKeeps(chain, j);
    ChainFrame(next1, next', Drop(chain, j), NULL);
    forall c | 0 <= c < |chains| && c != b ensures Chain(next', chains[c], NULL) {
      assert chain[j - 1] in chain && chain[j] in chain && Apart(chain, chains[c]);
      ChainFrame(next, next', chains[c], NULL);
    }
    assert Drop(chain, j)[0] == chain[0];
    ApartAfterDrop(chains, b, j);
  }

  lemma MarkedIff(recentNext: seq<int>, stack: seq<int>, x: int)
    requires Stacked(recentNext, stack) && 0 <= x < |recentNext|
    ensures recentNext[x] != NULL <==> x in stack
  {
    if x in stack {
      var i :| 0 <= i < |stack| && stack[i] == x;
      assert recentNext[x] == After(stack, i, DUMMY);
    }
  }

  lemma PairsPurged<K, V>(lru: seq<int>, recent: seq<int>, required: nat, keys: seq<K>, values: seq<V>)
    requires Marks(lru, recent)
    ensures var v := Victims(lru, recent, required); var o := PurgeOrder(lru, recent, required);
      && |o| == |lru| - |v|
      && multiset(Pairs(lru, keys, values)) == multiset(Pairs(o, keys, values)) + multiset(Reverse(Pairs(v, keys, values)))
  {
    var v := Victims(lru, recent, required);
    var o := PurgeOrder(lru, recent, required);
    PurgeEffect(lru, recent, required);
    DistinctConcat(o, v);
    PairsConcat(o, v, keys, values);
    PairsPermute(o + v, lru, keys, values);
    ReverseMultiset(Pairs(v, keys, values));
  }

  lemma InsertLabels<K(!new)>(p: Params, c: Cache<int>, room: Cache<int>, node: int, k: K, keys: seq<K>)
    requires Named(c.lru, keys) && Within(c.recent, c.lru) && room == MakeRoom(p, c) && Within(room.lru, c.lru)
    requires Within(c.recent, room.lru) && 0 <= node < |keys| && node !in room.lru && k !in LabelCache(c, keys).lru
    ensures var after := DeferredPolicy.Insert(p, c, node);
      && LabelCache(after, keys[node := k]) == DeferredPolicy.Insert(p, LabelCache(c, keys), k)
      && Named(after.lru, keys[node := k]) && Within(after.recent, after.lru)
  {
    LabelInsert(p, c, node, k, keys);
    NamedInsert(c.lru, room.lru, node, k, keys);
  }

  lemma ComputedInsert<K(!new), V>(p: Params, c: Cache<int>, room: Cache<int>, node: int, keys: seq<K>, values: seq<V>,
                                   k: K, v: V, f: K -> V)
    requires room == MakeRoom(p, c) && Within(room.lru, c.lru) && 0 <= node < |keys| == |values| && v == f(k)
    requires forall x :: x in c.lru && 0 <= x < |keys| ==> values[x] == f(keys[x])
    ensures forall x :: x in DeferredPolicy.Insert(p, c, node).lru && 0 <= x < |keys| ==>
      values[node := v][x] == f(keys[node := k][x])
  {
  }
}
