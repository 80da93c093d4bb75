/** The policy functions commute with reading the keys in the nodes, as long as different nodes hold different keys. */
module Labels {
  import opened Links
  import opened Sequences
  import opened DeferredPolicy

  /** The keys in the given nodes. */
  function Label<K>(nodes: seq<int>, keys: seq<K>): seq<K> {
    if nodes == [] then []
    else (if 0 <= nodes[0] < |keys| then [keys[nodes[0]]] else []) + Label(nodes[1..], keys)
  }

  function LabelCache<K>(c: Cache<int>, keys: seq<K>): Cache<K> {
    Cache(Label(c.lru, keys), Label(c.recent, keys))
  }

  /** Different nodes hold different keys. */
  ghost predicate Named<K>(nodes: seq<int>, keys: seq<K>) {
    && InRange(nodes, |keys|)
    && forall x, y :: x in nodes && y in nodes && x != y && 0 <= x < |keys| && 0 <= y < |keys| ==> keys[x] != keys[y]
  }

  ghost predicate Within(a: seq<int>, all: seq<int>) {
    forall x :: x in a ==> x in all
  }

  lemma {:induction false} LabelAt<K>(nodes: seq<int>, keys: seq<K>)
    requires InRange(nodes, |keys|)
    ensures |Label(nodes, keys)| == |nodes|
    ensures forall i :: 0 <= i < |nodes| ==> Label(nodes, keys)[i] == keys[nodes[i]]
  {
    if nodes != [] {
      assert InRange(nodes[1..], |keys|);
      LabelAt(nodes[1..], keys);
    }
  }

  lemma {:induction false} LabelConcat<K>(a: seq<int>, b: seq<int>, keys: seq<K>)
    ensures Label(a + b, keys) == Label(a, keys) + Label(b, keys)
  {
    if a == [] {
      assert a + b == b;
    } else {
      assert (a + b)[1..] == a[1..] + b;
      LabelConcat(a[1..], b, keys);
    }
  }

  lemma WithinRange<K>(a: seq<int>, all: seq<int>, keys: seq<K>)
    requires Named(all, keys) && Within(a, all)
    ensures InRange(a, |keys|)
  {
    forall i | 0 <= i < |a| ensures 0 <= a[i] < |keys| {
      var x := a[i];
      assert x in a;
      var j :| 0 <= j < |all| && all[j] == x;
    }
  }

  /** Membership is the same on nodes and on keys. */
  lemma LabelMember<K>(x: int, a: seq<int>, all: seq<int>, keys: seq<K>)
    requires Named(all, keys) && Within(a, all) && x in all
    ensures 0 <= x < |keys| && (keys[x] in Label(a, keys) <==> x in a)
  {
    WithinRange(a, all, keys);
    LabelAt(a, keys);
    var l := Label(a, keys);
    assert 0 <= x < |keys| by { var i :| 0 <= i < |all| && all[i] == x; }
    if x in a {
      var i :| 0 <= i < |a| && a[i] == x;
      assert l[i] == keys[x];
    }
    if keys[x] in l {
      var i :| 0 <= i < |l| && l[i] == keys[x];
      assert a[i] in a && a[i] in all;
    }
  }

  lemma {:induction false} LabelWithout<K(!new)>(s: seq<int>, drop: seq<int>, all: seq<int>, keys: seq<K>)
    requires Named(all, keys) && Within(s, all) && Within(drop, all)
    ensures Label(Without(s, Elements(drop)), keys) == Without(Label(s, keys), Elements(Label(drop, keys)))
  {
    if s != [] {
      assert Within(s[1..], all) && s[0] in s;
      LabelWithout(s[1..], drop, all, keys);
      LabelMember(s[0], drop, all, keys);
      var l := Label(s, keys);
      assert l[0] == keys[s[0]] && l[1..] == Label(s[1..], keys);
      if s[0] !in drop {
        var r := [s[0]] + Without(s[1..], Elements(drop));
        assert r[1..] == Without(s[1..], Elements(drop));
      }
    }
  }

  lemma LabelOne<K>(x: int, keys: seq<K>)
    requires 0 <= x < |keys|
    ensures Label([x], keys) == [keys[x]] && Elements([x]) == {x} && Elements([keys[x]]) == {keys[x]}
  {
    assert [x][1..] == [];
  }

  lemma LabelMoved<K(!new)>(lru: seq<int>, recent: seq<int>, keys: seq<K>)
    requires Named(lru, keys) && Within(recent, lru)
    ensures Label(Moved(lru, recent), keys) == Moved(Label(lru, keys), Label(recent, keys))
    ensures Within(Moved(lru, recent), lru)
  {
    LabelAt(lru, keys);
    if lru != [] {
      LabelOne(lru[0], keys);
      LabelWithout(recent, [lru[0]], lru, keys);
      WithoutMembers(recent, {lru[0]});
    }
  }

  lemma LabelPull<K(!new)>(lru: seq<int>, recent: seq<int>, keys: seq<K>)
    requires Named(lru, keys) && Within(recent, lru)
    ensures Label(PullOrder(lru, recent), keys) == PullOrder(Label(lru, keys), Label(recent, keys))
    ensures Within(PullOrder(lru, recent), lru)
  {
    var moved := Moved(lru, recent);
    LabelMoved(lru, recent, keys);
    LabelWithout(lru, moved, lru, keys);
    LabelConcat(moved, Without(lru, Elements(moved)), keys);
    WithoutMembers(lru, Elements(moved));
  }

  lemma LabelCandidates<K(!new)>(lru: seq<int>, recent: seq<int>, keys: seq<K>)
    requires Named(lru, keys) && Within(recent, lru)
    ensures Label(Candidates(lru, recent), keys) == Candidates(Label(lru, keys), Label(recent, keys))
    ensures Within(Candidates(lru, recent), lru)
  {
    if lru != [] {
      LabelAt(lru, keys);
      assert Within(lru[1..], lru);
      LabelWithout(lru[1..], recent, lru, keys);
      WithoutMembers(lru[1..], Elements(recent));
      LabelConcat([lru[0]], lru[1..], keys);
      assert lru == [lru[0]] + lru[1..];
      LabelOne(lru[0], keys);
      assert Label(lru, keys)[1..] == Label(lru[1..], keys);
    }
  }

  lemma LabelVictims<K(!new)>(lru: seq<int>, recent: seq<int>, required: nat, keys: seq<K>)
    requires Named(lru, keys) && Within(recent, lru)
    ensures Label(Victims(lru, recent, required), keys) == Victims(Label(lru, keys), Label(recent, keys), required)
    ensures Label(PurgeOrder(lru, recent, required), keys) == PurgeOrder(Label(lru, keys), Label(recent, keys), required)
    ensures Within(Victims(lru, recent, required), lru) && Within(PurgeOrder(lru, recent, required), lru)
  {
    var c, v := Candidates(lru, recent), Victims(lru, recent, required);
    LabelCandidates(lru, recent, keys);
    WithinRange(c, lru, keys);
    LabelAt(c, keys);
    var cut := |c| - |v|;
    assert c == c[..cut] + v;
    assert Within(v, lru);
    WithinRange(v, lru, keys);
    LabelAt(v, keys);
    LabelConcat(c[..cut], v, keys);
    LabelWithout(lru, v, lru, keys);
    WithoutMembers(lru, Elements(v));
  }

  /** A find on nodes is the same find on keys. */
  lemma LabelFind<K(!new)>(p: Params, c: Cache<int>, n: int, keys: seq<K>)
    requires Named(c.lru, keys) && Within(c.recent, c.lru) && n in c.lru
    ensures 0 <= n < |keys| && LabelCache(Find(p, c, n), keys) == Find(p, LabelCache(c, keys), keys[n])
    ensures Within(Find(p, c, n).lru, c.lru)
  {
    LabelMember(n, c.lru, c.lru, keys);
    LabelMember(n, c.recent, c.lru, keys);
    var recent := if n !in c.recent then [n] + c.recent else c.recent;
    LabelOne(n, keys);
    LabelConcat([n], c.recent, keys);
    WithinRange(c.recent, c.lru, keys);
    WithinRange(recent, c.lru, keys);
    LabelAt(recent, keys);
    LabelPull(c.lru, recent, keys);
  }

  /** A search that finds nothing. */
  lemma LabelMiss<K(!new)>(p: Params, c: Cache<int>, n: int, k: K, keys: seq<K>)
    requires Named(c.lru, keys) && Within(c.recent, c.lru) && n !in c.lru
    requires k !in Label(c.lru, keys) && |c.recent| < p.pullThreshold
    ensures Find(p, c, n) == c && Find(p, LabelCache(c, keys), k) == LabelCache(c, keys)
  {
    WithinRange(c.recent, c.lru, keys);
    LabelAt(c.recent, keys);
  }

  lemma {:induction false} LabelWrite<K>(nodes: seq<int>, keys: seq<K>, n: int, k: K)
    requires 0 <= n < |keys| && n !in nodes
    ensures Label(nodes, keys[n := k]) == Label(nodes, keys)
  {
    if nodes != [] {
      LabelWrite(nodes[1..], keys, n, k);
    }
  }

  /** An insertion into a node outside the list is the same insertion on keys. */
  lemma LabelInsert<K(!new)>(p: Params, c: Cache<int>, n: int, k: K, keys: seq<K>)
    requires Named(c.lru, keys) && Within(c.recent, c.lru) && 0 <= n < |keys|
    requires n !in MakeRoom(p, c).lru && n !in c.recent
    ensures LabelCache(Insert(p, c, n), keys[n := k]) == Insert(p, LabelCache(c, keys), k)
    ensures Within(MakeRoom(p, c).lru, c.lru)
  {
    var room := MakeRoom(p, c);
    LabelVictims(c.lru, c.recent, p.purgeThreshold, keys);
    LabelAt(c.lru, keys);
    assert LabelCache(room, keys) == MakeRoom(p, LabelCache(c, keys));
    LabelOne(n, keys[n := k]);
    LabelConcat([n], room.lru, keys[n := k]);
    LabelWrite(room.lru, keys, n, k);
    LabelWrite(c.recent, keys, n, k);
  }

  /** Fresh keys keep nodes and keys one to one. */
  lemma NamedInsert<K(!new)>(lru: seq<int>, room: seq<int>, n: int, k: K, keys: seq<K>)
    requires Named(lru, keys) && Within(room, lru) && 0 <= n < |keys| && n !in room && k !in Label(lru, keys)
    ensures Named([n] + room, keys[n := k])
  {
    WithinRange(room, lru, keys);
    forall x | x in room ensures 0 <= x < |keys| && keys[x] != k {
      assert x in lru;
      LabelMember(x, lru, lru, keys);
    }
  }

  lemma NamedWithin<K>(a: seq<int>, all: seq<int>, keys: seq<K>)
    requires Named(all, keys) && Within(a, all)
    ensures Named(a, keys)
  {
    WithinRange(a, all, keys);
  }
}
