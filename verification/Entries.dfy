/** Keys and values in numbered nodes. */
module Entries {
  import opened Links
  import opened Sequences
  import opened Labels

  datatype Option<+T> = None | Some(value: T)

  /** The first node of a bucket with the key, NULL if there is none. */
  function Lookup<K(==)>(chain: seq<int>, keys: seq<K>, k: K): (n: int)
    requires InRange(chain, |keys|)
    ensures n == NULL || (n in chain && keys[n] == k)
    ensures n == NULL ==> forall x :: x in chain ==> keys[x] != k
  {
    if chain == [] then NULL
    else if keys[chain[0]] == k then chain[0]
    else
      assert InRange(chain[1..], |keys|);
      Lookup(chain[1..], keys, k)
  }

  lemma LookupStep<K>(chain: seq<int>, i: nat, keys: seq<K>, k: K)
    requires InRange(chain, |keys|) && i < |chain|
    ensures InRange(chain[i..], |keys|) && InRange(chain[i + 1..], |keys|)
    ensures Lookup(chain[i..], keys, k) == if keys[chain[i]] == k then chain[i] else Lookup(chain[i + 1..], keys, k)
  {
    assert chain[i..][1..] == chain[i + 1..];
  }

  /** The same search in shared memory, where nothing is known about the chain. */
  function Seek<K(==)>(chain: seq<int>, key: seq<K>, k: K): int {
    if chain == [] then NULL
    else if 0 <= chain[0] < |key| && key[chain[0]] == k then chain[0]
    else Seek(chain[1..], key, k)
  }

  /** What is found is in the chain and has the key. */
  lemma {:induction false} SeekFinds<K>(chain: seq<int>, key: seq<K>, k: K)
    ensures var n := Seek(chain, key, k); 0 <= n ==> n < |key| && n in chain && key[n] == k
  {
    if chain != [] && !(0 <= chain[0] < |key| && key[chain[0]] == k) {
      SeekFinds(chain[1..], key, k);
    }
  }

  /** A search that finds nothing has passed every node of the chain. */
  lemma {:induction false} SeekMisses<K>(chain: seq<int>, key: seq<K>, k: K)
    requires Seek(chain, key, k) < 0
    ensures forall x :: x in chain && 0 <= x < |key| ==> key[x] != k
  {
    if chain != [] {
      SeekMisses(chain[1..], key, k);
      assert chain == [chain[0]] + chain[1..];
    }
  }

  /** The key-value pairs in the given nodes. */
  ghost function Pairs<K, V>(nodes: seq<int>, keys: seq<K>, values: seq<V>): seq<(K, V)> {
    if nodes == [] then []
    else (if 0 <= nodes[0] < |keys| && nodes[0] < |values| then [(keys[nodes[0]], values[nodes[0]])] else [])
         + Pairs(nodes[1..], keys, values)
  }

  lemma PairsPush<K, V>(node: int, nodes: seq<int>, keys: seq<K>, values: seq<V>)
    requires 0 <= node < |keys| == |values|
    ensures Reverse(Pairs([node] + nodes, keys, values)) == Reverse(Pairs(nodes, keys, values)) + [(keys[node], values[node])]
  {
    assert ([node] + nodes)[1..] == nodes;
    var rest := Pairs(nodes, keys, values);
    assert ([(keys[node], values[node])] + rest)[1..] == rest;
  }

  lemma PairsSnoc<K, V>(nodes: seq<int>, node: int, keys: seq<K>, values: seq<V>)
    requires 0 <= node < |keys| == |values|
    ensures Pairs(nodes + [node], keys, values) == Pairs(nodes, keys, values) + [(keys[node], values[node])]
  {
    PairsConcat(nodes, [node], keys, values);
    assert [node][1..] == [];
  }

  lemma {:induction false} PairsConcat<K, V>(a: seq<int>, b: seq<int>, keys: seq<K>, values: seq<V>)
    ensures Pairs(a + b, keys, values) == Pairs(a, keys, values) + Pairs(b, keys, values)
  {
    if a == [] {
      assert a + b == b;
    } else {
      assert (a + b)[1..] == a[1..] + b;
      PairsConcat(a[1..], b, keys, values);
    }
  }

  lemma PairsOne<K, V>(n: int, key: seq<K>, value: seq<V>)
    requires 0 <= n < |key| && n < |value|
    ensures Pairs([n], key, value) == [(key[n], value[n])]
  {
    assert [n][1..] == [];
  }

  /** The order of distinct nodes does not matter for the multiset of their pairs. */
  lemma {:induction false} PairsPermute<K, V>(a: seq<int>, b: seq<int>, keys: seq<K>, values: seq<V>)
    requires Distinct(a) && Distinct(b) && forall x :: x in a <==> x in b
    ensures multiset(Pairs(a, keys, values)) == multiset(Pairs(b, keys, values))
    decreases |a|
  {
    if a == [] {
      assert forall i :: 0 <= i < |b| ==> b[i] in b;
    } else {
      var j := IndexOf(b, a[0]);
      DropKeeps(a, 0);
      DropKeeps(b, j);
      PairsPermute(Drop(a, 0), Drop(b, j), keys, values);
      PairsDrop(a, 0, keys, values);
      PairsDrop(b, j, keys, values);
    }
  }

  lemma PairsDrop<K, V>(s: seq<int>, j: nat, keys: seq<K>, values: seq<V>)
    requires j < |s|
    ensures multiset(Pairs(s, keys, values)) == multiset(Pairs(Drop(s, j), keys, values)) + multiset(Pairs([s[j]], keys, values))
  {
    var front, back := s[..j], s[j + 1..];
    assert s == front + ([s[j]] + back);
    PairsConcat(front, [s[j]] + back, keys, values);
    PairsConcat([s[j]], back, keys, values);
    PairsConcat(front, back, keys, values);
  }

  /** Writing a pair into a node outside a list and putting that node in front. */
  lemma PairsWrite<K, V>(node: int, nodes: seq<int>, keys: seq<K>, values: seq<V>, k: K, v: V)
    requires 0 <= node < |keys| == |values| && node !in nodes
    ensures multiset(Pairs([node] + nodes, keys[node := k], values[node := v]))
            == multiset{(k, v)} + multiset(Pairs(nodes, keys, values))
  {
    assert ([node] + nodes)[1..] == nodes;
    PairsFrame(node, nodes, keys, values, k, v);
  }

  lemma {:induction false} PairsFrame<K, V>(node: int, nodes: seq<int>, keys: seq<K>, values: seq<V>, k: K, v: V)
    requires 0 <= node < |keys| == |values| && node !in nodes
    ensures Pairs(nodes, keys[node := k], values[node := v]) == Pairs(nodes, keys, values)
  {
    if nodes != [] {
      PairsFrame(node, nodes[1..], keys, values, k, v);
    }
  }

  lemma {:induction false} ReverseMultiset<T>(s: seq<T>)
    ensures multiset(Reverse(s)) == multiset(s)
  {
    if s != [] {
      ReverseMultiset(s[1..]);
      assert s == [s[0]] + s[1..];
    }
  }

  ghost function Firsts<K, V>(pairs: seq<(K, V)>): seq<K> {
    if pairs == [] then [] else [pairs[0].0] + Firsts(pairs[1..])
  }

  lemma {:induction false} FirstsConcat<K, V>(a: seq<(K, V)>, b: seq<(K, V)>)
    ensures Firsts(a + b) == Firsts(a) + Firsts(b)
  {
    if a == [] {
      assert a + b == b;
    } else {
      assert (a + b)[1..] == a[1..] + b;
      FirstsConcat(a[1..], b);
    }
  }

  lemma {:induction false} FirstsReverse<K, V>(nodes: seq<int>, keys: seq<K>, values: seq<V>)
    requires |keys| == |values|
    ensures Firsts(Reverse(Pairs(nodes, keys, values))) == Reverse(Label(nodes, keys))
  {
    if nodes != [] {
      FirstsReverse(nodes[1..], keys, values);
      var x := nodes[0];
      if 0 <= x < |keys| {
        var rest := Pairs(nodes[1..], keys, values);
        assert Pairs(nodes, keys, values)[1..] == rest;
        assert Label(nodes, keys)[1..] == Label(nodes[1..], keys);
        assert Reverse(Pairs(nodes, keys, values)) == Reverse(rest) + [(keys[x], values[x])];
        assert Reverse(Label(nodes, keys)) == Reverse(Label(nodes[1..], keys)) + [keys[x]];
        assert Firsts([(keys[x], values[x])]) == [keys[x]] by {
          assert [(keys[x], values[x])][1..] == [];
        }
        FirstsConcat(Reverse(rest), [(keys[x], values[x])]);
      } else {
        assert Pairs(nodes, keys, values) == Pairs(nodes[1..], keys, values);
        assert Label(nodes, keys) == Label(nodes[1..], keys);
      }
    }
  }

  /** A node of the LRU list is in the bucket of its key and in no other. */
  ghost predicate Filed(chains: seq<seq<int>>, order: seq<int>, slots: seq<int>) {
    forall b, x :: 0 <= b < |chains| && 0 <= x < |slots| ==> (x in chains[b] <==> x in order && slots[x] == b)
  }

  ghost function SlotsOf<K>(keys: seq<K>, hash: K -> nat, n: nat): seq<int>
    requires n > 0
  {
    seq(|keys|, x requires 0 <= x < |keys| => hash(keys[x]) % n)
  }

  lemma FiledPush(chains: seq<seq<int>>, order: seq<int>, slots: seq<int>, n: int)
    requires Filed(chains, order, slots) && 0 <= n < |slots| && 0 <= slots[n] < |chains|
    ensures var b := slots[n]; Filed(chains[b := [n] + chains[b]], [n] + order, slots)
  {
  }

  /** The numbers below n. */
  function Iota(n: nat): seq<int> {
    seq(n, i => i)
  }

  lemma IotaIsAll(n: nat)
    ensures forall x :: 0 <= x < n ==> x in Iota(n)
  {
    forall x | 0 <= x < n ensures x in Iota(n) { assert Iota(n)[x] == x; }
  }

  /** Each cell pointing to the next one links all the numbers below n. */
  lemma IotaChain(next: seq<int>, n: nat)
    requires n > 0 && |next| >= n && next[n - 1] == NULL
    requires forall j :: 0 <= j < n - 1 ==> next[j] == j + 1
    ensures Chain(next, Iota(n), NULL) && InRange(Iota(n), n) && Distinct(Iota(n)) && First(Iota(n), NULL) == 0
    ensures forall x :: 0 <= x < n ==> x in Iota(n)
  {
    var all := Iota(n);
    forall i | 0 <= i < |all| ensures next[all[i]] == After(all, i, NULL) {
    }
    IotaIsAll(n);
  }

  lemma SweptOne<K, V>(deleted0: seq<(K, V)>, swept: seq<int>, chain: seq<int>, i: nat, keys: seq<K>, values: seq<V>)
    requires i < |chain| && 0 <= chain[i] < |keys| == |values|
    ensures deleted0 + Pairs(swept + chain[..i], keys, values) + [(keys[chain[i]], values[chain[i]])]
            == deleted0 + Pairs(swept + chain[..i + 1], keys, values)
  {
    PairsSnoc(swept + chain[..i], chain[i], keys, values);
    assert swept + chain[..i] + [chain[i]] == swept + chain[..i + 1];
  }

  lemma FiledDrop(chains: seq<seq<int>>, order: seq<int>, slots: seq<int>, j: nat)
    requires Filed(chains, order, slots) && j < |order| && Distinct(order)
    requires 0 <= order[j] < |slots| && 0 <= slots[order[j]] < |chains|
    ensures var b := slots[order[j]]; Filed(chains[b := Without(chains[b], {order[j]})], Drop(order, j), slots)
  {
    DropKeeps(order, j);
    WithoutMembers(chains[slots[order[j]]], {order[j]});
  }

  // ---------- what an observer sees of one step ----------

  /** The pairs in the elements that are in front of what the bucket was. */
  ghost function Fronted<K, V>(before: seq<int>, after: seq<int>, key: seq<K>, value: seq<V>): seq<(K, V)> {
    if |before| < |after| then Pairs(after[..|after| - |before|], key, value) else []
  }

  /** What was added to a log. */
  function Added<T>(before: seq<T>, after: seq<T>): seq<T> {
    if |before| < |after| then after[|before|..] else []
  }
}
