/** The lock-free insert-only table HashFixed, as a machine whose steps are the atomic accesses of its threads. */
module HashFixed {
  import opened Links

  /** What never changes: the numbers of elements and of buckets, the hash function and what the producers compute. */
  datatype Table<!K, !V> = Table(capacity: nat, buckets: nat, hash: K -> nat, f: K -> V)

  /** Where a thread is inside one consumeCachedOrCompute. */
  datatype Pc<K> =
    | Idle
    | Search(k: K)                                        // about to load the head of the bucket
    | Walk(k: K, at: int, left: nat, seen: set<K>)        // about to look at an element
    | Missed(k: K, seen: set<K>)                          // about to compute the value
    | Test(k: K)                                          // about to compare the counter with the capacity
    | Bump(k: K)                                          // about to increment the counter
    | Over                                                // about to roll the counter back
    | Fill(k: K, n: int)                                  // about to write key and value
    | Load(k: K, n: int)                                  // about to load the head of the bucket
    | Store(k: K, n: int, next: int)                      // about to write the link
    | Cas(k: K, n: int, next: int)                        // about to swing the head of the bucket

  /** The shared memory and the threads. `claimed`, `chains` and `log` record history: how many slots were handed
      out, what each bucket holds, and what was delivered to whom. In `Walk`, `left` is how many elements are still
      ahead and `seen` what the bucket held when its head was loaded. */
  datatype State<!K, !V> = State(
    counter: int, key: seq<K>, value: seq<V>, next: seq<int>, head: seq<int>, threads: seq<Pc<K>>,
    claimed: nat, chains: seq<seq<int>>, log: seq<(K, V)>)

  /** One scheduling choice: which thread moves, the key it asks for if it is idle, and whether a weak
      compare-and-swap fails for no reason. */
  datatype Choice<K> = Choice(thread: nat, k: K, fails: bool)

  function BucketOf<K, V>(c: Table<K, V>, k: K): (b: nat)
    requires c.buckets > 0
    ensures b < c.buckets
  {
    c.hash(k) % c.buckets
  }

  /** The keys an element chain holds. */
  function KeysOf<K>(chain: seq<int>, key: seq<K>): set<K> {
    set x | x in chain && 0 <= x < |key| :: key[x]
  }

  predicate WellFormed<K, V>(c: Table<K, V>, s: State<K, V>) {
    && c.buckets > 0
    && |s.key| == |s.value| == |s.next| == c.capacity
    && |s.head| == |s.chains| == c.buckets
  }

  /** The step of a thread that is looking a key up. */
  function FindStep<K(!new), V>(c: Table<K, V>, s: State<K, V>, t: nat, pc: Pc<K>): State<K, V>
    requires WellFormed(c, s) && t < |s.threads| && (pc.Search? || pc.Walk? || pc.Missed?)
  {
    match pc
    case Search(k) =>
      var b := BucketOf(c, k);
      s.(threads := s.threads[t := Walk(k, s.head[b], |s.chains[b]|, KeysOf(s.chains[b], s.key))])
    case Walk(k, at, left, seen) =>
      if at == NULL then
        s.(threads := s.threads[t := Missed(k, seen)])
      else if !(0 <= at < c.capacity) then s
      else if s.key[at] == k then
        s.(threads := s.threads[t := Idle], log := s.log + [(k, s.value[at])])
      else
        s.(threads := s.threads[t := Walk(k, s.next[at], if left > 0 then left - 1 else 0, seen)])
    case Missed(k, seen) =>
      s.(threads := s.threads[t := Test(k)], log := s.log + [(k, c.f(k))])
  }

  /** The step of a thread that is claiming a slot. */
  function ClaimStep<K(!new), V>(c: Table<K, V>, s: State<K, V>, t: nat, pc: Pc<K>): State<K, V>
    requires WellFormed(c, s) && t < |s.threads| && (pc.Test? || pc.Bump? || pc.Over?)
  {
    match pc
    case Test(k) =>
      s.(threads := s.threads[t := if s.counter >= c.capacity then Idle else Bump(k)])
    case Bump(k) =>
      var n := s.counter;
      if n >= c.capacity then
        s.(counter := n + 1, threads := s.threads[t := Over])
      else
        s.(counter := n + 1, threads := s.threads[t := Fill(k, n)], claimed := s.claimed + 1)
    case Over =>
      s.(counter := s.counter - 1, threads := s.threads[t := Idle])
  }

  /** The step of a thread that is publishing the slot it claimed. */
  function PublishStep<K(!new), V>(c: Table<K, V>, s: State<K, V>, t: nat, pc: Pc<K>, fails: bool): State<K, V>
    requires WellFormed(c, s) && t < |s.threads| && (pc.Fill? || pc.Load? || pc.Store? || pc.Cas?)
  {
    if !(0 <= pc.n < c.capacity) then s else
    var b := BucketOf(c, pc.k);
    match pc
    case Fill(k, n) =>
      s.(key := s.key[n := k], value := s.value[n := c.f(k)], threads := s.threads[t := Load(k, n)])
    case Load(k, n) =>
      s.(threads := s.threads[t := Store(k, n, s.head[b])])
    case Store(k, n, next) =>
      s.(next := s.next[n := next], threads := s.threads[t := Cas(k, n, next)])
    case Cas(k, n, next) =>
      if fails || s.head[b] != next then
        s.(threads := s.threads[t := Store(k, n, s.head[b])])
      else
        s.(head := s.head[b := n], chains := s.chains[b := [n] + s.chains[b]], threads := s.threads[t := Idle])
  }

  function Step<K(!new), V>(c: Table<K, V>, s: State<K, V>, e: Choice<K>): State<K, V> {
    if !WellFormed(c, s) || e.thread >= |s.threads| then s else
    var pc := s.threads[e.thread];
    if pc.Idle? then s.(threads := s.threads[e.thread := Search(e.k)])
    else if pc.Search? || pc.Walk? || pc.Missed? then FindStep(c, s, e.thread, pc)
    else if pc.Test? || pc.Bump? || pc.Over? then ClaimStep(c, s, e.thread, pc)
    else PublishStep(c, s, e.thread, pc, e.fails)
  }

  function Run<K(!new), V>(c: Table<K, V>, s: State<K, V>, schedule: seq<Choice<K>>): State<K, V> {
    if schedule == [] then s
    else Step(c, Run(c, s, schedule[..|schedule| - 1]), schedule[|schedule| - 1])
  }

  /** A table that was just allocated, with every thread idle. */
  ghost predicate Initial<K, V>(c: Table<K, V>, s: State<K, V>) {
    && WellFormed(c, s) && s.counter == 0 && s.claimed == 0 && s.log == []
    && (forall b :: 0 <= b < c.buckets ==> s.head[b] == NULL && s.chains[b] == [])
    && (forall t :: 0 <= t < |s.threads| ==> s.threads[t] == Idle)
  }

  /** The state after the allocation of the memory, with n idle threads; `key` and `value` are what unused slots hold. */
  function Start<K, V>(c: Table<K, V>, n: nat, key: K, value: V): State<K, V> {
    State(0, seq(c.capacity, i => key), seq(c.capacity, i => value), seq(c.capacity, i => NULL), seq(c.buckets, i => NULL),
          seq(n, i => Idle), 0, seq(c.buckets, i => []), [])
  }

  lemma StartIsInitial<K, V>(c: Table<K, V>, n: nat, key: K, value: V)
    requires c.buckets > 0
    ensures Initial(c, Start(c, n, key, value))
  {
  }

  // ---------- the invariant ----------

  function Overs<K>(threads: seq<Pc<K>>): nat {
    if threads == [] then 0 else (if threads[0].Over? then 1 else 0) + Overs(threads[1..])
  }

  /** The counter is the number of claims plus the overflowed threads, which exist only when every slot is claimed. */
  ghost predicate Counted<K, V>(c: Table<K, V>, s: State<K, V>) {
    && s.claimed <= c.capacity
    && s.counter == s.claimed + Overs(s.threads)
    && (Overs(s.threads) > 0 ==> s.claimed == c.capacity)
  }

  predicate Owns<K>(pc: Pc<K>, n: int) {
    (pc.Fill? || pc.Load? || pc.Store? || pc.Cas?) && pc.n == n
  }

  /** Published elements: claimed, in the bucket of their key, with the value of their key. */
  ghost predicate Published<K, V>(c: Table<K, V>, s: State<K, V>, b: nat, x: int)
    requires WellFormed(c, s)
  {
    0 <= x < s.claimed && x < c.capacity && BucketOf(c, s.key[x]) == b && s.value[x] == c.f(s.key[x])
  }

  ghost predicate Linked<K, V>(c: Table<K, V>, s: State<K, V>)
    requires WellFormed(c, s)
  {
    && (forall b :: 0 <= b < c.buckets ==> Chain(s.next, s.chains[b], NULL) && Distinct(s.chains[b]))
    && (forall b :: 0 <= b < c.buckets ==> s.head[b] == First(s.chains[b], NULL))
    && (forall b, x :: 0 <= b < c.buckets && x in s.chains[b] ==> Published(c, s, b, x))
  }

  /** What a thread knows about the slot it claimed. */
  ghost predicate Holding<K, V>(c: Table<K, V>, s: State<K, V>, pc: Pc<K>)
    requires WellFormed(c, s)
  {
    pc.Fill? || pc.Load? || pc.Store? || pc.Cas? ==>
      && 0 <= pc.n < s.claimed && pc.n < c.capacity
      && (forall b :: 0 <= b < c.buckets ==> pc.n !in s.chains[b])
      && (!pc.Fill? ==> s.key[pc.n] == pc.k && s.value[pc.n] == c.f(pc.k))
      && (pc.Cas? ==> s.next[pc.n] == pc.next)
  }

  ghost predicate SomeoneOwns<K>(threads: seq<Pc<K>>, n: int) {
    exists t :: 0 <= t < |threads| && Owns(threads[t], n)
  }

  /** Every claimed slot is owned by exactly one thread or published. */
  ghost predicate Owned<K, V>(c: Table<K, V>, s: State<K, V>)
    requires WellFormed(c, s)
  {
    && (forall t :: 0 <= t < |s.threads| ==> Holding(c, s, s.threads[t]))
    && (forall t, u, n :: 0 <= t < |s.threads| && 0 <= u < |s.threads| && Owns(s.threads[t], n) && Owns(s.threads[u], n) ==> t == u)
    && (forall n :: 0 <= n < s.claimed && n < c.capacity && !SomeoneOwns(s.threads, n) ==> n in s.chains[BucketOf(c, s.key[n])])
  }

  /** A walking thread stands at the beginning of what was the rest of its bucket, all of which it remembers, and the key
      it looks for is still ahead if it was in the bucket at all. */
  ghost predicate Ahead<K, V>(c: Table<K, V>, s: State<K, V>, pc: Pc<K>)
    requires WellFormed(c, s)
  {
    && (pc.Walk? ==>
      var chain := s.chains[BucketOf(c, pc.k)];
      && pc.left <= |chain| && pc.at == First(chain[|chain| - pc.left..], NULL)
      && KeysOf(chain[|chain| - pc.left..], s.key) <= pc.seen
      && (pc.k in pc.seen ==> pc.k in KeysOf(chain[|chain| - pc.left..], s.key)))
    && (pc.Missed? ==> pc.k !in pc.seen)
  }

  ghost predicate Delivered<K, V>(c: Table<K, V>, log: seq<(K, V)>) {
    forall i :: 0 <= i < |log| ==> log[i].1 == c.f(log[i].0)
  }

  ghost predicate Inv<K, V>(c: Table<K, V>, s: State<K, V>) {
    && WellFormed(c, s) && Counted(c, s) && Linked(c, s) && Owned(c, s) && Delivered(c, s.log)
    && (forall t :: 0 <= t < |s.threads| ==> Ahead(c, s, s.threads[t]))
  }

  // ---------- every step keeps the invariant ----------

  lemma {:induction false} OversUpdate<K>(threads: seq<Pc<K>>, t: nat, pc: Pc<K>)
    requires t < |threads|
    ensures Overs(threads[t := pc]) == Overs(threads) - (if threads[t].Over? then 1 else 0) + (if pc.Over? then 1 else 0)
  {
    if t > 0 {
      assert threads[t := pc][1..] == threads[1..][t - 1 := pc];
      OversUpdate(threads[1..], t - 1, pc);
    }
  }

  /** Who owns what after one thread moved. */
  lemma OwnersAfter<K>(threads: seq<Pc<K>>, t: nat, pc: Pc<K>)
    requires t < |threads|
    ensures forall n :: Owns(pc, n) || (SomeoneOwns(threads, n) && !Owns(threads[t], n)) ==> SomeoneOwns(threads[t := pc], n)
  {
    var after := threads[t := pc];
    forall n | Owns(pc, n) || (SomeoneOwns(threads, n) && !Owns(threads[t], n)) ensures SomeoneOwns(after, n) {
      if Owns(pc, n) {
        assert Owns(after[t], n);
      } else {
        var u :| 0 <= u < |threads| && Owns(threads[u], n);
        assert Owns(after[u], n);
      }
    }
  }

  /** A step that only moves one thread on, possibly counting or delivering. */
  lemma ThreadMoves<K, V>(c: Table<K, V>, s: State<K, V>, t: nat, pc: Pc<K>, log: seq<(K, V)>, counter: int)
    requires Inv(c, s) && t < |s.threads|
    requires forall n :: Owns(s.threads[t], n) <==> Owns(pc, n)
    requires Holding(c, s, pc) && Ahead(c, s, pc) && Delivered(c, log)
    requires Counted(c, s.(threads := s.threads[t := pc], log := log, counter := counter))
    ensures Inv(c, s.(threads := s.threads[t := pc], log := log, counter := counter))
  {
    OwnersAfter(s.threads, t, pc);
    var s' := s.(threads := s.threads[t := pc], log := log, counter := counter);
    forall u | 0 <= u < |s'.threads| ensures Holding(c, s', s'.threads[u]) && Ahead(c, s', s'.threads[u]) {
      assert Holding(c, s, s'.threads[u]) && Ahead(c, s, s'.threads[u]);
    }
    assert Linked(c, s');
  }

  lemma ThreadOnly<K, V>(c: Table<K, V>, s: State<K, V>, t: nat, pc: Pc<K>, log: seq<(K, V)>)
    requires Inv(c, s) && t < |s.threads| && !pc.Over? && !s.threads[t].Over?
    requires forall n :: Owns(s.threads[t], n) <==> Owns(pc, n)
    requires Holding(c, s, pc) && Ahead(c, s, pc) && Delivered(c, log)
    ensures Inv(c, s.(threads := s.threads[t := pc], log := log))
  {
    OversUpdate(s.threads, t, pc);
    ThreadMoves(c, s, t, pc, log, s.counter);
  }

  lemma FindKeeps<K(!new), V>(c: Table<K, V>, s: State<K, V>, t: nat)
    requires Inv(c, s) && t < |s.threads| && (s.threads[t].Search? || s.threads[t].Walk? || s.threads[t].Missed?)
    ensures Inv(c, FindStep(c, s, t, s.threads[t]))
  {
    hide Inv, KeysOf;
    var pc := s.threads[t];
    Knows(c, s, t);
    var s' := FindStep(c, s, t, pc);
    if pc.Search? {
      var chain := s.chains[BucketOf(c, pc.k)];
      HeadIsFirst(c, s, BucketOf(c, pc.k));
      assert chain[|chain| - |chain|..] == chain;
    } else if pc.Walk? {
      WalkAhead(c, s, pc);
    }
    ThreadOnly(c, s, t, s'.threads[t], s'.log);
  }

  lemma Knows<K, V>(c: Table<K, V>, s: State<K, V>, t: nat)
    requires Inv(c, s) && t < |s.threads|
    ensures WellFormed(c, s) && Ahead(c, s, s.threads[t]) && Holding(c, s, s.threads[t]) && Delivered(c, s.log)
  {
  }

  lemma InvShape<K, V>(c: Table<K, V>, s: State<K, V>)
    requires Inv(c, s)
    ensures WellFormed(c, s)
  {
  }

  lemma HeadIsFirst<K, V>(c: Table<K, V>, s: State<K, V>, b: nat)
    requires Inv(c, s) && b < c.buckets
    ensures s.head[b] == First(s.chains[b], NULL)
  {
  }

  /** Looking at one element. */
  lemma WalkAhead<K(!new), V>(c: Table<K, V>, s: State<K, V>, pc: Pc<K>)
    requires Inv(c, s) && pc.Walk? && Ahead(c, s, pc)
    ensures pc.at == NULL <==> pc.left == 0
    ensures pc.at == NULL ==> pc.k !in pc.seen
    ensures pc.at != NULL ==> 0 <= pc.at < c.capacity && s.value[pc.at] == c.f(s.key[pc.at])
    ensures pc.at != NULL && s.key[pc.at] != pc.k ==> Ahead(c, s, Walk(pc.k, s.next[pc.at], pc.left - 1, pc.seen))
  {
    var b := BucketOf(c, pc.k);
    var chain := s.chains[b];
    var i := |chain| - pc.left;
    if pc.left > 0 {
      assert chain[i] in chain && Published(c, s, b, chain[i]);
      assert s.next[chain[i]] == After(chain, i, NULL);
      assert chain[i..] == [chain[i]] + chain[i + 1..];
    }
  }

  lemma ClaimKeeps<K(!new), V>(c: Table<K, V>, s: State<K, V>, t: nat)
    requires Inv(c, s) && t < |s.threads| && (s.threads[t].Test? || s.threads[t].Bump? || s.threads[t].Over?)
    ensures Inv(c, ClaimStep(c, s, t, s.threads[t]))
  {
    hide Linked, Owned, Delivered;
    var s' := ClaimStep(c, s, t, s.threads[t]);
    OversUpdate(s.threads, t, s'.threads[t]);
    if s'.threads[t].Fill? {
      TakesSlot(c, s, t);
    } else {
      ThreadMoves(c, s, t, s'.threads[t], s.log, s'.counter);
    }
  }

  /** A claim hands out the first slot that was never handed out. */
  lemma TakesSlot<K(!new), V>(c: Table<K, V>, s: State<K, V>, t: nat)
    requires Inv(c, s) && t < |s.threads| && s.threads[t].Bump? && s.counter < c.capacity
    ensures s.counter == s.claimed && Overs(s.threads) == 0
    ensures Inv(c, ClaimStep(c, s, t, s.threads[t]))
  {
    var s' := ClaimStep(c, s, t, s.threads[t]);
    var n := s.claimed;
    OversUpdate(s.threads, t, s'.threads[t]);
    OwnersAfter(s.threads, t, s'.threads[t]);
    assert SomeoneOwns(s'.threads, n);
    forall u | 0 <= u < |s'.threads| ensures Holding(c, s', s'.threads[u]) && Ahead(c, s', s'.threads[u]) {
      if u != t { assert Holding(c, s, s.threads[u]) && Ahead(c, s, s.threads[u]); }
    }
    forall x | 0 <= x < s'.claimed && x < c.capacity && !SomeoneOwns(s'.threads, x)
      ensures x in s'.chains[BucketOf(c, s'.key[x])]
    {
      assert !Owns(s.threads[t], x);
    }
    forall u, v, x | 0 <= u < |s.threads| && 0 <= v < |s.threads| && Owns(s'.threads[u], x) && Owns(s'.threads[v], x)
      ensures u == v
    {
      assert u != t ==> Holding(c, s, s.threads[u]);
      assert v != t ==> Holding(c, s, s.threads[v]);
    }
    forall b, x | 0 <= b < c.buckets && x in s'.chains[b] ensures Published(c, s', b, x) {
      assert Published(c, s, b, x);
    }
  }

  lemma PublishKeeps<K(!new), V>(c: Table<K, V>, s: State<K, V>, t: nat, fails: bool)
    requires Inv(c, s) && t < |s.threads| && (s.threads[t].Fill? || s.threads[t].Load? || s.threads[t].Store? || s.threads[t].Cas?)
    ensures Inv(c, PublishStep(c, s, t, s.threads[t], fails))
  {
    var pc := s.threads[t];
    assert Holding(c, s, pc);
    var b := BucketOf(c, pc.k);
    match pc
    case Fill(k, n) =>
      PrivateWrite(c, s, t, Load(k, n), s.key[n := k], s.value[n := c.f(k)], s.next);
    case Load(k, n) =>
      ThreadOnly(c, s, t, Store(k, n, s.head[b]), s.log);
    case Store(k, n, next) =>
      PrivateWrite(c, s, t, Cas(k, n, next), s.key, s.value, s.next[n := next]);
    case Cas(k, n, next) =>
      if fails || s.head[b] != next {
        ThreadOnly(c, s, t, Store(k, n, s.head[b]), s.log);
      } else {
        Publishes(c, s, t);
      }
  }

  /** Writing into the slot one owns disturbs nobody. */
  lemma PrivateWrite<K, V>(c: Table<K, V>, s: State<K, V>, t: nat, pc: Pc<K>, key: seq<K>, value: seq<V>, next: seq<int>)
    requires Inv(c, s) && t < |s.threads| && |key| == |value| == |next| == c.capacity
    requires forall n :: Owns(s.threads[t], n) <==> Owns(pc, n)
    requires (pc.Load? || pc.Cas?) && Owns(s.threads[t], pc.n)
    requires forall x :: 0 <= x < c.capacity && x != pc.n ==> key[x] == s.key[x] && value[x] == s.value[x] && next[x] == s.next[x]
    requires var s' := s.(key := key, value := value, next := next, threads := s.threads[t := pc]); Holding(c, s', pc)
    ensures Inv(c, s.(key := key, value := value, next := next, threads := s.threads[t := pc]))
  {
    hide KeysOf, Overs;
    var s' := s.(key := key, value := value, next := next, threads := s.threads[t := pc]);
    OversUpdate(s.threads, t, pc);
    OwnersAfter(s.threads, t, pc);
    forall b | 0 <= b < c.buckets ensures Chain(s'.next, s'.chains[b], NULL) && Distinct(s'.chains[b]) {
      ChainFrame(s.next, s'.next, s.chains[b], NULL);
    }
    forall u | 0 <= u < |s'.threads| ensures Holding(c, s', s'.threads[u]) && Ahead(c, s', s'.threads[u]) {
      assert Holding(c, s, s.threads[u]) && Ahead(c, s, s.threads[u]);
      if u != t {
        assert Owns(s.threads[u], pc.n) ==> u == t;
        SameKeys(c, s, s', s.threads[u]);
      }
    }
    forall b, x | 0 <= b < c.buckets && x in s'.chains[b] ensures Published(c, s', b, x) {
      assert Published(c, s, b, x);
    }
    forall x | 0 <= x < s'.claimed && x < c.capacity && !SomeoneOwns(s'.threads, x)
      ensures x in s'.chains[BucketOf(c, s'.key[x])]
    {
      assert Owns(s.threads[t], pc.n);
    }
  }

  /** `after` is `before` with elements put in front. */
  predicate Extends(after: seq<int>, before: seq<int>) {
    |before| <= |after| && after[|after| - |before|..] == before
  }

  /** A walking thread does not notice changes outside the buckets, nor elements put in front of what it looks at. */
  lemma SameKeys<K, V>(c: Table<K, V>, s: State<K, V>, s': State<K, V>, pc: Pc<K>)
    requires WellFormed(c, s) && WellFormed(c, s') && Ahead(c, s, pc)
    requires forall b :: 0 <= b < c.buckets ==> Extends(s'.chains[b], s.chains[b])
    requires forall b, x :: 0 <= b < c.buckets && x in s.chains[b] && 0 <= x < c.capacity ==> s'.key[x] == s.key[x]
    ensures Ahead(c, s', pc)
  {
    if pc.Walk? {
      var b := BucketOf(c, pc.k);
      var before, after := s.chains[b], s'.chains[b];
      assert after[|after| - pc.left..] == after[|after| - |before|..][|before| - pc.left..];
      var rest := before[|before| - pc.left..];
      assert forall x :: x in rest ==> x in before;
      assert KeysOf(rest, s'.key) == KeysOf(rest, s.key);
    }
  }

  /** The swing of the head publishes the slot. */
  lemma Publishes<K(!new), V>(c: Table<K, V>, s: State<K, V>, t: nat)
    requires Inv(c, s) && t < |s.threads| && s.threads[t].Cas?
    requires s.head[BucketOf(c, s.threads[t].k)] == s.threads[t].next
    ensures Inv(c, PublishStep(c, s, t, s.threads[t], false))
  {
    hide Chain, Published, KeysOf, Ahead;
    var s' := PublishStep(c, s, t, s.threads[t], false);
    OversUpdate(s.threads, t, Idle);
    PublishLinked(c, s, t);
    PublishOwned(c, s, t);
    forall u | 0 <= u < |s'.threads| ensures Ahead(c, s', s'.threads[u]) {
      PublishAhead(c, s, s', t, u);
    }
  }

  lemma PublishAhead<K(!new), V>(c: Table<K, V>, s: State<K, V>, s': State<K, V>, t: nat, u: nat)
    requires Inv(c, s) && t < |s.threads| && u < |s.threads| && s.threads[t].Cas?
    requires s' == PublishStep(c, s, t, s.threads[t], false)
    ensures Ahead(c, s', s'.threads[u])
  {
    Knows(c, s, u);
    if u != t {
      SameKeys(c, s, s', s.threads[u]);
    }
  }

  lemma PublishLinked<K(!new), V>(c: Table<K, V>, s: State<K, V>, t: nat)
    requires Inv(c, s) && t < |s.threads| && s.threads[t].Cas?
    requires s.head[BucketOf(c, s.threads[t].k)] == s.threads[t].next
    ensures Linked(c, PublishStep(c, s, t, s.threads[t], false))
  {
    var pc := s.threads[t];
    var n, b := pc.n, BucketOf(c, pc.k);
    assert Holding(c, s, pc);
    var s' := PublishStep(c, s, t, pc, false);
    PushChain(s.next, s.chains[b], NULL, n);
    assert Distinct([n] + s.chains[b]);
    forall d, x | 0 <= d < c.buckets && x in s'.chains[d] ensures Published(c, s', d, x) {
      assert d != b || x != n ==> Published(c, s, d, x);
    }
  }

  lemma PublishOwned<K(!new), V>(c: Table<K, V>, s: State<K, V>, t: nat)
    requires Inv(c, s) && t < |s.threads| && s.threads[t].Cas?
    ensures Owned(c, PublishStep(c, s, t, s.threads[t], false))
  {
    var pc := s.threads[t];
    var n, b := pc.n, BucketOf(c, pc.k);
    assert Holding(c, s, pc);
    var s' := PublishStep(c, s, t, pc, false);
    OwnersAfter(s.threads, t, s'.threads[t]);
    forall u | 0 <= u < |s'.threads| ensures Holding(c, s', s'.threads[u]) {
      assert Holding(c, s, s.threads[u]);
      assert Owns(pc, n) && (Owns(s.threads[u], n) ==> u == t);
    }
    forall x | 0 <= x < s'.claimed && x < c.capacity && !SomeoneOwns(s'.threads, x)
      ensures x in s'.chains[BucketOf(c, s'.key[x])]
    {
      assert x != n ==> !Owns(s.threads[t], x);
    }
  }

  lemma StepKeeps<K(!new), V>(c: Table<K, V>, s: State<K, V>, e: Choice<K>)
    requires Inv(c, s)
    ensures Inv(c, Step(c, s, e))
  {
    if e.thread < |s.threads| {
      var pc := s.threads[e.thread];
      if pc.Idle? { ThreadOnly(c, s, e.thread, Search(e.k), s.log); }
      else if pc.Search? || pc.Walk? || pc.Missed? { FindKeeps(c, s, e.thread); }
      else if pc.Test? || pc.Bump? || pc.Over? { ClaimKeeps(c, s, e.thread); }
      else { PublishKeeps(c, s, e.thread, e.fails); }
    }
  }

  lemma {:induction false} NoOvers<K>(threads: seq<Pc<K>>)
    requires forall t :: 0 <= t < |threads| ==> !threads[t].Over?
    ensures Overs(threads) == 0
  {
    if threads != [] { NoOvers(threads[1..]); }
  }

  /** The invariant holds in every interleaving of any number of threads. */
  lemma {:induction false} Reachable<K(!new), V>(c: Table<K, V>, s: State<K, V>, schedule: seq<Choice<K>>)
    requires Initial(c, s)
    ensures Inv(c, Run(c, s, schedule))
    decreases |schedule|
  {
    if schedule == [] {
      NoOvers(s.threads);
    } else {
      Reachable(c, s, schedule[..|schedule| - 1]);
      StepKeeps(c, Run(c, s, schedule[..|schedule| - 1]), schedule[|schedule| - 1]);
    }
  }

  // ---------- what follows ----------

  /** With no thread inside an operation, the slots below the counter are exactly the published elements, each with the
      value of its key; releasing the table walks over exactly those slots. */
  lemma Quiescent<K, V>(c: Table<K, V>, s: State<K, V>)
    requires Inv(c, s) && forall t :: 0 <= t < |s.threads| ==> s.threads[t].Idle?
    ensures 0 <= s.counter <= c.capacity
    ensures forall x :: 0 <= x < s.counter ==>
      var b := BucketOf(c, s.key[x]); x in s.chains[b] && s.value[x] == c.f(s.key[x])
    ensures forall b, x :: 0 <= b < c.buckets && x in s.chains[b] ==> 0 <= x < s.counter && BucketOf(c, s.key[x]) == b
  {
    NoOvers(s.threads);
    forall b, x | 0 <= b < c.buckets && x in s.chains[b] ensures 0 <= x < s.counter && BucketOf(c, s.key[x]) == b {
      assert Published(c, s, b, x);
    }
    forall x | 0 <= x < s.counter ensures var b := BucketOf(c, s.key[x]); x in s.chains[b] && s.value[x] == c.f(s.key[x]) {
      var b := BucketOf(c, s.key[x]);
      assert !SomeoneOwns(s.threads, x);
      assert Published(c, s, b, x);
    }
  }

  /** Buckets only grow at the front, and a published element never changes. */
  ghost predicate Grown<K, V>(c: Table<K, V>, s: State<K, V>, s': State<K, V>)
    requires WellFormed(c, s)
  {
    && WellFormed(c, s')
    && (forall b :: 0 <= b < c.buckets ==> Extends(s'.chains[b], s.chains[b]))
    && (forall b, x :: 0 <= b < c.buckets && x in s.chains[b] && 0 <= x < c.capacity ==>
          s'.key[x] == s.key[x] && s'.value[x] == s.value[x] && s'.next[x] == s.next[x])
  }

  /** A step moves one thread, and a thread only walks or misses for the key it has started to search. */
  lemma StepMoves<K(!new), V>(c: Table<K, V>, s: State<K, V>, e: Choice<K>)
    requires WellFormed(c, s)
    ensures WellFormed(c, Step(c, s, e)) && |Step(c, s, e).threads| == |s.threads|
    ensures forall u :: 0 <= u < |s.threads| && u != e.thread ==> Step(c, s, e).threads[u] == s.threads[u]
    ensures e.thread < |s.threads| && (Step(c, s, e).threads[e.thread].Walk? || Step(c, s, e).threads[e.thread].Missed?) ==>
      var pc, pc' := s.threads[e.thread], Step(c, s, e).threads[e.thread];
      || (pc.Search? && pc'.Walk? && pc'.k == pc.k && pc'.seen == KeysOf(s.chains[BucketOf(c, pc.k)], s.key))
      || (pc.Walk? && pc'.k == pc.k && pc'.seen == pc.seen)
  {
    hide KeysOf;
    if e.thread < |s.threads| && s.threads[e.thread].Missed? {
      assert Step(c, s, e).threads[e.thread] == Test(s.threads[e.thread].k);
    }
  }

  lemma StepGrows<K(!new), V>(c: Table<K, V>, s: State<K, V>, e: Choice<K>)
    requires Inv(c, s)
    ensures Grown(c, s, Step(c, s, e))
  {
    hide Inv, Holding, Ahead, KeysOf, PublishStep, Delivered;
    InvShape(c, s);
    var s' := Step(c, s, e);
    if e.thread < |s.threads| {
      Knows(c, s, e.thread);
      var pc := s.threads[e.thread];
      if pc.Fill? || pc.Load? || pc.Store? || pc.Cas? {
        PublishGrows(c, s, e.thread, e.fails);
      } else {
        assert s'.chains == s.chains && s'.key == s.key && s'.value == s.value && s'.next == s.next;
      }
    }
  }

  lemma PublishGrows<K(!new), V>(c: Table<K, V>, s: State<K, V>, t: nat, fails: bool)
    requires WellFormed(c, s) && t < |s.threads| && Holding(c, s, s.threads[t])
    requires s.threads[t].Fill? || s.threads[t].Load? || s.threads[t].Store? || s.threads[t].Cas?
    ensures Grown(c, s, PublishStep(c, s, t, s.threads[t], fails))
  {
  }

  lemma GrownTrans<K, V>(c: Table<K, V>, s: State<K, V>, m: State<K, V>, s': State<K, V>)
    requires WellFormed(c, s) && Grown(c, s, m) && Grown(c, m, s')
    ensures Grown(c, s, s')
  {
    forall b | 0 <= b < c.buckets ensures Extends(s'.chains[b], s.chains[b]) && forall x :: x in s.chains[b] ==> x in m.chains[b] {
      var old0, mid, now := s.chains[b], m.chains[b], s'.chains[b];
      assert now[|now| - |old0|..] == now[|now| - |mid|..][|mid| - |old0|..];
      assert mid == mid[..|mid| - |old0|] + old0;
    }
  }

  /** In every interleaving the chain below a published element is immutable. */
  lemma {:induction false} RunGrows<K(!new), V>(c: Table<K, V>, s: State<K, V>, schedule: seq<Choice<K>>)
    requires Inv(c, s)
    ensures Inv(c, Run(c, s, schedule)) && Grown(c, s, Run(c, s, schedule))
    decreases |schedule|
  {
    if schedule != [] {
      var before := schedule[..|schedule| - 1];
      RunGrows(c, s, before);
      StepKeeps(c, Run(c, s, before), schedule[|schedule| - 1]);
      StepGrows(c, Run(c, s, before), schedule[|schedule| - 1]);
      GrownTrans(c, s, Run(c, s, before), Run(c, s, schedule));
    }
  }

  lemma KeysGrow<K, V>(c: Table<K, V>, s: State<K, V>, s': State<K, V>, b: nat)
    requires WellFormed(c, s) && Grown(c, s, s') && b < c.buckets
    ensures KeysOf(s.chains[b], s.key) <= KeysOf(s'.chains[b], s'.key)
  {
    var before, after := s.chains[b], s'.chains[b];
    assert after == after[..|after| - |before|] + before;
  }

  /** A key that is published is found by every find that loads the head of its bucket afterwards: such a find
      remembers at least what was published, and it misses only keys that it does not remember. */
  lemma {:induction false} LaterFindsSee<K(!new), V>(c: Table<K, V>, s: State<K, V>, schedule: seq<Choice<K>>, t: nat)
    requires Inv(c, s) && t < |s.threads| && (s.threads[t].Idle? || s.threads[t].Search?)
    ensures |Run(c, s, schedule).threads| == |s.threads|
    ensures var pc := Run(c, s, schedule).threads[t];
      && (pc.Walk? || pc.Missed? ==> KeysOf(s.chains[BucketOf(c, pc.k)], s.key) <= pc.seen)
      && (pc.Missed? ==> pc.k !in KeysOf(s.chains[BucketOf(c, pc.k)], s.key))
    decreases |schedule|
  {
    hide KeysOf, Grown, Step, Inv;
    if schedule != [] {
      var before, e := schedule[..|schedule| - 1], schedule[|schedule| - 1];
      var m := Run(c, s, before);
      LaterFindsSee(c, s, before, t);
      RunGrows(c, s, before);
      Knows(c, s, t);
      Knows(c, m, t);
      StepMoves(c, m, e);
      StepKeeps(c, m, e);
      Knows(c, Run(c, s, schedule), t);
      if m.threads[t].Search? {
        KeysGrow(c, s, m, BucketOf(c, m.threads[t].k));
      }
    }
  }

  function Moves<K>(schedule: seq<Choice<K>>, t: nat): nat {
    if schedule == [] then 0
    else Moves(schedule[..|schedule| - 1], t) + if schedule[|schedule| - 1].thread == t then 1 else 0
  }

  ghost predicate KeepsWalking<K(!new), V>(c: Table<K, V>, s: State<K, V>, schedule: seq<Choice<K>>, t: nat) {
    forall i :: 0 <= i <= |schedule| ==> var s' := Run(c, s, schedule[..i]); t < |s'.threads| && s'.threads[t].Walk?
  }

  /** A find ends whatever the other threads publish meanwhile: while it walks, the elements ahead and the moves it has
      made add up to what was ahead at the beginning. */
  lemma {:induction false} FindEnds<K(!new), V>(c: Table<K, V>, s: State<K, V>, schedule: seq<Choice<K>>, t: nat)
    requires Inv(c, s) && KeepsWalking(c, s, schedule, t) && t < |s.threads| && s.threads[t].Walk?
    ensures Moves(schedule, t) <= s.threads[t].left
    ensures t < |Run(c, s, schedule).threads| && Run(c, s, schedule).threads[t].Walk?
    ensures Run(c, s, schedule).threads[t].left + Moves(schedule, t) == s.threads[t].left
    decreases |schedule|
  {
    assert schedule[..|schedule|] == schedule;
    if schedule != [] {
      var before, e := schedule[..|schedule| - 1], schedule[|schedule| - 1];
      assert forall i :: 0 <= i <= |before| ==> before[..i] == schedule[..i];
      FindEnds(c, s, before, t);
      RunGrows(c, s, before);
      OneMove(c, Run(c, s, before), e, t);
    }
  }

  lemma OneMove<K(!new), V>(c: Table<K, V>, s: State<K, V>, e: Choice<K>, t: nat)
    requires Inv(c, s) && t < |s.threads| && s.threads[t].Walk?
    requires t < |Step(c, s, e).threads| && Step(c, s, e).threads[t].Walk?
    ensures Step(c, s, e).threads[t].left == if e.thread == t then s.threads[t].left - 1 else s.threads[t].left
  {
    if e.thread == t {
      Knows(c, s, t);
      WalkAhead(c, s, s.threads[t]);
    } else {
      StepMoves(c, s, e);
    }
  }
}
