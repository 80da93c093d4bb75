/** ConcurrentLRU used by one thread is an exact LRU cache. */
module ConcurrentLruSolo {
  import opened Links
  import opened Sequences
  import opened Labels
  import opened Entries
  import opened ConcurrentLru
  import opened ConcurrentLruSafety
  import opened ConcurrentLruLocks
  import opened ConcurrentLruRequests
  import ExactLru

  /** The keys of the LRU list, least recently used first. */
  function Order<K, V>(s: State<K, V>): seq<K> {
    Label(s.lru, s.key)
  }

  predicate HasKey<K(==), V>(s: State<K, V>, n: int, k: K) {
    0 <= n < |s.key| && s.key[n] == k
  }

  /** The node of a hit is out of the list. */
  predicate Out<K>(pc: Pc<K>) {
    pc.UnlockLeft? || pc.UnlockRight? || pc.ClearLinks?
  }

  /** The node is at the end of the list. */
  predicate Placed<K>(pc: Pc<K>) {
    pc.UnlockLast? || pc.UnlockTail? || pc.Leave? || pc.File?
  }

  ghost predicate SoloFind<K, V>(s: State<K, V>, pc: Pc<K>, before: seq<K>, k: K) {
    Finding(pc) && !pc.Idle? ==>
      && !pc.DropFound? && pc.k == k && Order(s) == before
      && (pc.LockFound? || pc.TestFound? ==> pc.n in s.lru && HasKey(s, pc.n, k))
      && (pc.Produce? ==> k !in before)
  }

  ghost predicate SoloMove<K(!new), V>(s: State<K, V>, pc: Pc<K>, before: seq<K>, k: K) {
    Removing(pc) ==>
      && !pc.DropPrev? && !pc.RelockAlone? && !pc.TestAlone? && !pc.DropBoth? && HasKey(s, pc.n, k) && k in before
      && (Out(pc) ==> pc.n !in s.lru && Order(s) == Without(before, {k}))
      && (!Out(pc) ==> pc.n in s.lru && Order(s) == before)
      && (pc.BackOff? || pc.WaitPrev? || pc.CheckPrev? ==> Next(s, pc.p, pc.n))
  }

  ghost predicate SoloPut<K(!new), V>(c: Config<K, V>, s: State<K, V>, pc: Pc<K>, before: seq<K>, k: K) {
    && (Linking(pc) && !Placed(pc) ==>
          && HasKey(s, pc.n, k) && pc.n !in s.lru
          && if pc.why.Move? then k in before && Order(s) == Without(before, {k})
             else k !in before && Order(s) == ExactLru.Admit(c.capacity, before))
    && (Placed(pc) ==> Order(s) == ExactLru.Access(c.capacity, before, k))
    && !pc.DropLast? && (pc.LockLast? || pc.CheckLast? ==> Next(s, pc.p, TailOf(c.capacity, Lru)))
  }

  ghost predicate SoloTake<K, V>(c: Config<K, V>, s: State<K, V>, pc: Pc<K>, before: seq<K>, k: K) {
    && (Empty(pc) || Getting(pc) ==> pc.k == k && k !in before)
    && (Empty(pc) ==> Order(s) == before && (pc.w == Lru || pc.LeaveEmpty? ==> s.pool == []) && (pc.LeaveEmpty? ==> pc.w == Pool))
    && (Getting(pc) ==> pc.n !in s.lru && Order(s) == ExactLru.Admit(c.capacity, before))
  }

  /** How far the only thread has got with its access to key k. */
  ghost predicate Stage<K(!new), V>(c: Config<K, V>, s: State<K, V>, pc: Pc<K>, before: seq<K>, k: K) {
    && Distinct(before)
    && SoloFind(s, pc, before, k) && SoloMove(s, pc, before, k) && SoloPut(c, s, pc, before, k) && SoloTake(c, s, pc, before, k)
  }

  lemma StagePart<K(!new), V>(c: Config<K, V>, s: State<K, V>, pc: Pc<K>, before: seq<K>, k: K)
    requires Distinct(before)
    ensures Finding(pc) ==> (Stage(c, s, pc, before, k) <==> SoloFind(s, pc, before, k))
    ensures Removing(pc) ==> (Stage(c, s, pc, before, k) <==> SoloMove(s, pc, before, k))
    ensures Appending(pc) || pc.File? ==> (Stage(c, s, pc, before, k) <==> SoloPut(c, s, pc, before, k))
    ensures Empty(pc) || Getting(pc) ==> (Stage(c, s, pc, before, k) <==> SoloTake(c, s, pc, before, k))
  {
    hide SoloFind, SoloMove, SoloPut, SoloTake, Distinct;
    OtherStages(c, s, pc, before, k);
  }

  lemma OtherStages<K(!new), V>(c: Config<K, V>, s: State<K, V>, pc: Pc<K>, before: seq<K>, k: K)
    ensures !Finding(pc) ==> SoloFind(s, pc, before, k)
    ensures !Removing(pc) ==> SoloMove(s, pc, before, k)
    ensures !Appending(pc) && !pc.File? ==> SoloPut(c, s, pc, before, k)
    ensures !Empty(pc) && !Getting(pc) ==> SoloTake(c, s, pc, before, k)
  {
    hide HasKey, Order, Next, ExactLru.Admit, ExactLru.Access;
  }

  // ---------- what holds with one thread ----------

  /** The only thread holds no lock and no node: everything is in the pool, or in the LRU list and filed. */
  lemma AllInPlace<K, V>(c: Config<K, V>, s: State<K, V>)
    requires Inv(c, s) && |s.threads| == 1
    requires forall x :: !HasLock(c.capacity, s.threads[0], x)
    ensures WellFormed(c, s) && forall x :: 0 <= x < c.capacity ==> (s.htFlag[x] <==> x in s.lru)
  {
    hide Buckets, Delivered, Knows, HasLock;
    forall x | 0 <= x < c.capacity ensures s.htFlag[x] <==> x in s.lru {
      var p := PlaceAt(s.place, x);
      if p.Detached? { DetachedIsLocked(c.capacity, s.threads[p.thread], x); }
    }
  }

  /** While the thread has detached nothing, the list is full exactly when the pool is empty. */
  lemma FullOrNot<K, V>(c: Config<K, V>, s: State<K, V>)
    requires Inv(c, s) && |s.threads| == 1 && forall x :: !Detaches(s.threads[0], x)
    ensures Distinct(s.lru) && InRange(s.lru, c.capacity) && |s.lru| <= c.capacity
    ensures s.pool == [] ==> |s.lru| == c.capacity
    ensures s.pool != [] ==> |s.lru| < c.capacity
  {
    hide LockOk, Buckets, FlagsOk, Delivered, Knows, Detaches;
    ListsDistinct(c, s);
    DistinctBelow(s.lru, c.capacity);
    forall x | 0 <= x < c.capacity ensures x in s.lru || x in s.pool {
      var p := PlaceAt(s.place, x);
      assert !p.Detached?;
    }
    if s.pool != [] {
      var x := s.pool[0];
      assert x in s.pool && 0 <= x < c.capacity && x !in s.lru;
    }
  }

  lemma OrderShape<K, V>(c: Config<K, V>, s: State<K, V>)
    requires Inv(c, s)
    ensures |s.key| == c.capacity && Distinct(s.lru) && InRange(s.lru, |s.key|) && |Order(s)| == |s.lru|
    ensures forall i :: 0 <= i < |s.lru| ==> Order(s)[i] == s.key[s.lru[i]]
  {
    hide Inv;
    Shape(c, s);
    ListsDistinct(c, s);
    LabelAt(s.lru, s.key);
  }

  /** Different nodes hold different keys. */
  lemma OrderNamed<K, V>(c: Config<K, V>, s: State<K, V>)
    requires Inv(c, s) && Distinct(Order(s))
    ensures Named(s.lru, s.key)
  {
    hide Inv;
    OrderShape(c, s);
    forall x, y | x in s.lru && y in s.lru && x != y && 0 <= x < |s.key| && 0 <= y < |s.key| ensures s.key[x] != s.key[y] {
      var i := IndexOf(s.lru, x);
      var j := IndexOf(s.lru, y);
      assert Order(s)[i] == s.key[x] && Order(s)[j] == s.key[y];
    }
  }

  lemma KeyInOrder<K, V>(c: Config<K, V>, s: State<K, V>, n: int, k: K)
    requires Inv(c, s)
    ensures n in s.lru && HasKey(s, n, k) ==> k in Order(s)
    ensures k in Order(s) ==> exists x :: x in s.lru && HasKey(s, x, k)
  {
    hide Inv;
    OrderShape(c, s);
    if n in s.lru && HasKey(s, n, k) {
      var i := IndexOf(s.lru, n);
      assert Order(s)[i] == k;
    }
    if k in Order(s) {
      var i := IndexOf(Order(s), k);
      assert s.lru[i] in s.lru && HasKey(s, s.lru[i], k);
    }
  }

  // ---------- the steps of one thread ----------

  lemma FindStage<K(!new), V>(c: Config<K, V>, s: State<K, V>, s': State<K, V>, e: Choice<K>, before: seq<K>, k: K)
    requires Inv(c, s) && WellFormed(c, s) && |s.threads| == |s'.threads| == 1 && e.thread == 0 && s' == FindStep(c, s, 0, e)
    requires Finding(s.threads[0]) && !s.threads[0].Idle? && SoloFind(s, s.threads[0], before, k)
    ensures var pc' := s'.threads[0];
      && ((Finding(pc') && !pc'.Idle?) || Removing(pc') || Empty(pc')) && (Finding(pc') ==> SoloFind(s', pc', before, k))
      && (Removing(pc') ==> SoloMove(s', pc', before, k)) && (Empty(pc') ==> SoloTake(c, s', pc', before, k))
  {
    hide Inv, KnowsAppending, KnowsInserting, Delivered;
    var pc := s.threads[0];
    if pc.Search? {
      SearchStage(c, s, k);
    } else if pc.TestFound? {
      Tested(c, s, 0);
      KeyInOrder(c, s, pc.n, k);
    }
  }

  /** The search of the only thread finds the node of the list that has the key. */
  lemma SearchStage<K(!new), V>(c: Config<K, V>, s: State<K, V>, k: K)
    requires Inv(c, s) && WellFormed(c, s) && |s.threads| == 1 && s.threads[0] == Search(k)
    ensures var n := Seek(s.chains[BucketOf(c, k)], s.key, k);
      if n == NULL then k !in Order(s) else n in s.lru && HasKey(s, n, k)
  {
    hide Inv, HasLock;
    var chain := s.chains[BucketOf(c, k)];
    var n := Seek(chain, s.key, k);
    HoldsNothing(c.capacity, s.threads[0]);
    AllInPlace(c, s);
    SeekFinds(chain, s.key, k);
    SeekNull(chain, s.key, k);
    if n == NULL {
      SeekMisses(chain, s.key, k);
      if k in Order(s) {
        KeyInOrder(c, s, 0, k);
        var x :| x in s.lru && HasKey(s, x, k);
        InBucket(c, s, BucketOf(c, k), x);
        assert false;
      }
    } else {
      InBucket(c, s, BucketOf(c, k), n);
    }
  }

  lemma HoldsNothing<K>(capacity: nat, pc: Pc<K>)
    requires pc.Search?
    ensures forall x :: !HasLock(capacity, pc, x)
  {
  }

  lemma InBucket<K, V>(c: Config<K, V>, s: State<K, V>, b: nat, n: int)
    requires Inv(c, s) && b < c.buckets && |s.chains| == c.buckets && |s.htFlag| == |s.key|
    ensures n in s.chains[b] ==> 0 <= n < |s.htFlag| && s.htFlag[n]
    ensures 0 <= n < |s.htFlag| && s.htFlag[n] && b == BucketOf(c, s.key[n]) ==> n in s.chains[b]
  {
    hide ListsOk, LockOk, DetachOk, FlagsOk, Delivered, Knows;
  }

  lemma MoveStage<K(!new), V>(c: Config<K, V>, s: State<K, V>, s': State<K, V>, e: Choice<K>, before: seq<K>, k: K)
    requires Inv(c, s) && WellFormed(c, s) && |s.threads| == |s'.threads| == 1 && e.thread == 0
    requires s' == RemoveStep(c, s, 0, e)
    requires Removing(s.threads[0]) && SoloMove(s, s.threads[0], before, k) && Distinct(before)
    ensures var pc' := s'.threads[0];
      && (Removing(pc') || pc'.LoadLast?)
      && (Removing(pc') ==> SoloMove(s', pc', before, k)) && (pc'.LoadLast? ==> SoloPut(c, s', pc', before, k))
  {
    hide Inv, WellFormed, RemoveStep, SoloMove, SoloPut;
    var pc := s.threads[0];
    if pc.Unlink? { UnlinkStage(c, s, s', e, before, k); }
    else if Out(pc) { OutStage(c, s, s', e, before, k); }
    else { PrevStage(c, s, s', e, before, k); }
  }

  lemma OutStage<K(!new), V>(c: Config<K, V>, s: State<K, V>, s': State<K, V>, e: Choice<K>, before: seq<K>, k: K)
    requires WellFormed(c, s) && |s.threads| == |s'.threads| == 1 && e.thread == 0 && s' == RemoveStep(c, s, 0, e)
    requires Out(s.threads[0]) && SoloMove(s, s.threads[0], before, k)
    ensures var pc' := s'.threads[0];
      && (Removing(pc') || pc'.LoadLast?)
      && (Removing(pc') ==> SoloMove(s', pc', before, k)) && (pc'.LoadLast? ==> SoloPut(c, s', pc', before, k))
  {
    hide WellFormed;
  }

  lemma PrevStage<K(!new), V>(c: Config<K, V>, s: State<K, V>, s': State<K, V>, e: Choice<K>, before: seq<K>, k: K)
    requires Inv(c, s) && WellFormed(c, s) && |s.threads| == |s'.threads| == 1 && e.thread == 0
    requires s' == RemoveStep(c, s, 0, e)
    requires Removing(s.threads[0]) && !Out(s.threads[0]) && !s.threads[0].Unlink? && SoloMove(s, s.threads[0], before, k)
    ensures Removing(s'.threads[0]) && SoloMove(s', s'.threads[0], before, k)
  {
    hide Inv, WellFormed;
    var pc := s.threads[0];
    if pc.TryPrev? {
      InLruPlace(c, s, pc.n);
      PrevOf(c, s, Lru, pc.n);
    } else if pc.TestBoth? {
      StillFlagged(c, s, 0);
    }
  }

  lemma UnlinkStage<K(!new), V>(c: Config<K, V>, s: State<K, V>, s': State<K, V>, e: Choice<K>, before: seq<K>, k: K)
    requires Inv(c, s) && WellFormed(c, s) && |s.threads| == |s'.threads| == 1 && e.thread == 0
    requires s' == RemoveStep(c, s, 0, e)
    requires s.threads[0].Unlink? && SoloMove(s, s.threads[0], before, k) && Distinct(before)
    ensures s'.threads[0].UnlockLeft? && SoloMove(s', s'.threads[0], before, k)
  {
    hide Inv, WellFormed, Distinct;
    OrderNamed(c, s);
    OrderWithout(c, s, s.threads[0].n, k);
  }

  lemma InLruPlace<K, V>(c: Config<K, V>, s: State<K, V>, n: int)
    requires Inv(c, s) && n in s.lru
    ensures 0 <= n < c.capacity && PlaceAt(s.place, n) == Where(Lru)
  {
    hide LockOk, DetachOk, Buckets, FlagsOk, Delivered, Knows;
    var i := IndexOf(s.lru, n);
  }

  lemma OrderWithout<K(!new), V>(c: Config<K, V>, s: State<K, V>, n: int, k: K)
    requires Inv(c, s) && Named(s.lru, s.key) && n in s.lru && HasKey(s, n, k)
    ensures Label(Without(s.lru, {n}), s.key) == Without(Order(s), {k}) && n !in Without(s.lru, {n})
  {
    hide Inv;
    LabelOne(n, s.key);
    LabelWithout(s.lru, [n], s.lru, s.key);
    WithoutMembers(s.lru, {n});
  }

  lemma PutStage<K(!new), V>(c: Config<K, V>, s: State<K, V>, s': State<K, V>, before: seq<K>, k: K)
    requires Inv(c, s) && WellFormed(c, s) && |s.threads| == |s'.threads| == 1 && s' == AppendStep(c, s, 0)
    requires Appending(s.threads[0]) && SoloPut(c, s, s.threads[0], before, k)
    ensures var pc' := s'.threads[0];
      && (Appending(pc') || pc'.File? || pc'.Idle?)
      && (!pc'.Idle? ==> SoloPut(c, s', pc', before, k))
      && (pc'.Idle? ==> Order(s') == ExactLru.Access(c.capacity, before, k))
  {
    hide Inv, WellFormed;
    var pc := s.threads[0];
    if pc.LoadLast? { PrevOf(c, s, Lru, TailOf(c.capacity, Lru)); }
    if pc.Append? {
      hide Order;
      AppendOrder(s, s', pc.n, k);
    }
  }

  lemma AppendOrder<K, V>(s: State<K, V>, s': State<K, V>, n: int, k: K)
    requires s'.lru == s.lru + [n] && s'.key == s.key && HasKey(s, n, k)
    ensures Order(s') == Order(s) + [k]
  {
    LabelConcat(s.lru, [n], s.key);
    LabelOne(n, s.key);
  }

  lemma TakeStage<K(!new), V>(c: Config<K, V>, s: State<K, V>, s': State<K, V>, e: Choice<K>, before: seq<K>, k: K)
    requires Inv(c, s) && WellFormed(c, s) && |s.threads| == |s'.threads| == 1 && e.thread == 0 && c.capacity > 0
    requires Empty(s.threads[0]) && SoloTake(c, s, s.threads[0], before, k) && s' == InsertStep(c, s, 0, e)
    ensures var pc' := s'.threads[0]; (Empty(pc') || Getting(pc')) && SoloTake(c, s', pc', before, k)
  {
    hide Inv, WellFormed;
    if s.threads[0].LockFirst? {
      PoolEmpty(c, s);
      LruEmpty(c, s);
    } else if s.threads[0].Detach? {
      DetachStage(c, s, before);
    }
  }

  lemma GetStage<K(!new), V>(c: Config<K, V>, s: State<K, V>, s': State<K, V>, e: Choice<K>, before: seq<K>, k: K)
    requires Inv(c, s) && WellFormed(c, s) && |s.threads| == |s'.threads| == 1 && e.thread == 0
    requires Getting(s.threads[0]) && SoloTake(c, s, s.threads[0], before, k) && s' == InsertStep(c, s, 0, e)
    ensures var pc' := s'.threads[0];
      && (Getting(pc') || pc'.LoadLast?)
      && (!pc'.LoadLast? ==> SoloTake(c, s', pc', before, k)) && (pc'.LoadLast? ==> SoloPut(c, s', pc', before, k))
  {
    hide Inv, Before;
    var pc := s.threads[0];
    if pc.Fill? {
      OwnNode(c, s, 0, pc.n);
      LabelWrite(s.lru, s.key, pc.n, k);
    }
  }

  /** When the pool is empty and nothing is detached, the LRU list has a first node. */
  lemma LruEmpty<K, V>(c: Config<K, V>, s: State<K, V>)
    requires Inv(c, s) && |s.threads| == 1 && s.threads[0].LockFirst? && c.capacity > 0
    ensures s.pool == [] ==> Cell(s.next, HeadOf(c.capacity, Lru), NULL) != TailOf(c.capacity, Lru)
  {
    hide LockOk, DetachOk, Buckets, FlagsOk, Delivered, Knows;
    FullOrNot(c, s);
    var path := Path(c.capacity, s.lru, Lru);
    assert s.next[path[0]] == path[0 + 1];
    if s.lru != [] { assert path[1] == s.lru[0] && 0 <= s.lru[0] < c.capacity; }
  }

  lemma DetachStage<K(!new), V>(c: Config<K, V>, s: State<K, V>, before: seq<K>)
    requires Inv(c, s) && |s.threads| == 1 && s.threads[0].Detach? && Order(s) == before
    requires s.threads[0].w == Lru ==> s.pool == []
    ensures var n, w := s.threads[0].n, s.threads[0].w;
      && var rest := if w == Lru then Without(s.lru, {n}) else s.lru;
        n !in rest && Label(rest, s.key) == ExactLru.Admit(c.capacity, before)
  {
    hide Inv;
    var n, w := s.threads[0].n, s.threads[0].w;
    Log(c, s, 0);
    InBounds(c, s, w, n);
    ListsDistinct(c, s);
    InList(c, s, w, n);
    FullOrNot(c, s);
    OrderShape(c, s);
    Listed(c, s, n);
    if w == Lru {
      FirstOfList(c, s, n);
      WithoutMembers(s.lru, {n});
      LabelConcat([s.lru[0]], s.lru[1..], s.key);
      assert s.lru == [s.lru[0]] + s.lru[1..];
      LabelOne(n, s.key);
    }
  }

  // ---------- whole runs of one thread ----------

  ghost predicate Solo<K(!new), V>(c: Config<K, V>, s: State<K, V>, asked: seq<K>) {
    && |s.threads| == 1
    && if s.threads[0].Idle? then Order(s) == ExactLru.Run(c.capacity, asked)
       else asked != [] && Stage(c, s, s.threads[0], ExactLru.Run(c.capacity, asked[..|asked| - 1]), asked[|asked| - 1])
  }

  lemma SoloStep<K(!new), V>(c: Config<K, V>, s: State<K, V>, e: Choice<K>, asked: seq<K>)
    requires Inv(c, s) && WellFormed(c, s) && Solo(c, s, asked) && e.thread == 0 && c.capacity > 0
    requires |Step(c, s, e).threads| == 1
    ensures Solo(c, Step(c, s, e), if s.threads[0].Idle? then asked + [e.k] else asked)
  {
    hide Inv, WellFormed, Stage, SoloFind, SoloMove, SoloPut, SoloTake, FindStep, RemoveStep, AppendStep, InsertStep,
         Distinct, Order;
    var pc, s' := s.threads[0], Step(c, s, e);
    if pc.Idle? {
      BeginStage(c, s, e, asked);
    } else {
      var before, k := ExactLru.Run(c.capacity, asked[..|asked| - 1]), asked[|asked| - 1];
      RunDistinct(c.capacity, asked[..|asked| - 1]);
      StagePart(c, s, pc, before, k);
      StagePart(c, s', s'.threads[0], before, k);
      if Finding(pc) { FindStage(c, s, s', e, before, k); }
      else if Removing(pc) { MoveStage(c, s, s', e, before, k); }
      else if Appending(pc) { PutStage(c, s, s', before, k); }
      else if pc.File? { FileStage(c, s, s', e, before, k); }
      else if Getting(pc) { GetStage(c, s, s', e, before, k); }
      else { TakeStage(c, s, s', e, before, k); }
    }
  }

  lemma RunDistinct<K(!new)>(capacity: nat, trace: seq<K>)
    requires capacity > 0
    ensures Distinct(ExactLru.Run(capacity, trace))
  {
    ExactLru.RunIsNewest(capacity, trace);
    ExactLru.ByLastUseDistinct(trace);
  }

  lemma FileStage<K(!new), V>(c: Config<K, V>, s: State<K, V>, s': State<K, V>, e: Choice<K>, before: seq<K>, k: K)
    requires WellFormed(c, s) && |s.threads| == |s'.threads| == 1 && e.thread == 0 && s' == InsertStep(c, s, 0, e)
    requires s.threads[0].File? && SoloPut(c, s, s.threads[0], before, k)
    ensures s'.threads[0].Leave? && SoloPut(c, s', s'.threads[0], before, k)
  {
  }

  lemma BeginStage<K(!new), V>(c: Config<K, V>, s: State<K, V>, e: Choice<K>, asked: seq<K>)
    requires WellFormed(c, s) && |s.threads| == 1 && s.threads[0].Idle? && e.thread == 0 && c.capacity > 0
    requires Order(s) == ExactLru.Run(c.capacity, asked)
    ensures Solo(c, FindStep(c, s, 0, e), asked + [e.k])
  {
    hide Distinct;
    RunDistinct(c.capacity, asked);
    var s' := FindStep(c, s, 0, e);
    assert (asked + [e.k])[..|asked|] == asked;
    StagePart(c, s', s'.threads[0], ExactLru.Run(c.capacity, asked), e.k);
  }

  lemma {:induction false} SoloRun<K(!new), V>(c: Config<K, V>, s: State<K, V>, schedule: seq<Choice<K>>)
    requires Initial(c, s) && |s.threads| == 1 && c.capacity > 0
    ensures Solo(c, Run(c, s, schedule), Watch(c, s, schedule).asked)
    decreases |schedule|
  {
    hide Inv, Step, Stage, Observe;
    if schedule != [] {
      var before, e := schedule[..|schedule| - 1], schedule[|schedule| - 1];
      var m := Run(c, s, before);
      SoloRun(c, s, before);
      Reachable(c, s, before);
      RunThreads(c, s, before);
      WatchFits(c, s, before);
      StepMoves(c, m, e);
      if e.thread == 0 { SoloStep(c, m, e, Watch(c, s, before).asked); }
    }
  }

  /** With one thread ConcurrentLRU is an exact LRU cache: whenever the thread is idle the keys of the LRU list are those of
      the exact policy on the keys asked for so far, that is the most recently used distinct keys, ordered by last use. */
  lemma OneThreadIsExactLru<K(!new), V>(c: Config<K, V>, key: K, value: V, schedule: seq<Choice<K>>)
    requires c.capacity > 0 && c.buckets > 0
    ensures var s, h := Run(c, Start(c, 1, key, value), schedule), Watch(c, Start(c, 1, key, value), schedule);
      |s.threads| == 1 && (s.threads[0].Idle? ==>
        && Order(s) == ExactLru.Run(c.capacity, h.asked)
        && Order(s) == ExactLru.Newest(ExactLru.ByLastUse(h.asked), c.capacity))
  {
    hide Inv, Step, Stage, Order;
    StartIsInitial(c, 1, key, value);
    SoloRun(c, Start(c, 1, key, value), schedule);
    ExactLru.RunIsNewest(c.capacity, Watch(c, Start(c, 1, key, value), schedule).asked);
  }

  // ---------- alone, every request ends ----------

  /** How far the only thread still has to go. */
  function Rank<K>(pc: Pc<K>): nat {
    match pc
    case Idle => 0
    case Search(_) => 60
    case LockFound(_, _) => 59
    case TestFound(_, _) => 58
    case DropFound(_, _) => 51
    case TryPrev(_) => 57
    case BackOff(_, _) => 56
    case WaitPrev(_, _) => 55
    case CheckPrev(_, _) => 54
    case Relock(_, _) => 53
    case TestBoth(_, _) => 52
    case DropBoth(_, _) => 13
    case DropPrev(_, _) => 60
    case RelockAlone(_) => 59
    case TestAlone(_) => 58
    case LockNext(_, _) => 30
    case Unlink(_, _, _) => 29
    case UnlockLeft(_, _, _) => 28
    case UnlockRight(_, _) => 27
    case ClearLinks(_) => 26
    case Produce(_) => 50
    case LockHead(_, w) => if w == Pool then 48 else 45
    case LockFirst(_, w) => if w == Pool then 47 else 44
    case LeaveEmpty(_, _) => 46
    case LockSecond(_, _, _) => 43
    case Detach(_, _, _, _) => 42
    case UnlockHead(_, _, _, _) => 41
    case UnlockSecond(_, _, _, _) => 40
    case ClearFirst(_, _, _) => 39
    case Unflag(_, _) => 38
    case AwaitFiled(_, _) => 37
    case Unfile(_, _) => 36
    case Fill(_, _) => 35
    case LoadLast(_, _) => 20
    case LockLast(_, _, _) => 19
    case CheckLast(_, _, _) => 18
    case DropLast(_, _, _) => 21
    case LockTail(_, _, _) => 17
    case Append(_, _, _) => 16
    case UnlockLast(_, _, _) => 15
    case UnlockTail(_, _) => 14
    case File(_, _) => 13
    case Leave(_) => 12
  }

  /** The only thread finds every lock free that it does not hold itself. */
  lemma LockFree<K, V>(c: Config<K, V>, s: State<K, V>, x: int)
    requires Inv(c, s) && |s.threads| == 1 && 0 <= x < c.capacity + 4 && !HasLock(c.capacity, s.threads[0], x)
    ensures Cell(s.lock, x, 0) == NULL
  {
    hide ListsOk, DetachOk, Buckets, FlagsOk, Delivered, Knows;
  }

  /** What the only thread waits for is free. */
  lemma WantedFree<K(!new), V>(c: Config<K, V>, s: State<K, V>)
    requires Inv(c, s) && |s.threads| == 1
    ensures var x := Wants(c, s, s.threads[0]); x != NULL ==> Cell(s.lock, x, 0) == NULL
  {
    hide Inv, HasLock, Wants;
    NoSelfLock(c, s, 0);
    if Wants(c, s, s.threads[0]) != NULL { LockFree(c, s, Wants(c, s, s.threads[0])); }
  }

  lemma FindGoes<K(!new), V>(c: Config<K, V>, s: State<K, V>, e: Choice<K>)
    requires Inv(c, s) && WellFormed(c, s) && |s.threads| == 1 && Finding(s.threads[0]) && !s.threads[0].Idle?
    requires !s.threads[0].DropFound?
    ensures var s' := FindStep(c, s, 0, e); |s'.threads| == 1 && Rank(s'.threads[0]) < Rank(s.threads[0])
  {
    hide Inv, WellFormed;
    WantedFree(c, s);
    Awaited(c, s, 0);
  }

  lemma RemoveGoes<K(!new), V>(c: Config<K, V>, s: State<K, V>, e: Choice<K>, before: seq<K>, k: K)
    requires Inv(c, s) && WellFormed(c, s) && |s.threads| == 1 && Removing(s.threads[0]) && !e.fails
    requires SoloMove(s, s.threads[0], before, k)
    ensures var s' := RemoveStep(c, s, 0, e); |s'.threads| == 1 && Rank(s'.threads[0]) < Rank(s.threads[0])
  {
    hide Inv, WellFormed, Order;
    WantedFree(c, s);
    Awaited(c, s, 0);
    if s.threads[0].TestBoth? { StillFlagged(c, s, 0); }
  }

  lemma AppendGoes<K(!new), V>(c: Config<K, V>, s: State<K, V>, before: seq<K>, k: K)
    requires Inv(c, s) && WellFormed(c, s) && |s.threads| == 1 && Appending(s.threads[0])
    requires SoloPut(c, s, s.threads[0], before, k)
    ensures var s' := AppendStep(c, s, 0); |s'.threads| == 1 && Rank(s'.threads[0]) < Rank(s.threads[0])
  {
    hide Inv, WellFormed, Order, ExactLru.Admit, ExactLru.Access;
    WantedFree(c, s);
    Awaited(c, s, 0);
  }

  lemma TakeGoes<K(!new), V>(c: Config<K, V>, s: State<K, V>, e: Choice<K>, before: seq<K>, k: K)
    requires Inv(c, s) && WellFormed(c, s) && |s.threads| == 1 && !e.fails && c.capacity > 0
    requires Empty(s.threads[0]) && SoloTake(c, s, s.threads[0], before, k)
    ensures var s' := InsertStep(c, s, 0, e); |s'.threads| == 1 && Rank(s'.threads[0]) < Rank(s.threads[0])
  {
    hide Inv, WellFormed, Order, ExactLru.Admit;
    var pc := s.threads[0];
    WantedFree(c, s);
    Awaited(c, s, 0);
    if pc.LockFirst? { LruEmpty(c, s); NextOf(c, s, pc.w, HeadOf(c.capacity, pc.w)); }
  }

  lemma GetGoes<K(!new), V>(c: Config<K, V>, s: State<K, V>, e: Choice<K>)
    requires Inv(c, s) && WellFormed(c, s) && |s.threads| == 1 && !e.fails && (Getting(s.threads[0]) || s.threads[0].File?)
    ensures var s' := InsertStep(c, s, 0, e); |s'.threads| == 1 && Rank(s'.threads[0]) < Rank(s.threads[0])
  {
    hide Inv, Before, InsertStep, WellFormed;
    Awaited(c, s, 0);
    if s.threads[0].Unfile? { UnfileGoes(c, s, e); } else { OtherGoes(c, s, e); }
  }

  lemma UnfileGoes<K(!new), V>(c: Config<K, V>, s: State<K, V>, e: Choice<K>)
    requires Inv(c, s) && WellFormed(c, s) && |s.threads| == 1 && !e.fails && s.threads[0].Unfile?
    ensures var s' := InsertStep(c, s, 0, e); |s'.threads| == 1 && s'.threads[0].Fill?
  {
    hide Inv, Before;
    OwnNode(c, s, 0, s.threads[0].n);
    NeighbourFree(c, s);
  }

  lemma OtherGoes<K(!new), V>(c: Config<K, V>, s: State<K, V>, e: Choice<K>)
    requires WellFormed(c, s) && |s.threads| == 1 && (Getting(s.threads[0]) || s.threads[0].File?) && !s.threads[0].Unfile?
    requires s.threads[0].AwaitFiled? ==> Cell(s.htFlag, s.threads[0].n, false)
    ensures var s' := InsertStep(c, s, 0, e); |s'.threads| == 1 && Rank(s'.threads[0]) < Rank(s.threads[0])
  {
    hide WellFormed, InsertStep, Rank;
    var pc := s.threads[0];
    if pc.UnlockHead? || pc.UnlockSecond? || pc.ClearFirst? { UnlockGoes(c, s, e); } else { FillGoes(c, s, e); }
  }

  lemma UnlockGoes<K(!new), V>(c: Config<K, V>, s: State<K, V>, e: Choice<K>)
    requires WellFormed(c, s) && |s.threads| == 1
    requires s.threads[0].UnlockHead? || s.threads[0].UnlockSecond? || s.threads[0].ClearFirst?
    ensures var s' := InsertStep(c, s, 0, e); |s'.threads| == 1 && Rank(s'.threads[0]) < Rank(s.threads[0])
  {
    hide WellFormed;
  }

  lemma FillGoes<K(!new), V>(c: Config<K, V>, s: State<K, V>, e: Choice<K>)
    requires WellFormed(c, s) && |s.threads| == 1
    requires s.threads[0].Unflag? || s.threads[0].AwaitFiled? || s.threads[0].Fill? || s.threads[0].File?
    requires s.threads[0].AwaitFiled? ==> Cell(s.htFlag, s.threads[0].n, false)
    ensures var s' := InsertStep(c, s, 0, e); |s'.threads| == 1 && Rank(s'.threads[0]) < Rank(s.threads[0])
  {
    hide WellFormed;
  }

  /** Nobody holds the node in front of the one being taken out of its bucket. */
  lemma NeighbourFree<K(!new), V>(c: Config<K, V>, s: State<K, V>)
    requires Inv(c, s) && WellFormed(c, s) && |s.threads| == 1 && s.threads[0].Unfile? && 0 <= s.threads[0].n < c.capacity
    ensures var m := Before(s.chains[BucketOf(c, s.key[s.threads[0].n])], s.threads[0].n);
      m != NULL ==> Cell(s.lock, m, 0) == NULL
  {
    hide Inv;
    var b, n := BucketOf(c, s.key[s.threads[0].n]), s.threads[0].n;
    BeforeIn(s.chains[b], n);
    ChainDistinct(c, s, b);
    var m := Before(s.chains[b], n);
    if m != NULL { LockFree(c, s, m); }
  }

  lemma StepGoes<K(!new), V>(c: Config<K, V>, s: State<K, V>, e: Choice<K>, asked: seq<K>)
    requires Inv(c, s) && WellFormed(c, s) && Solo(c, s, asked) && e.thread == 0 && !e.fails && c.capacity > 0
    requires !s.threads[0].Idle?
    ensures var s' := Step(c, s, e); |s'.threads| == 1 && Rank(s'.threads[0]) < Rank(s.threads[0])
  {
    hide Inv, WellFormed, SoloFind, SoloMove, SoloPut, SoloTake, FindStep, RemoveStep, AppendStep, InsertStep,
         Distinct, Order, Rank;
    var pc, before, k := s.threads[0], ExactLru.Run(c.capacity, asked[..|asked| - 1]), asked[|asked| - 1];
    NoDrop(s, pc, before, k);
    if Finding(pc) { FindGoes(c, s, e); }
    else if Removing(pc) { RemoveGoes(c, s, e, before, k); }
    else if Appending(pc) { AppendGoes(c, s, before, k); }
    else if Empty(pc) { TakeGoes(c, s, e, before, k); }
    else { GetGoes(c, s, e); }
  }

  lemma NoDrop<K, V>(s: State<K, V>, pc: Pc<K>, before: seq<K>, k: K)
    requires SoloFind(s, pc, before, k)
    ensures !pc.DropFound?
  {
  }

  /** Steps of the only thread in which nothing fails for no reason. */
  function Undisturbed<K>(k: K, n: nat): seq<Choice<K>> {
    seq(n, i => Choice(0, k, false))
  }

  /** How far the first thread still has to go. */
  function RankOf<K, V>(s: State<K, V>): nat {
    if s.threads == [] then 0 else Rank(s.threads[0])
  }

  lemma {:induction false} Finishes<K(!new), V>(c: Config<K, V>, s0: State<K, V>, schedule: seq<Choice<K>>,
                                                k: K) returns (n: nat)
    requires Initial(c, s0) && |s0.threads| == 1 && c.capacity > 0
    ensures var s := Run(c, s0, schedule + Undisturbed(k, n)); |s.threads| == 1 && s.threads[0].Idle?
    ensures n <= RankOf(Run(c, s0, schedule))
    decreases RankOf(Run(c, s0, schedule))
  {
    hide Inv, Step, Stage, Rank;
    var s := Run(c, s0, schedule);
    SoloRun(c, s0, schedule);
    if s.threads[0].Idle? {
      n := 0;
      assert schedule + Undisturbed(k, 0) == schedule;
    } else {
      var e := Choice(0, k, false);
      Reachable(c, s0, schedule);
      Shape(c, s);
      StepGoes(c, s, e, Watch(c, s0, schedule).asked);
      assert (schedule + [e])[..|schedule|] == schedule;
      var m := Finishes(c, s0, schedule + [e], k);
      n := m + 1;
      assert schedule + Undisturbed(k, n) == schedule + [e] + Undisturbed(k, m);
    }
  }

  lemma RankBound<K>(pc: Pc<K>)
    ensures Rank(pc) <= 60
  {
  }

  lemma OneThread<K, V>(c: Config<K, V>, key: K, value: V)
    ensures |Start(c, 1, key, value).threads| == 1
  {
  }

  /** Alone with the cache, a thread finishes its request in at most 60 steps from every state that it can be in, unless a lock
      attempt fails for no reason. */
  lemma AloneItFinishes<K(!new), V>(c: Config<K, V>, key: K, value: V, schedule: seq<Choice<K>>)
    requires c.capacity > 0 && c.buckets > 0
    ensures exists n: nat ::
      && n <= 60
      && var s := Run(c, Start(c, 1, key, value), schedule + Undisturbed(key, n)); |s.threads| == 1 && s.threads[0].Idle?
  {
    hide Inv, Step, Start, Rank, Stage;
    StartIsInitial(c, 1, key, value);
    OneThread(c, key, value);
    SoloRun(c, Start(c, 1, key, value), schedule);
    RankBound(Run(c, Start(c, 1, key, value), schedule).threads[0]);
    var n := Finishes(c, Start(c, 1, key, value), schedule, key);
  }
}
