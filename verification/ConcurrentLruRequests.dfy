/** What every request to a ConcurrentLRU does from its beginning to its end, whatever the other threads do, and what
    order that leaves the nodes in. An observer of the run keeps the records; the machine does not know of them. */
module ConcurrentLruRequests {
  import opened Links
  import opened Sequences
  import opened Entries
  import opened ConcurrentLru
  import opened ConcurrentLruSafety

  /** One request: whether some filed node had its key when the find searched, whether a node was found and had another
      key once it was locked, the values delivered to the thread, the nodes they came from, the nodes the thread took out
      of the LRU list and out of the pool, those it put at the end of the LRU list, the pairs it filed, the clock when a
      value was delivered, and the stamps of its appends. */
  datatype Request<!K, !V> = NoRequest
    | Request(key: K, sought: seq<bool>, rekeyed: bool, delivered: seq<(K, V)>, hit: seq<int>, left: seq<int>,
              taken: seq<int>, appended: seq<int>, filed: seq<(K, V)>, since: nat, stamps: seq<nat>)

  /** The latest request of every thread, the keys asked for, and a clock that counts appends: `stamp` is the time of
      the last append of a node. */
  datatype History<!K, !V> = History(requests: seq<Request<K, V>>, asked: seq<K>, clock: nat, stamp: seq<nat>)

  ghost predicate SomeFiled<K, V>(s: State<K, V>, k: K) {
    exists x :: 0 <= x < |s.htFlag| && x < |s.key| && s.htFlag[x] && s.key[x] == k
  }

  ghost function Began<K, V>(k: K): Request<K, V> {
    Request(k, [], false, [], [], [], [], [], [], 0, [])
  }

  /** The record of the moving thread's request after its step from `s` to `s'`. */
  ghost function Observe<K(!new), V>(c: Config<K, V>, s: State<K, V>, s': State<K, V>, e: Choice<K>, r: Request<K,
                                     V>, clock: nat)
    : Request<K, V>
    requires WellFormed(c, s) && WellFormed(c, s') && e.thread < |s.threads|
  {
    var pc := s.threads[e.thread];
    if pc.Idle? then Began(e.k)
    else if r.NoRequest? then r
    else
      var b := BucketOf(c, r.key);
      var given, put := Added(s.log, s'.log), Missing(s'.lru, s.lru);
      Request(r.key,
              if pc.Search? then r.sought + [SomeFiled(s, r.key)] else r.sought,
              r.rekeyed || (pc.TestFound? && 0 <= pc.n < |s.key| && s.key[pc.n] != r.key),
              r.delivered + given,
              if pc.TestFound? && given != [] then r.hit + [pc.n] else r.hit,
              r.left + Missing(s.lru, s'.lru), r.taken + Missing(s.pool, s'.pool), r.appended + put,
              r.filed + Fronted(s.chains[b], s'.chains[b], s'.key, s'.value),
              if given != [] then clock else r.since,
              if put != [] then r.stamps + [clock + 1] else r.stamps)
  }

  /** Every append lets the clock tick and stamps the node. */
  ghost function Note<K(!new), V>(c: Config<K, V>, m: State<K, V>, e: Choice<K>, h: History<K, V>): History<K, V> {
    if !WellFormed(c, m) || !WellFormed(c, Step(c, m, e)) || e.thread >= |m.threads| || e.thread >= |h.requests| then h
    else
      var s' := Step(c, m, e);
      var put := Missing(s'.lru, m.lru);
      History(h.requests[e.thread := Observe(c, m, s', e, h.requests[e.thread], h.clock)],
              if m.threads[e.thread].Idle? then h.asked + [e.k] else h.asked,
              if put != [] then h.clock + 1 else h.clock,
              if put != [] then Put(h.stamp, put[0], h.clock + 1) else h.stamp)
  }

  ghost function Watch<K(!new), V>(c: Config<K, V>, s: State<K, V>, schedule: seq<Choice<K>>): History<K, V> {
    if schedule == [] then History(seq(|s.threads|, i => NoRequest), [], 0, seq(c.capacity, i => 0))
    else
      var m, h := Run(c, s, schedule[..|schedule| - 1]), Watch(c, s, schedule[..|schedule| - 1]);
      Note(c, m, schedule[|schedule| - 1], h)
  }

  /** What a finished request has done. One value was delivered, that of its key. A hit took its node out of the LRU list,
      put it at the end and did nothing else. A miss, which has found no node with the key or one that was reused for
      another key before it could be locked, took one node, put it at the end of the LRU list and filed it with the key
      and its value. Either way the node got a new stamp after the delivery. */
  ghost predicate Completed<K, V>(c: Config<K, V>, r: Request<K, V>) {
    r.Request? ==>
      && |r.sought| == 1 && r.delivered == [(r.key, c.f(r.key))] && |r.appended| == 1
      && (if r.hit != [] then r.hit == r.left == r.appended && r.taken == [] && r.filed == [] && r.sought[0]
          else r.taken + r.left == r.appended && r.filed == [(r.key, c.f(r.key))] && (r.rekeyed || !r.sought[0]))
      && |r.stamps| == 1 && r.stamps[0] > r.since
  }

  // ---------- what is observed on the way ----------

  /** Nothing has been delivered yet. */
  ghost predicate Looking<K, V>(pc: Pc<K>, r: Request<K, V>)
    requires r.Request?
  {
    Finding(pc) && !pc.Idle? ==>
      && r.key == pc.k && r.delivered == [] && r.hit == r.left == r.taken == r.appended == [] && r.filed == []
      && r.stamps == []
      && (pc.Search? ==> r.sought == [] && !r.rekeyed)
      && (pc.LockFound? || pc.TestFound? ==> r.sought == [true] && !r.rekeyed)
      && (pc.DropFound? ==> r.sought == [true] && r.rekeyed)
      && (pc.Produce? ==> |r.sought| == 1 && (r.rekeyed || !r.sought[0]))
  }

  /** The value came from node n. */
  ghost predicate Hit<K, V>(c: Config<K, V>, r: Request<K, V>, n: int)
    requires r.Request?
  {
    && r.delivered == [(r.key, c.f(r.key))] && r.hit == [n] && r.taken == [] && r.filed == [] && r.sought == [true]
  }

  /** The value was produced. */
  ghost predicate Missed<K, V>(c: Config<K, V>, r: Request<K, V>)
    requires r.Request?
  {
    && r.delivered == [(r.key, c.f(r.key))] && r.hit == [] && |r.sought| == 1 && (r.rekeyed || !r.sought[0]) && r.filed == []
  }

  /** A hit on its way out of the list: its node is still in the list or already out of it. */
  ghost predicate Moving<K, V>(c: Config<K, V>, pc: Pc<K>, r: Request<K, V>)
    requires r.Request?
  {
    Removing(pc) ==>
      && !pc.DropBoth? && Hit(c, r, pc.n) && r.appended == [] && r.stamps == []
      && r.left == if pc.UnlockLeft? || pc.UnlockRight? || pc.ClearLinks? then [pc.n] else []
  }

  /** Where the node to append comes from. */
  ghost predicate Carried<K, V>(c: Config<K, V>, r: Request<K, V>, n: int, why: Why<K>)
    requires r.Request?
  {
    if why.Move? then Hit(c, r, n) && r.left == [n] else Missed(c, r) && r.key == why.k && r.taken + r.left == [n]
  }

  /** The thread is in listInsertBefore. */
  predicate Linking<K>(pc: Pc<K>) {
    Appending(pc) && !pc.Leave?
  }

  ghost predicate Putting<K, V>(c: Config<K, V>, pc: Pc<K>, r: Request<K, V>)
    requires r.Request?
  {
    && (Linking(pc) ==> Carried(c, r, pc.n, pc.why))
    && (pc.File? ==> Carried(c, r, pc.n, Add(pc.k)))
    && (Linking(pc) && !pc.UnlockLast? && !pc.UnlockTail? ==> r.appended == [] && r.stamps == [])
    && (pc.UnlockLast? || pc.UnlockTail? || pc.File? ==>
          r.appended == [pc.n] && |r.stamps| == 1 && r.stamps[0] > r.since)
    && (pc.Leave? ==> Completed(c, r))
  }

  /** The thread has no node yet. */
  predicate Empty<K>(pc: Pc<K>) {
    pc.LockHead? || pc.LockFirst? || pc.LeaveEmpty? || pc.LockSecond? || pc.Detach?
  }

  /** The thread has taken a node out of the pool or evicted it, and not yet filled it. */
  predicate Getting<K>(pc: Pc<K>) {
    pc.UnlockHead? || pc.UnlockSecond? || pc.ClearFirst? || pc.Unflag? || pc.AwaitFiled? || pc.Unfile? || pc.Fill?
  }

  ghost predicate Taking<K, V>(c: Config<K, V>, pc: Pc<K>, r: Request<K, V>)
    requires r.Request?
  {
    && (Empty(pc) || Getting(pc) ==> r.key == pc.k && Missed(c, r) && r.appended == [] && r.stamps == [])
    && (Empty(pc) ==> r.taken == r.left == [])
    && (Getting(pc) ==> r.taken + r.left == [pc.n])
  }

  ghost predicate Fits<K, V>(c: Config<K, V>, pc: Pc<K>, r: Request<K, V>) {
    && (pc.Idle? ==> Completed(c, r))
    && (!pc.Idle? ==> r.Request? && Looking(pc, r) && Moving(c, pc, r) && Putting(c, pc, r) && Taking(c, pc, r))
  }

  /** Each kind of program counter has its own part of the record to fit. */
  lemma FitsPart<K, V>(c: Config<K, V>, pc: Pc<K>, r: Request<K, V>)
    ensures pc.Idle? ==> (Fits(c, pc, r) <==> Completed(c, r))
    ensures Finding(pc) && !pc.Idle? ==> (Fits(c, pc, r) <==> r.Request? && Looking(pc, r))
    ensures Removing(pc) ==> (Fits(c, pc, r) <==> r.Request? && Moving(c, pc, r))
    ensures Appending(pc) || pc.File? ==> (Fits(c, pc, r) <==> r.Request? && Putting(c, pc, r))
    ensures Empty(pc) || Getting(pc) ==> (Fits(c, pc, r) <==> r.Request? && Taking(c, pc, r))
  {
    hide Looking, Moving, Putting, Taking, Finding, Removing, Appending, Empty, Getting;
    KindsApart(pc);
    if r.Request? {
      OtherParts(c, pc, r);
    }
  }

  /** A program counter is of one kind only. */
  lemma KindsApart<K>(pc: Pc<K>)
    ensures Removing(pc) || Appending(pc) || pc.File? || Empty(pc) || Getting(pc) ==> !Finding(pc) && !pc.Idle?
    ensures Appending(pc) || pc.File? || Empty(pc) || Getting(pc) ==> !Removing(pc)
    ensures Empty(pc) || Getting(pc) ==> !Appending(pc) && !pc.File?
    ensures pc.Idle? ==> Finding(pc)
  {
  }

  lemma OtherParts<K, V>(c: Config<K, V>, pc: Pc<K>, r: Request<K, V>)
    requires r.Request?
    ensures !Finding(pc) ==> Looking(pc, r)
    ensures !Removing(pc) ==> Moving(c, pc, r)
    ensures !Appending(pc) && !pc.File? ==> Putting(c, pc, r)
    ensures !Empty(pc) && !Getting(pc) ==> Taking(c, pc, r)
  {
    hide Hit, Missed, Carried, Completed;
  }

  // ---------- every step ----------

  /** What an observer sees of a step that changes no list and puts nothing into a bucket. */
  lemma SeesNothing<K(!new), V>(c: Config<K, V>, s: State<K, V>, s': State<K, V>, e: Choice<K>, r: Request<K, V>, clock: nat)
    requires WellFormed(c, s) && WellFormed(c, s') && e.thread < |s.threads| && r.Request? && !s.threads[e.thread].Idle?
    requires s'.lru == s.lru && s'.pool == s.pool && forall b :: 0 <= b < c.buckets ==> |s'.chains[b]| <= |s.chains[b]|
    ensures var r' := Observe(c, s, s', e, r, clock);
      && r'.Request? && r'.key == r.key && r'.left == r.left && r'.taken == r.taken && r'.appended == r.appended
      && r'.filed == r.filed && r'.stamps == r.stamps
      && (!s.threads[e.thread].Search? ==> r'.sought == r.sought)
      && (s'.log == s.log ==> r'.delivered == r.delivered && r'.hit == r.hit && r'.since == r.since)
      && (!s.threads[e.thread].TestFound? ==> r'.rekeyed == r.rekeyed && r'.hit == r.hit)
  {
    MissingSelf(s.lru);
    MissingSelf(s.pool);
  }

  lemma SeesGiven<K(!new), V>(c: Config<K, V>, s: State<K, V>, s': State<K, V>, e: Choice<K>, r: Request<K, V>,
                              clock: nat, k: K, v: V)
    requires WellFormed(c, s) && WellFormed(c, s') && e.thread < |s.threads| && r.Request? && !s.threads[e.thread].Idle?
    requires s'.log == s.log + [(k, v)]
    ensures var r' := Observe(c, s, s', e, r, clock); r'.Request? && r'.delivered == r.delivered + [(k, v)]
    ensures s.threads[e.thread].TestFound? ==> Observe(c, s, s', e, r, clock).hit == r.hit + [s.threads[e.thread].n]
  {
    hide WellFormed, Missing, Fronted;
    assert s'.log[|s.log|..] == [(k, v)];
  }

  lemma SeesSearch<K(!new), V>(c: Config<K, V>, s: State<K, V>, s': State<K, V>, e: Choice<K>, r: Request<K, V>, clock: nat)
    requires WellFormed(c, s) && WellFormed(c, s') && e.thread < |s.threads| && r.Request? && s.threads[e.thread].Search?
    ensures var r' := Observe(c, s, s', e, r, clock); r'.Request? && r'.sought == r.sought + [SomeFiled(s, r.key)]
  {
    hide WellFormed, Missing, Fronted, SomeFiled;
  }

  lemma SeesTest<K(!new), V>(c: Config<K, V>, s: State<K, V>, s': State<K, V>, e: Choice<K>, r: Request<K, V>, clock: nat)
    requires WellFormed(c, s) && WellFormed(c, s') && e.thread < |s.threads| && r.Request? && s.threads[e.thread].TestFound?
    requires 0 <= s.threads[e.thread].n < |s.key|
    ensures var r' := Observe(c, s, s', e, r, clock);
      r'.Request? && (r'.rekeyed <==> r.rekeyed || s.key[s.threads[e.thread].n] != r.key)
  {
    hide WellFormed, Missing, Fronted;
  }

  lemma LookFits<K(!new), V>(c: Config<K, V>, s: State<K, V>, s': State<K, V>, e: Choice<K>, r: Request<K, V>, clock: nat)
    requires Inv(c, s) && WellFormed(c, s) && WellFormed(c, s') && e.thread < |s.threads| == |s'.threads|
    requires Finding(s.threads[e.thread]) && s' == FindStep(c, s, e.thread, e) && Fits(c, s.threads[e.thread], r)
    ensures Fits(c, s'.threads[e.thread], Observe(c, s, s', e, r, clock))
  {
    hide Inv, Fits, Looking, Moving, Putting, Taking, WellFormed, Completed, Observe, FindStep;
    var pc := s.threads[e.thread];
    FitsPart(c, pc, r);
    FitsPart(c, s'.threads[e.thread], Observe(c, s, s', e, r, clock));
    if pc.Search? { SearchFits(c, s, s', e, r, clock); }
    else if pc.TestFound? { TestFits(c, s, s', e, r, clock); }
    else { OtherLooks(c, s, s', e, r, clock); }
  }

  lemma OtherLooks<K(!new), V>(c: Config<K, V>, s: State<K, V>, s': State<K, V>, e: Choice<K>, r: Request<K, V>, clock: nat)
    requires Inv(c, s) && WellFormed(c, s) && WellFormed(c, s') && e.thread < |s.threads| == |s'.threads|
    requires var pc := s.threads[e.thread]; pc.Idle? || pc.LockFound? || pc.DropFound? || pc.Produce?
    requires s' == FindStep(c, s, e.thread, e)
    requires !s.threads[e.thread].Idle? ==> r.Request? && Looking(s.threads[e.thread], r)
    ensures var pc', r' := s'.threads[e.thread], Observe(c, s, s', e, r, clock);
      && r'.Request? && (Finding(pc') || Empty(pc')) && !pc'.Idle?
      && (Finding(pc') ==> Looking(pc', r')) && (Empty(pc') ==> Taking(c, pc', r'))
  {
    hide Inv, WellFormed;
    var pc := s.threads[e.thread];
    if !pc.Idle? {
      hide Observe;
      SeesNothing(c, s, s', e, r, clock);
      if pc.Produce? { SeesGiven(c, s, s', e, r, clock, pc.k, c.f(pc.k)); }
    }
  }

  lemma SearchFits<K(!new), V>(c: Config<K, V>, s: State<K, V>, s': State<K, V>, e: Choice<K>, r: Request<K, V>, clock: nat)
    requires Inv(c, s) && WellFormed(c, s) && WellFormed(c, s') && e.thread < |s.threads| == |s'.threads|
    requires s.threads[e.thread].Search? && s' == FindStep(c, s, e.thread, e) && r.Request? && Looking(s.threads[e.thread], r)
    ensures var pc', r' := s'.threads[e.thread], Observe(c, s, s', e, r, clock);
      Finding(pc') && !pc'.Idle? && r'.Request? && Looking(pc', r')
  {
    hide Inv, Observe;
    var k := s.threads[e.thread].k;
    SeesNothing(c, s, s', e, r, clock);
    SeesSearch(c, s, s', e, r, clock);
    SearchIsExact(c, s, e, k);
    SeekNull(s.chains[BucketOf(c, k)], s.key, k);
  }

  lemma TestFits<K(!new), V>(c: Config<K, V>, s: State<K, V>, s': State<K, V>, e: Choice<K>, r: Request<K, V>, clock: nat)
    requires Inv(c, s) && WellFormed(c, s) && WellFormed(c, s') && e.thread < |s.threads| == |s'.threads|
    requires s.threads[e.thread].TestFound? && s' == FindStep(c, s, e.thread, e) && r.Request?
    requires Looking(s.threads[e.thread], r)
    ensures var pc', r' := s'.threads[e.thread], Observe(c, s, s', e, r, clock);
      && r'.Request? && (Finding(pc') || Removing(pc')) && !pc'.Idle?
      && (Finding(pc') ==> Looking(pc', r')) && (Removing(pc') ==> Moving(c, pc', r'))
  {
    hide Inv, Observe, Delivered, Knows;
    var k, n := s.threads[e.thread].k, s.threads[e.thread].n;
    Tested(c, s, e.thread);
    SeesNothing(c, s, s', e, r, clock);
    SeesTest(c, s, s', e, r, clock);
    if s.key[n] == k { SeesGiven(c, s, s', e, r, clock, k, s.value[n]); }
  }

  lemma Tested<K, V>(c: Config<K, V>, s: State<K, V>, t: nat)
    requires Inv(c, s) && t < |s.threads| && s.threads[t].TestFound? && WellFormed(c, s)
    ensures var n := s.threads[t].n; 0 <= n < c.capacity && s.lruFlag[n] && s.value[n] == c.f(s.key[n])
  {
    hide Inv;
    Log(c, s, t);
    LiveValue(c, s, s.threads[t].n);
  }

  /** What an observer sees of a node leaving a list. */
  lemma SeesLeaving<K(!new), V>(c: Config<K, V>, s: State<K, V>, s': State<K, V>, e: Choice<K>, r: Request<K, V>,
                                clock: nat, w: List, n: int)
    requires WellFormed(c, s) && WellFormed(c, s') && e.thread < |s.threads| && r.Request?
    requires !Finding(s.threads[e.thread]) && s'.chains == s.chains && s'.log == s.log
    requires Distinct(s.lru) && Distinct(s.pool) && n in (if w == Lru then s.lru else s.pool)
    requires s'.lru == (if w == Lru then Without(s.lru, {n}) else s.lru)
    requires s'.pool == (if w == Pool then Without(s.pool, {n}) else s.pool)
    ensures Observe(c, s, s', e, r, clock)
            == if w == Lru then r.(left := r.left + [n]) else r.(taken := r.taken + [n])
  {
    hide Missing;
    if w == Lru { MissingOne(s.lru, n); MissingSelf(s.pool); } else { MissingOne(s.pool, n); MissingSelf(s.lru); }
  }

  /** What an observer sees of an append. */
  lemma SeesAppend<K(!new), V>(c: Config<K, V>, s: State<K, V>, s': State<K, V>, e: Choice<K>, r: Request<K, V>,
                               clock: nat, n: int)
    requires WellFormed(c, s) && WellFormed(c, s') && e.thread < |s.threads| && r.Request?
    requires !Finding(s.threads[e.thread]) && s'.chains == s.chains && s'.log == s.log && s'.pool == s.pool
    requires n !in s.lru && s'.lru == s.lru + [n]
    ensures Observe(c, s, s', e, r, clock) == r.(appended := r.appended + [n], stamps := r.stamps + [clock + 1])
  {
    hide Missing;
    MissingLast(s.lru, n);
    MissingSelf(s.pool);
  }

  /** What an observer sees of a node being filed. */
  lemma SeesFiling<K(!new), V>(c: Config<K, V>, s: State<K, V>, s': State<K, V>, e: Choice<K>, r: Request<K, V>,
                               clock: nat, n: int)
    requires WellFormed(c, s) && WellFormed(c, s') && e.thread < |s.threads| && r.Request?
    requires !Finding(s.threads[e.thread]) && s'.log == s.log && s'.pool == s.pool && s'.lru == s.lru && 0 <= n < c.capacity
    requires var b := BucketOf(c, r.key); s'.chains == s.chains[b := [n] + s.chains[b]]
    ensures Observe(c, s, s', e, r, clock) == r.(filed := r.filed + [(s'.key[n], s'.value[n])])
  {
    hide Missing;
    MissingSelf(s.lru);
    MissingSelf(s.pool);
    var chain := s.chains[BucketOf(c, r.key)];
    assert ([n] + chain)[..1] == [n];
    PairsOne(n, s'.key, s'.value);
  }

  // ---------- removing ----------

  lemma MoveFits<K(!new), V>(c: Config<K, V>, s: State<K, V>, s': State<K, V>, e: Choice<K>, r: Request<K, V>, clock: nat)
    requires Inv(c, s) && WellFormed(c, s) && WellFormed(c, s') && e.thread < |s.threads| == |s'.threads|
    requires Removing(s.threads[e.thread]) && s' == RemoveStep(c, s, e.thread, e) && Fits(c, s.threads[e.thread], r)
    ensures Fits(c, s'.threads[e.thread], Observe(c, s, s', e, r, clock))
  {
    hide Inv, Fits, Looking, Moving, Putting, Taking, WellFormed, Completed, Observe, RemoveStep;
    var pc := s.threads[e.thread];
    FitsPart(c, pc, r);
    FitsPart(c, s'.threads[e.thread], Observe(c, s, s', e, r, clock));
    if pc.Unlink? { UnlinkFits(c, s, s', e, r, clock); } else { OtherMoves(c, s, s', e, r, clock); }
  }

  lemma UnlinkFits<K(!new), V>(c: Config<K, V>, s: State<K, V>, s': State<K, V>, e: Choice<K>, r: Request<K, V>, clock: nat)
    requires Inv(c, s) && WellFormed(c, s) && WellFormed(c, s') && e.thread < |s.threads| == |s'.threads|
    requires s.threads[e.thread].Unlink? && s' == RemoveStep(c, s, e.thread, e) && r.Request?
    requires Moving(c, s.threads[e.thread], r)
    ensures var pc', r' := s'.threads[e.thread], Observe(c, s, s', e, r, clock);
      Removing(pc') && r'.Request? && Moving(c, pc', r')
  {
    hide Inv, Observe, WellFormed;
    var n := s.threads[e.thread].n;
    Log(c, s, e.thread);
    LiveValue(c, s, n);
    Listed(c, s, n);
    ListsDistinct(c, s);
    SeesLeaving(c, s, s', e, r, clock, Lru, n);
  }

  lemma ListsDistinct<K, V>(c: Config<K, V>, s: State<K, V>)
    requires Inv(c, s)
    ensures Distinct(s.lru) && Distinct(s.pool) && InRange(s.lru, c.capacity) && InRange(s.pool, c.capacity)
  {
    hide LockOk, DetachOk, Buckets, FlagsOk, Delivered, Knows;
    PathDistinct(c.capacity, s.next, s.prev, s.lru, Lru);
    PathDistinct(c.capacity, s.next, s.prev, s.pool, Pool);
  }

  /** The LRU flag of a node that a find has locked again is set. */
  lemma StillFlagged<K, V>(c: Config<K, V>, s: State<K, V>, t: nat)
    requires Inv(c, s) && t < |s.threads| && (s.threads[t].TestBoth? || s.threads[t].TestAlone?)
    ensures Cell(s.lruFlag, s.threads[t].n, false)
  {
    hide Inv;
    Log(c, s, t);
    LiveValue(c, s, s.threads[t].n);
  }

  lemma OtherMoves<K(!new), V>(c: Config<K, V>, s: State<K, V>, s': State<K, V>, e: Choice<K>, r: Request<K, V>, clock: nat)
    requires Inv(c, s) && WellFormed(c, s) && WellFormed(c, s') && e.thread < |s.threads| == |s'.threads|
    requires Removing(s.threads[e.thread]) && !s.threads[e.thread].Unlink? && s' == RemoveStep(c, s, e.thread, e)
    requires r.Request? && Moving(c, s.threads[e.thread], r)
    ensures var pc', r' := s'.threads[e.thread], Observe(c, s, s', e, r, clock);
      && r'.Request? && (Removing(pc') || pc'.LoadLast?)
      && (Removing(pc') ==> Moving(c, pc', r')) && (pc'.LoadLast? ==> Putting(c, pc', r'))
  {
    hide Inv, Observe, WellFormed, Hit, RemoveStep;
    var pc := s.threads[e.thread];
    if pc.TestBoth? || pc.TestAlone? { StillFlagged(c, s, e.thread); }
    if pc.UnlockLeft? || pc.UnlockRight? || pc.ClearLinks? {
      AfterUnlink(c, s, e.thread, e);
    } else {
      BeforeUnlink(c, s, e.thread, e);
    }
    SeesNothing(c, s, s', e, r, clock);
    SameHit(c, r, Observe(c, s, s', e, r, clock), pc.n);
  }

  lemma SameHit<K, V>(c: Config<K, V>, r: Request<K, V>, r': Request<K, V>, n: int)
    requires r.Request? && r'.Request? && Hit(c, r, n) && r'.key == r.key && r'.delivered == r.delivered && r'.hit == r.hit
    requires r'.taken == r.taken && r'.filed == r.filed && r'.sought == r.sought
    ensures Hit(c, r', n)
  {
  }

  /** What a removal before the unlinking changes: nothing but locks. */
  lemma BeforeUnlink<K(!new), V>(c: Config<K, V>, s: State<K, V>, t: nat, e: Choice<K>)
    requires WellFormed(c, s) && t < |s.threads| && Removing(s.threads[t])
    requires var pc := s.threads[t]; !pc.Unlink? && !pc.UnlockLeft? && !pc.UnlockRight? && !pc.ClearLinks? && !pc.DropBoth?
    requires s.threads[t].TestBoth? || s.threads[t].TestAlone? ==> Cell(s.lruFlag, s.threads[t].n, false)
    ensures var s' := RemoveStep(c, s, t, e);
      && s'.lru == s.lru && s'.pool == s.pool && s'.chains == s.chains && s'.log == s.log && |s'.threads| == |s.threads|
      && var pc' := s'.threads[t];
        && Removing(pc') && pc'.n == s.threads[t].n
        && !pc'.UnlockLeft? && !pc'.UnlockRight? && !pc'.ClearLinks? && !pc'.DropBoth?
  {
    hide WellFormed;
  }

  lemma AfterUnlink<K(!new), V>(c: Config<K, V>, s: State<K, V>, t: nat, e: Choice<K>)
    requires WellFormed(c, s) && t < |s.threads|
    requires s.threads[t].UnlockLeft? || s.threads[t].UnlockRight? || s.threads[t].ClearLinks?
    ensures var s' := RemoveStep(c, s, t, e);
      && s'.lru == s.lru && s'.pool == s.pool && s'.chains == s.chains && s'.log == s.log && |s'.threads| == |s.threads|
      && var pc' := s'.threads[t];
        pc'.UnlockRight? || pc'.ClearLinks? || (pc'.LoadLast? && pc'.why.Move?)
    ensures RemoveStep(c, s, t, e).threads[t].n == s.threads[t].n
  {
    hide WellFormed;
  }

  // ---------- appending ----------

  lemma PutFits<K(!new), V>(c: Config<K, V>, s: State<K, V>, s': State<K, V>, e: Choice<K>, r: Request<K, V>, clock: nat)
    requires Inv(c, s) && WellFormed(c, s) && WellFormed(c, s') && e.thread < |s.threads| == |s'.threads|
    requires Appending(s.threads[e.thread]) && s' == AppendStep(c, s, e.thread) && Fits(c, s.threads[e.thread], r)
    requires r.Request? ==> r.since <= clock
    ensures Fits(c, s'.threads[e.thread], Observe(c, s, s', e, r, clock))
  {
    hide Inv, Fits, Looking, Moving, Putting, Taking, WellFormed, Completed, Observe, AppendStep;
    var pc := s.threads[e.thread];
    FitsPart(c, pc, r);
    FitsPart(c, s'.threads[e.thread], Observe(c, s, s', e, r, clock));
    if pc.Append? { AppendFits(c, s, s', e, r, clock); } else { OtherPuts(c, s, s', e, r, clock); }
  }

  lemma AppendFits<K(!new), V>(c: Config<K, V>, s: State<K, V>, s': State<K, V>, e: Choice<K>, r: Request<K, V>, clock: nat)
    requires Inv(c, s) && WellFormed(c, s) && WellFormed(c, s') && e.thread < |s.threads| == |s'.threads|
    requires s.threads[e.thread].Append? && s' == AppendStep(c, s, e.thread) && r.Request? && r.since <= clock
    requires Putting(c, s.threads[e.thread], r)
    ensures var pc', r' := s'.threads[e.thread], Observe(c, s, s', e, r, clock);
      Appending(pc') && r'.Request? && Putting(c, pc', r')
  {
    hide Inv, Observe, WellFormed;
    var n := s.threads[e.thread].n;
    OwnNode(c, s, e.thread, n);
    Listed(c, s, n);
    SeesAppend(c, s, s', e, r, clock, n);
  }

  lemma OtherPuts<K(!new), V>(c: Config<K, V>, s: State<K, V>, s': State<K, V>, e: Choice<K>, r: Request<K, V>, clock: nat)
    requires Inv(c, s) && WellFormed(c, s) && WellFormed(c, s') && e.thread < |s.threads| == |s'.threads|
    requires Appending(s.threads[e.thread]) && !s.threads[e.thread].Append? && s' == AppendStep(c, s, e.thread)
    requires r.Request? && Putting(c, s.threads[e.thread], r)
    ensures var pc', r' := s'.threads[e.thread], Observe(c, s, s', e, r, clock);
      && r'.Request? && (Appending(pc') || pc'.File? || pc'.Idle?)
      && (pc'.Idle? ==> Completed(c, r')) && (!pc'.Idle? ==> Putting(c, pc', r'))
  {
    hide Inv, Observe, WellFormed;
    SeesNothing(c, s, s', e, r, clock);
    if s.threads[e.thread].Leave? {
      assert Observe(c, s, s', e, r, clock) == r by { SeesLeave(c, s, s', e, r, clock); }
    }
  }

  lemma SeesLeave<K(!new), V>(c: Config<K, V>, s: State<K, V>, s': State<K, V>, e: Choice<K>, r: Request<K, V>, clock: nat)
    requires WellFormed(c, s) && WellFormed(c, s') && e.thread < |s.threads| && r.Request? && !Finding(s.threads[e.thread])
    requires s'.lru == s.lru && s'.pool == s.pool && s'.chains == s.chains && s'.log == s.log
    ensures Observe(c, s, s', e, r, clock) == r
  {
    MissingSelf(s.lru);
    MissingSelf(s.pool);
  }

  // ---------- inserting ----------

  lemma TakeFits<K(!new), V>(c: Config<K, V>, s: State<K, V>, s': State<K, V>, e: Choice<K>, r: Request<K, V>, clock: nat)
    requires Inv(c, s) && WellFormed(c, s) && WellFormed(c, s') && e.thread < |s.threads| == |s'.threads|
    requires var pc := s.threads[e.thread]; Empty(pc) || Getting(pc) || pc.File?
    requires s' == InsertStep(c, s, e.thread, e) && Fits(c, s.threads[e.thread], r)
    ensures Fits(c, s'.threads[e.thread], Observe(c, s, s', e, r, clock))
  {
    hide Inv, Fits, Looking, Moving, Putting, Taking, WellFormed, Completed, Observe, InsertStep;
    var pc := s.threads[e.thread];
    FitsPart(c, pc, r);
    FitsPart(c, s'.threads[e.thread], Observe(c, s, s', e, r, clock));
    if pc.Detach? { DetachFits(c, s, s', e, r, clock); }
    else if pc.File? { FileFits(c, s, s', e, r, clock); }
    else if pc.Unfile? { UnfileTakes(c, s, s', e, r, clock); }
    else { OtherTakes(c, s, s', e, r, clock); }
  }

  lemma DetachFits<K(!new), V>(c: Config<K, V>, s: State<K, V>, s': State<K, V>, e: Choice<K>, r: Request<K, V>, clock: nat)
    requires Inv(c, s) && WellFormed(c, s) && WellFormed(c, s') && e.thread < |s.threads| == |s'.threads|
    requires s.threads[e.thread].Detach? && s' == InsertStep(c, s, e.thread, e) && r.Request?
    requires Taking(c, s.threads[e.thread], r)
    ensures var pc', r' := s'.threads[e.thread], Observe(c, s, s', e, r, clock);
      Getting(pc') && r'.Request? && Taking(c, pc', r')
  {
    hide Inv, Observe, WellFormed;
    var n, w := s.threads[e.thread].n, s.threads[e.thread].w;
    Log(c, s, e.thread);
    InBounds(c, s, w, n);
    ListsDistinct(c, s);
    InList(c, s, w, n);
    SeesLeaving(c, s, s', e, r, clock, w, n);
  }

  lemma InList<K, V>(c: Config<K, V>, s: State<K, V>, w: List, n: int)
    requires Inv(c, s) && 0 <= n < c.capacity && PlaceAt(s.place, n) == Where(w)
    ensures n in if w == Lru then s.lru else s.pool
  {
    hide LockOk, DetachOk, Buckets, FlagsOk, Delivered, Knows;
  }

  lemma FileFits<K(!new), V>(c: Config<K, V>, s: State<K, V>, s': State<K, V>, e: Choice<K>, r: Request<K, V>, clock: nat)
    requires Inv(c, s) && WellFormed(c, s) && WellFormed(c, s') && e.thread < |s.threads| == |s'.threads|
    requires s.threads[e.thread].File? && s' == InsertStep(c, s, e.thread, e) && r.Request?
    requires Putting(c, s.threads[e.thread], r)
    ensures var pc', r' := s'.threads[e.thread], Observe(c, s, s', e, r, clock);
      pc'.Leave? && r'.Request? && Putting(c, pc', r')
  {
    hide Inv, Observe;
    var n := s.threads[e.thread].n;
    FileKnows(c, s, e.thread);
    SeesFiling(c, s, s', e, r, clock, n);
  }

  lemma FileKnows<K, V>(c: Config<K, V>, s: State<K, V>, t: nat)
    requires Inv(c, s) && t < |s.threads| && s.threads[t].File? && WellFormed(c, s)
    ensures var n, k := s.threads[t].n, s.threads[t].k; 0 <= n < c.capacity && s.key[n] == k && s.value[n] == c.f(k)
  {
    hide Inv;
    Log(c, s, t);
  }

  lemma UnfileTakes<K(!new), V>(c: Config<K, V>, s: State<K, V>, s': State<K, V>, e: Choice<K>, r: Request<K, V>, clock: nat)
    requires WellFormed(c, s) && WellFormed(c, s') && e.thread < |s.threads| == |s'.threads|
    requires s.threads[e.thread].Unfile? && s' == InsertStep(c, s, e.thread, e) && r.Request?
    requires Taking(c, s.threads[e.thread], r)
    ensures var pc', r' := s'.threads[e.thread], Observe(c, s, s', e, r, clock);
      r'.Request? && Getting(pc') && Taking(c, pc', r')
  {
    hide Observe, Before;
    SeesNothing(c, s, s', e, r, clock);
  }

  lemma OtherTakes<K(!new), V>(c: Config<K, V>, s: State<K, V>, s': State<K, V>, e: Choice<K>, r: Request<K, V>, clock: nat)
    requires WellFormed(c, s) && WellFormed(c, s') && e.thread < |s.threads| == |s'.threads|
    requires var pc := s.threads[e.thread]; (Empty(pc) || Getting(pc)) && !pc.Detach? && !pc.Unfile?
    requires s' == InsertStep(c, s, e.thread, e) && r.Request? && Taking(c, s.threads[e.thread], r)
    ensures var pc', r' := s'.threads[e.thread], Observe(c, s, s', e, r, clock);
      && r'.Request? && (Empty(pc') || Getting(pc') || pc'.LoadLast?)
      && (pc'.LoadLast? ==> Putting(c, pc', r')) && (!pc'.LoadLast? ==> Taking(c, pc', r'))
  {
    hide Observe, WellFormed, InsertStep, Putting, Taking;
    if Empty(s.threads[e.thread]) { EmptyTakes(c, s, s', e, r, clock); } else { GetTakes(c, s, s', e, r, clock); }
  }

  lemma EmptyTakes<K(!new), V>(c: Config<K, V>, s: State<K, V>, s': State<K, V>, e: Choice<K>, r: Request<K, V>, clock: nat)
    requires WellFormed(c, s) && WellFormed(c, s') && e.thread < |s.threads| == |s'.threads|
    requires Empty(s.threads[e.thread]) && !s.threads[e.thread].Detach?
    requires s' == InsertStep(c, s, e.thread, e) && r.Request? && Taking(c, s.threads[e.thread], r)
    ensures var pc', r' := s'.threads[e.thread], Observe(c, s, s', e, r, clock); r'.Request? && Empty(pc') && Taking(c, pc', r')
  {
    hide Observe, WellFormed;
    SeesNothing(c, s, s', e, r, clock);
  }

  lemma GetTakes<K(!new), V>(c: Config<K, V>, s: State<K, V>, s': State<K, V>, e: Choice<K>, r: Request<K, V>, clock: nat)
    requires WellFormed(c, s) && WellFormed(c, s') && e.thread < |s.threads| == |s'.threads|
    requires Getting(s.threads[e.thread]) && !s.threads[e.thread].Unfile?
    requires s' == InsertStep(c, s, e.thread, e) && r.Request? && Taking(c, s.threads[e.thread], r)
    ensures var pc', r' := s'.threads[e.thread], Observe(c, s, s', e, r, clock);
      && r'.Request? && (Getting(pc') || pc'.LoadLast?)
      && (pc'.LoadLast? ==> Putting(c, pc', r')) && (!pc'.LoadLast? ==> Taking(c, pc', r'))
  {
    hide Observe, WellFormed;
    SeesNothing(c, s, s', e, r, clock);
  }

  // ---------- every run ----------

  /** Every record fits, and its times are not in the future. */
  ghost predicate AllFit<K, V>(c: Config<K, V>, s: State<K, V>, h: History<K, V>) {
    && |h.requests| == |s.threads|
    && (forall t :: 0 <= t < |s.threads| ==> Fits(c, s.threads[t], h.requests[t]))
    && (forall t :: 0 <= t < |s.threads| && h.requests[t].Request? ==> h.requests[t].since <= h.clock)
  }

  lemma ObserveFits<K(!new), V>(c: Config<K, V>, s: State<K, V>, s': State<K, V>, e: Choice<K>, r: Request<K, V>, clock: nat)
    requires Inv(c, s) && WellFormed(c, s) && WellFormed(c, s') && e.thread < |s.threads| == |s'.threads|
    requires s' == Step(c, s, e) && Fits(c, s.threads[e.thread], r) && (r.Request? ==> r.since <= clock)
    ensures Fits(c, s'.threads[e.thread], Observe(c, s, s', e, r, clock))
  {
    hide Inv, Fits, WellFormed, Observe, FindStep, RemoveStep, AppendStep, InsertStep;
    var pc := s.threads[e.thread];
    if Finding(pc) { LookFits(c, s, s', e, r, clock); }
    else if Removing(pc) { MoveFits(c, s, s', e, r, clock); }
    else if Appending(pc) { PutFits(c, s, s', e, r, clock); }
    else { TakeFits(c, s, s', e, r, clock); }
  }

  /** A step moves one thread. */
  lemma StepMoves<K(!new), V>(c: Config<K, V>, s: State<K, V>, e: Choice<K>)
    requires Inv(c, s)
    ensures WellFormed(c, s) && WellFormed(c, Step(c, s, e)) && |Step(c, s, e).threads| == |s.threads|
    ensures forall u :: 0 <= u < |s.threads| && u != e.thread ==> Step(c, s, e).threads[u] == s.threads[u]
    ensures e.thread >= |s.threads| ==> Step(c, s, e) == s
  {
    hide Inv, FindStep, RemoveStep, AppendStep, InsertStep;
    Shape(c, s);
    StepKeeps(c, s, e);
    Shape(c, Step(c, s, e));
    if e.thread < |s.threads| {
      var pc := s.threads[e.thread];
      if Finding(pc) { FindMoves(c, s, e.thread, e); }
      else if Removing(pc) { RemoveMoves(c, s, e.thread, e); }
      else if Appending(pc) { AppendMoves(c, s, e.thread); }
      else { InsertMoves(c, s, e.thread, e); }
    }
  }

  lemma Shape<K, V>(c: Config<K, V>, s: State<K, V>)
    requires Inv(c, s)
    ensures WellFormed(c, s)
  {
  }

  /** The threads differ at most in t. */
  ghost predicate OneMoves<K>(before: seq<Pc<K>>, after: seq<Pc<K>>, t: nat) {
    |after| == |before| && forall u :: 0 <= u < |before| && u != t ==> after[u] == before[u]
  }

  lemma FindMoves<K(!new), V>(c: Config<K, V>, s: State<K, V>, t: nat, e: Choice<K>)
    requires WellFormed(c, s) && t < |s.threads|
    ensures OneMoves(s.threads, FindStep(c, s, t, e).threads, t)
  {
  }

  lemma RemoveMoves<K(!new), V>(c: Config<K, V>, s: State<K, V>, t: nat, e: Choice<K>)
    requires WellFormed(c, s) && t < |s.threads|
    ensures OneMoves(s.threads, RemoveStep(c, s, t, e).threads, t)
  {
    hide WellFormed, Unlinked, Cleared;
    var s' := RemoveStep(c, s, t, e);
    if s.threads[t].Unlink? || s.threads[t].ClearLinks? { UnlinkMoves(c, s, t, e); }
  }

  lemma UnlinkMoves<K(!new), V>(c: Config<K, V>, s: State<K, V>, t: nat, e: Choice<K>)
    requires WellFormed(c, s) && t < |s.threads| && (s.threads[t].Unlink? || s.threads[t].ClearLinks?)
    ensures OneMoves(s.threads, RemoveStep(c, s, t, e).threads, t)
  {
  }

  lemma AppendMoves<K(!new), V>(c: Config<K, V>, s: State<K, V>, t: nat)
    requires WellFormed(c, s) && t < |s.threads|
    ensures OneMoves(s.threads, AppendStep(c, s, t).threads, t)
  {
  }

  lemma InsertMoves<K(!new), V>(c: Config<K, V>, s: State<K, V>, t: nat, e: Choice<K>)
    requires WellFormed(c, s) && t < |s.threads|
    ensures OneMoves(s.threads, InsertStep(c, s, t, e).threads, t)
  {
    hide InsertStep, WellFormed;
    var pc := s.threads[t];
    if pc.Unfile? || pc.File? { BucketMoves(c, s, t, e); } else { OtherInserts(c, s, t, e); }
  }

  lemma BucketMoves<K(!new), V>(c: Config<K, V>, s: State<K, V>, t: nat, e: Choice<K>)
    requires WellFormed(c, s) && t < |s.threads| && (s.threads[t].Unfile? || s.threads[t].File?)
    ensures OneMoves(s.threads, InsertStep(c, s, t, e).threads, t)
  {
    hide Before;
  }

  lemma OtherInserts<K(!new), V>(c: Config<K, V>, s: State<K, V>, t: nat, e: Choice<K>)
    requires WellFormed(c, s) && t < |s.threads| && !s.threads[t].Unfile? && !s.threads[t].File?
    ensures OneMoves(s.threads, InsertStep(c, s, t, e).threads, t)
  {
    hide WellFormed;
  }

  lemma NoteFits<K(!new), V>(c: Config<K, V>, s: State<K, V>, e: Choice<K>, h: History<K, V>)
    requires Inv(c, s) && AllFit(c, s, h)
    ensures AllFit(c, Step(c, s, e), Note(c, s, e, h))
  {
    hide Inv, Fits, Step, Missing, WellFormed;
    StepMoves(c, s, e);
    if e.thread < |s.threads| {
      ObserveFits(c, s, Step(c, s, e), e, h.requests[e.thread], h.clock);
    }
  }

  lemma {:induction false} WatchFits<K(!new), V>(c: Config<K, V>, s: State<K, V>, schedule: seq<Choice<K>>)
    requires Initial(c, s)
    ensures AllFit(c, Run(c, s, schedule), Watch(c, s, schedule))
    decreases |schedule|
  {
    hide Inv, Fits, Step, Note;
    if schedule == [] {
      NewFits<K, V>(c, Idle);
    } else {
      WatchFits(c, s, schedule[..|schedule| - 1]);
      Reachable(c, s, schedule[..|schedule| - 1]);
      NoteFits(c, Run(c, s, schedule[..|schedule| - 1]), schedule[|schedule| - 1], Watch(c, s, schedule[..|schedule| - 1]));
    }
  }

  lemma NewFits<K, V>(c: Config<K, V>, pc: Pc<K>)
    requires pc.Idle?
    ensures Fits<K, V>(c, pc, NoRequest)
  {
  }

  lemma {:induction false} RunThreads<K(!new), V>(c: Config<K, V>, s: State<K, V>, schedule: seq<Choice<K>>)
    requires Initial(c, s)
    ensures |Run(c, s, schedule).threads| == |s.threads|
    decreases |schedule|
  {
    hide Inv, Step;
    if schedule != [] {
      var before := schedule[..|schedule| - 1];
      RunThreads(c, s, before);
      Reachable(c, s, before);
      StepMoves(c, Run(c, s, before), schedule[|schedule| - 1]);
    }
  }

  /** In every interleaving each time a thread is idle again its request has delivered exactly one value, that of its key,
      has moved the node of a hit to the end of the LRU list, and has filed and appended a node for a miss. */
  lemma RequestsComplete<K(!new), V>(c: Config<K, V>, n: nat, key: K, value: V, schedule: seq<Choice<K>>, t: nat)
    requires c.capacity > 0 && c.buckets > 0 && t < n
    ensures var s, h := Run(c, Start(c, n, key, value), schedule), Watch(c, Start(c, n, key, value), schedule);
      && |s.threads| == |h.requests| == n
      && (s.threads[t].Idle? ==> Completed(c, h.requests[t]))
  {
    hide Inv, Fits, Step, Note;
    StartIsInitial(c, n, key, value);
    WatchFits(c, Start(c, n, key, value), schedule);
    RunThreads(c, Start(c, n, key, value), schedule);
    var s, h := Run(c, Start(c, n, key, value), schedule), Watch(c, Start(c, n, key, value), schedule);
    assert Fits(c, s.threads[t], h.requests[t]);
    FitsPart(c, s.threads[t], h.requests[t]);
  }

  // ---------- the order of the stamps ----------

  /** A list of nodes is in the order of their stamps, none of which is in the future. */
  ghost predicate InStampOrder(order: seq<int>, stamp: seq<nat>, clock: nat) {
    && InRange(order, |stamp|)
    && (forall i :: 0 <= i < |order| ==> stamp[order[i]] <= clock)
    && (forall i, j :: 0 <= i < j < |order| ==> stamp[order[i]] < stamp[order[j]])
  }

  lemma StampsAfterAppend(order: seq<int>, stamp: seq<nat>, clock: nat, n: int)
    requires InStampOrder(order, stamp, clock) && 0 <= n < |stamp| && n !in order
    ensures InStampOrder(order + [n], Put(stamp, n, clock + 1), clock + 1)
  {
    assert forall i :: 0 <= i < |order| ==> order[i] in order;
  }

  lemma StampsAfterDrop(order: seq<int>, stamp: seq<nat>, clock: nat, n: int)
    requires InStampOrder(order, stamp, clock) && Distinct(order) && n in order
    ensures InStampOrder(Without(order, {n}), stamp, clock)
  {
    var j := IndexOf(order, n);
    WithoutIsDrop(order, j);
  }

  /** No stamp is in the future, and a node that a request has appended has its stamp or a later one. */
  ghost predicate Timely<K, V>(c: Config<K, V>, h: History<K, V>) {
    && |h.stamp| == c.capacity && (forall x :: 0 <= x < c.capacity ==> h.stamp[x] <= h.clock)
    && (forall t :: 0 <= t < |h.requests| && h.requests[t].Request? ==> HasStamp(h.requests[t], h.stamp))
  }

  ghost predicate HasStamp<K, V>(r: Request<K, V>, stamp: seq<nat>)
    requires r.Request?
  {
    && |r.stamps| == |r.appended|
    && forall i :: 0 <= i < |r.stamps| ==> 0 <= r.appended[i] < |stamp| && r.stamps[i] <= stamp[r.appended[i]]
  }

  lemma NoteTimely<K(!new), V>(c: Config<K, V>, s: State<K, V>, e: Choice<K>, h: History<K, V>)
    requires Inv(c, s) && Timely(c, h) && |h.requests| == |s.threads|
    ensures Timely(c, Note(c, s, e, h))
  {
    hide Inv, Step, Missing, WellFormed;
    StepMoves(c, s, e);
    if e.thread < |s.threads| {
      EvictsOldest(c, s, e);
      ListsDistinct(c, s);
      var n := OrderCases(s.threads[e.thread], s.lru, Step(c, s, e).lru);
      StepKeeps(c, s, e);
      ListsDistinct(c, Step(c, s, e));
      if Missing(Step(c, s, e).lru, s.lru) != [] {
        assert Step(c, s, e).lru[|s.lru|] == n;
        var h' := Note(c, s, e, h);
        forall t | 0 <= t < |h'.requests| && h'.requests[t].Request? ensures HasStamp(h'.requests[t], h'.stamp) {
          if t != e.thread { assert HasStamp(h.requests[t], h.stamp); }
        }
      }
    }
  }

  lemma NoteStamps<K(!new), V>(c: Config<K, V>, s: State<K, V>, e: Choice<K>, h: History<K, V>)
    requires Inv(c, s) && InStampOrder(s.lru, h.stamp, h.clock) && |h.requests| == |s.threads| && |h.stamp| == c.capacity
    ensures |Note(c, s, e, h).stamp| == c.capacity
    ensures InStampOrder(Step(c, s, e).lru, Note(c, s, e, h).stamp, Note(c, s, e, h).clock)
  {
    hide Inv, Step, Missing, WellFormed, Observe, InStampOrder;
    StepMoves(c, s, e);
    if e.thread < |s.threads| {
      var before, after := s.lru, Step(c, s, e).lru;
      EvictsOldest(c, s, e);
      ListsDistinct(c, s);
      var n := OrderCases(s.threads[e.thread], before, after);
      StepKeeps(c, s, e);
      ListsDistinct(c, Step(c, s, e));
      if after != before {
        if n in before {
          StampsAfterDrop(before, h.stamp, h.clock, n);
        } else {
          assert after[|before|] == n;
          StampsAfterAppend(before, h.stamp, h.clock, n);
        }
      }
    }
  }

  /** What an observer can see of the LRU order in one step. */
  lemma OrderCases<K>(pc: Pc<K>, before: seq<int>, after: seq<int>) returns (n: int)
    requires OrderStep(pc, before, after) && Distinct(before)
    ensures after == before || (n in before && after == Without(before, {n})) || (n !in before && after == before + [n])
    ensures Missing(after, before) == if n !in before && after == before + [n] then [n] else []
  {
    hide Missing;
    n := if pc.Unlink? || pc.Detach? || pc.Append? then pc.n else 0;
    if after == before {
      MissingSelf(before);
    } else {
      if pc.Detach? { WithoutIsDrop(before, 0); }
      if pc.Append? { MissingLast(before, n); } else { MissingOne(before, n); }
    }
  }

  lemma {:induction false} WatchStamps<K(!new), V>(c: Config<K, V>, s: State<K, V>, schedule: seq<Choice<K>>)
    requires Initial(c, s)
    ensures var h := Watch(c, s, schedule); Timely(c, h) && InStampOrder(Run(c, s, schedule).lru, h.stamp, h.clock)
    decreases |schedule|
  {
    hide Inv, Fits, Step, Note;
    if schedule != [] {
      WatchStamps(c, s, schedule[..|schedule| - 1]);
      WatchFits(c, s, schedule[..|schedule| - 1]);
      Reachable(c, s, schedule[..|schedule| - 1]);
      NoteTimely(c, Run(c, s, schedule[..|schedule| - 1]), schedule[|schedule| - 1], Watch(c, s, schedule[..|schedule| - 1]));
      NoteStamps(c, Run(c, s, schedule[..|schedule| - 1]), schedule[|schedule| - 1], Watch(c, s, schedule[..|schedule| - 1]));
    }
  }

  /** In every interleaving the LRU list is in the order in which its nodes were last appended, so that an eviction takes
      the node that was appended the longest time ago, and every hit and every insertion gives its node a new stamp, later
      than the delivery. */
  lemma OrderedByAppends<K(!new), V>(c: Config<K, V>, n: nat, key: K, value: V, schedule: seq<Choice<K>>, t: nat)
    requires c.capacity > 0 && c.buckets > 0 && t < n
    ensures var s, h := Run(c, Start(c, n, key, value), schedule), Watch(c, Start(c, n, key, value), schedule);
      && |h.stamp| == c.capacity && InStampOrder(s.lru, h.stamp, h.clock) && |s.threads| == |h.requests| == n
      && var r := h.requests[t];
        (s.threads[t].Idle? && r.Request? ==>
          |r.appended| == 1 && 0 <= r.appended[0] < c.capacity && h.stamp[r.appended[0]] > r.since)
  {
    hide Inv, Step, InStampOrder;
    StartIsInitial(c, n, key, value);
    WatchStamps(c, Start(c, n, key, value), schedule);
    RequestsComplete(c, n, key, value, schedule, t);
  }

  // ---------- evictions ----------

  /** The thread has found the pool empty, and is evicting or about to. */
  predicate Evictor<K>(pc: Pc<K>) {
    || (pc.LeaveEmpty? && pc.w == Pool)
    || ((pc.LockHead? || pc.LockFirst? || pc.LockSecond? || pc.Detach? || pc.UnlockHead? || pc.UnlockSecond? || pc.ClearFirst?)
        && pc.w == Lru)
    || pc.Unflag? || pc.AwaitFiled? || pc.Unfile?
  }

  /** A request has evicted a node to make room for its own. */
  ghost predicate Evicted<K, V>(r: Request<K, V>) {
    r.Request? && r.hit == [] && r.left != []
  }

  ghost predicate AllDry<K, V>(s: State<K, V>, h: History<K, V>) {
    && |h.requests| == |s.threads|
    && (s.pool != [] ==> forall t :: 0 <= t < |s.threads| ==> !Evictor(s.threads[t]) && !Evicted(h.requests[t]))
  }

  /** The pool is only ever taken from, and a thread turns to eviction when the pool is empty. */
  ghost predicate PoolStep<K, V>(s: State<K, V>, s': State<K, V>, t: nat)
    requires t < |s.threads| == |s'.threads|
  {
    && (s.pool == [] ==> s'.pool == [])
    && (Evictor(s'.threads[t]) ==> Evictor(s.threads[t]) || s'.pool == [])
  }

  lemma StepPool<K(!new), V>(c: Config<K, V>, s: State<K, V>, e: Choice<K>)
    requires Inv(c, s) && WellFormed(c, s) && e.thread < |s.threads| == |Step(c, s, e).threads|
    ensures PoolStep(s, Step(c, s, e), e.thread)
  {
    hide Inv, WellFormed, FindStep, RemoveStep, AppendStep, InsertStep, PoolStep;
    var pc := s.threads[e.thread];
    if Finding(pc) { FindPool(c, s, e.thread, e); }
    else if Removing(pc) { RemovePool(c, s, e.thread, e); }
    else if Appending(pc) { AppendPool(c, s, e.thread); }
    else { InsertPool(c, s, e.thread, e); }
  }

  lemma FindPool<K(!new), V>(c: Config<K, V>, s: State<K, V>, t: nat, e: Choice<K>)
    requires WellFormed(c, s) && t < |s.threads| == |FindStep(c, s, t, e).threads| && Finding(s.threads[t])
    ensures PoolStep(s, FindStep(c, s, t, e), t)
  {
    hide WellFormed;
  }

  lemma RemovePool<K(!new), V>(c: Config<K, V>, s: State<K, V>, t: nat, e: Choice<K>)
    requires WellFormed(c, s) && t < |s.threads| == |RemoveStep(c, s, t, e).threads| && Removing(s.threads[t])
    ensures PoolStep(s, RemoveStep(c, s, t, e), t)
  {
    hide WellFormed;
  }

  lemma AppendPool<K(!new), V>(c: Config<K, V>, s: State<K, V>, t: nat)
    requires WellFormed(c, s) && t < |s.threads| == |AppendStep(c, s, t).threads| && Appending(s.threads[t])
    ensures PoolStep(s, AppendStep(c, s, t), t)
  {
    hide WellFormed;
  }

  lemma InsertPool<K(!new), V>(c: Config<K, V>, s: State<K, V>, t: nat, e: Choice<K>)
    requires Inv(c, s) && WellFormed(c, s) && t < |s.threads| == |InsertStep(c, s, t, e).threads|
    ensures PoolStep(s, InsertStep(c, s, t, e), t)
  {
    hide Inv, Before;
    var pc := s.threads[t];
    if pc.LockFirst? { PoolEmpty(c, s); }
  }

  lemma PoolEmpty<K, V>(c: Config<K, V>, s: State<K, V>)
    requires Inv(c, s)
    ensures Cell(s.next, HeadOf(c.capacity, Pool), NULL) == TailOf(c.capacity, Pool) ==> s.pool == []
  {
    hide LockOk, DetachOk, Buckets, FlagsOk, Delivered, Knows;
    var path := Path(c.capacity, s.pool, Pool);
    assert s.next[path[0]] == path[0 + 1];
  }

  lemma NoteDry<K(!new), V>(c: Config<K, V>, s: State<K, V>, e: Choice<K>, h: History<K, V>)
    requires Inv(c, s) && AllFit(c, s, h) && AllDry(s, h)
    ensures AllDry(Step(c, s, e), Note(c, s, e, h))
  {
    hide Inv, Step, WellFormed, Evictor, Evicted, Observe, Fits;
    StepMoves(c, s, e);
    if e.thread < |s.threads| {
      StepPool(c, s, e);
      EvictedStep(c, s, Step(c, s, e), e, h.requests[e.thread], h.clock);
    }
  }

  lemma EvictedStep<K(!new), V>(c: Config<K, V>, s: State<K, V>, s': State<K, V>, e: Choice<K>, r: Request<K, V>, clock: nat)
    requires Inv(c, s) && WellFormed(c, s) && WellFormed(c, s') && e.thread < |s.threads|
    requires s' == Step(c, s, e) && Fits(c, s.threads[e.thread], r)
    ensures Evicted(Observe(c, s, s', e, r, clock)) ==> Evicted(r) || Evictor(s.threads[e.thread])
  {
    hide Inv, Step, WellFormed, Fits, Delivered, Fronted, Missing;
    var pc := s.threads[e.thread];
    EvictsOldest(c, s, e);
    ListsDistinct(c, s);
    FitsPart(c, pc, r);
    MissingSelf(s.lru);
    if s'.lru != s.lru {
      var n := OrderCases(pc, s.lru, s'.lru);
      if pc.Append? { MissingLast(s.lru, pc.n); }
    }
  }

  lemma {:induction false} WatchDry<K(!new), V>(c: Config<K, V>, s: State<K, V>, schedule: seq<Choice<K>>)
    requires Initial(c, s)
    ensures AllDry(Run(c, s, schedule), Watch(c, s, schedule))
    decreases |schedule|
  {
    hide Inv, Fits, Step, Note;
    if schedule != [] {
      WatchDry(c, s, schedule[..|schedule| - 1]);
      WatchFits(c, s, schedule[..|schedule| - 1]);
      Reachable(c, s, schedule[..|schedule| - 1]);
      NoteDry(c, Run(c, s, schedule[..|schedule| - 1]), schedule[|schedule| - 1], Watch(c, s, schedule[..|schedule| - 1]));
    }
  }

  /** In every interleaving a request evicts only once every node has been in use: the pool is empty then and for ever. */
  lemma EvictsWhenFull<K(!new), V>(c: Config<K, V>, n: nat, key: K, value: V, schedule: seq<Choice<K>>, t: nat)
    requires c.capacity > 0 && c.buckets > 0 && t < n
    ensures var s, h := Run(c, Start(c, n, key, value), schedule), Watch(c, Start(c, n, key, value), schedule);
      |h.requests| == n && (Evicted(h.requests[t]) ==> s.pool == [])
  {
    hide Inv, Step, Note, Fits;
    StartIsInitial(c, n, key, value);
    WatchDry(c, Start(c, n, key, value), schedule);
    RunThreads(c, Start(c, n, key, value), schedule);
  }

  // ---------- all together ----------

  /** In every interleaving of any number of threads running memoized accesses on a new cache: lists, flags, buckets, locks and
      delivered values are right at every moment, the LRU list is in the order of the last appends, every request of an idle
      thread is completed, and nothing is evicted before the pool is empty. */
  lemma EveryRun<K(!new), V>(c: Config<K, V>, n: nat, key: K, value: V, schedule: seq<Choice<K>>)
    requires c.capacity > 0 && c.buckets > 0
    ensures var s, h := Run(c, Start(c, n, key, value), schedule), Watch(c, Start(c, n, key, value), schedule);
      && Safe(c, s) && |s.threads| == |h.requests| == n && InStampOrder(s.lru, h.stamp, h.clock)
      && (forall t :: 0 <= t < n && s.threads[t].Idle? ==> Completed(c, h.requests[t]))
      && (forall t :: 0 <= t < n && Evicted(h.requests[t]) ==> s.pool == [])
  {
    hide Start, Step, Safe, Completed, Evicted, Note, InStampOrder, Inv, Timely;
    SafeRun(c, n, key, value, schedule);
    StartIsInitial(c, n, key, value);
    WatchStamps(c, Start(c, n, key, value), schedule);
    SameNumber(c, n, key, value, schedule);
    var s, h := Run(c, Start(c, n, key, value), schedule), Watch(c, Start(c, n, key, value), schedule);
    forall t | 0 <= t < n
      ensures (s.threads[t].Idle? ==> Completed(c, h.requests[t])) && (Evicted(h.requests[t]) ==> s.pool == [])
    {
      RequestsComplete(c, n, key, value, schedule, t);
      EvictsWhenFull(c, n, key, value, schedule, t);
    }
  }

  lemma SameNumber<K(!new), V>(c: Config<K, V>, n: nat, key: K, value: V, schedule: seq<Choice<K>>)
    requires c.capacity > 0 && c.buckets > 0
    ensures |Run(c, Start(c, n, key, value), schedule).threads| == n == |Watch(c, Start(c, n, key, value), schedule).requests|
  {
    hide Inv, Step, Fits, Note;
    StartIsInitial(c, n, key, value);
    RunThreads(c, Start(c, n, key, value), schedule);
    WatchFits(c, Start(c, n, key, value), schedule);
  }
}
