/** What every request to a HashFixed table does from its beginning to its end, whatever the other threads do. An
    observer of the run keeps the records; the steps of the machine do not know of them. */
module HashFixedRequests {
  import opened Links
  import opened HashFixed
  import opened Entries

  /** One request: whether the bucket of its key held the key when the find loaded its head, the values delivered to the
      thread, the pairs it put into the bucket, and whether it has read a counter at or past the capacity. */
  datatype Request<!K, !V> = NoRequest
    | Request(key: K, sought: seq<bool>, delivered: seq<(K, V)>, published: seq<(K, V)>, full: bool)

  predicate Holds<K(==), V>(c: Table<K, V>, s: State<K, V>, k: K)
    requires WellFormed(c, s)
  {
    k in KeysOf(s.chains[BucketOf(c, k)], s.key)
  }

  /** The record of the moving thread's request after its step from `s` to `s'`. */
  ghost function Observe<K(!new), V>(c: Table<K, V>, s: State<K, V>, s': State<K, V>, e: Choice<K>, r: Request<K, V>)
    : Request<K, V>
    requires WellFormed(c, s) && WellFormed(c, s') && e.thread < |s.threads|
  {
    var pc := s.threads[e.thread];
    if pc.Idle? then Request(e.k, [], [], [], false)
    else if r.NoRequest? then r
    else
      var b := BucketOf(c, r.key);
      Request(r.key,
              if pc.Search? then r.sought + [Holds(c, s, r.key)] else r.sought,
              r.delivered + Added(s.log, s'.log),
              r.published + Fronted(s.chains[b], s'.chains[b], s'.key, s'.value),
              r.full || ((pc.Test? || pc.Bump?) && s.counter >= c.capacity))
  }

  /** The records of all threads, each of the latest request of its thread, and the keys asked for in order. */
  datatype History<!K, !V> = History(requests: seq<Request<K, V>>, asked: seq<K>)

  ghost function Watch<K(!new), V>(c: Table<K, V>, s: State<K, V>, schedule: seq<Choice<K>>): History<K, V> {
    if schedule == [] then History(seq(|s.threads|, i => NoRequest), [])
    else
      var m, h := Run(c, s, schedule[..|schedule| - 1]), Watch(c, s, schedule[..|schedule| - 1]);
      Note(c, m, schedule[|schedule| - 1], h)
  }

  ghost function Note<K(!new), V>(c: Table<K, V>, m: State<K, V>, e: Choice<K>, h: History<K, V>): History<K, V> {
    if !WellFormed(c, m) || !WellFormed(c, Step(c, m, e)) || e.thread >= |m.threads| || e.thread >= |h.requests| then h
    else History(h.requests[e.thread := Observe(c, m, Step(c, m, e), e, h.requests[e.thread])],
                 if m.threads[e.thread].Idle? then h.asked + [e.k] else h.asked)
  }

  /** What a finished request has done: one value was delivered, that of its key. It published nothing if the key was
      in the bucket; otherwise it published one element with the key and its value, unless it read a full counter. */
  ghost predicate Completed<K, V>(c: Table<K, V>, r: Request<K, V>) {
    r.Request? ==>
      && |r.sought| == 1 && r.delivered == [(r.key, c.f(r.key))]
      && r.published == (if r.sought[0] || r.full then [] else [(r.key, c.f(r.key))])
      && (r.sought[0] ==> !r.full)
  }

  /** What has been observed of an unfinished request, by where its thread is. */
  ghost predicate Fits<K, V>(c: Table<K, V>, pc: Pc<K>, r: Request<K, V>) {
    if pc.Idle? then Completed(c, r) else
    && r.Request? && (!pc.Over? ==> r.key == pc.k) && r.published == [] && (r.full <==> pc.Over?)
    && r.sought == (if pc.Search? then [] else if pc.Walk? then [pc.k in pc.seen] else [false])
    && r.delivered == (if pc.Search? || pc.Walk? || pc.Missed? then [] else [(r.key, c.f(r.key))])
  }

  ghost predicate AllFit<K, V>(c: Table<K, V>, s: State<K, V>, h: History<K, V>) {
    && |h.requests| == |s.threads|
    && (forall t :: 0 <= t < |s.threads| ==> Fits(c, s.threads[t], h.requests[t]))
    && (forall t :: 0 <= t < |s.threads| && h.requests[t].Request? && h.requests[t].full ==> s.claimed == c.capacity)
  }

  lemma ObserveFits<K(!new), V>(c: Table<K, V>, s: State<K, V>, e: Choice<K>, r: Request<K, V>)
    requires Inv(c, s) && e.thread < |s.threads| && Fits(c, s.threads[e.thread], r)
    ensures WellFormed(c, s) && WellFormed(c, Step(c, s, e)) && |Step(c, s, e).threads| == |s.threads|
    ensures Fits(c, Step(c, s, e).threads[e.thread], Observe(c, s, Step(c, s, e), e, r))
  {
    hide Inv, KeysOf, Pairs, Step, Observe, Fits, WellFormed;
    InvShape(c, s);
    StepMoves(c, s, e);
    var pc := s.threads[e.thread];
    if pc.Idle? || pc.Search? || pc.Walk? || pc.Missed? { FindFits(c, s, e, r); } else { InsertFits(c, s, e, r); }
  }

  lemma FindFits<K(!new), V>(c: Table<K, V>, s: State<K, V>, e: Choice<K>, r: Request<K, V>)
    requires Inv(c, s) && WellFormed(c, s) && e.thread < |s.threads| == |Step(c, s, e).threads|
    requires WellFormed(c, Step(c, s, e))
    requires var pc := s.threads[e.thread]; (pc.Idle? || pc.Search? || pc.Walk? || pc.Missed?) && Fits(c, pc, r)
    ensures Fits(c, Step(c, s, e).threads[e.thread], Observe(c, s, Step(c, s, e), e, r))
  {
    hide Inv, KeysOf, Pairs;
    Knows(c, s, e.thread);
    var pc := s.threads[e.thread];
    if pc.Walk? {
      WalkAhead(c, s, pc);
      if pc.at != NULL { SeenHolds(c, s, pc); }
    }
  }

  lemma InsertFits<K(!new), V>(c: Table<K, V>, s: State<K, V>, e: Choice<K>, r: Request<K, V>)
    requires Inv(c, s) && WellFormed(c, s) && e.thread < |s.threads| == |Step(c, s, e).threads|
    requires WellFormed(c, Step(c, s, e))
    requires var pc := s.threads[e.thread]; !pc.Idle? && !pc.Search? && !pc.Walk? && !pc.Missed? && Fits(c, pc, r)
    ensures Fits(c, Step(c, s, e).threads[e.thread], Observe(c, s, Step(c, s, e), e, r))
  {
    hide Inv, KeysOf, Pairs;
    Knows(c, s, e.thread);
    var pc, s' := s.threads[e.thread], Step(c, s, e);
    if pc.Cas? {
      var chain := s.chains[BucketOf(c, pc.k)];
      assert ([pc.n] + chain)[..1] == [pc.n];
      PairsOne(pc.n, s'.key, s'.value);
    }
  }

  /** The element a find is looking at was in the bucket when the find began. */
  lemma SeenHolds<K, V>(c: Table<K, V>, s: State<K, V>, pc: Pc<K>)
    requires WellFormed(c, s) && Ahead(c, s, pc) && pc.Walk? && 0 <= pc.at < c.capacity
    ensures s.key[pc.at] in pc.seen
  {
    var chain := s.chains[BucketOf(c, pc.k)];
    assert pc.at in chain[|chain| - pc.left..];
  }

  /** An overflow is seen only when every slot has been handed out, and that remains so. */
  lemma FullStays<K(!new), V>(c: Table<K, V>, s: State<K, V>, e: Choice<K>)
    requires Inv(c, s)
    ensures s.counter >= c.capacity ==> s.claimed == c.capacity
    ensures s.claimed <= Step(c, s, e).claimed <= c.capacity
  {
    StepKeeps(c, s, e);
  }

  lemma NoteFits<K(!new), V>(c: Table<K, V>, s: State<K, V>, e: Choice<K>, h: History<K, V>)
    requires Inv(c, s) && AllFit(c, s, h)
    ensures AllFit(c, Step(c, s, e), Note(c, s, e, h))
  {
    hide Inv, Fits, Step, KeysOf, Pairs;
    InvShape(c, s);
    StepMoves(c, s, e);
    FullStays(c, s, e);
    if e.thread < |s.threads| {
      ObserveFits(c, s, e, h.requests[e.thread]);
    } else {
      assert Step(c, s, e) == s by { Outside(c, s, e); }
    }
  }

  lemma Outside<K(!new), V>(c: Table<K, V>, s: State<K, V>, e: Choice<K>)
    requires e.thread >= |s.threads|
    ensures Step(c, s, e) == s
  {
  }

  lemma {:induction false} WatchFits<K(!new), V>(c: Table<K, V>, s: State<K, V>, schedule: seq<Choice<K>>)
    requires Initial(c, s)
    ensures AllFit(c, Run(c, s, schedule), Watch(c, s, schedule))
    decreases |schedule|
  {
    hide Inv, Fits, Step, Note;
    if schedule == [] {
      assert forall t :: 0 <= t < |s.threads| ==> Fits(c, s.threads[t], Watch(c, s, schedule).requests[t]) by {
        InitialFits<K, V>(c, Idle);
      }
    } else {
      WatchFits(c, s, schedule[..|schedule| - 1]);
      Reachable(c, s, schedule[..|schedule| - 1]);
      NoteFits(c, Run(c, s, schedule[..|schedule| - 1]), schedule[|schedule| - 1], Watch(c, s, schedule[..|schedule| - 1]));
    }
  }

  lemma InitialFits<K, V>(c: Table<K, V>, pc: Pc<K>)
    requires pc.Idle?
    ensures Fits<K, V>(c, pc, NoRequest)
  {
  }

  /** In every interleaving each time a thread is idle again its request has delivered exactly one value, that of its key;
      a key that was in its bucket is found, and a missed key was published with its value by that very request, unless
      every slot of the table had been handed out. */
  lemma RequestsComplete<K(!new), V>(c: Table<K, V>, n: nat, key: K, value: V, schedule: seq<Choice<K>>, t: nat)
    requires c.buckets > 0 && t < n
    ensures var s, h := Run(c, Start(c, n, key, value), schedule), Watch(c, Start(c, n, key, value), schedule);
      && |s.threads| == |h.requests| == n
      && (s.threads[t].Idle? ==> Completed(c, h.requests[t]))
      && (h.requests[t].Request? && h.requests[t].full ==> s.claimed == c.capacity)
  {
    hide Inv, Fits, Step, Note;
    StartIsInitial(c, n, key, value);
    WatchFits(c, Start(c, n, key, value), schedule);
    RunThreads(c, Start(c, n, key, value), schedule);
    var s, h := Run(c, Start(c, n, key, value), schedule), Watch(c, Start(c, n, key, value), schedule);
    assert Fits(c, s.threads[t], h.requests[t]);
    IdleFits(c, s.threads[t], h.requests[t]);
  }

  lemma IdleFits<K, V>(c: Table<K, V>, pc: Pc<K>, r: Request<K, V>)
    requires Fits(c, pc, r)
    ensures pc.Idle? ==> Completed(c, r)
  {
  }

  lemma {:induction false} RunThreads<K(!new), V>(c: Table<K, V>, s: State<K, V>, schedule: seq<Choice<K>>)
    requires Initial(c, s)
    ensures |Run(c, s, schedule).threads| == |s.threads|
    decreases |schedule|
  {
    hide Inv, Step;
    if schedule != [] {
      var before := schedule[..|schedule| - 1];
      RunThreads(c, s, before);
      Reachable(c, s, before);
      InvShape(c, Run(c, s, before));
      StepMoves(c, Run(c, s, before), schedule[|schedule| - 1]);
    }
  }

  // ---------- nothing delivered is lost while there is room ----------

  /** The thread has delivered the value of the key and will publish the key or find the table full. */
  predicate Pending<K(==)>(pc: Pc<K>, k: K) {
    (pc.Test? || pc.Bump? || pc.Fill? || pc.Load? || pc.Store? || pc.Cas?) && pc.k == k
  }

  ghost predicate Kept<K, V>(c: Table<K, V>, s: State<K, V>, k: K)
    requires WellFormed(c, s)
  {
    s.claimed == c.capacity || Holds(c, s, k) || exists t :: 0 <= t < |s.threads| && Pending(s.threads[t], k)
  }

  lemma StepKept<K(!new), V>(c: Table<K, V>, s: State<K, V>, e: Choice<K>, k: K)
    requires Inv(c, s) && WellFormed(c, s) && Kept(c, s, k)
    ensures WellFormed(c, Step(c, s, e)) && Kept(c, Step(c, s, e), k)
  {
    hide Inv, KeysOf;
    var s' := Step(c, s, e);
    StepGrows(c, s, e);
    StepMoves(c, s, e);
    FullStays(c, s, e);
    KeysGrow(c, s, s', BucketOf(c, k));
    if s.claimed < c.capacity && !Holds(c, s, k) {
      var t :| 0 <= t < |s.threads| && Pending(s.threads[t], k);
      if t == e.thread {
        Knows(c, s, t);
        if s'.threads[t].Idle? && s.threads[t].Cas? { FrontHolds(c, s', BucketOf(c, k), s.threads[t].n); }
        assert Pending(s'.threads[t], k) || Holds(c, s', k) || s'.claimed == c.capacity;
      } else {
        assert Pending(s'.threads[t], k);
      }
    }
  }

  lemma FrontHolds<K, V>(c: Table<K, V>, s: State<K, V>, b: nat, n: int)
    requires WellFormed(c, s) && b < c.buckets && 0 <= n < c.capacity && s.chains[b] != [] && s.chains[b][0] == n
    ensures s.key[n] in KeysOf(s.chains[b], s.key)
  {
    assert n in s.chains[b];
  }

  lemma DeliveredKept<K(!new), V>(c: Table<K, V>, s: State<K, V>, e: Choice<K>, i: nat)
    requires Inv(c, s) && WellFormed(c, s) && |s.log| <= i < |Step(c, s, e).log|
    ensures WellFormed(c, Step(c, s, e)) && Kept(c, Step(c, s, e), Step(c, s, e).log[i].0)
  {
    hide Inv, KeysOf;
    var s' := Step(c, s, e);
    StepGrows(c, s, e);
    Knows(c, s, e.thread);
    var pc := s.threads[e.thread];
    if pc.Walk? {
      WalkAhead(c, s, pc);
      WalkHolds(c, s, pc);
    } else {
      assert Pending(s'.threads[e.thread], s'.log[i].0);
    }
  }

  lemma WalkHolds<K, V>(c: Table<K, V>, s: State<K, V>, pc: Pc<K>)
    requires WellFormed(c, s) && Ahead(c, s, pc) && pc.Walk? && 0 <= pc.at < c.capacity
    ensures s.key[pc.at] in KeysOf(s.chains[BucketOf(c, pc.k)], s.key)
  {
    var chain := s.chains[BucketOf(c, pc.k)];
    assert pc.at in chain[|chain| - pc.left..];
  }

  ghost predicate AllKept<K, V>(c: Table<K, V>, s: State<K, V>) {
    WellFormed(c, s) && forall i :: 0 <= i < |s.log| ==> Kept(c, s, s.log[i].0)
  }

  lemma StepAllKept<K(!new), V>(c: Table<K, V>, s: State<K, V>, e: Choice<K>)
    requires Inv(c, s) && AllKept(c, s)
    ensures AllKept(c, Step(c, s, e))
  {
    hide Inv, Kept, Step;
    var s' := Step(c, s, e);
    StepLog(c, s, e);
    StepGrows(c, s, e);
    forall i | 0 <= i < |s'.log| ensures Kept(c, s', s'.log[i].0) {
      if i < |s.log| { StepKept(c, s, e, s.log[i].0); } else { DeliveredKept(c, s, e, i); }
    }
  }

  lemma StepLog<K(!new), V>(c: Table<K, V>, s: State<K, V>, e: Choice<K>)
    ensures s.log <= Step(c, s, e).log
  {
  }

  lemma {:induction false} RunKept<K(!new), V>(c: Table<K, V>, s: State<K, V>, schedule: seq<Choice<K>>)
    requires Initial(c, s)
    ensures AllKept(c, Run(c, s, schedule))
    decreases |schedule|
  {
    hide Inv, Step, Kept;
    if schedule != [] {
      RunKept(c, s, schedule[..|schedule| - 1]);
      Reachable(c, s, schedule[..|schedule| - 1]);
      StepAllKept(c, Run(c, s, schedule[..|schedule| - 1]), schedule[|schedule| - 1]);
    }
  }

  /** As long as there is a slot left, every key whose value was delivered is in the table once all threads are idle. */
  lemma DeliveredIsCached<K(!new), V>(c: Table<K, V>, n: nat, key: K, value: V, schedule: seq<Choice<K>>, i: nat)
    requires c.buckets > 0
    requires var s := Run(c, Start(c, n, key, value), schedule);
      && i < |s.log| && s.claimed < c.capacity && forall t :: 0 <= t < |s.threads| ==> s.threads[t].Idle?
    ensures var s := Run(c, Start(c, n, key, value), schedule);
      WellFormed(c, s) && s.log[i].0 in KeysOf(s.chains[BucketOf(c, s.log[i].0)], s.key)
  {
    hide Inv, Step, KeysOf;
    StartIsInitial(c, n, key, value);
    RunKept(c, Start(c, n, key, value), schedule);
    var s := Run(c, Start(c, n, key, value), schedule);
    assert Kept(c, s, s.log[i].0);
  }

  // ---------- one thread ----------

  /** The keys of a trace, each once, in the order of their first occurrences. */
  function Newcomers<K(==)>(trace: seq<K>): seq<K> {
    if trace == [] then []
    else
      var before, k := Newcomers(trace[..|trace| - 1]), trace[|trace| - 1];
      if k in before then before else before + [k]
  }

  /** What a table of the given capacity is meant to keep of a trace: the keys that came first. */
  function FirstCome<K(==)>(capacity: nat, trace: seq<K>): seq<K> {
    var all := Newcomers(trace);
    if |all| <= capacity then all else all[..capacity]
  }

  /** One more access: a key that is kept or comes too late changes nothing. */
  lemma FirstComeSnoc<K>(capacity: nat, trace: seq<K>, k: K)
    ensures var before := FirstCome(capacity, trace);
      FirstCome(capacity, trace + [k]) == if k in before || |before| >= capacity then before else before + [k]
  {
    var t := trace + [k];
    assert t[..|t| - 1] == trace;
    assert Newcomers(t) == var all := Newcomers(trace); if k in all then all else all + [k];
  }

  /** The keys in the slots handed out, oldest first; `filling` counts the slots whose key is still to be written. */
  function Slots<K, V>(s: State<K, V>, filling: nat): seq<K> {
    if filling <= s.claimed <= |s.key| then s.key[..s.claimed - filling] else []
  }

  /** Where the only thread is decides how much of the trace has taken effect. */
  ghost predicate Solo<K, V>(c: Table<K, V>, s: State<K, V>, asked: seq<K>) {
    && |s.threads| == 1 && !s.threads[0].Over?
    && var pc := s.threads[0];
      if pc.Idle? then Slots(s, 0) == FirstCome(c.capacity, asked) else
      && asked != [] && asked[|asked| - 1] == pc.k
      && var before := FirstCome(c.capacity, asked[..|asked| - 1]);
        && (pc.Search? ==> Slots(s, 0) == before)
        && (pc.Walk? ==> Slots(s, 0) == before && (pc.k in pc.seen <==> pc.k in before))
        && (pc.Missed? || pc.Test? || pc.Bump? ==> Slots(s, 0) == before && pc.k !in before)
        && (pc.Bump? ==> s.counter < c.capacity)
        && (pc.Fill? ==> Slots(s, 1) == before && pc.k !in before && pc.n == s.claimed - 1)
        && (pc.Load? || pc.Store? || pc.Cas? ==> Slots(s, 0) == before + [pc.k] && pc.k !in before && s.claimed <= c.capacity)
  }

  lemma SoloStart<K, V>(c: Table<K, V>, s: State<K, V>)
    requires Initial(c, s) && |s.threads| == 1
    ensures Solo(c, s, [])
  {
  }

  /** With one thread that is not inserting, a bucket holds a key exactly when some slot does. */
  lemma HoldsSlot<K, V>(c: Table<K, V>, s: State<K, V>, k: K)
    requires Inv(c, s) && |s.threads| == 1 && !s.threads[0].Over?
    requires forall n :: !Owns(s.threads[0], n)
    ensures WellFormed(c, s) && s.counter == s.claimed <= |s.key| && (Holds(c, s, k) <==> k in Slots(s, 0))
  {
    assert Overs(s.threads) == 0 by { assert s.threads[1..] == []; }
    if Holds(c, s, k) {
      var x :| x in s.chains[BucketOf(c, k)] && 0 <= x < |s.key| && s.key[x] == k;
      assert Published(c, s, BucketOf(c, k), x);
      assert Slots(s, 0)[x] == k;
    }
    if k in Slots(s, 0) {
      var x :| 0 <= x < |Slots(s, 0)| && Slots(s, 0)[x] == k;
      assert !SomeoneOwns(s.threads, x);
    }
  }

  lemma SoloStep<K(!new), V>(c: Table<K, V>, s: State<K, V>, e: Choice<K>, asked: seq<K>)
    requires Inv(c, s) && Solo(c, s, asked) && e.thread == 0
    ensures Solo(c, Step(c, s, e), if s.threads[0].Idle? then asked + [e.k] else asked)
  {
    hide Inv, KeysOf, Newcomers, FirstCome, FindStep, ClaimStep, PublishStep;
    var pc := s.threads[0];
    SoloClaims(c, s);
    if pc.Idle? {
      assert (asked + [e.k])[..|asked|] == asked;
      assert Slots(Step(c, s, e), 0) == Slots(s, 0);
    } else if pc.Search? || pc.Walk? || pc.Missed? {
      SoloFind(c, s, asked);
    } else if pc.Test? || pc.Bump? {
      SoloClaim(c, s, asked);
    } else {
      SoloPublish(c, s, asked, e.fails);
    }
  }

  lemma SoloFind<K(!new), V>(c: Table<K, V>, s: State<K, V>, asked: seq<K>)
    requires Inv(c, s) && Solo(c, s, asked) && WellFormed(c, s)
    requires s.threads[0].Search? || s.threads[0].Walk? || s.threads[0].Missed?
    ensures Solo(c, FindStep(c, s, 0, s.threads[0]), asked)
  {
    hide Inv, KeysOf, Newcomers, FirstCome;
    var pc := s.threads[0];
    Knows(c, s, 0);
    assert asked == asked[..|asked| - 1] + [pc.k];
    FirstComeSnoc(c.capacity, asked[..|asked| - 1], pc.k);
    if pc.Search? { HoldsSlot(c, s, pc.k); }
    if pc.Walk? { hide Ahead; WalkSeen(c, s, pc); }
  }

  /** A find that has found the key or nothing knows whether the bucket held the key. */
  lemma WalkSeen<K(!new), V>(c: Table<K, V>, s: State<K, V>, pc: Pc<K>)
    requires Inv(c, s) && WellFormed(c, s) && pc.Walk? && Ahead(c, s, pc)
    ensures pc.at == NULL ==> pc.k !in pc.seen
    ensures pc.at != NULL ==> 0 <= pc.at < c.capacity && (s.key[pc.at] == pc.k ==> pc.k in pc.seen)
  {
    hide Inv, KeysOf;
    WalkAhead(c, s, pc);
    if pc.at != NULL { SeenHolds(c, s, pc); }
  }

  lemma SoloClaim<K(!new), V>(c: Table<K, V>, s: State<K, V>, asked: seq<K>)
    requires Inv(c, s) && Solo(c, s, asked) && WellFormed(c, s) && (s.threads[0].Test? || s.threads[0].Bump?)
    ensures Solo(c, ClaimStep(c, s, 0, s.threads[0]), asked)
  {
    hide Inv, KeysOf, Newcomers, FirstCome;
    var pc, s' := s.threads[0], ClaimStep(c, s, 0, s.threads[0]);
    assert asked == asked[..|asked| - 1] + [pc.k];
    FirstComeSnoc(c.capacity, asked[..|asked| - 1], pc.k);
    HoldsSlot(c, s, pc.k);
    if pc.Bump? { assert Slots(s', 1) == Slots(s, 0); } else { assert Slots(s', 0) == Slots(s, 0); }
  }

  lemma SoloPublish<K(!new), V>(c: Table<K, V>, s: State<K, V>, asked: seq<K>, fails: bool)
    requires Inv(c, s) && Solo(c, s, asked) && WellFormed(c, s) && s.claimed <= c.capacity
    requires s.threads[0].Fill? || s.threads[0].Load? || s.threads[0].Store? || s.threads[0].Cas?
    ensures Solo(c, PublishStep(c, s, 0, s.threads[0], fails), asked)
  {
    hide Inv, KeysOf, Newcomers, FirstCome;
    var pc, s' := s.threads[0], PublishStep(c, s, 0, s.threads[0], fails);
    var before := asked[..|asked| - 1];
    Knows(c, s, 0);
    assert asked == before + [pc.k];
    FirstComeSnoc(c.capacity, before, pc.k);
    FirstComeBound(c.capacity, before);
    if pc.Fill? {
      assert Slots(s', 0) == Slots(s, 1) + [pc.k];
    } else {
      assert Slots(s', 0) == Slots(s, 0);
    }
  }

  lemma FirstComeBound<K>(capacity: nat, trace: seq<K>)
    ensures |FirstCome(capacity, trace)| <= capacity
  {
  }

  lemma SoloClaims<K, V>(c: Table<K, V>, s: State<K, V>)
    requires Inv(c, s) && |s.threads| == 1
    ensures WellFormed(c, s) && s.claimed <= c.capacity && |s.key| == c.capacity
  {
  }

  lemma {:induction false} SoloRun<K(!new), V>(c: Table<K, V>, s: State<K, V>, schedule: seq<Choice<K>>)
    requires Initial(c, s) && |s.threads| == 1
    ensures Solo(c, Run(c, s, schedule), Watch(c, s, schedule).asked)
    decreases |schedule|
  {
    hide Inv, Step, Solo, Observe;
    if schedule == [] {
      SoloStart(c, s);
    } else {
      var before, e := schedule[..|schedule| - 1], schedule[|schedule| - 1];
      SoloRun(c, s, before);
      Reachable(c, s, before);
      RunThreads(c, s, before);
      WatchFits(c, s, before);
      var m := Run(c, s, before);
      InvShape(c, m);
      StepMoves(c, m, e);
      if e.thread == 0 { SoloStep(c, m, e, Watch(c, s, before).asked); } else { Outside(c, m, e); }
    }
  }

  /** With one thread the table is a cache that keeps what came first: after any trace of accesses its slots hold, in
      order, the first `capacity` distinct keys. */
  lemma OneThreadKeepsFirst<K(!new), V>(c: Table<K, V>, key: K, value: V, schedule: seq<Choice<K>>)
    requires c.buckets > 0
    ensures var s, h := Run(c, Start(c, 1, key, value), schedule), Watch(c, Start(c, 1, key, value), schedule);
      |s.threads| == 1 && (s.threads[0].Idle? ==>
        && s.claimed <= |s.key| && s.key[..s.claimed] == FirstCome(c.capacity, h.asked)
        && WellFormed(c, s) && (forall k :: k in FirstCome(c.capacity, h.asked) <==> k in KeysOf(s.chains[BucketOf(c, k)], s.key)))
  {
    hide Inv, Step, KeysOf;
    var s0 := Start(c, 1, key, value);
    StartIsInitial(c, 1, key, value);
    SoloRun(c, s0, schedule);
    Reachable(c, s0, schedule);
    var s := Run(c, s0, schedule);
    SoloClaims(c, s);
    if s.threads[0].Idle? {
      forall k ensures k in Slots(s, 0) <==> Holds(c, s, k) { HoldsSlot(c, s, k); }
    }
  }

  // ---------- every request ends ----------

  /** How many steps of its own the thread still needs if nobody else moves and nothing fails for no reason. */
  function Needs<K, V>(c: Table<K, V>, s: State<K, V>, t: nat): nat {
    if !WellFormed(c, s) || t >= |s.threads| then 0 else
    match s.threads[t]
    case Idle => 0
    case Search(k) => |s.chains[BucketOf(c, k)]| + 20
    case Walk(_, _, left, _) => left + 19
    case Missed(_, _) => 18
    case Test(_) => 17
    case Bump(_) => 16
    case Over => 1
    case Fill(_, _) => 15
    case Load(_, _) => 14
    case Store(k, _, next) => if next == s.head[BucketOf(c, k)] then 10 else 13
    case Cas(k, _, next) => if next == s.head[BucketOf(c, k)] then 9 else 12
  }

  lemma NeedsLess<K(!new), V>(c: Table<K, V>, s: State<K, V>, e: Choice<K>)
    requires Inv(c, s) && WellFormed(c, s) && e.thread < |s.threads| && !s.threads[e.thread].Idle? && !e.fails
    ensures var s' := Step(c, s, e);
      && WellFormed(c, s') && |s'.threads| == |s.threads|
      && Needs(c, s', e.thread) < Needs(c, s, e.thread)
  {
    hide Inv, KeysOf;
    StepMoves(c, s, e);
    Knows(c, s, e.thread);
    if s.threads[e.thread].Walk? { WalkAhead(c, s, s.threads[e.thread]); }
  }

  /** Steps of one thread in which nothing fails for no reason. */
  function Undisturbed<K>(t: nat, k: K, n: nat): seq<Choice<K>> {
    seq(n, i => Choice(t, k, false))
  }

  lemma {:induction false} Finishes<K(!new), V>(c: Table<K, V>, s0: State<K, V>, schedule: seq<Choice<K>>, t: nat,
                                                k: K) returns (n: nat)
    requires Initial(c, s0) && t < |s0.threads|
    ensures var s := Run(c, s0, schedule + Undisturbed(t, k, n)); |s.threads| == |s0.threads| && s.threads[t].Idle?
    ensures n <= Needs(c, Run(c, s0, schedule), t)
    decreases Needs(c, Run(c, s0, schedule), t)
  {
    hide Inv, Step, Needs;
    var s := Run(c, s0, schedule);
    RunThreads(c, s0, schedule);
    Reachable(c, s0, schedule);
    InvShape(c, s);
    if s.threads[t].Idle? {
      n := 0;
      assert schedule + Undisturbed(t, k, 0) == schedule;
    } else {
      var e := Choice(t, k, false);
      NeedsLess(c, s, e);
      assert (schedule + [e])[..|schedule|] == schedule;
      var m := Finishes(c, s0, schedule + [e], t, k);
      n := m + 1;
      assert schedule + Undisturbed(t, k, n) == schedule + [e] + Undisturbed(t, k, m);
    }
  }

  /** Whatever state the threads have come to, a thread finishes its request in a bounded number of its own steps if the others
      pause and nothing fails for no reason: nobody has to be waited for. */
  lemma NobodyIsWaitedFor<K(!new), V>(c: Table<K, V>, n: nat, key: K, value: V, schedule: seq<Choice<K>>, t: nat)
    requires c.buckets > 0 && t < n
    ensures exists m: nat ::
      && m <= Needs(c, Run(c, Start(c, n, key, value), schedule), t)
      && var s := Run(c, Start(c, n, key, value), schedule + Undisturbed(t, key, m)); |s.threads| == n && s.threads[t].Idle?
  {
    hide Inv, Step;
    StartIsInitial(c, n, key, value);
    var m := Finishes(c, Start(c, n, key, value), schedule, t, key);
  }

  // ---------- all together ----------

  /** Every published element is in the bucket that the hash of its key selects. */
  ghost predicate InHashBuckets<K, V>(c: Table<K, V>, s: State<K, V>) {
    && |s.chains| == c.buckets && |s.key| == |s.value| == c.capacity
    && forall b, x :: 0 <= b < c.buckets && x in s.chains[b] ==>
      0 <= x < c.capacity && b == c.hash(s.key[x]) % c.buckets && s.value[x] == c.f(s.key[x])
  }

  lemma PublishedWhere<K, V>(c: Table<K, V>, s: State<K, V>)
    requires Inv(c, s)
    ensures InHashBuckets(c, s) && Counted(c, s) && Delivered(c, s.log)
  {
    forall b, x | 0 <= b < c.buckets && x in s.chains[b]
      ensures 0 <= x < c.capacity && b == c.hash(s.key[x]) % c.buckets && s.value[x] == c.f(s.key[x])
    {
      assert Published(c, s, b, x);
    }
  }

  /** In every interleaving of any number of threads running memoized accesses on a new table: the counter is the number of slots
      handed out plus the overflowed threads that have not rolled back, which exist only when every slot is handed out;
      published elements are filed under their keys; every value delivered is the value of its key; and every request of an
      idle thread is completed. */
  lemma EveryRun<K(!new), V>(c: Table<K, V>, n: nat, key: K, value: V, schedule: seq<Choice<K>>)
    requires c.buckets > 0
    ensures var s, h := Run(c, Start(c, n, key, value), schedule), Watch(c, Start(c, n, key, value), schedule);
      && Counted(c, s) && InHashBuckets(c, s) && |s.threads| == |h.requests| == n
      && (forall t :: 0 <= t < n && s.threads[t].Idle? ==> Completed(c, h.requests[t]))
      && (forall i :: 0 <= i < |s.log| ==> s.log[i].1 == c.f(s.log[i].0))
  {
    hide Inv, Step, Note, Completed, Start, Fits, Counted, InHashBuckets;
    var s0 := Start(c, n, key, value);
    StartIsInitial(c, n, key, value);
    StartThreads(c, n, key, value);
    Reachable(c, s0, schedule);
    RunThreads(c, s0, schedule);
    WatchFits(c, s0, schedule);
    PublishedWhere(c, Run(c, s0, schedule));
    forall t | 0 <= t < n && Run(c, s0, schedule).threads[t].Idle? ensures Completed(c, Watch(c, s0, schedule).requests[t]) {
      RequestsComplete(c, n, key, value, schedule, t);
    }
  }

  lemma StartThreads<K, V>(c: Table<K, V>, n: nat, key: K, value: V)
    ensures |Start(c, n, key, value).threads| == n
  {
  }
}
