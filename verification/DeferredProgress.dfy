/** A thread that is alone with the cache finishes every request: whatever state it has come to, enough steps in which no
    compare-and-swap fails for no reason make it idle again. */
module DeferredProgress {
  import opened Links
  import opened Sequences
  import opened Entries
  import opened SharedLists
  import opened DeferredMachine
  import opened DeferredInvariant
  import opened DeferredThreads
  import opened DeferredInserts
  import opened DeferredSafety
  import opened DeferredRequests
  import opened DeferredSessions
  import opened DeferredSolo
  import Policy = DeferredPolicy

  /** What the only thread has read of a head that it is about to swap is still there. */
  ghost predicate Fresh<K, V>(c: Config<K, V>, s: State<K, V>) {
    |s.threads| == 1 && var pc := s.threads[0];
      && (pc.Find? && (pc.f.StoreMark? || pc.f.CasMark?) ==> pc.f.h == s.recent.head)
      && (pc.Insert? && (pc.i.StoreNext? || pc.i.CasHead?) ==> pc.i.h == At(s.lists.next, Head(c.capacity)))
      && (s.con.DisposeStore? || s.con.DisposeCas? ==> s.con.h == s.lists.ehead)
      && (s.con.SpliceStore? || s.con.SpliceCas? ==> s.con.h == At(s.lists.next, Head(c.capacity)))
  }

  lemma FreshStep<K(!new), V>(c: Config<K, V>, s: State<K, V>, e: Choice<K>)
    requires Inv(c, s) && WellFormed(c, s) && Fresh(c, s) && e.thread == 0
    ensures Fresh(c, Step(c, s, e))
  {
    hide Inv, FindStep, InsertStep, ConsolidateStep, WellFormed;
    var pc := s.threads[0];
    if !pc.Consolidate? { NobodyHolds(c, s); }
    if pc.Find? { FreshFind(c, s, e.fails); }
    else if pc.Insert? { FreshInsert(c, s, e.fails); }
    else if pc.Consolidate? { FreshSession(c, s, e.fails); }
  }

  lemma FreshFind<K(!new), V>(c: Config<K, V>, s: State<K, V>, fails: bool)
    requires WellFormed(c, s) && Fresh(c, s) && s.threads[0].Find? && s.con.Off?
    ensures Fresh(c, FindStep(c, s, 0, s.threads[0].k, s.threads[0].f, fails))
  {
    hide WellFormed, FindStep;
    FindPuts(c, s, 0, fails);
    FindReads(c, s, fails);
  }

  /** A find that is about to push has just read the head of the Recent list, and leaves it. */
  lemma FindReads<K(!new), V>(c: Config<K, V>, s: State<K, V>, fails: bool)
    requires WellFormed(c, s) && Fresh(c, s) && s.threads[0].Find?
    ensures var s' := FindStep(c, s, 0, s.threads[0].k, s.threads[0].f, fails);
      && |s'.threads| == 1 && !s'.threads[0].Insert?
      && var pc := s'.threads[0]; (pc.Find? && (pc.f.StoreMark? || pc.f.CasMark?) ==> pc.f.h == s'.recent.head)
  {
    hide WellFormed;
  }

  lemma FreshInsert<K(!new), V>(c: Config<K, V>, s: State<K, V>, fails: bool)
    requires Inv(c, s) && WellFormed(c, s) && Fresh(c, s) && s.threads[0].Insert? && s.con.Off?
    ensures Fresh(c, InsertStep(c, s, 0, s.threads[0].k, s.threads[0].i, fails))
  {
    hide Inv, WellFormed;
    if s.threads[0].i.StoreNext? { OwnsAside(c, s); }
  }

  lemma FreshSession<K(!new), V>(c: Config<K, V>, s: State<K, V>, fails: bool)
    requires Inv(c, s) && WellFormed(c, s) && Fresh(c, s) && s.threads[0].Consolidate?
    ensures Fresh(c, ConsolidateStep(c, s, 0, s.threads[0].after, fails))
  {
    hide Inv, WellFormed, PurgeStep, PullStep;
    ConsolidateQuiet(c, s, 0, fails);
    if Purging(s.con) { FreshPurge(c, s, fails); } else if !s.con.Release? { FreshPull(c, s, fails); }
  }

  ghost predicate FreshCon<K, V>(c: Config<K, V>, s: State<K, V>) {
    && (s.con.DisposeStore? || s.con.DisposeCas? ==> s.con.h == s.lists.ehead)
    && (s.con.SpliceStore? || s.con.SpliceCas? ==> s.con.h == At(s.lists.next, Head(c.capacity)))
  }

  lemma FreshPurge<K(!new), V>(c: Config<K, V>, s: State<K, V>, fails: bool)
    requires WellFormed(c, s) && FreshCon(c, s) && Purging(s.con)
    ensures FreshCon(c, PurgeStep(c, s, fails))
  {
    hide WellFormed;
  }

  lemma FreshPull<K(!new), V>(c: Config<K, V>, s: State<K, V>, fails: bool)
    requires Inv(c, s) && WellFormed(c, s) && FreshCon(c, s) && !Purging(s.con)
    ensures FreshCon(c, PullStep(c, s, fails))
  {
    hide Inv, WellFormed;
    if s.con.SpliceStore? { LastLocal(c, s); }
    if InPull(s.con) { hide FreshCon; FreshMoving(c, s, fails); }
  }

  lemma FreshMoving<K(!new), V>(c: Config<K, V>, s: State<K, V>, fails: bool)
    requires WellFormed(c, s) && InPull(s.con)
    ensures FreshCon(c, PullStep(c, s, fails))
  {
    hide WellFormed;
  }

  lemma LastLocal<K, V>(c: Config<K, V>, s: State<K, V>)
    requires Inv(c, s) && s.con.SpliceStore?
    ensures s.con.last != Head(c.capacity)
  {
    hide OnRecent, OnTable, CrossOk, HolderOk, Delivered, HoldOk, OwingOk, InserterList, PurgeOk, Main, Side;
    assert InRange(s.lists.temp, c.capacity);
  }

  // ---------- how much is left to do ----------

  /** How far the request still has to go, apart from what is left of a session. */
  function Phase<K, V>(s: State<K, V>): nat {
    if s.threads == [] then 0 else
    match s.threads[0]
    case Idle => 0
    case Find(_, f) =>
      (match f
       case Lock => 40
       case Search => 39
       case Check(_) => 38
       case LoadMark(_) => 37
       case StoreMark(_, _, _) => 36
       case CasMark(_, _) => 35
       case CountMark => 34
       case Unlock(_) => 33
       case TestThreshold(_) => 32
       case RequestPull(_) => 31)
    case Produce(_) => 28
    case Insert(_, i) =>
      (match i
       case Reserve => 27
       case Allocate => if s.lists.pool == [] then 26 else 20
       case RequestPurge => 25
       case Fill(_) => 19
       case File(_) => 18
       case LoadHead(_) => 17
       case StoreNext(_, _) => 16
       case CasHead(_, _) => 15
       case WriteBack(_, _) => 14
       case Unmark(_) => 13)
    case Try(after) => if after.Retry? then 24 else 30
    case Consolidate(after) => if after.Retry? then 23 else 29
  }

  /** What is left of a purge is counted in nodes not looked at yet, what is left of a pull in nodes of the slice. */
  function Remaining<K, V>(c: Config<K, V>, s: State<K, V>, p: Purge): nat {
    var all, rest, slice := 20 * c.capacity, 20 * |Rest(p)|, 20 * |s.recent.slice|;
    match s.con
    case Off => 0
    case PurgeTest => all + 90
    case PurgeStart => all + 80
    case PurgeLoop(_, _) => rest + 60
    case PurgeCheck(_, _, _) => rest + 59
    case PurgeUnfile(_, _, _) => rest + 58
    case PurgeRead(_, _, _) => rest + 57
    case PurgeForward(_, _, _, _, _) => rest + 56
    case PurgeBack(_, _, _, _, _) => rest + 55
    case PurgeDelete(_, _, _) => rest + 54
    case DisposeLoad(_, _, _) => rest + 53
    case DisposeStore(_, _, _, _) => rest + 52
    case DisposeCas(_, _, _, _) => rest + 51
    case PurgeDone => 45
    case PullTest => if s.pullRequest then all + 70 else 40
    case PullPop => all + 60
    case PullZero(_) => slice + 30
    case PullLoop(_, _) => slice + 20
    case PullSkip(_, _) => slice + 19
    case PullRead(_, _) => slice + 19
    case PullForward(_, _, _, _) => slice + 18
    case PullBack(_, _, _, _) => slice + 17
    case PullLocal(_, _) => slice + 16
    case PullNext(_) => slice + 15
    case SpliceLoad(_) => 12
    case SpliceStore(_, _, _) => 11
    case SpliceCas(_, _, _) => 10
    case SpliceBack(_, _) => 9
    case PullDone => 8
    case Release => 5
  }

  // ---------- every step leaves less to do ----------

  /** The only thread finds every bucket lock free that it does not hold itself. */
  lemma LocksFree<K, V>(c: Config<K, V>, s: State<K, V>, k: K)
    requires Inv(c, s) && WellFormed(c, s) && |s.threads| == 1 && !HasStripe(s.threads[0])
    ensures s.table.locks[StripeOf(c, k)] == NULL
  {
    hide OnLists, OnRecent, CrossOk, HolderOk, Delivered, TableOk, CountOk, FinderTable, InserterTable;
  }

  lemma FindGoes<K(!new), V>(c: Config<K, V>, s: State<K, V>)
    requires Inv(c, s) && WellFormed(c, s) && Fresh(c, s) && s.threads[0].Find?
    ensures Phase(FindStep(c, s, 0, s.threads[0].k, s.threads[0].f, false)) < Phase(s)
  {
    hide Inv, WellFormed;
    if s.threads[0].f.Lock? { LocksFree(c, s, s.threads[0].k); }
  }

  lemma InsertGoes<K(!new), V>(c: Config<K, V>, s: State<K, V>)
    requires Inv(c, s) && WellFormed(c, s) && Fresh(c, s) && s.threads[0].Insert?
    ensures Phase(InsertStep(c, s, 0, s.threads[0].k, s.threads[0].i, false)) < Phase(s)
  {
    hide Inv, WellFormed, InsertStep, Phase;
    var i := s.threads[0].i;
    if i.Reserve? || i.Allocate? || i.RequestPurge? || i.Fill? { RoomGoes(c, s); } else { LinkGoes(c, s); }
  }

  lemma RoomGoes<K(!new), V>(c: Config<K, V>, s: State<K, V>)
    requires Inv(c, s) && WellFormed(c, s) && Fresh(c, s) && s.threads[0].Insert?
    requires var i := s.threads[0].i; i.Reserve? || i.Allocate? || i.RequestPurge? || i.Fill?
    ensures Phase(InsertStep(c, s, 0, s.threads[0].k, s.threads[0].i, false)) < Phase(s)
  {
    hide Inv, WellFormed;
    PoolHead(c, s);
  }

  lemma LinkGoes<K(!new), V>(c: Config<K, V>, s: State<K, V>)
    requires Inv(c, s) && WellFormed(c, s) && Fresh(c, s) && s.threads[0].Insert?
    requires var i := s.threads[0].i; !i.Reserve? && !i.Allocate? && !i.RequestPurge? && !i.Fill?
    ensures Phase(InsertStep(c, s, 0, s.threads[0].k, s.threads[0].i, false)) < Phase(s)
  {
    hide Inv, WellFormed;
    if s.threads[0].i.File? { LocksFree(c, s, s.threads[0].k); }
  }

  /** The steps of a purge. */
  lemma PurgeGoes<K(!new), V>(c: Config<K, V>, s: State<K, V>, s': State<K, V>, p: Purge)
    requires Inv(c, s) && WellFormed(c, s) && Fresh(c, s) && s.threads[0].Consolidate?
    requires PurgeTrack(c, s.lists.order, s.con, p)
    requires Purging(s.con) && (s.con.PurgeTest? ==> s.purgeRequest || s.pullRequest) && (s.con.PurgeDone? ==> !s.pullRequest)
    requires s' == PurgeStep(c, s, false)
    ensures Remaining(c, s', ObservePurge(c, s, s', p)) < Remaining(c, s, p)
  {
    hide Inv, Fresh, Remaining, PurgeTrack, ObservePurge, WellFormed, PurgeStep;
    if s.con.PurgeTest? || s.con.PurgeStart? || s.con.PurgeLoop? || s.con.PurgeDone? { PurgeTurns(c, s, s', p); }
    else if s.con.PurgeCheck? || s.con.PurgeUnfile? || s.con.DisposeCas? { PurgeSettlesNode(c, s, s', p); }
    else { PurgeWorks(c, s, s', p); }
  }

  lemma PurgeTurns<K(!new), V>(c: Config<K, V>, s: State<K, V>, s': State<K, V>, p: Purge)
    requires Inv(c, s) && WellFormed(c, s) && (s.con.PurgeTest? ==> s.purgeRequest || s.pullRequest)
    requires s.con.PurgeTest? || s.con.PurgeStart? || s.con.PurgeLoop? || s.con.PurgeDone?
    requires (s.con.PurgeDone? ==> !s.pullRequest) && s' == PurgeStep(c, s, false)
    ensures Remaining(c, s', ObservePurge(c, s, s', p)) < Remaining(c, s, p)
  {
    hide Inv, WellFormed;
    ListSizes(c, s);
  }

  lemma PurgeSettlesNode<K(!new), V>(c: Config<K, V>, s: State<K, V>, s': State<K, V>, p: Purge)
    requires Inv(c, s) && WellFormed(c, s) && Fresh(c, s) && s.threads[0].Consolidate?
    requires PurgeTrack(c, s.lists.order, s.con, p)
    requires (s.con.PurgeCheck? || s.con.PurgeUnfile? || s.con.DisposeCas?) && s' == PurgeStep(c, s, false)
    ensures Remaining(c, s', ObservePurge(c, s, s', p)) < Remaining(c, s, p)
  {
    hide Inv, Gone, Stayed, Nodes, Reverse, FromTail, Last, Rest;
    if s.con.DisposeCas? {
      OneLess(p, Took(s.con.node));
    } else {
      PurgeNodeFiled(c, s);
      LocksFree(c, s, s.table.key[s.con.node]);
      OneLess(p, Seen.Left(s.con.node));
    }
  }

  lemma PurgeWorks<K(!new), V>(c: Config<K, V>, s: State<K, V>, s': State<K, V>, p: Purge)
    requires WellFormed(c, s) && s' == PurgeStep(c, s, false)
    requires var con := s.con;
      || con.PurgeRead? || con.PurgeForward? || con.PurgeBack? || con.PurgeDelete? || con.DisposeLoad? || con.DisposeStore?
    ensures Remaining(c, s', ObservePurge(c, s, s', p)) < Remaining(c, s, p)
  {
    hide WellFormed, Rest;
  }

  lemma OneLess(p: Purge, x: Seen)
    ensures Rest(p) != [] ==> |Rest(p.(seen := p.seen + [x]))| < |Rest(p)|
  {
  }

  lemma ListSizes<K, V>(c: Config<K, V>, s: State<K, V>)
    requires Inv(c, s)
    ensures |s.lists.order| <= c.capacity && |s.recent.stack| <= c.capacity
  {
    hide Inv;
    ListShape(c, s);
    DistinctBelow(s.lists.order, c.capacity);
    DistinctBelow(s.recent.stack, c.capacity);
  }

  /** The steps of a pull. */
  lemma PullGoes<K(!new), V>(c: Config<K, V>, s: State<K, V>, p: Purge, p': Purge)
    requires Inv(c, s) && WellFormed(c, s) && Fresh(c, s) && s.threads[0].Consolidate?
    requires PullRuns(s.con) || s.con.PullTest?
    ensures Remaining(c, PullStep(c, s, false), p') < Remaining(c, s, p)
  {
    hide Inv, WellFormed, Rest, PullStep, Remaining;
    if InPull(s.con) { PullWorks(c, s, p, p'); } else { PullTurns(c, s, p, p'); }
  }

  lemma PullWorks<K(!new), V>(c: Config<K, V>, s: State<K, V>, p: Purge, p': Purge)
    requires Inv(c, s) && WellFormed(c, s) && InPull(s.con)
    ensures Remaining(c, PullStep(c, s, false), p') < Remaining(c, s, p)
  {
    hide Inv, WellFormed, Rest, Bypassed, Settled, Appended, RecentOk;
    SliceKnown(c, s);
  }

  lemma PullTurns<K(!new), V>(c: Config<K, V>, s: State<K, V>, p: Purge, p': Purge)
    requires Inv(c, s) && WellFormed(c, s) && Fresh(c, s)
    requires InSplice(s.con) || s.con.PullTest? || s.con.PullPop? || s.con.SpliceBack? || s.con.PullDone?
    ensures Remaining(c, PullStep(c, s, false), p') < Remaining(c, s, p)
  {
    hide Inv, WellFormed, Rest, PullStep, Remaining;
    if InSplice(s.con) { SpliceGoes(c, s, p, p'); } else { PullEdges(c, s, p, p'); }
  }

  lemma SpliceGoes<K(!new), V>(c: Config<K, V>, s: State<K, V>, p: Purge, p': Purge)
    requires WellFormed(c, s) && Fresh(c, s) && InSplice(s.con)
    ensures Remaining(c, PullStep(c, s, false), p') < Remaining(c, s, p)
  {
    hide WellFormed, Rest;
  }

  lemma PullEdges<K(!new), V>(c: Config<K, V>, s: State<K, V>, p: Purge, p': Purge)
    requires Inv(c, s) && WellFormed(c, s) && (s.con.PullTest? || s.con.PullPop? || s.con.SpliceBack? || s.con.PullDone?)
    ensures Remaining(c, PullStep(c, s, false), p') < Remaining(c, s, p)
  {
    hide Inv, WellFormed, Rest;
    ListSizes(c, s);
  }

  /** After its purge the only thread finds a free node. */
  lemma PurgeHelps<K(!new), V>(c: Config<K, V>, s: State<K, V>, x: Policy.Cache<K>, k: K)
    requires Inv(c, s) && |s.threads| == 1 && s.threads[0].Consolidate? && s.con.Release? && Policy.Sound(ParamsOf(c))
    requires Policy.Marks(x.lru, x.recent) && |x.recent| < c.pullThreshold
    requires var mid := Policy.Find(ParamsOf(c), x, k);
      |mid.lru| == c.capacity && Rests(s, Policy.MakeRoom(ParamsOf(c), mid))
    ensures s.lists.pool != []
  {
    hide Inv, Shows, Policy.Candidates;
    var mid := Policy.Find(ParamsOf(c), x, k);
    var room := Policy.MakeRoom(ParamsOf(c), mid);
    FindMarks(ParamsOf(c), x, k);
    Policy.CandidatesBound(mid.lru, mid.recent);
    Policy.PurgeEffect(mid.lru, mid.recent, c.purgeThreshold);
    ShownSizes(s, s.lists.order, s.recent.stack, room);
    PoolNotEmpty(c, s);
  }

  lemma PoolNotEmpty<K, V>(c: Config<K, V>, s: State<K, V>)
    requires Inv(c, s) && |s.threads| == 1 && s.threads[0].Consolidate? && s.con.Release?
    ensures |s.lists.order| < c.capacity ==> s.lists.pool != []
  {
    hide OnRecent, OnTable, Delivered, OwingOk, InserterList, PurgeOk, SpliceOk, Main;
    ListShape(c, s);
    if s.lists.pool == [] {
      forall x | 0 <= x < c.capacity ensures x in s.lists.order {
        var p := PlaceAt(s.lists, x);
        assert !p.Owned? && p != Local && p != SharedLists.Taken;
      }
      DistinctBelow(s.lists.order, c.capacity);
    }
  }

  /** Less of the request is left, or as much of the request and less of the session. */
  ghost predicate Less<K, V>(c: Config<K, V>, s: State<K, V>, h: Session, s': State<K, V>, h': Session) {
    Phase(s') < Phase(s) || (Phase(s') == Phase(s) && Remaining(c, s', h'.purge) < Remaining(c, s, h.purge))
  }

  lemma SessionGoes<K(!new), V>(c: Config<K, V>, s: State<K, V>, s': State<K, V>, h: Session, x: Policy.Cache<K>, k: K)
    requires Inv(c, s) && WellFormed(c, s) && Fresh(c, s) && Track(c, s, h) && |s.threads| == 1
    requires s.threads[0].Consolidate? && !s.con.Release?
    requires AtPull(c, s, h, s.threads[0].after, x, k) || AtPurge(c, s, h, s.threads[0].after, x, k)
    requires s' == ConsolidateStep(c, s, 0, s.threads[0].after, false)
    ensures Less(c, s, h, s', DeferredSessions.Observe(c, s, s', 0, h))
  {
    hide Inv, WellFormed, Fresh, PurgeTrack, PullTrack, DueTrack, Remaining, PurgeStep, PullStep, ObservePurge,
         ObservePull, Rests,
         Policy.Find, Policy.MakeRoom;
    ConsolidateQuiet(c, s, 0, false);
    assert Phase(s') == Phase(s);
    if Purging(s.con) { PurgeGoes(c, s, s', h.purge); } else { PullGoes(c, s, h.purge, ObservePurge(c, s, s', h.purge)); }
  }

  lemma ReleaseGoes<K(!new), V>(c: Config<K, V>, s: State<K, V>, s': State<K, V>, h: Session, x: Policy.Cache<K>, k: K)
    requires Inv(c, s) && WellFormed(c, s) && |s.threads| == 1 && s.threads[0].Consolidate? && s.con.Release?
    requires AtPull(c, s, h, s.threads[0].after, x, k) || AtPurge(c, s, h, s.threads[0].after, x, k)
    requires Policy.Marks(x.lru, x.recent) && |x.recent| < c.pullThreshold && Policy.Sound(ParamsOf(c))
    requires s' == ConsolidateStep(c, s, 0, s.threads[0].after, false)
    ensures Phase(s') < Phase(s)
  {
    hide Inv, WellFormed, Rests, Policy.Find, Policy.MakeRoom, Policy.Marks;
    if s.threads[0].after.Retry? { PurgeHelps(c, s, x, k); }
  }

  lemma TryGoes<K(!new), V>(c: Config<K, V>, s: State<K, V>, e: Choice<K>)
    requires Inv(c, s) && WellFormed(c, s) && |s.threads| == 1 && e.thread == 0
    requires (s.threads[0].Try? || s.threads[0].Produce?)
    ensures Phase(Step(c, s, e)) < Phase(s)
  {
    hide Inv, WellFormed;
    NobodyHolds(c, s);
  }

  lemma StepGoes<K(!new), V>(c: Config<K, V>, s: State<K, V>, s': State<K, V>, h: Session, e: Choice<K>, asked: seq<K>)
    requires Inv(c, s) && WellFormed(c, s) && Fresh(c, s) && Track(c, s, h) && Solo(c, s, h, asked) && !s.threads[0].Idle?
    requires Policy.Sound(ParamsOf(c)) && e.thread == 0 && !e.fails && s' == Step(c, s, e)
    ensures Less(c, s, h, s', DeferredSessions.Observe(c, s, s', 0, h))
  {
    hide Inv, WellFormed, Track, Fresh, AtFind, AtInsert, AtPull, AtPurge, PullDue, PurgeDue, Rests, FindStep, InsertStep,
         ConsolidateStep, DeferredSessions.Observe, Policy.Find, Policy.Run, Policy.Marks, Remaining, Phase;
    var pc, x, k := s.threads[0], Policy.Run(ParamsOf(c), asked[..|asked| - 1]), asked[|asked| - 1];
    Policy.RunQuiet(ParamsOf(c), asked[..|asked| - 1]);
    if pc.Find? { FindGoes(c, s); }
    else if pc.Insert? { InsertGoes(c, s); }
    else if pc.Consolidate? && s.con.Release? { ReleaseGoes(c, s, s', h, x, k); }
    else if pc.Consolidate? { SessionGoes(c, s, s', h, x, k); }
    else { TryGoes(c, s, e); }
  }

  // ---------- so it ends ----------

  /** Steps of the only thread in which nothing fails for no reason. */
  function Undisturbed<K>(k: K, n: nat): seq<Choice<K>> {
    seq(n, i => Choice(0, k, false))
  }

  lemma {:induction false} RunFresh<K(!new), V>(c: Config<K, V>, s: State<K, V>, schedule: seq<Choice<K>>)
    requires Initial(c, s) && |s.threads| == 1
    ensures Fresh(c, DeferredMachine.Run(c, s, schedule))
    decreases |schedule|
  {
    hide Inv, Step;
    if schedule != [] {
      var before, e := schedule[..|schedule| - 1], schedule[|schedule| - 1];
      var m := DeferredMachine.Run(c, s, before);
      RunFresh(c, s, before);
      Reachable(c, s, before);
      RunThreads(c, s, before);
      StepMoves(c, m, e);
      if e.thread == 0 { FreshStep(c, m, e); }
    }
  }

  lemma Snoc<K(!new), V>(c: Config<K, V>, s: State<K, V>, schedule: seq<Choice<K>>, e: Choice<K>)
    ensures DeferredMachine.Run(c, s, schedule + [e]) == Step(c, DeferredMachine.Run(c, s, schedule), e)
    ensures e.thread < |DeferredMachine.Run(c, s, schedule).threads| ==>
      Follow(c, s, schedule + [e]) == DeferredSessions.Observe(c, DeferredMachine.Run(c, s, schedule),
        Step(c, DeferredMachine.Run(c, s, schedule), e), e.thread, Follow(c, s, schedule))
  {
    hide Step, DeferredSessions.Observe;
    assert (schedule + [e])[..|schedule|] == schedule;
  }

  lemma {:induction false} Finishes<K(!new), V>(c: Config<K, V>, key: K, value: V, schedule: seq<Choice<K>>) returns (n: nat)
    requires c.capacity > 0 && c.buckets > 0 && Policy.Sound(ParamsOf(c))
    ensures var s := DeferredMachine.Run(c, Start(c, 1, key, value), schedule + Undisturbed(key, n));
      |s.threads| == 1 && s.threads[0].Idle?
    decreases Phase(DeferredMachine.Run(c, Start(c, 1, key, value), schedule)),
      Remaining(c, DeferredMachine.Run(c, Start(c, 1, key, value), schedule), Follow(c, Start(c, 1, key, value), schedule).purge)
  {
    hide Inv, Step, DeferredSessions.Observe, Phase, Remaining, Fresh, Track, Stage, Start;
    var s0 := Start(c, 1, key, value);
    var s, h, asked := DeferredMachine.Run(c, s0, schedule), Follow(c, s0, schedule), Watch(c, s0, schedule).asked;
    StartIsInitial(c, 1, key, value);
    StartCalm(c, key, value);
    SoloRun(c, s0, schedule);
    if s.threads[0].Idle? {
      n := 0;
      assert schedule + Undisturbed(key, 0) == schedule;
    } else {
      var e := Choice(0, key, false);
      RunFresh(c, s0, schedule);
      Reachable(c, s0, schedule);
      FollowTracks(c, s0, schedule);
      Shape(c, s);
      Snoc(c, s0, schedule, e);
      StepGoes(c, s, Step(c, s, e), h, e, asked);
      var m := Finishes(c, key, value, schedule + [e]);
      n := m + 1;
      assert schedule + Undisturbed(key, n) == schedule + [e] + Undisturbed(key, m);
    }
  }

  lemma StartCalm<K(!new), V>(c: Config<K, V>, key: K, value: V)
    ensures var s := Start(c, 1, key, value); |s.threads| == 1 && !s.pullRequest && !s.purgeRequest && s.recent.count == 0
  {
  }

  /** Alone with the cache, a thread finishes its request from every state that it can be in, provided that the pull threshold is
      below the capacity: some number of its steps, none of which fails for no reason, makes it idle. */
  lemma AloneItFinishes<K(!new), V>(c: Config<K, V>, key: K, value: V, schedule: seq<Choice<K>>)
    requires c.capacity > 0 && c.buckets > 0 && Policy.Sound(ParamsOf(c))
    ensures exists n: nat :: var s := DeferredMachine.Run(c, Start(c, 1, key, value), schedule + Undisturbed(key, n));
      |s.threads| == 1 && s.threads[0].Idle?
  {
    hide Inv, Step, Start;
    var n := Finishes(c, key, value, schedule);
  }
}
