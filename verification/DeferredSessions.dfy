/** What the holder of the LRU lock does in one session, whatever finders and inserters do meanwhile: how many nodes a purge
    frees and which nodes it has looked at, and which nodes a pull moves where. An observer of the run keeps the records. */
module DeferredSessions {
  import opened Links
  import opened Sequences
  import DeferredPolicy
  import opened SharedLists
  import opened DeferredMachine
  import opened DeferredInvariant
  import opened DeferredConsolidator
  import opened DeferredSafety
  import opened DeferredRequests

  /** What became of a node that a purge or a pull has looked at. */
  datatype Seen = Left(node: int) | Took(node: int)

  function Nodes(seen: seq<Seen>): (r: seq<int>)
    ensures |r| == |seen|
  {
    seq(|seen|, i requires 0 <= i < |seen| => seen[i].node)
  }

  function Stayed(seen: seq<Seen>): seq<int> {
    if seen == [] then []
    else Stayed(seen[..|seen| - 1]) + if seen[|seen| - 1].Left? then [seen[|seen| - 1].node] else []
  }

  function Gone(seen: seq<Seen>): (r: seq<int>)
    ensures |r| <= |seen|
  {
    if seen == [] then []
    else Gone(seen[..|seen| - 1]) + if seen[|seen| - 1].Took? then [seen[|seen| - 1].node] else []
  }

  /** A purge. `line` is the LRU order when it began, with what was put in front since. `seen` are the nodes it has looked at,
      from the tail on: left because they were marked, or put into the pool. `stop` is the last cell whose back link it read
      to be the head. */
  datatype Purge = Purge(line: seq<int>, seen: seq<Seen>, stop: int)

  /** A pull. `popped` is the Recent list it took, `seen` the nodes it has looked at: left because their back link was the
      head, or moved to the local list. `line` is the LRU order when it began, with what was put in front since; `front`
      is what it put in front itself, and `before` and `after` are the line and the order around that. */
  datatype Pull = Pull(popped: seq<int>, seen: seq<Seen>, line: seq<int>, front: seq<int>, before: seq<int>, after: seq<int>)

  /** The latest session: whether a purge and a pull were due when the holder looked, and whether they were carried out. */
  datatype Session = Session(purgeDue: seq<bool>, purged: bool, pullDue: seq<bool>, pulled: bool, purge: Purge, pull: Pull)

  const NO_SESSION := Session([], false, [], false, Purge([], [], NULL), Pull([], [], [], [], [], []))

  ghost function ObservePurge<K(!new), V>(c: Config<K, V>, s: State<K, V>, s': State<K, V>, p: Purge): Purge {
    var head, tail := Head(c.capacity), Tail(c.capacity);
    if s.con.PurgeStart? then Purge(s.lists.order, [], if At(s.lists.prev, tail) == head then tail else NULL)
    else if s.con.PurgeLoop? && s.con.node != head && At(s.lists.prev, s.con.node) == head then p.(stop := s.con.node)
    else if |s'.lists.pool| > |s.lists.pool| then p.(seen := p.seen + [Took(s'.lists.pool[0])])
    else if (s.con.PurgeCheck? || s.con.PurgeUnfile?) && s'.con.PurgeLoop? && At(s.recent.next, s.con.node) != NULL then
      p.(seen := p.seen + [Left(s.con.node)])
    else p
  }

  ghost function ObservePull<K(!new), V>(c: Config<K, V>, s: State<K, V>, s': State<K, V>, q: Pull): Pull {
    var head := Head(c.capacity);
    if s.con.PullPop? then Pull(s.recent.stack, [], s.lists.order, [], [], [])
    else if s.con.PullLoop? && s.con.node != DUMMY && At(s.lists.prev, s.con.node) == head then
      q.(seen := q.seen + [Left(s.con.node)])
    else if |s'.lists.temp| > |s.lists.temp| then q.(seen := q.seen + [Took(s'.lists.temp[|s'.lists.temp| - 1])])
    else if |s'.lists.order| > |s.lists.order| then
      Pull(q.popped, q.seen, s'.lists.order, s'.lists.order[..|s'.lists.order| - |s.lists.order|], q.line, s'.lists.order)
    else q
  }

  /** The record of the session after the step of thread t from `s` to `s'`. */
  ghost function Observe<K(!new), V>(c: Config<K, V>, s: State<K, V>, s': State<K, V>, t: nat, h: Session): Session
    requires t < |s.threads|
  {
    if s.threads[t].Consolidate? then
      Session(if s.con.PurgeTest? then [s.purgeRequest] else h.purgeDue,
              !s.con.PurgeTest? && ((s.con.PurgeDone? && !s'.purgeRequest) || h.purged),
              if s.con.PullTest? then [s.pullRequest] else h.pullDue,
              !s.con.PullTest? && ((s.con.PullDone? && !s'.pullRequest) || h.pulled),
              ObservePurge(c, s, s', h.purge), ObservePull(c, s, s', h.pull))
    else
      var put := Missing(s'.lists.order, s.lists.order);
      h.(purge := h.purge.(line := put + h.purge.line), pull := h.pull.(line := put + h.pull.line))
  }

  ghost function Follow<K(!new), V>(c: Config<K, V>, s: State<K, V>, schedule: seq<Choice<K>>): Session {
    if schedule == [] then NO_SESSION
    else
      var m, e := Run(c, s, schedule[..|schedule| - 1]), schedule[|schedule| - 1];
      var h := Follow(c, s, schedule[..|schedule| - 1]);
      if e.thread < |m.threads| then Observe(c, m, Step(c, m, e), e.thread, h) else h
  }

  // ---------- what the records say ----------

  /** What the purge has not looked at yet, or stopped at. */
  function Rest(p: Purge): seq<int> {
    if |p.seen| <= |p.line| then p.line[..|p.line| - |p.seen|] else []
  }

  /** The nodes looked at are the ones nearest the tail, in order. */
  ghost predicate FromTail(p: Purge) {
    |p.seen| <= |p.line| && p.line == Rest(p) + Reverse(Nodes(p.seen))
  }

  function Last(s: seq<int>): int {
    if s == [] then NULL else s[|s| - 1]
  }

  /** A finished purge has freed at most the number of nodes it was to free, and never everything. If it has freed less, then
      everything behind the cell where it stopped has been looked at and was left because it was marked, and the back link of
      that cell was the head: it was the first one, or its new predecessor's inserter had yet to write the link. */
  ghost predicate PurgeSound<K, V>(c: Config<K, V>, order: seq<int>, p: Purge) {
    && FromTail(p) && order == Rest(p) + Reverse(Stayed(p.seen)) && (Rest(p) == [] ==> p.seen == [])
    && |Gone(p.seen)| <= DeferredPolicy.Max(c.purgeThreshold, 1)
    && (|Gone(p.seen)| < DeferredPolicy.Max(c.purgeThreshold, 1) ==>
          (p.seen == [] && p.stop == Tail(c.capacity)) || (Rest(p) != [] && p.stop == Last(Rest(p))))
  }

  /** The purge has not decided on its node yet, or has decided to evict it and not yet unlinked it. */
  predicate Pending(con: Con) {
    con.PurgeCheck? || con.PurgeUnfile? || con.PurgeRead? || con.PurgeForward?
  }

  /** The purge has unlinked its node and not yet put it into the pool. */
  predicate Unlinking(con: Con) {
    con.PurgeBack? || con.PurgeDelete? || con.DisposeLoad? || con.DisposeStore? || con.DisposeCas?
  }

  /** The purge is about to look at the last node of the rest. */
  ghost predicate AtNode<K, V>(c: Config<K, V>, order: seq<int>, p: Purge, node: int, freed: nat) {
    && FromTail(p) && freed == |Gone(p.seen)| <= DeferredPolicy.Max(c.purgeThreshold, 1)
    && order == Rest(p) + Reverse(Stayed(p.seen))
    && if node == Head(c.capacity) then p.seen == [] && p.stop == Tail(c.capacity) else Rest(p) != [] && node == Last(Rest(p))
  }

  /** The purge is busy with the last node of the rest, which it may have unlinked, and will go on with the one ahead. */
  ghost predicate WithNode<K, V>(c: Config<K, V>, order: seq<int>, p: Purge, node: int, ahead: int, freed: nat,
                                 unlinked: bool) {
    && FromTail(p) && freed == |Gone(p.seen)| < DeferredPolicy.Max(c.purgeThreshold, 1)
    && var rest, kept := Rest(p), Reverse(Stayed(p.seen));
      && |rest| >= 2 && node == Last(rest) && ahead == rest[|rest| - 2]
      && order == (if unlinked then rest[..|rest| - 1] else rest) + kept
  }

  ghost predicate PurgeTrack<K, V>(c: Config<K, V>, order: seq<int>, con: Con, p: Purge) {
    && (con.PurgeLoop? ==> AtNode(c, order, p, con.node, con.freed))
    && (Pending(con) || Unlinking(con) ==> WithNode(c, order, p, con.node, con.ahead, con.freed, Unlinking(con)))
    && (con.PurgeDone? ==> PurgeSound(c, order, p))
  }

  // ---------- sequences of seen nodes ----------

  lemma SeenOne(seen: seq<Seen>, x: Seen)
    ensures Nodes(seen + [x]) == Nodes(seen) + [x.node]
    ensures Stayed(seen + [x]) == if x.Left? then Stayed(seen) + [x.node] else Stayed(seen)
    ensures Gone(seen + [x]) == if x.Took? then Gone(seen) + [x.node] else Gone(seen)
  {
    assert (seen + [x])[..|seen|] == seen;
  }

  lemma ReverseSnoc(s: seq<int>, x: int)
    ensures Reverse(s + [x]) == [x] + Reverse(s)
  {
    ReverseConcat(s, [x]);
    assert [x][1..] == [];
    assert Reverse([x]) == [x];
  }

  /** The purge goes on to the next node towards the head. */
  lemma RestShrinks(p: Purge, x: Seen)
    requires FromTail(p) && Rest(p) != [] && x.node == Last(Rest(p))
    ensures var p' := p.(seen := p.seen + [x]);
      FromTail(p') && Rest(p') == Rest(p)[..|Rest(p)| - 1] && Rest(p) == Rest(p') + [x.node]
  {
    hide Stayed, Gone, Nodes, Reverse;
    var p', front := p.(seen := p.seen + [x]), Rest(p)[..|Rest(p)| - 1];
    SeenOne(p.seen, x);
    ReverseSnoc(Nodes(p.seen), x.node);
    assert Rest(p) == front + [x.node];
    Regroup(front, [x.node], Reverse(Nodes(p.seen)));
    assert Rest(p') == front;
  }

  // ---------- the other threads ----------

  /** What a step of another thread can do to a session: it may put one new node in front of the LRU list. */
  lemma OthersPut<K(!new), V>(c: Config<K, V>, s: State<K, V>, e: Choice<K>) returns (n: int)
    requires Inv(c, s) && WellFormed(c, s) && e.thread < |s.threads| && !s.threads[e.thread].Consolidate?
    ensures var s' := Step(c, s, e);
      && (s'.con == s.con || (s.con.Off? && s'.con.PurgeTest?))
      && s'.lists.temp == s.lists.temp && s'.recent.slice == s.recent.slice
      && (s'.lists.order == s.lists.order
          || (s'.lists.order == [n] + s.lists.order && n !in s.lists.order && n !in s.lists.temp && !ConTakes(s.con, n)))
  {
    hide Inv, ConTakes, InsertStep, FindStep;
    n := NULL;
    var pc := s.threads[e.thread];
    LockOff(c, s);
    if pc.Insert? {
      InsertPuts(c, s, e.thread, e.fails);
      if pc.i.CasHead? {
        n := pc.i.n;
        NewNode(c, s, e.thread);
      }
    } else if pc.Find? {
      FindPuts(c, s, e.thread, e.fails);
    }
  }

  lemma LockOff<K, V>(c: Config<K, V>, s: State<K, V>)
    requires Inv(c, s)
    ensures s.con.Off? <==> s.lruLock == NULL
  {
    hide OnLists, OnRecent, OnTable, CrossOk, Delivered;
  }

  lemma FindPuts<K(!new), V>(c: Config<K, V>, s: State<K, V>, t: nat, fails: bool)
    requires WellFormed(c, s) && t < |s.threads| && s.threads[t].Find?
    ensures var s' := FindStep(c, s, t, s.threads[t].k, s.threads[t].f, fails);
      s'.con == s.con && s'.lists == s.lists && s'.recent.slice == s.recent.slice
  {
  }

  lemma InsertPuts<K(!new), V>(c: Config<K, V>, s: State<K, V>, t: nat, fails: bool)
    requires WellFormed(c, s) && t < |s.threads| && s.threads[t].Insert?
    ensures var s' := InsertStep(c, s, t, s.threads[t].k, s.threads[t].i, fails);
      && s'.con == s.con && s'.lists.temp == s.lists.temp && s'.recent.slice == s.recent.slice
      && (s'.lists.order == s.lists.order
          || (s.threads[t].i.CasHead? && s'.lists.order == [s.threads[t].i.n] + s.lists.order))
  {
  }

  lemma NewNode<K, V>(c: Config<K, V>, s: State<K, V>, t: nat)
    requires Inv(c, s) && t < |s.threads| && s.threads[t].Insert? && s.threads[t].i.CasHead?
    ensures var n := s.threads[t].i.n; n !in s.lists.order && n !in s.lists.temp && !ConTakes(s.con, n)
  {
    hide OnRecent, OnTable, CrossOk, HolderOk, Delivered, OwingOk, InserterList, SpliceOk, Main, Side;
    assert Holds(s.threads[t], s.threads[t].i.n);
  }

  lemma RestGrows(p: Purge, n: int)
    requires FromTail(p)
    ensures var p' := p.(line := [n] + p.line); FromTail(p') && Rest(p') == [n] + Rest(p)
  {
    hide Nodes, Reverse;
    var p' := p.(line := [n] + p.line);
    assert Rest(p') == [n] + Rest(p);
    assert p'.line == [n] + (Rest(p) + Reverse(Nodes(p.seen))) == [n] + Rest(p) + Reverse(Nodes(p.seen));
  }

  lemma PrependTo(n: int, rest: seq<int>, kept: seq<int>)
    ensures [n] + (rest + kept) == [n] + rest + kept
    ensures rest != [] ==> ([n] + rest)[..|rest|] == [n] + rest[..|rest| - 1] && Last([n] + rest) == Last(rest)
    ensures |rest| >= 2 ==> ([n] + rest)[|rest| - 1] == rest[|rest| - 2]
    ensures rest != [] ==> [n] + (rest[..|rest| - 1] + kept) == [n] + rest[..|rest| - 1] + kept
  {
  }

  lemma PurgeOthers<K, V>(c: Config<K, V>, order: seq<int>, con: Con, p: Purge, n: int)
    requires PurgeTrack(c, order, con, p)
    ensures PurgeTrack(c, [n] + order, con, p.(line := [n] + p.line))
  {
    hide Stayed, Gone, Nodes, Reverse, Rest, FromTail, Last;
    if FromTail(p) {
      RestGrows(p, n);
      PrependTo(n, Rest(p), Reverse(Stayed(p.seen)));
    }
  }

  // ---------- the steps of a purge ----------

  lemma PurgeStarts<K(!new), V>(c: Config<K, V>, s: State<K, V>, p: Purge)
    requires Inv(c, s) && WellFormed(c, s) && s.con.PurgeStart?
    ensures var s' := PurgeStep(c, s, false); PurgeTrack(c, s'.lists.order, s'.con, ObservePurge(c, s, s', p))
  {
    hide Inv, Rest, FromTail, Nodes, Stayed, Gone, Reverse;
    TailLast(c, s);
    NothingSeen(ObservePurge(c, s, PurgeStep(c, s, false), p));
  }

  lemma NothingSeen(p: Purge)
    requires p.seen == []
    ensures FromTail(p) && Rest(p) == p.line && Gone(p.seen) == [] && Rest(p) + Reverse(Stayed(p.seen)) == p.line
  {
    assert p.line[..|p.line|] == p.line;
  }

  /** The tail's back link names the last node unless it is the head. */
  lemma TailLast<K, V>(c: Config<K, V>, s: State<K, V>)
    requires Inv(c, s) && s.con.PurgeStart?
    ensures var x := At(s.lists.prev, Tail(c.capacity)); x != Head(c.capacity) ==> s.lists.order != [] && x == Last(s.lists.order)
  {
    hide OnRecent, OnTable, CrossOk, HolderOk, Delivered, HoldOk, InserterList, PurgeOk, PullOk, SpliceOk, Side;
    var path := Path(c.capacity, s.lists.order);
    var i := |path| - 2;
    assert path[i + 1] == Tail(c.capacity);
    if Tail(c.capacity) !in s.lists.owed {
      assert s.lists.prev[path[i + 1]] == path[i];
    }
  }

  lemma PurgeLooks<K(!new), V>(c: Config<K, V>, s: State<K, V>, p: Purge)
    requires Inv(c, s) && WellFormed(c, s) && s.con.PurgeLoop? && PurgeTrack(c, s.lists.order, s.con, p)
    ensures var s' := PurgeStep(c, s, false); PurgeTrack(c, s'.lists.order, s'.con, ObservePurge(c, s, s', p))
  {
    hide Inv, Stayed, Gone, Nodes, Reverse, WellFormed;
    var node := s.con.node;
    if node != Head(c.capacity) && At(s.lists.prev, node) != Head(c.capacity) {
      Predecessor(c, s, node, Rest(p), Reverse(Stayed(p.seen)));
    }
  }

  /** The back link of the node where the purge is names the node in front of it, unless it is the head. */
  lemma Predecessor<K, V>(c: Config<K, V>, s: State<K, V>, x: int, rest: seq<int>, kept: seq<int>)
    requires Inv(c, s) && s.con.PurgeLoop? && s.lists.order == rest + kept && rest != [] && x == Last(rest)
    requires At(s.lists.prev, x) != Head(c.capacity)
    ensures |rest| >= 2 && At(s.lists.prev, x) == rest[|rest| - 2]
  {
    hide OnRecent, OnTable, CrossOk, HolderOk, Delivered, HoldOk, InserterList, PurgeOk, PullOk, SpliceOk, Side;
    var path := Path(c.capacity, s.lists.order);
    var i := |rest| - 1;
    assert path[i + 1] == s.lists.order[i] == x;
    assert x !in s.lists.owed;
    assert s.lists.prev[path[i + 1]] == path[i];
    assert i > 0 ==> path[i] == s.lists.order[i - 1];
  }

  /** A node that is marked is left. */
  lemma PurgeLeaves<K(!new), V>(c: Config<K, V>, s: State<K, V>, p: Purge)
    requires Inv(c, s) && WellFormed(c, s) && (s.con.PurgeCheck? || s.con.PurgeUnfile?)
    requires PurgeTrack(c, s.lists.order, s.con, p)
    ensures var s' := PurgeStep(c, s, false); PurgeTrack(c, s'.lists.order, s'.con, ObservePurge(c, s, s', p))
  {
    hide Inv, Stayed, Gone, Nodes, Reverse, Rest, FromTail, Last;
    var s', x := PurgeStep(c, s, false), Left(s.con.node);
    PurgeNodeFiled(c, s);
    if s'.con.PurgeLoop? {
      SeenOne(p.seen, x);
      RestShrinks(p, x);
      ReverseSnoc(Stayed(p.seen), x.node);
      Regroup(Rest(p.(seen := p.seen + [x])), [x.node], Reverse(Stayed(p.seen)));
      NotHead(c, s, s.con.ahead);
      LastOf(Rest(p));
    }
  }

  lemma LastOf(rest: seq<int>)
    requires |rest| >= 2
    ensures rest[..|rest| - 1] != [] && Last(rest[..|rest| - 1]) == rest[|rest| - 2]
  {
  }

  /** The node that a purge looks at is in its bucket. */
  lemma PurgeNodeFiled<K, V>(c: Config<K, V>, s: State<K, V>)
    requires Inv(c, s) && WellFormed(c, s) && (s.con.PurgeCheck? || s.con.PurgeUnfile?)
    ensures 0 <= s.con.node < c.capacity && s.con.node in s.table.chains[BucketOf(c, s.table.key[s.con.node])]
  {
    hide OnRecent, HolderOk, Delivered, OwingOk, HoldOk, InserterList, PullOk, SpliceOk, Main, Side, LockOk, CountOk,
         FinderTable, InserterTable;
  }

  lemma NotHead<K, V>(c: Config<K, V>, s: State<K, V>, x: int)
    requires Inv(c, s) && (Pending(s.con) || Unlinking(s.con)) && x == s.con.ahead
    ensures x != Head(c.capacity) && 0 <= x < c.capacity
  {
    hide OnRecent, OnTable, CrossOk, HolderOk, Delivered, OwingOk, HoldOk, InserterList, PullOk, SpliceOk, Main, Side;
  }

  /** The node is taken out of the list. */
  lemma PurgeUnlinks<K(!new), V>(c: Config<K, V>, s: State<K, V>, p: Purge)
    requires Inv(c, s) && WellFormed(c, s) && s.con.PurgeForward? && PurgeTrack(c, s.lists.order, s.con, p)
    ensures var s' := PurgeStep(c, s, false); PurgeTrack(c, s'.lists.order, s'.con, ObservePurge(c, s, s', p))
  {
    hide Inv, Stayed, Gone, Nodes, Reverse, WellFormed, Rest, FromTail;
    var rest, kept := Rest(p), Reverse(Stayed(p.seen));
    DistinctOrder(c, s);
    WithoutIsDrop(s.lists.order, |rest| - 1);
    assert Drop(s.lists.order, |rest| - 1) == rest[..|rest| - 1] + kept;
  }

  lemma DistinctOrder<K, V>(c: Config<K, V>, s: State<K, V>)
    requires Inv(c, s)
    ensures Distinct(s.lists.order)
  {
    hide OnRecent, OnTable, CrossOk, HolderOk, Delivered, OwingOk, HoldOk, InserterList, PurgeOk, PullOk, SpliceOk, Side;
    OrderDistinct(c.capacity, s.lists);
  }

  /** The node enters the pool. */
  lemma PurgeFrees<K(!new), V>(c: Config<K, V>, s: State<K, V>, p: Purge, fails: bool)
    requires Inv(c, s) && WellFormed(c, s) && s.con.DisposeCas? && PurgeTrack(c, s.lists.order, s.con, p)
    ensures var s' := PurgeStep(c, s, fails); PurgeTrack(c, s'.lists.order, s'.con, ObservePurge(c, s, s', p))
  {
    hide Inv, Stayed, Gone, Nodes, Reverse, WellFormed, Rest, FromTail, Last;
    var x := Took(s.con.node);
    if !fails && s.lists.ehead == s.con.h {
      SeenOne(p.seen, x);
      RestShrinks(p, x);
      NotHead(c, s, s.con.ahead);
      LastOf(Rest(p));
    }
  }

  lemma PurgeTracks<K(!new), V>(c: Config<K, V>, s: State<K, V>, p: Purge, fails: bool)
    requires Inv(c, s) && WellFormed(c, s) && PurgeTrack(c, s.lists.order, s.con, p)
    ensures var s' := PurgeStep(c, s, fails); PurgeTrack(c, s'.lists.order, s'.con, ObservePurge(c, s, s', p))
  {
    hide Inv, WellFormed, Stayed, Gone, Nodes, Reverse, Rest, FromTail, Last, PurgeTrack, PurgeStep, ObservePurge;
    if s.con.PurgeStart? { NeverFails(c, s, fails); PurgeStarts(c, s, p); }
    else if s.con.PurgeLoop? { NeverFails(c, s, fails); PurgeLooks(c, s, p); }
    else if s.con.PurgeCheck? || s.con.PurgeUnfile? { NeverFails(c, s, fails); PurgeLeaves(c, s, p); }
    else if s.con.PurgeForward? { NeverFails(c, s, fails); PurgeUnlinks(c, s, p); }
    else if s.con.DisposeCas? { PurgeFrees(c, s, p, fails); }
    else { PurgeWorks(c, s, p, fails); }
  }

  lemma NeverFails<K(!new), V>(c: Config<K, V>, s: State<K, V>, fails: bool)
    requires WellFormed(c, s) && !s.con.DisposeCas?
    ensures PurgeStep(c, s, fails) == PurgeStep(c, s, false)
  {
    hide WellFormed;
  }

  lemma PurgeWorks<K(!new), V>(c: Config<K, V>, s: State<K, V>, p: Purge, fails: bool)
    requires WellFormed(c, s) && PurgeTrack(c, s.lists.order, s.con, p) && !s.con.PurgeStart? && !s.con.PurgeLoop?
    requires !s.con.PurgeCheck? && !s.con.PurgeUnfile? && !s.con.PurgeForward? && !s.con.DisposeCas?
    ensures var s' := PurgeStep(c, s, fails); PurgeTrack(c, s'.lists.order, s'.con, ObservePurge(c, s, s', p))
  {
    hide WellFormed, Stayed, Gone, Nodes, Reverse, Rest, FromTail, Last;
  }

  // ---------- the steps of a pull ----------

  predicate Suffix(s: seq<int>, t: seq<int>) {
    |t| <= |s| && s[|s| - |t|..] == t
  }

  /** A finished pull has looked at every node of the Recent list it took, in order. It left those whose back link was the
      head, and put the others in front of the LRU list, in order; the rest of the list kept its order. */
  ghost predicate PullSound(order: seq<int>, q: Pull) {
    && q.popped == Nodes(q.seen) && q.front == Gone(q.seen) && order == q.line
    && (q.front != [] ==> q.after == q.front + Without(q.before, Elements(q.front)) && Suffix(q.line, q.after))
  }

  /** The pull has unlinked its node and not yet put it into the local list. */
  predicate Carrying(con: Con) {
    con.PullBack? || con.PullLocal?
  }

  ghost predicate PullTrack(l: Lists, slice: seq<int>, con: Con, q: Pull) {
    && (InPull(con) && !con.PullSkip? && !con.PullNext? ==> q.popped == Nodes(q.seen) + slice)
    && (con.PullSkip? || con.PullNext? ==> slice != [] && q.popped == Nodes(q.seen) + slice[1..])
    && (InPull(con) || InSplice(con) ==> l.temp == Gone(q.seen) && q.front == [])
    && (InPull(con) || InSplice(con) ==> l.order == Without(q.line, Elements(l.temp) + if Carrying(con) then {con.node} else {}))
    && (InSplice(con) ==> q.popped == Nodes(q.seen))
    && (con.SpliceBack? || con.PullDone? ==> PullSound(l.order, q))
  }

  lemma WithoutPrepend(n: int, s: seq<int>, drop: set<int>)
    requires n !in drop
    ensures Without([n] + s, drop) == [n] + Without(s, drop)
  {
    assert ([n] + s)[1..] == s;
  }

  lemma PullOthers(l: Lists, l': Lists, slice: seq<int>, con: Con, q: Pull, n: int)
    requires PullTrack(l, slice, con, q) && l'.temp == l.temp && l'.order == [n] + l.order && n !in l.temp
    requires !ConTakes(con, n)
    ensures PullTrack(l', slice, con, q.(line := [n] + q.line))
  {
    hide Nodes, Gone, Without;
    var q' := q.(line := [n] + q.line);
    WithoutPrepend(n, q.line, Elements(l.temp) + if Carrying(con) then {con.node} else {});
    if Suffix(q.line, q.after) { assert Suffix(q'.line, q.after); }
  }

  lemma PullStarts<K(!new), V>(c: Config<K, V>, s: State<K, V>, q: Pull)
    requires Inv(c, s) && WellFormed(c, s) && s.con.PullPop?
    ensures var s' := PullStep(c, s, false); PullTrack(s'.lists, s'.recent.slice, s'.con, ObservePull(c, s, s', q))
  {
    hide Inv;
    NoLocal(c, s);
    Hidden(s.lists.order);
    assert Nodes([]) + s.recent.stack == s.recent.stack && Gone([]) == [];
  }

  lemma NoLocal<K, V>(c: Config<K, V>, s: State<K, V>)
    requires Inv(c, s) && s.con.PullPop?
    ensures s.lists.temp == []
  {
    hide OnRecent, OnTable, CrossOk, HolderOk, Delivered, ListsOk, OwingOk, HoldOk, InserterList, PurgeOk, SpliceOk;
  }

  lemma PullLooks<K(!new), V>(c: Config<K, V>, s: State<K, V>, q: Pull)
    requires Inv(c, s) && WellFormed(c, s) && s.con.PullLoop? && PullTrack(s.lists, s.recent.slice, s.con, q)
    ensures var s' := PullStep(c, s, false); PullTrack(s'.lists, s'.recent.slice, s'.con, ObservePull(c, s, s', q))
  {
    hide Inv, Nodes, Gone, Without, WellFormed, PullTrack, Elements;
    SliceKnown(c, s);
    if s.recent.slice == [] { PullStops(c, s, q); }
    else if At(s.lists.prev, s.con.node) == Head(c.capacity) { PullLeaves(c, s, q); }
    else { PullTakes(c, s, q); }
  }

  lemma PullStops<K(!new), V>(c: Config<K, V>, s: State<K, V>, q: Pull)
    requires Inv(c, s) && WellFormed(c, s) && s.con.PullLoop? && PullTrack(s.lists, s.recent.slice, s.con, q)
    requires s.recent.slice == []
    ensures var s' := PullStep(c, s, false); PullTrack(s'.lists, s'.recent.slice, s'.con, ObservePull(c, s, s', q))
  {
    hide Inv, Nodes, Gone, Without, WellFormed;
    SliceKnown(c, s);
    NothingGone(q);
    if s.lists.temp == [] { Hidden(q.line); }
  }

  lemma PullLeaves<K(!new), V>(c: Config<K, V>, s: State<K, V>, q: Pull)
    requires Inv(c, s) && WellFormed(c, s) && s.con.PullLoop? && PullTrack(s.lists, s.recent.slice, s.con, q)
    requires s.recent.slice != [] && At(s.lists.prev, s.con.node) == Head(c.capacity)
    ensures var s' := PullStep(c, s, false); PullTrack(s'.lists, s'.recent.slice, s'.con, ObservePull(c, s, s', q))
  {
    hide Inv, Nodes, Gone, Without, WellFormed, Elements;
    var slice := s.recent.slice;
    SliceKnown(c, s);
    SeenOne(q.seen, Left(slice[0]));
    assert slice == [slice[0]] + slice[1..];
    Regroup(Nodes(q.seen), [slice[0]], slice[1..]);
  }

  lemma PullTakes<K(!new), V>(c: Config<K, V>, s: State<K, V>, q: Pull)
    requires Inv(c, s) && WellFormed(c, s) && s.con.PullLoop? && PullTrack(s.lists, s.recent.slice, s.con, q)
    requires s.recent.slice != [] && At(s.lists.prev, s.con.node) != Head(c.capacity)
    ensures var s' := PullStep(c, s, false); PullTrack(s'.lists, s'.recent.slice, s'.con, ObservePull(c, s, s', q))
  {
    hide Inv, Nodes, Gone, Without, WellFormed, Elements;
    SliceKnown(c, s);
  }

  lemma NothingGone(q: Pull)
    ensures Nodes(q.seen) + [] == Nodes(q.seen)
  {
  }

  lemma Hidden(line: seq<int>)
    ensures Without(line, Elements<int>([]) + {}) == line
  {
    WithoutNone(line, Elements<int>([]) + {});
  }

  /** Where a pull is in its slice and its local list. */
  lemma SliceKnown<K, V>(c: Config<K, V>, s: State<K, V>)
    requires Inv(c, s) && (InPull(s.con) || InSplice(s.con))
    ensures s.con.PullLoop? || s.con.PullZero? ==> s.con.node == First(s.recent.slice, DUMMY)
    ensures s.con.PullLoop? ==> (s.con.last == LocalHead(c.capacity) <==> s.lists.temp == [])
    ensures s.con.PullLoop? && s.recent.slice != [] ==> s.recent.slice[0] != DUMMY
    ensures !s.con.PullZero? && !s.con.PullLoop? && InPull(s.con) ==> s.recent.slice != [] && s.con.node == s.recent.slice[0]
    ensures InSplice(s.con) ==> s.lists.temp != [] && s.recent.slice == []
  {
    hide OnTable, CrossOk, HolderOk, Delivered, OwingOk, HoldOk, InserterList, PurgeOk, Main, Side, ShieldOk, MarkingOk,
         FinderMark, InserterMark;
    assert InRange(s.lists.temp, c.capacity);
    if s.recent.slice != [] { ChainInRange(s.recent.next, s.recent.slice, DUMMY); }
  }

  /** A node is taken out of the LRU list, and put at the end of the local list. */
  lemma PullCarries<K(!new), V>(c: Config<K, V>, s: State<K, V>, q: Pull)
    requires Inv(c, s) && WellFormed(c, s) && PullTrack(s.lists, s.recent.slice, s.con, q)
    requires s.con.PullForward? || s.con.PullBack? || s.con.PullLocal?
    ensures var s' := PullStep(c, s, false); PullTrack(s'.lists, s'.recent.slice, s'.con, ObservePull(c, s, s', q))
  {
    hide Inv, Nodes, Gone, Without, WellFormed;
    var node, slice := s.con.node, s.recent.slice;
    SliceKnown(c, s);
    if s.con.PullForward? {
      WithoutTwice(q.line, Elements(s.lists.temp) + {}, {node});
      assert Elements(s.lists.temp) + {} + {node} == Elements(s.lists.temp) + {node};
    }
    if s.con.PullLocal? {
      SeenOne(q.seen, Took(node));
      assert slice == [node] + slice[1..];
      Regroup(Nodes(q.seen), [node], slice[1..]);
      assert Elements(s.lists.temp + [node]) + {} == Elements(s.lists.temp) + {node};
    }
  }

  /** Steps that change neither the LRU list nor the local list. */
  lemma GoesOn(l: Lists, slice: seq<int>, slice': seq<int>, con: Con, con': Con, q: Pull)
    requires PullTrack(l, slice, con, q) && InPull(con) && InPull(con') && !Carrying(con) && !Carrying(con')
    requires !con'.PullSkip? && !con'.PullNext? && q.popped == Nodes(q.seen) + slice'
    ensures PullTrack(l, slice', con', q)
  {
    hide Nodes, Gone, Without, Elements;
  }

  /** A node of the slice is unmarked. */
  lemma PullUnmarks<K(!new), V>(c: Config<K, V>, s: State<K, V>, q: Pull)
    requires Inv(c, s) && WellFormed(c, s) && PullTrack(s.lists, s.recent.slice, s.con, q)
    requires s.con.PullSkip? || s.con.PullNext? || s.con.PullZero? || s.con.PullRead?
    ensures var s' := PullStep(c, s, false); PullTrack(s'.lists, s'.recent.slice, s'.con, ObservePull(c, s, s', q))
  {
    hide Inv, Nodes, Gone, Without, WellFormed, Elements;
    var s' := PullStep(c, s, false);
    SliceKnown(c, s);
    GoesOn(s.lists, s.recent.slice, s'.recent.slice, s.con, s'.con, q);
  }

  lemma PullSplices<K(!new), V>(c: Config<K, V>, s: State<K, V>, q: Pull, fails: bool)
    requires Inv(c, s) && WellFormed(c, s) && PullTrack(s.lists, s.recent.slice, s.con, q)
    requires InSplice(s.con) || s.con.SpliceBack?
    ensures var s' := PullStep(c, s, fails); PullTrack(s'.lists, s'.recent.slice, s'.con, ObservePull(c, s, s', q))
  {
    hide Inv, Nodes, Gone, Without, WellFormed, Elements, PullTrack, PullStep, ObservePull;
    if s.con.SpliceCas? { SpliceTracks(c, s, q, fails); } else { SpliceReads(c, s, q, fails); }
  }

  lemma SpliceReads<K(!new), V>(c: Config<K, V>, s: State<K, V>, q: Pull, fails: bool)
    requires WellFormed(c, s) && PullTrack(s.lists, s.recent.slice, s.con, q)
    requires s.con.SpliceLoad? || s.con.SpliceStore? || s.con.SpliceBack?
    ensures var s' := PullStep(c, s, fails); PullTrack(s'.lists, s'.recent.slice, s'.con, ObservePull(c, s, s', q))
  {
    hide Nodes, Gone, Without, WellFormed, Elements;
  }

  lemma SpliceTracks<K(!new), V>(c: Config<K, V>, s: State<K, V>, q: Pull, fails: bool)
    requires Inv(c, s) && WellFormed(c, s) && PullTrack(s.lists, s.recent.slice, s.con, q) && s.con.SpliceCas?
    ensures var s' := PullStep(c, s, fails); PullTrack(s'.lists, s'.recent.slice, s'.con, ObservePull(c, s, s', q))
  {
    hide Inv, Nodes, Gone, Without, WellFormed;
    SliceKnown(c, s);
    assert (s.lists.temp + s.lists.order)[..|s.lists.temp|] == s.lists.temp;
    assert Elements(s.lists.temp) + {} == Elements(s.lists.temp);
  }

  lemma PullTracks<K(!new), V>(c: Config<K, V>, s: State<K, V>, q: Pull, fails: bool)
    requires Inv(c, s) && WellFormed(c, s) && PullTrack(s.lists, s.recent.slice, s.con, q) && !s.con.Off? && !s.con.Release?
    requires !Purging(s.con)
    ensures var s' := PullStep(c, s, fails); PullTrack(s'.lists, s'.recent.slice, s'.con, ObservePull(c, s, s', q))
  {
    hide Inv, Nodes, Gone, Without, WellFormed;
    if s.con.PullPop? { hide PullTrack; PullStarts(c, s, q); }
    else if s.con.PullLoop? { hide PullTrack; PullLooks(c, s, q); }
    else if s.con.PullForward? || s.con.PullBack? || s.con.PullLocal? { hide PullTrack; PullCarries(c, s, q); }
    else if s.con.PullSkip? || s.con.PullNext? || s.con.PullZero? || s.con.PullRead? { hide PullTrack; PullUnmarks(c, s, q); }
    else if InSplice(s.con) || s.con.SpliceBack? { hide PullTrack; PullSplices(c, s, q, fails); }
  }

  // ---------- whole sessions ----------

  /** A purge and a pull that were due when the holder looked are carried out before the lock is released. */
  ghost predicate DueTrack(con: Con, h: Session) {
    && (Purging(con) && !con.PurgeTest? ==> h.purgeDue == [true] && !h.purged)
    && (con.PullTest? ==> h.purgeDue == [h.purged])
    && (InPull(con) || InSplice(con) || con.PullPop? || con.SpliceBack? || con.PullDone? ==>
          h.purgeDue == [h.purged] && h.pullDue == [true] && !h.pulled)
    && (con.Release? ==> h.purgeDue == [h.purged] && h.pullDue == [h.pulled])
  }

  ghost predicate Track<K, V>(c: Config<K, V>, s: State<K, V>, h: Session) {
    && DueTrack(s.con, h) && PurgeTrack(c, s.lists.order, s.con, h.purge) && PullTrack(s.lists, s.recent.slice, s.con, h.pull)
  }

  /** The way of a session from one state to the next. */
  ghost predicate Next(con: Con, con': Con, due: bool) {
    && (con.PurgeTest? ==> con' == if due then PurgeStart else PullTest)
    && (con.PurgeDone? ==> con' == PullTest)
    && (Purging(con) && !con.PurgeTest? && !con.PurgeDone? ==> Purging(con') && !con'.PurgeTest?)
    && (con.PullTest? ==> con' == if due then PullPop else Con.Release)
    && (con.PullDone? ==> con' == Con.Release)
    && (PullRuns(con) && !con.PullDone? ==> PullRuns(con') && !con'.PullPop?)
  }

  predicate PullRuns(con: Con) {
    InPull(con) || InSplice(con) || con.PullPop? || con.SpliceBack? || con.PullDone?
  }

  lemma PurgeOnward<K(!new), V>(c: Config<K, V>, s: State<K, V>, fails: bool)
    requires WellFormed(c, s) && Purging(s.con)
    ensures var s' := PurgeStep(c, s, fails);
      && Next(s.con, s'.con, s.purgeRequest) && (s.con.PurgeDone? ==> !s'.purgeRequest)
  {
    hide WellFormed;
  }

  lemma PullOnward<K(!new), V>(c: Config<K, V>, s: State<K, V>, fails: bool)
    requires WellFormed(c, s) && (PullRuns(s.con) || s.con.PullTest?)
    ensures var s' := PullStep(c, s, fails);
      && Next(s.con, s'.con, s.pullRequest) && (s.con.PullDone? ==> !s'.pullRequest)
  {
    hide WellFormed;
    if InPull(s.con) { PullOn(c, s, fails); }
  }

  lemma PullOn<K(!new), V>(c: Config<K, V>, s: State<K, V>, fails: bool)
    requires WellFormed(c, s) && InPull(s.con)
    ensures PullRuns(PullStep(c, s, fails).con) && !PullStep(c, s, fails).con.PullPop?
  {
    hide WellFormed;
  }

  lemma DueStep<K(!new), V>(c: Config<K, V>, s: State<K, V>, t: nat, fails: bool, h: Session)
    requires WellFormed(c, s) && t < |s.threads| && s.threads[t].Consolidate? && DueTrack(s.con, h) && !s.con.Off?
    ensures var s' := ConsolidateStep(c, s, t, s.threads[t].after, fails); DueTrack(s'.con, Observe(c, s, s', t, h))
  {
    hide ObservePurge, ObservePull, WellFormed, PurgeStep, PullStep;
    if Purging(s.con) { PurgeOnward(c, s, fails); } else if !s.con.Release? { PullOnward(c, s, fails); }
  }

  /** A session is purging or pulling, so that one of the two records does not matter. */
  lemma OneAtATime<K, V>(c: Config<K, V>, l: Lists, slice: seq<int>, con: Con, p: Purge, q: Pull)
    ensures !Purging(con) ==> PurgeTrack(c, l.order, con, p)
    ensures con.PurgeStart? || con.PurgeTest? ==> PurgeTrack(c, l.order, con, p)
    ensures Purging(con) || con.Release? || con.Off? || con.PullTest? || con.PullPop? ==> PullTrack(l, slice, con, q)
  {
    hide Nodes, Gone, Stayed, Reverse, Without, Rest, FromTail, Last;
  }

  lemma HolderTracks<K(!new), V>(c: Config<K, V>, s: State<K, V>, t: nat, fails: bool, h: Session)
    requires Inv(c, s) && WellFormed(c, s) && t < |s.threads| && s.threads[t].Consolidate? && Track(c, s, h) && !s.con.Off?
    ensures var s' := ConsolidateStep(c, s, t, s.threads[t].after, fails); Track(c, s', Observe(c, s, s', t, h))
  {
    hide Inv, WellFormed, DueTrack, PurgeTrack, PullTrack, PurgeStep, PullStep, ObservePurge, ObservePull;
    var s' := ConsolidateStep(c, s, t, s.threads[t].after, fails);
    var h' := Observe(c, s, s', t, h);
    DueStep(c, s, t, fails, h);
    OneAtATime(c, s'.lists, s'.recent.slice, s'.con, h'.purge, h'.pull);
    if s.con.Release? {
    } else if Purging(s.con) {
      PurgeTracks(c, s, h.purge, fails);
      PurgeOnward(c, s, fails);
    } else {
      PullTracks(c, s, h.pull, fails);
      PullOnward(c, s, fails);
    }
  }

  lemma OthersTrack<K(!new), V>(c: Config<K, V>, s: State<K, V>, e: Choice<K>, h: Session)
    requires Inv(c, s) && WellFormed(c, s) && e.thread < |s.threads| && !s.threads[e.thread].Consolidate? && Track(c, s, h)
    ensures Track(c, Step(c, s, e), Observe(c, s, Step(c, s, e), e.thread, h))
  {
    hide Inv, WellFormed, DueTrack, PurgeTrack, PullTrack, Step, Missing, ConTakes;
    var n := OthersPut(c, s, e);
    var s' := Step(c, s, e);
    var h' := Observe(c, s, s', e.thread, h);
    OneAtATime(c, s'.lists, s'.recent.slice, s'.con, h'.purge, h'.pull);
    DueOff(s'.con, h');
    if s'.lists.order == s.lists.order {
      MissingSelf(s.lists.order);
      assert [] + h.purge.line == h.purge.line && [] + h.pull.line == h.pull.line;
      SameTrack(s.lists, s'.lists, s.recent.slice, s.con, h.pull);
    } else {
      MissingFirst(s.lists.order, n);
      PurgeOthers(c, s.lists.order, s.con, h.purge, n);
      PullOthers(s.lists, s'.lists, s.recent.slice, s.con, h.pull, n);
    }
    SameDue(s.con, h, h');
  }

  lemma DueOff(con: Con, h: Session)
    ensures con.PurgeTest? ==> DueTrack(con, h)
  {
  }

  lemma SameDue(con: Con, h: Session, h': Session)
    requires DueTrack(con, h) && h' == h.(purge := h'.purge, pull := h'.pull)
    ensures DueTrack(con, h')
  {
  }

  lemma SameTrack(l: Lists, l': Lists, slice: seq<int>, con: Con, q: Pull)
    requires PullTrack(l, slice, con, q) && l'.temp == l.temp && l'.order == l.order
    ensures PullTrack(l', slice, con, q)
  {
    hide Nodes, Gone, Without;
  }

  lemma FollowStep<K(!new), V>(c: Config<K, V>, s: State<K, V>, e: Choice<K>, h: Session)
    requires Inv(c, s) && e.thread < |s.threads| && Track(c, s, h)
    ensures Track(c, Step(c, s, e), Observe(c, s, Step(c, s, e), e.thread, h))
  {
    hide Inv, WellFormed, Track, ConsolidateStep, Observe;
    Shape(c, s);
    if s.threads[e.thread].Consolidate? {
      NotOff(c, s, e.thread);
      HolderTracks(c, s, e.thread, e.fails, h);
    } else {
      OthersTrack(c, s, e, h);
    }
  }

  lemma NotOff<K, V>(c: Config<K, V>, s: State<K, V>, t: nat)
    requires Inv(c, s) && t < |s.threads| && s.threads[t].Consolidate?
    ensures !s.con.Off?
  {
    hide OnLists, OnRecent, OnTable, CrossOk, Delivered;
  }

  lemma {:induction false} FollowTracks<K(!new), V>(c: Config<K, V>, s: State<K, V>, schedule: seq<Choice<K>>)
    requires Initial(c, s)
    ensures Track(c, Run(c, s, schedule), Follow(c, s, schedule))
    decreases |schedule|
  {
    hide Inv, Step, Track, Observe;
    if schedule == [] {
      OffTrack(c, s);
    } else {
      FollowTracks(c, s, schedule[..|schedule| - 1]);
      Reachable(c, s, schedule[..|schedule| - 1]);
      var m, e := Run(c, s, schedule[..|schedule| - 1]), schedule[|schedule| - 1];
      if e.thread < |m.threads| {
        FollowStep(c, m, e, Follow(c, s, schedule[..|schedule| - 1]));
      } else {
        StepMoves(c, m, e);
      }
    }
  }

  lemma OffTrack<K, V>(c: Config<K, V>, s: State<K, V>)
    requires s.con.Off?
    ensures Track(c, s, NO_SESSION)
  {
    hide Nodes, Gone, Stayed, Reverse, Without, Rest, FromTail, Last;
  }

  /** In every interleaving: a purge frees at most as many nodes as it should, and if it frees less, it has looked at every
      node behind the cell where it stopped and left only marked ones; a pull puts the nodes of the Recent list that it took
      in front, in order, except those it found behind the head; and whoever releases the LRU lock has carried out the
      purge and the pull that were due. */
  lemma SessionsSound<K(!new), V>(c: Config<K, V>, n: nat, key: K, value: V, schedule: seq<Choice<K>>)
    requires c.capacity > 0 && c.buckets > 0
    ensures var s, h := Run(c, Start(c, n, key, value), schedule), Follow(c, Start(c, n, key, value), schedule);
      && (s.con.PurgeDone? ==> PurgeSound(c, s.lists.order, h.purge))
      && (s.con.PurgeLoop? ==> s.con.freed == |Gone(h.purge.seen)| <= DeferredPolicy.Max(c.purgeThreshold, 1))
      && (s.con.PullDone? ==> PullSound(s.lists.order, h.pull))
      && (s.con.Release? ==> h.purgeDue == [h.purged] && h.pullDue == [h.pulled])
  {
    hide Inv, Step, Observe, PurgeSound, PullSound;
    StartIsInitial(c, n, key, value);
    FollowTracks(c, Start(c, n, key, value), schedule);
  }

  /** In every interleaving of any number of threads running memoized accesses on a new cache: lists, marks, buckets, counters and
      delivered values are right at every moment, every request of an idle thread is completed, and every session of the holder
      of the LRU lock does what it should. */
  lemma EveryRun<K(!new), V>(c: Config<K, V>, n: nat, key: K, value: V, schedule: seq<Choice<K>>)
    requires c.capacity > 0 && c.buckets > 0
    ensures var s, r, h := Run(c, Start(c, n, key, value), schedule), Watch(c, Start(c, n, key, value), schedule).requests,
                           Follow(c, Start(c, n, key, value), schedule);
      && Safe(c, s) && |s.threads| == |r| == n
      && (forall t :: 0 <= t < n && s.threads[t].Idle? ==> Completed(c, r[t]))
      && (s.con.PurgeDone? ==> PurgeSound(c, s.lists.order, h.purge)) && (s.con.PullDone? ==> PullSound(s.lists.order, h.pull))
      && (s.con.Release? ==> h.purgeDue == [h.purged] && h.pullDue == [h.pulled])
  {
    hide Start, Step, Safe, Completed, PurgeSound, PullSound, Note, Observe;
    SafeRun(c, n, key, value, schedule);
    SessionsSound(c, n, key, value, schedule);
    SameNumber(c, n, key, value, schedule);
    var s, r := Run(c, Start(c, n, key, value), schedule), Watch(c, Start(c, n, key, value), schedule).requests;
    forall t | 0 <= t < n && s.threads[t].Idle? ensures Completed(c, r[t]) {
      RequestsComplete(c, n, key, value, schedule, t);
    }
  }

  lemma SameNumber<K(!new), V>(c: Config<K, V>, n: nat, key: K, value: V, schedule: seq<Choice<K>>)
    requires c.capacity > 0 && c.buckets > 0
    ensures |Run(c, Start(c, n, key, value), schedule).threads| == n == |Watch(c, Start(c, n, key, value), schedule).requests|
  {
    hide Inv, Step, Fits, Note;
    StartIsInitial(c, n, key, value);
    RunThreads(c, Start(c, n, key, value), schedule);
    WatchFits(c, Start(c, n, key, value), schedule);
  }
}
