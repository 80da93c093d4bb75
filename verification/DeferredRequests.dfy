/** What every request to a concurrent DeferredLRU does from its beginning to its end, whatever the other threads do. An
    observer of the run keeps the records; the machine does not know of them. */
module DeferredRequests {
  import opened Links
  import opened Sequences
  import opened Entries
  import opened SharedLists
  import opened DeferredMachine
  import opened DeferredInvariant
  import opened DeferredThreads
  import opened DeferredSafety

  /** The find of a request: whether some filed node had the key when it searched, the filed nodes with the key that it
      then looked at, whether they were marked, and the nodes it pushed on the Recent list. */
  datatype Look = Look(sought: seq<bool>, found: seq<int>, marked: seq<bool>, pushed: seq<int>)

  /** The values delivered to the thread, the pairs it put into the bucket of the key, and the nodes it put at the head of
      the LRU list. */
  datatype Entry<!K, !V> = Entry(delivered: seq<(K, V)>, filed: seq<(K, V)>, linked: seq<int>)

  /** Whether the Recent list was found too long, how often the pool was found empty, how often the thread then asked for a
      pull or a purge and tried to get the LRU lock, how often the lock was free, and how often the thread got it. */
  datatype Calls = Calls(crowded: seq<bool>, starved: nat, pulls: nat, purges: nat, tries: nat, chances: nat, turns: nat)

  datatype Request<!K, !V> = NoRequest | Request(key: K, look: Look, entry: Entry<K, V>, calls: Calls)

  ghost predicate SomeFiled<K, V>(tb: Table<K, V>, k: K) {
    exists x :: x in tb.filed && 0 <= x < |tb.key| && tb.key[x] == k
  }

  ghost function Began<K, V>(k: K): Request<K, V> {
    Request(k, Look([], [], [], []), Entry([], [], []), Calls([], 0, 0, 0, 0, 0, 0))
  }

  ghost function ObserveLook<K(!new), V>(s: State<K, V>, s': State<K, V>, pc: Pc<K>, k: K, o: Look): Look {
    var checks := pc.Find? && pc.f.Check? && pc.f.n in s.table.filed && 0 <= pc.f.n < |s.table.key| && s.table.key[pc.f.n] == k;
    Look(if pc.Find? && pc.f.Search? then o.sought + [SomeFiled(s.table, k)] else o.sought,
         if checks then o.found + [pc.f.n] else o.found,
         if checks then o.marked + [At(s.recent.next, pc.f.n) != NULL] else o.marked,
         o.pushed + Missing(s'.recent.stack, s.recent.stack))
  }

  ghost function ObserveEntry<K(!new), V>(c: Config<K, V>, s: State<K, V>, s': State<K, V>, pc: Pc<K>, k: K, o: Entry<K, V>)
    : Entry<K, V>
    requires WellFormed(c, s) && WellFormed(c, s')
  {
    var b := BucketOf(c, k);
    Entry(o.delivered + Added(s.log, s'.log),
          o.filed + Fronted(s.table.chains[b], s'.table.chains[b], s'.table.key, s'.table.value),
          if pc.Insert? then o.linked + Missing(s'.lists.order, s.lists.order) else o.linked)
  }

  function ObserveCalls<K, V>(c: Config<K, V>, s: State<K, V>, s': State<K, V>, t: nat, pc: Pc<K>, o: Calls): Calls {
    Calls(if pc.Find? && pc.f.TestThreshold? then o.crowded + [s.recent.count >= c.pullThreshold] else o.crowded,
          if pc.Insert? && pc.i.Allocate? && s.lists.pool == [] then o.starved + 1 else o.starved,
          if pc.Find? && pc.f.RequestPull? && s'.pullRequest then o.pulls + 1 else o.pulls,
          if pc.Insert? && pc.i.RequestPurge? && s'.purgeRequest then o.purges + 1 else o.purges,
          if pc.Try? then o.tries + 1 else o.tries,
          if pc.Try? && s.lruLock == NULL then o.chances + 1 else o.chances,
          if s.lruLock == NULL && s'.lruLock == t then o.turns + 1 else o.turns)
  }

  /** The record of the moving thread's request after its step from `s` to `s'`. */
  ghost function Observe<K(!new), V>(c: Config<K, V>, s: State<K, V>, s': State<K, V>, e: Choice<K>, r: Request<K,
                                     V>): Request<K, V>
    requires WellFormed(c, s) && WellFormed(c, s') && e.thread < |s.threads|
  {
    var pc := s.threads[e.thread];
    if pc.Idle? then Began(e.k)
    else if r.NoRequest? then r
    else Request(r.key, ObserveLook(s, s', pc, r.key, r.look), ObserveEntry(c, s, s', pc, r.key, r.entry),
                 ObserveCalls(c, s, s', e.thread, pc, r.calls))
  }

  /** The latest request of every thread, and the keys asked for in order. */
  datatype History<!K, !V> = History(requests: seq<Request<K, V>>, asked: seq<K>)

  ghost function Note<K(!new), V>(c: Config<K, V>, m: State<K, V>, e: Choice<K>, h: History<K, V>): History<K, V> {
    if !WellFormed(c, m) || !WellFormed(c, Step(c, m, e)) || e.thread >= |m.threads| || e.thread >= |h.requests| then h
    else History(h.requests[e.thread := Observe(c, m, Step(c, m, e), e, h.requests[e.thread])],
                 if m.threads[e.thread].Idle? then h.asked + [e.k] else h.asked)
  }

  ghost function Watch<K(!new), V>(c: Config<K, V>, s: State<K, V>, schedule: seq<Choice<K>>): History<K, V> {
    if schedule == [] then History(seq(|s.threads|, i => NoRequest), [])
    else
      var m, h := Run(c, s, schedule[..|schedule| - 1]), Watch(c, s, schedule[..|schedule| - 1]);
      Note(c, m, schedule[|schedule| - 1], h)
  }

  // ---------- what a finished request has done ----------

  /** The find came upon one filed node with the key, and pushed it on the Recent list unless it was marked. */
  ghost predicate HitDone(o: Look) {
    o.sought == [true] && |o.found| == |o.marked| == 1 && o.pushed == if o.marked[0] then [] else o.found
  }

  ghost predicate MissDone(o: Look) {
    o.sought == [false] && o.found == [] && o.marked == [] && o.pushed == []
  }

  /** A pull was asked for exactly if the Recent list was too long, a purge each time the pool was empty; each time the thread
      tried to get the LRU lock, and got it if it was free. */
  ghost predicate CallsDone(o: Calls) {
    && |o.crowded| == 1 && o.pulls == (if o.crowded[0] then 1 else 0) && o.purges == o.starved
    && o.tries == o.pulls + o.purges && o.turns == o.chances
  }

  /** One value was delivered, that of the key. After a hit nothing was inserted; after a miss one node was filed with the
      key and its value and put at the head of the LRU list. */
  ghost predicate Completed<K, V>(c: Config<K, V>, r: Request<K, V>) {
    r.Request? ==>
      && r.entry.delivered == [(r.key, c.f(r.key))] && CallsDone(r.calls)
      && (HitDone(r.look) || MissDone(r.look))
      && (HitDone(r.look) ==> r.entry.filed == [] && r.entry.linked == [])
      && (MissDone(r.look) ==> r.entry.filed == [(r.key, c.f(r.key))] && |r.entry.linked| == 1)
  }

  // ---------- what is observed on the way ----------

  /** The thread has found a node but not yet decided on its mark, or has decided not to push it yet. */
  ghost predicate LookFits<K>(pc: Pc<K>, o: Look) {
    && (pc.Find? ==>
         && (pc.f.Lock? || pc.f.Search? ==> o == Look([], [], [], []))
         && (pc.f.Check? ==> o == Look([true], [], [], []))
         && (pc.f.LoadMark? || pc.f.StoreMark? || pc.f.CasMark? ==> o == Look([true], [pc.f.n], [false], []))
         && (pc.f.CountMark? ==> HitDone(o))
         && (pc.f.Unlock? || pc.f.TestThreshold? || pc.f.RequestPull? ==> if pc.f.found then HitDone(o) else MissDone(o)))
    && (pc.Try? || pc.Consolidate? ==> if pc.after.Finish? then HitDone(o) else MissDone(o))
    && (pc.Produce? || pc.Insert? ==> MissDone(o))
  }

  /** Has the value been produced? */
  predicate Produced<K>(pc: Pc<K>) {
    pc.Insert? || ((pc.Try? || pc.Consolidate?) && pc.after.Retry?)
  }

  /** Has the value been delivered by a find? */
  predicate Answered<K>(pc: Pc<K>) {
    || (pc.Find? && (pc.f.Check? || pc.f.LoadMark? || pc.f.StoreMark? || pc.f.CasMark? || pc.f.CountMark?))
    || (pc.Find? && (pc.f.Unlock? || pc.f.TestThreshold? || pc.f.RequestPull?) && pc.f.found)
    || ((pc.Try? || pc.Consolidate?) && pc.after.Finish?)
  }

  ghost predicate EntryFits<K, V>(c: Config<K, V>, pc: Pc<K>, k: K, o: Entry<K, V>) {
    && o.delivered == (if Produced(pc) || Answered(pc) then [(k, c.f(k))] else [])
    && o.filed == (if pc.Insert? && !pc.i.Reserve? && !pc.i.Allocate? && !pc.i.RequestPurge? && !pc.i.Fill? && !pc.i.File?
                   then [(k, c.f(k))] else [])
    && |o.linked| == if pc.Insert? && (pc.i.WriteBack? || pc.i.Unmark?) then 1 else 0
  }

  ghost predicate CallsFit<K>(pc: Pc<K>, o: Calls) {
    && (pc.Find? ==> o == Calls(if pc.f.RequestPull? then [true] else [], 0, 0, 0, 0, 0, 0))
    && (pc.Produce? || pc.Consolidate? || (pc.Insert? && !pc.i.RequestPurge?) ==> CallsDone(o))
    && (pc.Insert? && pc.i.RequestPurge? ==> o.starved > 0 && CallsDone(o.(starved := o.starved - 1)))
    && (pc.Try? ==> CallsDone(o.(tries := o.tries + 1)))
  }

  predicate KeyOf<K(==)>(pc: Pc<K>, k: K) {
    && (pc.Find? || pc.Produce? || pc.Insert? ==> pc.k == k)
    && (pc.Try? || pc.Consolidate? ==> pc.after.Finish? || pc.after.k == k)
  }

  ghost predicate Fits<K, V>(c: Config<K, V>, pc: Pc<K>, r: Request<K, V>) {
    if pc.Idle? then Completed(c, r)
    else r.Request? && KeyOf(pc, r.key) && LookFits(pc, r.look) && EntryFits(c, pc, r.key, r.entry) && CallsFit(pc, r.calls)
  }

  // ---------- every step ----------

  lemma {:induction false} Unseen<K(!new), V>(c: Config<K, V>, s: State<K, V>, s': State<K, V>, pc: Pc<K>, k: K,
                                              o: Entry<K, V>)
    requires WellFormed(c, s) && WellFormed(c, s') && s'.log == s.log
    requires pc.Insert? ==> s'.lists.order == s.lists.order
    requires forall b :: 0 <= b < c.buckets ==> |s'.table.chains[b]| <= |s.table.chains[b]|
    ensures ObserveEntry(c, s, s', pc, k, o) == o
  {
    MissingSelf(s.lists.order);
  }

  // ---------- finding ----------

  /** The node that the search finds, and what it holds. */
  lemma SearchFinds<K(!new), V>(c: Config<K, V>, s: State<K, V>, k: K)
    requires Inv(c, s) && WellFormed(c, s)
    ensures var n := Seek(s.table.chains[BucketOf(c, k)], s.table.key, k);
      && (SomeFiled(s.table, k) <==> 0 <= n < c.capacity)
      && (0 <= n < c.capacity ==> s.table.value[n] == c.f(k))
  {
    hide OnLists, OnRecent, CrossOk, HolderOk, Delivered, LockOk, CountOk, FinderTable, InserterTable;
    var chain := s.table.chains[BucketOf(c, k)];
    SeekFinds(chain, s.table.key, k);
    if Seek(chain, s.table.key, k) < 0 { SeekMisses(chain, s.table.key, k); }
  }

  lemma FindLook<K(!new), V>(c: Config<K, V>, s: State<K, V>, s': State<K, V>, e: Choice<K>, o: Look)
    requires Inv(c, s) && WellFormed(c, s) && e.thread < |s.threads| == |s'.threads|
    requires s.threads[e.thread].Find? && LookFits(s.threads[e.thread], o)
    requires s' == FindStep(c, s, e.thread, s.threads[e.thread].k, s.threads[e.thread].f, e.fails)
    ensures var o' := ObserveLook(s, s', s.threads[e.thread], s.threads[e.thread].k, o);
      LookFits(s'.threads[e.thread], o') && (s'.threads[e.thread].Idle? ==> HitDone(o'))
  {
    hide Inv, Missing, WellFormed, SomeFiled, FindStep, ObserveLook, LookFits, HitDone;
    var pc := s.threads[e.thread];
    if pc.f.Search? { SearchLook(c, s, s', e, o); }
    else if pc.f.Check? { CheckLook(c, s, s', e, o); }
    else if pc.f.CasMark? { CasLook(c, s, s', e, o); }
    else if pc.f.Lock? || pc.f.LoadMark? || pc.f.StoreMark? || pc.f.CountMark? { MarkLook(c, s, s', e, o); }
    else { EndLook(c, s, s', e, o); }
  }

  lemma MarkLook<K(!new), V>(c: Config<K, V>, s: State<K, V>, s': State<K, V>, e: Choice<K>, o: Look)
    requires WellFormed(c, s) && e.thread < |s.threads| == |s'.threads|
    requires s.threads[e.thread].Find? && LookFits(s.threads[e.thread], o)
    requires var f := s.threads[e.thread].f; f.Lock? || f.LoadMark? || f.StoreMark? || f.CountMark?
    requires s' == FindStep(c, s, e.thread, s.threads[e.thread].k, s.threads[e.thread].f, e.fails)
    ensures var pc, pc' := s.threads[e.thread], s'.threads[e.thread];
      pc'.Find? && LookFits(pc', ObserveLook(s, s', pc, pc.k, o))
  {
    hide Missing, WellFormed;
    MissingSelf(s.recent.stack);
  }

  lemma EndLook<K(!new), V>(c: Config<K, V>, s: State<K, V>, s': State<K, V>, e: Choice<K>, o: Look)
    requires WellFormed(c, s) && e.thread < |s.threads| == |s'.threads|
    requires s.threads[e.thread].Find? && LookFits(s.threads[e.thread], o)
    requires var f := s.threads[e.thread].f; f.Unlock? || f.TestThreshold? || f.RequestPull?
    requires s' == FindStep(c, s, e.thread, s.threads[e.thread].k, s.threads[e.thread].f, e.fails)
    ensures var o' := ObserveLook(s, s', s.threads[e.thread], s.threads[e.thread].k, o);
      LookFits(s'.threads[e.thread], o') && (s'.threads[e.thread].Idle? ==> HitDone(o'))
  {
    hide Missing, WellFormed;
    MissingSelf(s.recent.stack);
  }

  lemma SearchLook<K(!new), V>(c: Config<K, V>, s: State<K, V>, s': State<K, V>, e: Choice<K>, o: Look)
    requires Inv(c, s) && WellFormed(c, s) && e.thread < |s.threads| == |s'.threads|
    requires s.threads[e.thread].Find? && s.threads[e.thread].f.Search? && LookFits(s.threads[e.thread], o)
    requires s' == FindStep(c, s, e.thread, s.threads[e.thread].k, FindPc.Search, e.fails)
    ensures var pc, pc' := s.threads[e.thread], s'.threads[e.thread];
      pc'.Find? && LookFits(pc', ObserveLook(s, s', pc, pc.k, o))
  {
    hide Inv, Missing, SomeFiled;
    SearchFinds(c, s, s.threads[e.thread].k);
    MissingSelf(s.recent.stack);
  }

  lemma CheckLook<K(!new), V>(c: Config<K, V>, s: State<K, V>, s': State<K, V>, e: Choice<K>, o: Look)
    requires Inv(c, s) && WellFormed(c, s) && e.thread < |s.threads| == |s'.threads|
    requires s.threads[e.thread].Find? && s.threads[e.thread].f.Check? && LookFits(s.threads[e.thread], o)
    requires s' == FindStep(c, s, e.thread, s.threads[e.thread].k, s.threads[e.thread].f, e.fails)
    ensures var pc, pc' := s.threads[e.thread], s'.threads[e.thread];
      pc'.Find? && LookFits(pc', ObserveLook(s, s', pc, pc.k, o))
  {
    hide Inv, Missing;
    MissingSelf(s.recent.stack);
    Knows(c, s, e.thread);
  }

  lemma CasLook<K(!new), V>(c: Config<K, V>, s: State<K, V>, s': State<K, V>, e: Choice<K>, o: Look)
    requires Inv(c, s) && WellFormed(c, s) && e.thread < |s.threads| == |s'.threads|
    requires s.threads[e.thread].Find? && s.threads[e.thread].f.CasMark? && LookFits(s.threads[e.thread], o)
    requires s' == FindStep(c, s, e.thread, s.threads[e.thread].k, s.threads[e.thread].f, e.fails)
    ensures var pc, pc' := s.threads[e.thread], s'.threads[e.thread];
      pc'.Find? && LookFits(pc', ObserveLook(s, s', pc, pc.k, o))
  {
    hide Inv, Missing;
    NotStacked(c, s, e.thread);
    MissingSelf(s.recent.stack);
    MissingFirst(s.recent.stack, s.threads[e.thread].f.n);
  }

  lemma NotStacked<K, V>(c: Config<K, V>, s: State<K, V>, t: nat)
    requires Inv(c, s) && WellFormed(c, s) && t < |s.threads| && s.threads[t].Find? && s.threads[t].f.CasMark?
    ensures s.threads[t].f.n !in s.recent.stack
  {
    hide Inv;
    OwnMark(c, s, t);
  }

  lemma FindEntry<K(!new), V>(c: Config<K, V>, s: State<K, V>, s': State<K, V>, e: Choice<K>, o: Entry<K, V>)
    requires Inv(c, s) && WellFormed(c, s) && WellFormed(c, s') && e.thread < |s.threads| == |s'.threads|
    requires s.threads[e.thread].Find? && EntryFits(c, s.threads[e.thread], s.threads[e.thread].k, o)
    requires s' == FindStep(c, s, e.thread, s.threads[e.thread].k, s.threads[e.thread].f, e.fails)
    ensures var o' := ObserveEntry(c, s, s', s.threads[e.thread], s.threads[e.thread].k, o);
      && (!s'.threads[e.thread].Idle? ==> EntryFits(c, s'.threads[e.thread], s.threads[e.thread].k, o'))
      && (s'.threads[e.thread].Idle? ==> o' == Entry([(s.threads[e.thread].k, c.f(s.threads[e.thread].k))], [], []))
  {
    hide Inv, ObserveEntry, SomeFiled, WellFormed, FindStep;
    var pc := s.threads[e.thread];
    if pc.f.Search? {
      SearchEntry(c, s, s', e, o);
    } else {
      FindQuiet(c, s, e.thread, e.fails);
      Unseen(c, s, s', pc, pc.k, o);
      FindAnswers(c, s, e.thread, e.fails);
    }
  }

  /** Only the search delivers, and a find inserts nothing. */
  lemma FindQuiet<K(!new), V>(c: Config<K, V>, s: State<K, V>, t: nat, fails: bool)
    requires WellFormed(c, s) && t < |s.threads| && s.threads[t].Find? && !s.threads[t].f.Search?
    ensures var s' := FindStep(c, s, t, s.threads[t].k, s.threads[t].f, fails);
      s'.log == s.log && s'.lists == s.lists && s'.table.chains == s.table.chains
  {
  }

  /** A find is over when it has answered, or else the value is still to be produced. */
  lemma FindAnswers<K(!new), V>(c: Config<K, V>, s: State<K, V>, t: nat, fails: bool)
    requires WellFormed(c, s) && t < |s.threads| && s.threads[t].Find? && !s.threads[t].f.Search?
    ensures var s' := FindStep(c, s, t, s.threads[t].k, s.threads[t].f, fails);
      && |s'.threads| == |s.threads|
      && var pc' := s'.threads[t]; !Produced(pc') && !pc'.Insert? && (Answered(s.threads[t]) <==> Answered(pc') || pc'.Idle?)
  {
    hide WellFormed;
  }

  lemma SearchEntry<K(!new), V>(c: Config<K, V>, s: State<K, V>, s': State<K, V>, e: Choice<K>, o: Entry<K, V>)
    requires Inv(c, s) && WellFormed(c, s) && WellFormed(c, s') && e.thread < |s.threads| == |s'.threads|
    requires s.threads[e.thread].Find? && s.threads[e.thread].f.Search?
    requires EntryFits(c, s.threads[e.thread], s.threads[e.thread].k, o)
    requires s' == FindStep(c, s, e.thread, s.threads[e.thread].k, FindPc.Search, e.fails)
    ensures var o' := ObserveEntry(c, s, s', s.threads[e.thread], s.threads[e.thread].k, o);
      s'.threads[e.thread].Find? && EntryFits(c, s'.threads[e.thread], s.threads[e.thread].k, o')
  {
    hide Inv, Missing, SomeFiled;
    SearchFinds(c, s, s.threads[e.thread].k);
  }

  lemma FindCalls<K(!new), V>(c: Config<K, V>, s: State<K, V>, s': State<K, V>, e: Choice<K>, o: Calls)
    requires WellFormed(c, s) && e.thread < |s.threads| == |s'.threads|
    requires s.threads[e.thread].Find? && CallsFit(s.threads[e.thread], o)
    requires s' == FindStep(c, s, e.thread, s.threads[e.thread].k, s.threads[e.thread].f, e.fails)
    ensures var o' := ObserveCalls(c, s, s', e.thread, s.threads[e.thread], o);
      CallsFit(s'.threads[e.thread], o') && (s'.threads[e.thread].Idle? ==> CallsDone(o'))
  {
    hide WellFormed, FindStep;
    FindCall(c, s, e.thread, e.fails);
  }

  /** A find asks for a pull exactly if the Recent list is too long, and then tries to get the LRU lock. */
  lemma FindCall<K(!new), V>(c: Config<K, V>, s: State<K, V>, t: nat, fails: bool)
    requires WellFormed(c, s) && t < |s.threads| && s.threads[t].Find?
    ensures var s', f := FindStep(c, s, t, s.threads[t].k, s.threads[t].f, fails), s.threads[t].f;
      && |s'.threads| == |s.threads| && s'.lruLock == s.lruLock
      && var pc' := s'.threads[t];
        && (f.RequestPull? ==> s'.pullRequest && pc'.Try?)
        && (f.TestThreshold? ==>
             if s.recent.count >= c.pullThreshold then pc'.Find? && pc'.f.RequestPull? else pc'.Idle? || pc'.Produce?)
        && (!f.RequestPull? && !f.TestThreshold? ==> pc'.Find? && !pc'.f.RequestPull?)
  {
    hide WellFormed;
  }

  lemma FindFits<K(!new), V>(c: Config<K, V>, s: State<K, V>, s': State<K, V>, e: Choice<K>, r: Request<K, V>)
    requires Inv(c, s) && WellFormed(c, s) && WellFormed(c, s') && e.thread < |s.threads| == |s'.threads|
    requires s.threads[e.thread].Find? && Fits(c, s.threads[e.thread], r)
    requires s' == FindStep(c, s, e.thread, s.threads[e.thread].k, s.threads[e.thread].f, e.fails)
    ensures Fits(c, s'.threads[e.thread], Observe(c, s, s', e, r))
  {
    hide Inv, WellFormed, ObserveLook, ObserveEntry, ObserveCalls, LookFits, CallsFit, CallsDone;
    FindLook(c, s, s', e, r.look);
    FindEntry(c, s, s', e, r.entry);
    FindCalls(c, s, s', e, r.calls);
    FindKey(c, s, e.thread, e.fails, r.key);
  }

  lemma FindKey<K(!new), V>(c: Config<K, V>, s: State<K, V>, t: nat, fails: bool, k: K)
    requires WellFormed(c, s) && t < |s.threads| && s.threads[t].Find? && KeyOf(s.threads[t], k)
    ensures var s' := FindStep(c, s, t, s.threads[t].k, s.threads[t].f, fails);
      |s'.threads| == |s.threads| && KeyOf(s'.threads[t], k)
  {
    hide WellFormed;
  }

  // ---------- inserting ----------

  lemma InsertFits<K(!new), V>(c: Config<K, V>, s: State<K, V>, s': State<K, V>, e: Choice<K>, r: Request<K, V>)
    requires Inv(c, s) && WellFormed(c, s) && WellFormed(c, s') && e.thread < |s.threads| == |s'.threads|
    requires s.threads[e.thread].Insert? && Fits(c, s.threads[e.thread], r)
    requires s' == InsertStep(c, s, e.thread, s.threads[e.thread].k, s.threads[e.thread].i, e.fails)
    ensures Fits(c, s'.threads[e.thread], Observe(c, s, s', e, r))
  {
    hide Inv, WellFormed, ObserveLook, ObserveEntry, ObserveCalls, CallsFit, CallsDone;
    InsertLook(c, s, s', e, r.look);
    InsertEntry(c, s, s', e, r.entry);
    InsertCalls(c, s, s', e, r.calls);
    InsertKey(c, s, e.thread, e.fails, r.key);
  }

  /** An insertion goes on with its key until it is over, or asks for a purge. */
  ghost predicate InsertsOn<K, V>(s: State<K, V>, s': State<K, V>, t: nat, k: K) {
    && t < |s'.threads| == |s.threads| && s'.recent.stack == s.recent.stack
    && var pc' := s'.threads[t]; pc'.Idle? || (pc'.Insert? && pc'.k == k) || (pc'.Try? && pc'.after == Retry(k))
  }

  lemma InsertKey<K(!new), V>(c: Config<K, V>, s: State<K, V>, t: nat, fails: bool, k: K)
    requires WellFormed(c, s) && t < |s.threads| && s.threads[t].Insert? && KeyOf(s.threads[t], k)
    ensures InsertsOn(s, InsertStep(c, s, t, s.threads[t].k, s.threads[t].i, fails), t, k)
  {
    hide WellFormed, InsertStep, InsertsOn;
    var i := s.threads[t].i;
    if i.Reserve? || i.Allocate? || i.RequestPurge? || i.Fill? || i.File? { FirstHalf(c, s, t, fails); }
    else { SecondHalf(c, s, t, fails); }
  }

  lemma FirstHalf<K(!new), V>(c: Config<K, V>, s: State<K, V>, t: nat, fails: bool)
    requires WellFormed(c, s) && t < |s.threads| && s.threads[t].Insert?
    requires var i := s.threads[t].i; i.Reserve? || i.Allocate? || i.RequestPurge? || i.Fill? || i.File?
    ensures InsertsOn(s, InsertStep(c, s, t, s.threads[t].k, s.threads[t].i, fails), t, s.threads[t].k)
  {
    hide WellFormed;
  }

  lemma SecondHalf<K(!new), V>(c: Config<K, V>, s: State<K, V>, t: nat, fails: bool)
    requires WellFormed(c, s) && t < |s.threads| && s.threads[t].Insert?
    requires var i := s.threads[t].i; !i.Reserve? && !i.Allocate? && !i.RequestPurge? && !i.Fill? && !i.File?
    ensures InsertsOn(s, InsertStep(c, s, t, s.threads[t].k, s.threads[t].i, fails), t, s.threads[t].k)
  {
    hide WellFormed;
  }

  lemma InsertLook<K(!new), V>(c: Config<K, V>, s: State<K, V>, s': State<K, V>, e: Choice<K>, o: Look)
    requires WellFormed(c, s) && e.thread < |s.threads| == |s'.threads|
    requires s.threads[e.thread].Insert? && LookFits(s.threads[e.thread], o)
    requires s' == InsertStep(c, s, e.thread, s.threads[e.thread].k, s.threads[e.thread].i, e.fails)
    ensures var o' := ObserveLook(s, s', s.threads[e.thread], s.threads[e.thread].k, o);
      o' == o && LookFits(s'.threads[e.thread], o') && MissDone(o')
  {
    hide Missing, WellFormed, InsertStep;
    InsertKey(c, s, e.thread, e.fails, s.threads[e.thread].k);
    MissingSelf(s.recent.stack);
  }

  lemma InsertEntry<K(!new), V>(c: Config<K, V>, s: State<K, V>, s': State<K, V>, e: Choice<K>, o: Entry<K, V>)
    requires Inv(c, s) && WellFormed(c, s) && WellFormed(c, s') && e.thread < |s.threads| == |s'.threads|
    requires s.threads[e.thread].Insert? && EntryFits(c, s.threads[e.thread], s.threads[e.thread].k, o)
    requires s' == InsertStep(c, s, e.thread, s.threads[e.thread].k, s.threads[e.thread].i, e.fails)
    ensures var k, o' := s.threads[e.thread].k, ObserveEntry(c, s, s', s.threads[e.thread], s.threads[e.thread].k, o);
      && (!s'.threads[e.thread].Idle? ==> EntryFits(c, s'.threads[e.thread], k, o'))
      && (s'.threads[e.thread].Idle? ==> o'.delivered == o'.filed == [(k, c.f(k))] && |o'.linked| == 1)
  {
    hide Inv, ObserveEntry, WellFormed;
    var pc := s.threads[e.thread];
    if pc.i.File? { FileEntry(c, s, s', e, o); }
    else if pc.i.CasHead? { LinkEntry(c, s, s', e, o); }
    else { InsertQuiet(c, s, e.thread, e.fails); Unseen(c, s, s', pc, pc.k, o); }
  }

  lemma InsertQuiet<K(!new), V>(c: Config<K, V>, s: State<K, V>, t: nat, fails: bool)
    requires WellFormed(c, s) && t < |s.threads| && s.threads[t].Insert? && !s.threads[t].i.File? && !s.threads[t].i.CasHead?
    ensures var s' := InsertStep(c, s, t, s.threads[t].k, s.threads[t].i, fails);
      s'.log == s.log && s'.lists.order == s.lists.order && s'.table.chains == s.table.chains
  {
  }

  lemma FileEntry<K(!new), V>(c: Config<K, V>, s: State<K, V>, s': State<K, V>, e: Choice<K>, o: Entry<K, V>)
    requires Inv(c, s) && WellFormed(c, s) && WellFormed(c, s') && e.thread < |s.threads| == |s'.threads|
    requires s.threads[e.thread].Insert? && s.threads[e.thread].i.File?
    requires EntryFits(c, s.threads[e.thread], s.threads[e.thread].k, o)
    requires s' == InsertStep(c, s, e.thread, s.threads[e.thread].k, s.threads[e.thread].i, e.fails)
    ensures s'.threads[e.thread].Insert?
    ensures EntryFits(c, s'.threads[e.thread], s.threads[e.thread].k,
                      ObserveEntry(c, s, s', s.threads[e.thread], s.threads[e.thread].k, o))
  {
    hide Inv, Missing, ObserveEntry;
    var k, n := s.threads[e.thread].k, s.threads[e.thread].i.n;
    Knows(c, s, e.thread);
    if s'.threads[e.thread].i.LoadHead? {
      SeesFiling(c, s, s', s.threads[e.thread], k, o, n);
    } else {
      Unseen(c, s, s', s.threads[e.thread], k, o);
    }
  }

  /** What an observer sees of a node being filed. */
  lemma SeesFiling<K(!new), V>(c: Config<K, V>, s: State<K, V>, s': State<K, V>, pc: Pc<K>, k: K, o: Entry<K, V>, n: int)
    requires WellFormed(c, s) && WellFormed(c, s') && s'.log == s.log && s'.lists == s.lists && 0 <= n < c.capacity
    requires s'.table.key == s.table.key && s'.table.value == s.table.value && s.table.key[n] == k
    requires s.table.value[n] == c.f(k)
    requires var b := BucketOf(c, k); s'.table.chains == s.table.chains[b := [n] + s.table.chains[b]]
    ensures ObserveEntry(c, s, s', pc, k, o) == o.(filed := o.filed + [(k, c.f(k))])
  {
    hide Missing;
    MissingSelf(s.lists.order);
    PairsOne(n, s.table.key, s.table.value);
    assert ([n] + s.table.chains[BucketOf(c, k)])[..1] == [n];
  }

  lemma LinkEntry<K(!new), V>(c: Config<K, V>, s: State<K, V>, s': State<K, V>, e: Choice<K>, o: Entry<K, V>)
    requires Inv(c, s) && WellFormed(c, s) && WellFormed(c, s') && e.thread < |s.threads| == |s'.threads|
    requires s.threads[e.thread].Insert? && s.threads[e.thread].i.CasHead?
    requires EntryFits(c, s.threads[e.thread], s.threads[e.thread].k, o)
    requires s' == InsertStep(c, s, e.thread, s.threads[e.thread].k, s.threads[e.thread].i, e.fails)
    ensures s'.threads[e.thread].Insert?
    ensures EntryFits(c, s'.threads[e.thread], s.threads[e.thread].k,
                      ObserveEntry(c, s, s', s.threads[e.thread], s.threads[e.thread].k, o))
  {
    hide Inv, Missing;
    NotListed(c, s, e.thread);
    MissingSelf(s.lists.order);
    MissingFirst(s.lists.order, s.threads[e.thread].i.n);
  }

  lemma NotListed<K, V>(c: Config<K, V>, s: State<K, V>, t: nat)
    requires Inv(c, s) && t < |s.threads| && s.threads[t].Insert? && s.threads[t].i.CasHead?
    ensures s.threads[t].i.n !in s.lists.order
  {
    hide OnRecent, OnTable, CrossOk, HolderOk, Delivered, OwingOk, InserterList, PurgeOk, PullOk, SpliceOk, Main, Side;
    assert Holds(s.threads[t], s.threads[t].i.n);
  }

  lemma InsertCalls<K(!new), V>(c: Config<K, V>, s: State<K, V>, s': State<K, V>, e: Choice<K>, o: Calls)
    requires Inv(c, s) && WellFormed(c, s) && e.thread < |s.threads| == |s'.threads|
    requires s.threads[e.thread].Insert? && CallsFit(s.threads[e.thread], o)
    requires s' == InsertStep(c, s, e.thread, s.threads[e.thread].k, s.threads[e.thread].i, e.fails)
    ensures var o' := ObserveCalls(c, s, s', e.thread, s.threads[e.thread], o);
      CallsFit(s'.threads[e.thread], o') && (s'.threads[e.thread].Idle? ==> CallsDone(o'))
  {
    hide Inv, WellFormed, InsertStep;
    PoolHead(c, s);
    InsertCall(c, s, e.thread, e.fails);
  }

  /** An insertion asks for a purge exactly when it has found the pool empty, and then tries to get the LRU lock. */
  lemma InsertCall<K(!new), V>(c: Config<K, V>, s: State<K, V>, t: nat, fails: bool)
    requires WellFormed(c, s) && t < |s.threads| && s.threads[t].Insert?
    ensures var s', i := InsertStep(c, s, t, s.threads[t].k, s.threads[t].i, fails), s.threads[t].i;
      && |s'.threads| == |s.threads| && s'.lruLock == s.lruLock
      && var pc' := s'.threads[t];
        && (i.Allocate? && s.lists.ehead == NULL ==> pc'.Insert? && pc'.i.RequestPurge?)
        && (i.RequestPurge? ==> s'.purgeRequest && pc'.Try?)
        && (!i.RequestPurge? && !(i.Allocate? && s.lists.ehead == NULL) ==> pc'.Idle? || (pc'.Insert? && !pc'.i.RequestPurge?))
  {
    hide WellFormed;
  }

  lemma PoolHead<K, V>(c: Config<K, V>, s: State<K, V>)
    requires Inv(c, s)
    ensures s.lists.ehead == NULL <==> s.lists.pool == []
  {
    hide OnRecent, OnTable, CrossOk, HolderOk, Delivered, OwingOk, InserterList, PurgeOk, PullOk, SpliceOk, Main, HoldOk;
  }

  // ---------- the LRU lock ----------

  lemma TryFits<K(!new), V>(c: Config<K, V>, s: State<K, V>, s': State<K, V>, e: Choice<K>, r: Request<K, V>)
    requires WellFormed(c, s) && WellFormed(c, s') && e.thread < |s.threads| == |s'.threads|
    requires s.threads[e.thread].Try? && Fits(c, s.threads[e.thread], r) && s' == Step(c, s, e)
    ensures Fits(c, s'.threads[e.thread], Observe(c, s, s', e, r))
  {
    hide Fronted, WellFormed, Missing, ObserveEntry, ObserveCalls, CallsFit, CallsDone, Step;
    MissingSelf(s.recent.stack);
    TryMoves(c, s, e);
    Unseen(c, s, s', s.threads[e.thread], r.key, r.entry);
    TryCalls(c, s, s', e, r.calls);
  }

  lemma TryMoves<K(!new), V>(c: Config<K, V>, s: State<K, V>, e: Choice<K>)
    requires WellFormed(c, s) && e.thread < |s.threads| && s.threads[e.thread].Try?
    ensures var s' := Step(c, s, e);
      && |s'.threads| == |s.threads| && s'.recent == s.recent && s'.log == s.log && s'.lists == s.lists && s'.table == s.table
      && var pc', after := s'.threads[e.thread], s.threads[e.thread].after;
        || pc' == Consolidate(after) || (after.Finish? && pc'.Idle?) || (after.Compute? && pc' == Produce(after.k))
        || (after.Retry? && pc' == Insert(after.k, Allocate))
  {
    hide WellFormed;
  }

  /** A try gets the LRU lock if it is free. */
  lemma TryCalls<K(!new), V>(c: Config<K, V>, s: State<K, V>, s': State<K, V>, e: Choice<K>, o: Calls)
    requires WellFormed(c, s) && e.thread < |s.threads| == |s'.threads|
    requires s.threads[e.thread].Try? && CallsFit(s.threads[e.thread], o) && s' == Step(c, s, e)
    ensures var o' := ObserveCalls(c, s, s', e.thread, s.threads[e.thread], o);
      CallsFit(s'.threads[e.thread], o') && (s'.threads[e.thread].Idle? ==> CallsDone(o'))
  {
    hide WellFormed;
  }

  lemma ProduceFits<K(!new), V>(c: Config<K, V>, s: State<K, V>, s': State<K, V>, e: Choice<K>, r: Request<K, V>)
    requires WellFormed(c, s) && WellFormed(c, s') && e.thread < |s.threads| == |s'.threads|
    requires s.threads[e.thread].Produce? && Fits(c, s.threads[e.thread], r) && s' == Step(c, s, e)
    ensures Fits(c, s'.threads[e.thread], Observe(c, s, s', e, r))
  {
    hide Fronted, WellFormed, Missing;
    MissingSelf(s.recent.stack);
    Giving(c, s, s', s.threads[e.thread], r.key, r.entry);
    hide ObserveEntry;
  }

  lemma Giving<K(!new), V>(c: Config<K, V>, s: State<K, V>, s': State<K, V>, pc: Pc<K>, k: K, o: Entry<K, V>)
    requires WellFormed(c, s) && WellFormed(c, s') && s'.log == s.log + [(k, c.f(k))] && !pc.Insert?
    requires s'.table.chains == s.table.chains
    ensures ObserveEntry(c, s, s', pc, k, o) == o.(delivered := o.delivered + [(k, c.f(k))])
  {
  }

  lemma ConsolidateFits<K(!new), V>(c: Config<K, V>, s: State<K, V>, s': State<K, V>, e: Choice<K>, r: Request<K, V>)
    requires Inv(c, s) && WellFormed(c, s) && WellFormed(c, s') && e.thread < |s.threads| == |s'.threads|
    requires s.threads[e.thread].Consolidate? && Fits(c, s.threads[e.thread], r)
    requires s' == ConsolidateStep(c, s, e.thread, s.threads[e.thread].after, e.fails)
    ensures Fits(c, s'.threads[e.thread], Observe(c, s, s', e, r))
  {
    hide Inv, WellFormed, ConsolidateStep, ObserveEntry, ObserveLook, CallsDone, HitDone, MissDone;
    ConsolidateQuiet(c, s, e.thread, e.fails);
    Holding(c, s, e.thread);
    Unseen(c, s, s', s.threads[e.thread], r.key, r.entry);
    NothingPushed(s, s', s.threads[e.thread], r.key, r.look);
    if s.con.Release? { Apart(r.look); }
  }

  /** A thread that neither finds nor pushes. */
  lemma NothingPushed<K(!new), V>(s: State<K, V>, s': State<K, V>, pc: Pc<K>, k: K, o: Look)
    requires !pc.Find? && (s'.recent.stack == s.recent.stack || s'.recent.stack == [])
    ensures ObserveLook(s, s', pc, k, o) == o
  {
    MissingSelf(s.recent.stack);
  }

  lemma Apart(o: Look)
    ensures !(HitDone(o) && MissDone(o))
  {
  }

  lemma Holding<K, V>(c: Config<K, V>, s: State<K, V>, t: nat)
    requires Inv(c, s) && t < |s.threads| && s.threads[t].Consolidate?
    ensures s.lruLock == t
  {
    hide OnLists, OnRecent, OnTable, CrossOk, Delivered;
  }

  /** The holder of the LRU lock delivers, files and pushes nothing. */
  lemma ConsolidateQuiet<K(!new), V>(c: Config<K, V>, s: State<K, V>, t: nat, fails: bool)
    requires WellFormed(c, s) && t < |s.threads| && s.threads[t].Consolidate?
    ensures var s' := ConsolidateStep(c, s, t, s.threads[t].after, fails);
      && s'.log == s.log && (s'.recent.stack == s.recent.stack || s'.recent.stack == [])
      && |s'.table.chains| == |s.table.chains|
      && (forall b :: 0 <= b < c.buckets ==> |s'.table.chains[b]| <= |s.table.chains[b]|)
      && s'.threads == (if s.con.Release? then s.threads[t := Resume(s.threads[t].after)] else s.threads)
  {
    hide PurgeStep, PullStep;
    if !s.con.Release? {
      if Purging(s.con) { PurgeQuiet(c, s, fails); } else { PullQuiet(c, s, fails); }
    }
  }

  lemma PurgeQuiet<K(!new), V>(c: Config<K, V>, s: State<K, V>, fails: bool)
    requires WellFormed(c, s)
    ensures var s' := PurgeStep(c, s, fails);
      && s'.log == s.log && s'.recent == s.recent && s'.threads == s.threads && |s'.table.chains| == |s.table.chains|
      && forall b :: 0 <= b < c.buckets ==> |s'.table.chains[b]| <= |s.table.chains[b]|
  {
  }

  lemma PullQuiet<K(!new), V>(c: Config<K, V>, s: State<K, V>, fails: bool)
    requires WellFormed(c, s)
    ensures var s' := PullStep(c, s, fails);
      && s'.log == s.log && s'.table == s.table && s'.threads == s.threads
      && (s'.recent.stack == s.recent.stack || s'.recent.stack == [])
  {
  }

  // ---------- every run ----------

  ghost predicate AllFit<K, V>(c: Config<K, V>, s: State<K, V>, h: History<K, V>) {
    && |h.requests| == |s.threads|
    && (forall t :: 0 <= t < |s.threads| ==> Fits(c, s.threads[t], h.requests[t]))
  }

  lemma ObserveFits<K(!new), V>(c: Config<K, V>, s: State<K, V>, s': State<K, V>, e: Choice<K>, r: Request<K, V>)
    requires Inv(c, s) && WellFormed(c, s) && WellFormed(c, s') && e.thread < |s.threads| == |s'.threads|
    requires s' == Step(c, s, e) && Fits(c, s.threads[e.thread], r)
    ensures Fits(c, s'.threads[e.thread], Observe(c, s, s', e, r))
  {
    hide Inv, WellFormed, FindStep, InsertStep, ConsolidateStep, Missing, Fronted;
    var pc := s.threads[e.thread];
    if pc.Find? { hide Fits, Observe; FindFits(c, s, s', e, r); }
    else if pc.Insert? { hide Fits, Observe; InsertFits(c, s, s', e, r); }
    else if pc.Consolidate? { hide Fits, Observe; ConsolidateFits(c, s, s', e, r); }
    else if pc.Try? { hide Fits, Observe; TryFits(c, s, s', e, r); }
    else if pc.Produce? { hide Fits, Observe; ProduceFits(c, s, s', e, r); }
  }

  /** A step moves one thread. */
  lemma StepMoves<K(!new), V>(c: Config<K, V>, s: State<K, V>, e: Choice<K>)
    requires Inv(c, s)
    ensures WellFormed(c, s) && WellFormed(c, Step(c, s, e)) && |Step(c, s, e).threads| == |s.threads|
    ensures forall u :: 0 <= u < |s.threads| && u != e.thread ==> Step(c, s, e).threads[u] == s.threads[u]
    ensures e.thread >= |s.threads| ==> Step(c, s, e) == s
  {
    hide Inv, FindStep, InsertStep, ConsolidateStep;
    Shape(c, s);
    StepKeeps(c, s, e);
    Shape(c, Step(c, s, e));
    if e.thread < |s.threads| {
      var pc := s.threads[e.thread];
      if pc.Find? { FindMoves(c, s, e.thread, e.fails); }
      else if pc.Insert? { InsertMoves(c, s, e.thread, e.fails); }
      else if pc.Consolidate? { ConsolidateQuiet(c, s, e.thread, e.fails); }
    }
  }

  lemma Shape<K, V>(c: Config<K, V>, s: State<K, V>)
    requires Inv(c, s)
    ensures WellFormed(c, s)
  {
  }

  lemma FindMoves<K(!new), V>(c: Config<K, V>, s: State<K, V>, t: nat, fails: bool)
    requires WellFormed(c, s) && t < |s.threads| && s.threads[t].Find?
    ensures var s' := FindStep(c, s, t, s.threads[t].k, s.threads[t].f, fails);
      |s'.threads| == |s.threads| && forall u :: 0 <= u < |s.threads| && u != t ==> s'.threads[u] == s.threads[u]
  {
    hide WellFormed;
  }

  lemma InsertMoves<K(!new), V>(c: Config<K, V>, s: State<K, V>, t: nat, fails: bool)
    requires WellFormed(c, s) && t < |s.threads| && s.threads[t].Insert?
    ensures var s' := InsertStep(c, s, t, s.threads[t].k, s.threads[t].i, fails);
      |s'.threads| == |s.threads| && forall u :: 0 <= u < |s.threads| && u != t ==> s'.threads[u] == s.threads[u]
  {
    hide WellFormed;
  }

  lemma NoteFits<K(!new), V>(c: Config<K, V>, s: State<K, V>, e: Choice<K>, h: History<K, V>)
    requires Inv(c, s) && AllFit(c, s, h)
    ensures AllFit(c, Step(c, s, e), Note(c, s, e, h))
  {
    hide Inv, Fits, Step, WellFormed, Observe;
    StepMoves(c, s, e);
    if e.thread < |s.threads| {
      ObserveFits(c, s, Step(c, s, e), e, h.requests[e.thread]);
    }
  }

  lemma {:induction false} WatchFits<K(!new), V>(c: Config<K, V>, s: State<K, V>, schedule: seq<Choice<K>>)
    requires Initial(c, s)
    ensures AllFit(c, Run(c, s, schedule), Watch(c, s, schedule))
    decreases |schedule|
  {
    hide Inv, Fits, Step, Note;
    if schedule == [] {
      NothingYet<K, V>(c, Idle);
    } else {
      WatchFits(c, s, schedule[..|schedule| - 1]);
      Reachable(c, s, schedule[..|schedule| - 1]);
      NoteFits(c, Run(c, s, schedule[..|schedule| - 1]), schedule[|schedule| - 1], Watch(c, s, schedule[..|schedule| - 1]));
    }
  }

  lemma NothingYet<K, V>(c: Config<K, V>, pc: Pc<K>)
    requires pc.Idle?
    ensures Fits<K, V>(c, pc, NoRequest)
  {
  }

  lemma {:induction false} RunThreads<K(!new), V>(c: Config<K, V>, s: State<K, V>, schedule: seq<Choice<K>>)
    requires Initial(c, s)
    ensures |Run(c, s, schedule).threads| == |s.threads|
    decreases |schedule|
  {
    hide Inv, Step;
    if schedule != [] {
      var before := schedule[..|schedule| - 1];
      RunThreads(c, s, before);
      Reachable(c, s, before);
      StepMoves(c, Run(c, s, before), schedule[|schedule| - 1]);
    }
  }

  /** In every interleaving each time a thread is idle again its request has delivered exactly one value, that of its key.
      After a hit the node found was marked or has been pushed on the Recent list; after a miss a node with the key and its
      value was filed and linked. Pulls and purges were asked for exactly when they were due, and the LRU lock was taken
      whenever it was free then. */
  lemma RequestsComplete<K(!new), V>(c: Config<K, V>, n: nat, key: K, value: V, schedule: seq<Choice<K>>, t: nat)
    requires c.capacity > 0 && c.buckets > 0 && t < n
    ensures var s, h := Run(c, Start(c, n, key, value), schedule), Watch(c, Start(c, n, key, value), schedule);
      && |s.threads| == |h.requests| == n
      && (s.threads[t].Idle? ==> Completed(c, h.requests[t]))
  {
    hide Inv, Step, Note, Completed, LookFits, EntryFits, CallsFit, KeyOf;
    StartIsInitial(c, n, key, value);
    WatchFits(c, Start(c, n, key, value), schedule);
    RunThreads(c, Start(c, n, key, value), schedule);
    var s, h := Run(c, Start(c, n, key, value), schedule), Watch(c, Start(c, n, key, value), schedule);
    assert Fits(c, s.threads[t], h.requests[t]);
  }

  // ---------- what the bucket locks protect ----------

  /** A step changes a bucket only while nobody holds its lock. */
  lemma BucketStep<K(!new), V>(c: Config<K, V>, s: State<K, V>, e: Choice<K>, u: nat)
    requires Inv(c, s) && WellFormed(c, s) && u < |s.threads| && HasStripe(s.threads[u]) && WellFormed(c, Step(c, s, e))
    ensures var b := BucketOf(c, s.threads[u].k); Step(c, s, e).table.chains[b] == s.table.chains[b]
  {
    hide Inv, FindStep, InsertStep, ConsolidateStep;
    StripeHeld(c, s, u);
    if e.thread < |s.threads| {
      var pc := s.threads[e.thread];
      if pc.Find? { FindFiles(c, s, e.thread, e.fails); }
      else if pc.Insert? { InsertFiles(c, s, e.thread, e.fails, u); }
      else if pc.Consolidate? { SessionFiles(c, s, e.thread, e.fails, u); }
    }
  }

  lemma StripeHeld<K, V>(c: Config<K, V>, s: State<K, V>, u: nat)
    requires Inv(c, s) && WellFormed(c, s) && u < |s.threads| && HasStripe(s.threads[u])
    ensures s.table.locks[StripeOf(c, s.threads[u].k)] == u
  {
    hide OnLists, OnRecent, CrossOk, HolderOk, Delivered, TableOk, CountOk, FinderTable, InserterTable;
  }

  lemma FindFiles<K(!new), V>(c: Config<K, V>, s: State<K, V>, t: nat, fails: bool)
    requires WellFormed(c, s) && t < |s.threads| && s.threads[t].Find?
    ensures FindStep(c, s, t, s.threads[t].k, s.threads[t].f, fails).table.chains == s.table.chains
  {
  }

  lemma InsertFiles<K(!new), V>(c: Config<K, V>, s: State<K, V>, t: nat, fails: bool, u: nat)
    requires WellFormed(c, s) && t < |s.threads| && s.threads[t].Insert? && u < |s.threads| && HasStripe(s.threads[u])
    requires s.table.locks[StripeOf(c, s.threads[u].k)] != NULL
    ensures var b := BucketOf(c, s.threads[u].k);
      var s' := InsertStep(c, s, t, s.threads[t].k, s.threads[t].i, fails);
      |s'.table.chains| == c.buckets && s'.table.chains[b] == s.table.chains[b]
  {
  }

  lemma SessionFiles<K(!new), V>(c: Config<K, V>, s: State<K, V>, t: nat, fails: bool, u: nat)
    requires WellFormed(c, s) && t < |s.threads| && s.threads[t].Consolidate? && u < |s.threads| && HasStripe(s.threads[u])
    requires s.table.locks[StripeOf(c, s.threads[u].k)] != NULL
    ensures var b := BucketOf(c, s.threads[u].k);
      var s' := ConsolidateStep(c, s, t, s.threads[t].after, fails);
      |s'.table.chains| == c.buckets && s'.table.chains[b] == s.table.chains[b]
  {
    hide PullStep;
    if !s.con.Release? && !Purging(s.con) { PullQuiet(c, s, fails); }
  }

  /** From its search to its unlocking a find has its bucket for itself: however long the other threads insert and evict, the
      bucket does not change. */
  lemma {:induction false} BucketStable<K(!new), V>(c: Config<K, V>, s: State<K, V>, schedule: seq<Choice<K>>, u: nat)
    requires Inv(c, s) && u < |s.threads| && HasStripe(s.threads[u])
    requires forall i :: 0 <= i < |schedule| ==> schedule[i].thread != u
    ensures var s' := Run(c, s, schedule);
      && Inv(c, s') && u < |s'.threads| && s'.threads[u] == s.threads[u] && |s'.table.chains| == |s.table.chains| == c.buckets > 0
      && s'.table.chains[BucketOf(c, s.threads[u].k)] == s.table.chains[BucketOf(c, s.threads[u].k)]
    decreases |schedule|
  {
    hide Inv, Step;
    Shape(c, s);
    if schedule != [] {
      var before, e := schedule[..|schedule| - 1], schedule[|schedule| - 1];
      BucketStable(c, s, before, u);
      StepMoves(c, Run(c, s, before), e);
      StepKeeps(c, Run(c, s, before), e);
      BucketStep(c, Run(c, s, before), e, u);
    }
  }
}
