/**
  Retention row by row: which rows may go, which have to stay, and that a pass
  that is not cut short by its batch leaves none that may go.
 */
module SweptRows {
  import opened Tables
  import opened Queries
  import opened Retention
  import opened Sets

  // ---- History ----

  /** The row finished longer ago than its outcome is kept; 0 keeps it for good. */
  predicate TooOld(rc: RetentionConfig, now: int, a: Archived) {
    match a.outcome
    case Completed => rc.completedAgeMs > 0 && a.finishedAt < SatAdd(now, 0 - rc.completedAgeMs)
    case Failed => rc.failedAgeMs > 0 && a.finishedAt < SatAdd(now, 0 - rc.failedAgeMs)
  }

  /** The rows of the same outcome and name that finished after `id`, or with it under a later id. */
  function Newer(h: History, id: Id): set<Id>
    requires id in h
  {
    set y | y in h && y != id && h[y].outcome == h[id].outcome && h[y].card.name == h[id].card.name
            && (h[y].finishedAt > h[id].finishedAt || (h[y].finishedAt == h[id].finishedAt && Leq(Text(id), Text(y))))
  }

  /** As many newer rows of its outcome and name exist as are kept; 0 keeps them all. */
  predicate Crowded(rc: RetentionConfig, h: History, id: Id)
    requires id in h
  {
    match h[id].outcome
    case Completed => rc.completedCount > 0 && |Newer(h, id)| >= rc.completedCount
    case Failed => rc.failedCount > 0 && |Newer(h, id)| >= rc.failedCount
  }

  lemma RankExactly(h: History, id: Id)
    requires id in h
    ensures Above(Group(h, h[id].outcome, h[id].card.name), id) == Newer(h, id)
  {
    var keys := Group(h, h[id].outcome, h[id].card.name);
    forall y | y in keys ensures Leq(keys[id], keys[y]) <==>
        h[id].finishedAt < h[y].finishedAt || (h[id].finishedAt == h[y].finishedAt && Leq(Text(id), Text(y))) {
      assert keys[id] == [h[id].finishedAt] + Text(id) && keys[y] == [h[y].finishedAt] + Text(y);
      assert keys[id][1..] == Text(id) && keys[y][1..] == Text(y);
    }
  }

  lemma AgedExactly(rc: RetentionConfig, now: int, a: Archived)
    ensures IsAged(rc, now, a) <==> TooOld(rc, now, a)
  {
  }

  lemma OverflowExactly(rc: RetentionConfig, h: History, id: Id)
    requires id in h
    ensures IsOverflow(rc, h, id) <==> Crowded(rc, h, id)
  {
    RankExactly(h, id);
  }

  /**
    At one clock reading, passes that are repeated often enough leave exactly the rows that were neither too
    old nor crowded out at the start, whichever rows each pass picked.
   */
  lemma RemainExactly(rc: RetentionConfig, now: int, hs: seq<History>, ps: seq<Picks>, n: nat, id: Id)
    requires Passes(rc, now, hs, ps) && |hs[0]| <= n <= |ps| && rc.batch > 0
    ensures id in hs[n] <==> id in hs[0] && !TooOld(rc, now, hs[0][id]) && !Crowded(rc, hs[0], id)
    ensures id in hs[n] ==> hs[n][id] == hs[0][id]
  {
    RetentionConfluent(rc, now, hs, ps, n);
    if id in hs[0] {
      AgedExactly(rc, now, hs[0][id]);
      OverflowExactly(rc, hs[0], id);
    }
  }

  /** A pass deletes only rows that are too old or crowded out, each as it was. */
  lemma OnlyDue(rc: RetentionConfig, s: Store, p: Picks, now: int, id: Id)
    requires SweepLegal(rc, s, p, now) && id in s.history
    ensures id in Sweep(s, p).history ==> Sweep(s, p).history[id] == s.history[id]
    ensures id !in Sweep(s, p).history ==> TooOld(rc, now, s.history[id]) || Crowded(rc, s.history, id)
  {
    PassKeepsSurvivors(rc, now, s.history, p);
    AgedExactly(rc, now, s.history[id]);
    OverflowExactly(rc, s.history, id);
    SweptHistory(s, p);
  }

  lemma SweptHistory(s: Store, p: Picks)
    ensures Sweep(s, p).history == s.history - PassGone(p)
  {
  }

  lemma Complete<T>(gone: set<T>, candidates: set<T>, batch: nat)
    requires Bounded(gone, candidates, batch)
    ensures |gone| <= batch
    ensures |gone| < batch ==> gone == candidates
  {
    SubsetSize(gone, candidates);
  }

  /** The two age statements: oldest first, and none too old is left unless the batch ran out. */
  lemma AgePruned(rc: RetentionConfig, s: Store, p: Picks, now: int, id: Id)
    requires SweepLegal(rc, s, p, now) && id in s.history && TooOld(rc, now, s.history[id])
    requires |p.completedAge| < rc.batch && |p.failedAge| < rc.batch
    ensures id !in Sweep(s, p).history
  {
    var h := s.history;
    AgedExactly(rc, now, h[id]);
    SweptHistory(s, p);
    Complete(p.completedAge, Aged(rc, now, h, Completed), rc.batch);
    Complete(p.failedAge, Aged(rc, now, h - p.completedAge, Failed), rc.batch);
    assert id in (if h[id].outcome.Completed? then Aged(rc, now, h, Completed)
                  else Aged(rc, now, h - p.completedAge, Failed)) || id in p.completedAge;
  }

  /** The two count statements: none crowded out is left unless the batch ran out. */
  lemma CountPruned(rc: RetentionConfig, s: Store, p: Picks, now: int, id: Id)
    requires SweepLegal(rc, s, p, now) && |p.completedCount| < rc.batch && |p.failedCount| < rc.batch
    requires id in Sweep(s, p).history
    ensures !Crowded(rc, Sweep(s, p).history, id)
  {
    var h2 := s.history - p.completedAge - p.failedAge;
    var h3 := h2 - p.completedCount;
    SweptHistory(s, p);
    FourRemovals(s.history, p);
    Complete(p.completedCount, Overflow(rc, h2, Completed), rc.batch);
    Complete(p.failedCount, Overflow(rc, h3, Failed), rc.batch);
    assert !IsOverflow(rc, h2, id) || h2[id].outcome.Failed?;
    assert !IsOverflow(rc, h3, id) || h3[id].outcome.Completed?;
    if h2[id].outcome.Completed? { SurvivorStays(rc, now, h2, p.completedCount, id); }
    assert !IsOverflow(rc, h3, id);
    SurvivorStays(rc, now, h3, p.failedCount, id);
    OverflowExactly(rc, h3 - p.failedCount, id);
  }

  // ---- The other tables ----

  /** Receipts go only if their job is in neither table, and none such is left unless the batch ran out. */
  lemma ReceiptsPruned(rc: RetentionConfig, s: Store, p: Picks, now: int, slot: Slot)
    requires SweepLegal(rc, s, p, now) && slot in s.receipts
    ensures var t, id := Sweep(s, p), s.receipts[slot].jobId;
            && (slot in t.receipts ==> t.receipts[slot] == s.receipts[slot])
            && (slot !in t.receipts ==> id !in t.jobs && id !in t.history)
            && (|p.receipts| < rc.batch && id !in t.jobs && id !in t.history ==> slot !in t.receipts)
  {
    SweptHistory(s, p);
    Complete(p.receipts, Orphans(s.receipts, s.jobs, s.history - PassGone(p)), rc.batch);
  }

  /** Trace counters go only after the idle time, which 0 makes endless. */
  lemma ChainsPruned(rc: RetentionConfig, s: Store, p: Picks, now: int, trace: string)
    requires SweepLegal(rc, s, p, now) && trace in s.chains
    ensures var t := Sweep(s, p);
            var idle := rc.chainTtlMs > 0 && s.chains[trace].updatedAt < SatAdd(now, 0 - rc.chainTtlMs);
            && (trace in t.chains ==> t.chains[trace] == s.chains[trace])
            && (trace !in t.chains ==> idle)
            && (|p.chains| < rc.batch && idle ==> trace !in t.chains)
  {
    Complete(p.chains, IdleChains(rc, now, s.chains), rc.batch);
  }

  /** Turns go only after the idle time, and only of facets without a live job. */
  lemma FacetsPruned(rc: RetentionConfig, s: Store, p: Picks, now: int, f: string)
    requires SweepLegal(rc, s, p, now) && f in s.facets
    ensures var t := Sweep(s, p);
            var idle := rc.facetTtlMs > 0 && s.facets[f].at < SatAdd(now, 0 - rc.facetTtlMs)
                        && forall id | id in s.jobs ::
                             f != if s.jobs[id].card.facet.Some? then s.jobs[id].card.facet.value else "";
            && (f in t.facets ==> t.facets[f] == s.facets[f])
            && (f !in t.facets ==> idle)
            && (|p.facets| < rc.batch && idle ==> f !in t.facets)
  {
    Complete(p.facets, IdleFacets(rc, now, s.facets, s.jobs), rc.batch);
  }

  /** Rejections go only when they are old enough. */
  lemma RejectionsPruned(rc: RetentionConfig, s: Store, p: Picks, now: int, n: nat)
    requires SweepLegal(rc, s, p, now) && n in s.rejections
    ensures var t := Sweep(s, p);
            var aged := rc.rejectionsAgeMs > 0 && s.rejections[n].at < SatAdd(now, 0 - rc.rejectionsAgeMs);
            && (n in t.rejections ==> t.rejections[n] == s.rejections[n])
            && (n !in t.rejections ==> aged)
            && (|p.rejections| < rc.batch && aged ==> n !in t.rejections)
  {
    Complete(p.rejections, OldRejections(rc, now, s.rejections), rc.batch);
  }

  /** The rows of the tables that a pass prunes. */
  function Rows(s: Store): nat {
    |s.history| + |s.receipts| + |s.chains| + |s.facets| + |s.rejections|
  }

  lemma FewerBy<K, V>(m: map<K, V>, gone: set<K>)
    requires gone <= m.Keys
    ensures |m - gone| == |m| - |gone|
  {
    assert m.Keys == (m - gone).Keys + gone;
  }

  lemma HistoryDeleted(rc: RetentionConfig, h: History, p: Picks, now: int)
    requires PassLegal(rc, now, h, p)
    ensures |h| - |h - PassGone(p)| ==
            |p.completedAge| + |p.failedAge| + |p.completedCount| + |p.failedCount|
  {
    var h1 := h - p.completedAge;
    var h2 := h1 - p.failedAge;
    var h3 := h2 - p.completedCount;
    FewerBy(h, p.completedAge);
    FewerBy(h1, p.failedAge);
    FewerBy(h2, p.completedCount);
    FewerBy(h3, p.failedCount);
    FourRemovals(h, p);
  }

  /** The picks are as many as the rows that go. */
  lemma Deleted(rc: RetentionConfig, s: Store, p: Picks, now: int)
    requires SweepLegal(rc, s, p, now)
    ensures Rows(s) - Rows(Sweep(s, p)) ==
            |p.completedAge| + |p.failedAge| + |p.completedCount| + |p.failedCount|
            + |p.receipts| + |p.chains| + |p.facets| + |p.rejections|
  {
    HistoryDeleted(rc, s.history, p, now);
    SweptHistory(s, p);
    FewerBy(s.receipts, p.receipts);
    FewerBy(s.chains, p.chains);
    FewerBy(s.facets, p.facets);
    FewerBy(s.rejections, p.rejections);
  }

  /** Of the rows too old, those that finished first go first. */
  lemma OldestGoFirst(rc: RetentionConfig, s: Store, p: Picks, now: int, x: Id, y: Id)
    requires SweepLegal(rc, s, p, now) && x in p.completedAge + p.failedAge
    requires y in Sweep(s, p).history && TooOld(rc, now, s.history[y])
    ensures x in s.history && (s.history[x].outcome == s.history[y].outcome ==>
                                 s.history[x].finishedAt <= s.history[y].finishedAt)
  {
    SweptHistory(s, p);
    AgedExactly(rc, now, s.history[y]);
    var h, h1 := s.history, s.history - p.completedAge;
    assert x in p.completedAge ==> x in Aged(rc, now, h, Completed);
    assert x in p.failedAge ==> x in Aged(rc, now, h1, Failed);
    assert y in (if h[y].outcome.Completed? then Aged(rc, now, h, Completed) else Aged(rc, now, h1, Failed));
  }

  /** Nothing else changes. */
  lemma SweepFrame(s: Store, p: Picks)
    ensures var t := Sweep(s, p);
            t == s.(history := t.history, receipts := t.receipts, chains := t.chains, facets := t.facets,
                    rejections := t.rejections, gauges := t.gauges)
  {
  }
}
