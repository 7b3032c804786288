/**
  The retention sweep.  Each prune deletes a bounded set of rows; where SQL
  leaves open which rows fill the bound, the choice is the database's and comes
  in as part of the step.
 */
module Retention {
  import opened Tables
  import opened Telemetry
  import opened Queries
  import opened Lifecycle
  import opened Dispatch
  import opened Sets

  /** Retention settings after validation; 0 disables a bound. */
  datatype RetentionConfig = RetentionConfig(
    completedAgeMs: nat,
    completedCount: nat,
    failedAgeMs: nat,
    failedCount: nat,
    chainTtlMs: nat,
    facetTtlMs: nat,
    rejectionsAgeMs: nat,
    batch: nat)

  /** Which rows each statement of a sweep deletes. */
  datatype Picks = Picks(
    completedAge: set<Id>,
    failedAge: set<Id>,
    completedCount: set<Id>,
    failedCount: set<Id>,
    receipts: set<Slot>,
    chains: set<string>,
    facets: set<string>,
    rejections: set<nat>)

  function AgeOf(rc: RetentionConfig, o: Outcome): nat {
    if o.Completed? then rc.completedAgeMs else rc.failedAgeMs
  }

  function KeepOf(rc: RetentionConfig, o: Outcome): nat {
    if o.Completed? then rc.completedCount else rc.failedCount
  }

  function Cutoff(now: int, ageMs: nat): int {
    SatAdd(now, 0 - ageMs)
  }

  // ---- History ----

  /** `prune_age` looks at the rows of one state that finished before the cutoff. */
  predicate IsAged(rc: RetentionConfig, now: int, a: Archived) {
    AgeOf(rc, a.outcome) > 0 && a.finishedAt < Cutoff(now, AgeOf(rc, a.outcome))
  }

  function Aged(rc: RetentionConfig, now: int, h: History, o: Outcome): set<Id> {
    set id | id in h && h[id].outcome == o && IsAged(rc, now, h[id])
  }

  /** The rows of one state and name with their sort keys, oldest first. */
  function Group(h: History, o: Outcome, name: string): (keys: Keys)
    ensures Sorted(keys, 1)
  {
    map id | id in h && h[id].outcome == o && h[id].card.name == name :: [h[id].finishedAt] + Text(id)
  }

  /** Rows that sort after `x`: in `ORDER BY finished_at DESC, id DESC`, those numbered before it. */
  function Above(keys: Keys, x: Id): set<Id>
    requires x in keys
  {
    set y | y in keys && y != x && Leq(keys[x], keys[y])
  }

  predicate IsOverflow(rc: RetentionConfig, h: History, id: Id)
    requires id in h
  {
    var o := h[id].outcome;
    KeepOf(rc, o) > 0 && |Above(Group(h, o, h[id].card.name), id)| >= KeepOf(rc, o)
  }

  function Overflow(rc: RetentionConfig, h: History, o: Outcome): set<Id> {
    set id | id in h && h[id].outcome == o && IsOverflow(rc, h, id)
  }

  /** A bounded delete takes as many candidates as the batch allows. */
  predicate Bounded<T>(gone: set<T>, candidates: set<T>, batch: nat) {
    gone <= candidates && |gone| == if batch < |candidates| then batch else |candidates|
  }

  predicate OldestGo(h: History, gone: set<Id>, candidates: set<Id>) {
    forall x, y | x in gone && y in candidates && y !in gone ::
      x in h && y in h ==> h[x].finishedAt <= h[y].finishedAt
  }

  predicate PrunesAge(rc: RetentionConfig, now: int, h: History, o: Outcome, gone: set<Id>) {
    Bounded(gone, Aged(rc, now, h, o), rc.batch) && OldestGo(h, gone, Aged(rc, now, h, o))
  }

  predicate PrunesCount(rc: RetentionConfig, h: History, o: Outcome, gone: set<Id>) {
    Bounded(gone, Overflow(rc, h, o), rc.batch)
  }

  /** The four history statements, each on what the one before left. */
  predicate PassLegal(rc: RetentionConfig, now: int, h: History, p: Picks) {
    var h1 := h - p.completedAge;
    var h2 := h1 - p.failedAge;
    var h3 := h2 - p.completedCount;
    && PrunesAge(rc, now, h, Completed, p.completedAge)
    && PrunesAge(rc, now, h1, Failed, p.failedAge)
    && PrunesCount(rc, h2, Completed, p.completedCount)
    && PrunesCount(rc, h3, Failed, p.failedCount)
  }

  function PassGone(p: Picks): set<Id> {
    p.completedAge + p.failedAge + p.completedCount + p.failedCount
  }

  // ---- The other tables ----

  function Orphans(receipts: Receipts, jobs: Jobs, h: History): set<Slot> {
    set slot | slot in receipts && receipts[slot].jobId !in jobs && receipts[slot].jobId !in h
  }

  function IdleChains(rc: RetentionConfig, now: int, chains: map<string, ChainRow>): set<string> {
    set t | t in chains && rc.chainTtlMs > 0 && chains[t].updatedAt < Cutoff(now, rc.chainTtlMs)
  }

  function IdleFacets(rc: RetentionConfig, now: int, facets: map<string, Served>, jobs: Jobs): set<string> {
    set f | f in facets && rc.facetTtlMs > 0 && facets[f].at < Cutoff(now, rc.facetTtlMs)
            && (forall id | id in jobs :: FacetKey(jobs[id]) != f)
  }

  function OldRejections(rc: RetentionConfig, now: int, rows: map<nat, Rejection>): set<nat> {
    set n | n in rows && rc.rejectionsAgeMs > 0 && rows[n].at < Cutoff(now, rc.rejectionsAgeMs)
  }

  predicate SweepLegal(rc: RetentionConfig, s: Store, p: Picks, now: int) {
    && PassLegal(rc, now, s.history, p)
    && Bounded(p.receipts, Orphans(s.receipts, s.jobs, s.history - PassGone(p)), rc.batch)
    && Bounded(p.chains, IdleChains(rc, now, s.chains), rc.batch)
    && Bounded(p.facets, IdleFacets(rc, now, s.facets, s.jobs), rc.batch)
    && Bounded(p.rejections, OldRejections(rc, now, s.rejections), rc.batch)
  }

  function SweptGauges(g: Gauges, p: Picks): Gauges {
    g.(completed := g.completed - |p.completedAge| - |p.completedCount|,
       failed := g.failed - |p.failedAge| - |p.failedCount|)
  }

  function Sweep(s: Store, p: Picks): Store {
    s.(history := s.history - PassGone(p),
       receipts := s.receipts - p.receipts,
       chains := s.chains - p.chains,
       facets := s.facets - p.facets,
       rejections := s.rejections - p.rejections,
       gauges := SweptGauges(s.gauges, p))
  }

  lemma SweepIsMove(cfg: Config, v: View, s: Store, p: Picks)
    requires v.jobs == s.jobs && v.history == s.history
    ensures Happens(cfg, v, Prune(PassGone(p)), Sweep(s, p).jobs, Sweep(s, p).history)
  {
  }

  /** A sweep touches no live job, and no receipt whose job is live or still in history. */
  lemma SweepSpares(rc: RetentionConfig, s: Store, p: Picks, now: int)
    requires SweepLegal(rc, s, p, now)
    ensures Sweep(s, p).jobs == s.jobs
    ensures forall slot | slot in s.receipts
              && (s.receipts[slot].jobId in s.jobs || s.receipts[slot].jobId in Sweep(s, p).history) ::
              slot in Sweep(s, p).receipts && Sweep(s, p).receipts[slot] == s.receipts[slot]
  {
  }

  // ---- Survivors ----

  predicate Survives(rc: RetentionConfig, now: int, h: History, id: Id)
    requires id in h
  {
    !IsAged(rc, now, h[id]) && !IsOverflow(rc, h, id)
  }

  /** The rows that are both within the age cutoff and among the newest of their name. */
  function Survivors(rc: RetentionConfig, now: int, h: History): set<Id> {
    set id | id in h && Survives(rc, now, h, id)
  }

  // ---- Ranks ----

  function Top(keys: Keys, k: nat): set<Id> {
    set x | x in keys && |Above(keys, x)| < k
  }

  /** The oldest row lies below all others, and below none of them. */
  lemma AboveFirst(keys: Keys, m: Id, x: Id)
    requires Sorted(keys, 1) && IsFirst(keys, m) && x in keys
    ensures x == m ==> Above(keys, x) == keys.Keys - {m}
    ensures x != m ==> x in keys - {m} && Above(keys, x) == Above(keys - {m}, x)
  {
    if x != m && m in Above(keys, x) {
      LeqAntisymmetric(keys[x], keys[m]);
      KeysDistinct(keys, 1, x, m);
    }
  }

  /** Whether a row is among the top `k`, with the oldest row `m` set apart. */
  lemma TopWithFirst(keys: Keys, k: nat, m: Id, x: Id)
    requires Sorted(keys, 1) && IsFirst(keys, m) && x in keys && k < |keys|
    ensures x in Top(keys, k) <==> x in Top(keys - {m}, k)
  {
    AboveFirst(keys, m, x);
    assert keys.Keys == (keys.Keys - {m}) + {m};
  }

  lemma TopOfAll(keys: Keys)
    ensures Top(keys, |keys|) == keys.Keys
  {
    forall x | x in keys ensures x in Top(keys, |keys|) { AboveSmall(keys, x); }
  }

  /** Exactly `k` rows have fewer than `k` rows above them. */
  lemma {:induction false} TopSize(keys: Keys, k: nat)
    requires Sorted(keys, 1) && k <= |keys|
    ensures |Top(keys, k)| == k
    decreases |keys|
  {
    if k == |keys| {
      TopOfAll(keys);
    } else {
      FirstExists(keys);
      var m :| IsFirst(keys, m);
      var rest := keys - {m};
      assert keys.Keys == rest.Keys + {m};
      SortedWithout(keys, 1, {m});
      TopSize(rest, k);
      forall x | x in keys ensures x in Top(keys, k) <==> x in Top(rest, k) { TopWithFirst(keys, k, m, x); }
      assert Top(keys, k) == Top(rest, k);
    }
  }

  lemma AboveSmall(keys: Keys, x: Id)
    requires x in keys
    ensures |Above(keys, x)| < |keys|
  {
    var others := keys.Keys - {x};
    assert Above(keys, x) <= others;
    SubsetSize(Above(keys, x), others);
  }

  /** A row with few above it lies above a row with many above it. */
  lemma TopIsAbove(keys: Keys, k: nat, x: Id, y: Id)
    requires Sorted(keys, 1) && x in Top(keys, k) && y in keys && |Above(keys, y)| >= k
    ensures x in Above(keys, y)
  {
    LeqTotal(keys[x], keys[y]);
    if !Leq(keys[y], keys[x]) {
      forall z | z in Above(keys, y) ensures z in Above(keys, x) {
        LeqTransitive(keys[x], keys[y], keys[z]);
      }
      SubsetSize(Above(keys, y), Above(keys, x));
    }
  }

  // ---- Deleting rows that do not survive changes nobody's fate ----

  lemma GroupWithout(h: History, gone: set<Id>, o: Outcome, name: string)
    ensures Group(h - gone, o, name) == Group(h, o, name) - gone
  {
  }

  /** The newest rows of a name that is over its limit are all newer than an overflow row in time. */
  lemma TopSurvives(rc: RetentionConfig, now: int, h: History, id: Id, x: Id)
    requires id in h && IsOverflow(rc, h, id) && !IsAged(rc, now, h[id])
    requires x in Top(Group(h, h[id].outcome, h[id].card.name), KeepOf(rc, h[id].outcome))
    ensures x in Survivors(rc, now, h)
    ensures x in Above(Group(h, h[id].outcome, h[id].card.name), id)
  {
    var keys := Group(h, h[id].outcome, h[id].card.name);
    TopIsAbove(keys, KeepOf(rc, h[id].outcome), x, id);
    assert Leq(keys[id], keys[x]);
    assert keys[id][0] == h[id].finishedAt && keys[x][0] == h[x].finishedAt;
    assert h[id].finishedAt <= h[x].finishedAt;
  }

  lemma OverflowStays(rc: RetentionConfig, now: int, h: History, gone: set<Id>, id: Id)
    requires id in h && id !in gone && gone !! Survivors(rc, now, h)
    requires IsOverflow(rc, h, id) && !IsAged(rc, now, h[id])
    ensures IsOverflow(rc, h - gone, id)
  {
    var o, name := h[id].outcome, h[id].card.name;
    var keys, k := Group(h, o, name), KeepOf(rc, o);
    GroupWithout(h, gone, o, name);
    AboveSmall(keys, id);
    TopSize(keys, k);
    forall x | x in Top(keys, k) ensures x in Above(keys - gone, id) {
      TopSurvives(rc, now, h, id, x);
    }
    SubsetSize(Top(keys, k), Above(keys - gone, id));
  }

  lemma SurvivorStays(rc: RetentionConfig, now: int, h: History, gone: set<Id>, id: Id)
    requires id in h && id !in gone && !IsOverflow(rc, h, id)
    ensures !IsOverflow(rc, h - gone, id)
  {
    var o, name := h[id].outcome, h[id].card.name;
    var keys := Group(h, o, name);
    GroupWithout(h, gone, o, name);
    assert Above(keys - gone, id) <= Above(keys, id);
    SubsetSize(Above(keys - gone, id), Above(keys, id));
  }

  /** Deleting rows outside the survivors leaves exactly the same survivors. */
  lemma SurvivorsStable(rc: RetentionConfig, now: int, h: History, gone: set<Id>)
    requires gone !! Survivors(rc, now, h)
    ensures Survivors(rc, now, h - gone) == Survivors(rc, now, h)
  {
    forall id: Id ensures id in Survivors(rc, now, h - gone) <==> id in Survivors(rc, now, h) {
      if id in h && id !in gone {
        if IsOverflow(rc, h, id) {
          if !IsAged(rc, now, h[id]) { OverflowStays(rc, now, h, gone, id); }
        } else {
          SurvivorStays(rc, now, h, gone, id);
        }
      }
    }
  }

  // ---- One pass ----

  /** One statement keeps the survivors and deletes only other rows. */
  lemma StatementKeepsSurvivors(rc: RetentionConfig, now: int, h: History, o: Outcome, gone: set<Id>)
    requires PrunesAge(rc, now, h, o, gone) || PrunesCount(rc, h, o, gone)
    ensures Survivors(rc, now, h - gone) == Survivors(rc, now, h)
    ensures gone <= h.Keys
  {
    assert gone !! Survivors(rc, now, h);
    SurvivorsStable(rc, now, h, gone);
  }

  lemma FourRemovals(h: History, p: Picks)
    ensures h - p.completedAge - p.failedAge - p.completedCount - p.failedCount == h - PassGone(p)
  {
  }

  lemma SurvivorsAreRows(rc: RetentionConfig, now: int, h: History)
    ensures Survivors(rc, now, h) <= h.Keys
  {
  }

  /** A pass keeps the survivors and deletes only other rows. */
  lemma PassKeepsSurvivors(rc: RetentionConfig, now: int, h: History, p: Picks)
    requires PassLegal(rc, now, h, p)
    ensures Survivors(rc, now, h - PassGone(p)) == Survivors(rc, now, h)
    ensures Survivors(rc, now, h) <= (h - PassGone(p)).Keys
    ensures PassGone(p) <= h.Keys
  {
    StatementKeepsSurvivors(rc, now, h, Completed, p.completedAge);
    StatementKeepsSurvivors(rc, now, h - p.completedAge, Failed, p.failedAge);
    StatementKeepsSurvivors(rc, now, h - p.completedAge - p.failedAge, Completed, p.completedCount);
    StatementKeepsSurvivors(rc, now, h - p.completedAge - p.failedAge - p.completedCount, Failed, p.failedCount);
    FourRemovals(h, p);
    SurvivorsAreRows(rc, now, h - PassGone(p));
  }

  lemma BoundedProgresses<T>(gone: set<T>, candidates: set<T>, batch: nat, x: T)
    requires Bounded(gone, candidates, batch) && batch > 0 && x in candidates
    ensures gone != {}
  {
    SubsetSize({x}, candidates);
  }

  lemma AgedProgresses(rc: RetentionConfig, now: int, h: History, p: Picks, id: Id)
    requires PassLegal(rc, now, h, p) && rc.batch > 0 && id in h && IsAged(rc, now, h[id]) && p.completedAge == {}
    ensures p.failedAge != {}
  {
    assert h - {} == h;
    var o := h[id].outcome;
    BoundedProgresses(if o.Completed? then p.completedAge else p.failedAge, Aged(rc, now, h, o), rc.batch, id);
  }

  lemma OverflowProgresses(rc: RetentionConfig, now: int, h: History, p: Picks, id: Id)
    requires PassLegal(rc, now, h, p) && rc.batch > 0 && id in h && IsOverflow(rc, h, id)
    requires p.completedAge == {} && p.failedAge == {} && p.completedCount == {}
    ensures p.failedCount != {}
  {
    assert h - {} == h;
    var o := h[id].outcome;
    BoundedProgresses(if o.Completed? then p.completedCount else p.failedCount, Overflow(rc, h, o), rc.batch, id);
  }

  /** With a positive batch, a pass over a history that holds a row not to be kept deletes at least one. */
  lemma PassProgresses(rc: RetentionConfig, now: int, h: History, p: Picks, id: Id)
    requires PassLegal(rc, now, h, p) && rc.batch > 0 && id in h && !Survives(rc, now, h, id)
    ensures PassGone(p) != {}
  {
    if p.completedAge != {} {
      var x :| x in p.completedAge;
      assert x in PassGone(p);
    } else if p.failedAge != {} {
      var x :| x in p.failedAge;
      assert x in PassGone(p);
    } else if IsAged(rc, now, h[id]) {
      AgedProgresses(rc, now, h, p, id);
    } else if p.completedCount != {} {
      var x :| x in p.completedCount;
      assert x in PassGone(p);
    } else {
      OverflowProgresses(rc, now, h, p, id);
      var x :| x in p.failedCount;
      assert x in PassGone(p);
    }
  }

  // ---- Repeated passes ----

  /** Passes at one clock reading over a history that gains no rows. */
  ghost predicate Passes(rc: RetentionConfig, now: int, hs: seq<History>, ps: seq<Picks>) {
    && |hs| == |ps| + 1
    && forall i | 0 <= i < |ps| :: PassLegal(rc, now, hs[i], ps[i]) && hs[i + 1] == hs[i] - PassGone(ps[i])
  }

  lemma FewerRows(h: History, gone: set<Id>)
    requires gone * h.Keys != {}
    ensures |h - gone| < |h|
  {
    var x :| x in gone * h.Keys;
    SubsetSize((h - gone).Keys, h.Keys - {x});
  }

  /**
    Whatever rows the passes pick, they agree on the outcome: the survivors of the first history
    are never deleted, and after as many passes as there were rows they are all that is left.
   */
  lemma {:induction false} RetentionConfluent(rc: RetentionConfig, now: int, hs: seq<History>, ps: seq<Picks>, n: nat)
    requires Passes(rc, now, hs, ps) && n <= |ps| && rc.batch > 0
    ensures Survivors(rc, now, hs[n]) == Survivors(rc, now, hs[0])
    ensures Survivors(rc, now, hs[0]) <= hs[n].Keys <= hs[0].Keys
    ensures forall id | id in hs[n] :: hs[n][id] == hs[0][id]
    ensures hs[n].Keys == Survivors(rc, now, hs[0]) || |hs[n]| + n <= |hs[0]|
    ensures n >= |hs[0]| ==> hs[n].Keys == Survivors(rc, now, hs[0])
  {
    if n > 0 {
      RetentionConfluent(rc, now, hs, ps, n - 1);
      PassShrinks(rc, now, hs[n - 1], ps[n - 1]);
    } else {
      SurvivorsAreRows(rc, now, hs[0]);
    }
    if n >= |hs[0]| && |hs[n]| + n <= |hs[0]| {
      assert hs[n] == map[];
    }
  }

  lemma Shrinks(h: History, gone: set<Id>, keep: set<Id>)
    requires gone <= h.Keys && keep <= (h - gone).Keys && (h.Keys != keep ==> gone != {})
    ensures h.Keys == keep ==> (h - gone).Keys == h.Keys
    ensures h.Keys != keep ==> |h - gone| < |h|
  {
    if h.Keys != keep {
      assert gone * h.Keys == gone;
      FewerRows(h, gone);
    }
  }

  lemma PassTakesSome(rc: RetentionConfig, now: int, h: History, p: Picks)
    requires PassLegal(rc, now, h, p) && rc.batch > 0 && h.Keys != Survivors(rc, now, h)
    ensures PassGone(p) != {}
  {
    SurvivorsAreRows(rc, now, h);
    var id := Missing(Survivors(rc, now, h), h.Keys);
    PassProgresses(rc, now, h, p, id);
  }

  lemma Missing<T>(a: set<T>, b: set<T>) returns (x: T)
    requires a <= b && a != b
    ensures x in b && x !in a
  {
    assert a + (b - a) == b;
    x :| x in b - a;
  }

  lemma PassShrinks(rc: RetentionConfig, now: int, h: History, p: Picks)
    requires PassLegal(rc, now, h, p) && rc.batch > 0
    ensures Survivors(rc, now, h - PassGone(p)) == Survivors(rc, now, h) <= (h - PassGone(p)).Keys
    ensures h.Keys == Survivors(rc, now, h) ==> (h - PassGone(p)).Keys == h.Keys
    ensures h.Keys != Survivors(rc, now, h) ==> |h - PassGone(p)| < |h|
  {
    PassKeepsSurvivors(rc, now, h, p);
    if h.Keys != Survivors(rc, now, h) { PassTakesSome(rc, now, h, p); }
    Shrinks(h, PassGone(p), Survivors(rc, now, h));
  }
}
