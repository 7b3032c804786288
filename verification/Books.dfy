/**
  What an observer writes down beside the database, and the laws that tie the
  two together: receipts issued, jobs entered per facet and per trace, claims
  per facet, fires per scheduler and the last clock reading.
 */
module Books {
  import opened Tables
  import opened Lifecycle
  import opened Flatten
  import opened FlowLaws
  import opened Enqueue
  import opened EnqueueLaws
  import opened ReceiptLaws
  import opened Limits
  import opened Fairness
  import Dispatch
  import Finish
  import Flow
  import FlattenLaws
  import Leases
  import Retention
  import Rules
  import Telemetry
  import Timers = Scheduler
  import Windows

  datatype Books = Books(
    issued: Issues,
    tally: Tally,
    claims: map<string, seq<int>>,
    fired: map<Id, Timers.Firing>,
    clock: int)

  const BLANK := Books(map[], NO_TALLY, map[], map[], -I64_MAX - 1)

  /** Every law; the two that depend on time only while the clock never goes back. */
  ghost predicate Kept(cfg: Config, next: Timers.Cron, s: Store, b: Books, timely: bool) {
    && ReceiptLaw(s, b.issued)
    && ChainLaw(cfg, s, b.tally)
    && Timers.TimerLaw(next, s.schedulers, b.fired)
    && Ranked(s.facets)
    && (timely ==> Timed(s, b))
  }

  ghost predicate Timed(s: Store, b: Books) {
    IngressLaw(s, b.tally, b.clock) && Windows.RateLaw(s, b.claims, b.clock)
  }

  /** The clock has not gone back and is nowhere near the end of its range. */
  ghost predicate OnTime(s: Store, b: Books, now: int) {
    b.clock <= now && Windows.FarFromEnd(s.rateRules, now)
  }

  lemma BlankIsKept(cfg: Config, next: Timers.Cron)
    ensures Kept(cfg, next, EMPTY, BLANK, true)
  {
    forall id: Id ensures ReceiptLaws.Kept(map[], {}, {}, map[], id) && Timers.TimerAt(next, map[], map[], id) {}
    forall slot: Slot ensures Backed(map[], {}, map[], slot) {}
    forall f: string ensures IngressAt(map[], map[], NO_TALLY, BLANK.clock, f) && ChainAt(cfg, map[], NO_TALLY, f) {}
    forall f: string ensures Windows.RateAt(map[], map[], map[], BLANK.clock, f) {}
  }

  // ---- Time passes ----

  lemma IngressLater(rules: map<string, Rule>, counts: map<string, Bucket>, y: Tally, clock: int, now: int, f: string)
    requires IngressAt(rules, counts, y, clock, f) && clock <= now
    ensures IngressAt(rules, counts, y, now, f)
  {
  }

  lemma RateLater(rules: map<string, Rule>, counts: map<string, WindowCount>, claims: map<string, seq<int>>, clock: int,
                  now: int, f: string)
    requires Windows.RateAt(rules, counts, claims, clock, f) && clock <= now
    ensures Windows.RateAt(rules, counts, claims, now, f)
  {
  }

  predicate SameLimits(s: Store, t: Store) {
    t.ingressRules == s.ingressRules && t.ingressCounts == s.ingressCounts && t.rateRules == s.rateRules
    && t.rateCounts == s.rateCounts
  }

  lemma IngressUntouched(s: Store, b: Books, t: Store, y: Tally, now: int)
    requires IngressLaw(s, b.tally, b.clock) && b.clock <= now && y.entered == b.tally.entered
    requires t.ingressRules == s.ingressRules && t.ingressCounts == s.ingressCounts
    ensures IngressLaw(t, y, now)
  {
    forall f: string ensures IngressAt(t.ingressRules, t.ingressCounts, y, now, f) {
      assert IngressAt(s.ingressRules, s.ingressCounts, b.tally, b.clock, f);
      IngressLater(s.ingressRules, s.ingressCounts, b.tally, b.clock, now, f);
    }
  }

  lemma RateUntouched(s: Store, b: Books, t: Store, now: int)
    requires Windows.RateLaw(s, b.claims, b.clock) && b.clock <= now
    requires t.rateRules == s.rateRules && t.rateCounts == s.rateCounts
    ensures Windows.RateLaw(t, b.claims, now)
  {
    forall f: string ensures Windows.RateAt(t.rateRules, t.rateCounts, b.claims, now, f) {
      assert Windows.RateAt(s.rateRules, s.rateCounts, b.claims, b.clock, f);
      RateLater(s.rateRules, s.rateCounts, b.claims, b.clock, now, f);
    }
  }

  lemma LimitsUntouched(s: Store, b: Books, t: Store, b': Books)
    requires Timed(s, b) && b.clock <= b'.clock && SameLimits(s, t)
    requires b'.tally.entered == b.tally.entered && b'.claims == b.claims
    ensures Timed(t, b')
  {
    IngressUntouched(s, b, t, b'.tally, b'.clock);
    RateUntouched(s, b, t, b'.clock);
  }

  lemma ChainsUntouched(cfg: Config, s: Store, b: Books, t: Store, y: Tally)
    requires ChainLaw(cfg, s, b.tally) && t.chains == s.chains && y.traced == b.tally.traced
    ensures ChainLaw(cfg, t, y)
  {
    forall x: string ensures ChainAt(cfg, t.chains, y, x) { assert ChainAt(cfg, s.chains, b.tally, x); }
  }

  predicate SameTables(s: Store, t: Store) {
    SameLimits(s, t) && t.chains == s.chains && t.schedulers == s.schedulers && t.facets == s.facets
  }

  /** A step that touches none of the tables the books are about, except perhaps receipts. */
  lemma Untouched(cfg: Config, next: Timers.Cron, s: Store, b: Books, t: Store, issued: Issues, now: int, timely: bool)
    requires Kept(cfg, next, s, b, timely) && (timely ==> b.clock <= now)
    requires SameTables(s, t) && ReceiptLaw(t, issued)
    ensures Kept(cfg, next, t, b.(issued := issued, clock := now), timely)
  {
    ChainsUntouched(cfg, s, b, t, b.tally);
    if timely { LimitsUntouched(s, b, t, b.(issued := issued, clock := now)); }
  }

  // ---- Jobs ----

  /** An enqueue writes nothing but jobs, receipts, chain and ingress counters and gauges. */
  predicate OnlyEnqueues(s: Store, t: Store) {
    t == s.(jobs := t.jobs, receipts := t.receipts, chains := t.chains, ingressCounts := t.ingressCounts,
            gauges := t.gauges)
  }

  lemma EnqueueFrame(cfg: Config, s: Store, r: AddJobRequest, id: Id, trace: string, now: int)
    requires EnqueueOne(cfg, s, r, id, trace, now).Admitted?
    ensures OnlyEnqueues(s, EnqueueOne(cfg, s, r, id, trace, now).store)
  {
  }

  lemma {:induction false} BatchFrame(cfg: Config, s: Store, items: seq<Item>, now: int)
    requires EnqueueAll(cfg, s, items, now).Done?
    ensures OnlyEnqueues(s, EnqueueAll(cfg, s, items, now).store)
  {
    if items != [] {
      var n := |items| - 1;
      BatchFrame(cfg, s, items[..n], now);
      var x, t := items[n], EnqueueAll(cfg, s, items[..n], now).store;
      EnqueueFrame(cfg, t, x.request, x.id, x.freshTrace, now);
    }
  }

  lemma BatchKeepsTime(cfg: Config, s: Store, b: Books, items: seq<Item>, now: int)
    requires Timed(s, b) && b.clock <= now && EnqueueAll(cfg, s, items, now).Done?
    ensures Timed(EnqueueAll(cfg, s, items, now).store,
                  b.(tally := BatchTally(cfg, s, b.tally, items, now), clock := now))
  {
    var t, y := EnqueueAll(cfg, s, items, now).store, BatchTally(cfg, s, b.tally, items, now);
    BatchFrame(cfg, s, items, now);
    forall f: string ensures IngressAt(t.ingressRules, t.ingressCounts, y, now, f) {
      assert IngressAt(s.ingressRules, s.ingressCounts, b.tally, b.clock, f);
      BatchKeepsIngress(cfg, s, b.tally, b.clock, items, now, f);
    }
    RateUntouched(s, b, t, now);
  }

  lemma BatchKeepsChains(cfg: Config, s: Store, y: Tally, items: seq<Item>, now: int)
    requires ChainLaw(cfg, s, y) && EnqueueAll(cfg, s, items, now).Done?
    ensures ChainLaw(cfg, EnqueueAll(cfg, s, items, now).store, BatchTally(cfg, s, y, items, now))
  {
    var t, y' := EnqueueAll(cfg, s, items, now).store, BatchTally(cfg, s, y, items, now);
    forall x: string ensures ChainAt(cfg, t.chains, y', x) {
      assert ChainAt(cfg, s.chains, y, x);
      BatchKeepsChain(cfg, s, y, items, now, x);
    }
  }

  function AfterBatch(cfg: Config, s: Store, b: Books, items: seq<Item>, now: int): Books {
    b.(issued := b.issued + BatchIssues(cfg, s, items, now), tally := BatchTally(cfg, s, b.tally, items, now),
       clock := now)
  }

  lemma BatchKeepsBooks(cfg: Config, next: Timers.Cron, s: Store, b: Books, items: seq<Item>, now: int, timely: bool)
    requires Kept(cfg, next, s, b, timely) && (timely ==> b.clock <= now)
    requires Unissued(b.issued, items) && EnqueueAll(cfg, s, items, now).Done?
    ensures Kept(cfg, next, EnqueueAll(cfg, s, items, now).store, AfterBatch(cfg, s, b, items, now), timely)
  {
    BatchFrame(cfg, s, items, now);
    BatchKeepsReceipts(cfg, s, b.issued, items, now);
    BatchKeepsChains(cfg, s, b.tally, items, now);
    if timely { BatchKeepsTime(cfg, s, b, items, now); }
  }

  // ---- Fires ----

  function ShotOf(cfg: Config, row: Scheduler, job: Id, trace: string): Item
    requires Validate(cfg, Timers.BuildRequest(row)).Ok?
  {
    Item(Validate(cfg, Timers.BuildRequest(row)).value, job, trace)
  }

  function AfterFire(cfg: Config, next: Timers.Cron, s: Store, b: Books, id: Id, job: Id, trace: string,
                     selectedAt: int, now: int): Books
    requires id in s.schedulers
  {
    var row := s.schedulers[id];
    if Timers.Fire(cfg, next, s, id, row, job, trace, now).None? then b.(clock := now)
    else
      var item := ShotOf(cfg, row, job, trace);
      b.(tally := Tallied(b.tally, EnqueueOne(cfg, s, item.request, job, trace, now), item, now),
         fired := Timers.Noted(b.fired, id, selectedAt, now),
         clock := now)
  }

  lemma FireIsEnqueue(cfg: Config, next: Timers.Cron, s: Store, id: Id, job: Id, trace: string, now: int)
    requires id in s.schedulers && Timers.Fire(cfg, next, s, id, s.schedulers[id], job, trace, now).Some?
    ensures var item := ShotOf(cfg, s.schedulers[id], job, trace);
            var a := EnqueueOne(cfg, s, item.request, job, trace, now);
            var t := Timers.Fire(cfg, next, s, id, s.schedulers[id], job, trace, now).value;
            && IsNew(a) && item.request.key == ""
            && t == a.store.(schedulers := t.schedulers)
  {
  }

  lemma FireKeepsLimits(cfg: Config, next: Timers.Cron, s: Store, b: Books, id: Id, job: Id, trace: string,
                        selectedAt: int, now: int)
    requires Timed(s, b) && b.clock <= now && id in s.schedulers
    requires Timers.Fire(cfg, next, s, id, s.schedulers[id], job, trace, now).Some?
    ensures Timed(Timers.Fire(cfg, next, s, id, s.schedulers[id], job, trace, now).value,
                  AfterFire(cfg, next, s, b, id, job, trace, selectedAt, now))
  {
    FireIsEnqueue(cfg, next, s, id, job, trace, now);
    var item := ShotOf(cfg, s.schedulers[id], job, trace);
    var a := EnqueueOne(cfg, s, item.request, job, trace, now);
    var t := Timers.Fire(cfg, next, s, id, s.schedulers[id], job, trace, now).value;
    var b' := AfterFire(cfg, next, s, b, id, job, trace, selectedAt, now);
    EnqueueFrame(cfg, s, item.request, job, trace, now);
    forall f: string ensures IngressAt(t.ingressRules, t.ingressCounts, b'.tally, now, f) {
      assert IngressAt(s.ingressRules, s.ingressCounts, b.tally, b.clock, f);
      EnqueueKeepsIngress(cfg, s, b.tally, b.clock, item, now, f);
    }
    RateUntouched(s, b, t, now);
  }

  lemma FireKeepsChains(cfg: Config, next: Timers.Cron, s: Store, b: Books, id: Id, job: Id, trace: string,
                        selectedAt: int, now: int)
    requires ChainLaw(cfg, s, b.tally) && id in s.schedulers
    requires Timers.Fire(cfg, next, s, id, s.schedulers[id], job, trace, now).Some?
    ensures ChainLaw(cfg, Timers.Fire(cfg, next, s, id, s.schedulers[id], job, trace, now).value,
                     AfterFire(cfg, next, s, b, id, job, trace, selectedAt, now).tally)
  {
    FireIsEnqueue(cfg, next, s, id, job, trace, now);
    var item := ShotOf(cfg, s.schedulers[id], job, trace);
    var t := Timers.Fire(cfg, next, s, id, s.schedulers[id], job, trace, now).value;
    var b' := AfterFire(cfg, next, s, b, id, job, trace, selectedAt, now);
    forall x: string ensures ChainAt(cfg, t.chains, b'.tally, x) {
      assert ChainAt(cfg, s.chains, b.tally, x);
      EnqueueKeepsChain(cfg, s, b.tally, item, now, x);
    }
  }

  lemma FireKeepsTimers(cfg: Config, next: Timers.Cron, s: Store, b: Books, id: Id, job: Id, trace: string,
                        selectedAt: int, now: int)
    requires Timers.TimerLaw(next, s.schedulers, b.fired) && Timers.Due(s.schedulers, id, selectedAt)
    requires Timers.Fire(cfg, next, s, id, s.schedulers[id], job, trace, now).Some?
    ensures Timers.TimerLaw(next, Timers.Fire(cfg, next, s, id, s.schedulers[id], job, trace, now).value.schedulers,
                            Timers.Noted(b.fired, id, selectedAt, now))
  {
    var rows := Timers.Fire(cfg, next, s, id, s.schedulers[id], job, trace, now).value.schedulers;
    forall x: Id ensures Timers.TimerAt(next, rows, Timers.Noted(b.fired, id, selectedAt, now), x) {
      assert Timers.TimerAt(next, s.schedulers, b.fired, x);
      Timers.FireKeepsTimer(cfg, next, s, b.fired, id, job, trace, selectedAt, now, x);
    }
  }

  lemma FireKeepsReceipts(cfg: Config, next: Timers.Cron, s: Store, issued: Issues, id: Id, job: Id, trace: string,
                          now: int)
    requires ReceiptLaw(s, issued) && job !in issued && id in s.schedulers
    requires Timers.Fire(cfg, next, s, id, s.schedulers[id], job, trace, now).Some?
    ensures ReceiptLaw(Timers.Fire(cfg, next, s, id, s.schedulers[id], job, trace, now).value, issued)
  {
    FireIsEnqueue(cfg, next, s, id, job, trace, now);
    EnqueueKeepsReceipts(cfg, s, issued, ShotOf(cfg, s.schedulers[id], job, trace), now);
    assert issued + map[] == issued;
  }

  lemma FireKeepsBooks(cfg: Config, next: Timers.Cron, s: Store, b: Books, id: Id, job: Id, trace: string,
                       selectedAt: int, now: int, timely: bool)
    requires Kept(cfg, next, s, b, timely) && (timely ==> b.clock <= now)
    requires Timers.Due(s.schedulers, id, selectedAt) && job !in b.issued
    requires Timers.Fire(cfg, next, s, id, s.schedulers[id], job, trace, now).Some?
    ensures Kept(cfg, next, Timers.Fire(cfg, next, s, id, s.schedulers[id], job, trace, now).value,
                 AfterFire(cfg, next, s, b, id, job, trace, selectedAt, now), timely)
  {
    FireKeepsReceipts(cfg, next, s, b.issued, id, job, trace, now);
    FireKeepsChains(cfg, next, s, b, id, job, trace, selectedAt, now);
    FireKeepsTimers(cfg, next, s, b, id, job, trace, selectedAt, now);
    FireIsEnqueue(cfg, next, s, id, job, trace, now);
    if timely { FireKeepsLimits(cfg, next, s, b, id, job, trace, selectedAt, now); }
  }

  // ---- Polls ----

  /** The facet charged for the job a poll hands out. */
  function Charged(cfg: Config, s: Store, r: Dispatch.PollRequest, now: int): Option<string> {
    if Granted(cfg, s, r, now) then s.jobs[Dispatch.Pick(cfg, s, r.names, now).value].card.facet else None
  }

  lemma PollChanges(cfg: Config, s: Store, r: Dispatch.PollRequest, now: int, now2: int)
    ensures var t := Dispatch.Poll(cfg, s, r, now, now2).0;
            && t == s.(jobs := t.jobs, rateCounts := t.rateCounts, facets := t.facets, gauges := t.gauges)
            && t.jobs.Keys == s.jobs.Keys
            && t.rateCounts == Dispatch.Consume(s, Charged(cfg, s, r, now), now)
            && (t.facets == s.facets || exists f :: Serves(s.facets, f, t.facets))
            && (Charged(cfg, s, r, now).Some? ==> !Dispatch.FacetBlocked(s, Charged(cfg, s, r, now).value, now))
  {
    if Granted(cfg, s, r, now) {
      var id := Dispatch.Pick(cfg, s, r.names, now).value;
      assert Dispatch.Eligible(s, r.names, now, id);
      var t := Dispatch.Poll(cfg, s, r, now, now2).0;
      if cfg.fairness { assert Serves(s.facets, Dispatch.FacetKey(s.jobs[id]), t.facets); }
    }
  }

  lemma PollKeepsTime(cfg: Config, s: Store, b: Books, r: Dispatch.PollRequest, now: int, now2: int)
    requires Timed(s, b) && OnTime(s, b, now)
    ensures Timed(Dispatch.Poll(cfg, s, r, now, now2).0,
                  b.(claims := Windows.Claimed(b.claims, Charged(cfg, s, r, now), now), clock := now))
  {
    var t, claims := Dispatch.Poll(cfg, s, r, now, now2).0, Windows.Claimed(b.claims, Charged(cfg, s, r, now), now);
    PollChanges(cfg, s, r, now, now2);
    IngressUntouched(s, b, t, b.tally, now);
    forall f: string ensures Windows.RateAt(t.rateRules, t.rateCounts, claims, now, f) {
      assert Windows.RateAt(s.rateRules, s.rateCounts, b.claims, b.clock, f);
      Windows.ClaimKeepsRate(s, b.claims, b.clock, Charged(cfg, s, r, now), now, f);
    }
  }

  lemma PollKeepsBooks(cfg: Config, next: Timers.Cron, s: Store, b: Books, r: Dispatch.PollRequest, now: int, now2: int,
                       timely: bool)
    requires Kept(cfg, next, s, b, timely) && (timely ==> OnTime(s, b, now))
    ensures Kept(cfg, next, Dispatch.Poll(cfg, s, r, now, now2).0,
                 b.(claims := Windows.Claimed(b.claims, Charged(cfg, s, r, now), now), clock := now), timely)
  {
    var t := Dispatch.Poll(cfg, s, r, now, now2).0;
    PollChanges(cfg, s, r, now, now2);
    ChainsUntouched(cfg, s, b, t, b.tally);
    if t.facets != s.facets {
      var f :| Serves(s.facets, f, t.facets);
      ServingRanks(s.facets, f, t.facets);
    }
    if timely { PollKeepsTime(cfg, s, b, r, now, now2); }
  }

  // ---- Sweeps ----

  function AfterSweep(b: Books, p: Retention.Picks, now: int): Books {
    b.(tally := b.tally.(traced := b.tally.traced - p.chains), clock := now)
  }

  lemma SweepKeepsBooks(cfg: Config, next: Timers.Cron, rc: Retention.RetentionConfig, s: Store, b: Books,
                        p: Retention.Picks, now: int, timely: bool)
    requires Kept(cfg, next, s, b, timely) && (timely ==> b.clock <= now) && Retention.SweepLegal(rc, s, p, now)
    ensures Kept(cfg, next, Retention.Sweep(s, p), AfterSweep(b, p, now), timely)
  {
    var t, b' := Retention.Sweep(s, p), AfterSweep(b, p, now);
    SweepKeepsReceipts(rc, s, b.issued, p, now);
    forall x: string ensures ChainAt(cfg, t.chains, b'.tally, x) {
      assert ChainAt(cfg, s.chains, b.tally, x);
      PruneKeepsChain(cfg, s.chains, b.tally, p.chains, x);
    }
    PruningRanks(s.facets, p.facets);
    if timely { LimitsUntouched(s, b, t, b'); }
  }

  // ---- Rules and schedulers ----

  lemma IngressReset(s: Store, b: Books, facet: string, t: Store, now: int)
    requires IngressLaw(s, b.tally, b.clock) && b.clock <= now && t.ingressCounts == s.ingressCounts - {facet}
    requires t.ingressRules == s.ingressRules - {facet}
             || (facet in t.ingressRules && t.ingressRules == s.ingressRules[facet := t.ingressRules[facet]])
    ensures IngressLaw(t, b.tally.(entered := b.tally.entered - {facet}), now)
  {
    var y := b.tally.(entered := b.tally.entered - {facet});
    forall f: string ensures IngressAt(t.ingressRules, t.ingressCounts, y, now, f) {
      assert IngressAt(s.ingressRules, s.ingressCounts, b.tally, b.clock, f);
      Limits.RuleStartsAfresh(s.ingressRules, s.ingressCounts, b.tally, b.clock, f, facet,
                              if facet in t.ingressRules then t.ingressRules[facet] else Rule(0, 1));
      IngressLater(t.ingressRules, t.ingressCounts, y, b.clock, now, f);
    }
  }

  lemma RateReset(s: Store, b: Books, facet: string, t: Store, now: int)
    requires Windows.RateLaw(s, b.claims, b.clock) && b.clock <= now && t.rateCounts == s.rateCounts - {facet}
    requires t.rateRules == s.rateRules - {facet}
             || (facet in t.rateRules && t.rateRules == s.rateRules[facet := t.rateRules[facet]])
    ensures Windows.RateLaw(t, b.claims - {facet}, now)
  {
    forall f: string ensures Windows.RateAt(t.rateRules, t.rateCounts, b.claims - {facet}, now, f) {
      assert Windows.RateAt(s.rateRules, s.rateCounts, b.claims, b.clock, f);
      Windows.RuleStartsAfresh(s.rateRules, s.rateCounts, b.claims, b.clock, f, facet,
                               if facet in t.rateRules then t.rateRules[facet] else Rule(0, 1));
      RateLater(t.rateRules, t.rateCounts, b.claims - {facet}, b.clock, now, f);
    }
  }

  /** An accepted change of an ingress rule. */
  lemma IngressRuleKeepsBooks(cfg: Config, next: Timers.Cron, s: Store, b: Books, facet: string, t: Store, now: int,
                              timely: bool)
    requires Kept(cfg, next, s, b, timely) && (timely ==> b.clock <= now)
    requires t == s.(ingressRules := t.ingressRules, ingressCounts := s.ingressCounts - {facet})
    requires t.ingressRules == s.ingressRules - {facet}
             || (facet in t.ingressRules && t.ingressRules == s.ingressRules[facet := t.ingressRules[facet]])
    ensures Kept(cfg, next, t, b.(tally := b.tally.(entered := b.tally.entered - {facet}), clock := now), timely)
  {
    ChainsUntouched(cfg, s, b, t, b.tally.(entered := b.tally.entered - {facet}));
    if timely {
      IngressReset(s, b, facet, t, now);
      RateUntouched(s, b, t, now);
    }
  }

  /** An accepted change of a dispatch rule. */
  lemma RateRuleKeepsBooks(cfg: Config, next: Timers.Cron, s: Store, b: Books, facet: string, t: Store, now: int,
                           timely: bool)
    requires Kept(cfg, next, s, b, timely) && (timely ==> b.clock <= now)
    requires t == s.(rateRules := t.rateRules, rateCounts := s.rateCounts - {facet})
    requires t.rateRules == s.rateRules - {facet}
             || (facet in t.rateRules && t.rateRules == s.rateRules[facet := t.rateRules[facet]])
    ensures Kept(cfg, next, t, b.(claims := b.claims - {facet}, clock := now), timely)
  {
    ChainsUntouched(cfg, s, b, t, b.tally);
    if timely {
      RateReset(s, b, facet, t, now);
      IngressUntouched(s, b, t, b.tally, now);
    }
  }

  /** An upsert or a removal of a scheduler. */
  lemma SchedulerKeepsBooks(cfg: Config, next: Timers.Cron, s: Store, b: Books, rows: map<Id, Scheduler>,
                            fired: map<Id, Timers.Firing>, now: int, timely: bool)
    requires Kept(cfg, next, s, b, timely) && (timely ==> b.clock <= now)
    requires Timers.TimerLaw(next, rows, fired)
    ensures Kept(cfg, next, s.(schedulers := rows), b.(fired := fired, clock := now), timely)
  {
    var t := s.(schedulers := rows);
    ChainsUntouched(cfg, s, b, t, b.tally);
    if timely { LimitsUntouched(s, b, t, b.(fired := fired, clock := now)); }
  }

  lemma UpsertKeepsTimers(next: Timers.Cron, rows: map<Id, Scheduler>, fired: map<Id, Timers.Firing>, id: Id,
                          spec: Scheduler, now: int)
    requires Timers.TimerLaw(next, rows, fired)
    ensures Timers.TimerLaw(next, Timers.Upsert(rows, id, spec, now), Timers.Reset(rows, fired, id))
  {
    forall x: Id ensures Timers.TimerAt(next, Timers.Upsert(rows, id, spec, now), Timers.Reset(rows, fired, id), x) {
      assert Timers.TimerAt(next, rows, fired, x);
      Timers.UpsertResets(next, rows, fired, id, spec, now, x);
    }
  }

  /** The observer's note of a changed ingress rule. */
  function Forget(b: Books, facet: string, now: int): Books {
    b.(tally := b.tally.(entered := b.tally.entered - {facet}), clock := now)
  }

  lemma RateUpsertBooks(cfg: Config, next: Timers.Cron, s: Store, b: Books, r: Rules.RuleRequest, now: int,
                        timely: bool)
    requires Kept(cfg, next, s, b, timely) && (timely ==> b.clock <= now)
    ensures Kept(cfg, next, Rules.UpsertRate(s, r, now).0,
                 if Rules.RuleOk(r, now) then b.(claims := b.claims - {r.facet}, clock := now) else b.(clock := now),
                     timely)
  {
    if Rules.RuleOk(r, now) {
      RateRuleKeepsBooks(cfg, next, s, b, r.facet, Rules.UpsertRate(s, r, now).0, now, timely);
    } else {
      Untouched(cfg, next, s, b, s, b.issued, now, timely);
    }
  }

  lemma RateDeleteBooks(cfg: Config, next: Timers.Cron, s: Store, b: Books, f: string, now: int, timely: bool)
    requires Kept(cfg, next, s, b, timely) && (timely ==> b.clock <= now)
    ensures Kept(cfg, next, Rules.DeleteRate(s, f).0,
                 if Rules.FacetOk(f) then b.(claims := b.claims - {f}, clock := now) else b.(clock := now), timely)
  {
    if Rules.FacetOk(f) {
      RateRuleKeepsBooks(cfg, next, s, b, f, Rules.DeleteRate(s, f).0, now, timely);
    } else {
      Untouched(cfg, next, s, b, s, b.issued, now, timely);
    }
  }

  lemma IngressUpsertBooks(cfg: Config, next: Timers.Cron, s: Store, b: Books, r: Rules.RuleRequest, now: int,
                           timely: bool)
    requires Kept(cfg, next, s, b, timely) && (timely ==> b.clock <= now)
    ensures Kept(cfg, next, Rules.UpsertIngress(s, r, now).0,
                 if Rules.RuleOk(r, now) then Forget(b, r.facet, now) else b.(clock := now), timely)
  {
    if Rules.RuleOk(r, now) {
      IngressRuleKeepsBooks(cfg, next, s, b, r.facet, Rules.UpsertIngress(s, r, now).0, now, timely);
    } else {
      Untouched(cfg, next, s, b, s, b.issued, now, timely);
    }
  }

  lemma IngressDeleteBooks(cfg: Config, next: Timers.Cron, s: Store, b: Books, f: string, now: int, timely: bool)
    requires Kept(cfg, next, s, b, timely) && (timely ==> b.clock <= now)
    ensures Kept(cfg, next, Rules.DeleteIngress(s, f).0,
                 if Rules.FacetOk(f) then Forget(b, f, now) else b.(clock := now), timely)
  {
    if Rules.FacetOk(f) {
      IngressRuleKeepsBooks(cfg, next, s, b, f, Rules.DeleteIngress(s, f).0, now, timely);
    } else {
      Untouched(cfg, next, s, b, s, b.issued, now, timely);
    }
  }

  lemma SchedulerUpsertBooks(cfg: Config, next: Timers.Cron, s: Store, b: Books, id: Id, spec: Scheduler, now: int,
                             timely: bool)
    requires Kept(cfg, next, s, b, timely) && (timely ==> b.clock <= now)
    ensures Kept(cfg, next, s.(schedulers := Timers.Upsert(s.schedulers, id, spec, now)),
                 b.(fired := Timers.Reset(s.schedulers, b.fired, id), clock := now), timely)
  {
    UpsertKeepsTimers(next, s.schedulers, b.fired, id, spec, now);
    SchedulerKeepsBooks(cfg, next, s, b, Timers.Upsert(s.schedulers, id, spec, now),
                        Timers.Reset(s.schedulers, b.fired, id), now, timely);
  }

  lemma SchedulerDeleteBooks(cfg: Config, next: Timers.Cron, s: Store, b: Books, id: Id, now: int, timely: bool)
    requires Kept(cfg, next, s, b, timely) && (timely ==> b.clock <= now)
    ensures Kept(cfg, next, s.(schedulers := s.schedulers - {id}), b.(fired := b.fired - {id}, clock := now), timely)
  {
    forall x: Id ensures Timers.TimerAt(next, s.schedulers - {id}, b.fired - {id}, x) {
      assert Timers.TimerAt(next, s.schedulers, b.fired, x);
    }
    SchedulerKeepsBooks(cfg, next, s, b, s.schedulers - {id}, b.fired - {id}, now, timely);
  }

  lemma RestartBooks(cfg: Config, next: Timers.Cron, s: Store, b: Books, now: int, timely: bool)
    requires Kept(cfg, next, s, b, timely) && (timely ==> b.clock <= now)
    ensures Kept(cfg, next, s.(gauges := Telemetry.Seed(s.jobs, s.history)), b.(clock := now), timely)
  {
    Untouched(cfg, next, s, b, s.(gauges := Telemetry.Seed(s.jobs, s.history)), b.issued, now, timely);
  }

  // ---- The calls ----

  function AfterAddJobs(cfg: Config, s: Store, b: Books, bulk: bool, rs: seq<AddJobRequest>, ids: seq<Id>,
                        traces: seq<string>, now: int): Books
    requires |ids| == |traces| == |rs|
  {
    if AddJobs(cfg, s, bulk, rs, ids, traces, now).1.Ok?
    then AfterBatch(cfg, s, b, ItemsOf(ValidateAll(cfg, rs).value, ids, traces), now)
    else b.(clock := now)
  }

  predicate UnissuedIds(issued: Issues, ids: seq<Id>) {
    FlattenLaws.Distinct(ids) && forall i | 0 <= i < |ids| :: ids[i] !in issued
  }

  lemma AddJobsKeepsBooks(cfg: Config, next: Timers.Cron, s: Store, b: Books, bulk: bool, rs: seq<AddJobRequest>,
                          ids: seq<Id>, traces: seq<string>, now: int, timely: bool)
    requires Kept(cfg, next, s, b, timely) && (timely ==> b.clock <= now)
    requires |ids| == |traces| == |rs| && UnissuedIds(b.issued, ids)
    ensures Kept(cfg, next, AddJobs(cfg, s, bulk, rs, ids, traces, now).0,
                 AfterAddJobs(cfg, s, b, bulk, rs, ids, traces, now), timely)
  {
    var (t, reply) := AddJobs(cfg, s, bulk, rs, ids, traces, now);
    if reply.Ok? {
      BatchKeepsBooks(cfg, next, s, b, ItemsOf(ValidateAll(cfg, rs).value, ids, traces), now, timely);
    } else {
      FailedBatchLeavesNoTrace(cfg, s, bulk, rs, ids, traces, now);
      Untouched(cfg, next, s, b, t, b.issued, now, timely);
    }
  }

  function AfterAddFlows(cfg: Config, s: Store, b: Books, bulk: bool, flows: seq<FlowJob>, supplies: seq<seq<Id>>,
                         now: int): Books
    requires Flow.Supplied(flows, supplies)
  {
    if Flow.AddFlows(cfg, s, bulk, flows, supplies, now).1.Ok?
    then b.(issued := b.issued + TreeIssues(flows, supplies, now), clock := now)
    else b.(clock := now)
  }

  /** Storing trees writes nothing but jobs, receipts and gauges. */
  predicate OnlyStores(s: Store, t: Store) {
    t == s.(jobs := t.jobs, receipts := t.receipts, gauges := t.gauges)
  }

  lemma {:induction false} TreesFrame(s: Store, flows: seq<FlowJob>, supplies: seq<seq<Id>>, now: int)
    requires Flow.Supplied(flows, supplies) && Flow.InsertTrees(s, flows, supplies, now).Ok?
    ensures OnlyStores(s, Flow.InsertTrees(s, flows, supplies, now).value)
    decreases |flows|
  {
    if flows != [] {
      var t := Flow.InsertTree(s, Flat(flows[0], None, 0, supplies[0], 0), now).value;
      TreesFrame(t, flows[1..], supplies[1..], now);
    }
  }

  lemma AddFlowsFrame(cfg: Config, s: Store, bulk: bool, flows: seq<FlowJob>, supplies: seq<seq<Id>>, now: int)
    requires Flow.Supplied(flows, supplies)
    ensures SameTables(s, Flow.AddFlows(cfg, s, bulk, flows, supplies, now).0)
  {
    var (t, reply) := Flow.AddFlows(cfg, s, bulk, flows, supplies, now);
    if reply.Ok? { TreesFrame(s, flows, supplies, now); } else { assert t == s; }
  }

  lemma AddFlowsReceipts(cfg: Config, s: Store, b: Books, bulk: bool, flows: seq<FlowJob>, supplies: seq<seq<Id>>,
                         now: int)
    requires ReceiptLaw(s, b.issued) && Flow.Supplied(flows, supplies) && UnissuedSupplies(b.issued, supplies)
    ensures ReceiptLaw(Flow.AddFlows(cfg, s, bulk, flows, supplies, now).0,
                       AfterAddFlows(cfg, s, b, bulk, flows, supplies, now).issued)
  {
    if Flow.AddFlows(cfg, s, bulk, flows, supplies, now).1.Ok? {
      TreesKeepReceipts(cfg, s, b.issued, flows, supplies, now, {});
    }
  }

  lemma AddFlowsKeepsBooks(cfg: Config, next: Timers.Cron, s: Store, b: Books, bulk: bool, flows: seq<FlowJob>,
                           supplies: seq<seq<Id>>, now: int, timely: bool)
    requires Kept(cfg, next, s, b, timely) && (timely ==> b.clock <= now)
    requires Flow.Supplied(flows, supplies) && UnissuedSupplies(b.issued, supplies)
    ensures Kept(cfg, next, Flow.AddFlows(cfg, s, bulk, flows, supplies, now).0,
                 AfterAddFlows(cfg, s, b, bulk, flows, supplies, now), timely)
  {
    AddFlowsFrame(cfg, s, bulk, flows, supplies, now);
    AddFlowsReceipts(cfg, s, b, bulk, flows, supplies, now);
    Untouched(cfg, next, s, b, Flow.AddFlows(cfg, s, bulk, flows, supplies, now).0,
              AfterAddFlows(cfg, s, b, bulk, flows, supplies, now).issued, now, timely);
  }

  function MergeIssues(s: Store, flow: FlowJob, supply: seq<Id>, now: int): Issues
    requires SizeAll(flow.children) <= |supply|
  {
    if SlotOf(flow.body) !in s.receipts || s.receipts[SlotOf(flow.body)].jobId !in s.jobs then map[]
    else
      var t := s.receipts[SlotOf(flow.body)].jobId;
      RowIssues(Flow.NewRows(flow, t, supply), Flow.TreeOf(t, s.jobs[t]), s.jobs[t].treeDepth, now)
  }

  function AfterMerge(cfg: Config, s: Store, b: Books, flow: FlowJob, supply: seq<Id>, now: int): Books
    requires SizeAll(flow.children) <= |supply|
  {
    if Flow.AddFlowMerge(cfg, s, flow, supply, now).1.Ok?
    then b.(issued := b.issued + MergeIssues(s, flow, supply, now), clock := now)
    else b.(clock := now)
  }

  lemma MergeFrame(cfg: Config, s: Store, flow: FlowJob, supply: seq<Id>, now: int)
    requires SizeAll(flow.children) <= |supply|
    ensures SameTables(s, Flow.AddFlowMerge(cfg, s, flow, supply, now).0)
  {
    var (t, reply) := Flow.AddFlowMerge(cfg, s, flow, supply, now);
    if reply.Ok? { assert OnlyStores(s, t); } else { assert t == s; }
  }

  lemma MergeReceipts(cfg: Config, s: Store, b: Books, flow: FlowJob, supply: seq<Id>, now: int)
    requires ReceiptLaw(s, b.issued) && SizeAll(flow.children) <= |supply| && UnissuedIds(b.issued, supply)
    ensures ReceiptLaw(Flow.AddFlowMerge(cfg, s, flow, supply, now).0, AfterMerge(cfg, s, b, flow, supply, now).issued)
  {
    if Flow.AddFlowMerge(cfg, s, flow, supply, now).1.Ok? { MergeKeepsReceipts(cfg, s, b.issued, flow, supply, now); }
  }

  lemma MergeKeepsBooks(cfg: Config, next: Timers.Cron, s: Store, b: Books, flow: FlowJob, supply: seq<Id>, now: int,
                        timely: bool)
    requires Kept(cfg, next, s, b, timely) && (timely ==> b.clock <= now)
    requires SizeAll(flow.children) <= |supply| && UnissuedIds(b.issued, supply)
    ensures Kept(cfg, next, Flow.AddFlowMerge(cfg, s, flow, supply, now).0, AfterMerge(cfg, s, b, flow, supply, now),
                 timely)
  {
    MergeFrame(cfg, s, flow, supply, now);
    MergeReceipts(cfg, s, b, flow, supply, now);
    Untouched(cfg, next, s, b, Flow.AddFlowMerge(cfg, s, flow, supply, now).0,
              AfterMerge(cfg, s, b, flow, supply, now).issued, now, timely);
  }

  /** Ending a job writes nothing but jobs, history, receipts and gauges. */
  predicate OnlyFinishes(s: Store, t: Store) {
    t == s.(jobs := t.jobs, history := t.history, receipts := t.receipts, gauges := t.gauges)
  }

  lemma FinishFrame(s: Store, r: Finish.FinishRequest, now: int, rand: real)
    ensures OnlyFinishes(s, Finish.FinishJob(s, r, now, rand).0)
  {
    if Finish.Judge(s, r, now).Accepted? {
      assert OnlyFinishes(s, Finish.RetryLater(s, r, now, rand));
      assert OnlyFinishes(s, Finish.Fail(s, r, now));
      assert OnlyFinishes(s, Finish.Succeed(s, r, now));
    } else {
      assert Finish.FinishJob(s, r, now, rand).0 == s;
    }
  }

  lemma FinishKeepsBooks(cfg: Config, next: Timers.Cron, s: Store, b: Books, r: Finish.FinishRequest, now: int,
                         rand: real, timely: bool)
    requires Kept(cfg, next, s, b, timely) && (timely ==> b.clock <= now)
    ensures Kept(cfg, next, Finish.FinishJob(s, r, now, rand).0, b.(clock := now), timely)
  {
    FinishFrame(s, r, now, rand);
    FinishKeepsReceipts(s, b.issued, r, now, rand);
    Untouched(cfg, next, s, b, Finish.FinishJob(s, r, now, rand).0, b.issued, now, timely);
  }

  lemma HeartbeatFrame(cfg: Config, s: Store, r: Leases.HeartbeatRequest, now: int)
    ensures var t := Leases.Heartbeat(cfg, s, r, now).0;
            t == s.(jobs := t.jobs) && t.jobs.Keys == s.jobs.Keys
  {
  }

  lemma HeartbeatKeepsBooks(cfg: Config, next: Timers.Cron, s: Store, b: Books, r: Leases.HeartbeatRequest, now: int,
                            timely: bool)
    requires Kept(cfg, next, s, b, timely) && (timely ==> b.clock <= now)
    ensures Kept(cfg, next, Leases.Heartbeat(cfg, s, r, now).0, b.(clock := now), timely)
  {
    HeartbeatFrame(cfg, s, r, now);
    Untouched(cfg, next, s, b, Leases.Heartbeat(cfg, s, r, now).0, b.issued, now, timely);
  }

  lemma RecoverKeepsBooks(cfg: Config, next: Timers.Cron, s: Store, b: Books, batch: nat, now: int, timely: bool)
    requires Kept(cfg, next, s, b, timely) && (timely ==> b.clock <= now)
    ensures Kept(cfg, next, Leases.Recover(s, batch, now), b.(clock := now), timely)
  {
    RecoverKeepsReceipts(s, b.issued, Leases.ToSet(Leases.ExpiredBatch(s.jobs, now, batch)), now);
    Untouched(cfg, next, s, b, Leases.Recover(s, batch, now), b.issued, now, timely);
  }

  // ---- Receipts are issued to admitted jobs ----

  lemma IssueIsStored(cfg: Config, s: Store, item: Item, now: int)
    requires EnqueueOne(cfg, s, item.request, item.id, item.freshTrace, now).Admitted?
    ensures var a := EnqueueOne(cfg, s, item.request, item.id, item.freshTrace, now);
            IssueOf(a, item, now).Keys <= a.store.jobs.Keys && s.jobs.Keys <= a.store.jobs.Keys
  {
  }

  lemma {:induction false} BatchIssuesStored(cfg: Config, s: Store, items: seq<Item>, now: int)
    requires EnqueueAll(cfg, s, items, now).Done?
    ensures BatchIssues(cfg, s, items, now).Keys <= EnqueueAll(cfg, s, items, now).store.jobs.Keys
  {
    if items != [] {
      var n := |items| - 1;
      BatchIssuesStored(cfg, s, items[..n], now);
      IssueIsStored(cfg, EnqueueAll(cfg, s, items[..n], now).store, items[n], now);
    }
  }

  lemma RowIssuesStored(s: Store, rows: seq<Prepared>, tree: Id, base: nat, now: int)
    ensures RowIssues(rows, tree, base, now).Keys <= Flow.Insert(s, rows, tree, base, now).jobs.Keys
    ensures s.jobs.Keys <= Flow.Insert(s, rows, tree, base, now).jobs.Keys
  {
    RowIssuesOwn(rows, tree, base, now);
    RowMapKeys(rows, tree, base, now);
  }

  lemma {:induction false} TreeIssuesStored(s: Store, flows: seq<FlowJob>, supplies: seq<seq<Id>>, now: int)
    requires Flow.Supplied(flows, supplies) && Flow.InsertTrees(s, flows, supplies, now).Ok?
    requires forall i | 0 <= i < |supplies| :: FlattenLaws.Distinct(supplies[i])
    ensures TreeIssues(flows, supplies, now).Keys <= Flow.InsertTrees(s, flows, supplies, now).value.jobs.Keys
    ensures s.jobs.Keys <= Flow.InsertTrees(s, flows, supplies, now).value.jobs.Keys
    decreases |flows|
  {
    if flows != [] {
      var rows := Flat(flows[0], None, 0, supplies[0], 0);
      FirstTreeIds(flows[0], supplies[0]);
      RowIssuesStored(s, rows, supplies[0][0], 0, now);
      TreeIssuesStored(Flow.InsertTree(s, rows, now).value, flows[1..], supplies[1..], now);
    }
  }

  lemma AddJobsIssues(cfg: Config, s: Store, b: Books, bulk: bool, rs: seq<AddJobRequest>, ids: seq<Id>,
                      traces: seq<string>, now: int)
    requires |ids| == |traces| == |rs|
    ensures AfterAddJobs(cfg, s, b, bulk, rs, ids, traces, now).issued.Keys
            <= b.issued.Keys + AddJobs(cfg, s, bulk, rs, ids, traces, now).0.jobs.Keys
  {
    if AddJobs(cfg, s, bulk, rs, ids, traces, now).1.Ok? {
      BatchIssuesStored(cfg, s, ItemsOf(ValidateAll(cfg, rs).value, ids, traces), now);
    }
  }

  lemma AddFlowsIssues(cfg: Config, s: Store, b: Books, bulk: bool, flows: seq<FlowJob>, supplies: seq<seq<Id>>,
                       now: int)
    requires Flow.Supplied(flows, supplies) && forall i | 0 <= i < |supplies| :: FlattenLaws.Distinct(supplies[i])
    ensures AfterAddFlows(cfg, s, b, bulk, flows, supplies, now).issued.Keys
            <= b.issued.Keys + Flow.AddFlows(cfg, s, bulk, flows, supplies, now).0.jobs.Keys
  {
    if Flow.AddFlows(cfg, s, bulk, flows, supplies, now).1.Ok? { TreeIssuesStored(s, flows, supplies, now); }
  }

  lemma MergeIssuesStored(cfg: Config, s: Store, b: Books, flow: FlowJob, supply: seq<Id>, now: int)
    requires SizeAll(flow.children) <= |supply|
    ensures AfterMerge(cfg, s, b, flow, supply, now).issued.Keys
            <= b.issued.Keys + Flow.AddFlowMerge(cfg, s, flow, supply, now).0.jobs.Keys
  {
    if Flow.AddFlowMerge(cfg, s, flow, supply, now).1.Ok? {
      var t := s.receipts[SlotOf(flow.body)].jobId;
      RowIssuesStored(Flow.RegateTarget(s, t, |flow.children|), Flow.NewRows(flow, t, supply),
                      Flow.TreeOf(t, s.jobs[t]), s.jobs[t].treeDepth, now);
    }
  }
}
