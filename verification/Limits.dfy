/**
  The two admission limits over whole runs.  An observer keeps, for every facet,
  the times at which jobs entered since the facet's rule was last set, and, for
  every trace, how many jobs entered since the trace's counter row appeared.
 */
module Limits {
  import opened Tables
  import opened Ingress
  import opened Enqueue
  import opened EnqueueLaws

  datatype Tally = Tally(entered: map<string, seq<int>>, traced: map<string, nat>)

  const NO_TALLY := Tally(map[], map[])

  function Total(m: map<string, nat>, t: string): nat {
    if t in m then m[t] else 0
  }

  /** The observer's entry for one answered request: a new job counts, a replay does not. */
  function Tallied(y: Tally, a: Admission, item: Item, now: int): Tally {
    if !IsNew(a) || item.id !in a.store.jobs then y
    else
      var f, t := item.request.facet, a.store.jobs[item.id].card.trace;
      Tally(if f == "" then y.entered else y.entered[f := Times(y.entered, f) + [now]],
            y.traced[t := Total(y.traced, t) + 1])
  }

  function BatchTally(cfg: Config, s: Store, y: Tally, items: seq<Item>, now: int): Tally {
    if items == [] then y
    else
      var n := |items| - 1;
      var earlier := BatchTally(cfg, s, y, items[..n], now);
      match EnqueueAll(cfg, s, items[..n], now)
      case Undone(_, _) => earlier
      case Done(t, _) =>
        Tallied(earlier, EnqueueOne(cfg, t, items[n].request, items[n].id, items[n].freshTrace, now), items[n], now)
  }

  // ---- Ingress ----

  ghost predicate Metered(rule: Rule, b: Option<Bucket>, log: seq<int>, clock: int) {
    && Agrees(b, log, rule.windowMs)
    && WindowsHold(log, rule.windowMs, rule.maxJobs)
    && RoomLeft(log, rule.windowMs, rule.maxJobs)
    && (log != [] ==> log[|log| - 1] <= clock)
  }

  /** The facet's counters are its entries of the current and the previous grid window. */
  ghost predicate IngressAt(rules: map<string, Rule>, counts: map<string, Bucket>, y: Tally, clock: int, f: string) {
    f in rules ==> Metered(rules[f], Lookup(counts, f), Times(y.entered, f), clock)
  }

  ghost predicate IngressLaw(s: Store, y: Tally, clock: int) {
    forall f: string :: IngressAt(s.ingressRules, s.ingressCounts, y, clock, f)
  }

  lemma EnqueueCounters(cfg: Config, s: Store, item: Item, now: int)
    requires IsNew(EnqueueOne(cfg, s, item.request, item.id, item.freshTrace, now))
    ensures var a, r := EnqueueOne(cfg, s, item.request, item.id, item.freshTrace, now), item.request;
            && item.id in a.store.jobs
            && a.store.ingressRules == s.ingressRules
            && Quota(s, r, now) == Some(a.store.ingressCounts)
            && a.store.chains == Counted(cfg, s.chains, a.store.jobs[item.id].card.trace, now)
            && (cfg.maxChainSize > 0 ==> ChainSize(s.chains, a.store.jobs[item.id].card.trace) < cfg.maxChainSize)
  {
  }

  lemma EntryIsMetered(rules: map<string, Rule>, counts: map<string, Bucket>, y: Tally, clock: int, now: int, f: string)
    requires f in rules && IngressAt(rules, counts, y, clock, f) && clock <= now && Admit(rules, counts, f, now).Some?
    ensures Metered(rules[f], Lookup(Admit(rules, counts, f, now).value, f), Times(y.entered, f) + [now], now)
  {
    AdmissionKeeps(rules[f], Lookup(counts, f), Times(y.entered, f), now);
    RoomKept(rules[f], Lookup(counts, f), Times(y.entered, f), now);
  }

  lemma EnqueueKeepsIngress(cfg: Config, s: Store, y: Tally, clock: int, item: Item, now: int, f: string)
    requires IngressAt(s.ingressRules, s.ingressCounts, y, clock, f) && clock <= now
    requires EnqueueOne(cfg, s, item.request, item.id, item.freshTrace, now).Admitted?
    ensures var a := EnqueueOne(cfg, s, item.request, item.id, item.freshTrace, now);
            IngressAt(a.store.ingressRules, a.store.ingressCounts, Tallied(y, a, item, now), now, f)
  {
    if IsNew(EnqueueOne(cfg, s, item.request, item.id, item.freshTrace, now)) {
      EnqueueCounters(cfg, s, item, now);
      if f in s.ingressRules && f == item.request.facet && f != "" {
        EntryIsMetered(s.ingressRules, s.ingressCounts, y, clock, now, f);
      }
    }
  }

  lemma {:induction false} BatchKeepsIngress(cfg: Config, s: Store, y: Tally, clock: int, items: seq<Item>, now: int,
                                             f: string)
    requires IngressAt(s.ingressRules, s.ingressCounts, y, clock, f) && clock <= now
              && EnqueueAll(cfg, s, items, now).Done?
    ensures var t := EnqueueAll(cfg, s, items, now).store;
            IngressAt(t.ingressRules, t.ingressCounts, BatchTally(cfg, s, y, items, now), now, f)
  {
    if items != [] {
      var n := |items| - 1;
      BatchKeepsIngress(cfg, s, y, clock, items[..n], now, f);
      EnqueueKeepsIngress(cfg, EnqueueAll(cfg, s, items[..n], now).store, BatchTally(cfg, s, y, items[..n], now), now,
                          items[n], now, f);
    }
  }

  /** Setting or removing a rule starts the facet's record afresh. */
  lemma RuleStartsAfresh(rules: map<string, Rule>, counts: map<string, Bucket>, y: Tally, clock: int, f: string,
                         facet: string, rule: Rule)
    requires IngressAt(rules, counts, y, clock, f)
    ensures IngressAt(rules[facet := rule], counts - {facet}, y.(entered := y.entered - {facet}), clock, f)
    ensures IngressAt(rules - {facet}, counts - {facet}, y.(entered := y.entered - {facet}), clock, f)
  {
  }

  /** While a rule stands, any span as long as its window lets in at most twice its limit. */
  lemma IngressSpan(s: Store, y: Tally, clock: int, f: string, t: int)
    requires IngressLaw(s, y, clock) && f in s.ingressRules
    ensures CountIn(Times(y.entered, f), t, t + s.ingressRules[f].windowMs) <= 2 * s.ingressRules[f].maxJobs
  {
    assert IngressAt(s.ingressRules, s.ingressCounts, y, clock, f);
    SpanBound(Times(y.entered, f), s.ingressRules[f].windowMs, s.ingressRules[f].maxJobs, t);
  }

  // ---- Chains ----

  /** With a cap set, a trace's counter is the number of jobs that entered since its row appeared, within the cap. */
  predicate ChainAt(cfg: Config, chains: map<string, ChainRow>, y: Tally, t: string) {
    cfg.maxChainSize > 0 ==>
      ChainSize(chains, t) == Total(y.traced, t) && 0 <= ChainSize(chains, t) <= cfg.maxChainSize
  }

  ghost predicate ChainLaw(cfg: Config, s: Store, y: Tally) {
    forall t: string :: ChainAt(cfg, s.chains, y, t)
  }

  lemma EnqueueKeepsChain(cfg: Config, s: Store, y: Tally, item: Item, now: int, t: string)
    requires ChainAt(cfg, s.chains, y, t)
    requires EnqueueOne(cfg, s, item.request, item.id, item.freshTrace, now).Admitted?
    ensures var a := EnqueueOne(cfg, s, item.request, item.id, item.freshTrace, now);
            ChainAt(cfg, a.store.chains, Tallied(y, a, item, now), t)
  {
    if IsNew(EnqueueOne(cfg, s, item.request, item.id, item.freshTrace, now)) {
      EnqueueCounters(cfg, s, item, now);
    }
  }

  lemma {:induction false} BatchKeepsChain(cfg: Config, s: Store, y: Tally, items: seq<Item>, now: int, t: string)
    requires ChainAt(cfg, s.chains, y, t) && EnqueueAll(cfg, s, items, now).Done?
    ensures ChainAt(cfg, EnqueueAll(cfg, s, items, now).store.chains, BatchTally(cfg, s, y, items, now), t)
  {
    if items != [] {
      var n := |items| - 1;
      BatchKeepsChain(cfg, s, y, items[..n], now, t);
      EnqueueKeepsChain(cfg, EnqueueAll(cfg, s, items[..n], now).store, BatchTally(cfg, s, y, items[..n], now),
                        items[n], now, t);
    }
  }

  lemma PruneKeepsChain(cfg: Config, chains: map<string, ChainRow>, y: Tally, gone: set<string>, t: string)
    requires ChainAt(cfg, chains, y, t)
    ensures ChainAt(cfg, chains - gone, y.(traced := y.traced - gone), t)
  {
  }
}
