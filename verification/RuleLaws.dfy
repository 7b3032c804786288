/**
  What setting or removing a limit means for the next claim or the next
  admission, and that nothing else in the database moves.
 */
module RuleLaws {
  import opened Tables
  import opened Rules
  import Dispatch
  import Ingress

  // ---- Which rules are accepted ----

  predicate ExactKey(key: string) {
    && key != "" && !IsSpace(key[0]) && !IsSpace(key[|key| - 1])
    && forall i | 0 <= i < |key| :: key[i] != '*' && key[i] != '?'
  }

  predicate ValidRule(r: RuleRequest, now: int) {
    ExactKey(r.facet) && 0 < r.windowMs <= I64_MAX - now
  }

  lemma AcceptedRules(r: RuleRequest, now: int)
    ensures FacetOk(r.facet) <==> ExactKey(r.facet)
    ensures RuleOk(r, now) <==> ValidRule(r, now)
  {
    if ExactKey(r.facet) { assert !Blank(r.facet); }
  }

  // ---- Dispatch rules ----

  /** Only the dispatch rule and counter of the facet `f` may differ. */
  predicate OnlyRateOf(s: Store, t: Store, f: string) {
    && t == s.(rateRules := t.rateRules, rateCounts := t.rateCounts)
    && t.rateRules - {f} == s.rateRules - {f} && t.rateCounts - {f} == s.rateCounts - {f}
  }

  /** The facet is held back exactly if its limit is 0, and its next claim opens a window of its own. */
  ghost predicate StartsAfresh(t: Store, f: string, maxJobs: nat, windowMs: int) {
    forall now: int ::
      && (Dispatch.FacetBlocked(t, f, now) <==> maxJobs == 0)
      && Lookup(Dispatch.Consume(t, Some(f), now), f) == Some(WindowCount(1, SatAdd(now, windowMs)))
  }

  /** No claim of the facet is held back or counted. */
  ghost predicate Unlimited(t: Store, f: string) {
    forall now: int ::
      !Dispatch.FacetBlocked(t, f, now) && Dispatch.Consume(t, Some(f), now) == t.rateCounts && f !in t.rateCounts
  }

  lemma RateStartsAfresh(s: Store, r: RuleRequest, now: int)
    ensures var (t, reply) := UpsertRate(s, r, now);
            && (reply.Ok? <==> ValidRule(r, now))
            && (reply.Err? ==> t == s && reply.code == InvalidArgument)
            && (reply.Ok? ==> OnlyRateOf(s, t, r.facet) && StartsAfresh(t, r.facet, r.maxJobs, r.windowMs))
  {
    AcceptedRules(r, now);
    if RuleOk(r, now) {
      var rules, counts := s.rateRules[r.facet := Rule(r.maxJobs, r.windowMs)], s.rateCounts - {r.facet};
      assert rules - {r.facet} == s.rateRules - {r.facet};
    }
  }

  lemma RateRemoved(s: Store, facet: string)
    ensures var (t, reply) := DeleteRate(s, facet);
            && (reply.Ok? <==> ExactKey(facet))
            && (reply.Err? ==> t == s && reply.code == InvalidArgument)
            && (reply.Ok? ==> OnlyRateOf(s, t, facet) && Unlimited(t, facet) && reply.value == (facet in s.rateRules))
  {
    AcceptedRules(RuleRequest(facet, 0, 1), 0);
    if FacetOk(facet) { assert facet !in DeleteRate(s, facet).0.rateCounts; }
  }

  // ---- Ingress rules ----

  predicate OnlyIngressOf(s: Store, t: Store, f: string) {
    && t == s.(ingressRules := t.ingressRules, ingressCounts := t.ingressCounts)
    && t.ingressRules - {f} == s.ingressRules - {f} && t.ingressCounts - {f} == s.ingressCounts - {f}
  }

  /** The next job of the facet enters exactly if its limit is not 0, and starts the pair of counters. */
  ghost predicate AdmitsAfresh(t: Store, f: string, maxJobs: nat) {
    forall now: int ::
      && (Ingress.Throttled(t.ingressRules, t.ingressCounts, f, now) <==> maxJobs == 0)
      && Ingress.Admit(t.ingressRules, t.ingressCounts, f, now) ==
         if maxJobs == 0 then None else Some(t.ingressCounts[f := Bucket(now, 1, 0)])
  }

  ghost predicate AdmitsAll(t: Store, f: string) {
    forall now: int ::
      && !Ingress.Throttled(t.ingressRules, t.ingressCounts, f, now)
      && Ingress.Admit(t.ingressRules, t.ingressCounts, f, now) == Some(t.ingressCounts) && f !in t.ingressCounts
  }

  lemma FirstEntry(rule: Rule, now: int)
    ensures Ingress.AdmitOne(rule, None, now) == if rule.maxJobs == 0 then None else Some(Bucket(now, 1, 0))
  {
  }

  lemma IngressStartsAfresh(s: Store, r: RuleRequest, now: int)
    ensures var (t, reply) := UpsertIngress(s, r, now);
            && (reply.Ok? <==> ValidRule(r, now))
            && (reply.Err? ==> t == s && reply.code == InvalidArgument)
            && (reply.Ok? ==> OnlyIngressOf(s, t, r.facet) && AdmitsAfresh(t, r.facet, r.maxJobs))
  {
    AcceptedRules(r, now);
    if RuleOk(r, now) {
      var rule := Rule(r.maxJobs, r.windowMs);
      var rules, counts := s.ingressRules[r.facet := rule], s.ingressCounts - {r.facet};
      assert rules - {r.facet} == s.ingressRules - {r.facet};
      forall at: int ensures Ingress.AdmitOne(rule, None, at) == if rule.maxJobs == 0 then None
                                                                 else Some(Bucket(at, 1, 0)) { FirstEntry(rule, at); }
    }
  }

  lemma IngressRemoved(s: Store, facet: string)
    ensures var (t, reply) := DeleteIngress(s, facet);
            && (reply.Ok? <==> ExactKey(facet))
            && (reply.Err? ==> t == s && reply.code == InvalidArgument)
            && (reply.Ok? ==> OnlyIngressOf(s, t, facet) && AdmitsAll(t, facet)
                              && reply.value == (facet in s.ingressRules))
  {
    AcceptedRules(RuleRequest(facet, 0, 1), 0);
    if FacetOk(facet) { assert facet !in DeleteIngress(s, facet).0.ingressCounts; }
  }
}
