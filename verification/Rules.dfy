/**
  Setting and removing the two kinds of limit rules.  Either way the facet's
  counters are dropped, so a changed rule starts from an empty window.
 */
module Rules {
  import opened Tables

  /** An exact, nonblank key without surrounding whitespace or wildcards. */
  predicate FacetOk(key: string) {
    && !Blank(key)
    && key != "" && !IsSpace(key[0]) && !IsSpace(key[|key| - 1])
    && '*' !in key && '?' !in key
  }

  datatype RuleRequest = RuleRequest(facet: string, maxJobs: nat, windowMs: int)

  predicate RuleOk(r: RuleRequest, now: int) {
    FacetOk(r.facet) && r.windowMs > 0 && now + r.windowMs <= I64_MAX
  }

  function UpsertRate(s: Store, r: RuleRequest, now: int): (Store, Reply<bool>) {
    if !RuleOk(r, now) then (s, Err(InvalidArgument))
    else (s.(rateRules := s.rateRules[r.facet := Rule(r.maxJobs, r.windowMs)], rateCounts := s.rateCounts - {r.facet}),
          Ok(true))
  }

  function DeleteRate(s: Store, facet: string): (Store, Reply<bool>) {
    if !FacetOk(facet) then (s, Err(InvalidArgument))
    else (s.(rateRules := s.rateRules - {facet}, rateCounts := s.rateCounts - {facet}), Ok(facet in s.rateRules))
  }

  function UpsertIngress(s: Store, r: RuleRequest, now: int): (Store, Reply<bool>) {
    if !RuleOk(r, now) then (s, Err(InvalidArgument))
    else (s.(ingressRules := s.ingressRules[r.facet := Rule(r.maxJobs, r.windowMs)],
             ingressCounts := s.ingressCounts - {r.facet}),
          Ok(true))
  }

  function DeleteIngress(s: Store, facet: string): (Store, Reply<bool>) {
    if !FacetOk(facet) then (s, Err(InvalidArgument))
    else (s.(ingressRules := s.ingressRules - {facet}, ingressCounts := s.ingressCounts - {facet}),
          Ok(facet in s.ingressRules))
  }
}
