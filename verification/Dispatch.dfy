/**
  `get_next_job`: which job a poll may claim, which one it claims, and what the
  claim writes.  A poll reads the clock once to select and consume quota, and
  once more to start the lease.
 */
module Dispatch {
  import opened Tables
  import opened Telemetry
  import opened Queries
  import opened Lifecycle

  datatype PollRequest = PollRequest(worker: string, names: seq<string>)

  /** What a worker is handed: the job to run and the claim to run it under. */
  datatype Grant = Grant(id: Id, name: string, payload: Bytes, metadata: Metadata, attempts: nat, leaseUntil: int)

  // ---- Selection ----

  predicate Due(jobs: Jobs, names: seq<string>, now: int, id: Id) {
    && id in jobs
    && (jobs[id].state.Waiting? || jobs[id].state.Delayed?)
    && jobs[id].availableAt <= now
    && (names == [] || jobs[id].card.name in names)
  }

  /** A dispatch rule holds a facet back while paused or while its open window is full. */
  predicate FacetBlocked(s: Store, facet: string, now: int) {
    && facet in s.rateRules
    && (s.rateRules[facet].maxJobs == 0
        || (facet in s.rateCounts && s.rateCounts[facet].expiresAt > now
            && s.rateCounts[facet].count >= s.rateRules[facet].maxJobs))
  }

  predicate Blocked(s: Store, j: Job, now: int) {
    j.card.facet.Some? && FacetBlocked(s, j.card.facet.value, now)
  }

  predicate Eligible(s: Store, names: seq<string>, now: int, id: Id) {
    Due(s.jobs, names, now, id) && !Blocked(s, s.jobs[id], now)
  }

  /** Jobs without a facet share the empty fairness facet. */
  function FacetKey(j: Job): string {
    if j.card.facet.Some? then j.card.facet.value else ""
  }

  function LastServed(facets: map<string, Served>, facet: string): int {
    if facet in facets then facets[facet].seqNo else 0
  }

  function Columns(cfg: Config): nat {
    if cfg.fairness then 3 else 2
  }

  /** Priority, then the facet served longest ago, then age. */
  function PollKey(cfg: Config, s: Store, id: Id, j: Job): (key: seq<int>)
    ensures |key| == Columns(cfg) + |id| && key[Columns(cfg)..] == Text(id)
  {
    var columns := if cfg.fairness then [j.card.priority, LastServed(s.facets, FacetKey(j)), j.card.createdAt]
                   else [j.card.priority, j.card.createdAt];
    columns + Text(id)
  }

  function PollKeys(cfg: Config, s: Store, names: seq<string>, now: int): (keys: Keys)
    ensures Sorted(keys, Columns(cfg))
    ensures forall id :: id in keys <==> Eligible(s, names, now, id)
  {
    map id | id in s.jobs && Eligible(s, names, now, id) :: PollKey(cfg, s, id, s.jobs[id])
  }

  function Pick(cfg: Config, s: Store, names: seq<string>, now: int): Option<Id> {
    var keys := PollKeys(cfg, s, names, now);
    if keys == map[] then None else Some(First(keys, Columns(cfg)))
  }

  // ---- The claim ----

  /** `rate_limit::consume`: start a window or count one more in the open one. */
  function Consumed(c: Option<WindowCount>, windowMs: int, now: int): WindowCount {
    if c.None? || c.value.expiresAt <= now then WindowCount(1, SatAdd(now, windowMs))
    else c.value.(count := c.value.count + 1)
  }

  function Consume(s: Store, facet: Option<string>, now: int): map<string, WindowCount> {
    if facet.None? || facet.value !in s.rateRules then s.rateCounts
    else
      var f := facet.value;
      s.rateCounts[f := Consumed(Lookup(s.rateCounts, f), s.rateRules[f].windowMs, now)]
  }

  /** `COALESCE(MAX(last_served_seq), 0)`. */
  function LastSeq(facets: map<string, Served>): (n: int)
    ensures forall f | f in facets :: facets[f].seqNo <= n
    ensures n == 0 || exists f :: f in facets && facets[f].seqNo == n
    ensures facets == map[] ==> n == 0
    decreases |facets|
  {
    if facets == map[] then 0 else MaxSeq(facets)
  }

  lemma {:induction false} MaxSeqExists(facets: map<string, Served>)
    requires facets != map[]
    ensures exists f :: f in facets && forall g | g in facets :: facets[g].seqNo <= facets[f].seqNo
    decreases |facets|
  {
    var k :| k in facets;
    var rest := facets - {k};
    assert facets.Keys == rest.Keys + {k};
    if rest == map[] {
      assert forall g | g in facets :: g == k;
    } else {
      MaxSeqExists(rest);
      var f :| f in rest && forall g | g in rest :: rest[g].seqNo <= rest[f].seqNo;
      var best := if rest[f].seqNo <= facets[k].seqNo then k else f;
      forall g | g in facets ensures facets[g].seqNo <= facets[best].seqNo {
        if g != k { assert g in rest; }
      }
    }
  }

  function MaxSeq(facets: map<string, Served>): (n: int)
    requires facets != map[]
    ensures forall f | f in facets :: facets[f].seqNo <= n
    ensures exists f :: f in facets && facets[f].seqNo == n
  {
    MaxSeqExists(facets);
    var n :| n in (set f | f in facets :: facets[f].seqNo) && forall g | g in facets :: facets[g].seqNo <= n; n
  }

  function Serve(cfg: Config, facets: map<string, Served>, j: Job, now: int): map<string, Served> {
    if cfg.fairness then facets[FacetKey(j) := Served(LastSeq(facets) + 1, now)] else facets
  }

  function ClaimedRow(cfg: Config, j: Job, worker: string, now: int): Job {
    j.(state := Active, worker := Some(worker), attempts := j.attempts + 1, lease := Some(now + cfg.leaseMs))
  }

  function ClaimJob(cfg: Config, s: Store, worker: string, id: Id, now: int, now2: int): Store
    requires id in s.jobs
  {
    var j := s.jobs[id];
    s.(jobs := s.jobs[id := ClaimedRow(cfg, j, worker, now2)],
       rateCounts := Consume(s, j.card.facet, now),
       facets := Serve(cfg, s.facets, j, now2),
       gauges := Transition(s.gauges, Some(Live(j.state)), Live(Active)))
  }

  predicate BadPoll(r: PollRequest) {
    Blank(r.worker) || exists i :: 0 <= i < |r.names| && Blank(r.names[i])
  }

  function MetadataOf(card: Card): Metadata {
    Metadata(if card.parent.Some? then card.parent.value else "", card.trace, card.depth)
  }

  function Poll(cfg: Config, s: Store, r: PollRequest, now: int, now2: int): (Store, Reply<Option<Grant>>) {
    if BadPoll(r) then (s, Err(InvalidArgument))
    else
      match Pick(cfg, s, r.names, now)
      case None => (s, Ok(None))
      case Some(id) =>
        var j := s.jobs[id];
        if j.attempts + 1 > U32_MAX then (s, Err(Internal))
        else (ClaimJob(cfg, s, r.worker, id, now, now2),
              Ok(Some(Grant(id, j.card.name, j.card.payload, MetadataOf(j.card), j.attempts + 1, now2 + cfg.leaseMs))))
  }

  // ---- What a poll returns ----

  /** A poll finds nothing exactly when no due, matching, unblocked job exists. */
  lemma EmptyPollMeansNothingEligible(cfg: Config, s: Store, names: seq<string>, now: int)
    ensures Pick(cfg, s, names, now).None? <==> forall id: Id :: !Eligible(s, names, now, id)
  {
    var keys := PollKeys(cfg, s, names, now);
    if Pick(cfg, s, names, now).Some? {
      assert Eligible(s, names, now, First(keys, Columns(cfg)));
    } else {
      forall id: Id ensures !Eligible(s, names, now, id) { assert id !in keys; }
    }
  }

  /** The picked job is eligible and comes first by priority, by turn, by age and by id. */
  lemma PickIsBest(cfg: Config, s: Store, names: seq<string>, now: int, y: Id)
    requires Pick(cfg, s, names, now).Some? && Eligible(s, names, now, y)
    ensures var x := Pick(cfg, s, names, now).value;
            && Eligible(s, names, now, x)
            && var jx, jy := s.jobs[x], s.jobs[y];
            && jx.card.priority <= jy.card.priority
            && (jx.card.priority == jy.card.priority ==>
              if cfg.fairness then
                && LastServed(s.facets, FacetKey(jx)) <= LastServed(s.facets, FacetKey(jy))
                && (LastServed(s.facets, FacetKey(jx)) == LastServed(s.facets, FacetKey(jy)) ==>
                      jx.card.createdAt <= jy.card.createdAt)
              else jx.card.createdAt <= jy.card.createdAt)
  {
    var keys := PollKeys(cfg, s, names, now);
    var x := First(keys, Columns(cfg));
    assert x in keys && y in keys;
    assert Leq(keys[x], keys[y]);
    assert Leq(keys[x][1..], keys[y][1..]) || keys[x][0] != keys[y][0];
    assert keys[x][1..][0] == keys[x][1] && keys[y][1..][0] == keys[y][1];
    if cfg.fairness && keys[x][0] == keys[y][0] && keys[x][1] == keys[y][1] {
      assert Leq(keys[x][1..][1..], keys[y][1..][1..]);
      assert keys[x][1..][1..][0] == keys[x][2] && keys[y][1..][1..][0] == keys[y][2];
    }
  }

  // ---- The call is a move of the job machine ----

  function PollMove(cfg: Config, s: Store, r: PollRequest, now: int): Move {
    if BadPoll(r) then Quiet
    else
      match Pick(cfg, s, r.names, now)
      case None => Quiet
      case Some(id) => if s.jobs[id].attempts + 1 > U32_MAX then Quiet else Claim(id)
  }

  lemma ClaimClaims(cfg: Config, s: Store, worker: string, id: Id, now: int, now2: int)
    requires id in s.jobs && (s.jobs[id].state.Waiting? || s.jobs[id].state.Delayed?)
    ensures Claims(s.jobs, id, ClaimJob(cfg, s, worker, id, now, now2).jobs)
  {
  }

  lemma PollIsMove(cfg: Config, v: View, s: Store, r: PollRequest, now: int, now2: int)
    requires v.jobs == s.jobs && v.history == s.history
    ensures Happens(cfg, v, PollMove(cfg, s, r, now), Poll(cfg, s, r, now, now2).0.jobs,
                    Poll(cfg, s, r, now, now2).0.history)
  {
    if !BadPoll(r) && Pick(cfg, s, r.names, now).Some? {
      var id := Pick(cfg, s, r.names, now).value;
      assert Eligible(s, r.names, now, id);
      ClaimClaims(cfg, s, r.worker, id, now, now2);
    }
  }
}
