/**
  GetNextJob row by row: which jobs a poll may claim, which of them it claims,
  what it writes, and that the claim it hands out can be used.
 */
module ClaimedRows {
  import opened Tables
  import opened Queries
  import opened Dispatch
  import opened FinishedRows
  import Finish
  import Leases

  // ---- Which jobs may be claimed ----

  /** The facet's dispatch rule, if there is one, has room left in its open window. */
  predicate HasRoom(s: Store, facet: Option<string>, now: int) {
    facet.None? || facet.value !in s.rateRules ||
    (var f := facet.value;
     && s.rateRules[f].maxJobs > 0
     && (f in s.rateCounts && s.rateCounts[f].expiresAt > now ==> s.rateCounts[f].count < s.rateRules[f].maxJobs))
  }

  predicate Claimable(s: Store, names: seq<string>, now: int, id: Id) {
    && id in s.jobs
    && (s.jobs[id].state == Waiting || s.jobs[id].state == Delayed)
    && s.jobs[id].availableAt <= now
    && (names == [] || exists i :: 0 <= i < |names| && names[i] == s.jobs[id].card.name)
    && HasRoom(s, s.jobs[id].card.facet, now)
  }

  lemma ClaimableIsEligible(s: Store, names: seq<string>, now: int, id: Id)
    ensures Claimable(s, names, now, id) <==> Eligible(s, names, now, id)
  {
  }

  // ---- Which of them is claimed ----

  /** The number of the last turn of the job's facet, 0 if it never had one. */
  function Turn(s: Store, j: Job): int {
    var f := if j.card.facet.Some? then j.card.facet.value else "";
    if f in s.facets then s.facets[f].seqNo else 0
  }

  /** Older first, and of the same age the smaller id. */
  predicate Older(s: Store, x: Id, y: Id)
    requires x in s.jobs && y in s.jobs
  {
    var a, b := s.jobs[x].card.createdAt, s.jobs[y].card.createdAt;
    a < b || (a == b && Leq(Text(x), Text(y)))
  }

  /** Priority, then with fairness the facet served longest ago, then age. */
  predicate Precedes(cfg: Config, s: Store, x: Id, y: Id)
    requires x in s.jobs && y in s.jobs
  {
    var p, q := s.jobs[x].card.priority, s.jobs[y].card.priority;
    p < q || (p == q &&
      if cfg.fairness
      then Turn(s, s.jobs[x]) < Turn(s, s.jobs[y]) || (Turn(s, s.jobs[x]) == Turn(s, s.jobs[y]) && Older(s, x, y))
      else Older(s, x, y))
  }

  lemma KeyOrder(a: int, b: int, rest: seq<int>, rest': seq<int>)
    ensures Leq([a] + rest, [b] + rest') <==> a < b || (a == b && Leq(rest, rest'))
  {
    assert ([a] + rest)[1..] == rest && ([b] + rest')[1..] == rest';
  }

  lemma KeyUnfolds(cfg: Config, s: Store, id: Id)
    requires id in s.jobs
    ensures var j := s.jobs[id];
            PollKey(cfg, s, id, j) ==
            if cfg.fairness then [j.card.priority] + ([Turn(s, j)] + ([j.card.createdAt] + Text(id)))
            else [j.card.priority] + ([j.card.createdAt] + Text(id))
  {
  }

  lemma KeyPrecedes(cfg: Config, s: Store, x: Id, y: Id)
    requires x in s.jobs && y in s.jobs
    ensures Leq(PollKey(cfg, s, x, s.jobs[x]), PollKey(cfg, s, y, s.jobs[y])) <==> Precedes(cfg, s, x, y)
  {
    var a, b := s.jobs[x], s.jobs[y];
    KeyUnfolds(cfg, s, x);
    KeyUnfolds(cfg, s, y);
    var tx, ty := [a.card.createdAt] + Text(x), [b.card.createdAt] + Text(y);
    KeyOrder(a.card.createdAt, b.card.createdAt, Text(x), Text(y));
    if cfg.fairness {
      KeyOrder(Turn(s, a), Turn(s, b), tx, ty);
      KeyOrder(a.card.priority, b.card.priority, [Turn(s, a)] + tx, [Turn(s, b)] + ty);
    } else {
      KeyOrder(a.card.priority, b.card.priority, tx, ty);
    }
  }

  /** The job is claimable and precedes every other claimable job. */
  ghost predicate IsNext(cfg: Config, s: Store, names: seq<string>, now: int, x: Id) {
    Claimable(s, names, now, x) && forall y: Id | Claimable(s, names, now, y) :: Precedes(cfg, s, x, y)
  }

  lemma PickIsNext(cfg: Config, s: Store, names: seq<string>, now: int)
    ensures Pick(cfg, s, names, now).None? <==> forall y: Id :: !Claimable(s, names, now, y)
    ensures Pick(cfg, s, names, now).Some? ==> IsNext(cfg, s, names, now, Pick(cfg, s, names, now).value)
  {
    var keys := PollKeys(cfg, s, names, now);
    forall y: Id ensures y in keys <==> Claimable(s, names, now, y) { ClaimableIsEligible(s, names, now, y); }
    if keys != map[] {
      var x := Pick(cfg, s, names, now).value;
      assert x in keys;
      forall y: Id | Claimable(s, names, now, y) ensures Precedes(cfg, s, x, y) {
        assert y in keys && Leq(keys[x], keys[y]);
        KeyPrecedes(cfg, s, x, y);
      }
    } else {
      assert forall y: Id :: y !in keys;
    }
  }

  // ---- What a poll answers and writes ----

  predicate BlankPoll(r: PollRequest) {
    Blank(r.worker) || exists i :: 0 <= i < |r.names| && Blank(r.names[i])
  }

  /** The grant describes the claim that the row now holds. */
  predicate Describes(g: Grant, j: Job, worker: string) {
    && j.state == Active && j.attempts == g.attempts && j.worker == Some(worker) && j.lease == Some(g.leaseUntil)
    && g.name == j.card.name && g.payload == j.card.payload && g.metadata.traceId == j.card.trace
    && g.metadata.depth == j.card.depth
    && (if j.card.parent.Some? then g.metadata.parentId == j.card.parent.value else g.metadata.parentId == "")
  }

  /** One job is claimed under its next attempt, for a full lease, and no other job's row changes. */
  predicate Claims(cfg: Config, s: Store, t: Store, r: PollRequest, now2: int, g: Grant) {
    && g.id in s.jobs && g.id in t.jobs && t.jobs == s.jobs[g.id := t.jobs[g.id]]
    && Describes(g, t.jobs[g.id], r.worker)
    && g.attempts == s.jobs[g.id].attempts + 1 && g.leaseUntil == now2 + cfg.leaseMs
    && t.jobs[g.id] == s.jobs[g.id].(state := Active, attempts := g.attempts, worker := Some(r.worker),
                                     lease := Some(g.leaseUntil))
    && t == s.(jobs := t.jobs, rateCounts := t.rateCounts, facets := t.facets, gauges := t.gauges)
  }

  /** A claim counts in its facet's window, opening one if none is open. */
  predicate Charges(s: Store, t: Store, facet: Option<string>, now: int) {
    if facet.None? || facet.value !in s.rateRules then t.rateCounts == s.rateCounts
    else
      var f := facet.value;
      && f in t.rateCounts && t.rateCounts == s.rateCounts[f := t.rateCounts[f]]
      && t.rateCounts[f] == if f in s.rateCounts && s.rateCounts[f].expiresAt > now
                            then WindowCount(s.rateCounts[f].count + 1, s.rateCounts[f].expiresAt)
                            else WindowCount(1, SatAdd(now, s.rateRules[f].windowMs))
  }

  /** With fairness, a claim takes a turn later than all turns before it, for its facet. */
  predicate TakesTurn(cfg: Config, s: Store, t: Store, j: Job, now2: int) {
    if !cfg.fairness then t.facets == s.facets
    else
      var f := if j.card.facet.Some? then j.card.facet.value else "";
      && f in t.facets && t.facets == s.facets[f := t.facets[f]] && t.facets[f].at == now2
      && (forall g | g in s.facets :: s.facets[g].seqNo < t.facets[f].seqNo)
      && (s.facets == map[] ==> t.facets[f].seqNo == 1)
  }

  lemma ClaimWrites(cfg: Config, s: Store, r: PollRequest, now: int, now2: int)
    requires Poll(cfg, s, r, now, now2).1.Ok? && Poll(cfg, s, r, now, now2).1.value.Some?
    ensures var (t, reply) := Poll(cfg, s, r, now, now2);
            var g := reply.value.value;
            && Pick(cfg, s, r.names, now) == Some(g.id) && !BadPoll(r)
            && Claims(cfg, s, t, r, now2, g)
            && Charges(s, t, s.jobs[g.id].card.facet, now)
            && TakesTurn(cfg, s, t, s.jobs[g.id], now2)
  {
  }

  /** A poll hands out the first claimable job; with none claimable it finds nothing and changes nothing. */
  lemma PollExactly(cfg: Config, s: Store, r: PollRequest, now: int, now2: int)
    ensures var (t, reply) := Poll(cfg, s, r, now, now2);
            && (BlankPoll(r) <==> reply == Err(InvalidArgument))
            && (reply.Ok? && reply.value.Some? <==> t != s)
            && (!BlankPoll(r) ==>
                  (reply == Ok(None) <==> forall y: Id :: !Claimable(s, r.names, now, y)))
            && (reply.Err? && !BlankPoll(r) ==>
                  exists x: Id :: IsNext(cfg, s, r.names, now, x) && s.jobs[x].attempts >= U32_MAX)
    ensures var (t, reply) := Poll(cfg, s, r, now, now2);
            reply.Ok? && reply.value.Some? ==>
              var g := reply.value.value;
              && !BlankPoll(r) && IsNext(cfg, s, r.names, now, g.id)
              && Claims(cfg, s, t, r, now2, g)
              && Charges(s, t, s.jobs[g.id].card.facet, now)
              && TakesTurn(cfg, s, t, s.jobs[g.id], now2)
  {
    PickIsNext(cfg, s, r.names, now);
    var (t, reply) := Poll(cfg, s, r, now, now2);
    if reply.Ok? && reply.value.Some? {
      ClaimWrites(cfg, s, r, now, now2);
      assert t.jobs[reply.value.value.id].state != s.jobs[reply.value.value.id].state;
    }
  }

  // ---- The claim can be used ----

  /** Until its lease runs out, and not after, the worker can complete, fail or renew the claim it was handed. */
  lemma GrantIsGood(cfg: Config, s: Store, r: PollRequest, now: int, now2: int, f: Finish.FinishRequest,
                    b: Leases.HeartbeatRequest, at: int, rand: real)
    requires var reply := Poll(cfg, s, r, now, now2).1;
             reply.Ok? && reply.value.Some? && !Blank(reply.value.value.id)
    requires var g := Poll(cfg, s, r, now, now2).1.value.value;
             && f.id == b.id == g.id && f.worker == b.worker == r.worker && f.attempt == b.attempt == g.attempts
    ensures var t, g := Poll(cfg, s, r, now, now2).0, Poll(cfg, s, r, now, now2).1.value.value;
            && (at < g.leaseUntil <==> Finish.FinishJob(t, f, at, rand).1.Ok?)
            && (at < g.leaseUntil <==> Finish.FinishJob(t, f, at, rand).0 != t)
            && (at < g.leaseUntil <==> Leases.Heartbeat(cfg, t, b, at).1.Ok?)
  {
    PollExactly(cfg, s, r, now, now2);
    var t := Poll(cfg, s, r, now, now2).0;
    FinishExactly(t, f, at, rand);
    HeartbeatExactly(cfg, t, b, at);
  }
}
