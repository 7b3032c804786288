/**
  Round-robin over whole runs: what the turn table guarantees while no turn is
  pruned, whatever else happens between the claims.
 */
module FairRuns {
  import opened Tables
  import opened Dispatch
  import opened Fairness
  import opened World
  import Books
  import Enqueue
  import EnqueueLaws
  import Lifecycle
  import Timers = Scheduler

  /** The facet served by a step, if it was a poll that handed out a job. */
  function TurnIn(cfg: Config, s: Store, op: Op): Option<string> {
    if op.Poll? then TurnOf(cfg, s, op.poll, op.now) else None
  }

  predicate PrunesTurns(op: Op) {
    op.Sweep? && op.picks.facets != {}
  }

  lemma AddJobsFacets(cfg: Config, s: Store, bulk: bool, rs: seq<AddJobRequest>, ids: seq<Id>, traces: seq<string>,
                      now: int)
    requires |ids| == |traces| == |rs|
    ensures Enqueue.AddJobs(cfg, s, bulk, rs, ids, traces, now).0.facets == s.facets
  {
    if Enqueue.AddJobs(cfg, s, bulk, rs, ids, traces, now).1.Ok? {
      Books.BatchFrame(cfg, s, Enqueue.ItemsOf(Enqueue.ValidateAll(cfg, rs).value, ids, traces), now);
    } else {
      EnqueueLaws.FailedBatchLeavesNoTrace(cfg, s, bulk, rs, ids, traces, now);
    }
  }

  lemma FireFacets(cfg: Config, next: Timers.Cron, s: Store, id: Id, job: Id, trace: string, now: int)
    requires id in s.schedulers && Timers.Fire(cfg, next, s, id, s.schedulers[id], job, trace, now).Some?
    ensures Timers.Fire(cfg, next, s, id, s.schedulers[id], job, trace, now).value.facets == s.facets
  {
    Books.FireIsEnqueue(cfg, next, s, id, job, trace, now);
    Books.EnqueueFrame(cfg, s, Books.ShotOf(cfg, s.schedulers[id], job, trace).request, job, trace, now);
  }

  lemma InsertFacets(cfg: Config, next: Timers.Cron, v: Lifecycle.View, s: Store, op: Op)
    requires Legal(v, s, op) && Inserts(op)
    ensures Insert(cfg, next, v, s, op).facets == s.facets
  {
    if op.AddJobs? {
      AddJobsFacets(cfg, s, op.bulk, op.requests, op.ids, op.traces, op.now);
    } else if op.AddFlows? {
      Books.AddFlowsFrame(cfg, s, op.bulk, op.flows, op.supplies, op.now);
    } else if op.AddFlowMerge? {
      Books.MergeFrame(cfg, s, op.flow, op.supply, op.now);
    } else if Timers.Fire(cfg, next, s, op.scheduler, s.schedulers[op.scheduler], op.job, op.trace, op.now).Some? {
      FireFacets(cfg, next, s, op.scheduler, op.job, op.trace, op.now);
    }
  }

  lemma WorkFacets(cfg: Config, s: Store, op: Op)
    requires Works(op) && cfg.fairness && !PrunesTurns(op)
    ensures Turn(s.facets, TurnIn(cfg, s, op), Work(cfg, s, op).facets)
  {
    if op.Poll? {
      PollTakesTurn(cfg, s, op.poll, op.now, op.now2);
    } else if op.FinishJob? {
      Books.FinishFrame(s, op.finish, op.now, op.rand);
    } else if op.Sweep? {
      assert s.facets - {} == s.facets;
    }
  }

  lemma SetFacets(s: Store, op: Op)
    requires !Inserts(op) && !Works(op)
    ensures Set(s, op).facets == s.facets
  {
  }

  lemma StepTurn(cfg: Config, next: Timers.Cron, v: Lifecycle.View, s: Store, op: Op)
    requires Legal(v, s, op) && cfg.fairness && !PrunesTurns(op)
    ensures Turn(s.facets, TurnIn(cfg, s, op), Apply(cfg, next, v, s, op).facets)
  {
    if Inserts(op) {
      InsertFacets(cfg, next, v, s, op);
    } else if Works(op) {
      WorkFacets(cfg, s, op);
    } else {
      SetFacets(s, op);
    }
  }

  // ---- A stretch of a run ----

  function TurnTables(ws: seq<World>): seq<Turns> {
    seq(|ws|, i requires 0 <= i < |ws| => ws[i].db.facets)
  }

  function TurnsIn(cfg: Config, ws: seq<World>, ops: seq<Op>): seq<Option<string>>
    requires |ws| == |ops| + 1
  {
    seq(|ops|, i requires 0 <= i < |ops| => TurnIn(cfg, ws[i].db, ops[i]))
  }

  /** No fairness row is pruned in steps `a` to `b`. */
  predicate NoTurnPruned(ops: seq<Op>, a: nat, b: nat)
    requires b <= |ops|
  {
    forall i | a <= i < b :: !PrunesTurns(ops[i])
  }

  /** The turn tables of a run: distinct numbers throughout, and only claims and prunes change them. */
  ghost predicate FairRun(cfg: Config, ws: seq<World>, ops: seq<Op>) {
    && |ws| == |ops| + 1
    && (forall i | 0 <= i < |ws| :: Ranked(ws[i].db.facets))
    && (forall i | 0 <= i < |ops| :: FairStep(cfg, ws[i].db, ops[i], ws[i + 1].db))
  }

  predicate FairStep(cfg: Config, s: Store, op: Op, t: Store) {
    PrunesTurns(op) || Turn(s.facets, TurnIn(cfg, s, op), t.facets)
  }

  lemma RunTurn(cfg: Config, next: Timers.Cron, ws: seq<World>, ops: seq<Op>, i: nat)
    requires Run(cfg, next, ws, ops) && cfg.fairness && i < |ops|
    ensures FairStep(cfg, ws[i].db, ops[i], ws[i + 1].db)
  {
    assert Follows(cfg, next, ws[i], ops[i], ws[i + 1]);
    if !PrunesTurns(ops[i]) { StepTurn(cfg, next, ws[i].view, ws[i].db, ops[i]); }
  }

  lemma RunRanked(cfg: Config, next: Timers.Cron, ws: seq<World>, ops: seq<Op>, n: nat)
    requires Run(cfg, next, ws, ops) && n < |ws|
    ensures Ranked(ws[n].db.facets)
  {
    RunIsSound(cfg, next, ws, ops, n, false, false);
  }

  lemma RunIsFair(cfg: Config, next: Timers.Cron, ws: seq<World>, ops: seq<Op>)
    requires Run(cfg, next, ws, ops) && cfg.fairness
    ensures FairRun(cfg, ws, ops)
  {
    forall i | 0 <= i < |ws| ensures Ranked(ws[i].db.facets) { RunRanked(cfg, next, ws, ops, i); }
    forall i | 0 <= i < |ops| ensures FairStep(cfg, ws[i].db, ops[i], ws[i + 1].db) { RunTurn(cfg, next, ws, ops, i); }
  }

  /** Served numbers of different facets differ in every world of every run. */
  lemma TurnsAreDistinct(cfg: Config, next: Timers.Cron, ws: seq<World>, ops: seq<Op>, n: nat, f: string, g: string)
    requires Run(cfg, next, ws, ops) && n < |ws| && f in ws[n].db.facets && g in ws[n].db.facets && f != g
    ensures ws[n].db.facets[f].seqNo != ws[n].db.facets[g].seqNo
  {
    RunRanked(cfg, next, ws, ops, n);
  }

  /** A job eligible in a step at the priority of the job that step hands out. */
  predicate EligibleAtTier(cfg: Config, s: Store, op: Op, y: Id)
    requires op.Poll?
  {
    && Granted(cfg, s, op.poll, op.now)
    && Eligible(s, op.poll.names, op.now, y)
    && s.jobs[y].card.priority == s.jobs[Pick(cfg, s, op.poll.names, op.now).value].card.priority
  }

  lemma SomeoneBetween(tables: seq<Turns>, turns: seq<Option<string>>, i: nat, k: nat, f: string, g: string)
    requires |tables| == |turns| + 1 && i < k < |turns| && Ranked(tables[i]) && f != g
    requires forall j | i <= j <= k :: Turn(tables[j], turns[j], tables[j + 1])
    requires turns[i] == Some(f) && turns[k] == Some(f) && LastServed(tables[k], f) <= LastServed(tables[k], g)
    ensures exists j :: i < j < k && turns[j] == Some(g)
  {
    var part, steps := tables[i..k + 2], turns[i..k + 1];
    forall j | 0 <= j < |steps| ensures Turn(part[j], steps[j], part[j + 1]) {
      assert Turn(tables[i + j], turns[i + j], tables[i + j + 1]);
    }
    NobodyIsSkipped(part, steps, 0, k - i, f, g);
    var j :| 0 < j < k - i && steps[j] == Some(g);
    assert turns[i + j] == Some(g);
  }

  lemma FairTurns(cfg: Config, ws: seq<World>, ops: seq<Op>, i: nat, k: nat)
    requires FairRun(cfg, ws, ops) && i <= k < |ops| && NoTurnPruned(ops, i, k + 1)
    ensures forall j | i <= j <= k :: Turn(TurnTables(ws)[j], TurnsIn(cfg, ws, ops)[j], TurnTables(ws)[j + 1])
  {
    forall j | i <= j <= k ensures Turn(TurnTables(ws)[j], TurnsIn(cfg, ws, ops)[j], TurnTables(ws)[j + 1]) {
      assert FairStep(cfg, ws[j].db, ops[j], ws[j + 1].db);
    }
  }

  lemma FairBetween(cfg: Config, ws: seq<World>, ops: seq<Op>, i: nat, k: nat, f: string, g: string)
    requires FairRun(cfg, ws, ops) && i < k < |ops| && NoTurnPruned(ops, i, k + 1) && f != g
    requires TurnIn(cfg, ws[i].db, ops[i]) == Some(f) && TurnIn(cfg, ws[k].db, ops[k]) == Some(f)
    requires LastServed(ws[k].db.facets, f) <= LastServed(ws[k].db.facets, g)
    ensures exists j :: i < j < k && TurnIn(cfg, ws[j].db, ops[j]) == Some(g)
  {
    FairTurns(cfg, ws, ops, i, k);
    SomeoneBetween(TurnTables(ws), TurnsIn(cfg, ws, ops), i, k, f, g);
    var j :| i < j < k && TurnsIn(cfg, ws, ops)[j] == Some(g);
    assert TurnIn(cfg, ws[j].db, ops[j]) == Some(g);
  }

  /**
    A facet is not served twice while another facet, eligible at the second claim's priority, went
    unserved in between; whatever other calls happened, as long as no fairness row was pruned.
   */
  lemma ServedInBetween(cfg: Config, next: Timers.Cron, ws: seq<World>, ops: seq<Op>, i: nat, k: nat, f: string, y: Id)
    requires Run(cfg, next, ws, ops) && cfg.fairness && i < k < |ops| && NoTurnPruned(ops, i, k + 1)
    requires TurnIn(cfg, ws[i].db, ops[i]) == Some(f) && TurnIn(cfg, ws[k].db, ops[k]) == Some(f)
    requires EligibleAtTier(cfg, ws[k].db, ops[k], y) && FacetKey(ws[k].db.jobs[y]) != f
    ensures exists j :: i < j < k && TurnIn(cfg, ws[j].db, ops[j]) == Some(FacetKey(ws[k].db.jobs[y]))
  {
    RunIsFair(cfg, next, ws, ops);
    LongestWaitFirst(cfg, ws[k].db, ops[k].poll, ops[k].now, y);
    FairBetween(cfg, ws, ops, i, k, f, FacetKey(ws[k].db.jobs[y]));
  }

  // ---- k facets, k claims ----

  /** The facets eligible at the priority of the job a poll hands out. */
  ghost predicate TierIs(cfg: Config, s: Store, op: Op, field: set<string>) {
    && op.Poll? && Granted(cfg, s, op.poll, op.now)
    && (forall g | g in field :: exists y :: EligibleAtTier(cfg, s, op, y) && FacetKey(s.jobs[y]) == g)
    && (forall y: Id :: EligibleAtTier(cfg, s, op, y) ==> FacetKey(s.jobs[y]) in field)
  }

  /** The steps `at` are claims in order, with no other claim and no pruning between the first and the last. */
  ghost predicate Consecutive(cfg: Config, ws: seq<World>, ops: seq<Op>, at: seq<nat>) {
    && |ws| == |ops| + 1
    && (forall i | 0 <= i < |at| :: at[i] < |ops| && TurnIn(cfg, ws[at[i]].db, ops[at[i]]).Some?)
    && (forall i | 0 <= i < |at| - 1 :: at[i] < at[i + 1] && Still(cfg, ws, ops, at[i] + 1, at[i + 1]))
  }

  /** Steps `a` to `b` neither claim nor prune turns. */
  predicate Still(cfg: Config, ws: seq<World>, ops: seq<Op>, a: nat, b: nat)
    requires b <= |ops| < |ws|
  {
    forall j | a <= j < b :: TurnIn(cfg, ws[j].db, ops[j]).None? && !PrunesTurns(ops[j])
  }

  lemma {:induction false} TurnsStand(cfg: Config, ws: seq<World>, ops: seq<Op>, a: nat, b: nat)
    requires FairRun(cfg, ws, ops) && a <= b <= |ops| && Still(cfg, ws, ops, a, b)
    ensures ws[b].db.facets == ws[a].db.facets
  {
    if a < b {
      TurnsStand(cfg, ws, ops, a, b - 1);
      assert FairStep(cfg, ws[b - 1].db, ops[b - 1], ws[b - 1 + 1].db);
    }
  }

  /** The turn table before each of the claims, and after the last. */
  function TablesAt(ws: seq<World>, at: seq<nat>): seq<Turns>
    requires |at| > 0 && forall i | 0 <= i < |at| :: at[i] + 1 < |ws|
  {
    seq(|at| + 1, i requires 0 <= i <= |at| => if i < |at| then ws[at[i]].db.facets else ws[at[|at| - 1] + 1].db.facets)
  }

  ghost function ServedAt(cfg: Config, ws: seq<World>, ops: seq<Op>, at: seq<nat>): seq<string>
    requires Consecutive(cfg, ws, ops, at)
  {
    seq(|at|, i requires 0 <= i < |at| => TurnIn(cfg, ws[at[i]].db, ops[at[i]]).value)
  }

  lemma ClaimTurn(cfg: Config, ws: seq<World>, ops: seq<Op>, at: seq<nat>, i: nat)
    requires FairRun(cfg, ws, ops) && Consecutive(cfg, ws, ops, at) && i < |at|
    ensures Turn(TablesAt(ws, at)[i], TurnIn(cfg, ws[at[i]].db, ops[at[i]]), TablesAt(ws, at)[i + 1])
  {
    var a := at[i];
    assert FairStep(cfg, ws[a].db, ops[a], ws[a + 1].db) && ops[a].Poll?;
    if i + 1 < |at| {
      assert Still(cfg, ws, ops, at[i] + 1, at[i + 1]);
      TurnsStand(cfg, ws, ops, a + 1, at[i + 1]);
    }
  }

  lemma FieldCompetes(cfg: Config, s: Store, op: Op, field: set<string>, g: string)
    requires cfg.fairness && TierIs(cfg, s, op, field) && g in field
    ensures TurnIn(cfg, s, op).Some? && TurnIn(cfg, s, op).value in field
    ensures LastServed(s.facets, TurnIn(cfg, s, op).value) <= LastServed(s.facets, g)
  {
    var x := Pick(cfg, s, op.poll.names, op.now).value;
    assert EligibleAtTier(cfg, s, op, x);
    var y :| EligibleAtTier(cfg, s, op, y) && FacetKey(s.jobs[y]) == g;
    LongestWaitFirst(cfg, s, op.poll, op.now, y);
  }

  lemma ClaimsAreRounds(cfg: Config, ws: seq<World>, ops: seq<Op>, at: seq<nat>)
    requires FairRun(cfg, ws, ops) && Consecutive(cfg, ws, ops, at) && |at| > 0
    ensures Rounds(TablesAt(ws, at), Everyone(ServedAt(cfg, ws, ops, at)))
  {
    var tables, served := TablesAt(ws, at), ServedAt(cfg, ws, ops, at);
    forall i | 0 <= i < |at| ensures Turn(tables[i], Everyone(served)[i], tables[i + 1]) {
      ClaimTurn(cfg, ws, ops, at, i);
    }
  }

  lemma ClaimsCompete(cfg: Config, ws: seq<World>, ops: seq<Op>, at: seq<nat>, field: set<string>)
    requires cfg.fairness && Consecutive(cfg, ws, ops, at) && |at| > 0 && field != {}
    requires forall i | 0 <= i < |at| :: TierIs(cfg, ws[at[i]].db, ops[at[i]], field)
    ensures Competes(TablesAt(ws, at), ServedAt(cfg, ws, ops, at), field)
  {
    var tables, served := TablesAt(ws, at), ServedAt(cfg, ws, ops, at);
    forall i | 0 <= i < |at| ensures served[i] in field {
      var one :| one in field;
      FieldCompetes(cfg, ws[at[i]].db, ops[at[i]], field, one);
    }
    forall i, g | 0 <= i < |at| && g in field ensures LastServed(tables[i], served[i]) <= LastServed(tables[i], g) {
      FieldCompetes(cfg, ws[at[i]].db, ops[at[i]], field, g);
    }
  }

  lemma OnceEach(cfg: Config, ws: seq<World>, ops: seq<Op>, at: seq<nat>, field: set<string>)
    requires FairRun(cfg, ws, ops) && cfg.fairness && Consecutive(cfg, ws, ops, at) && |at| == |field| > 0
    requires forall i | 0 <= i < |at| :: TierIs(cfg, ws[at[i]].db, ops[at[i]], field)
    ensures var served := ServedAt(cfg, ws, ops, at);
            Among(served, 0, |served|) == field && forall i, j | 0 <= i < j < |served| :: served[i] != served[j]
  {
    ClaimsAreRounds(cfg, ws, ops, at);
    ClaimsCompete(cfg, ws, ops, at, field);
    RoundRobin(TablesAt(ws, at), ServedAt(cfg, ws, ops, at), field);
  }

  /** While exactly k facets are eligible at the lowest tier, k claims in a row serve each of them exactly once. */
  lemma EachOnce(cfg: Config, next: Timers.Cron, ws: seq<World>, ops: seq<Op>, at: seq<nat>, field: set<string>)
    requires Run(cfg, next, ws, ops) && cfg.fairness && Consecutive(cfg, ws, ops, at) && |at| == |field| > 0
    requires forall i | 0 <= i < |at| :: TierIs(cfg, ws[at[i]].db, ops[at[i]], field)
    ensures var served := ServedAt(cfg, ws, ops, at);
            Among(served, 0, |served|) == field && forall i, j | 0 <= i < j < |served| :: served[i] != served[j]
  {
    RunIsFair(cfg, next, ws, ops);
    OnceEach(cfg, ws, ops, at, field);
  }
}
