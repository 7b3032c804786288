/**
  The broker as an object: one database behind one lock.  Each method is a call
  or a background pass; it works on copies of the tables, which is what its
  transaction sees, and stores them back when it commits.  Gauges move after the
  commit.
 */
module Service {
  import opened Tables
  import opened Telemetry
  import opened Queries
  import opened Lifecycle
  import opened Flatten
  import opened FlattenLaws
  import opened FlowLaws
  import opened Transactions
  import opened FlowTransactions
  import AdmittedRows
  import Backoff
  import ClaimedRows
  import Dispatch
  import Enqueue
  import EnqueueLaws
  import Finish
  import FinishedRows
  import Flow
  import FlowCalls
  import FlowRows
  import Leases
  import MergeCalls
  import ReceiptLaws
  import RecoveredRows
  import Retention
  import RuleLaws
  import Rules
  import SweptRows
  import Timers = Scheduler

  class Broker {
    const cfg: Config
    var db: Store

    constructor (cfg: Config)
      ensures this.cfg == cfg && db == EMPTY
    {
      this.cfg := cfg;
      db := EMPTY;
    }

    // ---- Workers ----

    /** Selects, charges the facet's window, claims, takes the facet's turn. */
    method GetNextJob(r: Dispatch.PollRequest, now: int, now2: int) returns (reply: Reply<Option<Dispatch.Grant>>)
      modifies this`db
      ensures (db, reply) == Dispatch.Poll(cfg, old(db), r, now, now2)
      ensures ClaimedRows.BlankPoll(r) <==> reply == Err(InvalidArgument)
      ensures !ClaimedRows.BlankPoll(r) ==>
                (reply == Ok(None) <==> forall y: Id :: !ClaimedRows.Claimable(old(db), r.names, now, y))
      ensures if reply.Ok? && reply.value.Some? then
                && ClaimedRows.IsNext(cfg, old(db), r.names, now, reply.value.value.id)
                && ClaimedRows.Claims(cfg, old(db), db, r, now2, reply.value.value)
              else db == old(db)
    {
      ClaimedRows.PollExactly(cfg, db, r, now, now2);
      if Blank(r.worker) { return Err(InvalidArgument); }
      if exists i :: 0 <= i < |r.names| && Blank(r.names[i]) { return Err(InvalidArgument); }
      var picked := Dispatch.Pick(cfg, db, r.names, now);
      if picked.None? { return Ok(None); }
      var id := picked.value;
      var j := db.jobs[id];
      if j.attempts + 1 > U32_MAX { return Err(Internal); }
      var until := now2 + cfg.leaseMs;
      db := ClaimRow(cfg, db, r.worker, id, until, now, now2);
      var metadata := Metadata(if j.card.parent.Some? then j.card.parent.value else "", j.card.trace, j.card.depth);
      return Ok(Some(Dispatch.Grant(id, j.card.name, j.card.payload, metadata, j.attempts + 1, until)));
    }

    /** The shared end of CompleteJob and FailJob. */
    method FinishJob(r: Finish.FinishRequest, now: int, rand: real) returns (reply: Reply<bool>)
      modifies this`db
      ensures (db, reply) == Finish.FinishJob(old(db), r, now, rand)
      ensures db != old(db) <==> FinishedRows.Honoured(old(db), r, now)
      ensures if FinishedRows.Honoured(old(db), r, now)
              then reply == Ok(FinishedRows.GivesUp(old(db).jobs[r.id], r))
              else FinishedRows.Declined(old(db), r, reply)
    {
      FinishedRows.FinishExactly(db, r, now, rand);
      var verdict := Finish.Judge(db, r, now);
      match verdict
      case Refused(code) => return Err(code);
      case Replayed => return Ok(false);
      case Accepted =>
        var j := db.jobs[r.id];
        var failed := r.error.Some?;
        if failed && j.attempts < j.card.maxAttempts && !r.nonRetryable {
          var delay := Backoff.ApplyJitter(Backoff.RetryDelay(j.retry.base, j.retry.cap, j.attempts), j.retry.jitter,
                                           rand);
          var state := if delay == 0 then Waiting else Delayed;
          var row := j.(state := state, availableAt := SatAdd(now, delay), worker := None, lease := None,
                        lastError := r.error);
          db := db.(jobs := db.jobs[r.id := row], gauges := Transition(db.gauges, Some(Live(Active)), Live(state)));
          return Ok(false);
        } else if failed {
          FailTerminally(r, now);
          return Ok(true);
        } else {
          Complete(r, now);
          return Ok(false);
        }
    }

    method FailTerminally(r: Finish.FinishRequest, now: int)
      requires r.id in db.jobs
      modifies this`db
      ensures db == Finish.Fail(old(db), r, now)
    {
      var jobs, history, receipts, failures, leftWaiting := FailUpward(db, r, now);
      var g := Transition(db.gauges, Some(Live(Active)), Ended(Failed));
      var parked: int := leftWaiting;
      g := Telemetry.Parked(g, 0 - parked);
      g := CountFailures(g, failures);
      db := db.(jobs := jobs, history := history, receipts := receipts, gauges := g);
    }

    method Complete(r: Finish.FinishRequest, now: int)
      requires r.id in db.jobs
      modifies this`db
      ensures db == Finish.Succeed(old(db), r, now)
    {
      var jobs, history, receipts, released := CompleteAndRelease(db, r, now);
      var g := Transition(db.gauges, Some(Live(Active)), Ended(Completed));
      if released.Some? { g := Transition(Telemetry.Parked(g, -1), None, Live(released.value)); }
      db := db.(jobs := jobs, history := history, receipts := receipts, gauges := g);
    }

    method RenewLease(r: Leases.HeartbeatRequest, now: int) returns (reply: Reply<int>)
      modifies this`db
      ensures (db, reply) == Leases.Heartbeat(cfg, old(db), r, now)
      ensures reply.Ok? <==> !Blank(r.id) && !Blank(r.worker) && r.attempt != 0
                             && FinishedRows.OwnsClaim(old(db), r.id, r.worker, r.attempt, now)
      ensures reply.Ok? ==> Leases.Extends(cfg, old(db), db, r.id, now, reply.value)
      ensures reply.Err? ==> db == old(db)
    {
      FinishedRows.HeartbeatExactly(cfg, db, r, now);
      if Blank(r.id) || Blank(r.worker) || r.attempt == 0 { return Err(InvalidArgument); }
      if r.id !in db.jobs {
        if r.id in db.history { return Err(FailedPrecondition); }
        return Err(NotFound);
      }
      var j := db.jobs[r.id];
      if !j.state.Active? { return Err(FailedPrecondition); }
      if j.worker != Some(r.worker) { return Err(PermissionDenied); }
      if j.attempts != r.attempt || j.lease.None? || j.lease.value <= now { return Err(FailedPrecondition); }
      var until := if j.lease.value > now + cfg.leaseMs then j.lease.value else now + cfg.leaseMs;
      db := db.(jobs := db.jobs[r.id := j.(lease := Some(until))]);
      return Ok(until);
    }

    /** One bounded recovery pass. */
    method RecoverExpired(batch: nat, now: int) returns (recovered: nat)
      modifies this`db
      ensures db == Leases.Recover(old(db), batch, now)
      ensures var all := |RecoveredRows.AllExpired(old(db).jobs, now)|; recovered == if batch < all then batch else all
      ensures |RecoveredRows.AllExpired(old(db).jobs, now)| <= batch ==>
                forall id: Id :: !RecoveredRows.Expired(db.jobs, now, id)
    {
      NothingLeft(db, batch, now);
      var rows := Leases.ExpiredBatch(db.jobs, now, batch);
      ExpiredRowsExist(db.jobs, now, batch);
      var jobs, history, receipts := RecoverBatch(db, rows, now);
      var g := CountRecovered(db.gauges, db.jobs, rows, now);
      db := db.(jobs := jobs, history := history, receipts := receipts, gauges := g);
      recovered := |rows|;
    }

    // ---- AddJob and AddJobBulk ----

    method AddJobs(bulk: bool, rs: seq<AddJobRequest>, ids: seq<Id>, traces: seq<string>, now: int)
      returns (reply: Reply<seq<Enqueue.AddReply>>)
      requires |ids| == |traces| == |rs|
      modifies this`db
      ensures (db, reply) == Enqueue.AddJobs(cfg, old(db), bulk, rs, ids, traces, now)
      ensures reply.Ok? && AdmittedRows.FreshIds(old(db), ids) ==>
                && |reply.value| == |rs|
                && forall k | 0 <= k < |rs| :: AdmittedRows.Told(db, rs[k], ids[k], traces[k], reply.value[k], now)
      ensures reply.Err? ==> EnqueueLaws.SameButRejections(old(db), db)
    {
      AllTold(cfg, db, bulk, rs, ids, traces, now);
      if bulk && (rs == [] || |rs| > Enqueue.MAX_BULK_BATCH_SIZE) { return Err(InvalidArgument); }
      var valid := ValidateBatch(cfg, rs);
      if valid.Err? { return Err(valid.code); }
      var b := ExecuteBatch(cfg, db, Enqueue.ItemsOf(valid.value, ids, traces), now);
      match b
      case Done(tx, replies) =>
        db := tx;
        return Ok(replies);
      case Undone(code, record) =>
        if record.Some? {
          db := db.(rejections := db.rejections[db.nextRejection := record.value],
                    nextRejection := db.nextRejection + 1);
        }
        return Err(code);
    }

    // ---- Flows ----

    /** AddFlow and AddFlowBulk: prepare every tree, store every tree, then count. */
    method AddFlows(bulk: bool, flows: seq<FlowJob>, supplies: seq<seq<Id>>,
                    now: int) returns (reply: Reply<seq<seq<Flow.FlowNode>>>)
      requires Flow.Supplied(flows, supplies) && forall i | 0 <= i < |supplies| :: Distinct(supplies[i])
      modifies this`db
      ensures (db, reply) == Flow.AddFlows(cfg, old(db), bulk, flows, supplies, now)
      ensures reply.Ok? <==> (bulk ==> 1 <= |flows| <= cfg.maxFlowBulk) && Flow.AcceptableTrees(cfg, flows, {})
                             && FlowCalls.AllStorable(old(db).receipts, FlowCalls.AllNodes(flows), now)
      ensures reply.Err? ==> db == old(db)
      ensures reply.Ok? && FlowRows.NewIds(old(db).receipts, supplies) ==>
                forall f, i | 0 <= f < |flows| && 0 <= i < Size(flows[f]) ::
                  FlowCalls.NodeStored(db, FlowRows.Preorder(flows[f])[i], supplies[f][i], supplies[f][0], now)
    {
      AllSent(cfg, db, bulk, flows, supplies, now);
      if bulk && (flows == [] || |flows| > cfg.maxFlowBulk) { return Err(InvalidArgument); }
      var ok, trees := PrepareTrees(cfg, flows, supplies);
      if !ok { return Err(InvalidArgument); }
      var failure, jobs, receipts := StoreTrees(cfg, db, flows, supplies, trees, now);
      if failure.Some? { return Err(failure.value); }
      var g := FlushTrees(db.gauges, trees);
      db := db.(jobs := jobs, receipts := receipts, gauges := g);
      var nodes := DescribeTrees(trees);
      assert nodes == Flow.Reports(flows, supplies);
      return Ok(nodes);
    }

    /** AddFlowMerge: prepare the children, check the target and the merged tree, store, re-gate the target. */
    method AddFlowMerge(flow: FlowJob, supply: seq<Id>, now: int) returns (reply: Reply<Flow.Attached>)
      requires SizeAll(flow.children) <= |supply| && Distinct(supply)
      modifies this`db
      ensures (db, reply) == Flow.AddFlowMerge(cfg, old(db), flow, supply, now)
      ensures reply.Err? ==> db == old(db)
      ensures reply.Ok? && FlowRows.NewIds(old(db).receipts, [supply]) ==>
                forall i | 0 <= i < SizeAll(flow.children) ::
                  && supply[i] in db.jobs && db.jobs[supply[i]].treeId.Some?
                  && FlowCalls.NodeStored(db, FlowRows.PreorderAll(flow.children)[i], supply[i],
                                          db.jobs[supply[i]].treeId.value, now)
    {
      AllMerged(cfg, db, flow, supply, now);
      if flow.body.key == "" || flow.children == [] { return Err(InvalidArgument); }
      var p := new Preparation();
      var ok := p.PrepareAll(flow.children, None, 1, U32_MAX, U32_MAX, supply);
      if !ok { return Err(InvalidArgument); }
      var rows := p.rows;
      assert rows == FlatAll(flow.children, None, 1, supply, 0);
      var height := Deepest(rows);
      DeepestIsHeight(flow.children, supply, height);
      var direct := CountRoots(rows);
      RootsAreTrees(flow.children, 1, supply, 0);
      if SlotOf(flow.body) !in db.receipts { return Err(NotFound); }
      var t := db.receipts[SlotOf(flow.body)].jobId;
      if t !in db.jobs || db.jobs[t].state.Active? { return Err(FailedPrecondition); }
      var target := db.jobs[t];
      var tree := if target.treeId.Some? then target.treeId.value else t;
      var adopted := db.jobs[t := target.(treeId := Some(tree))];
      if target.treeDepth + height > cfg.maxFlowDepth { return Err(InvalidArgument); }
      if |TreeRows(adopted, tree)| + |rows| > cfg.maxFlowNodes { return Err(InvalidArgument); }
      reply := Attach(flow, supply, t, rows, direct, now);
    }

    /** The writes of a merge whose target has passed its checks. */
    method Attach(flow: FlowJob, supply: seq<Id>, t: Id, rows: seq<Prepared>, direct: nat,
                  now: int) returns (reply: Reply<Flow.Attached>)
      requires SizeAll(flow.children) <= |supply| && Distinct(supply) && !Flow.BadMerge(flow)
      requires rows == FlatAll(flow.children, None, 1, supply, 0) && direct == |flow.children|
      requires Flow.JudgeMerge(cfg, db, flow).None? && t == db.receipts[SlotOf(flow.body)].jobId
      modifies this`db
      ensures (db, reply) == Flow.AddFlowMerge(cfg, old(db), flow, supply, now)
    {
      var linked := LinkTo(rows, t);
      var target := db.jobs[t];
      MergeInParts(cfg, db, flow, supply, now);
      MergedNodes(flow, supply, t, Flow.TreeOf(t, target), target.treeDepth, now);
      var failure, jobs, receipts := AttachNodes(db, t, linked, direct, now);
      if failure.Some? { return Err(failure.value); }
      var g := CountAttached(db.gauges, target.state, linked, Flow.TreeOf(t, target), target.treeDepth, now);
      db := db.(jobs := jobs, receipts := receipts, gauges := g);
      var nodes := Describe(linked, target.treeDepth);
      return Ok(Flow.Attached(t, nodes));
    }

    // ---- Rules, schedulers, retention, restart ----

    method UpsertRateLimit(r: Rules.RuleRequest, now: int) returns (reply: Reply<bool>)
      modifies this`db
      ensures (db, reply) == Rules.UpsertRate(old(db), r, now)
      ensures reply.Ok? <==> RuleLaws.ValidRule(r, now)
      ensures reply.Err? ==> db == old(db) && reply.code == InvalidArgument
      ensures reply.Ok? ==> RuleLaws.OnlyRateOf(old(db), db, r.facet)
      ensures reply.Ok? ==> RuleLaws.StartsAfresh(db, r.facet, r.maxJobs, r.windowMs)
    {
      RuleLaws.RateStartsAfresh(db, r, now);
      if !Rules.RuleOk(r, now) { return Err(InvalidArgument); }
      db := db.(rateRules := db.rateRules[r.facet := Rule(r.maxJobs, r.windowMs)]);
      db := db.(rateCounts := db.rateCounts - {r.facet});
      return Ok(true);
    }

    method UpsertIngressLimit(r: Rules.RuleRequest, now: int) returns (reply: Reply<bool>)
      modifies this`db
      ensures (db, reply) == Rules.UpsertIngress(old(db), r, now)
      ensures reply.Ok? <==> RuleLaws.ValidRule(r, now)
      ensures reply.Err? ==> db == old(db) && reply.code == InvalidArgument
      ensures reply.Ok? ==> RuleLaws.OnlyIngressOf(old(db), db, r.facet)
      ensures reply.Ok? ==> RuleLaws.AdmitsAfresh(db, r.facet, r.maxJobs)
    {
      RuleLaws.IngressStartsAfresh(db, r, now);
      if !Rules.RuleOk(r, now) { return Err(InvalidArgument); }
      db := db.(ingressRules := db.ingressRules[r.facet := Rule(r.maxJobs, r.windowMs)]);
      db := db.(ingressCounts := db.ingressCounts - {r.facet});
      return Ok(true);
    }

    method DeleteRateLimit(facet: string) returns (reply: Reply<bool>)
      modifies this`db
      ensures (db, reply) == Rules.DeleteRate(old(db), facet)
      ensures reply.Ok? <==> RuleLaws.ExactKey(facet)
      ensures reply.Err? ==> db == old(db) && reply.code == InvalidArgument
      ensures reply.Ok? ==> RuleLaws.OnlyRateOf(old(db), db, facet) && RuleLaws.Unlimited(db, facet)
      ensures reply.Ok? ==> reply.value == (facet in old(db).rateRules)
    {
      RuleLaws.RateRemoved(db, facet);
      if !Rules.FacetOk(facet) { return Err(InvalidArgument); }
      var deleted := facet in db.rateRules;
      db := db.(rateRules := db.rateRules - {facet}, rateCounts := db.rateCounts - {facet});
      return Ok(deleted);
    }

    method DeleteIngressLimit(facet: string) returns (reply: Reply<bool>)
      modifies this`db
      ensures (db, reply) == Rules.DeleteIngress(old(db), facet)
      ensures reply.Ok? <==> RuleLaws.ExactKey(facet)
      ensures reply.Err? ==> db == old(db) && reply.code == InvalidArgument
      ensures reply.Ok? ==> RuleLaws.OnlyIngressOf(old(db), db, facet) && RuleLaws.AdmitsAll(db, facet)
      ensures reply.Ok? ==> reply.value == (facet in old(db).ingressRules)
    {
      RuleLaws.IngressRemoved(db, facet);
      if !Rules.FacetOk(facet) { return Err(InvalidArgument); }
      var deleted := facet in db.ingressRules;
      db := db.(ingressRules := db.ingressRules - {facet}, ingressCounts := db.ingressCounts - {facet});
      return Ok(deleted);
    }

    /** Stores a scheduler's spec; what the loop has written survives. */
    method UpsertScheduler(id: Id, spec: Scheduler, now: int)
      modifies this`db
      ensures db == old(db).(schedulers := Timers.Upsert(old(db).schedulers, id, spec, now))
      ensures db == old(db).(schedulers := db.schedulers)
      ensures Timers.Replaced(old(db).schedulers, db.schedulers, id, spec, now)
    {
      var row := spec.(produced := 0, lastJob := None, createdAt := now, updatedAt := now);
      if id in db.schedulers {
        var kept := db.schedulers[id];
        row := row.(produced := kept.produced, lastJob := kept.lastJob, createdAt := kept.createdAt);
      }
      var rows := db.schedulers[id := row];
      assert rows == Timers.Upsert(db.schedulers, id, spec, now);
      Timers.UpsertReplaces(db.schedulers, id, spec, now);
      db := db.(schedulers := rows);
    }

    /** One scheduler tick: every due scheduler is fired in a transaction of its own. */
    method RunOnce(next: Timers.Cron, now: int, limit: nat, shots: seq<Timers.Shot>) returns (produced: nat)
      requires |shots| == |Timers.DueBatch(db.schedulers, now, limit)|
      modifies this`db
      ensures var due := Timers.DueBatch(old(db).schedulers, now, limit);
              && (forall i | 0 <= i < |due| :: due[i] in old(db).schedulers)
              && (db, produced) == Timers.FireAll(cfg, next, old(db), old(db).schedulers, due, shots)
              && produced == |Timers.Successes(cfg, next, old(db), due, shots)| && |due| <= limit
    {
      var due := Timers.DueBatch(db.schedulers, now, limit);
      Timers.DueRows(db.schedulers, now, limit);
      assert forall i | 0 <= i < |due| :: Timers.Due(db.schedulers, due[i], now);
      Timers.TickCounts(cfg, next, db, due, shots);
      db, produced := FireDue(cfg, next, db, due, shots);
    }

    /** One bounded retention pass over whichever rows the database picks. */
    method Sweep(rc: Retention.RetentionConfig, now: int) returns (p: Retention.Picks, total: nat)
      modifies this`db
      ensures Retention.SweepLegal(rc, old(db), p, now)
      ensures db == Retention.Sweep(old(db), p)
      ensures total == SweptRows.Rows(old(db)) - SweptRows.Rows(db) && total <= 8 * rc.batch
      ensures forall id | id in old(db).history && id !in db.history ::
                SweptRows.TooOld(rc, now, old(db).history[id]) || SweptRows.Crowded(rc, old(db).history, id)
    {
      p := PickRows(rc, db, now);
      SweepSizes(rc, db, p, now);
      SweptRows.Deleted(rc, db, p, now);
      forall id | id in db.history && id !in Retention.Sweep(db, p).history
        ensures SweptRows.TooOld(rc, now, db.history[id]) || SweptRows.Crowded(rc, db.history, id) {
        SweptRows.OnlyDue(rc, db, p, now, id);
      }
      PassInFour(db.history, p);
      var history := db.history - p.completedAge;
      history := history - p.failedAge;
      history := history - p.completedCount;
      history := history - p.failedCount;
      total := |p.completedAge| + |p.failedAge| + |p.completedCount| + |p.failedCount|
               + |p.receipts| + |p.chains| + |p.facets| + |p.rejections|;
      var g := SweepGauges(db.gauges, p);
      db := db.(history := history, receipts := db.receipts - p.receipts, chains := db.chains - p.chains,
                facets := db.facets - p.facets, rejections := db.rejections - p.rejections, gauges := g);
    }

    /** Start-up counts the rows of both tables. */
    method Restart()
      modifies this`db
      ensures db == old(db).(gauges := db.gauges) && Telemetry.Exact(db.gauges, db.jobs, db.history)
      ensures db.gauges == Telemetry.Seed(old(db).jobs, old(db).history)
    {
      Telemetry.SeedIsExact(db.jobs, db.history);
      var g := NO_GAUGES;
      g := Shift(g, Live(Waiting), |InState(db.jobs, Waiting)|);
      g := Shift(g, Live(Delayed), |InState(db.jobs, Delayed)|);
      g := Shift(g, Live(Active), |InState(db.jobs, Active)|);
      g := Shift(g, Ended(Completed), |WithOutcome(db.history, Completed)|);
      g := Shift(g, Ended(Failed), |WithOutcome(db.history, Failed)|);
      g := Telemetry.Parked(g, |InState(db.jobs, WaitingChildren)|);
      db := db.(gauges := g);
    }
  }

  // ---- What the calls have done, for every row ----

  lemma NothingLeft(s: Store, batch: nat, now: int)
    ensures var all, n := |RecoveredRows.AllExpired(s.jobs, now)|, |Leases.ExpiredBatch(s.jobs, now, batch)|;
            n == if batch < all then batch else all
    ensures |RecoveredRows.AllExpired(s.jobs, now)| <= batch ==>
              forall id: Id :: !RecoveredRows.Expired(Leases.Recover(s, batch, now).jobs, now, id)
  {
    RecoveredRows.TakenIsOldest(s.jobs, now, batch);
    RecoveredRows.BatchSize(s.jobs, now, batch);
    if |RecoveredRows.AllExpired(s.jobs, now)| <= batch {
      forall id: Id ensures !RecoveredRows.Expired(Leases.Recover(s, batch, now).jobs, now, id) {
        RecoveredRows.NoneLeft(s, batch, now, id);
      }
    }
  }

  lemma AllTold(cfg: Config, s: Store, bulk: bool, rs: seq<AddJobRequest>, ids: seq<Id>, traces: seq<string>, now: int)
    requires |ids| == |traces| == |rs|
    ensures var (t, reply) := Enqueue.AddJobs(cfg, s, bulk, rs, ids, traces, now);
            && (reply.Ok? && AdmittedRows.FreshIds(s, ids) ==>
                  |reply.value| == |rs|
                  && forall k | 0 <= k < |rs| :: AdmittedRows.Told(t, rs[k], ids[k], traces[k], reply.value[k], now))
            && (reply.Err? ==> EnqueueLaws.SameButRejections(s, t))
  {
    var (t, reply) := Enqueue.AddJobs(cfg, s, bulk, rs, ids, traces, now);
    if reply.Err? {
      EnqueueLaws.FailedBatchLeavesNoTrace(cfg, s, bulk, rs, ids, traces, now);
    } else if AdmittedRows.FreshIds(s, ids) {
      AdmittedRows.BatchLength(cfg, s, Enqueue.ItemsOf(Enqueue.ValidateAll(cfg, rs).value, ids, traces), now);
      forall k | 0 <= k < |rs| ensures AdmittedRows.Told(t, rs[k], ids[k], traces[k], reply.value[k], now) {
        AdmittedRows.CallServed(cfg, s, bulk, rs, ids, traces, now, k);
      }
    }
  }

  lemma AllSent(cfg: Config, s: Store, bulk: bool, flows: seq<FlowJob>, supplies: seq<seq<Id>>, now: int)
    requires Flow.Supplied(flows, supplies)
    ensures var (t, reply) := Flow.AddFlows(cfg, s, bulk, flows, supplies, now);
            && (reply.Ok? <==> (bulk ==> 1 <= |flows| <= cfg.maxFlowBulk) && Flow.AcceptableTrees(cfg, flows, {})
                               && FlowCalls.AllStorable(s.receipts, FlowCalls.AllNodes(flows), now))
            && (reply.Err? ==> t == s)
    ensures var (t, reply) := Flow.AddFlows(cfg, s, bulk, flows, supplies, now);
            reply.Ok? && FlowRows.NewIds(s.receipts, supplies) ==>
              forall f, i | 0 <= f < |flows| && 0 <= i < Size(flows[f]) ::
                FlowCalls.NodeStored(t, FlowRows.Preorder(flows[f])[i], supplies[f][i], supplies[f][0], now)
  {
    FlowCalls.FlowsExactly(cfg, s, bulk, flows, supplies, now);
    var (t, reply) := Flow.AddFlows(cfg, s, bulk, flows, supplies, now);
    if reply.Ok? && FlowRows.NewIds(s.receipts, supplies) {
      forall f, i | 0 <= f < |flows| && 0 <= i < Size(flows[f])
        ensures FlowCalls.NodeStored(t, FlowRows.Preorder(flows[f])[i], supplies[f][i], supplies[f][0], now) {
        FlowCalls.FlowsAsSent(cfg, s, bulk, flows, supplies, now, f, i);
      }
    }
  }

  lemma AllMerged(cfg: Config, s: Store, flow: FlowJob, supply: seq<Id>, now: int)
    requires SizeAll(flow.children) <= |supply|
    ensures var (t, reply) := Flow.AddFlowMerge(cfg, s, flow, supply, now);
            && (reply.Err? ==> t == s)
            && (reply.Ok? && FlowRows.NewIds(s.receipts, [supply]) ==>
                  forall i | 0 <= i < SizeAll(flow.children) ::
                    && supply[i] in t.jobs && t.jobs[supply[i]].treeId.Some?
                    && FlowCalls.NodeStored(t, FlowRows.PreorderAll(flow.children)[i], supply[i],
                                            t.jobs[supply[i]].treeId.value, now))
  {
    var (t, reply) := Flow.AddFlowMerge(cfg, s, flow, supply, now);
    if reply.Ok? && FlowRows.NewIds(s.receipts, [supply]) {
      forall i | 0 <= i < SizeAll(flow.children)
        ensures supply[i] in t.jobs && t.jobs[supply[i]].treeId.Some?
                && FlowCalls.NodeStored(t, FlowRows.PreorderAll(flow.children)[i], supply[i],
                                        t.jobs[supply[i]].treeId.value, now) {
        MergeCalls.MergeAsSent(cfg, s, flow, supply, now, i);
      }
    }
  }

  // ---- Parts of the calls ----

  /** `rate_limit::consume`. */
  method ConsumeQuota(s: Store, facet: Option<string>, now: int) returns (counts: map<string, WindowCount>)
    ensures counts == Dispatch.Consume(s, facet, now)
  {
    counts := s.rateCounts;
    if facet.Some? && facet.value in s.rateRules {
      var f := facet.value;
      if f !in counts || counts[f].expiresAt <= now {
        counts := counts[f := WindowCount(1, SatAdd(now, s.rateRules[f].windowMs))];
      } else {
        counts := counts[f := WindowCount(counts[f].count + 1, counts[f].expiresAt)];
      }
    }
  }

  /** The writes of a claim: the facet's window, the row, the facet's turn; then the gauges. */
  method ClaimRow(cfg: Config, s: Store, worker: string, id: Id, until: int, now: int, now2: int) returns (t: Store)
    requires id in s.jobs && until == now2 + cfg.leaseMs
    ensures t == Dispatch.ClaimJob(cfg, s, worker, id, now, now2)
  {
    var j := s.jobs[id];
    var counts := ConsumeQuota(s, j.card.facet, now);
    var jobs := s.jobs[id := j.(state := Active, worker := Some(worker), attempts := j.attempts + 1,
                                lease := Some(until))];
    var facets := s.facets;
    if cfg.fairness {
      facets := facets[Dispatch.FacetKey(j) := Served(Dispatch.LastSeq(facets) + 1, now2)];
    }
    t := s.(jobs := jobs, rateCounts := counts, facets := facets,
            gauges := Transition(s.gauges, Some(Live(j.state)), Live(Active)));
  }

  lemma ExpiredRowsExist(jobs: Jobs, now: int, batch: nat)
    ensures var rows := Leases.ExpiredBatch(jobs, now, batch);
            && (forall i | 0 <= i < |rows| :: rows[i] in jobs)
            && (forall a, b | 0 <= a < b < |rows| :: rows[a] != rows[b])
            && |rows| <= batch
  {
    var rows := Leases.ExpiredBatch(jobs, now, batch);
    Leases.BatchIsExpired(jobs, now, batch);
    TakeRows(Leases.ExpiredKeys(jobs, now), 1, batch);
    forall i | 0 <= i < |rows| ensures rows[i] in jobs { assert rows[i] in Leases.ToSet(rows); }
  }

  /** Links the parentless nodes to the merge target. */
  method LinkTo(rows: seq<Prepared>, t: Id) returns (linked: seq<Prepared>)
    ensures linked == Resolved(rows, t)
  {
    linked := [];
    for i := 0 to |rows|
      invariant linked == Resolved(rows, t)[..i]
    {
      var parent := if rows[i].parent.None? then Some(t) else rows[i].parent;
      linked := linked + [rows[i].(parent := parent)];
    }
  }

  /** The response: every stored node with its parent, its level and its state. */
  method Describe(rows: seq<Prepared>, base: nat) returns (nodes: seq<Flow.FlowNode>)
    ensures nodes == Flow.Report(rows, base)
  {
    nodes := [];
    for i := 0 to |rows|
      invariant nodes == Flow.Report(rows, base)[..i]
    {
      var parent := if rows[i].parent.Some? then rows[i].parent.value else "";
      nodes := nodes + [Flow.FlowNode(rows[i].id, parent, rows[i].body.name, base + rows[i].depth, rows[i].state)];
    }
  }

  method DescribeTrees(trees: seq<seq<Prepared>>) returns (nodes: seq<seq<Flow.FlowNode>>)
    ensures |nodes| == |trees| && forall k | 0 <= k < |trees| :: nodes[k] == Flow.Report(trees[k], 0)
  {
    nodes := [];
    for i := 0 to |trees|
      invariant |nodes| == i && forall k | 0 <= k < i :: nodes[k] == Flow.Report(trees[k], 0)
    {
      var tree := Describe(trees[i], 0);
      nodes := nodes + [tree];
    }
  }

  /** What the nodes of a merge are like. */
  lemma MergedNodes(flow: FlowJob, supply: seq<Id>, t: Id, tree: Id, base: nat, now: int)
    requires SizeAll(flow.children) <= |supply| && Distinct(supply) && !Flow.BadMerge(flow)
    ensures var rows := Flow.NewRows(flow, t, supply);
            && Resolved(FlatAll(flow.children, None, 1, supply, 0), t) == rows
            && OneEach(rows) && (forall i | 0 <= i < |rows| :: Rests(rows[i]))
            && Unused(ReceiptLaws.RowSlots(rows), {})
  {
    var rows := Flow.NewRows(flow, t, supply);
    ResolvedForest(flow.children, 1, supply, 0, t);
    forall i | 0 <= i < |rows| ensures rows[i].id == supply[i] && Rests(rows[i]) {
      ForestRow(flow.children, Some(t), 1, supply, 0, i);
    }
    ReceiptLaws.ForestSlots(flow.children, Some(t), 1, supply, 0);
  }

  /** A merge that has passed its checks, table by table. */
  lemma MergeInParts(cfg: Config, s: Store, flow: FlowJob, supply: seq<Id>, now: int)
    requires SizeAll(flow.children) <= |supply| && Distinct(supply) && !Flow.BadMerge(flow)
              && Flow.JudgeMerge(cfg, s, flow).None?
    ensures var t := s.receipts[SlotOf(flow.body)].jobId;
            var rows, tree, base := Flow.NewRows(flow, t, supply), Flow.TreeOf(t, s.jobs[t]), s.jobs[t].treeDepth;
            var news := Flow.RowMap(rows, tree, base, now);
            && Resolved(FlatAll(flow.children, None, 1, supply, 0), t) == rows
            && Flow.AddFlowMerge(cfg, s, flow, supply, now) ==
               match Flow.FirstOffence(s.receipts, rows, now)
               case Some(code) => (s, Err(code))
               case None =>
                 (s.(jobs := s.jobs[t := Regated(t, s.jobs[t], |flow.children|)] + news,
                     receipts := s.receipts + Flow.ReceiptMap(rows, tree, base, now),
                     gauges := Flow.Added(Flow.RegateGauges(s.gauges, s.jobs[t].state), news)),
                  Ok(Flow.Attached(t, Flow.Report(rows, base))))
  {
    var t := s.receipts[SlotOf(flow.body)].jobId;
    ResolvedForest(flow.children, 1, supply, 0, t);
  }

  /** Re-gates the target and stores the new nodes. */
  method AttachNodes(s: Store, t: Id, rows: seq<Prepared>, direct: nat, now: int)
    returns (failure: Option<Code>, jobs: Jobs, receipts: Receipts)
    requires t in s.jobs && Unused(ReceiptLaws.RowSlots(rows), {})
    ensures var tree, base := Flow.TreeOf(t, s.jobs[t]), s.jobs[t].treeDepth;
            && failure == Flow.FirstOffence(s.receipts, rows, now)
            && (failure.None? ==>
                  && jobs == s.jobs[t := Regated(t, s.jobs[t], direct)] + Flow.RowMap(rows, tree, base, now)
                  && receipts == s.receipts + Flow.ReceiptMap(rows, tree, base, now))
  {
    var target := s.jobs[t];
    var tree := if target.treeId.Some? then target.treeId.value else t;
    var regated := target.(state := WaitingChildren, pending := target.pending + direct, treeId := Some(tree));
    assert regated == Regated(t, target, direct);
    failure, jobs, receipts := StoreNodes(s.jobs[t := regated], s.receipts, rows, tree, target.treeDepth, now);
  }

  /** Counts the new nodes and the target's move. */
  method CountAttached(g: Gauges, state: State, rows: seq<Prepared>, tree: Id, base: nat, now: int) returns (g': Gauges)
    requires OneEach(rows) && forall i | 0 <= i < |rows| :: Rests(rows[i])
    ensures g' == Flow.Added(Flow.RegateGauges(g, state), Flow.RowMap(rows, tree, base, now))
  {
    g' := g;
    if state.Waiting? || state.Delayed? {
      g' := Telemetry.Parked(Transition(g', Some(Live(state)), Live(WaitingChildren)), 1);
    }
    FlushedIsAdded(g', rows, tree, base, now);
    g' := FlushNodes(g', rows);
  }

  /** `fire_one`: produce the job, compute the next occurrence, advance the scheduler; or leave nothing. */
  method FireOne(cfg: Config, next: Timers.Cron, s: Store, id: Id, row: Scheduler,
                 shot: Timers.Shot) returns (tx: Option<Store>)
    ensures tx == Timers.Fire(cfg, next, s, id, row, shot.job, shot.trace, shot.now)
  {
    var valid := Enqueue.Validate(cfg, Timers.BuildRequest(row));
    if valid.Err? { return None; }
    var a := AdmitJob(cfg, s, Enqueue.Item(valid.value, shot.job, shot.trace), shot.now);
    if !a.Admitted? { return None; }
    var advance := next(row.cron, Timers.Zone(row), shot.now);
    if advance.None? { return None; }
    return Some(a.store.(schedulers := Timers.Advance(a.store.schedulers, id, advance.value, a.reply.id, shot.now)));
  }

  /** The loop over the due schedulers; one that cannot fire is passed over. */
  method FireDue(cfg: Config, next: Timers.Cron, s: Store, due: seq<Id>, shots: seq<Timers.Shot>)
    returns (tx: Store, produced: nat)
    requires |shots| == |due| && forall i | 0 <= i < |due| :: due[i] in s.schedulers
    ensures (tx, produced) == Timers.FireAll(cfg, next, s, s.schedulers, due, shots)
  {
    tx, produced := s, 0;
    for i := 0 to |due|
      invariant (tx, produced) == Timers.FireAll(cfg, next, s, s.schedulers, due[..i], shots[..i])
    {
      assert due[..i + 1][..i] == due[..i] && shots[..i + 1][..i] == shots[..i];
      var fired := FireOne(cfg, next, tx, due[i], s.schedulers[due[i]], shots[i]);
      if fired.Some? { tx, produced := fired.value, produced + 1; }
    }
    assert due[..|due|] == due && shots[..|due|] == shots;
  }

  // ---- Picking the rows of a retention pass ----

  /** `DELETE ... LIMIT n` without an order: some rows, as many as the limit allows. */
  method PickAny<T(==)>(candidates: set<T>, n: nat) returns (gone: set<T>)
    ensures Retention.Bounded(gone, candidates, n)
  {
    gone := {};
    var rest := candidates;
    while |gone| < n && rest != {}
      invariant gone + rest == candidates && gone !! rest && |gone| <= n
      decreases |rest|
    {
      var x :| x in rest;
      gone, rest := gone + {x}, rest - {x};
    }
    if rest == {} { assert gone == candidates; }
  }

  /** `DELETE ... ORDER BY finished_at LIMIT n`. */
  method PickOldest(h: History, candidates: set<Id>, n: nat) returns (gone: set<Id>)
    requires candidates <= h.Keys
    ensures Retention.Bounded(gone, candidates, n) && Retention.OldestGo(h, gone, candidates)
  {
    var keys := map id | id in candidates && id in h :: [h[id].finishedAt] + Text(id);
    assert keys.Keys == candidates;
    assert Sorted(keys, 1);
    var rows := Take(keys, 1, n);
    TakeRows(keys, 1, n);
    Leases.SeqSize(rows);
    gone := Leases.ToSet(rows);
    forall x | x in gone ensures x in keys {}
    forall x, y | x in gone && y in candidates && y !in gone ensures h[x].finishedAt <= h[y].finishedAt {
      var i :| 0 <= i < |rows| && rows[i] == x;
      TakeFirst(keys, 1, n, i, y);
      assert keys[x][0] == h[x].finishedAt && keys[y][0] == h[y].finishedAt;
    }
  }

  method PruneAge(rc: Retention.RetentionConfig, now: int, h: History, o: Outcome) returns (gone: set<Id>)
    ensures Retention.PrunesAge(rc, now, h, o, gone)
  {
    gone := PickOldest(h, Retention.Aged(rc, now, h, o), rc.batch);
  }

  method PruneCount(rc: Retention.RetentionConfig, h: History, o: Outcome) returns (gone: set<Id>)
    ensures Retention.PrunesCount(rc, h, o, gone)
  {
    gone := PickAny(Retention.Overflow(rc, h, o), rc.batch);
  }

  /** The rows of the four history statements, each picked from what the one before left. */
  method PickHistory(rc: Retention.RetentionConfig, now: int, h: History) returns (p: Retention.Picks)
    ensures Retention.PassLegal(rc, now, h, p)
  {
    var completedAge := PruneAge(rc, now, h, Completed);
    var h1 := h - completedAge;
    var failedAge := PruneAge(rc, now, h1, Failed);
    var h2 := h1 - failedAge;
    var completedCount := PruneCount(rc, h2, Completed);
    var h3 := h2 - completedCount;
    var failedCount := PruneCount(rc, h3, Failed);
    p := Retention.Picks(completedAge, failedAge, completedCount, failedCount, {}, {}, {}, {});
  }

  /** Rows that each statement of a pass may delete; every statement has some such choice. */
  method PickRows(rc: Retention.RetentionConfig, s: Store, now: int) returns (p: Retention.Picks)
    ensures Retention.SweepLegal(rc, s, p, now)
  {
    p := PickHistory(rc, now, s.history);
    var receipts := PickAny(Retention.Orphans(s.receipts, s.jobs, s.history - Retention.PassGone(p)), rc.batch);
    var chains := PickAny(Retention.IdleChains(rc, now, s.chains), rc.batch);
    var facets := PickAny(Retention.IdleFacets(rc, now, s.facets, s.jobs), rc.batch);
    var rejections := PickAny(Retention.OldRejections(rc, now, s.rejections), rc.batch);
    ghost var h := p;
    p := p.(receipts := receipts, chains := chains, facets := facets, rejections := rejections);
    assert Retention.PassGone(p) == Retention.PassGone(h);
    PassIgnoresRest(rc, now, s.history, h, p);
  }

  lemma PassIgnoresRest(rc: Retention.RetentionConfig, now: int, h: History, p: Retention.Picks, q: Retention.Picks)
    requires Retention.PassLegal(rc, now, h, p)
    requires q == p.(receipts := q.receipts, chains := q.chains, facets := q.facets, rejections := q.rejections)
    ensures Retention.PassLegal(rc, now, h, q)
  {
  }

  /** The numbers of a pass, as the gauges see them. */
  lemma SweepSizes(rc: Retention.RetentionConfig, s: Store, p: Retention.Picks, now: int)
    requires Retention.SweepLegal(rc, s, p, now)
    ensures |p.completedAge| <= rc.batch && |p.failedAge| <= rc.batch && |p.completedCount| <= rc.batch
              && |p.failedCount| <= rc.batch
    ensures |p.receipts| <= rc.batch && |p.chains| <= rc.batch && |p.facets| <= rc.batch && |p.rejections| <= rc.batch
  {
  }

  /** `retention_deleted`, once per dimension. */
  method SweepGauges(g: Gauges, p: Retention.Picks) returns (g': Gauges)
    ensures g' == Retention.SweptGauges(g, p)
  {
    g' := Shift(g, Ended(Completed), 0 - |p.completedAge|);
    g' := Shift(g', Ended(Completed), 0 - |p.completedCount|);
    g' := Shift(g', Ended(Failed), 0 - |p.failedAge|);
    g' := Shift(g', Ended(Failed), 0 - |p.failedCount|);
  }

  lemma PassInFour(h: History, p: Retention.Picks)
    ensures h - p.completedAge - p.failedAge - p.completedCount - p.failedCount == h - Retention.PassGone(p)
  {
  }

  // ---- Several trees ----

  /** The loop that validates and flattens the trees of one call. */
  method PrepareTrees(cfg: Config, flows: seq<FlowJob>, supplies: seq<seq<Id>>)
    returns (ok: bool, trees: seq<seq<Prepared>>)
    requires Flow.Supplied(flows, supplies)
    ensures ok <==> Flow.AcceptableTrees(cfg, flows, {})
    ensures ok ==> |trees| == |flows|
    ensures ok ==> forall i | 0 <= i < |flows| :: trees[i] == Flat(flows[i], None, 0, supplies[i], 0)
  {
    trees := [];
    var seen := {};
    assert flows[0..] == flows;
    for i := 0 to |flows|
      invariant |trees| == i && forall k | 0 <= k < i :: trees[k] == Flat(flows[k], None, 0, supplies[k], 0)
      invariant Flow.AcceptableTrees(cfg, flows, {}) <==> Flow.AcceptableTrees(cfg, flows[i..], seen)
    {
      assert flows[i..][0] == flows[i] && flows[i..][1..] == flows[i + 1..];
      var p := new Preparation();
      p.seen := seen;
      var accepted := p.PrepareNode(flows[i], None, 0, cfg.maxFlowDepth, cfg.maxFlowNodes, supplies[i]);
      if !accepted { return false, []; }
      assert p.rows == Flat(flows[i], None, 0, supplies[i], 0);
      seen := p.seen;
      trees := trees + [p.rows];
    }
    ok := true;
  }

  function FlushedAll(g: Gauges, trees: seq<seq<Prepared>>): Gauges {
    if trees == [] then g else Flushed(FlushedAll(g, trees[..|trees| - 1]), trees[|trees| - 1])
  }

  method FlushTrees(g: Gauges, trees: seq<seq<Prepared>>) returns (g': Gauges)
    ensures g' == FlushedAll(g, trees)
  {
    g' := g;
    for i := 0 to |trees|
      invariant g' == FlushedAll(g, trees[..i])
    {
      assert trees[..i + 1][..i] == trees[..i];
      g' := FlushNodes(g', trees[i]);
    }
    assert trees[..|trees|] == trees;
  }

  /** A tree of one call can be stored node by node. */
  lemma TreeNodes(n: FlowJob, supply: seq<Id>)
    requires Distinct(supply) && Size(n) <= |supply| && Unused(Slots(n), {})
    ensures var rows := Flat(n, None, 0, supply, 0);
            OneEach(rows) && rows != [] && (forall i | 0 <= i < |rows| :: Rests(rows[i]))
                && Unused(ReceiptLaws.RowSlots(rows), {})
  {
    var rows := Flat(n, None, 0, supply, 0);
    forall i | 0 <= i < |rows| ensures rows[i].id == supply[i] && Rests(rows[i]) { FlatRow(n, None, 0, supply, 0, i); }
    ReceiptLaws.FlatSlots(n, None, 0, supply, 0);
  }

  lemma {:induction false} SlotsOfTrees(cfg: Config, flows: seq<FlowJob>, seen: set<Slot>, i: nat)
    requires Flow.AcceptableTrees(cfg, flows, seen) && i < |flows|
    ensures Unused(Slots(flows[i]), {})
  {
    if i > 0 { SlotsOfTrees(cfg, flows[1..], seen + SlotSet(Slots(flows[0])), i - 1); }
  }

  /** The loop that stores the trees of one call; the first failure ends it. */
  method StoreTrees(cfg: Config, s: Store, flows: seq<FlowJob>, supplies: seq<seq<Id>>, trees: seq<seq<Prepared>>,
                    now: int)
    returns (failure: Option<Code>, jobs: Jobs, receipts: Receipts)
    requires Flow.Supplied(flows, supplies) && (forall i | 0 <= i < |supplies| :: Distinct(supplies[i]))
    requires Flow.AcceptableTrees(cfg, flows, {})
    requires |trees| == |flows| && forall i | 0 <= i < |flows| :: trees[i] == Flat(flows[i], None, 0, supplies[i], 0)
    ensures Flow.InsertTrees(s, flows, supplies, now) ==
            if failure.Some? then Err(failure.value)
            else Ok(s.(jobs := jobs, receipts := receipts, gauges := FlushedAll(s.gauges, trees)))
  {
    jobs, receipts, failure := s.jobs, s.receipts, None;
    assert flows[0..] == flows && supplies[0..] == supplies && trees[..0] == [];
    for i := 0 to |flows|
      invariant Flow.InsertTrees(s, flows, supplies, now) ==
                Flow.InsertTrees(s.(jobs := jobs, receipts := receipts, gauges := FlushedAll(s.gauges, trees[..i])),
                                 flows[i..], supplies[i..], now)
    {
      ghost var t := s.(jobs := jobs, receipts := receipts, gauges := FlushedAll(s.gauges, trees[..i]));
      assert flows[i..][0] == flows[i] && flows[i..][1..] == flows[i + 1..];
      assert supplies[i..][0] == supplies[i] && supplies[i..][1..] == supplies[i + 1..];
      assert trees[..i + 1][..i] == trees[..i];
      SlotsOfTrees(cfg, flows, {}, i);
      TreeNodes(flows[i], supplies[i]);
      FlushedIsAdded(t.gauges, trees[i], trees[i][0].id, 0, now);
      var f, jobs', receipts' := StoreNodes(jobs, receipts, trees[i], trees[i][0].id, 0, now);
      if f.Some? { return f, jobs, receipts; }
      jobs, receipts := jobs', receipts';
    }
    assert trees[..|flows|] == trees;
  }
}
