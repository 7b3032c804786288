/**
  Retries over whole runs: every admitted job carries sensible retry options, so
  a job that goes back to the queue, whether it failed or its lease ran out, is
  due again after the doubled and capped backoff.
 */
module RetryRuns {
  import opened Tables
  import opened Lifecycle
  import opened LifecycleLaws
  import opened World
  import opened StepMoves
  import opened FinishedRows
  import opened RecoveredRows
  import AcceptedFlows
  import AdmittedRows
  import DeliveryRuns
  import Enqueue
  import EnqueueLaws
  import Flatten
  import Flow
  import FlowRows
  import Leases
  import Timers = Scheduler

  // ---- New rows ----

  /** Every row of `jobs'` has sensible retry options, or those it had in `jobs`. */
  predicate NewAreSensible(jobs: Jobs, jobs': Jobs) {
    forall c | c in jobs' :: RetryOk(jobs'[c].retry) || (c in jobs && jobs'[c].retry == jobs[c].retry)
  }

  predicate RequestOk(v: AddJobRequest) {
    0 <= v.backoffMs && 0 <= v.backoffMaxMs && 0.0 <= v.jitter <= 1.0
  }

  lemma {:induction false} BatchSensible(cfg: Config, s: Store, items: seq<Enqueue.Item>, now: int)
    requires Enqueue.EnqueueAll(cfg, s, items, now).Done? && forall i | 0 <= i < |items| :: RequestOk(items[i].request)
    ensures NewAreSensible(s.jobs, Enqueue.EnqueueAll(cfg, s, items, now).store.jobs)
  {
    if items != [] {
      var n := |items| - 1;
      BatchSensible(cfg, s, items[..n], now);
      var t, x := Enqueue.EnqueueAll(cfg, s, items[..n], now).store, items[n];
      if EnqueueLaws.IsNew(Enqueue.EnqueueOne(cfg, t, x.request, x.id, x.freshTrace, now)) {
        AdmittedRows.NewRow(cfg, t, x.request, x.id, x.freshTrace, now);
      }
    }
  }

  lemma AddJobsSensible(cfg: Config, s: Store, bulk: bool, rs: seq<AddJobRequest>, ids: seq<Id>, traces: seq<string>,
                        now: int)
    requires |ids| == |traces| == |rs|
    ensures NewAreSensible(s.jobs, Enqueue.AddJobs(cfg, s, bulk, rs, ids, traces, now).0.jobs)
  {
    if Enqueue.AddJobs(cfg, s, bulk, rs, ids, traces, now).1.Ok? {
      var items := Enqueue.ItemsOf(Enqueue.ValidateAll(cfg, rs).value, ids, traces);
      forall i | 0 <= i < |items| ensures RequestOk(items[i].request) { AdmittedRows.AllValid(cfg, rs, i); }
      BatchSensible(cfg, s, items, now);
    } else {
      EnqueueLaws.FailedBatchLeavesNoTrace(cfg, s, bulk, rs, ids, traces, now);
    }
  }

  predicate PreparedOk(r: Flatten.Prepared) {
    0 <= r.body.backoffMs && 0 <= r.body.backoffMaxMs && 0.0 <= r.body.jitter <= 1.0
  }

  lemma {:induction false} RowsSensible(rows: seq<Flatten.Prepared>, tree: Id, base: nat, now: int)
    requires forall i | 0 <= i < |rows| :: PreparedOk(rows[i])
    ensures forall c | c in Flow.RowMap(rows, tree, base, now) :: RetryOk(Flow.RowMap(rows, tree, base, now)[c].retry)
  {
    if rows != [] { RowsSensible(rows[..|rows| - 1], tree, base, now); }
  }

  lemma TreePrepared(n: Flatten.FlowJob, supply: seq<Id>)
    requires Flatten.Size(n) <= |supply| && Flatten.TreeOk(n)
    ensures forall i | 0 <= i < Flatten.Size(n) :: PreparedOk(Flatten.Flat(n, None, 0, supply, 0)[i])
  {
    AcceptedFlows.TreeFine(n);
    forall i | 0 <= i < Flatten.Size(n) ensures PreparedOk(Flatten.Flat(n, None, 0, supply, 0)[i]) {
      FlowRows.FlatPrepares(n, None, 0, supply, 0, i);
      assert AcceptedFlows.Fine(FlowRows.Preorder(n)[i].body);
    }
  }

  lemma {:induction false} TreesSensible(cfg: Config, s: Store, flows: seq<Flatten.FlowJob>, supplies: seq<seq<Id>>,
                                         now: int, seen: set<Slot>)
    requires Flow.Supplied(flows, supplies) && Flow.AcceptableTrees(cfg, flows, seen)
    requires Flow.InsertTrees(s, flows, supplies, now).Ok?
    ensures NewAreSensible(s.jobs, Flow.InsertTrees(s, flows, supplies, now).value.jobs)
    decreases |flows|
  {
    if flows != [] {
      var rows := Flatten.Flat(flows[0], None, 0, supplies[0], 0);
      var t := Flow.InsertTree(s, rows, now).value;
      TreePrepared(flows[0], supplies[0]);
      RowsSensible(rows, rows[0].id, 0, now);
      assert NewAreSensible(s.jobs, t.jobs);
      TreesSensible(cfg, t, flows[1..], supplies[1..], now, seen + Flatten.SlotSet(Flatten.Slots(flows[0])));
    }
  }

  lemma MergePrepared(flow: Flatten.FlowJob, p: Id, supply: seq<Id>)
    requires Flatten.SizeAll(flow.children) <= |supply| && Flatten.ForestOk(flow.children)
    ensures forall i | 0 <= i < |Flow.NewRows(flow, p, supply)| :: PreparedOk(Flow.NewRows(flow, p, supply)[i])
  {
    var rows := Flow.NewRows(flow, p, supply);
    AcceptedFlows.ForestFine(flow.children);
    forall i | 0 <= i < |rows| ensures PreparedOk(rows[i]) {
      FlowRows.ForestPrepares(flow.children, Some(p), 1, supply, 0, i);
      assert AcceptedFlows.Fine(FlowRows.PreorderAll(flow.children)[i].body);
    }
  }

  lemma GraftSensible(s: Store, p: Id, added: nat, rows: seq<Flatten.Prepared>, tree: Id, base: nat, now: int)
    requires p in s.jobs && forall i | 0 <= i < |rows| :: PreparedOk(rows[i])
    ensures NewAreSensible(s.jobs, Flow.Insert(Flow.RegateTarget(s, p, added), rows, tree, base, now).jobs)
  {
    RowsSensible(rows, tree, base, now);
  }

  lemma MergeSensible(cfg: Config, s: Store, flow: Flatten.FlowJob, supply: seq<Id>, now: int)
    requires Flatten.SizeAll(flow.children) <= |supply|
    ensures NewAreSensible(s.jobs, Flow.AddFlowMerge(cfg, s, flow, supply, now).0.jobs)
  {
    var (t, reply) := Flow.AddFlowMerge(cfg, s, flow, supply, now);
    if reply.Ok? {
      var p := s.receipts[Flatten.SlotOf(flow.body)].jobId;
      MergePrepared(flow, p, supply);
      GraftSensible(s, p, |flow.children|, Flow.NewRows(flow, p, supply), Flow.TreeOf(p, s.jobs[p]),
                    s.jobs[p].treeDepth, now);
    } else {
      assert t == s;
    }
  }

  lemma FireSensible(cfg: Config, next: Timers.Cron, s: Store, id: Id, row: Scheduler, job: Id, trace: string, now: int)
    requires Timers.Fire(cfg, next, s, id, row, job, trace, now).Some?
    ensures NewAreSensible(s.jobs, Timers.Fire(cfg, next, s, id, row, job, trace, now).value.jobs)
  {
    var r := Timers.BuildRequest(row);
    AdmittedRows.ValidExactly(cfg, r);
    AdmittedRows.NewRow(cfg, s, Enqueue.Validate(cfg, r).value, job, trace, now);
  }

  lemma InsertSensible(cfg: Config, next: Timers.Cron, v: View, s: Store, op: Op)
    requires Legal(v, s, op) && Inserts(op)
    ensures NewAreSensible(s.jobs, Insert(cfg, next, v, s, op).jobs)
  {
    if op.AddJobs? {
      AddJobsSensible(cfg, s, op.bulk, op.requests, op.ids, op.traces, op.now);
    } else if op.AddFlows? {
      var (t, reply) := Flow.AddFlows(cfg, s, op.bulk, op.flows, op.supplies, op.now);
      if reply.Ok? { TreesSensible(cfg, s, op.flows, op.supplies, op.now, {}); } else { assert t == s; }
    } else if op.AddFlowMerge? {
      MergeSensible(cfg, s, op.flow, op.supply, op.now);
    } else if Timers.Fire(cfg, next, s, op.scheduler, s.schedulers[op.scheduler], op.job, op.trace, op.now).Some? {
      FireSensible(cfg, next, s, op.scheduler, s.schedulers[op.scheduler], op.job, op.trace, op.now);
    }
  }

  // ---- Every job of a run ----

  predicate Sensible(v: View, id: Id) {
    id in v.born ==> RetryOk(v.born[id].retry)
  }

  predicate KeepsSensible(w: World, w': World, id: Id) {
    Sensible(w.view, id) ==> Sensible(w'.view, id)
  }

  lemma FollowsInsert(cfg: Config, next: Timers.Cron, w: World, op: Op, w': World)
    requires Follows(cfg, next, w, op, w') && Inserts(op)
    ensures NewAreSensible(w.db.jobs, w'.db.jobs)
  {
    InsertSensible(cfg, next, w.view, w.db, op);
  }

  lemma InsertKeepsSensible(cfg: Config, w: World, op: Op, w': World, id: Id)
    requires Moved(cfg, w, op, w') && NewAreSensible(w.db.jobs, w'.db.jobs)
    ensures KeepsSensible(w, w', id)
  {
    assert Accounted(w.view, id) && Accounted(w'.view, id);
  }

  lemma RunKeepsSensible(cfg: Config, next: Timers.Cron, ws: seq<World>, ops: seq<Op>, i: nat, id: Id)
    requires Run(cfg, next, ws, ops) && i < |ops|
    ensures KeepsSensible(ws[i], ws[i + 1], id)
  {
    RunMoves(cfg, next, ws, ops, i);
    if Inserts(ops[i]) {
      FollowsInsert(cfg, next, ws[i], ops[i], ws[i + 1]);
      InsertKeepsSensible(cfg, ws[i], ops[i], ws[i + 1], id);
    } else {
      NothingBorn(cfg, ws[i], ops[i], ws[i + 1]);
    }
  }

  lemma {:induction false} AlwaysSensible(ws: seq<World>, n: nat, id: Id)
    requires n < |ws| && ws[0] == GENESIS && forall k | 0 <= k < |ws| - 1 :: KeepsSensible(ws[k], ws[k + 1], id)
    ensures Sensible(ws[n].view, id)
  {
    if n > 0 {
      AlwaysSensible(ws, n - 1, id);
      assert KeepsSensible(ws[n - 1], ws[n - 1 + 1], id);
    }
  }

  /** Every live job of a run has sensible retry options, and a held one at least one attempt. */
  lemma RunSensible(cfg: Config, next: Timers.Cron, ws: seq<World>, ops: seq<Op>, n: nat, id: Id)
    requires Run(cfg, next, ws, ops) && n < |ws| && id in ws[n].db.jobs
    ensures RetryOk(ws[n].db.jobs[id].retry)
    ensures Held(ws[n].db.jobs, id) ==> ws[n].db.jobs[id].attempts >= 1
  {
    forall k | 0 <= k < |ws| - 1 ensures KeepsSensible(ws[k], ws[k + 1], id) {
      RunKeepsSensible(cfg, next, ws, ops, k, id);
    }
    AlwaysSensible(ws, n, id);
    RunIsSound(cfg, next, ws, ops, n, false, false);
    assert Accounted(ws[n].view, id);
  }

  // ---- Retries ----

  /**
    In every run, an accepted failure that is retried puts the job back with its error, due after
    min(base * 2^(attempts-1), cap) less the jittered part, and never later than the cap.
   */
  lemma FailureRetries(cfg: Config, next: Timers.Cron, ws: seq<World>, ops: seq<Op>, i: nat)
    requires Run(cfg, next, ws, ops) && i < |ops| && ops[i].FinishJob? && 0.0 <= ops[i].rand < 1.0
    requires Honoured(ws[i].db, ops[i].finish, ops[i].now) && ops[i].finish.error.Some?
    requires !GivesUp(ws[i].db.jobs[ops[i].finish.id], ops[i].finish)
    ensures var r, j, jobs' := ops[i].finish, ws[i].db.jobs[ops[i].finish.id], ws[i + 1].db.jobs;
            && j.attempts >= 1 && r.id in jobs'
            && var wait := Wait(j.retry, j.attempts, ops[i].rand);
            Requeues(j, jobs'[r.id], r.error, ops[i].now, wait) && 0 <= wait <= j.retry.cap
  {
    DeliveryRuns.FollowsFinish(cfg, next, ws[i], ops[i], ws[i + 1]);
    RunSensible(cfg, next, ws, ops, i, ops[i].finish.id);
    RetryWrites(ws[i].db, ops[i].finish, ops[i].now, ops[i].rand);
  }

  lemma FollowsRecover(cfg: Config, next: Timers.Cron, w: World, op: Op, w': World)
    requires Follows(cfg, next, w, op, w') && op.Recover?
    ensures w'.db == Leases.Recover(w.db, op.batch, op.now)
  {
  }

  /** In every run, a recovery pass requeues or fails the oldest expired claims and leaves every other row. */
  lemma RecoveryTakesOldest(cfg: Config, next: Timers.Cron, ws: seq<World>, ops: seq<Op>, i: nat, id: Id)
    returns (taken: set<Id>)
    requires Run(cfg, next, ws, ops) && i < |ops| && ops[i].Recover?
    ensures TakesOldest(ws[i].db.jobs, ops[i].now, ops[i].batch, taken)
    ensures Fate(ws[i].db, ws[i + 1].db, taken, id, ops[i].now)
  {
    FollowsRecover(cfg, next, ws[i], ops[i], ws[i + 1]);
    if id in ws[i].db.jobs { RunSensible(cfg, next, ws, ops, i, id); }
    taken := RecoverExactly(ws[i].db, ops[i].batch, ops[i].now, id);
  }
}
