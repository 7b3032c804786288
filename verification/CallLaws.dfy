/**
  Each call and each background pass, as a whole, keeps the laws of the job
  machine: whatever it commits is what an observer may see next.
 */
module CallLaws {
  import opened Tables
  import opened Lifecycle
  import opened LifecycleLaws
  import opened Gate
  import opened Flatten
  import opened FlowLaws
  import opened Laws
  import opened GaugeLaws
  import Flow
  import Enqueue
  import EnqueueLaws
  import Finish
  import Leases
  import Dispatch
  import Retention
  import Timers = Scheduler

  ghost predicate Shows(v: View, s: Store) {
    v.jobs == s.jobs && v.history == s.history
  }

  /** What an observer knows after the database has become `t`. */
  ghost predicate LawfulAfter(cfg: Config, v: View, t: Store, strict: bool) {
    Lawful(cfg, Watch(v, t.jobs, t.history), strict)
  }

  lemma MoveLawful(cfg: Config, v: View, m: Move, t: Store, strict: bool)
    requires Lawful(cfg, v, strict) && Happens(cfg, v, m, t.jobs, t.history)
    requires strict ==> OnlyFlowLinks(v, t.jobs)
    ensures LawfulAfter(cfg, v, t, strict)
  {
    MoveKeepsLaws(cfg, v, m, t.jobs, t.history, strict);
  }

  /** A step that changes neither table. */
  lemma QuietLawful(cfg: Config, v: View, t: Store, strict: bool)
    requires Lawful(cfg, v, strict) && Shows(v, t)
    ensures LawfulAfter(cfg, v, t, strict)
  {
    NothingSeen(cfg, v, strict);
  }

  /** Steps that add no row link nothing new. */
  lemma NoNewLinks(v: View, jobs': Jobs)
    requires Conserved(v) && jobs'.Keys <= v.jobs.Keys
    ensures OnlyFlowLinks(v, jobs')
  {
    KeysConserved(v);
  }

  // ---- AddJob, AddJobBulk and the scheduler ----

  lemma {:induction false} ValidMaxAttempts(cfg: Config, rs: seq<AddJobRequest>, i: nat)
    requires Enqueue.ValidateAll(cfg, rs).Ok? && i < |rs|
    ensures Enqueue.ValidateAll(cfg, rs).value[i].maxAttempts >= 1
  {
    var n := |rs| - 1;
    if i < n { ValidMaxAttempts(cfg, rs[..n], i); }
  }

  lemma AddedItemsAreFresh(cfg: Config, v: View, rs: seq<AddJobRequest>, ids: seq<Id>, traces: seq<string>)
    requires |ids| == |traces| == |rs| && Fresh(v, ids) && Enqueue.ValidateAll(cfg, rs).Ok?
    ensures FreshItems(v.born.Keys, Enqueue.ItemsOf(Enqueue.ValidateAll(cfg, rs).value, ids, traces))
  {
    forall i | 0 <= i < |rs| ensures Enqueue.ValidateAll(cfg, rs).value[i].maxAttempts >= 1 {
      ValidMaxAttempts(cfg, rs, i);
    }
  }

  lemma AddJobsLawful(cfg: Config, v: View, s: Store, bulk: bool, rs: seq<AddJobRequest>, ids: seq<Id>,
                      traces: seq<string>, now: int, strict: bool)
    requires Lawful(cfg, v, strict) && Shows(v, s) && |ids| == |traces| == |rs| && Fresh(v, ids)
    requires strict ==> OnlyFlowLinks(v, Enqueue.AddJobs(cfg, s, bulk, rs, ids, traces, now).0.jobs)
    ensures LawfulAfter(cfg, v, Enqueue.AddJobs(cfg, s, bulk, rs, ids, traces, now).0, strict)
  {
    var (t, reply) := Enqueue.AddJobs(cfg, s, bulk, rs, ids, traces, now);
    if reply.Ok? {
      var items := Enqueue.ItemsOf(Enqueue.ValidateAll(cfg, rs).value, ids, traces);
      AddedItemsAreFresh(cfg, v, rs, ids, traces);
      KeysConserved(v);
      BatchGrows(cfg, s, items, now);
      BatchLawful(cfg, v, s, items, now, strict);
    } else {
      EnqueueLaws.FailedBatchLeavesNoTrace(cfg, s, bulk, rs, ids, traces, now);
      QuietLawful(cfg, v, t, strict);
    }
  }

  lemma AddJobsGauges(cfg: Config, v: View, s: Store, bulk: bool, rs: seq<AddJobRequest>, ids: seq<Id>,
                      traces: seq<string>, now: int)
    requires Conserved(v) && Shows(v, s) && |ids| == |traces| == |rs| && Fresh(v, ids) && GaugeLaw(s)
    ensures GaugeLaw(Enqueue.AddJobs(cfg, s, bulk, rs, ids, traces, now).0)
  {
    if Enqueue.AddJobs(cfg, s, bulk, rs, ids, traces, now).1.Ok? {
      AddedItemsAreFresh(cfg, v, rs, ids, traces);
      KeysConserved(v);
      BatchKeepsGauges(cfg, s, Enqueue.ItemsOf(Enqueue.ValidateAll(cfg, rs).value, ids, traces), now);
    } else {
      EnqueueLaws.FailedBatchLeavesNoTrace(cfg, s, bulk, rs, ids, traces, now);
    }
  }

  lemma FireLawful(cfg: Config, v: View, next: Timers.Cron, s: Store, id: Id, row: Scheduler, job: Id, trace: string,
                   now: int, strict: bool)
    requires Lawful(cfg, v, strict) && Shows(v, s) && job !in v.born
    requires Timers.Fire(cfg, next, s, id, row, job, trace, now).Some?
    ensures LawfulAfter(cfg, v, Timers.Fire(cfg, next, s, id, row, job, trace, now).value, strict)
  {
    var t := Timers.Fire(cfg, next, s, id, row, job, trace, now).value;
    Timers.FireAdmits(cfg, v, next, s, id, row, job, trace, now);
    FireLinksNothing(cfg, v, next, s, id, row, job, trace, now);
    MoveLawful(cfg, v, Admit(map[job := t.jobs[job]], None), t, strict);
  }

  /** A scheduled job has no parent. */
  lemma FireLinksNothing(cfg: Config, v: View, next: Timers.Cron, s: Store, id: Id, row: Scheduler, job: Id,
                         trace: string, now: int)
    requires Conserved(v) && Shows(v, s) && Timers.Fire(cfg, next, s, id, row, job, trace, now).Some?
    ensures OnlyFlowLinks(v, Timers.Fire(cfg, next, s, id, row, job, trace, now).value.jobs)
  {
    KeysConserved(v);
    FireRow(cfg, next, s, id, row, job, trace, now);
  }

  lemma FireRow(cfg: Config, next: Timers.Cron, s: Store, id: Id, row: Scheduler, job: Id, trace: string, now: int)
    requires Timers.Fire(cfg, next, s, id, row, job, trace, now).Some?
    ensures var t := Timers.Fire(cfg, next, s, id, row, job, trace, now).value;
            job in t.jobs && t.jobs == s.jobs[job := t.jobs[job]] && t.jobs[job].card.parent.None?
  {
  }

  lemma FireGauges(cfg: Config, v: View, next: Timers.Cron, s: Store, id: Id, row: Scheduler, job: Id, trace: string,
                   now: int)
    requires Conserved(v) && Shows(v, s) && job !in v.born && GaugeLaw(s)
    requires Timers.Fire(cfg, next, s, id, row, job, trace, now).Some?
    ensures GaugeLaw(Timers.Fire(cfg, next, s, id, row, job, trace, now).value)
  {
    KeysConserved(v);
    EnqueueKeepsGauges(cfg, s, Enqueue.Validate(cfg, Timers.BuildRequest(row)).value, job, trace, now);
  }

  // ---- Flows ----

  lemma AddFlowsLawful(cfg: Config, v: View, s: Store, bulk: bool, flows: seq<FlowJob>, supplies: seq<seq<Id>>,
                       now: int, strict: bool)
    requires Lawful(cfg, v, strict) && Shows(v, s) && Flow.Supplied(flows, supplies) && FreshSupplies(v, supplies)
    ensures LawfulAfter(cfg, v, Flow.AddFlows(cfg, s, bulk, flows, supplies, now).0, strict)
  {
    var (t, reply) := Flow.AddFlows(cfg, s, bulk, flows, supplies, now);
    if reply.Ok? {
      TreesLawful(cfg, v, s, flows, supplies, now, {}, strict);
    } else {
      QuietLawful(cfg, v, t, strict);
    }
  }

  lemma AddFlowsGauges(cfg: Config, v: View, s: Store, bulk: bool, flows: seq<FlowJob>, supplies: seq<seq<Id>>,
                       now: int, strict: bool)
    requires Lawful(cfg, v, strict) && Shows(v, s) && Flow.Supplied(flows, supplies) && FreshSupplies(v, supplies)
              && GaugeLaw(s)
    ensures GaugeLaw(Flow.AddFlows(cfg, s, bulk, flows, supplies, now).0)
  {
    if Flow.AddFlows(cfg, s, bulk, flows, supplies, now).1.Ok? {
      TreesKeepGauges(cfg, v, s, flows, supplies, now, {}, strict);
    }
  }

  lemma MergeLawful(cfg: Config, v: View, s: Store, flow: FlowJob, supply: seq<Id>, now: int, strict: bool)
    requires Lawful(cfg, v, strict) && Shows(v, s) && SizeAll(flow.children) <= |supply| && Fresh(v, supply)
    ensures LawfulAfter(cfg, v, Flow.AddFlowMerge(cfg, s, flow, supply, now).0, strict)
  {
    var (t, reply) := Flow.AddFlowMerge(cfg, s, flow, supply, now);
    if reply.Ok? {
      MergedLawful(cfg, v, s, flow, supply, now, strict);
    } else {
      QuietLawful(cfg, v, t, strict);
    }
  }

  lemma MergedLawful(cfg: Config, v: View, s: Store, flow: FlowJob, supply: seq<Id>, now: int, strict: bool)
    requires Lawful(cfg, v, strict) && Shows(v, s) && SizeAll(flow.children) <= |supply| && Fresh(v, supply)
    requires Flow.AddFlowMerge(cfg, s, flow, supply, now).1.Ok?
    ensures LawfulAfter(cfg, v, Flow.AddFlowMerge(cfg, s, flow, supply, now).0, strict)
  {
    var p := s.receipts[SlotOf(flow.body)].jobId;
    var t := Flow.AddFlowMerge(cfg, s, flow, supply, now).0;
    var rows, tree, base := Flow.NewRows(flow, p, supply), Flow.TreeOf(p, s.jobs[p]), s.jobs[p].treeDepth;
    var news := Flow.RowMap(rows, tree, base, now);
    MergeAdmits(cfg, v, flow.children, p, supply, now);
    AllInTree(rows, tree, base, now);
    TreeRowsLinkFreely(cfg, v, news, Some(p), t.jobs);
    MoveLawful(cfg, v, Admit(news, Some(p)), t, strict);
  }

  lemma MergeGauges(cfg: Config, v: View, s: Store, flow: FlowJob, supply: seq<Id>, now: int)
    requires Conserved(v) && Shows(v, s) && SizeAll(flow.children) <= |supply| && Fresh(v, supply) && GaugeLaw(s)
    ensures GaugeLaw(Flow.AddFlowMerge(cfg, s, flow, supply, now).0)
  {
    if Flow.AddFlowMerge(cfg, s, flow, supply, now).1.Ok? { MergeKeepsGauges(cfg, v, s, flow, supply, now); }
  }

  // ---- Workers and passes ----

  lemma PollLawful(cfg: Config, v: View, s: Store, r: Dispatch.PollRequest, now: int, now2: int, strict: bool)
    requires Lawful(cfg, v, strict) && Shows(v, s)
    ensures LawfulAfter(cfg, v, Dispatch.Poll(cfg, s, r, now, now2).0, strict)
  {
    var t := Dispatch.Poll(cfg, s, r, now, now2).0;
    Dispatch.PollIsMove(cfg, v, s, r, now, now2);
    assert t.jobs.Keys == s.jobs.Keys;
    NoNewLinks(v, t.jobs);
    MoveLawful(cfg, v, Dispatch.PollMove(cfg, s, r, now), t, strict);
  }

  lemma HeartbeatLawful(cfg: Config, v: View, s: Store, r: Leases.HeartbeatRequest, now: int, strict: bool)
    requires Lawful(cfg, v, strict) && Shows(v, s)
    ensures LawfulAfter(cfg, v, Leases.Heartbeat(cfg, s, r, now).0, strict)
  {
    var t := Leases.Heartbeat(cfg, s, r, now).0;
    Leases.HeartbeatIsMove(cfg, v, s, r, now);
    assert t.jobs.Keys == s.jobs.Keys;
    NoNewLinks(v, t.jobs);
    MoveLawful(cfg, v, Leases.HeartbeatMove(s, r, now), t, strict);
  }

  lemma RetryKeys(s: Store, r: Finish.FinishRequest, now: int, rand: real)
    requires r.id in s.jobs
    ensures Finish.RetryLater(s, r, now, rand).jobs.Keys <= s.jobs.Keys
  {
  }

  lemma FailKeys(s: Store, r: Finish.FinishRequest, now: int)
    requires r.id in s.jobs
    ensures Finish.Fail(s, r, now).jobs.Keys <= s.jobs.Keys
  {
  }

  lemma SucceedKeys(s: Store, r: Finish.FinishRequest, now: int)
    requires r.id in s.jobs
    ensures Finish.Succeed(s, r, now).jobs.Keys <= s.jobs.Keys
  {
  }

  lemma FinishKeys(s: Store, r: Finish.FinishRequest, now: int, rand: real)
    ensures Finish.FinishJob(s, r, now, rand).0.jobs.Keys <= s.jobs.Keys
  {
    if Finish.Judge(s, r, now).Accepted? {
      RetryKeys(s, r, now, rand);
      FailKeys(s, r, now);
      SucceedKeys(s, r, now);
    }
  }

  lemma FinishLawful(cfg: Config, v: View, s: Store, r: Finish.FinishRequest, now: int, rand: real, strict: bool)
    requires Lawful(cfg, v, strict) && Shows(v, s)
    ensures LawfulAfter(cfg, v, Finish.FinishJob(s, r, now, rand).0, strict)
  {
    var t := Finish.FinishJob(s, r, now, rand).0;
    Finish.FinishIsMove(cfg, v, s, r, now, rand);
    FinishKeys(s, r, now, rand);
    NoNewLinks(v, t.jobs);
    MoveLawful(cfg, v, Finish.FinishMove(s, r, now), t, strict);
  }

  lemma RecoverLawful(cfg: Config, v: View, s: Store, batch: nat, now: int, strict: bool)
    requires Lawful(cfg, v, strict) && Shows(v, s)
    ensures LawfulAfter(cfg, v, Leases.Recover(s, batch, now), strict)
  {
    var t := Leases.Recover(s, batch, now);
    Leases.RecoverIsMove(cfg, v, s, batch, now);
    NoNewLinks(v, t.jobs);
    MoveLawful(cfg, v, Leases.RecoverMove(s, batch, now), t, strict);
  }

  lemma RecoverGauges(v: View, s: Store, batch: nat, now: int)
    requires Conserved(v) && Shows(v, s) && GaugeLaw(s)
    ensures GaugeLaw(Leases.Recover(s, batch, now))
  {
    KeysConserved(v);
    Leases.BatchIsExpired(s.jobs, now, batch);
    RecoverKeepsGauges(s, Leases.ToSet(Leases.ExpiredBatch(s.jobs, now, batch)), now);
  }

  lemma SweepLawful(cfg: Config, v: View, s: Store, p: Retention.Picks, strict: bool)
    requires Lawful(cfg, v, strict) && Shows(v, s)
    ensures LawfulAfter(cfg, v, Retention.Sweep(s, p), strict)
  {
    Retention.SweepIsMove(cfg, v, s, p);
    NoNewLinks(v, s.jobs);
    MoveLawful(cfg, v, Prune(Retention.PassGone(p)), Retention.Sweep(s, p), strict);
  }
}
