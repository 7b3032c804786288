/**
  Every step of a run is one move of the job machine or, for calls that insert
  many rows, growth by resting rows; and only polls claim.
 */
module StepMoves {
  import opened Tables
  import opened Lifecycle
  import opened LifecycleLaws
  import opened Laws
  import opened CallLaws
  import opened World
  import Dispatch
  import Enqueue
  import EnqueueLaws
  import Finish
  import Flatten
  import Flow
  import FlowLaws
  import Leases
  import Retention
  import Timers = Scheduler

  /**
    The tables of `t` come from those of `v` by one move, which is a claim only if `claims` and an admission
    only if `admits`, or if `admits` by growth.
   */
  ghost predicate Moves(cfg: Config, v: View, t: Store, claims: bool, admits: bool) {
    || (admits && Grows(v.jobs, t.jobs) && t.history == v.history)
    || exists m: Move :: Happens(cfg, v, m, t.jobs, t.history) && (m.Claim? ==> claims) && (m.Admit? ==> admits)
  }

  lemma MoveMoves(cfg: Config, v: View, m: Move, t: Store, claims: bool, admits: bool)
    requires Happens(cfg, v, m, t.jobs, t.history) && (m.Claim? ==> claims) && (m.Admit? ==> admits)
    ensures Moves(cfg, v, t, claims, admits)
  {
  }

  lemma QuietMoves(cfg: Config, v: View, t: Store, admits: bool)
    requires Shows(v, t)
    ensures Moves(cfg, v, t, false, admits)
  {
    MoveMoves(cfg, v, Quiet, t, false, admits);
  }

  lemma AddJobsMoves(cfg: Config, v: View, s: Store, bulk: bool, rs: seq<AddJobRequest>, ids: seq<Id>,
                     traces: seq<string>, now: int)
    requires Lawful(cfg, v, false) && Shows(v, s) && |ids| == |traces| == |rs| && FlowLaws.Fresh(v, ids)
    ensures Moves(cfg, v, Enqueue.AddJobs(cfg, s, bulk, rs, ids, traces, now).0, false, true)
  {
    var (t, reply) := Enqueue.AddJobs(cfg, s, bulk, rs, ids, traces, now);
    if reply.Ok? {
      AddedItemsAreFresh(cfg, v, rs, ids, traces);
      KeysConserved(v);
      BatchGrows(cfg, s, Enqueue.ItemsOf(Enqueue.ValidateAll(cfg, rs).value, ids, traces), now);
    } else {
      EnqueueLaws.FailedBatchLeavesNoTrace(cfg, s, bulk, rs, ids, traces, now);
      QuietMoves(cfg, v, t, true);
    }
  }

  lemma AddFlowsMoves(cfg: Config, v: View, s: Store, bulk: bool, flows: seq<Flatten.FlowJob>, supplies: seq<seq<Id>>,
                      now: int)
    requires Lawful(cfg, v, false) && Shows(v, s) && Flow.Supplied(flows, supplies) && FreshSupplies(v, supplies)
    ensures Moves(cfg, v, Flow.AddFlows(cfg, s, bulk, flows, supplies, now).0, false, true)
  {
    var (t, reply) := Flow.AddFlows(cfg, s, bulk, flows, supplies, now);
    if reply.Ok? { TreesLawful(cfg, v, s, flows, supplies, now, {}, false); } else { QuietMoves(cfg, v, t, true); }
  }

  lemma MergeMoves(cfg: Config, v: View, s: Store, flow: Flatten.FlowJob, supply: seq<Id>, now: int)
    requires Lawful(cfg, v, false) && Shows(v, s)
    requires Flatten.SizeAll(flow.children) <= |supply| && FlowLaws.Fresh(v, supply)
    ensures Moves(cfg, v, Flow.AddFlowMerge(cfg, s, flow, supply, now).0, false, true)
  {
    var (t, reply) := Flow.AddFlowMerge(cfg, s, flow, supply, now);
    if reply.Ok? {
      var q := s.receipts[Flatten.SlotOf(flow.body)].jobId;
      var news := Flow.RowMap(Flow.NewRows(flow, q, supply), Flow.TreeOf(q, s.jobs[q]), s.jobs[q].treeDepth, now);
      FlowLaws.MergeAdmits(cfg, v, flow.children, q, supply, now);
      MoveMoves(cfg, v, Admit(news, Some(q)), t, false, true);
    } else {
      QuietMoves(cfg, v, t, true);
    }
  }

  lemma InsertMoves(cfg: Config, next: Timers.Cron, v: View, s: Store, op: Op)
    requires Lawful(cfg, v, false) && Shows(v, s) && Legal(v, s, op) && Inserts(op)
    ensures Moves(cfg, v, Insert(cfg, next, v, s, op), false, true)
  {
    if op.AddJobs? {
      AddJobsMoves(cfg, v, s, op.bulk, op.requests, op.ids, op.traces, op.now);
    } else if op.AddFlows? {
      AddFlowsMoves(cfg, v, s, op.bulk, op.flows, op.supplies, op.now);
    } else if op.AddFlowMerge? {
      MergeMoves(cfg, v, s, op.flow, op.supply, op.now);
    } else {
      var fired := Timers.Fire(cfg, next, s, op.scheduler, s.schedulers[op.scheduler], op.job, op.trace, op.now);
      if fired.Some? {
        Timers.FireAdmits(cfg, v, next, s, op.scheduler, s.schedulers[op.scheduler], op.job, op.trace, op.now);
        MoveMoves(cfg, v, Admit(map[op.job := fired.value.jobs[op.job]], None), fired.value, false, true);
      } else {
        QuietMoves(cfg, v, s, true);
      }
    }
  }

  lemma FinishClaimsNothing(s: Store, r: Finish.FinishRequest, now: int)
    ensures !Finish.FinishMove(s, r, now).Claim? && !Finish.FinishMove(s, r, now).Admit?
  {
  }

  lemma WorkMoves(cfg: Config, v: View, s: Store, op: Op)
    requires Lawful(cfg, v, false) && Shows(v, s) && Works(op)
    ensures Moves(cfg, v, Work(cfg, s, op), op.Poll?, false)
  {
    var t := Work(cfg, s, op);
    if op.Poll? {
      Dispatch.PollIsMove(cfg, v, s, op.poll, op.now, op.now2);
      MoveMoves(cfg, v, Dispatch.PollMove(cfg, s, op.poll, op.now), t, true, false);
    } else if op.Heartbeat? {
      Leases.HeartbeatIsMove(cfg, v, s, op.beat, op.now);
      MoveMoves(cfg, v, Leases.HeartbeatMove(s, op.beat, op.now), t, false, false);
    } else if op.FinishJob? {
      Finish.FinishIsMove(cfg, v, s, op.finish, op.now, op.rand);
      FinishClaimsNothing(s, op.finish, op.now);
      MoveMoves(cfg, v, Finish.FinishMove(s, op.finish, op.now), t, false, false);
    } else if op.Recover? {
      Leases.RecoverIsMove(cfg, v, s, op.batch, op.now);
      MoveMoves(cfg, v, Leases.RecoverMove(s, op.batch, op.now), t, false, false);
    } else {
      Retention.SweepIsMove(cfg, v, s, op.picks);
      MoveMoves(cfg, v, Prune(Retention.PassGone(op.picks)), t, false, false);
    }
  }

  lemma ApplyMoves(cfg: Config, next: Timers.Cron, v: View, s: Store, op: Op)
    requires Lawful(cfg, v, false) && Shows(v, s) && Legal(v, s, op)
    ensures Moves(cfg, v, Apply(cfg, next, v, s, op), op.Poll?, Inserts(op))
  {
    if Inserts(op) {
      InsertMoves(cfg, next, v, s, op);
    } else if Works(op) {
      WorkMoves(cfg, v, s, op);
    } else {
      SetTables(s, op);
      QuietMoves(cfg, v, Set(s, op), false);
    }
  }

  /** What any step of a run does to the two tables, and how the observer sees it. */
  ghost predicate Moved(cfg: Config, w: World, op: Op, w': World) {
    && Moves(cfg, w.view, w'.db, op.Poll?, Inserts(op))
    && w'.view == Watch(w.view, w'.db.jobs, w'.db.history)
    && Lawful(cfg, w.view, false) && Shows(w.view, w.db) && Conserved(w'.view)
  }

  lemma FollowsMoves(cfg: Config, next: Timers.Cron, w: World, op: Op, w': World)
    requires Follows(cfg, next, w, op, w') && Lawful(cfg, w.view, false) && Shows(w.view, w.db)
    ensures Moved(cfg, w, op, w')
  {
    ApplyMoves(cfg, next, w.view, w.db, op);
    StepLawful(cfg, next, w.view, w.db, op, false);
  }

  lemma RunMoves(cfg: Config, next: Timers.Cron, ws: seq<World>, ops: seq<Op>, i: nat)
    requires Run(cfg, next, ws, ops) && i < |ops|
    ensures Moved(cfg, ws[i], ops[i], ws[i + 1])
  {
    RunIsSound(cfg, next, ws, ops, i, false, false);
    FollowsMoves(cfg, next, ws[i], ops[i], ws[i + 1]);
  }

  /** Only insertions bring jobs into being. */
  lemma NothingBorn(cfg: Config, w: World, op: Op, w': World)
    requires Moved(cfg, w, op, w') && !Inserts(op)
    ensures w'.view.born == w.view.born
  {
    var m: Move :| Happens(cfg, w.view, m, w'.db.jobs, w'.db.history) && !m.Admit?;
    BirthsOf(cfg, w.view, m, w'.db.jobs, w'.db.history);
  }
}
