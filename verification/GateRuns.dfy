/**
  The gate of one job over whole runs: it is right in every world up to some
  point if and only if no completion before that point opened it early.
 */
module GateRuns {
  import opened Tables
  import opened Lifecycle
  import opened Gate
  import opened GateSteps
  import opened Laws
  import opened CallLaws
  import opened World
  import Timers = Scheduler

  /** The step completes a child of the parked job `p` and opens its gate although a flow child is still open. */
  predicate OpensGateEarly(v: View, s: Store, op: Op, p: Id) {
    op.FinishJob? && FinishOpensEarly(v, s, op.finish, op.now, p)
  }

  lemma InsertRight(cfg: Config, next: Timers.Cron, v: View, s: Store, op: Op, p: Id)
    requires Lawful(cfg, v, false) && Shows(v, s) && Legal(v, s, op) && Inserts(op) && Sane(v, p)
    ensures RightAfter(v, Insert(cfg, next, v, s, op), false, p)
  {
    if op.AddJobs? {
      AddJobsRight(cfg, v, s, op.bulk, op.requests, op.ids, op.traces, op.now, p);
    } else if op.AddFlows? {
      AddFlowsRight(cfg, v, s, op.bulk, op.flows, op.supplies, op.now, p);
    } else if op.AddFlowMerge? {
      MergeRight(cfg, v, s, op.flow, op.supply, op.now, p);
    } else if Timers.Fire(cfg, next, s, op.scheduler, s.schedulers[op.scheduler], op.job, op.trace, op.now).Some? {
      FireRight(cfg, v, next, s, op.scheduler, s.schedulers[op.scheduler], op.job, op.trace, op.now, p);
    } else {
      QuietRight(cfg, v, s, p);
    }
  }

  lemma WorkRight(cfg: Config, v: View, s: Store, op: Op, p: Id)
    requires Lawful(cfg, v, false) && Shows(v, s) && Works(op) && Sane(v, p)
    ensures RightAfter(v, Work(cfg, s, op), OpensGateEarly(v, s, op, p), p)
  {
    if op.Poll? {
      PollRight(cfg, v, s, op.poll, op.now, op.now2, p);
    } else if op.Heartbeat? {
      HeartbeatRight(cfg, v, s, op.beat, op.now, p);
    } else if op.FinishJob? {
      FinishRight(cfg, v, s, op.finish, op.now, op.rand, p);
    } else if op.Recover? {
      RecoverRight(cfg, v, s, op.batch, op.now, p);
    } else {
      SweepRight(cfg, v, s, op.picks, p);
    }
  }

  lemma StepRight(cfg: Config, next: Timers.Cron, v: View, s: Store, op: Op, p: Id)
    requires Lawful(cfg, v, false) && Shows(v, s) && Legal(v, s, op) && Sane(v, p)
    ensures RightAfter(v, Apply(cfg, next, v, s, op), OpensGateEarly(v, s, op, p), p)
  {
    if Inserts(op) {
      InsertRight(cfg, next, v, s, op, p);
    } else if Works(op) {
      WorkRight(cfg, v, s, op, p);
    } else {
      SetTables(s, op);
      QuietRight(cfg, v, Set(s, op), p);
    }
  }

  // ---- Over runs ----

  /** One step of a run, as the gate of `p` sees it. */
  ghost predicate Gates(w: World, op: Op, w': World, p: Id) {
    Sane(w.view, p) ==>
      && (Right(w'.view, p) <==> !OpensGateEarly(w.view, w.db, op, p))
      && (Right(w'.view, p) ==> Shut(w'.view, p))
  }

  lemma FollowsGates(cfg: Config, next: Timers.Cron, w: World, op: Op, w': World, p: Id)
    requires Follows(cfg, next, w, op, w') && Lawful(cfg, w.view, false) && Shows(w.view, w.db)
    ensures Gates(w, op, w', p)
  {
    if Sane(w.view, p) { StepRight(cfg, next, w.view, w.db, op, p); }
  }

  lemma RunGates(cfg: Config, next: Timers.Cron, ws: seq<World>, ops: seq<Op>, p: Id)
    requires Run(cfg, next, ws, ops)
    ensures forall i | 0 <= i < |ops| :: Gates(ws[i], ops[i], ws[i + 1], p)
  {
    forall i | 0 <= i < |ops| ensures Gates(ws[i], ops[i], ws[i + 1], p) {
      RunIsSound(cfg, next, ws, ops, i, false, false);
      FollowsGates(cfg, next, ws[i], ops[i], ws[i + 1], p);
    }
  }

  /** No step before the n-th world opened the gate of `p` early. */
  predicate NeverEarly(ws: seq<World>, ops: seq<Op>, n: nat, p: Id)
    requires n < |ws| == |ops| + 1
  {
    n == 0 || (NeverEarly(ws, ops, n - 1, p) && !OpensGateEarly(ws[n - 1].view, ws[n - 1].db, ops[n - 1], p))
  }

  lemma {:induction false} NeverEarlyFrom(ws: seq<World>, ops: seq<Op>, n: nat, p: Id)
    requires n < |ws| == |ops| + 1
    requires forall i | 0 <= i < n :: !OpensGateEarly(ws[i].view, ws[i].db, ops[i], p)
    ensures NeverEarly(ws, ops, n, p)
  {
    if n > 0 { NeverEarlyFrom(ws, ops, n - 1, p); }
  }

  predicate RightUpTo(ws: seq<World>, n: nat, p: Id)
    requires n < |ws|
  {
    forall k | 0 <= k <= n :: Right(ws[k].view, p)
  }

  lemma {:induction false} GateUpTo(ws: seq<World>, ops: seq<Op>, n: nat, p: Id)
    requires n < |ws| == |ops| + 1 && ws[0].view == NOTHING
    requires forall i | 0 <= i < |ops| :: Gates(ws[i], ops[i], ws[i + 1], p)
    ensures RightUpTo(ws, n, p) <==> NeverEarly(ws, ops, n, p)
    ensures RightUpTo(ws, n, p) ==> Shut(ws[n].view, p)
  {
    if n == 0 {
      assert Right(NOTHING, p) && Shut(NOTHING, p);
    } else {
      GateUpTo(ws, ops, n - 1, p);
      assert Gates(ws[n - 1], ops[n - 1], ws[n - 1 + 1], p);
      OneMoreGate(ws, n, p);
    }
  }

  lemma OneMoreGate(ws: seq<World>, n: nat, p: Id)
    requires 0 < n < |ws|
    ensures RightUpTo(ws, n, p) <==> RightUpTo(ws, n - 1, p) && Right(ws[n].view, p)
    ensures RightUpTo(ws, n - 1, p) ==> Right(ws[n - 1].view, p)
  {
  }

  /**
    In every run, a job is parked exactly while a flow child of it is open, in every world up to the n-th, if
    and only if no completion before then opened its gate early.
   */
  lemma GateRightIff(cfg: Config, next: Timers.Cron, ws: seq<World>, ops: seq<Op>, n: nat, p: Id)
    requires Run(cfg, next, ws, ops) && n < |ws|
    ensures RightUpTo(ws, n, p) <==> NeverEarly(ws, ops, n, p)
    ensures NeverEarly(ws, ops, n, p) ==> Right(ws[n].view, p) && Shut(ws[n].view, p)
  {
    RunGates(cfg, next, ws, ops, p);
    GateUpTo(ws, ops, n, p);
  }
}
