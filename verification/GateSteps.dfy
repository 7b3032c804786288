/**
  How single calls treat the gate of one job.  Only the completion of a child
  can open a gate, and it opens it early exactly when `OpensEarly` holds before
  the call; every other call keeps a right gate right.
 */
module GateSteps {
  import opened Tables
  import opened Lifecycle
  import opened LifecycleLaws
  import opened Gate
  import opened Forest
  import opened Laws
  import opened CallLaws
  import opened Sets
  import opened Flatten
  import opened FlowLaws
  import Dispatch
  import Enqueue
  import EnqueueLaws
  import Finish
  import Flow
  import Leases
  import Retention
  import Timers = Scheduler

  /** The gate of `p` is right while `p` is live, and `p` did not complete over an open flow child. */
  ghost predicate Sane(v: View, p: Id) {
    Right(v, p) && Shut(v, p)
  }

  /** The step neither opens the gate of `p` nor completes a child of a live `p`. */
  predicate Steady(v: View, jobs': Jobs, history': History, p: Id) {
    && (p in v.jobs && p in jobs' ==>
          || jobs'[p].state.WaitingChildren?
          || (!v.jobs[p].state.WaitingChildren? && jobs'[p].pending == v.jobs[p].pending))
    && (p in jobs' ==> DoneKids(history' + v.died, p) == DoneKids(v.died, p))
    && (p in history' && history'[p].outcome.Completed? && p !in v.died ==> Held(v.jobs, p))
  }

  // ---- A steady step keeps a right gate right ----

  lemma KidsStay(v: View, jobs': Jobs, history': History, p: Id)
    ensures FlowKids(v.born, p) <= FlowKids(Watch(v, jobs', history').born, p)
    ensures DoneKids(v.died, p) <= DoneKids(Watch(v, jobs', history').died, p)
  {
  }

  lemma NoKidsOfDead(v: View, jobs': Jobs, history': History, p: Id)
    requires Adopted(v, jobs') && p !in jobs'
    ensures FlowKids(Watch(v, jobs', history').born, p) == FlowKids(v.born, p)
  {
  }

  lemma SteadyRow(v: View, jobs': Jobs, history': History, p: Id)
    requires var v' := Watch(v, jobs', history'); Balanced(v, p) && Balanced(v', p) && GatedId(v', p)
    requires Right(v, p) && Steady(v, jobs', history', p) && p in v.jobs && p in jobs'
    ensures Right(Watch(v, jobs', history'), p)
  {
    var v' := Watch(v, jobs', history');
    KidsStay(v, jobs', history', p);
    if !jobs'[p].state.WaitingChildren? { Exchange(FlowKids(v.born, p), FlowKids(v'.born, p)); }
  }

  lemma NewbornRow(v: View, jobs': Jobs, history': History, p: Id)
    requires var v' := Watch(v, jobs', history'); Booked(v) && Booked(v') && GatedId(v', p)
    requires Steady(v, jobs', history', p) && p !in v.jobs && p in jobs'
    ensures Right(Watch(v, jobs', history'), p)
  {
    var v' := Watch(v, jobs', history');
    assert Accounted(v, p) && Accounted(v', p);
    NoKidsBeforeBirth(v, p);
    FittingIsRight(v', p);
  }

  lemma SteadyEnd(v: View, jobs': Jobs, history': History, p: Id)
    requires Sane(v, p) && Adopted(v, jobs') && Steady(v, jobs', history', p) && p !in jobs'
    ensures Shut(Watch(v, jobs', history'), p)
  {
    KidsStay(v, jobs', history', p);
    NoKidsOfDead(v, jobs', history', p);
  }

  lemma SteadyKeepsSane(v: View, jobs': Jobs, history': History, p: Id)
    requires var v' := Watch(v, jobs', history'); Booked(v) && Booked(v') && GateLaw(v')
    requires Sane(v, p) && Adopted(v, jobs') && Steady(v, jobs', history', p)
    ensures Sane(Watch(v, jobs', history'), p)
  {
    var v' := Watch(v, jobs', history');
    assert GatedId(v', p) && Balanced(v, p) && Balanced(v', p) && Accounted(v', p);
    if p !in jobs' {
      SteadyEnd(v, jobs', history', p);
    } else if p in v.jobs {
      SteadyRow(v, jobs', history', p);
    } else {
      NewbornRow(v, jobs', history', p);
    }
  }

  // ---- Which steps are steady ----

  lemma GrowthIsSteady(v: View, jobs': Jobs, p: Id)
    requires Conserved(v) && Grows(v.jobs, jobs')
    ensures Steady(v, jobs', v.history, p)
  {
    NoDeaths(v, jobs', v.history);
    assert Accounted(v, p);
  }

  lemma AdmitIsSteady(cfg: Config, v: View, rows: Jobs, target: Option<Id>, jobs': Jobs, p: Id)
    requires Conserved(v) && Admits(cfg, v, rows, target, jobs')
    ensures Steady(v, jobs', v.history, p)
  {
    NoDeaths(v, jobs', v.history);
    assert Accounted(v, p);
  }

  lemma SettleIsSteady(cfg: Config, v: View, retried: set<Id>, dead: set<Id>, jobs': Jobs, history': History, p: Id)
    requires Conserved(v) && Settles(v, retried, dead, jobs', history')
    ensures Steady(v, jobs', history', p)
  {
    assert Accounted(v, p);
    DoneKidsSettled(v, retried, dead, jobs', history', p);
    assert p in retried && p in jobs' ==> Requeued(v.jobs[p], jobs'[p]);
  }

  lemma OtherCompletionIsSteady(cfg: Config, v: View, c: Id, now: int, jobs': Jobs, history': History, p: Id)
    requires Booked(v) && Completes(v, c, now, jobs', history') && v.jobs[c].card.parent != Some(p)
    ensures Steady(v, jobs', history', p)
  {
    assert Accounted(v, p);
    CompleteKids(cfg, v, c, now, jobs', history', p);
    if p in jobs' { OtherAfter(v, c, now, jobs', history', p); }
  }

  lemma MoveAdopts(cfg: Config, v: View, m: Move, jobs': Jobs, history': History)
    requires Conserved(v) && Happens(cfg, v, m, jobs', history')
    ensures Adopted(v, jobs')
  {
    if m.Admit? {
      AdmitAdopts(cfg, v, m.rows, m.target, jobs');
    } else {
      BirthsOf(cfg, v, m, jobs', history');
      assert jobs'.Keys <= Watch(v, jobs', history').born.Keys;
    }
  }

  predicate CompletesChildOf(v: View, m: Move, p: Id) {
    m.Complete? && m.id in v.jobs && v.jobs[m.id].card.parent == Some(p)
  }

  lemma MoveIsSteady(cfg: Config, v: View, m: Move, jobs': Jobs, history': History, p: Id)
    requires Booked(v) && Happens(cfg, v, m, jobs', history') && !CompletesChildOf(v, m, p)
    ensures Steady(v, jobs', history', p)
  {
    match m
    case Admit(rows, target) => AdmitIsSteady(cfg, v, rows, target, jobs', p);
    case Settle(retried, dead) => SettleIsSteady(cfg, v, retried, dead, jobs', history', p);
    case Complete(c, now) => OtherCompletionIsSteady(cfg, v, c, now, jobs', history', p);
    case _ =>
      NoDeaths(v, jobs', history');
      assert Accounted(v, p);
  }

  // ---- The completion of a child ----

  lemma ChildCompletes(cfg: Config, v: View, c: Id, now: int, jobs': Jobs, history': History, p: Id)
    requires Booked(v) && Booked(Watch(v, jobs', history')) && Completes(v, c, now, jobs', history')
    requires v.jobs[c].card.parent == Some(p) && p != c && Sane(v, p)
    ensures Right(Watch(v, jobs', history'), p) <==> !OpensEarly(v, c, p)
    ensures Shut(Watch(v, jobs', history'), p)
  {
    var v' := Watch(v, jobs', history');
    BooksAfter(cfg, v, c, now, jobs', history', p);
    assert Accounted(v, p) && Accounted(v', p);
    if IsParked(v.jobs, p) {
      OpensExactly(cfg, v, c, now, jobs', history', p);
      assert |OpenAfter(v, c, p)| > 0 <==> OpenAfter(v, c, p) != {};
    } else if p in jobs' {
      ParentAfter(v, c, now, jobs', history', p);
    }
  }

  /** From a right gate, one move of the job machine leads to a right gate if and only if it does not open it early. */
  lemma MoveRightIff(cfg: Config, v: View, m: Move, jobs': Jobs, history': History, p: Id)
    requires Lawful(cfg, v, false) && Happens(cfg, v, m, jobs', history') && Sane(v, p)
    ensures var v' := Watch(v, jobs', history');
            && (Right(v', p) <==> !(m.Complete? && OpensEarly(v, m.id, p)))
            && (Right(v', p) ==> Shut(v', p))
  {
    MoveKeepsLaws(cfg, v, m, jobs', history', false);
    if CompletesChildOf(v, m, p) {
      NotOwnParent(cfg, v, m.id);
      ChildCompletes(cfg, v, m.id, m.now, jobs', history', p);
    } else {
      MoveIsSteady(cfg, v, m, jobs', history', p);
      MoveAdopts(cfg, v, m, jobs', history');
      SteadyKeepsSane(v, jobs', history', p);
    }
  }

  /** A job deeper than its parent is not its own parent. */
  lemma NotOwnParent(cfg: Config, v: View, c: Id)
    requires Lawful(cfg, v, false) && c in v.jobs
    ensures v.jobs[c].card.parent != Some(c)
  {
    assert Accounted(v, c) && Grafted(cfg, v, c) && Derived(cfg, v, c);
  }

  // ---- Calls ----

  /** After the call, the gate of `p` is right exactly if the call did not open it early. */
  ghost predicate RightAfter(v: View, t: Store, early: bool, p: Id) {
    var v' := Watch(v, t.jobs, t.history);
    (Right(v', p) <==> !early) && (Right(v', p) ==> Shut(v', p))
  }

  /** A step that only adds resting rows, each row of a tree under a live one. */
  lemma GrowthRight(cfg: Config, v: View, t: Store, p: Id)
    requires Lawful(cfg, v, false) && LawfulAfter(cfg, v, t, false) && Sane(v, p)
    requires Grows(v.jobs, t.jobs) && t.history == v.history && Adopted(v, t.jobs)
    ensures RightAfter(v, t, false, p)
  {
    GrowthIsSteady(v, t.jobs, p);
    SteadyKeepsSane(v, t.jobs, v.history, p);
  }

  lemma MoveRight(cfg: Config, v: View, m: Move, t: Store, p: Id)
    requires Lawful(cfg, v, false) && Happens(cfg, v, m, t.jobs, t.history) && Sane(v, p)
    ensures RightAfter(v, t, m.Complete? && OpensEarly(v, m.id, p), p)
  {
    MoveRightIff(cfg, v, m, t.jobs, t.history, p);
  }

  lemma QuietRight(cfg: Config, v: View, t: Store, p: Id)
    requires Lawful(cfg, v, false) && Shows(v, t) && Sane(v, p)
    ensures RightAfter(v, t, false, p)
  {
    MoveRight(cfg, v, Quiet, t, p);
  }

  /** Jobs added by a batch belong to no tree. */
  lemma {:induction false} BatchIsSolo(cfg: Config, s: Store, items: seq<Enqueue.Item>, now: int, c: Id)
    requires Enqueue.EnqueueAll(cfg, s, items, now).Done? && c !in s.jobs
    ensures var t := Enqueue.EnqueueAll(cfg, s, items, now).store; c in t.jobs ==> t.jobs[c].treeId.None?
  {
    if items != [] {
      var n := |items| - 1;
      BatchIsSolo(cfg, s, items[..n], now, c);
      var t, x := Enqueue.EnqueueAll(cfg, s, items[..n], now).store, items[n];
      if EnqueueLaws.IsNew(Enqueue.EnqueueOne(cfg, t, x.request, x.id, x.freshTrace, now)) {
        EnqueueLaws.NewAdmissionRow(cfg, t, x.request, x.id, x.freshTrace, now);
      }
    }
  }

  lemma AddJobsRight(cfg: Config, v: View, s: Store, bulk: bool, rs: seq<AddJobRequest>, ids: seq<Id>,
                     traces: seq<string>, now: int, p: Id)
    requires Lawful(cfg, v, false) && Shows(v, s) && |ids| == |traces| == |rs| && Fresh(v, ids) && Sane(v, p)
    ensures RightAfter(v, Enqueue.AddJobs(cfg, s, bulk, rs, ids, traces, now).0, false, p)
  {
    var (t, reply) := Enqueue.AddJobs(cfg, s, bulk, rs, ids, traces, now);
    if reply.Ok? {
      var items := Enqueue.ItemsOf(Enqueue.ValidateAll(cfg, rs).value, ids, traces);
      AddedItemsAreFresh(cfg, v, rs, ids, traces);
      KeysConserved(v);
      BatchGrows(cfg, s, items, now);
      AddJobsLawful(cfg, v, s, bulk, rs, ids, traces, now, false);
      forall c: Id | c in t.jobs && c !in v.born ensures t.jobs[c].treeId.None? {
        BatchIsSolo(cfg, s, items, now, c);
      }
      GrowthRight(cfg, v, t, p);
    } else {
      EnqueueLaws.FailedBatchLeavesNoTrace(cfg, s, bulk, rs, ids, traces, now);
      QuietRight(cfg, v, t, p);
    }
  }

  lemma AddFlowsRight(cfg: Config, v: View, s: Store, bulk: bool, flows: seq<FlowJob>, supplies: seq<seq<Id>>, now: int,
                      p: Id)
    requires Lawful(cfg, v, false) && Shows(v, s) && Flow.Supplied(flows, supplies) && FreshSupplies(v, supplies)
    requires Sane(v, p)
    ensures RightAfter(v, Flow.AddFlows(cfg, s, bulk, flows, supplies, now).0, false, p)
  {
    var (t, reply) := Flow.AddFlows(cfg, s, bulk, flows, supplies, now);
    if reply.Ok? {
      TreesLawful(cfg, v, s, flows, supplies, now, {}, false);
      GrowthRight(cfg, v, t, p);
    } else {
      QuietRight(cfg, v, t, p);
    }
  }

  lemma MergeRight(cfg: Config, v: View, s: Store, flow: FlowJob, supply: seq<Id>, now: int, p: Id)
    requires Lawful(cfg, v, false) && Shows(v, s) && SizeAll(flow.children) <= |supply| && Fresh(v, supply)
    requires Sane(v, p)
    ensures RightAfter(v, Flow.AddFlowMerge(cfg, s, flow, supply, now).0, false, p)
  {
    var (t, reply) := Flow.AddFlowMerge(cfg, s, flow, supply, now);
    if reply.Ok? {
      var q := s.receipts[SlotOf(flow.body)].jobId;
      var news := Flow.RowMap(Flow.NewRows(flow, q, supply), Flow.TreeOf(q, s.jobs[q]), s.jobs[q].treeDepth, now);
      MergeAdmits(cfg, v, flow.children, q, supply, now);
      MoveRight(cfg, v, Admit(news, Some(q)), t, p);
    } else {
      QuietRight(cfg, v, t, p);
    }
  }

  lemma FireRight(cfg: Config, v: View, next: Timers.Cron, s: Store, id: Id, row: Scheduler, job: Id, trace: string,
                  now: int, p: Id)
    requires Lawful(cfg, v, false) && Shows(v, s) && job !in v.born && Sane(v, p)
    requires Timers.Fire(cfg, next, s, id, row, job, trace, now).Some?
    ensures RightAfter(v, Timers.Fire(cfg, next, s, id, row, job, trace, now).value, false, p)
  {
    var t := Timers.Fire(cfg, next, s, id, row, job, trace, now).value;
    Timers.FireAdmits(cfg, v, next, s, id, row, job, trace, now);
    MoveRight(cfg, v, Admit(map[job := t.jobs[job]], None), t, p);
  }

  lemma PollRight(cfg: Config, v: View, s: Store, r: Dispatch.PollRequest, now: int, now2: int, p: Id)
    requires Lawful(cfg, v, false) && Shows(v, s) && Sane(v, p)
    ensures RightAfter(v, Dispatch.Poll(cfg, s, r, now, now2).0, false, p)
  {
    Dispatch.PollIsMove(cfg, v, s, r, now, now2);
    MoveRight(cfg, v, Dispatch.PollMove(cfg, s, r, now), Dispatch.Poll(cfg, s, r, now, now2).0, p);
  }

  lemma HeartbeatRight(cfg: Config, v: View, s: Store, r: Leases.HeartbeatRequest, now: int, p: Id)
    requires Lawful(cfg, v, false) && Shows(v, s) && Sane(v, p)
    ensures RightAfter(v, Leases.Heartbeat(cfg, s, r, now).0, false, p)
  {
    Leases.HeartbeatIsMove(cfg, v, s, r, now);
    MoveRight(cfg, v, Leases.HeartbeatMove(s, r, now), Leases.Heartbeat(cfg, s, r, now).0, p);
  }

  /** The call completes a child of `p` while outside completions make up for the flow children still open. */
  predicate FinishOpensEarly(v: View, s: Store, r: Finish.FinishRequest, now: int, p: Id) {
    Finish.Judge(s, r, now).Accepted? && r.error.None? && OpensEarly(v, r.id, p)
  }

  lemma FinishMoveEarly(v: View, s: Store, r: Finish.FinishRequest, now: int, p: Id)
    ensures var m := Finish.FinishMove(s, r, now);
            m.Complete? && OpensEarly(v, m.id, p) <==> FinishOpensEarly(v, s, r, now, p)
  {
  }

  lemma FinishRight(cfg: Config, v: View, s: Store, r: Finish.FinishRequest, now: int, rand: real, p: Id)
    requires Lawful(cfg, v, false) && Shows(v, s) && Sane(v, p)
    ensures RightAfter(v, Finish.FinishJob(s, r, now, rand).0, FinishOpensEarly(v, s, r, now, p), p)
  {
    Finish.FinishIsMove(cfg, v, s, r, now, rand);
    FinishMoveEarly(v, s, r, now, p);
    MoveRight(cfg, v, Finish.FinishMove(s, r, now), Finish.FinishJob(s, r, now, rand).0, p);
  }

  lemma RecoverRight(cfg: Config, v: View, s: Store, batch: nat, now: int, p: Id)
    requires Lawful(cfg, v, false) && Shows(v, s) && Sane(v, p)
    ensures RightAfter(v, Leases.Recover(s, batch, now), false, p)
  {
    Leases.RecoverIsMove(cfg, v, s, batch, now);
    MoveRight(cfg, v, Leases.RecoverMove(s, batch, now), Leases.Recover(s, batch, now), p);
  }

  lemma SweepRight(cfg: Config, v: View, s: Store, picks: Retention.Picks, p: Id)
    requires Lawful(cfg, v, false) && Shows(v, s) && Sane(v, p)
    ensures RightAfter(v, Retention.Sweep(s, picks), false, p)
  {
    Retention.SweepIsMove(cfg, v, s, picks);
    MoveRight(cfg, v, Prune(Retention.PassGone(picks)), Retention.Sweep(s, picks), p);
  }
}
