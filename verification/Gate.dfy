/**
  The dependency gate.  AddJob may also name a parent, and the completion of
  such an outside child takes one off the parent's count as well.  A parked job
  always has an open flow child, whatever else happens; the other direction
  holds for a job until a completion opens its gate early, which it does exactly
  when some flow child is still open and the outside completions make up for it.
 */
module Gate {
  import opened Tables
  import opened Lifecycle
  import opened LifecycleLaws
  import opened Sets

  ghost predicate Booked(v: View) {
    Conserved(v) && AllRooted(v) && Ledger(v)
  }

  ghost predicate IsCompleted(v: View, id: Id) {
    id in v.died && v.died[id].outcome.Completed?
  }

  /** The flow children of `p` that are not completed. */
  function Open(v: View, p: Id): set<Id> {
    FlowKids(v.born, p) - DoneKids(v.died, p)
  }

  /** The completed children of `p` that no flow placed. */
  function Outside(v: View, p: Id): set<Id> {
    DoneKids(v.died, p) - FlowKids(v.born, p)
  }

  predicate IsParked(jobs: Jobs, p: Id) {
    p in jobs && jobs[p].state.WaitingChildren?
  }

  // ---- The laws, with no condition on links ----

  /** A parked job has an open flow child. */
  predicate Blocked(v: View, p: Id) {
    IsParked(v.jobs, p) ==> Open(v, p) != {}
  }

  /** A job none of whose outside children completed is parked exactly while its count is positive. */
  predicate Fitting(v: View, p: Id) {
    p in v.jobs && Outside(v, p) == {} ==> (v.jobs[p].state.WaitingChildren? <==> v.jobs[p].pending > 0)
  }

  predicate GatedId(v: View, p: Id) {
    Blocked(v, p) && Fitting(v, p)
  }

  ghost predicate GateLaw(v: View) {
    forall p: Id :: GatedId(v, p)
  }

  /** A live count is the open flow children less the outside completions. */
  lemma CountMeaning(v: View, p: Id)
    requires Balanced(v, p) && p in v.jobs
    ensures v.jobs[p].pending == |Open(v, p)| - |Outside(v, p)|
  {
    Exchange(FlowKids(v.born, p), DoneKids(v.died, p));
  }

  /** It is the number of open flow children if and only if every completed child was placed by a flow. */
  lemma CountExactIff(v: View, p: Id)
    requires Balanced(v, p) && p in v.jobs
    ensures v.jobs[p].pending == |Open(v, p)| <==> DoneKids(v.died, p) <= FlowKids(v.born, p)
  {
    CountMeaning(v, p);
    Exchange(FlowKids(v.born, p), DoneKids(v.died, p));
  }

  // ---- Every move keeps the laws ----

  lemma AdmitKids(cfg: Config, v: View, rows: Jobs, target: Option<Id>, jobs': Jobs, p: Id)
    requires Conserved(v) && Admits(cfg, v, rows, target, jobs')
    ensures var v' := Watch(v, jobs', v.history);
            && FlowKids(v'.born, p) == FlowKids(rows, p) + FlowKids(v.born, p)
            && DoneKids(v'.died, p) == DoneKids(v.died, p)
            && FlowKids(rows, p) !! DoneKids(v.died, p)
  {
    BirthsOf(cfg, v, Admit(rows, target), jobs', v.history);
    NoDeaths(v, jobs', v.history);
    KidsOfUnion(rows, v.born, p);
    KeysConserved(v);
  }

  lemma NewRowGates(cfg: Config, v: View, rows: Jobs, target: Option<Id>, jobs': Jobs, p: Id)
    requires Booked(v) && Admits(cfg, v, rows, target, jobs') && p in rows
    ensures GatedId(Watch(v, jobs', v.history), p)
  {
    AdmitKids(cfg, v, rows, target, jobs', p);
    NoKidsBeforeBirth(v, p);
    assert SoloRow(cfg, jobs', v.history, rows[p]) || FlowRow(cfg, rows, target, jobs', p);
  }

  /** A parked job with an open flow child obeys the laws. */
  lemma ParkedOverOpen(v: View, p: Id, kid: Id)
    requires Balanced(v, p) && IsParked(v.jobs, p) && kid in Open(v, p)
    ensures GatedId(v, p)
  {
    CountMeaning(v, p);
  }

  lemma TargetGates(cfg: Config, v: View, rows: Jobs, p: Id, jobs': Jobs)
    requires Booked(v) && Admits(cfg, v, rows, Some(p), jobs')
    ensures GatedId(Watch(v, jobs', v.history), p)
  {
    AdmitKids(cfg, v, rows, Some(p), jobs', p);
    AdmitBalances(cfg, v, rows, Some(p), jobs', p) by { assert Balanced(v, p); }
    var kid :| kid in FlowKids(rows, p);
    TargetParks(cfg, v, rows, p, jobs');
    ParkedOverOpen(Watch(v, jobs', v.history), p, kid);
  }

  lemma TargetParks(cfg: Config, v: View, rows: Jobs, p: Id, jobs': Jobs)
    requires Conserved(v) && Admits(cfg, v, rows, Some(p), jobs')
    ensures IsParked(jobs', p)
  {
    assert Accounted(v, p);
    assert p !in rows;
  }

  lemma OldRowGates(cfg: Config, v: View, rows: Jobs, target: Option<Id>, jobs': Jobs, p: Id)
    requires Booked(v) && GatedId(v, p) && Admits(cfg, v, rows, target, jobs') && p !in rows && target != Some(p)
    ensures GatedId(Watch(v, jobs', v.history), p)
  {
    AdmitKids(cfg, v, rows, target, jobs', p);
    NoOtherKids(cfg, v, rows, target, jobs', p);
  }

  lemma AdmitGates(cfg: Config, v: View, rows: Jobs, target: Option<Id>, jobs': Jobs, p: Id)
    requires Booked(v) && GateLaw(v) && Admits(cfg, v, rows, target, jobs')
    ensures GatedId(Watch(v, jobs', v.history), p)
  {
    if p in rows {
      NewRowGates(cfg, v, rows, target, jobs', p);
    } else if target == Some(p) {
      TargetGates(cfg, v, rows, p, jobs');
    } else {
      assert GatedId(v, p);
      OldRowGates(cfg, v, rows, target, jobs', p);
    }
  }

  lemma SettleGates(cfg: Config, v: View, retried: set<Id>, dead: set<Id>, jobs': Jobs, history': History, p: Id)
    requires Booked(v) && GateLaw(v) && Settles(v, retried, dead, jobs', history')
    ensures GatedId(Watch(v, jobs', history'), p)
  {
    assert GatedId(v, p);
    BirthsOf(cfg, v, Settle(retried, dead), jobs', history');
    DoneKidsSettled(v, retried, dead, jobs', history', p);
    assert p in retried && p in jobs' ==> Requeued(v.jobs[p], jobs'[p]);
  }

  /** What a completion does to the books of a job. */
  lemma CompleteKids(cfg: Config, v: View, c: Id, now: int, jobs': Jobs, history': History, p: Id)
    requires Booked(v) && Completes(v, c, now, jobs', history')
    ensures var v', mine := Watch(v, jobs', history'), v.jobs[c].card.parent == Some(p);
            && FlowKids(v'.born, p) == FlowKids(v.born, p)
            && DoneKids(v'.died, p) == DoneKids(v.died, p) + (if mine then {c} else {})
            && c !in DoneKids(v.died, p)
  {
    BirthsOf(cfg, v, Complete(c, now), jobs', history');
    OneDeath(v, c, jobs', history');
    DoneKidsCompleted(v.died, c, history'[c], p);
  }

  /** The row of a parent whose child has completed. */
  lemma ParentAfter(v: View, c: Id, now: int, jobs': Jobs, history': History, p: Id)
    requires Completes(v, c, now, jobs', history') && p in jobs' && v.jobs[c].card.parent == Some(p)
    ensures p in v.jobs && jobs'[p].pending == v.jobs[p].pending - 1
    ensures IsParked(jobs', p) <==> IsParked(v.jobs, p) && jobs'[p].pending > 0
  {
  }

  lemma OtherAfter(v: View, c: Id, now: int, jobs': Jobs, history': History, p: Id)
    requires Completes(v, c, now, jobs', history') && p in jobs' && v.jobs[c].card.parent != Some(p)
    ensures p in v.jobs && jobs'[p] == v.jobs[p]
  {
  }

  lemma CompleteGates(cfg: Config, v: View, c: Id, now: int, jobs': Jobs, history': History, p: Id)
    requires Booked(v) && GateLaw(v) && Completes(v, c, now, jobs', history')
    ensures GatedId(Watch(v, jobs', history'), p)
  {
    assert GatedId(v, p);
    CompleteKids(cfg, v, c, now, jobs', history', p);
    if p in jobs' && v.jobs[c].card.parent == Some(p) {
      ParentGates(cfg, v, c, now, jobs', history', p);
    } else if p in jobs' {
      OtherAfter(v, c, now, jobs', history', p);
    }
  }

  lemma ParentGates(cfg: Config, v: View, c: Id, now: int, jobs': Jobs, history': History, p: Id)
    requires Booked(v) && GatedId(v, p) && Completes(v, c, now, jobs', history')
    requires p in jobs' && v.jobs[c].card.parent == Some(p)
    ensures GatedId(Watch(v, jobs', history'), p)
  {
    var v' := Watch(v, jobs', history');
    ParentAfter(v, c, now, jobs', history', p);
    CompleteKids(cfg, v, c, now, jobs', history', p);
    CompleteBalances(cfg, v, c, now, jobs', history', p) by { assert Balanced(v, p); }
    CountMeaning(v', p);
    if Outside(v', p) == {} {
      assert Outside(v, p) <= Outside(v', p);
      CountMeaning(v, p) by { assert Balanced(v, p); }
      assert c in FlowKids(v.born, p) && c in Open(v, p);
    }
  }

  lemma MoveGates(cfg: Config, v: View, m: Move, jobs': Jobs, history': History, p: Id)
    requires Booked(v) && GateLaw(v) && Happens(cfg, v, m, jobs', history')
    ensures GatedId(Watch(v, jobs', history'), p)
  {
    match m
    case Admit(rows, target) => AdmitGates(cfg, v, rows, target, jobs', p);
    case Settle(retried, dead) => SettleGates(cfg, v, retried, dead, jobs', history', p);
    case Complete(c, now) => CompleteGates(cfg, v, c, now, jobs', history', p);
    case _ =>
      assert GatedId(v, p);
      BirthsOf(cfg, v, m, jobs', history');
      NoDeaths(v, jobs', history');
  }

  lemma MoveKeepsGate(cfg: Config, v: View, m: Move, jobs': Jobs, history': History)
    requires Booked(v) && GateLaw(v) && Happens(cfg, v, m, jobs', history')
    ensures GateLaw(Watch(v, jobs', history'))
  {
    forall p: Id ensures GatedId(Watch(v, jobs', history'), p) { MoveGates(cfg, v, m, jobs', history', p); }
  }

  /** New rows of a tree hang under rows that are live. */
  ghost predicate Adopted(v: View, jobs': Jobs) {
    forall c: Id | c in jobs' && c !in v.born && jobs'[c].treeId.Some? && jobs'[c].card.parent.Some? ::
      jobs'[c].card.parent.value in jobs'
  }

  lemma AdmitAdopts(cfg: Config, v: View, rows: Jobs, target: Option<Id>, jobs': Jobs)
    requires Conserved(v) && Admits(cfg, v, rows, target, jobs')
    ensures Adopted(v, jobs')
  {
    KeysConserved(v);
    forall c: Id | c in jobs' && c !in v.born && jobs'[c].treeId.Some? && jobs'[c].card.parent.Some?
      ensures jobs'[c].card.parent.value in jobs' {
      assert c in rows && (SoloRow(cfg, jobs', v.history, rows[c]) || FlowRow(cfg, rows, target, jobs', c));
    }
  }

  // ---- Links only from flows ----

  /** In this step, rows outside a tree name no parent that is live. */
  ghost predicate OnlyFlowLinks(v: View, jobs': Jobs) {
    forall c: Id | c in jobs' && c !in v.born && jobs'[c].treeId.None? && jobs'[c].card.parent.Some? ::
      jobs'[c].card.parent.value !in jobs'
  }

  /** A child from outside a tree has no live parent, and only flow rows can fail their parent. */
  predicate Detached(v: View, c: Id) {
    c in v.born && v.born[c].treeId.None? ==>
      !v.born[c].failParent && (v.born[c].card.parent.Some? ==> v.born[c].card.parent.value !in v.jobs)
  }

  ghost predicate AllDetached(v: View) {
    forall c: Id :: Detached(v, c)
  }

  lemma MoveDetaches(cfg: Config, v: View, m: Move, jobs': Jobs, history': History, c: Id)
    requires Booked(v) && Detached(v, c) && Happens(cfg, v, m, jobs', history') && OnlyFlowLinks(v, jobs')
    ensures Detached(Watch(v, jobs', history'), c)
  {
    BirthsOf(cfg, v, m, jobs', history');
    assert Rooted(v, c);
    if c in v.born && v.born[c].card.parent.Some? {
      MoveLives(cfg, v, m, jobs', history', v.born[c].card.parent.value) by {
        assert Accounted(v, v.born[c].card.parent.value);
      }
    } else if m.Admit? && c in m.rows {
      assert SoloRow(cfg, jobs', v.history, m.rows[c]) || FlowRow(cfg, m.rows, m.target, jobs', c);
    }
  }

  lemma MoveKeepsDetached(cfg: Config, v: View, m: Move, jobs': Jobs, history': History)
    requires Booked(v) && AllDetached(v) && Happens(cfg, v, m, jobs', history') && OnlyFlowLinks(v, jobs')
    ensures AllDetached(Watch(v, jobs', history'))
  {
    forall c: Id ensures Detached(Watch(v, jobs', history'), c) {
      assert Detached(v, c);
      MoveDetaches(cfg, v, m, jobs', history', c);
    }
  }

  /** Then no live job has an outside child that completed. */
  lemma NothingOutside(v: View, p: Id)
    requires Booked(v) && AllDetached(v) && p in v.jobs
    ensures Outside(v, p) == {}
  {
    forall c: Id ensures c !in Outside(v, p) {
      assert Accounted(v, c) && Detached(v, c);
    }
  }

  // ---- The gate of one job ----

  /** A live job is parked exactly while a flow child of it is open. */
  predicate Right(v: View, p: Id) {
    p in v.jobs ==> (v.jobs[p].state.WaitingChildren? <==> Open(v, p) != {})
  }

  /** A completed job has no open flow child. */
  ghost predicate Shut(v: View, p: Id) {
    IsCompleted(v, p) ==> Open(v, p) == {}
  }

  /** What is left open under `p`, and what is outside, once its child `c` has completed. */
  function OpenAfter(v: View, c: Id, p: Id): set<Id> {
    Open(v, p) - {c}
  }

  function OutsideAfter(v: View, c: Id, p: Id): set<Id> {
    Outside(v, p) + ({c} - FlowKids(v.born, p))
  }

  /** Completing the held job `c` opens the gate of its parked parent `p` although a flow child of `p` stays open. */
  predicate OpensEarly(v: View, c: Id, p: Id) {
    && c in v.jobs && v.jobs[c].card.parent == Some(p) && IsParked(v.jobs, p)
    && 0 < |OpenAfter(v, c, p)| <= |OutsideAfter(v, c, p)|
  }

  /** The books of a parent whose child has completed. */
  lemma BooksAfter(cfg: Config, v: View, c: Id, now: int, jobs': Jobs, history': History, p: Id)
    requires Booked(v) && Completes(v, c, now, jobs', history') && v.jobs[c].card.parent == Some(p)
    ensures Open(Watch(v, jobs', history'), p) == OpenAfter(v, c, p)
    ensures Outside(Watch(v, jobs', history'), p) == OutsideAfter(v, c, p)
  {
    CompleteKids(cfg, v, c, now, jobs', history', p);
  }

  /** A completion opens the gate of a parked parent exactly when outside completions make up for what is open. */
  lemma OpensExactly(cfg: Config, v: View, c: Id, now: int, jobs': Jobs, history': History, p: Id)
    requires Booked(v) && Completes(v, c, now, jobs', history')
    requires v.jobs[c].card.parent == Some(p) && IsParked(v.jobs, p)
    ensures p in jobs'
    ensures !IsParked(jobs', p) <==> |OpenAfter(v, c, p)| <= |OutsideAfter(v, c, p)|
  {
    var v' := Watch(v, jobs', history');
    BooksAfter(cfg, v, c, now, jobs', history', p);
    CompleteBalances(cfg, v, c, now, jobs', history', p) by { assert Balanced(v, p); }
    assert p in v'.jobs;
    CountMeaning(v', p);
    ParentAfter(v, c, now, jobs', history', p);
  }

  /** A job none of whose outside children completed has a right gate. */
  lemma FittingIsRight(v: View, p: Id)
    requires Booked(v) && GatedId(v, p) && Outside(v, p) == {}
    ensures Right(v, p)
  {
    if p in v.jobs { CountMeaning(v, p); }
  }

  /** A parent of an open flow child is parked, unless outside children of it completed. */
  lemma UnfinishedParks(v: View, c: Id, p: Id)
    requires Booked(v) && GateLaw(v) && Outside(v, p) == {} && p in v.jobs
    requires c in FlowKids(v.born, p) && !IsCompleted(v, c)
    ensures v.jobs[p].state.WaitingChildren?
  {
    assert GatedId(v, p);
    FittingIsRight(v, p);
    assert c in Open(v, p);
  }

  /** A path of flow links downward. */
  ghost predicate Descends(v: View, path: seq<Id>) {
    |path| > 0 && forall i | 0 <= i < |path| - 1 :: path[i + 1] in FlowKids(v.born, path[i])
  }

  /** Every job placed beneath a claimed or completed job is completed, if the gates on the way are right. */
  lemma {:induction false} NothingBelowIsOpen(v: View, path: seq<Id>)
    requires Descends(v, path) && |path| >= 2
    requires Held(v.jobs, path[0]) || IsCompleted(v, path[0])
    requires forall i | 0 <= i < |path| - 1 :: Right(v, path[i]) && Shut(v, path[i])
    ensures IsCompleted(v, path[|path| - 1])
  {
    var top, next := path[0], path[1];
    assert Right(v, top) && Shut(v, top) && next in FlowKids(v.born, top);
    assert next !in Open(v, top);
    if |path| > 2 { NothingBelowIsOpen(v, path[1..]); }
  }
}
