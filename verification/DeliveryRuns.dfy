/**
  Delivery over whole runs: a job is handed out with what it was admitted with
  and not before it is due, a claim is held only by the worker it was handed to,
  and a finish takes effect exactly if the claim is still held.
 */
module DeliveryRuns {
  import opened Tables
  import opened Lifecycle
  import opened LifecycleLaws
  import opened Laws
  import opened CallLaws
  import opened World
  import opened StepMoves
  import opened ClaimedRows
  import opened FinishedRows
  import Dispatch
  import Finish
  import Timers = Scheduler

  // ---- What a poll step hands out ----

  /** The answer to the poll of step `i`. */
  function Answer(cfg: Config, w: World, op: Op): Reply<Option<Dispatch.Grant>>
    requires op.Poll?
  {
    Dispatch.Poll(cfg, w.db, op.poll, op.now, op.now2).1
  }

  predicate HandsOut(cfg: Config, w: World, op: Op, g: Dispatch.Grant) {
    op.Poll? && Answer(cfg, w, op) == Ok(Some(g))
  }

  lemma FollowsPoll(cfg: Config, next: Timers.Cron, w: World, op: Op, w': World)
    requires Follows(cfg, next, w, op, w') && op.Poll?
    ensures w'.db == Dispatch.Poll(cfg, w.db, op.poll, op.now, op.now2).0
    ensures w'.books.clock == op.now
  {
  }

  // ---- A job that was never claimed is due when it was admitted to be ----

  /** A live job not claimed yet still has the due time it was admitted with. */
  predicate Punctual(v: View, id: Id) {
    id in v.jobs && id in v.born && v.jobs[id].attempts == 0 ==> v.jobs[id].availableAt == v.born[id].availableAt
  }

  /** While it has not been claimed, the due time of a job stays. */
  predicate KeepsDue(v: View, jobs': Jobs, id: Id) {
    id in v.jobs && id in jobs' && jobs'[id].attempts == 0 ==>
      v.jobs[id].attempts == 0 && jobs'[id].availableAt == v.jobs[id].availableAt
  }

  lemma AdmitKeepsDue(cfg: Config, v: View, rows: Jobs, target: Option<Id>, jobs': Jobs, id: Id)
    requires Accounted(v, id) && Admits(cfg, v, rows, target, jobs')
    ensures KeepsDue(v, jobs', id)
  {
  }

  lemma SettleKeepsDue(v: View, retried: set<Id>, dead: set<Id>, jobs': Jobs, history': History, id: Id)
    requires Accounted(v, id) && Settles(v, retried, dead, jobs', history')
    ensures KeepsDue(v, jobs', id)
  {
    if id in retried && id in jobs' { assert Requeued(v.jobs[id], jobs'[id]); }
  }

  lemma MoveKeepsDue(cfg: Config, v: View, m: Move, jobs': Jobs, history': History, id: Id)
    requires Accounted(v, id) && Happens(cfg, v, m, jobs', history')
    ensures KeepsDue(v, jobs', id)
  {
    match m
    case Admit(rows, target) => AdmitKeepsDue(cfg, v, rows, target, jobs', id);
    case Settle(retried, dead) => SettleKeepsDue(v, retried, dead, jobs', history', id);
    case _ =>
  }

  lemma MovesKeepDue(cfg: Config, v: View, t: Store, claims: bool, admits: bool, id: Id)
    requires Accounted(v, id) && Moves(cfg, v, t, claims, admits)
    ensures KeepsDue(v, t.jobs, id)
  {
    if !Grows(v.jobs, t.jobs) {
      var m: Move :| Happens(cfg, v, m, t.jobs, t.history) && (m.Claim? ==> claims) && (m.Admit? ==> admits);
      MoveKeepsDue(cfg, v, m, t.jobs, t.history, id);
    }
  }

  predicate KeepsPunctual(w: World, w': World, id: Id) {
    Punctual(w.view, id) ==> Punctual(w'.view, id)
  }

  lemma MovedKeepsPunctual(cfg: Config, w: World, op: Op, w': World, id: Id)
    requires Moved(cfg, w, op, w')
    ensures KeepsPunctual(w, w', id)
  {
    assert Accounted(w.view, id) && Accounted(w'.view, id);
    MovesKeepDue(cfg, w.view, w'.db, op.Poll?, Inserts(op), id);
  }

  lemma {:induction false} AlwaysPunctual(ws: seq<World>, n: nat, id: Id)
    requires n < |ws| && ws[0] == GENESIS && forall k | 0 <= k < |ws| - 1 :: KeepsPunctual(ws[k], ws[k + 1], id)
    ensures Punctual(ws[n].view, id)
  {
    if n > 0 {
      AlwaysPunctual(ws, n - 1, id);
      assert KeepsPunctual(ws[n - 1], ws[n - 1 + 1], id);
    }
  }

  lemma RunPunctual(cfg: Config, next: Timers.Cron, ws: seq<World>, ops: seq<Op>, n: nat, id: Id)
    requires Run(cfg, next, ws, ops) && n < |ws|
    ensures Punctual(ws[n].view, id)
  {
    forall k | 0 <= k < |ws| - 1 ensures KeepsPunctual(ws[k], ws[k + 1], id) {
      RunMoves(cfg, next, ws, ops, k);
      MovedKeepsPunctual(cfg, ws[k], ops[k], ws[k + 1], id);
    }
    AlwaysPunctual(ws, n, id);
  }

  // ---- Delivered as admitted, and not too early ----

  /** The grant carries what the job was admitted with. */
  predicate Carries(g: Dispatch.Grant, card: Card) {
    && g.name == card.name && g.payload == card.payload
    && g.metadata.traceId == card.trace && g.metadata.depth == card.depth
    && g.metadata.parentId == if card.parent.Some? then card.parent.value else ""
  }

  /**
    Whatever a poll hands out was admitted, is handed out with the name, payload and place it was admitted
    with, and for the first time not before it was admitted to be due.
   */
  lemma DeliveredAsAdmitted(cfg: Config, next: Timers.Cron, ws: seq<World>, ops: seq<Op>, n: nat, g: Dispatch.Grant)
    requires Run(cfg, next, ws, ops) && n < |ops| && HandsOut(cfg, ws[n], ops[n], g)
    ensures g.id in ws[n].view.born && Carries(g, ws[n].view.born[g.id].card)
    ensures 1 <= g.attempts <= ws[n].view.born[g.id].card.maxAttempts
    ensures g.attempts == 1 ==> ws[n].view.born[g.id].availableAt <= ops[n].now
  {
    RunIsSound(cfg, next, ws, ops, n, false, false);
    RunPunctual(cfg, next, ws, ops, n, g.id);
    assert Accounted(ws[n].view, g.id);
    PollExactly(cfg, ws[n].db, ops[n].poll, ops[n].now, ops[n].now2);
  }

  // ---- With a clock that never goes back, no claim is too early ----

  /** A job that was claimed was due by now. */
  predicate Overdue(w: World, id: Id) {
    id in w.view.jobs && id in w.view.born && w.view.jobs[id].attempts > 0 ==>
      w.view.born[id].availableAt <= w.books.clock
  }

  predicate KeepsOverdue(w: World, w': World, id: Id) {
    Overdue(w, id) && Punctual(w.view, id) ==> Overdue(w', id)
  }

  /** A job has the holder and the number of attempts it had before. */
  predicate SameClaim(v: View, jobs': Jobs, id: Id) {
    && (id in jobs' && jobs'[id].attempts > 0 ==> id in v.jobs && jobs'[id].attempts == v.jobs[id].attempts)
    && (Held(jobs', id) ==> Held(v.jobs, id) && jobs'[id].worker == v.jobs[id].worker)
  }

  lemma AdmitClaimsNone(cfg: Config, v: View, rows: Jobs, target: Option<Id>, jobs': Jobs, id: Id)
    requires Admits(cfg, v, rows, target, jobs')
    ensures SameClaim(v, jobs', id)
  {
  }

  lemma SettleClaimsNone(v: View, retried: set<Id>, dead: set<Id>, jobs': Jobs, history': History, id: Id)
    requires Settles(v, retried, dead, jobs', history')
    ensures SameClaim(v, jobs', id)
  {
    if id in retried && id in jobs' { assert Requeued(v.jobs[id], jobs'[id]); }
  }

  lemma MoveClaimsNone(cfg: Config, v: View, m: Move, jobs': Jobs, history': History, id: Id)
    requires Happens(cfg, v, m, jobs', history') && !m.Claim?
    ensures SameClaim(v, jobs', id)
  {
    match m
    case Admit(rows, target) => AdmitClaimsNone(cfg, v, rows, target, jobs', id);
    case Settle(retried, dead) => SettleClaimsNone(v, retried, dead, jobs', history', id);
    case _ =>
  }

  lemma MovesClaimNone(cfg: Config, v: View, t: Store, admits: bool, id: Id)
    requires Moves(cfg, v, t, false, admits)
    ensures SameClaim(v, t.jobs, id)
  {
    if !Grows(v.jobs, t.jobs) {
      var m: Move :| Happens(cfg, v, m, t.jobs, t.history) && !m.Claim? && (m.Admit? ==> admits);
      MoveClaimsNone(cfg, v, m, t.jobs, t.history, id);
    }
  }

  /** What a poll may change about the claim of one job. */
  predicate PollClaim(cfg: Config, w: World, op: Op, jobs': Jobs, id: Id)
    requires op.Poll?
  {
    || SameClaim(w.view, jobs', id)
    || (var reply := Answer(cfg, w, op);
        && reply.Ok? && reply.value.Some? && reply.value.value.id == id && id in w.view.jobs && id in jobs'
        && reply.value.value.attempts == jobs'[id].attempts && jobs'[id].worker == Some(op.poll.worker)
        && w.view.jobs[id].availableAt <= op.now)
  }

  lemma PollClaims(cfg: Config, w: World, op: Op, id: Id)
    requires op.Poll? && Shows(w.view, w.db)
    ensures PollClaim(cfg, w, op, Dispatch.Poll(cfg, w.db, op.poll, op.now, op.now2).0.jobs, id)
  {
    PollExactly(cfg, w.db, op.poll, op.now, op.now2);
    var (t, reply) := Dispatch.Poll(cfg, w.db, op.poll, op.now, op.now2);
    if !(reply.Ok? && reply.value.Some?) { assert t == w.db; }
  }

  /** How a step of a run treats the claim of one job, and that it is dated. */
  ghost predicate Claimed(cfg: Config, w: World, op: Op, w': World, id: Id) {
    && (if op.Poll? then PollClaim(cfg, w, op, w'.db.jobs, id) else SameClaim(w.view, w'.db.jobs, id))
    && w'.books.clock == op.now && w'.view == Watch(w.view, w'.db.jobs, w'.db.history)
    && Accounted(w.view, id) && Accounted(w'.view, id) && Shows(w.view, w.db)
  }

  lemma FollowsClock(cfg: Config, next: Timers.Cron, w: World, op: Op, w': World)
    requires Follows(cfg, next, w, op, w')
    ensures w'.books.clock == op.now
  {
    NoteClock(cfg, next, w.view, w.db, w.books, op);
  }

  lemma RunClaims(cfg: Config, next: Timers.Cron, ws: seq<World>, ops: seq<Op>, i: nat, id: Id)
    requires Run(cfg, next, ws, ops) && i < |ops|
    ensures Claimed(cfg, ws[i], ops[i], ws[i + 1], id)
  {
    RunMoves(cfg, next, ws, ops, i);
    FollowsClock(cfg, next, ws[i], ops[i], ws[i + 1]);
    if ops[i].Poll? {
      FollowsPoll(cfg, next, ws[i], ops[i], ws[i + 1]);
      PollClaims(cfg, ws[i], ops[i], id);
    } else {
      MovesClaimNone(cfg, ws[i].view, ws[i + 1].db, Inserts(ops[i]), id);
    }
  }

  lemma ClaimedKeepsOverdue(cfg: Config, w: World, op: Op, w': World, id: Id)
    requires Claimed(cfg, w, op, w', id) && w.books.clock <= op.now
    ensures KeepsOverdue(w, w', id)
  {
  }

  lemma {:induction false} AlwaysOverdue(ws: seq<World>, n: nat, id: Id)
    requires n < |ws| && ws[0] == GENESIS
    requires forall k | 0 <= k < |ws| - 1 :: KeepsOverdue(ws[k], ws[k + 1], id) && Punctual(ws[k].view, id)
    ensures Overdue(ws[n], id)
  {
    if n > 0 {
      AlwaysOverdue(ws, n - 1, id);
      assert KeepsOverdue(ws[n - 1], ws[n - 1 + 1], id);
    }
  }

  lemma RunOverdue(cfg: Config, next: Timers.Cron, ws: seq<World>, ops: seq<Op>, n: nat, id: Id)
    requires Run(cfg, next, ws, ops) && Timely(ws, ops) && n < |ws|
    ensures Overdue(ws[n], id)
  {
    forall k | 0 <= k < |ws| - 1 ensures KeepsOverdue(ws[k], ws[k + 1], id) && Punctual(ws[k].view, id) {
      RunPunctual(cfg, next, ws, ops, k, id);
      RunClaims(cfg, next, ws, ops, k, id);
      ClaimedKeepsOverdue(cfg, ws[k], ops[k], ws[k + 1], id);
    }
    AlwaysOverdue(ws, n, id);
  }

  /** While the clock never goes back, no poll hands a job out before it was admitted to be due, retries included. */
  lemma NeverTooEarly(cfg: Config, next: Timers.Cron, ws: seq<World>, ops: seq<Op>, n: nat, g: Dispatch.Grant)
    requires Run(cfg, next, ws, ops) && Timely(ws, ops) && n < |ops| && HandsOut(cfg, ws[n], ops[n], g)
    ensures g.id in ws[n].view.born && ws[n].view.born[g.id].availableAt <= ops[n].now
  {
    DeliveredAsAdmitted(cfg, next, ws, ops, n, g);
    RunOverdue(cfg, next, ws, ops, n, g.id);
    PollExactly(cfg, ws[n].db, ops[n].poll, ops[n].now, ops[n].now2);
    RunIsSound(cfg, next, ws, ops, n, false, false);
  }

  // ---- Only the worker that was handed a claim holds it ----

  /** Some step before `n` handed this attempt of the job to this worker. */
  ghost predicate WasHanded(cfg: Config, ws: seq<World>, ops: seq<Op>, n: nat, id: Id, worker: string, attempts: nat)
    requires n <= |ops| && n < |ws|
  {
    exists k, g | 0 <= k < n ::
      HandsOut(cfg, ws[k], ops[k], g) && g.id == id && g.attempts == attempts && ops[k].poll.worker == worker
  }

  lemma {:induction false} HandedBefore(cfg: Config, ws: seq<World>, ops: seq<Op>, n: nat, id: Id)
    requires n < |ws| == |ops| + 1 && ws[0] == GENESIS && Held(ws[n].view.jobs, id)
    requires forall k | 0 <= k < |ops| :: Claimed(cfg, ws[k], ops[k], ws[k + 1], id)
    ensures var j := ws[n].view.jobs[id];
            j.worker.Some? && WasHanded(cfg, ws, ops, n, id, j.worker.value, j.attempts)
  {
    if n > 0 {
      assert Claimed(cfg, ws[n - 1], ops[n - 1], ws[n - 1 + 1], id);
      HandedOrHeld(cfg, ws[n - 1], ops[n - 1], ws[n], id);
      if SameClaim(ws[n - 1].view, ws[n].db.jobs, id) {
        HandedBefore(cfg, ws, ops, n - 1, id);
        HandedStays(cfg, ws, ops, n - 1, n, id, ws[n].view.jobs[id].worker.value, ws[n].view.jobs[id].attempts);
      } else {
        var g := Answer(cfg, ws[n - 1], ops[n - 1]).value.value;
        assert HandsOut(cfg, ws[n - 1], ops[n - 1], g);
      }
    }
  }

  /** A claim is held only by the worker that some poll handed this very attempt to. */
  lemma HeldWasHanded(cfg: Config, next: Timers.Cron, ws: seq<World>, ops: seq<Op>, n: nat, id: Id)
    requires Run(cfg, next, ws, ops) && n < |ws| && Held(ws[n].view.jobs, id)
    ensures var j := ws[n].view.jobs[id];
            j.worker.Some? && WasHanded(cfg, ws, ops, n, id, j.worker.value, j.attempts)
  {
    forall k | 0 <= k < |ops| ensures Claimed(cfg, ws[k], ops[k], ws[k + 1], id) {
      RunClaims(cfg, next, ws, ops, k, id);
    }
    HandedBefore(cfg, ws, ops, n, id);
  }

  lemma HandedOrHeld(cfg: Config, w: World, op: Op, w': World, id: Id)
    requires Claimed(cfg, w, op, w', id) && Held(w'.view.jobs, id)
    ensures w'.view.jobs == w'.db.jobs && w'.view.jobs[id].worker.Some?
    ensures SameClaim(w.view, w'.db.jobs, id) ==>
              && Held(w.view.jobs, id) && w.view.jobs[id].worker == w'.view.jobs[id].worker
              && w.view.jobs[id].attempts == w'.view.jobs[id].attempts
    ensures !SameClaim(w.view, w'.db.jobs, id) ==>
              && op.Poll? && Answer(cfg, w, op).Ok? && Answer(cfg, w, op).value.Some?
              && var g := Answer(cfg, w, op).value.value;
                 g.id == id && g.attempts == w'.view.jobs[id].attempts
                 && w'.view.jobs[id].worker == Some(op.poll.worker)
  {
  }

  lemma HandedStays(cfg: Config, ws: seq<World>, ops: seq<Op>, m: nat, n: nat, id: Id, worker: string, attempts: nat)
    requires m <= n <= |ops| && n < |ws| && WasHanded(cfg, ws, ops, m, id, worker, attempts)
    ensures WasHanded(cfg, ws, ops, n, id, worker, attempts)
  {
  }

  // ---- What a finish step does ----

  lemma FollowsFinish(cfg: Config, next: Timers.Cron, w: World, op: Op, w': World)
    requires Follows(cfg, next, w, op, w') && op.FinishJob?
    ensures w'.db == Finish.FinishJob(w.db, op.finish, op.now, op.rand).0
  {
  }

  /**
    In every run, a completion or failure takes effect exactly if its sender holds the claim it names under a
    lease that has not run out, and then that claim was handed to this sender by an earlier poll.
   */
  lemma FinishTakesEffect(cfg: Config, next: Timers.Cron, ws: seq<World>, ops: seq<Op>, i: nat)
    requires Run(cfg, next, ws, ops) && i < |ops| && ops[i].FinishJob?
    ensures ws[i + 1].db != ws[i].db <==> Honoured(ws[i].db, ops[i].finish, ops[i].now)
    ensures Honoured(ws[i].db, ops[i].finish, ops[i].now) ==>
              var r := ops[i].finish;
              WasHanded(cfg, ws, ops, i, r.id, r.worker, if r.attempt == 0 then 1 else r.attempt)
  {
    FollowsFinish(cfg, next, ws[i], ops[i], ws[i + 1]);
    FinishExactly(ws[i].db, ops[i].finish, ops[i].now, ops[i].rand);
    if Honoured(ws[i].db, ops[i].finish, ops[i].now) {
      RunIsSound(cfg, next, ws, ops, i, false, false);
      HeldWasHanded(cfg, next, ws, ops, i, ops[i].finish.id);
    }
  }
}
