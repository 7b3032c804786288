/**
  Rows reach history only from the live table, so what retention has pruned
  does not come back.
 */
module HistoryRuns {
  import opened Tables
  import opened Lifecycle
  import opened LifecycleLaws
  import opened World
  import opened StepMoves
  import Timers = Scheduler

  /** A move archives only live jobs. */
  lemma MoveHistory(cfg: Config, v: View, m: Move, jobs': Jobs, history': History)
    requires Happens(cfg, v, m, jobs', history')
    ensures history'.Keys <= v.history.Keys + v.jobs.Keys
  {
  }

  lemma OnlyFromLive(cfg: Config, v: View, t: Store, claims: bool, admits: bool)
    requires Moves(cfg, v, t, claims, admits)
    ensures t.history.Keys <= v.history.Keys + v.jobs.Keys
  {
    if t.history != v.history {
      var m: Move :| Happens(cfg, v, m, t.jobs, t.history) && (m.Claim? ==> claims) && (m.Admit? ==> admits);
      MoveHistory(cfg, v, m, t.jobs, t.history);
    }
  }

  /** Ended and no longer in history. */
  predicate Pruned(w: World, id: Id) {
    id in w.view.died && id !in w.db.history
  }

  predicate KeepsPruned(w: World, w': World, id: Id) {
    Pruned(w, id) ==> Pruned(w', id)
  }

  lemma MovedKeepsPruned(cfg: Config, w: World, op: Op, w': World, id: Id)
    requires Moved(cfg, w, op, w')
    ensures KeepsPruned(w, w', id)
  {
    OnlyFromLive(cfg, w.view, w'.db, op.Poll?, Inserts(op));
    assert Accounted(w.view, id);
  }

  lemma RunKeepsPruned(cfg: Config, next: Timers.Cron, ws: seq<World>, ops: seq<Op>, id: Id)
    requires Run(cfg, next, ws, ops)
    ensures forall k | 0 <= k < |ws| - 1 :: KeepsPruned(ws[k], ws[k + 1], id)
  {
    forall k | 0 <= k < |ws| - 1 ensures KeepsPruned(ws[k], ws[k + 1], id) {
      RunMoves(cfg, next, ws, ops, k);
      MovedKeepsPruned(cfg, ws[k], ops[k], ws[k + 1], id);
    }
  }

  lemma {:induction false} StaysPruned(ws: seq<World>, i: nat, n: nat, id: Id)
    requires forall k | 0 <= k < |ws| - 1 :: KeepsPruned(ws[k], ws[k + 1], id)
    requires i <= n < |ws| && Pruned(ws[i], id)
    ensures Pruned(ws[n], id)
  {
    if i < n {
      StaysPruned(ws, i, n - 1, id);
      assert KeepsPruned(ws[n - 1], ws[n - 1 + 1], id);
    }
  }

  /** What was pruned in one world of a run is pruned in every later one. */
  lemma PrunedForGood(cfg: Config, next: Timers.Cron, ws: seq<World>, ops: seq<Op>, i: nat, n: nat, id: Id)
    requires Run(cfg, next, ws, ops) && i <= n < |ws| && Pruned(ws[i], id)
    ensures Pruned(ws[n], id)
  {
    RunKeepsPruned(cfg, next, ws, ops, id);
    StaysPruned(ws, i, n, id);
  }
}
