/**
  A scheduler tick is a stretch of a run: every due scheduler is one fire step,
  selected with the tick's clock reading and made with a reading of its own.
 */
module Ticks {
  import opened Tables
  import opened Lifecycle
  import opened LifecycleLaws
  import opened World
  import Books
  import Timers = Scheduler

  function FireOp(id: Id, shot: Timers.Shot, at: int): Op {
    Fire(id, shot.job, shot.trace, at, shot.now)
  }

  /** The job ids a tick is handed were never used. */
  ghost predicate FreshShots(v: View, shots: seq<Timers.Shot>) {
    && (forall i | 0 <= i < |shots| :: shots[i].job !in v.born)
    && forall i, j | 0 <= i < j < |shots| :: shots[i].job != shots[j].job
  }

  lemma OneBirth(v: View, jobs: Jobs, jobs': Jobs, history': History, job: Id)
    requires jobs.Keys <= v.born.Keys && jobs'.Keys <= jobs.Keys + {job}
    ensures jobs'.Keys <= Watch(v, jobs', history').born.Keys <= v.born.Keys + {job}
  {
  }

  function FiredStore(cfg: Config, next: Timers.Cron, s: Store, id: Id, shot: Timers.Shot): Store
    requires id in s.schedulers
  {
    var fired := Timers.Fire(cfg, next, s, id, s.schedulers[id], shot.job, shot.trace, shot.now);
    if fired.Some? then fired.value else s
  }

  lemma FiredJobs(cfg: Config, next: Timers.Cron, s: Store, id: Id, shot: Timers.Shot)
    requires id in s.schedulers
    ensures FiredStore(cfg, next, s, id, shot).jobs.Keys <= s.jobs.Keys + {shot.job}
  {
    if Timers.Fire(cfg, next, s, id, s.schedulers[id], shot.job, shot.trace, shot.now).Some? {
      Timers.FireEffect(cfg, next, s, id, s.schedulers[id], shot.job, shot.trace, shot.now);
    }
  }

  lemma FireFollows(cfg: Config, next: Timers.Cron, w: World, id: Id, shot: Timers.Shot, at: int, w': World)
    requires Timers.Due(w.db.schedulers, id, at) && shot.job !in w.view.born
    requires w'.db == FiredStore(cfg, next, w.db, id, shot)
    requires w'.view == Watch(w.view, w'.db.jobs, w'.db.history)
    requires w'.books == Books.AfterFire(cfg, next, w.db, w.books, id, shot.job, shot.trace, at, shot.now)
    ensures Follows(cfg, next, w, FireOp(id, shot, at), w')
  {
  }

  /** A fire step, what it does to the database and which job it may add. */
  lemma FireStep(cfg: Config, next: Timers.Cron, w: World, id: Id, shot: Timers.Shot, at: int) returns (w': World)
    requires Timers.Due(w.db.schedulers, id, at) && shot.job !in w.view.born && w.db.jobs.Keys <= w.view.born.Keys
    ensures Follows(cfg, next, w, FireOp(id, shot, at), w')
    ensures w'.db == FiredStore(cfg, next, w.db, id, shot)
    ensures w'.books == Books.AfterFire(cfg, next, w.db, w.books, id, shot.job, shot.trace, at, shot.now)
    ensures w'.db.jobs.Keys <= w'.view.born.Keys <= w.view.born.Keys + {shot.job}
  {
    var t := FiredStore(cfg, next, w.db, id, shot);
    w' := World(t, Watch(w.view, t.jobs, t.history),
                Books.AfterFire(cfg, next, w.db, w.books, id, shot.job, shot.trace, at, shot.now));
    FireFollows(cfg, next, w, id, shot, at, w');
    FiredJobs(cfg, next, w.db, id, shot);
    OneBirth(w.view, w.db.jobs, t.jobs, t.history, shot.job);
  }

  function ShotJobs(shots: seq<Timers.Shot>): set<Id> {
    set i | 0 <= i < |shots| :: shots[i].job
  }

  /** `ws', ops'` is `ws, ops` followed by the first `m` fires of the tick. */
  ghost predicate Ticked(cfg: Config, next: Timers.Cron, ws: seq<World>, ops: seq<Op>, at: int, due: seq<Id>,
                         shots: seq<Timers.Shot>, m: nat, ws': seq<World>, ops': seq<Op>)
    requires |ws| == |ops| + 1 && |shots| == |due| && m <= |due|
    requires forall k | 0 <= k < |due| :: due[k] in ws[|ops|].db.schedulers
  {
    && ws <= ws' && ops <= ops' && |ops'| == |ops| + m && |ws'| == |ops'| + 1
    && (forall i | 0 <= i < m :: ops'[|ops| + i] == FireOp(due[i], shots[i], at))
    && (forall i | 0 <= i <= m :: ws'[|ops| + i].db == Timers.StoreAt(cfg, next, ws[|ops|].db, due, shots, i))
    && ws'[|ops| + m].view.born.Keys <= ws[|ops|].view.born.Keys + ShotJobs(shots[..m])
  }

  lemma TickedOnce(cfg: Config, next: Timers.Cron, ws: seq<World>, ops: seq<Op>, at: int, due: seq<Id>,
                   shots: seq<Timers.Shot>, m: nat, ws': seq<World>, ops': seq<Op>, w: World)
    requires |ws| == |ops| + 1 && |shots| == |due| && m < |due|
    requires forall k | 0 <= k < |due| :: due[k] in ws[|ops|].db.schedulers
    requires Ticked(cfg, next, ws, ops, at, due, shots, m, ws', ops')
    requires w.db == Timers.StoreAt(cfg, next, ws[|ops|].db, due, shots, m + 1)
    requires w.view.born.Keys <= ws[|ops|].view.born.Keys + ShotJobs(shots[..m + 1])
    ensures Ticked(cfg, next, ws, ops, at, due, shots, m + 1, ws' + [w], ops' + [FireOp(due[m], shots[m], at)])
  {
    var ws2, ops2 := ws' + [w], ops' + [FireOp(due[m], shots[m], at)];
    forall i | 0 <= i <= m + 1
      ensures ws2[|ops| + i].db == Timers.StoreAt(cfg, next, ws[|ops|].db, due, shots, i) {
      if i <= m { assert ws2[|ops| + i] == ws'[|ops| + i]; }
    }
    forall i | 0 <= i < m + 1 ensures ops2[|ops| + i] == FireOp(due[i], shots[i], at) {
      if i < m { assert ops2[|ops| + i] == ops'[|ops| + i]; }
    }
  }

  /** One more fire: the selected row is still there and still due, and its job id is still fresh. */
  lemma NextFire(cfg: Config, next: Timers.Cron, ws: seq<World>, ops: seq<Op>, at: int, limit: nat,
                 shots: seq<Timers.Shot>, m: nat, w: World)
    returns (w': World)
    requires |ws| == |ops| + 1 && FreshShots(ws[|ops|].view, shots)
    requires var due := Timers.DueBatch(ws[|ops|].db.schedulers, at, limit); |shots| == |due| && m < |due|
    requires var due := Timers.DueBatch(ws[|ops|].db.schedulers, at, limit);
             (forall k | 0 <= k < |due| :: due[k] in ws[|ops|].db.schedulers)
             && w.db == Timers.StoreAt(cfg, next, ws[|ops|].db, due, shots, m)
    requires w.db.jobs.Keys <= w.view.born.Keys <= ws[|ops|].view.born.Keys + ShotJobs(shots[..m])
    ensures var due := Timers.DueBatch(ws[|ops|].db.schedulers, at, limit);
            && Follows(cfg, next, w, FireOp(due[m], shots[m], at), w')
            && w'.db == Timers.StoreAt(cfg, next, ws[|ops|].db, due, shots, m + 1)
            && w'.view.born.Keys <= ws[|ops|].view.born.Keys + ShotJobs(shots[..m + 1])
  {
    var due := Timers.DueBatch(ws[|ops|].db.schedulers, at, limit);
    Timers.TickTurn(cfg, next, ws[|ops|].db, at, limit, shots, m);
    JobsGrow(shots, m);
    w' := FireStep(cfg, next, w, due[m], shots[m], at);
  }

  lemma JobsGrow(shots: seq<Timers.Shot>, m: nat)
    requires m < |shots|
    ensures ShotJobs(shots[..m + 1]) == ShotJobs(shots[..m]) + {shots[m].job}
    ensures (forall i, j | 0 <= i < j < |shots| :: shots[i].job != shots[j].job) ==>
              shots[m].job !in ShotJobs(shots[..m])
  {
    var all, most := shots[..m + 1], shots[..m];
    forall x | x in ShotJobs(most) ensures x in ShotJobs(all) {
      var i :| 0 <= i < m && most[i].job == x;
      assert all[i].job == x;
    }
    assert all[m].job in ShotJobs(all);
  }

  lemma LiveAreBorn(cfg: Config, next: Timers.Cron, ws: seq<World>, ops: seq<Op>)
    requires Run(cfg, next, ws, ops)
    ensures ws[|ops|].db.jobs.Keys <= ws[|ops|].view.born.Keys
  {
    RunIsSound(cfg, next, ws, ops, |ops|, false, false);
    KeysConserved(ws[|ops|].view);
  }

  lemma TickStep(cfg: Config, next: Timers.Cron, ws: seq<World>, ops: seq<Op>, at: int, limit: nat, due: seq<Id>,
                 shots: seq<Timers.Shot>, m: nat, ws': seq<World>, ops': seq<Op>)
    returns (w: World)
    requires |ws| == |ops| + 1 && FreshShots(ws[|ops|].view, shots)
    requires due == Timers.DueBatch(ws[|ops|].db.schedulers, at, limit) && |shots| == |due| && m < |due|
    requires forall k | 0 <= k < |due| :: due[k] in ws[|ops|].db.schedulers
    requires Run(cfg, next, ws', ops') && Ticked(cfg, next, ws, ops, at, due, shots, m, ws', ops')
    ensures Run(cfg, next, ws' + [w], ops' + [FireOp(due[m], shots[m], at)])
    ensures Ticked(cfg, next, ws, ops, at, due, shots, m + 1, ws' + [w], ops' + [FireOp(due[m], shots[m], at)])
  {
    LiveAreBorn(cfg, next, ws', ops');
    w := NextFire(cfg, next, ws, ops, at, limit, shots, m, ws'[|ops'|]);
    TickedOnce(cfg, next, ws, ops, at, due, shots, m, ws', ops', w);
    assert Run(cfg, next, ws' + [w], ops' + [FireOp(due[m], shots[m], at)]) by {
      RunExtends(cfg, next, ws', ops', FireOp(due[m], shots[m], at), w);
    }
  }

  lemma {:induction false} TickPrefix(cfg: Config, next: Timers.Cron, ws: seq<World>, ops: seq<Op>, at: int, limit: nat,
                                      due: seq<Id>, shots: seq<Timers.Shot>, m: nat)
    returns (ws': seq<World>, ops': seq<Op>)
    requires Run(cfg, next, ws, ops) && FreshShots(ws[|ops|].view, shots)
    requires due == Timers.DueBatch(ws[|ops|].db.schedulers, at, limit) && |shots| == |due| && m <= |due|
    requires forall k | 0 <= k < |due| :: due[k] in ws[|ops|].db.schedulers
    ensures Run(cfg, next, ws', ops') && Ticked(cfg, next, ws, ops, at, due, shots, m, ws', ops')
  {
    if m == 0 {
      ws', ops' := ws, ops;
      NothingTicked(cfg, next, ws, ops, at, due, shots);
    } else {
      ws', ops' := TickPrefix(cfg, next, ws, ops, at, limit, due, shots, m - 1);
      var w := TickStep(cfg, next, ws, ops, at, limit, due, shots, m - 1, ws', ops');
      ws', ops' := ws' + [w], ops' + [FireOp(due[m - 1], shots[m - 1], at)];
    }
  }

  lemma NothingTicked(cfg: Config, next: Timers.Cron, ws: seq<World>, ops: seq<Op>, at: int, due: seq<Id>,
                      shots: seq<Timers.Shot>)
    requires |ws| == |ops| + 1 && |shots| == |due|
    requires forall k | 0 <= k < |due| :: due[k] in ws[|ops|].db.schedulers
    ensures Ticked(cfg, next, ws, ops, at, due, shots, 0, ws, ops)
  {
  }

  lemma WholeTick(cfg: Config, next: Timers.Cron, s: Store, due: seq<Id>, shots: seq<Timers.Shot>)
    requires |shots| == |due| && forall k | 0 <= k < |due| :: due[k] in s.schedulers
    ensures Timers.StoreAt(cfg, next, s, due, shots, |due|) ==
            Timers.FireAll(cfg, next, s, s.schedulers, due, shots).0
  {
    assert due[..|due|] == due && shots[..|due|] == shots;
  }

  /**
    From any world of any run, a tick is a run of fire steps, one for each due scheduler in order, each
    leaving the database as the tick's loop does.
   */
  lemma TickIsRun(cfg: Config, next: Timers.Cron, ws: seq<World>, ops: seq<Op>, at: int, limit: nat,
                  shots: seq<Timers.Shot>)
    returns (ws': seq<World>, ops': seq<Op>)
    requires Run(cfg, next, ws, ops) && FreshShots(ws[|ops|].view, shots)
    requires |shots| == |Timers.DueBatch(ws[|ops|].db.schedulers, at, limit)|
    ensures var s := ws[|ops|].db;
            var due := Timers.DueBatch(s.schedulers, at, limit);
            && (forall k | 0 <= k < |due| :: due[k] in s.schedulers)
            && Run(cfg, next, ws', ops') && Ticked(cfg, next, ws, ops, at, due, shots, |due|, ws', ops')
            && ws'[|ops'|].db == Timers.FireAll(cfg, next, s, s.schedulers, due, shots).0
  {
    var s := ws[|ops|].db;
    var due := Timers.DueBatch(s.schedulers, at, limit);
    Timers.DueRows(s.schedulers, at, limit);
    forall k | 0 <= k < |due| ensures due[k] in s.schedulers { assert Timers.Due(s.schedulers, due[k], at); }
    ws', ops' := TickPrefix(cfg, next, ws, ops, at, limit, due, shots, |due|);
    WholeTick(cfg, next, s, due, shots);
  }
}
