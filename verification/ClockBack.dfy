/**
  Why the bound on fires needs the clock to stand still or move on between the
  selection of a scheduler and its fire: with a tick that reads 100 and a fire
  that reads 99, a pattern that occurs once, at 100, fires as often as one likes
  at that one moment.
 */
module ClockBack {
  import opened Tables
  import opened World
  import opened Books
  import Enqueue
  import Ticks
  import Timers = Scheduler

  const CFG := Config(5, 0, false, 1000, 5, 10, 5)
  const SPEC := Scheduler("job", [], "at 100", None, 0, Some(100), None, None, None, None, None, None, None, 0, 0)

  predicate Occurs(t: int) {
    t == 100
  }

  function Next(cron: string, zone: string, t: int): Option<int> {
    if t < 100 then Some(100) else None
  }

  /** The first occurrence after any time, as a cron pattern gives it. */
  lemma NextIsFirst(cron: string, zone: string)
    ensures Timers.FirstAfter(Timers.NextOf(Next, cron, zone), Occurs)
  {
    var rule := Timers.NextOf(Next, cron, zone);
    forall t: int | rule(t).Some?
      ensures t < rule(t).value && Occurs(rule(t).value) && forall u | t < u < rule(t).value :: !Occurs(u) {
      assert rule(t) == Next(cron, zone, t);
    }
  }

  function Name(k: nat): Id {
    seq(k, _ => 'j')
  }

  function Again(k: nat): Op {
    Ticks.FireOp("s", Timers.Shot(Name(k + 1), "t", 99), 100)
  }

  predicate AsSpec(row: Scheduler) {
    row.nextRun == Some(100) && row.cron == SPEC.cron && row.timezone.None?
    && Timers.BuildRequest(row) == Timers.BuildRequest(SPEC)
  }

  /** The scheduler fired `k` times, always at 99, and is still due at 100. */
  ghost predicate Fired(w: World, k: nat) {
    && "s" in w.db.schedulers && AsSpec(w.db.schedulers["s"])
    && "s" in w.books.fired && w.books.fired["s"].times == seq(k, _ => 99)
    && w.db.jobs.Keys <= w.view.born.Keys && (forall id | id in w.view.born :: |id| <= k)
  }

  /** The scheduler's job is admitted whatever the database holds. */
  lemma ShotEnters(s: Store, job: Id)
    ensures Enqueue.Validate(CFG, Timers.BuildRequest(SPEC)).Ok?
    ensures Enqueue.EnqueueOne(CFG, s, Enqueue.Validate(CFG, Timers.BuildRequest(SPEC)).value, job, "t", 99).Admitted?
  {
  }

  lemma FiresAgain(s: Store, row: Scheduler, job: Id)
    requires "s" in s.schedulers && s.schedulers["s"] == row && AsSpec(row)
    ensures var fired := Timers.Fire(CFG, Next, s, "s", row, job, "t", 99);
            && fired.Some? && fired.value.jobs.Keys == s.jobs.Keys + {job}
            && "s" in fired.value.schedulers && AsSpec(fired.value.schedulers["s"])
  {
    ShotEnters(s, job);
    Timers.FireSucceedsIff(CFG, Next, s, "s", row, Timers.Shot(job, "t", 99));
    Timers.FireEffect(CFG, Next, s, "s", row, job, "t", 99);
  }

  lemma NotedAgain(s: Store, b: Books, k: nat)
    requires "s" in s.schedulers && AsSpec(s.schedulers["s"])
    requires "s" in b.fired && b.fired["s"].times == seq(k, _ => 99)
    ensures var fired := AfterFire(CFG, Next, s, b, "s", Name(k + 1), "t", 100, 99).fired;
            "s" in fired && fired["s"].times == seq(k + 1, _ => 99)
  {
    FiresAgain(s, s.schedulers["s"], Name(k + 1));
    assert seq(k, _ => 99) + [99] == seq(k + 1, _ => 99);
  }

  lemma FiredOnce(w: World, w': World, k: nat)
    requires Fired(w, k)
    requires w'.db == Ticks.FiredStore(CFG, Next, w.db, "s", Timers.Shot(Name(k + 1), "t", 99))
    requires w'.books == AfterFire(CFG, Next, w.db, w.books, "s", Name(k + 1), "t", 100, 99)
    requires w'.db.jobs.Keys <= w'.view.born.Keys <= w.view.born.Keys + {Name(k + 1)}
    ensures Fired(w', k + 1)
  {
    FiresAgain(w.db, w.db.schedulers["s"], Name(k + 1));
    NotedAgain(w.db, w.books, k);
    assert |Name(k + 1)| == k + 1;
  }

  lemma OnceMore(w: World, k: nat) returns (w': World)
    requires Fired(w, k)
    ensures Follows(CFG, Next, w, Again(k), w') && Fired(w', k + 1)
  {
    assert |Name(k + 1)| == k + 1;
    w' := Ticks.FireStep(CFG, Next, w, "s", Timers.Shot(Name(k + 1), "t", 99), 100);
    FiredOnce(w, w', k);
  }

  const UPSERT := UpsertScheduler("s", SPEC, 0)

  lemma Start() returns (w: World)
    ensures Follows(CFG, Next, GENESIS, UPSERT, w) && Fired(w, 0)
  {
    w := Step(CFG, Next, GENESIS, UPSERT);
  }

  /**
    For every k there is a run in which the scheduler fires k times in a span that holds no occurrence of
    its pattern, so no bound by occurrences holds without the hypothesis on the clock.
   */
  lemma {:induction false} FiresRepeat(k: nat) returns (ws: seq<World>, ops: seq<Op>)
    ensures Run(CFG, Next, ws, ops) && |ops| == k + 1 && Fired(ws[k + 1], k)
    ensures Timers.Occurrences(Occurs, 99, 99) == {}
  {
    if k == 0 {
      var w := Start();
      ws, ops := [GENESIS], [];
      RunExtends(CFG, Next, ws, ops, UPSERT, w);
      ws, ops := ws + [w], ops + [UPSERT];
    } else {
      ws, ops := FiresRepeat(k - 1);
      var w := OnceMore(ws[k], k - 1);
      RunExtends(CFG, Next, ws, ops, Again(k - 1), w);
      ws, ops := ws + [w], ops + [Again(k - 1)];
    }
  }
}
