/**
  The level gauges.  They live in memory beside the database, are moved after
  each commit and are seeded from the tables at start-up; they are exact when
  each equals the number of rows in its state.
 */
module Telemetry {
  import opened Tables

  /** A state a row can be counted in: a live state or a recorded outcome. */
  datatype Level = Live(state: State) | Ended(outcome: Outcome)

  function Read(g: Gauges, l: Level): int {
    match l
    case Live(Waiting) => g.waiting
    case Live(Delayed) => g.delayed
    case Live(Active) => g.active
    case Live(WaitingChildren) => g.waitingChildren
    case Ended(Completed) => g.completed
    case Ended(Failed) => g.failed
  }

  /** Adds `n` to one of the five state gauges; WaitingChildren is not among them. */
  function Shift(g: Gauges, l: Level, n: int): Gauges {
    match l
    case Live(Waiting) => g.(waiting := g.waiting + n)
    case Live(Delayed) => g.(delayed := g.delayed + n)
    case Live(Active) => g.(active := g.active + n)
    case Live(WaitingChildren) => g
    case Ended(Completed) => g.(completed := g.completed + n)
    case Ended(Failed) => g.(failed := g.failed + n)
  }

  function Transition(g: Gauges, from: Option<Level>, to: Level): Gauges {
    Shift(if from.Some? then Shift(g, from.value, -1) else g, to, 1)
  }

  function Parked(g: Gauges, n: int): Gauges {
    g.(waitingChildren := g.waitingChildren + n)
  }

  // ---- Row counts ----

  function InState(jobs: Jobs, s: State): set<Id> {
    set id | id in jobs && jobs[id].state == s
  }

  function WithOutcome(history: History, o: Outcome): set<Id> {
    set id | id in history && history[id].outcome == o
  }

  function Count(jobs: Jobs, history: History, l: Level): nat {
    match l
    case Live(s) => |InState(jobs, s)|
    case Ended(o) => |WithOutcome(history, o)|
  }

  ghost predicate Exact(g: Gauges, jobs: Jobs, history: History) {
    forall l: Level :: Read(g, l) == Count(jobs, history, l)
  }

  /** `Metrics::initialize`: count the rows of both tables by state. */
  function Seed(jobs: Jobs, history: History): Gauges {
    Gauges(|InState(jobs, Waiting)|, |InState(jobs, Delayed)|, |InState(jobs, Active)|,
           |WithOutcome(history, Completed)|, |WithOutcome(history, Failed)|,
           |InState(jobs, WaitingChildren)|)
  }

  lemma SeedIsExact(jobs: Jobs, history: History)
    ensures Exact(Seed(jobs, history), jobs, history)
  {
  }

  /** 1 when the row is in the counted state, else 0. */
  function Unit(a: Level, l: Level): int {
    if a == l then 1 else 0
  }

  lemma TransitionReads(g: Gauges, from: Option<Level>, to: Level, l: Level)
    ensures Read(Transition(g, from, to), l) == Read(g, l) +
      if l == Live(WaitingChildren) then 0
      else Unit(to, l) - if from.Some? then Unit(from.value, l) else 0
  {
  }

  lemma StateRemoved(jobs: Jobs, gone: set<Id>, s: State)
    ensures InState(jobs - gone, s) == InState(jobs, s) - gone
    ensures |InState(jobs - gone, s)| == |InState(jobs, s)| - |InState(jobs, s) * gone|
  {
    var kept, lost := InState(jobs, s) - gone, InState(jobs, s) * gone;
    assert InState(jobs - gone, s) == kept;
    assert InState(jobs, s) == kept + lost;
  }

  lemma StateAdded(jobs: Jobs, rows: Jobs, s: State)
    requires jobs.Keys !! rows.Keys
    ensures |InState(jobs + rows, s)| == |InState(jobs, s)| + |InState(rows, s)|
  {
    assert InState(jobs + rows, s) == InState(jobs, s) + InState(rows, s);
    assert InState(jobs, s) !! InState(rows, s);
  }

  lemma StateOfOne(id: Id, j: Job, s: State)
    ensures |InState(map[id := j], s)| == Unit(Live(j.state), Live(s))
  {
    assert InState(map[id := j], s) == if j.state == s then {id} else {};
  }

  lemma StateUpdated(jobs: Jobs, id: Id, j: Job, s: State)
    requires id in jobs
    ensures |InState(jobs[id := j], s)| ==
            |InState(jobs, s)| - Unit(Live(jobs[id].state), Live(s)) + Unit(Live(j.state), Live(s))
  {
    var rest := jobs - {id};
    assert jobs == rest + map[id := jobs[id]];
    assert jobs[id := j] == rest + map[id := j];
    StateAdded(rest, map[id := jobs[id]], s);
    StateAdded(rest, map[id := j], s);
    StateOfOne(id, jobs[id], s);
    StateOfOne(id, j, s);
  }

  lemma OutcomeAdded(history: History, rows: History, o: Outcome)
    requires history.Keys !! rows.Keys
    ensures |WithOutcome(history + rows, o)| == |WithOutcome(history, o)| + |WithOutcome(rows, o)|
  {
    assert WithOutcome(history + rows, o) == WithOutcome(history, o) + WithOutcome(rows, o);
    assert WithOutcome(history, o) !! WithOutcome(rows, o);
  }

  lemma OutcomeRemoved(history: History, gone: set<Id>, o: Outcome)
    ensures |WithOutcome(history - gone, o)| == |WithOutcome(history, o)| - |WithOutcome(history, o) * gone|
  {
    var kept, lost := WithOutcome(history, o) - gone, WithOutcome(history, o) * gone;
    assert WithOutcome(history - gone, o) == kept;
    assert WithOutcome(history, o) == kept + lost;
  }
}
