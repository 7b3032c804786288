/**
  The gauges stay exact: after every step each equals the number of rows in its
  state.  A failure cascade is the one step that can break this, and it does so
  exactly when it takes an ancestor that was not parked.
 */
module GaugeLaws {
  import opened Tables
  import opened Telemetry
  import opened Lifecycle
  import opened LifecycleLaws
  import opened Gate
  import opened Finish
  import opened Leases
  import opened Dispatch
  import opened Flatten
  import opened FlowLaws
  import opened Enqueue
  import opened EnqueueLaws
  import opened Laws
  import opened Sets
  import Flow
  import Retention

  ghost predicate GaugeLaw(s: Store) {
    Exact(s.gauges, s.jobs, s.history)
  }

  // ---- One row ----

  /** One level's reading once a row has moved from `a` to `b`. */
  predicate Moves(g: Gauges, g': Gauges, a: State, b: State, l: Level) {
    Read(g', l) == Read(g, l) - Unit(Live(a), l) + Unit(Live(b), l)
  }

  lemma RowMoves(g: Gauges, g': Gauges, jobs: Jobs, history: History, id: Id, j: Job)
    requires Exact(g, jobs, history) && id in jobs
    requires forall l: Level :: Moves(g, g', jobs[id].state, j.state, l)
    ensures Exact(g', jobs[id := j], history)
  {
    forall l: Level ensures Read(g', l) == Count(jobs[id := j], history, l) {
      assert Moves(g, g', jobs[id].state, j.state, l) && Read(g, l) == Count(jobs, history, l);
      if l.Live? { StateUpdated(jobs, id, j, l.state); }
    }
  }

  lemma RowArrives(g: Gauges, jobs: Jobs, history: History, id: Id, j: Job)
    requires Exact(g, jobs, history) && id !in jobs && !j.state.WaitingChildren?
    ensures Exact(Transition(g, None, Live(j.state)), jobs[id := j], history)
  {
    assert jobs[id := j] == jobs + map[id := j];
    forall l: Level ensures Read(Transition(g, None, Live(j.state)), l) == Count(jobs[id := j], history, l) {
      assert Read(g, l) == Count(jobs, history, l);
      if l.Live? {
        StateAdded(jobs, map[id := j], l.state);
        StateOfOne(id, j, l.state);
      }
    }
  }

  lemma RowLeaves(jobs: Jobs, id: Id, s: State)
    requires Held(jobs, id)
    ensures |InState(jobs - {id}, s)| == |InState(jobs, s)| - Unit(Live(Active), Live(s))
  {
    StateRemoved(jobs, {id}, s);
    assert InState(jobs, s) * {id} == if s.Active? then {id} else {};
  }

  lemma RowRecorded(history: History, id: Id, a: Archived, o: Outcome)
    requires id !in history
    ensures |WithOutcome(history[id := a], o)| == |WithOutcome(history, o)| + Unit(Ended(a.outcome), Ended(o))
  {
    assert history[id := a] == history + map[id := a];
    OutcomeAdded(history, map[id := a], o);
    assert WithOutcome(map[id := a], o) == if o == a.outcome then {id} else {};
  }

  /** A row leaves for history. */
  lemma RowEnds(g: Gauges, jobs: Jobs, history: History, id: Id, a: Archived)
    requires Exact(g, jobs, history) && Held(jobs, id) && id !in history
    ensures Exact(Transition(g, Some(Live(Active)), Ended(a.outcome)), jobs - {id}, history[id := a])
  {
    var g' := Transition(g, Some(Live(Active)), Ended(a.outcome));
    forall l: Level ensures Read(g', l) == Count(jobs - {id}, history[id := a], l) {
      assert Read(g, l) == Count(jobs, history, l);
      TransitionReads(g, Some(Live(Active)), Ended(a.outcome), l);
      match l
      case Live(s) => RowLeaves(jobs, id, s);
      case Ended(o) => RowRecorded(history, id, a, o);
    }
  }

  // ---- Workers ----

  lemma PollKeepsGauges(cfg: Config, s: Store, r: PollRequest, now: int, now2: int)
    requires GaugeLaw(s)
    ensures GaugeLaw(Poll(cfg, s, r, now, now2).0)
  {
    if !BadPoll(r) && Pick(cfg, s, r.names, now).Some? {
      var id := Pick(cfg, s, r.names, now).value;
      assert Eligible(s, r.names, now, id);
      ClaimKeepsGauges(cfg, s, r.worker, id, now, now2);
    }
  }

  lemma ClaimKeepsGauges(cfg: Config, s: Store, worker: string, id: Id, now: int, now2: int)
    requires GaugeLaw(s) && id in s.jobs && (s.jobs[id].state.Waiting? || s.jobs[id].state.Delayed?)
    ensures GaugeLaw(ClaimJob(cfg, s, worker, id, now, now2))
  {
    var j := ClaimedRow(cfg, s.jobs[id], worker, now2);
    var g' := Transition(s.gauges, Some(Live(s.jobs[id].state)), Live(Active));
    forall l: Level ensures Moves(s.gauges, g', s.jobs[id].state, j.state, l) {}
    RowMoves(s.gauges, g', s.jobs, s.history, id, j);
  }

  lemma HeartbeatKeepsGauges(cfg: Config, s: Store, r: HeartbeatRequest, now: int)
    requires GaugeLaw(s)
    ensures GaugeLaw(Heartbeat(cfg, s, r, now).0)
  {
    if JudgeHeartbeat(s, r, now).Accepted? {
      var j := Heartbeat(cfg, s, r, now).0.jobs[r.id];
      forall l: Level ensures Moves(s.gauges, s.gauges, s.jobs[r.id].state, j.state, l) {}
      RowMoves(s.gauges, s.gauges, s.jobs, s.history, r.id, j);
    }
  }

  lemma RetryKeepsGauges(s: Store, r: FinishRequest, now: int, rand: real)
    requires GaugeLaw(s) && r.id in s.jobs && s.jobs[r.id].state.Active?
    ensures GaugeLaw(RetryLater(s, r, now, rand))
  {
    var j := RetryLater(s, r, now, rand).jobs[r.id];
    var g' := Transition(s.gauges, Some(Live(Active)), Live(j.state));
    forall l: Level ensures Moves(s.gauges, g', Active, j.state, l) {}
    RowMoves(s.gauges, g', s.jobs, s.history, r.id, j);
  }

  /** Crediting a parent moves it only when its gate opens. */
  lemma CreditKeepsGauges(g: Gauges, jobs: Jobs, history: History, parent: Option<Id>, now: int)
    requires Exact(g, jobs, history)
    ensures var gate := Opening(jobs, parent, now);
            Exact(if gate.None? then g else Transition(Telemetry.Parked(g, -1), None, Live(gate.value)),
                  Credit(jobs, parent, now), history)
  {
    if parent.Some? && parent.value in jobs {
      var p := parent.value;
      var gate, j := Opening(jobs, parent, now), Credit(jobs, parent, now)[p];
      var g' := if gate.None? then g else Transition(Telemetry.Parked(g, -1), None, Live(gate.value));
      forall l: Level ensures Moves(g, g', jobs[p].state, j.state, l) {}
      RowMoves(g, g', jobs, history, p, j);
    }
  }

  lemma SucceedKeepsGauges(s: Store, r: FinishRequest, now: int)
    requires GaugeLaw(s) && r.id in s.jobs && s.jobs[r.id].state.Active? && r.id !in s.history
    ensures GaugeLaw(Succeed(s, r, now))
  {
    var j := s.jobs[r.id];
    var a := Archive(j, Completed, now, j.lastError, r.result);
    RowEnds(s.gauges, s.jobs, s.history, r.id, a);
    CreditKeepsGauges(Transition(s.gauges, Some(Live(Active)), Ended(Completed)), s.jobs - {r.id}, s.history[r.id := a],
                      j.card.parent, now);
  }

  // ---- The cascade ----

  function Victims(s: Store, r: FinishRequest): set<Id>
    requires r.id in s.jobs
  {
    Doomed(s.jobs, r.id) - {r.id}
  }

  /** A live count after a cascade over `dead`, of which `id` was Active. */
  lemma CascadeLive(jobs: Jobs, id: Id, dead: set<Id>, s: State)
    requires id in dead && Held(jobs, id)
    ensures |InState(jobs - dead, s)| ==
            |InState(jobs, s)| - |InState(jobs, s) * (dead - {id})| - Unit(Live(Active), Live(s))
  {
    StateRemoved(jobs, dead, s);
    var hit := InState(jobs, s) * dead;
    assert hit - {id} == InState(jobs, s) * (dead - {id});
    if s.Active? { SizeWith(hit, id); } else { assert hit - {id} == hit; }
  }

  lemma CascadeEnded(history: History, rows: History, o: Outcome)
    requires history.Keys !! rows.Keys && forall d | d in rows :: rows[d].outcome.Failed?
    ensures |WithOutcome(history + rows, o)| == |WithOutcome(history, o)| + if o.Failed? then |rows.Keys| else 0
  {
    OutcomeAdded(history, rows, o);
    assert WithOutcome(rows, o) == if o.Failed? then rows.Keys else {};
  }

  lemma FailReads(s: Store, r: FinishRequest, now: int, l: Level)
    requires r.id in s.jobs
    ensures Read(Fail(s, r, now).gauges, l) == Read(s.gauges, l) + match l
        case Live(Active) => -1
        case Live(WaitingChildren) => 0 - |Victims(s, r) * InState(s.jobs, WaitingChildren)|
        case Live(_) => 0
        case Ended(o) => if o.Failed? then |Victims(s, r)| + 1 else 0
  {
  }

  lemma DriftLive(s: Store, r: FinishRequest, now: int, state: State)
    requires Read(s.gauges, Live(state)) == |InState(s.jobs, state)| && Held(s.jobs, r.id)
    ensures Read(Fail(s, r, now).gauges, Live(state)) - |InState(Fail(s, r, now).jobs, state)| ==
            if state.WaitingChildren? then 0 else |InState(s.jobs, state) * Victims(s, r)|
  {
    DoomedAreLive(s.jobs, r.id);
    FailReads(s, r, now, Live(state));
    CascadeLive(s.jobs, r.id, Doomed(s.jobs, r.id), state);
    assert Victims(s, r) * InState(s.jobs, WaitingChildren) == InState(s.jobs, WaitingChildren) * Victims(s, r);
  }

  lemma FailedRowsFail(jobs: Jobs, r: FinishRequest, now: int, dead: set<Id>)
    requires dead <= jobs.Keys
    ensures FailedRows(jobs, r, now, dead).Keys == dead
    ensures forall d | d in FailedRows(jobs, r, now, dead) :: FailedRows(jobs, r, now, dead)[d].outcome.Failed?
  {
  }

  lemma FailedHistory(s: Store, r: FinishRequest, now: int, o: Outcome)
    requires r.id in s.jobs && s.jobs.Keys !! s.history.Keys
    ensures |WithOutcome(Fail(s, r, now).history, o)| ==
            |WithOutcome(s.history, o)| + if o.Failed? then |Doomed(s.jobs, r.id)| else 0
  {
    var dead := Doomed(s.jobs, r.id);
    DoomedAreLive(s.jobs, r.id);
    FailedRowsFail(s.jobs, r, now, dead);
    CascadeEnded(s.history, FailedRows(s.jobs, r, now, dead), o);
  }

  lemma DriftEnded(s: Store, r: FinishRequest, now: int, o: Outcome)
    requires Read(s.gauges, Ended(o)) == |WithOutcome(s.history, o)|
    requires Held(s.jobs, r.id) && s.jobs.Keys !! s.history.Keys
    ensures Read(Fail(s, r, now).gauges, Ended(o)) == |WithOutcome(Fail(s, r, now).history, o)|
  {
    DoomedAreLive(s.jobs, r.id);
    SizeWith(Doomed(s.jobs, r.id), r.id);
    FailReads(s, r, now, Ended(o));
    FailedHistory(s, r, now, o);
  }

  /** Exactly how far each gauge is off after a cascade: by the victims that were in its state. */
  lemma CascadeDrift(s: Store, r: FinishRequest, now: int, l: Level)
    requires GaugeLaw(s) && Held(s.jobs, r.id) && s.jobs.Keys !! s.history.Keys
    ensures var t := Fail(s, r, now);
            Read(t.gauges, l) - Count(t.jobs, t.history, l) ==
            if l.Live? && !l.state.WaitingChildren? then |InState(s.jobs, l.state) * Victims(s, r)| else 0
  {
    assert Read(s.gauges, l) == Count(s.jobs, s.history, l);
    match l
    case Live(state) => DriftLive(s, r, now, state);
    case Ended(o) => DriftEnded(s, r, now, o);
  }

  predicate AllParkedVictims(s: Store, r: FinishRequest)
    requires r.id in s.jobs
  {
    forall d | d in Victims(s, r) :: d in s.jobs && s.jobs[d].state.WaitingChildren?
  }

  /** A cascade keeps the gauges exact if and only if every ancestor it takes was parked. */
  lemma CascadeExactIff(s: Store, r: FinishRequest, now: int)
    requires GaugeLaw(s) && Held(s.jobs, r.id) && s.jobs.Keys !! s.history.Keys
    ensures GaugeLaw(Fail(s, r, now)) <==> AllParkedVictims(s, r)
  {
    var t := Fail(s, r, now);
    DoomedAreLive(s.jobs, r.id);
    if AllParkedVictims(s, r) {
      forall l: Level ensures Read(t.gauges, l) == Count(t.jobs, t.history, l) {
        CascadeDrift(s, r, now, l);
        if l.Live? && !l.state.WaitingChildren? { assert InState(s.jobs, l.state) * Victims(s, r) == {}; }
      }
    } else {
      var d :| d in Victims(s, r) && !(d in s.jobs && s.jobs[d].state.WaitingChildren?);
      var l := Live(s.jobs[d].state);
      CascadeDrift(s, r, now, l);
      assert d in InState(s.jobs, l.state) * Victims(s, r);
      assert Read(t.gauges, l) != Count(t.jobs, t.history, l);
    }
  }

  /** When only flows link to live parents, a cascade only takes parked ancestors. */
  lemma {:induction false} CascadeParked(v: View, jobs: Jobs, id: Id, d: Id)
    requires Booked(v) && GateLaw(v) && AllDetached(v)
    requires jobs.Keys <= v.jobs.Keys && (forall x | x in jobs :: jobs[x] == v.jobs[x])
    requires id in jobs && d in Doomed(jobs, id) && d != id
    ensures d in jobs && jobs[d].state.WaitingChildren?
    decreases |jobs|
  {
    var rest := jobs - {id};
    assert jobs.Keys == rest.Keys + {id};
    var p := jobs[id].card.parent.value;
    if d == p {
      assert Accounted(v, id) && Detached(v, id);
      NothingOutside(v, p);
      UnfinishedParks(v, id, p);
    } else {
      CascadeParked(v, rest, p, d);
    }
  }

  lemma VictimsParked(v: View, s: Store, r: FinishRequest)
    requires Booked(v) && GateLaw(v) && AllDetached(v) && v.jobs == s.jobs && r.id in s.jobs
    ensures AllParkedVictims(s, r)
  {
    forall d | d in Victims(s, r) ensures d in s.jobs && s.jobs[d].state.WaitingChildren? {
      CascadeParked(v, s.jobs, r.id, d);
    }
  }

  /** Completing and retrying keep the gauges exact; a terminal failure does if and only if its victims were parked. */
  lemma FinishExactIff(s: Store, r: FinishRequest, now: int, rand: real)
    requires GaugeLaw(s) && s.jobs.Keys !! s.history.Keys
    ensures GaugeLaw(FinishJob(s, r, now, rand).0) <==> (FailsTerminally(s, r, now) ==> AllParkedVictims(s, r))
  {
    if Judge(s, r, now).Accepted? {
      if Retries(s.jobs[r.id], r) {
        RetryKeepsGauges(s, r, now, rand);
      } else if r.error.Some? {
        CascadeExactIff(s, r, now);
      } else {
        SucceedKeepsGauges(s, r, now);
      }
    }
  }

  // ---- Recovery ----

  lemma RecoveredRests(j: Job, now: int)
    ensures RecoveredRow(j, now).state.Waiting? || RecoveredRow(j, now).state.Delayed?
  {
  }

  lemma RecoverAt(jobs: Jobs, rows: set<Id>, now: int, s: State, x: Id)
    requires x in rows ==> Held(jobs, x)
    ensures x in InState(RecoveredJobs(jobs, rows, now), s) <==>
      if x in rows then x in Recoverable(jobs, rows) && RecoveredRow(jobs[x], now).state == s else x in InState(jobs, s)
  {
  }

  lemma RecoverActive(jobs: Jobs, rows: set<Id>, now: int)
    requires forall id | id in rows :: Held(jobs, id)
    ensures |InState(RecoveredJobs(jobs, rows, now), Active)| == |InState(jobs, Active)| - |rows|
  {
    var after := InState(RecoveredJobs(jobs, rows, now), Active);
    forall x: Id ensures x in InState(jobs, Active) <==> x in after || x in rows {
      RecoverAt(jobs, rows, now, Active, x);
    }
    forall x: Id | x in rows ensures x !in after {
      RecoverAt(jobs, rows, now, Active, x);
      RecoveredRests(jobs[x], now);
    }
    assert InState(jobs, Active) == after + rows;
  }

  /** The rows of a recovery batch leave Active, and each goes to exactly one other count. */
  lemma RecoverResting(jobs: Jobs, rows: set<Id>, now: int, s: State)
    requires !s.Active? && forall id | id in rows :: Held(jobs, id)
    ensures var after := InState(RecoveredJobs(jobs, rows, now), s);
            |after| == |InState(jobs, s)| + |Recoverable(jobs, rows) * after|
  {
    var after, back := InState(RecoveredJobs(jobs, rows, now), s), Recoverable(jobs, rows);
    forall x: Id ensures x in after <==> x in InState(jobs, s) || x in back * after {
      RecoverAt(jobs, rows, now, s, x);
    }
    assert after == InState(jobs, s) + back * after;
  }

  lemma NoneParked(jobs: Jobs, rows: set<Id>, now: int)
    requires forall id | id in rows :: Held(jobs, id)
    ensures Recoverable(jobs, rows) * InState(RecoveredJobs(jobs, rows, now), WaitingChildren) == {}
  {
    forall x: Id | x in Recoverable(jobs, rows) ensures x !in InState(RecoveredJobs(jobs, rows, now), WaitingChildren) {
      RecoverAt(jobs, rows, now, WaitingChildren, x);
      RecoveredRests(jobs[x], now);
    }
  }

  lemma ExpiredFail(jobs: Jobs, history: History, rows: set<Id>, now: int, o: Outcome)
    requires jobs.Keys !! history.Keys
    ensures |WithOutcome(history + ExpiredRows(jobs, rows, now), o)| ==
            |WithOutcome(history, o)| + if o.Failed? then |Exhausted(jobs, rows)| else 0
  {
    assert ExpiredRows(jobs, rows, now).Keys == Exhausted(jobs, rows);
    CascadeEnded(history, ExpiredRows(jobs, rows, now), o);
  }

  /** What a recovery pass adds to one reading. */
  function RecoveredShare(jobs: Jobs, rows: set<Id>, now: int, l: Level): int {
    match l
    case Live(state) =>
      if state.Active? then 0 - |rows|
      else |Recoverable(jobs, rows) * InState(RecoveredJobs(jobs, rows, now), state)|
    case Ended(o) => if o.Failed? then |Exhausted(jobs, rows)| else 0
  }

  lemma RecoveredReads(g: Gauges, jobs: Jobs, rows: set<Id>, now: int, l: Level)
    requires forall id | id in rows :: Held(jobs, id)
    ensures Read(RecoveredGauges(g, jobs, rows, now), l) == Read(g, l) + RecoveredShare(jobs, rows, now, l)
  {
    NoneParked(jobs, rows, now);
  }

  lemma RecoveredCounts(jobs: Jobs, history: History, rows: set<Id>, now: int, l: Level)
    requires jobs.Keys !! history.Keys && forall id | id in rows :: Held(jobs, id)
    ensures Count(RecoveredJobs(jobs, rows, now), history + ExpiredRows(jobs, rows, now), l) ==
            Count(jobs, history, l) + RecoveredShare(jobs, rows, now, l)
  {
    if l.Ended? {
      ExpiredFail(jobs, history, rows, now, l.outcome);
    } else if l.state.Active? {
      RecoverActive(jobs, rows, now);
    } else {
      RecoverResting(jobs, rows, now, l.state);
    }
  }

  lemma RecoverKeepsGauges(s: Store, rows: set<Id>, now: int)
    requires GaugeLaw(s) && s.jobs.Keys !! s.history.Keys && forall id | id in rows :: Held(s.jobs, id)
    ensures GaugeLaw(RecoverRows(s, rows, now))
  {
    forall l: Level ensures Read(RecoverRows(s, rows, now).gauges, l)
                            == Count(RecoverRows(s, rows, now).jobs, RecoverRows(s, rows, now).history, l) {
      assert Read(s.gauges, l) == Count(s.jobs, s.history, l);
      RecoveredReads(s.gauges, s.jobs, rows, now, l);
      RecoveredCounts(s.jobs, s.history, rows, now, l);
    }
  }

  // ---- Retention ----

  lemma AgePicks(rc: Retention.RetentionConfig, now: int, h: History, o: Outcome, gone: set<Id>)
    requires Retention.PrunesAge(rc, now, h, o, gone)
    ensures gone <= WithOutcome(h, o)
  {
  }

  lemma CountPicks(rc: Retention.RetentionConfig, h: History, o: Outcome, gone: set<Id>)
    requires Retention.PrunesCount(rc, h, o, gone)
    ensures gone <= WithOutcome(h, o)
  {
  }

  lemma OutcomeLeft(h: History, gone: set<Id>, o: Outcome)
    ensures WithOutcome(h - gone, o) == WithOutcome(h, o) - gone
  {
  }

  lemma SortedPicks(c: set<Id>, f: set<Id>, ca: set<Id>, fa: set<Id>, cc: set<Id>, fc: set<Id>)
    requires c !! f && ca <= c && fa <= f && cc <= c - ca && fc <= f - fa
    ensures |c * (ca + fa + cc + fc)| == |ca| + |cc| && |f * (ca + fa + cc + fc)| == |fa| + |fc|
  {
    assert c * (ca + fa + cc + fc) == ca + cc;
    assert f * (ca + fa + cc + fc) == fa + fc;
  }

  /** The picks of a pass, counted by outcome. */
  lemma PickedByOutcome(rc: Retention.RetentionConfig, h: History, p: Retention.Picks, now: int)
    requires Retention.PassLegal(rc, now, h, p)
    ensures |WithOutcome(h, Completed) * Retention.PassGone(p)| == |p.completedAge| + |p.completedCount|
    ensures |WithOutcome(h, Failed) * Retention.PassGone(p)| == |p.failedAge| + |p.failedCount|
  {
    var h1 := h - p.completedAge;
    var h2 := h1 - p.failedAge;
    var h3 := h2 - p.completedCount;
    AgePicks(rc, now, h, Completed, p.completedAge);
    AgePicks(rc, now, h1, Failed, p.failedAge);
    CountPicks(rc, h2, Completed, p.completedCount);
    CountPicks(rc, h3, Failed, p.failedCount);
    OutcomeLeft(h, p.completedAge, Failed);
    OutcomeLeft(h, p.completedAge, Completed);
    OutcomeLeft(h1, p.failedAge, Completed);
    OutcomeLeft(h1, p.failedAge, Failed);
    OutcomeLeft(h2, p.completedCount, Failed);
    SortedPicks(WithOutcome(h, Completed), WithOutcome(h, Failed),
                p.completedAge, p.failedAge, p.completedCount, p.failedCount);
  }

  lemma SweepKeepsGauges(rc: Retention.RetentionConfig, s: Store, p: Retention.Picks, now: int)
    requires GaugeLaw(s) && Retention.SweepLegal(rc, s, p, now)
    ensures GaugeLaw(Retention.Sweep(s, p))
  {
    PickedByOutcome(rc, s.history, p, now);
    SweptExact(s, p);
  }

  lemma SweptExact(s: Store, p: Retention.Picks)
    requires GaugeLaw(s)
    requires |WithOutcome(s.history, Completed) * Retention.PassGone(p)| == |p.completedAge| + |p.completedCount|
    requires |WithOutcome(s.history, Failed) * Retention.PassGone(p)| == |p.failedAge| + |p.failedCount|
    ensures GaugeLaw(Retention.Sweep(s, p))
  {
    forall l: Level ensures Read(Retention.Sweep(s, p).gauges, l)
                            == Count(Retention.Sweep(s, p).jobs, Retention.Sweep(s, p).history, l) {
      assert Read(s.gauges, l) == Count(s.jobs, s.history, l);
      SweptLevel(s.gauges, s.jobs, s.history, p, l);
    }
  }

  lemma SweptLevel(g: Gauges, jobs: Jobs, h: History, p: Retention.Picks, l: Level)
    requires Read(g, l) == Count(jobs, h, l)
    requires |WithOutcome(h, Completed) * Retention.PassGone(p)| == |p.completedAge| + |p.completedCount|
    requires |WithOutcome(h, Failed) * Retention.PassGone(p)| == |p.failedAge| + |p.failedCount|
    ensures Read(Retention.SweptGauges(g, p), l) == Count(jobs, h - Retention.PassGone(p), l)
  {
    match l
    case Live(_) =>
    case Ended(o) => OutcomeRemoved(h, Retention.PassGone(p), o);
  }

  // ---- Insertions ----

  lemma EnqueueKeepsGauges(cfg: Config, s: Store, r: AddJobRequest, id: Id, trace: string, now: int)
    requires GaugeLaw(s) && id !in s.jobs && EnqueueOne(cfg, s, r, id, trace, now).Admitted?
    ensures GaugeLaw(EnqueueOne(cfg, s, r, id, trace, now).store)
  {
    var a := EnqueueOne(cfg, s, r, id, trace, now);
    if IsNew(a) {
      NewAdmissionRow(cfg, s, r, id, trace, now);
      RowArrives(s.gauges, s.jobs, s.history, id, a.store.jobs[id]);
    }
  }

  lemma {:induction false} BatchKeepsGauges(cfg: Config, s: Store, items: seq<Item>, now: int)
    requires GaugeLaw(s) && FreshItems(s.jobs.Keys, items) && EnqueueAll(cfg, s, items, now).Done?
    ensures GaugeLaw(EnqueueAll(cfg, s, items, now).store)
  {
    if items != [] {
      var n := |items| - 1;
      assert FreshItems(s.jobs.Keys, items[..n]);
      BatchKeepsGauges(cfg, s, items[..n], now);
      BatchGrows(cfg, s, items[..n], now);
      var t := EnqueueAll(cfg, s, items[..n], now).store;
      NextIsFresh(s.jobs.Keys, items, t.jobs.Keys);
      EnqueueKeepsGauges(cfg, t, items[n].request, items[n].id, items[n].freshTrace, now);
    }
  }

  lemma InsertKeepsGauges(s: Store, rows: seq<Prepared>, tree: Id, base: nat, now: int)
    requires GaugeLaw(s) && IdsOf(rows) !! s.jobs.Keys
    ensures GaugeLaw(Flow.Insert(s, rows, tree, base, now))
  {
    var news, t := Flow.RowMap(rows, tree, base, now), Flow.Insert(s, rows, tree, base, now);
    RowMapKeys(rows, tree, base, now);
    forall l: Level ensures Read(t.gauges, l) == Count(t.jobs, t.history, l) {
      assert Read(s.gauges, l) == Count(s.jobs, s.history, l);
      if l.Live? { StateAdded(s.jobs, news, l.state); }
    }
  }

  lemma RegateKeepsGauges(s: Store, t: Id, added: nat)
    requires GaugeLaw(s) && t in s.jobs && !s.jobs[t].state.Active?
    ensures GaugeLaw(Flow.RegateTarget(s, t, added))
  {
    var j, g' := Regated(t, s.jobs[t], added), Flow.RegateGauges(s.gauges, s.jobs[t].state);
    forall l: Level ensures Moves(s.gauges, g', s.jobs[t].state, j.state, l) {}
    RowMoves(s.gauges, g', s.jobs, s.history, t, j);
  }

  lemma MergeKeepsGauges(cfg: Config, v: View, s: Store, flow: FlowJob, supply: seq<Id>, now: int)
    requires Conserved(v) && v.jobs == s.jobs && GaugeLaw(s) && Fresh(v, supply) && SizeAll(flow.children) <= |supply|
    requires Flow.AddFlowMerge(cfg, s, flow, supply, now).1.Ok?
    ensures GaugeLaw(Flow.AddFlowMerge(cfg, s, flow, supply, now).0)
  {
    var t := s.receipts[SlotOf(flow.body)].jobId;
    MergeIds(v, flow.children, t, supply);
    RegateKeepsGauges(s, t, |flow.children|);
    var s1 := Flow.RegateTarget(s, t, |flow.children|);
    assert s1.jobs.Keys == s.jobs.Keys;
    InsertKeepsGauges(s1, Flow.NewRows(flow, t, supply), Flow.TreeOf(t, s.jobs[t]), s.jobs[t].treeDepth, now);
  }

  lemma {:induction false} TreesKeepGauges(cfg: Config, v: View, s: Store, flows: seq<FlowJob>, supplies: seq<seq<Id>>,
                                           now: int, seen: set<Slot>, strict: bool)
    requires Lawful(cfg, v, strict) && v.jobs == s.jobs && v.history == s.history && GaugeLaw(s)
    requires Flow.Supplied(flows, supplies) && FreshSupplies(v, supplies)
    requires Flow.AcceptableTrees(cfg, flows, seen) && Flow.InsertTrees(s, flows, supplies, now).Ok?
    ensures GaugeLaw(Flow.InsertTrees(s, flows, supplies, now).value)
    decreases |flows|
  {
    if flows != [] {
      var rows := Flat(flows[0], None, 0, supplies[0], 0);
      TreeIds(v, flows[0], supplies[0]);
      KeysConserved(v);
      InsertKeepsGauges(s, rows, rows[0].id, 0, now);
      var t1 := Flow.InsertTree(s, rows, now).value;
      TreeLawful(cfg, v, s, flows[0], supplies[0], now, seen, strict);
      LaterSupplies(cfg, v, s, flows[0], supplies, now, seen);
      TreesKeepGauges(cfg, Watch(v, t1.jobs, v.history), t1, flows[1..], supplies[1..], now,
                      seen + SlotSet(Slots(flows[0])), strict);
    }
  }
}
