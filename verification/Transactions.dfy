/**
  The loops that run inside a transaction, statement by statement, each proved
  to leave the tables that the one-shot description of the call gives.
 */
module Transactions {
  import opened Tables
  import opened Telemetry
  import opened Lifecycle
  import opened Finish
  import opened Leases
  import opened Enqueue

  // ---- Failing a job and its flagged ancestors ----

  lemma ReleaseMore(receipts: Receipts, dead: set<Id>, p: Id)
    ensures Release(Release(receipts, dead), {p}) == Release(receipts, dead + {p})
  {
  }

  lemma FailedRowsMore(jobs: Jobs, history: History, r: FinishRequest, now: int, dead: set<Id>, p: Id)
    requires p in jobs && p !in dead && p != r.id
    ensures var row := Archive(jobs[p], Failed, now, Some(CascadeError(r.id)), None);
            (history + FailedRows(jobs, r, now, dead))[p := row] == history + FailedRows(jobs, r, now, dead + {p})
  {
    var rows := FailedRows(jobs, r, now, dead);
    assert FailedRows(jobs, r, now, dead + {p}) == rows[p := FailedRow(jobs, r, now, p)];
  }

  lemma FirstFailedRow(jobs: Jobs, history: History, r: FinishRequest, now: int)
    requires r.id in jobs
    ensures history[r.id := Archive(jobs[r.id], Failed, now, r.error, r.result)]
              == history + FailedRows(jobs, r, now, {r.id})
  {
    assert FailedRows(jobs, r, now, {r.id}) == map[r.id := FailedRow(jobs, r, now, r.id)];
  }

  lemma RowsLeft(jobs: Jobs, done: set<Id>, p: Id)
    requires p in jobs - done
    ensures jobs - done - {p} == jobs - (done + {p})
    ensures |jobs - done - {p}| < |jobs - done|
  {
    var rest := jobs - done - {p};
    assert (jobs - done).Keys == rest.Keys + {p};
  }

  lemma CountMore(done: set<Id>, id: Id, p: Id, waiting: set<Id>)
    requires id in done && p !in done
    ensures |done + {p} - {id}| == |done - {id}| + 1
    ensures |(done + {p} - {id}) * waiting| == |(done - {id}) * waiting| + if p in waiting then 1 else 0
  {
    assert done + {p} - {id} == done - {id} + {p};
    var hit := (done - {id}) * waiting;
    assert (done + {p} - {id}) * waiting == if p in waiting then hit + {p} else hit;
  }

  /** The ancestors still to fail when the loop stands at `ancestor` with `flag`. */
  function StillDoomed(jobs: Jobs, flag: bool, ancestor: Option<Id>): set<Id> {
    if flag && ancestor.Some? && ancestor.value in jobs then Doomed(jobs, ancestor.value) else {}
  }

  lemma DoomedUnfolds(jobs: Jobs, id: Id)
    requires id in jobs
    ensures Doomed(jobs, id) == {id} + StillDoomed(jobs - {id}, jobs[id].failParent, jobs[id].card.parent)
  {
  }

  /** The tables and counts once exactly the jobs in `done` have been failed. */
  ghost predicate Failing(s: Store, r: FinishRequest, now: int, done: set<Id>, jobs: Jobs, history: History,
                          receipts: Receipts, failures: nat, leftWaiting: nat) {
    && r.id in done
    && jobs == s.jobs - done
    && history == s.history + FailedRows(s.jobs, r, now, done)
    && receipts == Release(s.receipts, done)
    && failures == |done - {r.id}|
    && leftWaiting == |(done - {r.id}) * InState(s.jobs, WaitingChildren)|
  }

  lemma FailsFirst(s: Store, r: FinishRequest, now: int)
    requires r.id in s.jobs
    ensures Failing(s, r, now, {r.id}, s.jobs - {r.id},
                    s.history[r.id := Archive(s.jobs[r.id], Failed, now, r.error, r.result)],
                    Release(s.receipts, {r.id}), 0, 0)
  {
    FirstFailedRow(s.jobs, s.history, r, now);
    assert {r.id} - {r.id} == {};
  }

  lemma FailsOneMore(s: Store, r: FinishRequest, now: int, done: set<Id>, jobs: Jobs, history: History,
                     receipts: Receipts, failures: nat, leftWaiting: nat, p: Id)
    requires Failing(s, r, now, done, jobs, history, receipts, failures, leftWaiting) && p in jobs
    ensures Failing(s, r, now, done + {p}, jobs - {p},
                    history[p := Archive(jobs[p], Failed, now, Some(CascadeError(r.id)), None)], Release(receipts, {p}),
                    failures + 1, leftWaiting + if jobs[p].state.WaitingChildren? then 1 else 0)
    ensures |jobs - {p}| < |jobs|
  {
    RowsLeft(s.jobs, done, p);
    ReleaseMore(s.receipts, done, p);
    FailedRowsMore(s.jobs, s.history, r, now, done, p);
    CountMore(done, r.id, p, InState(s.jobs, WaitingChildren));
  }

  lemma DoomedStep(all: set<Id>, done: set<Id>, jobs: Jobs, p: Id)
    requires p in jobs && all == done + StillDoomed(jobs, true, Some(p))
    ensures all == done + {p} + StillDoomed(jobs - {p}, jobs[p].failParent, jobs[p].card.parent)
  {
    DoomedUnfolds(jobs, p);
  }

  /**
    Moves the failing job to history, then each live ancestor in turn while the link to it is
    flagged; every round removes one live row.
   */
  method FailUpward(s: Store, r: FinishRequest, now: int)
    returns (jobs: Jobs, history: History, receipts: Receipts, failures: nat, leftWaiting: nat)
    requires r.id in s.jobs
    ensures Failing(s, r, now, Doomed(s.jobs, r.id), jobs, history, receipts, failures, leftWaiting)
  {
    var j := s.jobs[r.id];
    history := s.history[r.id := Archive(j, Failed, now, r.error, r.result)];
    jobs := s.jobs - {r.id};
    receipts := Release(s.receipts, {r.id});
    failures, leftWaiting := 0, 0;
    var flag, ancestor := j.failParent, j.card.parent;
    ghost var done := {r.id};
    FailsFirst(s, r, now);
    DoomedUnfolds(s.jobs, r.id);
    while flag
      invariant Failing(s, r, now, done, jobs, history, receipts, failures, leftWaiting)
      invariant Doomed(s.jobs, r.id) == done + StillDoomed(jobs, flag, ancestor)
      decreases |jobs|
    {
      if ancestor.None? { break; }
      var parent := ancestor.value;
      if parent !in jobs { break; }
      var row := jobs[parent];
      FailsOneMore(s, r, now, done, jobs, history, receipts, failures, leftWaiting, parent);
      DoomedStep(Doomed(s.jobs, r.id), done, jobs, parent);
      history := history[parent := Archive(row, Failed, now, Some(CascadeError(r.id)), None)];
      jobs := jobs - {parent};
      receipts := Release(receipts, {parent});
      failures := failures + 1;
      if row.state.WaitingChildren? { leftWaiting := leftWaiting + 1; }
      flag, ancestor := row.failParent, row.card.parent;
      done := done + {parent};
    }
  }

  /** The loop that counts each failed ancestor after the commit. */
  method CountFailures(g: Gauges, failures: nat) returns (g': Gauges)
    ensures g' == Shift(g, Ended(Failed), failures)
  {
    g' := g;
    for i := 0 to failures
      invariant g' == Shift(g, Ended(Failed), i)
    {
      g' := Transition(g', None, Ended(Failed));
    }
  }

  // ---- Completing a job ----

  /** Moves the job to history, takes one off its live parent's count and opens the parent's gate at zero. */
  method CompleteAndRelease(s: Store, r: FinishRequest, now: int)
    returns (jobs: Jobs, history: History, receipts: Receipts, released: Option<State>)
    requires r.id in s.jobs
    ensures jobs == Credit(s.jobs - {r.id}, s.jobs[r.id].card.parent, now)
    ensures history == s.history[r.id := Archive(s.jobs[r.id], Completed, now, s.jobs[r.id].lastError, r.result)]
    ensures receipts == Release(s.receipts, {r.id})
    ensures released == Opening(s.jobs - {r.id}, s.jobs[r.id].card.parent, now)
  {
    var j := s.jobs[r.id];
    history := s.history[r.id := Archive(j, Completed, now, j.lastError, r.result)];
    jobs := s.jobs - {r.id};
    receipts := Release(s.receipts, {r.id});
    released := None;
    if j.card.parent.Some? && j.card.parent.value in jobs {
      var parent := j.card.parent.value;
      jobs := jobs[parent := jobs[parent].(pending := jobs[parent].pending - 1)];
      var row := jobs[parent];
      if row.state.WaitingChildren? && row.pending <= 0 {
        var state := if row.availableAt > now then Delayed else Waiting;
        jobs := jobs[parent := row.(state := state)];
        released := Some(state);
      }
    }
  }

  // ---- Recovering expired claims ----

  lemma RecoveredMore(jobs: Jobs, rows: set<Id>, now: int, x: Id)
    requires x in jobs && x !in rows
    ensures RecoveredJobs(jobs, rows + {x}, now) ==
      if HasRetriesLeft(jobs[x]) then RecoveredJobs(jobs, rows, now)[x := RecoveredRow(jobs[x], now)]
      else RecoveredJobs(jobs, rows, now) - {x}
    ensures x in RecoveredJobs(jobs, rows, now) && RecoveredJobs(jobs, rows, now)[x] == jobs[x]
  {
    assert Exhausted(jobs, rows + {x}) == Exhausted(jobs, rows) + if HasRetriesLeft(jobs[x]) then {} else {x};
  }

  lemma ExpiredMore(jobs: Jobs, rows: set<Id>, now: int, x: Id)
    requires x in jobs && x !in rows
    ensures Exhausted(jobs, rows + {x}) == Exhausted(jobs, rows) + if HasRetriesLeft(jobs[x]) then {} else {x}
    ensures ExpiredRows(jobs, rows + {x}, now) ==
      if HasRetriesLeft(jobs[x]) then ExpiredRows(jobs, rows, now)
      else ExpiredRows(jobs, rows, now)[x := ArchiveExpired(jobs[x], now)]
  {
    assert Exhausted(jobs, rows + {x}) == Exhausted(jobs, rows) + if HasRetriesLeft(jobs[x]) then {} else {x};
  }

  lemma NextRow(rows: seq<Id>, i: nat)
    requires i < |rows| && forall a, b | 0 <= a < b < |rows| :: rows[a] != rows[b]
    ensures ToSet(rows[..i + 1]) == ToSet(rows[..i]) + {rows[i]} && rows[i] !in ToSet(rows[..i])
  {
    assert rows[..i + 1] == rows[..i] + [rows[i]];
  }

  lemma HistoryMore(history: History, rows: History, x: Id, a: Archived)
    ensures (history + rows)[x := a] == history + rows[x := a]
  {
  }

  lemma NothingRecovered(s: Store, now: int)
    ensures RecoveredJobs(s.jobs, {}, now) == s.jobs
    ensures s.history + ExpiredRows(s.jobs, {}, now) == s.history
    ensures Release(s.receipts, Exhausted(s.jobs, {})) == s.receipts
    ensures ToSet([]) == {}
  {
    assert ExpiredRows(s.jobs, {}, now) == map[];
    assert Exhausted(s.jobs, {}) == {};
  }

  /** The loop over a batch of expired rows: back to the queue, or to history when attempts are used up. */
  method RecoverBatch(s: Store, rows: seq<Id>, now: int) returns (jobs: Jobs, history: History, receipts: Receipts)
    requires forall i | 0 <= i < |rows| :: rows[i] in s.jobs
    requires forall a, b | 0 <= a < b < |rows| :: rows[a] != rows[b]
    ensures jobs == RecoveredJobs(s.jobs, ToSet(rows), now)
    ensures history == s.history + ExpiredRows(s.jobs, ToSet(rows), now)
    ensures receipts == Release(s.receipts, Exhausted(s.jobs, ToSet(rows)))
  {
    jobs, history, receipts := s.jobs, s.history, s.receipts;
    NothingRecovered(s, now);
    assert rows[..0] == [];
    for i := 0 to |rows|
      invariant jobs == RecoveredJobs(s.jobs, ToSet(rows[..i]), now)
      invariant history == s.history + ExpiredRows(s.jobs, ToSet(rows[..i]), now)
      invariant receipts == Release(s.receipts, Exhausted(s.jobs, ToSet(rows[..i])))
    {
      var id := rows[i];
      ghost var done := ToSet(rows[..i]);
      NextRow(rows, i);
      RecoveredMore(s.jobs, done, now, id);
      ExpiredMore(s.jobs, done, now, id);
      ReleaseMore(s.receipts, Exhausted(s.jobs, done), id);
      HistoryMore(s.history, ExpiredRows(s.jobs, done, now), id, ArchiveExpired(s.jobs[id], now));
      var j := jobs[id];
      if j.attempts < j.card.maxAttempts {
        var delay := Backoff.RetryDelay(j.retry.base, j.retry.cap, j.attempts);
        jobs := jobs[id := j.(state := if delay == 0 then Waiting else Delayed, availableAt := SatAdd(now, delay),
                              worker := None, lease := None, lastError := Some(EXPIRED))];
      } else {
        history := history[id := ArchiveExpired(j, now)];
        jobs := jobs - {id};
        receipts := Release(receipts, {id});
      }
    }
    assert rows[..|rows|] == rows;
  }

  // ---- Counting recovered claims ----

  /** Where a recovered row is counted. */
  function RecoveredLevel(j: Job, now: int): Level {
    if HasRetriesLeft(j) then Live(RecoveredRow(j, now).state) else Ended(Failed)
  }

  lemma ShareMore(jobs: Jobs, rows: set<Id>, now: int, x: Id, s: State)
    requires x in jobs && x !in rows
    ensures var a, b := Recoverable(jobs, rows) * InState(RecoveredJobs(jobs, rows, now), s),
                        Recoverable(jobs, rows + {x}) * InState(RecoveredJobs(jobs, rows + {x}, now), s);
            |b| == |a| + if HasRetriesLeft(jobs[x]) && RecoveredRow(jobs[x], now).state == s then 1 else 0
  {
    var a, b := Recoverable(jobs, rows) * InState(RecoveredJobs(jobs, rows, now), s),
                Recoverable(jobs, rows + {x}) * InState(RecoveredJobs(jobs, rows + {x}, now), s);
    RecoveredMore(jobs, rows, now, x);
    var joins := HasRetriesLeft(jobs[x]) && RecoveredRow(jobs[x], now).state == s;
    forall y: Id ensures y in b <==> y in a || (y == x && joins) {}
    if joins { assert b == a + {x}; } else { assert b == a; }
  }

  /** How many rows of a batch there are and where they went. */
  datatype Numbers = Numbers(rows: nat, waiting: nat, delayed: nat, failed: nat)

  function BackIn(jobs: Jobs, rows: set<Id>, now: int, s: State): nat {
    |Recoverable(jobs, rows) * InState(RecoveredJobs(jobs, rows, now), s)|
  }

  function NumbersOf(jobs: Jobs, rows: set<Id>, now: int): Numbers {
    Numbers(|rows|, BackIn(jobs, rows, now, Waiting), BackIn(jobs, rows, now, Delayed), |Exhausted(jobs, rows)|)
  }

  function OneMore(n: Numbers, l: Level): Numbers {
    Numbers(n.rows + 1,
            n.waiting + if l == Live(Waiting) then 1 else 0,
            n.delayed + if l == Live(Delayed) then 1 else 0,
            n.failed + if l == Ended(Failed) then 1 else 0)
  }

  function Booked(g: Gauges, n: Numbers): Gauges {
    g.(active := g.active - n.rows, waiting := g.waiting + n.waiting, delayed := g.delayed + n.delayed,
       failed := g.failed + n.failed)
  }

  lemma BookedMore(g: Gauges, n: Numbers, l: Level)
    requires l == Live(Waiting) || l == Live(Delayed) || l == Ended(Failed)
    ensures Transition(Booked(g, n), Some(Live(Active)), l) == Booked(g, OneMore(n, l))
  {
  }

  lemma LevelsOfRecovered(j: Job, now: int)
    ensures var l := RecoveredLevel(j, now); l == Live(Waiting) || l == Live(Delayed) || l == Ended(Failed)
  {
  }

  lemma NumbersMore(jobs: Jobs, rows: set<Id>, now: int, x: Id)
    requires x in jobs && x !in rows
    ensures NumbersOf(jobs, rows + {x}, now) == OneMore(NumbersOf(jobs, rows, now), RecoveredLevel(jobs[x], now))
  {
    ShareMore(jobs, rows, now, x, Waiting);
    ShareMore(jobs, rows, now, x, Delayed);
    ExpiredMore(jobs, rows, now, x);
  }

  lemma RecoveredIsBooked(g: Gauges, jobs: Jobs, rows: set<Id>, now: int)
    ensures RecoveredGauges(g, jobs, rows, now) == Booked(g, NumbersOf(jobs, rows, now))
  {
  }

  lemma NothingCounted(jobs: Jobs, now: int)
    ensures NumbersOf(jobs, ToSet([]), now) == Numbers(0, 0, 0, 0)
  {
    assert ToSet([]) == {} && Recoverable(jobs, {}) == {} && Exhausted(jobs, {}) == {};
  }

  /** Counting the rows one after the other. */
  function CountedUp(g: Gauges, jobs: Jobs, rows: seq<Id>, now: int): Gauges
    requires forall i | 0 <= i < |rows| :: rows[i] in jobs
  {
    if rows == [] then g
    else
      var n := |rows| - 1;
      Transition(CountedUp(g, jobs, rows[..n], now), Some(Live(Active)), RecoveredLevel(jobs[rows[n]], now))
  }

  function Sum(jobs: Jobs, rows: seq<Id>, now: int): Numbers
    requires forall i | 0 <= i < |rows| :: rows[i] in jobs
  {
    if rows == [] then Numbers(0, 0, 0, 0)
    else OneMore(Sum(jobs, rows[..|rows| - 1], now), RecoveredLevel(jobs[rows[|rows| - 1]], now))
  }

  lemma {:induction false} SumIsNumbers(jobs: Jobs, rows: seq<Id>, now: int)
    requires (forall i | 0 <= i < |rows| :: rows[i] in jobs) && forall a, b | 0 <= a < b < |rows| :: rows[a] != rows[b]
    ensures Sum(jobs, rows, now) == NumbersOf(jobs, ToSet(rows), now)
  {
    if rows == [] {
      NothingCounted(jobs, now);
    } else {
      var n := |rows| - 1;
      SumIsNumbers(jobs, rows[..n], now);
      NextRow(rows, n);
      assert rows[..n + 1] == rows;
      NumbersMore(jobs, ToSet(rows[..n]), now, rows[n]);
    }
  }

  lemma {:induction false} CountedUpIsSum(g: Gauges, jobs: Jobs, rows: seq<Id>, now: int)
    requires forall i | 0 <= i < |rows| :: rows[i] in jobs
    ensures CountedUp(g, jobs, rows, now) == Booked(g, Sum(jobs, rows, now))
  {
    if rows != [] {
      var n := |rows| - 1;
      CountedUpIsSum(g, jobs, rows[..n], now);
      LevelsOfRecovered(jobs[rows[n]], now);
      BookedMore(g, Sum(jobs, rows[..n], now), RecoveredLevel(jobs[rows[n]], now));
    }
  }

  /** The loop that counts each recovered row after the commit. */
  method CountRecovered(g: Gauges, jobs: Jobs, rows: seq<Id>, now: int) returns (g': Gauges)
    requires (forall i | 0 <= i < |rows| :: rows[i] in jobs) && forall a, b | 0 <= a < b < |rows| :: rows[a] != rows[b]
    ensures g' == RecoveredGauges(g, jobs, ToSet(rows), now)
  {
    g' := g;
    for i := 0 to |rows|
      invariant g' == CountedUp(g, jobs, rows[..i], now)
    {
      var j := jobs[rows[i]];
      assert rows[..i + 1][..i] == rows[..i];
      var retry := j.attempts < j.card.maxAttempts;
      var delay := Backoff.RetryDelay(j.retry.base, j.retry.cap, j.attempts);
      var to := if !retry then Ended(Failed) else if delay == 0 then Live(Waiting) else Live(Delayed);
      g' := Transition(g', Some(Live(Active)), to);
    }
    assert rows[..|rows|] == rows;
    CountedUpIsRecovered(g, jobs, rows, now);
  }

  lemma CountedUpIsRecovered(g: Gauges, jobs: Jobs, rows: seq<Id>, now: int)
    requires (forall i | 0 <= i < |rows| :: rows[i] in jobs) && forall a, b | 0 <= a < b < |rows| :: rows[a] != rows[b]
    ensures CountedUp(g, jobs, rows, now) == RecoveredGauges(g, jobs, ToSet(rows), now)
  {
    CountedUpIsSum(g, jobs, rows, now);
    SumIsNumbers(jobs, rows, now);
    RecoveredIsBooked(g, jobs, ToSet(rows), now);
  }

  // ---- Batches ----

  lemma {:induction false} ValidPrefix(cfg: Config, rs: seq<AddJobRequest>, n: nat)
    requires n <= |rs| && ValidateAll(cfg, rs[..n]).Err?
    ensures ValidateAll(cfg, rs) == ValidateAll(cfg, rs[..n])
    decreases |rs| - n
  {
    if n == |rs| {
      assert rs[..n] == rs;
    } else {
      assert rs[..n + 1][..n] == rs[..n];
      ValidPrefix(cfg, rs, n + 1);
    }
  }

  /** Validates every request before any transaction is opened. */
  method ValidateBatch(cfg: Config, rs: seq<AddJobRequest>) returns (valid: Reply<seq<AddJobRequest>>)
    ensures valid == ValidateAll(cfg, rs)
  {
    var done := [];
    for i := 0 to |rs|
      invariant ValidateAll(cfg, rs[..i]) == Ok(done)
    {
      assert rs[..i + 1][..i] == rs[..i];
      var one := Validate(cfg, rs[i]);
      if one.Err? {
        ValidPrefix(cfg, rs, i + 1);
        return Err(one.code);
      }
      done := done + [one.value];
    }
    assert rs[..|rs|] == rs;
    return Ok(done);
  }

  lemma {:induction false} UndonePrefix(cfg: Config, s: Store, items: seq<Item>, now: int, n: nat)
    requires n <= |items| && EnqueueAll(cfg, s, items[..n], now).Undone?
    ensures EnqueueAll(cfg, s, items, now) == EnqueueAll(cfg, s, items[..n], now)
    decreases |items| - n
  {
    if n == |items| {
      assert items[..n] == items;
    } else {
      assert items[..n + 1][..n] == items[..n];
      UndonePrefix(cfg, s, items, now, n + 1);
    }
  }

  /** Enqueues the requests in turn and stops at the first that fails, leaving the rollback to the caller. */
  method ExecuteBatch(cfg: Config, s: Store, items: seq<Item>, now: int) returns (b: Batch)
    ensures b == EnqueueAll(cfg, s, items, now)
  {
    var tx, replies := s, [];
    for i := 0 to |items|
      invariant EnqueueAll(cfg, s, items[..i], now) == Done(tx, replies)
    {
      assert items[..i + 1][..i] == items[..i];
      var a := AdmitJob(cfg, tx, items[i], now);
      match a
      case Admitted(t, reply) => tx, replies := t, replies + [reply];
      case Refused(code) =>
        UndonePrefix(cfg, s, items, now, i + 1);
        return Undone(code, None);
      case Rejected(code, record) =>
        UndonePrefix(cfg, s, items, now, i + 1);
        return Undone(code, Some(record));
    }
    assert items[..|items|] == items;
    return Done(tx, replies);
  }

  /** `enqueue_one`, statement by statement. */
  method AdmitJob(cfg: Config, s: Store, item: Item, now: int) returns (a: Admission)
    ensures a == EnqueueOne(cfg, s, item.request, item.id, item.freshTrace, now)
  {
    var r := item.request;
    var slot := Slot(r.name, r.key);
    if r.key != "" && slot in s.receipts {
      var kept := s.receipts[slot];
      if kept.request != r { return Enqueue.Refused(AlreadyExists); }
      return Admitted(s, AddReply(kept.jobId, kept.initialState, true));
    }
    var counts := s.ingressCounts;
    if r.facet != "" {
      var admitted := Ingress.Admit(s.ingressRules, counts, r.facet, now);
      if admitted.None? {
        return Rejected(ResourceExhausted, Rejection(now, IngressVelocity, r.name, None, None, None, Some(r.facet)));
      }
      counts := admitted.value;
    }
    assert Quota(s, r, now) == Some(counts);
    if now + r.delayMs > I64_MAX { return Enqueue.Refused(InvalidArgument); }
    var place := Locate(s, r, item.freshTrace);
    match place
    case NoParent =>
      return Rejected(FailedPrecondition, Rejection(now, ParentNotFound, r.name, None, ParentOf(r), None, None));
    case WrongDepth(trace) =>
      return Rejected(InvalidArgument,
                      Rejection(now, InconsistentDepth, r.name, Some(trace), ParentOf(r), Some(r.metadata.depth),
                                None));
    case Placed(depth, trace) =>
      if depth > cfg.maxExecutionDepth {
        return Rejected(ResourceExhausted,
                        Rejection(now, CircuitBreaker, r.name, Some(trace), ParentOf(r), Some(depth), None));
      }
      if cfg.maxChainSize > 0 && ChainSize(s.chains, trace) >= cfg.maxChainSize {
        return Rejected(ResourceExhausted,
                        Rejection(now, ChainQuarantine, r.name, Some(trace), ParentOf(r), Some(depth), None));
      }
      var tx := InsertJob(cfg, s, counts, item, depth, trace, now);
      a := Admitted(tx, AddReply(item.id, SoloJob(r, depth, trace, now).state, false));
  }

  /** The lineage the server derives for a request. */
  method Locate(s: Store, r: AddJobRequest, freshTrace: string) returns (place: Ancestry)
    ensures place == Trace(s.jobs, s.history, r, freshTrace)
  {
    if r.metadata.parentId == "" {
      return Placed(r.metadata.depth, if r.metadata.traceId == "" then freshTrace else r.metadata.traceId);
    }
    var p := r.metadata.parentId;
    var card;
    if p in s.jobs {
      card := s.jobs[p].card;
    } else if p in s.history {
      card := s.history[p].card;
    } else {
      return NoParent;
    }
    if r.metadata.depth != 0 && r.metadata.depth != card.depth + 1 { return WrongDepth(card.trace); }
    return Placed(card.depth + 1, card.trace);
  }

  /** The writes of an admitted job. */
  method InsertJob(cfg: Config, s: Store, counts: map<string, Bucket>, item: Item, depth: nat, trace: string, now: int)
    returns (tx: Store)
    ensures tx == Store1(cfg, s, counts, item.request, depth, trace, item.id, now)
  {
    var r, j := item.request, SoloJob(item.request, depth, trace, now);
    var chains := s.chains;
    if cfg.maxChainSize > 0 {
      chains := chains[trace := ChainRow(ChainSize(chains, trace) + 1, now)];
    }
    var jobs := s.jobs[item.id := j];
    var receipts := s.receipts;
    if r.key != "" {
      receipts := receipts[Slot(r.name, r.key) := Receipt(r, item.id, j.state, now, r.releaseOnFinish)];
    }
    tx := s.(jobs := jobs, receipts := receipts, chains := chains, ingressCounts := counts,
             gauges := Transition(s.gauges, None, Live(j.state)));
  }
}
