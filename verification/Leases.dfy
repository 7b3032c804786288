/**
  Worker leases: heartbeats renew them, and a recovery pass takes back the
  claims whose lease ran out, oldest first and at most a batch at a time.
 */
module Leases {
  import opened Tables
  import opened Telemetry
  import opened Backoff
  import opened Queries
  import opened Lifecycle
  import opened Finish

  // ---- Heartbeat ----

  datatype HeartbeatRequest = HeartbeatRequest(id: Id, worker: string, attempt: nat)

  function JudgeHeartbeat(s: Store, r: HeartbeatRequest, now: int): Verdict {
    if Blank(r.id) || Blank(r.worker) || r.attempt == 0 then Refused(InvalidArgument)
    else if r.id !in s.jobs then Refused(if r.id in s.history then FailedPrecondition else NotFound)
    else
      var j := s.jobs[r.id];
      if !j.state.Active? then Refused(FailedPrecondition)
      else if j.worker != Some(r.worker) then Refused(PermissionDenied)
      else if j.attempts != r.attempt || j.lease.None? || j.lease.value <= now then Refused(FailedPrecondition)
      else Accepted
  }

  /** A lease is never shortened, even if the clock has moved back. */
  function Extended(lease: Option<int>, until: int): int {
    if lease.Some? && lease.value > until then lease.value else until
  }

  function Heartbeat(cfg: Config, s: Store, r: HeartbeatRequest, now: int): (Store, Reply<int>) {
    match JudgeHeartbeat(s, r, now)
    case Refused(code) => (s, Err(code))
    case _ =>
      if r.id in s.jobs then
        var until := Extended(s.jobs[r.id].lease, now + cfg.leaseMs);
        (s.(jobs := s.jobs[r.id := s.jobs[r.id].(lease := Some(until))]), Ok(until))
      else (s, Err(NotFound))
  }

  function HeartbeatMove(s: Store, r: HeartbeatRequest, now: int): Move {
    if JudgeHeartbeat(s, r, now).Accepted? then Renew(r.id) else Quiet
  }

  lemma LeaseRenews(jobs: Jobs, id: Id, until: int)
    requires Held(jobs, id)
    ensures Renews(jobs, id, jobs[id := jobs[id].(lease := Some(until))])
  {
  }

  lemma HeartbeatIsMove(cfg: Config, v: View, s: Store, r: HeartbeatRequest, now: int)
    requires v.jobs == s.jobs && v.history == s.history
    ensures var t := Heartbeat(cfg, s, r, now).0; Happens(cfg, v, HeartbeatMove(s, r, now), t.jobs, t.history)
  {
    if JudgeHeartbeat(s, r, now).Accepted? {
      LeaseRenews(s.jobs, r.id, Extended(s.jobs[r.id].lease, now + cfg.leaseMs));
    }
  }

  /**
    The lease of one running job was moved to `until`, never backwards and at least a full lease ahead, and
    nothing else changed.
   */
  predicate Extends(cfg: Config, s: Store, t: Store, id: Id, now: int, until: int) {
    && Held(s.jobs, id) && s.jobs[id].lease.Some? && now < s.jobs[id].lease.value
    && until >= s.jobs[id].lease.value && until >= now + cfg.leaseMs
    && (until == s.jobs[id].lease.value || until == now + cfg.leaseMs)
    && id in t.jobs && t.jobs == s.jobs[id := t.jobs[id]] && t == s.(jobs := t.jobs)
    && t.jobs[id] == s.jobs[id].(lease := Some(until))
  }

  /** A heartbeat is accepted only for the running claim it names, and never shortens its lease. */
  lemma HeartbeatExtends(cfg: Config, s: Store, r: HeartbeatRequest, now: int)
    ensures var (t, reply) := Heartbeat(cfg, s, r, now);
            && (reply.Ok? ==> Extends(cfg, s, t, r.id, now, reply.value) && s.jobs[r.id].attempts == r.attempt
                              && s.jobs[r.id].worker == Some(r.worker))
            && (reply.Err? ==> t == s)
  {
    if JudgeHeartbeat(s, r, now).Accepted? {
      var until := Extended(s.jobs[r.id].lease, now + cfg.leaseMs);
      assert until >= s.jobs[r.id].lease.value;
    }
  }

  // ---- Recovery ----

  const EXPIRED := "Worker lease expired"

  function ExpiredKeys(jobs: Jobs, now: int): (keys: Keys)
    ensures Sorted(keys, 1)
  {
    map id | id in jobs && jobs[id].state.Active? && jobs[id].lease.Some? && jobs[id].lease.value <= now ::
      [jobs[id].lease.value] + Text(id)
  }

  function ToSet(rows: seq<Id>): set<Id> {
    set id | id in rows
  }

  /** The rows a pass works on: expired claims ordered by lease and id, cut to the batch. */
  function ExpiredBatch(jobs: Jobs, now: int, batch: nat): seq<Id> {
    Take(ExpiredKeys(jobs, now), 1, batch)
  }

  function ExpiredDelay(j: Job): int {
    RetryDelay(j.retry.base, j.retry.cap, j.attempts)
  }

  function RecoveredRow(j: Job, now: int): Job {
    RetryRow(j, Some(EXPIRED), now, ExpiredDelay(j))
  }

  predicate HasRetriesLeft(j: Job) {
    j.attempts < j.card.maxAttempts
  }

  function Recoverable(jobs: Jobs, rows: set<Id>): set<Id> {
    set id | id in rows && id in jobs && HasRetriesLeft(jobs[id])
  }

  function Exhausted(jobs: Jobs, rows: set<Id>): set<Id> {
    set id | id in rows && id in jobs && !HasRetriesLeft(jobs[id])
  }

  function RecoveredJobs(jobs: Jobs, rows: set<Id>, now: int): Jobs {
    map id | id in jobs && id !in Exhausted(jobs, rows) ::
      if id in rows then RecoveredRow(jobs[id], now) else jobs[id]
  }

  function ExpiredRows(jobs: Jobs, rows: set<Id>, now: int): History {
    map id | id in Exhausted(jobs, rows) && id in jobs :: ArchiveExpired(jobs[id], now)
  }

  function RecoveredGauges(g: Gauges, jobs: Jobs, rows: set<Id>, now: int): Gauges {
    var back := Recoverable(jobs, rows);
    var after := RecoveredJobs(jobs, rows, now);
    g.(active := g.active - |rows|,
       waiting := g.waiting + |back * InState(after, Waiting)|,
       delayed := g.delayed + |back * InState(after, Delayed)|,
       failed := g.failed + |Exhausted(jobs, rows)|)
  }

  /** All rows of the batch at once. */
  function RecoverRows(s: Store, rows: set<Id>, now: int): Store {
    s.(jobs := RecoveredJobs(s.jobs, rows, now),
       history := s.history + ExpiredRows(s.jobs, rows, now),
       receipts := Release(s.receipts, Exhausted(s.jobs, rows)),
       gauges := RecoveredGauges(s.gauges, s.jobs, rows, now))
  }

  function Recover(s: Store, batch: nat, now: int): Store {
    RecoverRows(s, ToSet(ExpiredBatch(s.jobs, now, batch)), now)
  }

  function RecoverMove(s: Store, batch: nat, now: int): Move {
    var rows := ToSet(ExpiredBatch(s.jobs, now, batch));
    Settle(Recoverable(s.jobs, rows), Exhausted(s.jobs, rows))
  }

  /** A recovery pass only takes back claims, and only those whose lease has run out. */
  lemma BatchIsExpired(jobs: Jobs, now: int, batch: nat)
    ensures forall id | id in ToSet(ExpiredBatch(jobs, now, batch)) ::
              id in jobs && jobs[id].state.Active? && jobs[id].lease.Some? && jobs[id].lease.value <= now
    ensures |ExpiredBatch(jobs, now, batch)| <= batch
  {
    var rows := ExpiredBatch(jobs, now, batch);
    TakeRows(ExpiredKeys(jobs, now), 1, batch);
    forall id | id in ToSet(rows) ensures id in ExpiredKeys(jobs, now) {
      var i :| 0 <= i < |rows| && rows[i] == id;
    }
  }

  lemma RowsSettle(v: View, rows: set<Id>, now: int)
    requires forall id | id in rows :: Held(v.jobs, id)
    ensures Settles(v, Recoverable(v.jobs, rows), Exhausted(v.jobs, rows),
                    RecoveredJobs(v.jobs, rows, now), v.history + ExpiredRows(v.jobs, rows, now))
  {
    var back, dead := Recoverable(v.jobs, rows), Exhausted(v.jobs, rows);
    assert ExpiredRows(v.jobs, rows, now).Keys == dead;
    assert RecoveredJobs(v.jobs, rows, now).Keys == v.jobs.Keys - dead;
    assert back + dead == rows;
  }

  lemma RecoverIsMove(cfg: Config, v: View, s: Store, batch: nat, now: int)
    requires v.jobs == s.jobs && v.history == s.history
    ensures Happens(cfg, v, RecoverMove(s, batch, now), Recover(s, batch, now).jobs, Recover(s, batch, now).history)
  {
    BatchIsExpired(s.jobs, now, batch);
    RowsSettle(v, ToSet(ExpiredBatch(s.jobs, now, batch)), now);
  }

  /** A pass leaves an expired claim only if the batch is full of claims that expired no later. */
  lemma OldestFirst(jobs: Jobs, now: int, batch: nat, y: Id)
    requires y in jobs && jobs[y].state.Active? && jobs[y].lease.Some? && jobs[y].lease.value <= now
    requires y !in ExpiredBatch(jobs, now, batch)
    ensures |ExpiredBatch(jobs, now, batch)| == batch
    ensures forall x | x in ExpiredBatch(jobs, now, batch) ::
              x in jobs && jobs[x].lease.Some? && jobs[x].lease.value <= jobs[y].lease.value
  {
    var keys, rows := ExpiredKeys(jobs, now), ExpiredBatch(jobs, now, batch);
    TakeFull(keys, 1, batch, y);
    forall x | x in rows ensures x in jobs && jobs[x].lease.Some? && jobs[x].lease.value <= jobs[y].lease.value {
      var i :| 0 <= i < |rows| && rows[i] == x;
      TakeFirst(keys, 1, batch, i, y);
    }
  }

  lemma {:induction false} SeqSize(rows: seq<Id>)
    requires forall i, j | 0 <= i < j < |rows| :: rows[i] != rows[j]
    ensures |ToSet(rows)| == |rows|
  {
    if rows != [] {
      var n := |rows| - 1;
      SeqSize(rows[..n]);
      assert ToSet(rows) == ToSet(rows[..n]) + {rows[n]};
    }
  }
}
