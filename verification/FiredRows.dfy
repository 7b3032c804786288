/**
  A scheduler's fire row by row: the job it stores and what it writes down.
 */
module FiredRows {
  import opened Tables
  import opened Enqueue
  import opened AdmittedRows
  import Timers = Scheduler

  /** A root job that does what the scheduler says, due at once. */
  predicate AsScheduled(j: Job, row: Scheduler, trace: string, now: int) {
    && j.card.name == row.jobName && j.card.payload == row.payload
    && j.card.priority == (if row.priority.Some? then row.priority.value else 0)
    && j.card.maxAttempts == (if row.maxAttempts.Some? && row.maxAttempts.value > 0 then row.maxAttempts.value else 3)
    && j.card.facet == (if row.facet.Some? && row.facet.value != "" then row.facet else None)
    && j.card.parent.None? && j.card.depth == 0 && j.card.trace == trace && j.card.createdAt == now
    && j.retry.base == (if row.backoffMs.Some? then row.backoffMs.value else 0)
    && j.retry.jitter == (if row.jitter.Some? then row.jitter.value else 0.0)
    && j.retry.cap == (if row.backoffMaxMs.Some? && row.backoffMaxMs.value > 0 then row.backoffMaxMs.value
                       else if j.retry.base > 60_000 then j.retry.base else 60_000)
    && j.availableAt == now && j.state.Waiting? && AtRest(j)
    && j.pending == 0 && !j.failParent && j.treeId.None? && j.treeDepth == 0
  }

  /** A fire stores one such job and no receipt, and advances its own row and no other. */
  lemma FireStores(cfg: Config, next: Timers.Cron, s: Store, id: Id, row: Scheduler, job: Id, trace: string, now: int)
    requires id in s.schedulers && s.schedulers[id] == row
    requires Timers.Fire(cfg, next, s, id, row, job, trace, now).Some?
    ensures var t := Timers.Fire(cfg, next, s, id, row, job, trace, now).value;
            && job in t.jobs && t.jobs == s.jobs[job := t.jobs[job]] && AsScheduled(t.jobs[job], row, trace, now)
            && t.receipts == s.receipts
    ensures var t := Timers.Fire(cfg, next, s, id, row, job, trace, now).value;
            var occurrence := next(row.cron, if row.timezone.Some? then row.timezone.value else "", now);
            && occurrence.Some?
            && t.schedulers == s.schedulers[id := row.(nextRun := occurrence, produced := row.produced + 1,
                                                       lastJob := Some(job), updatedAt := now)]
  {
    var r := Timers.BuildRequest(row);
    var v := Validate(cfg, r).value;
    ValidExactly(cfg, r);
    NewRow(cfg, s, v, job, trace, now);
  }
}
