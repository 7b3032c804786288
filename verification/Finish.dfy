/**
  `finish_job`: the shared end of CompleteJob and FailJob.  A request is fenced
  by state, owner, attempt and lease; an accepted one retries the job, or moves
  it to history and then either credits its parent or fails its ancestors.
 */
module Finish {
  import opened Tables
  import opened Telemetry
  import opened Backoff
  import opened Lifecycle

  datatype FinishRequest = FinishRequest(
    id: Id,
    worker: string,
    attempt: nat,
    error: Option<string>,
    nonRetryable: bool,
    result: Option<Bytes>)

  datatype Verdict = Refused(code: Code) | Replayed | Accepted

  /** Attempt 0 comes from clients that predate attempt tokens and means the first claim. */
  function Claimed(attempt: nat): nat {
    if attempt == 0 then 1 else attempt
  }

  function JudgeArchived(history: History, r: FinishRequest): Verdict {
    if r.id !in history then Refused(NotFound)
    else
      var a := history[r.id];
      if r.error.None? && a.outcome.Completed? && a.worker == Some(r.worker) && a.attempts == Claimed(r.attempt)
      then Replayed else Refused(FailedPrecondition)
  }

  function Judge(s: Store, r: FinishRequest, now: int): Verdict {
    if Blank(r.id) || Blank(r.worker) then Refused(InvalidArgument)
    else if r.id !in s.jobs then JudgeArchived(s.history, r)
    else
      var j := s.jobs[r.id];
      if !j.state.Active? then Refused(FailedPrecondition)
      else if j.worker != Some(r.worker) then Refused(PermissionDenied)
      else if Claimed(r.attempt) != j.attempts then Refused(FailedPrecondition)
      else if j.lease.None? || j.lease.value <= now then Refused(FailedPrecondition)
      else Accepted
  }

  predicate Retries(j: Job, r: FinishRequest) {
    r.error.Some? && j.attempts < j.card.maxAttempts && !r.nonRetryable
  }

  function RetryRow(j: Job, error: Option<string>, now: int, delay: int): Job {
    j.(state := if delay == 0 then Waiting else Delayed,
       availableAt := SatAdd(now, delay),
       worker := None,
       lease := None,
       lastError := error)
  }

  /** `DELETE FROM enqueue_receipts WHERE job_id = ... AND release_on_finish = 1`, for each dead job. */
  function Release(receipts: Receipts, dead: set<Id>): Receipts {
    map slot | slot in receipts && !(receipts[slot].releaseOnFinish && receipts[slot].jobId in dead) :: receipts[slot]
  }

  // ---- Failing ----

  /** The failing job and the unbroken chain of live ancestors reached through flagged links. */
  function Doomed(jobs: Jobs, id: Id): set<Id>
    requires id in jobs
    decreases |jobs|
  {
    var j, rest := jobs[id], jobs - {id};
    assert jobs.Keys == rest.Keys + {id};
    if j.failParent && j.card.parent.Some? && j.card.parent.value in rest
    then {id} + Doomed(rest, j.card.parent.value)
    else {id}
  }

  function CascadeError(id: Id): string {
    "failParentOnFailure: child " + id + " failed"
  }

  function FailedRow(jobs: Jobs, r: FinishRequest, now: int, d: Id): Archived
    requires d in jobs
  {
    if d == r.id then Archive(jobs[d], Failed, now, r.error, r.result)
    else Archive(jobs[d], Failed, now, Some(CascadeError(r.id)), None)
  }

  function FailedRows(jobs: Jobs, r: FinishRequest, now: int, dead: set<Id>): History {
    map d | d in dead && d in jobs :: FailedRow(jobs, r, now, d)
  }

  function Fail(s: Store, r: FinishRequest, now: int): Store
    requires r.id in s.jobs
  {
    var dead := Doomed(s.jobs, r.id);
    var parents := dead - {r.id};
    var g := Transition(s.gauges, Some(Live(Active)), Ended(Failed));
    s.(jobs := s.jobs - dead,
       history := s.history + FailedRows(s.jobs, r, now, dead),
       receipts := Release(s.receipts, dead),
       gauges := Shift(Telemetry.Parked(g, -|parents * InState(s.jobs, WaitingChildren)|), Ended(Failed), |parents|))
  }

  // ---- Completing ----

  /** The state a completed child moves its parent to, if the parent's gate opens. */
  function Opening(jobs: Jobs, parent: Option<Id>, now: int): Option<State> {
    if parent.Some? && parent.value in jobs && jobs[parent.value].state.WaitingChildren?
       && jobs[parent.value].pending - 1 <= 0
    then Some(if jobs[parent.value].availableAt > now then Delayed else Waiting)
    else None
  }

  function Succeed(s: Store, r: FinishRequest, now: int): Store
    requires r.id in s.jobs
  {
    var j := s.jobs[r.id];
    var rest := s.jobs - {r.id};
    var g := Transition(s.gauges, Some(Live(Active)), Ended(Completed));
    var gate := Opening(rest, j.card.parent, now);
    s.(jobs := Credit(rest, j.card.parent, now),
       history := s.history[r.id := Archive(j, Completed, now, j.lastError, r.result)],
       receipts := Release(s.receipts, {r.id}),
       gauges := if gate.None? then g else Transition(Telemetry.Parked(g, -1), None, Live(gate.value)))
  }

  function RetryLater(s: Store, r: FinishRequest, now: int, rand: real): Store
    requires r.id in s.jobs
  {
    var j := s.jobs[r.id];
    var row := RetryRow(j, r.error, now,
                        ApplyJitter(RetryDelay(j.retry.base, j.retry.cap, j.attempts), j.retry.jitter, rand));
    s.(jobs := s.jobs[r.id := row], gauges := Transition(s.gauges, Some(Live(Active)), Live(row.state)))
  }

  /** The whole call: the new database and whether the job was moved to Failed. */
  function FinishJob(s: Store, r: FinishRequest, now: int, rand: real): (Store, Reply<bool>) {
    match Judge(s, r, now)
    case Refused(code) => (s, Err(code))
    case Replayed => (s, Ok(false))
    case Accepted =>
      if Retries(s.jobs[r.id], r) then (RetryLater(s, r, now, rand), Ok(false))
      else if r.error.Some? then (Fail(s, r, now), Ok(true))
      else (Succeed(s, r, now), Ok(false))
  }

  // ---- The cascade against its description ----

  lemma DoomedAreLive(jobs: Jobs, id: Id)
    requires id in jobs
    ensures id in Doomed(jobs, id) && Doomed(jobs, id) <= jobs.Keys
    decreases |jobs|
  {
    var rest := jobs - {id};
    assert jobs.Keys == rest.Keys + {id};
    if jobs[id].failParent && jobs[id].card.parent.Some? && jobs[id].card.parent.value in rest {
      DoomedAreLive(rest, jobs[id].card.parent.value);
    }
  }

  /** Closed under: a flagged member's live parent is a member. */
  predicate ClosedUpward(jobs: Jobs, dead: set<Id>) {
    forall d | d in dead && d in jobs && jobs[d].failParent && jobs[d].card.parent.Some?
               && jobs[d].card.parent.value in jobs :: jobs[d].card.parent.value in dead
  }

  lemma {:induction false} DoomedIsClosed(jobs: Jobs, id: Id)
    requires id in jobs
    ensures ClosedUpward(jobs, Doomed(jobs, id))
    decreases |jobs|
  {
    var rest := jobs - {id};
    assert jobs.Keys == rest.Keys + {id};
    var j, dead := jobs[id], Doomed(jobs, id);
    if j.failParent && j.card.parent.Some? && j.card.parent.value in rest {
      DoomedIsClosed(rest, j.card.parent.value);
      DoomedAreLive(rest, j.card.parent.value);
      forall d | d in dead && d in jobs && jobs[d].failParent && jobs[d].card.parent.Some?
                 && jobs[d].card.parent.value in jobs ensures jobs[d].card.parent.value in dead {
        if d != id && jobs[d].card.parent.value != id {
          assert d in Doomed(rest, j.card.parent.value) && rest[d] == jobs[d];
        }
      }
    }
  }

  /** The cascade takes nobody beyond the chain: it is the least closed set holding the failing job. */
  lemma {:induction false} DoomedIsLeast(jobs: Jobs, id: Id, other: set<Id>)
    requires id in jobs && id in other && ClosedUpward(jobs, other)
    ensures Doomed(jobs, id) <= other
    decreases |jobs|
  {
    var rest := jobs - {id};
    assert jobs.Keys == rest.Keys + {id};
    var j := jobs[id];
    if j.failParent && j.card.parent.Some? && j.card.parent.value in rest {
      DoomedIsLeast(rest, j.card.parent.value, other);
    }
  }

  /** Each job of the path but the last is flagged and has the next one for its live parent. */
  predicate FlaggedPath(jobs: Jobs, path: seq<Id>) {
    && |path| > 0 && (forall i | 0 <= i < |path| :: path[i] in jobs)
    && forall i | 0 <= i < |path| - 1 :: jobs[path[i]].failParent && jobs[path[i]].card.parent == Some(path[i + 1])
  }

  ghost predicate FailsWith(jobs: Jobs, id: Id, x: Id) {
    exists path: seq<Id> :: FlaggedPath(jobs, path) && path[0] == id && path[|path| - 1] == x
  }

  lemma {:induction false} PathStaysIn(jobs: Jobs, path: seq<Id>, dead: set<Id>)
    requires FlaggedPath(jobs, path) && path[0] in dead && ClosedUpward(jobs, dead)
    ensures path[|path| - 1] in dead
  {
    if |path| > 1 {
      assert path[1] in jobs && jobs[path[0]].card.parent == Some(path[1]);
      PathStaysIn(jobs, path[1..], dead);
    }
  }

  lemma PathGrows(jobs: Jobs, id: Id, x: Id, p: Id)
    requires FailsWith(jobs, id, x) && x in jobs && jobs[x].failParent && jobs[x].card.parent == Some(p) && p in jobs
    ensures FailsWith(jobs, id, p)
  {
    var path: seq<Id> :| FlaggedPath(jobs, path) && path[0] == id && path[|path| - 1] == x;
    var longer := path + [p];
    assert FlaggedPath(jobs, longer) && longer[0] == id && longer[|longer| - 1] == p;
  }

  /** A failure takes exactly the jobs that an unbroken path of flagged links leads to. */
  lemma DoomedByPath(jobs: Jobs, id: Id, x: Id)
    requires id in jobs
    ensures x in Doomed(jobs, id) <==> FailsWith(jobs, id, x)
  {
    DoomedIsClosed(jobs, id);
    DoomedAreLive(jobs, id);
    if FailsWith(jobs, id, x) {
      var path: seq<Id> :| FlaggedPath(jobs, path) && path[0] == id && path[|path| - 1] == x;
      PathStaysIn(jobs, path, Doomed(jobs, id));
    }
    var reached := set y | y in jobs && FailsWith(jobs, id, y);
    assert id in reached by { assert FlaggedPath(jobs, [id]); }
    forall d | d in reached && d in jobs && jobs[d].failParent && jobs[d].card.parent.Some?
               && jobs[d].card.parent.value in jobs ensures jobs[d].card.parent.value in reached {
      PathGrows(jobs, id, d, jobs[d].card.parent.value);
    }
    DoomedIsLeast(jobs, id, reached);
  }

  /** An accepted failure that is not retried. */
  predicate FailsTerminally(s: Store, r: FinishRequest, now: int) {
    Judge(s, r, now).Accepted? && r.error.Some? && !Retries(s.jobs[r.id], r)
  }

  /** The columns a history row takes over from the live row. */
  predicate CarriedOver(j: Job, a: Archived) {
    && a.card == j.card && a.attempts == j.attempts && a.worker == j.worker
    && a.failParent == j.failParent && a.treeId == j.treeId && a.treeDepth == j.treeDepth
  }

  /**
    A terminal failure moves the jobs on the flagged path to history as failed, each with its error, and
    leaves every other row as it was.
   */
  lemma FailureTakes(s: Store, r: FinishRequest, now: int, rand: real, x: Id)
    requires FailsTerminally(s, r, now)
    ensures var (t, reply) := FinishJob(s, r, now, rand);
            && reply == Ok(true)
            && (FailsWith(s.jobs, r.id, x) ==>
                  && x in s.jobs && x !in t.jobs && x in t.history && CarriedOver(s.jobs[x], t.history[x])
                  && t.history[x].outcome.Failed? && t.history[x].finishedAt == now
                  && t.history[x].lastError == (if x == r.id then r.error
                                                else Some("failParentOnFailure: child " + r.id + " failed"))
                  && t.history[x].result == if x == r.id then r.result else None)
            && (!FailsWith(s.jobs, r.id, x) ==>
                  Lookup(t.jobs, x) == Lookup(s.jobs, x) && Lookup(t.history, x) == Lookup(s.history, x))
  {
    DoomedByPath(s.jobs, r.id, x);
    DoomedAreLive(s.jobs, r.id);
  }

  lemma NoPathOut(jobs: Jobs, id: Id, x: Id)
    requires id in jobs && !jobs[id].failParent
    ensures FailsWith(jobs, id, x) ==> x == id
  {
    if FailsWith(jobs, id, x) {
      var path: seq<Id> :| FlaggedPath(jobs, path) && path[0] == id && path[|path| - 1] == x;
      assert |path| == 1;
    }
  }

  /** An unflagged failure takes only the failing job, whatever it has for a parent, and only its own receipt. */
  lemma UnflaggedFailsAlone(s: Store, r: FinishRequest, now: int, rand: real, x: Id, slot: Slot)
    requires FailsTerminally(s, r, now) && !s.jobs[r.id].failParent
    ensures var t := FinishJob(s, r, now, rand).0;
            && r.id !in t.jobs && r.id in t.history && t.history[r.id].lastError == r.error
            && (x != r.id ==> Lookup(t.jobs, x) == Lookup(s.jobs, x) && Lookup(t.history, x) == Lookup(s.history, x))
            && (slot in t.receipts <==>
                slot in s.receipts && !(s.receipts[slot].releaseOnFinish && s.receipts[slot].jobId == r.id))
            && (slot in t.receipts ==> t.receipts[slot] == s.receipts[slot])
  {
    assert FlaggedPath(s.jobs, [r.id]);
    FailureTakes(s, r, now, rand, r.id);
    FailureTakes(s, r, now, rand, x);
    NoPathOut(s.jobs, r.id, x);
  }

  // ---- The call is a move of the job machine ----

  function FinishMove(s: Store, r: FinishRequest, now: int): Move {
    if !Judge(s, r, now).Accepted? then Quiet
    else if Retries(s.jobs[r.id], r) then Settle({r.id}, {})
    else if r.error.Some? then Settle({}, Doomed(s.jobs, r.id))
    else Complete(r.id, now)
  }

  lemma DeathsSettle(v: View, dead: set<Id>, r: FinishRequest, now: int)
    requires dead <= v.jobs.Keys
    ensures Settles(v, {}, dead, v.jobs - dead, v.history + FailedRows(v.jobs, r, now, dead))
  {
    var rows := FailedRows(v.jobs, r, now, dead);
    assert rows.Keys == dead;
    forall d | d in dead ensures rows[d].outcome.Failed? && Recorded(v.jobs[d], rows[d]) {}
  }

  lemma FailIsMove(v: View, s: Store, r: FinishRequest, now: int)
    requires v.jobs == s.jobs && v.history == s.history && r.id in s.jobs
    ensures Settles(v, {}, Doomed(s.jobs, r.id), Fail(s, r, now).jobs, Fail(s, r, now).history)
  {
    DoomedAreLive(s.jobs, r.id);
    DeathsSettle(v, Doomed(s.jobs, r.id), r, now);
  }

  lemma RetryIsMove(v: View, s: Store, r: FinishRequest, now: int, rand: real)
    requires v.jobs == s.jobs && v.history == s.history && r.id in s.jobs
    requires s.jobs[r.id].state.Active? && Retries(s.jobs[r.id], r)
    ensures Settles(v, {r.id}, {}, RetryLater(s, r, now, rand).jobs, RetryLater(s, r, now, rand).history)
  {
  }

  lemma FinishIsMove(cfg: Config, v: View, s: Store, r: FinishRequest, now: int, rand: real)
    requires v.jobs == s.jobs && v.history == s.history
    ensures Happens(cfg, v, FinishMove(s, r, now), FinishJob(s, r, now, rand).0.jobs,
                    FinishJob(s, r, now, rand).0.history)
  {
    if Judge(s, r, now).Accepted? {
      if Retries(s.jobs[r.id], r) {
        RetryIsMove(v, s, r, now, rand);
      } else if r.error.Some? {
        FailIsMove(v, s, r, now);
      }
    }
  }
}
