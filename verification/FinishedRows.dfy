/**
  CompleteJob, FailJob and Heartbeat row by row: exactly when a worker's claim
  is honoured, what is answered otherwise, and what an accepted call writes.
 */
module FinishedRows {
  import opened Tables
  import opened Backoff
  import opened Finish
  import opened Leases

  // ---- When a claim is honoured ----

  /** The worker holds the job under this attempt and its lease has not run out. */
  predicate OwnsClaim(s: Store, id: Id, worker: string, attempt: nat, now: int) {
    && id in s.jobs && s.jobs[id].state.Active?
    && s.jobs[id].worker == Some(worker)
    && s.jobs[id].attempts == attempt
    && s.jobs[id].lease.Some? && now < s.jobs[id].lease.value
  }

  /** Clients that send no attempt mean the first. */
  predicate Honoured(s: Store, r: FinishRequest, now: int) {
    !Blank(r.id) && !Blank(r.worker) && OwnsClaim(s, r.id, r.worker, if r.attempt == 0 then 1 else r.attempt, now)
  }

  /** The completion in history is the one this request asks for again. */
  predicate SameCompletion(a: Archived, r: FinishRequest) {
    && r.error.None? && a.outcome.Completed? && a.worker == Some(r.worker)
    && a.attempts == if r.attempt == 0 then 1 else r.attempt
  }

  /** The answer to a request whose claim is not honoured: the first condition that fails. */
  predicate Declined(s: Store, r: FinishRequest, reply: Reply<bool>) {
    if Blank(r.id) || Blank(r.worker) then reply == Err(InvalidArgument)
    else if r.id !in s.jobs then
      if r.id !in s.history then reply == Err(NotFound)
      else if SameCompletion(s.history[r.id], r) then reply == Ok(false)
      else reply == Err(FailedPrecondition)
    else if !s.jobs[r.id].state.Active? then reply == Err(FailedPrecondition)
    else if s.jobs[r.id].worker != Some(r.worker) then reply == Err(PermissionDenied)
    else reply == Err(FailedPrecondition)
  }

  predicate GivesUp(j: Job, r: FinishRequest) {
    r.error.Some? && (r.nonRetryable || j.attempts >= j.card.maxAttempts)
  }

  lemma Judged(s: Store, r: FinishRequest, now: int)
    ensures Judge(s, r, now).Accepted? <==> Honoured(s, r, now)
    ensures Judge(s, r, now).Refused? ==> Declined(s, r, Err(Judge(s, r, now).code))
    ensures Judge(s, r, now).Replayed? ==> Declined(s, r, Ok(false))
  {
  }

  /** Whatever becomes of it, the job is no longer held. */
  lemma NoLongerHeld(s: Store, r: FinishRequest, now: int, rand: real)
    requires r.id in s.jobs
    ensures var jobs := RetryLater(s, r, now, rand).jobs; r.id in jobs && !jobs[r.id].state.Active?
    ensures r.id !in Fail(s, r, now).jobs
    ensures r.id !in Succeed(s, r, now).jobs
  {
    DoomedAreLive(s.jobs, r.id);
  }

  lemma Accepted(s: Store, r: FinishRequest, now: int, rand: real)
    requires Judge(s, r, now).Accepted?
    ensures var (t, reply) := FinishJob(s, r, now, rand);
            && reply == Ok(GivesUp(s.jobs[r.id], r))
            && t == if r.error.None? then Succeed(s, r, now)
                    else if GivesUp(s.jobs[r.id], r) then Fail(s, r, now) else RetryLater(s, r, now, rand)
  {
  }

  lemma Changes(s: Store, r: FinishRequest, now: int, rand: real)
    requires Judge(s, r, now).Accepted?
    ensures FinishJob(s, r, now, rand).0.jobs != s.jobs
  {
    Accepted(s, r, now, rand);
    NoLongerHeld(s, r, now, rand);
  }

  /** A call changes the database exactly if the claim is honoured; the reply says whether the job failed for good. */
  lemma FinishExactly(s: Store, r: FinishRequest, now: int, rand: real)
    ensures var (t, reply) := FinishJob(s, r, now, rand);
            && (t != s <==> Honoured(s, r, now))
            && (Honoured(s, r, now) ==> reply == Ok(GivesUp(s.jobs[r.id], r)))
            && (!Honoured(s, r, now) ==> Declined(s, r, reply))
  {
    Judged(s, r, now);
    if Judge(s, r, now).Accepted? {
      Changes(s, r, now, rand);
      Accepted(s, r, now, rand);
    }
  }

  /** Likewise for a heartbeat, which has to name its attempt. */
  lemma HeartbeatExactly(cfg: Config, s: Store, r: HeartbeatRequest, now: int)
    ensures var (t, reply) := Heartbeat(cfg, s, r, now);
            var honoured := !Blank(r.id) && !Blank(r.worker) && r.attempt != 0
                            && OwnsClaim(s, r.id, r.worker, r.attempt, now);
            && (reply.Ok? <==> honoured)
            && (honoured ==> Extends(cfg, s, t, r.id, now, reply.value))
            && (!honoured ==> t == s)
            && (!honoured ==>
                  reply == if Blank(r.id) || Blank(r.worker) || r.attempt == 0 then Err(InvalidArgument)
                           else if r.id !in s.jobs && r.id !in s.history then Err(NotFound)
                           else if r.id in s.jobs && s.jobs[r.id].state.Active? && s.jobs[r.id].worker != Some(r.worker)
                           then Err(PermissionDenied)
                           else Err(FailedPrecondition))
  {
    HeartbeatExtends(cfg, s, r, now);
  }

  // ---- What an accepted call writes ----

  predicate RetryOk(retry: Retry) {
    0 <= retry.base && 0 <= retry.cap && 0.0 <= retry.jitter <= 1.0
  }

  /** The doubled and capped base. */
  function Backed(retry: Retry, attempts: nat): int
    requires attempts >= 1
  {
    var doubled := retry.base * Pow2(attempts - 1);
    if doubled < retry.cap then doubled else retry.cap
  }

  /** Of which the jittered part is drawn at random. */
  function Wait(retry: Retry, attempts: nat, rand: real): int
    requires attempts >= 1
  {
    var d := Backed(retry, attempts);
    if retry.jitter > 0.0 && d > 0
    then Round((1.0 - retry.jitter) * (d as real) + retry.jitter * rand * (d as real)) else d
  }

  /** The row of a job that goes back to the queue for `wait`. */
  predicate Requeues(j: Job, j': Job, error: Option<string>, now: int, wait: int) {
    && j'.card == j.card && j'.retry == j.retry && j'.attempts == j.attempts && j'.pending == j.pending
    && j'.failParent == j.failParent && j'.treeId == j.treeId && j'.treeDepth == j.treeDepth
    && j'.state == (if wait == 0 then Waiting else Delayed)
    && j'.availableAt == SatAdd(now, wait)
    && j'.worker.None? && j'.lease.None? && j'.lastError == error
  }

  lemma BackedExact(retry: Retry, attempts: nat)
    requires attempts >= 1 && RetryOk(retry)
    ensures RetryDelay(retry.base, retry.cap, attempts) == Backed(retry, attempts)
    ensures 0 <= Backed(retry, attempts) <= retry.cap
  {
    RetryDelayExact(retry.base, retry.cap, attempts);
    RetryDelayMonotone(retry.base, retry.cap, attempts, attempts);
  }

  lemma WaitExact(retry: Retry, attempts: nat, rand: real)
    requires attempts >= 1 && RetryOk(retry) && 0.0 <= rand < 1.0
    ensures ApplyJitter(RetryDelay(retry.base, retry.cap, attempts), retry.jitter, rand) == Wait(retry, attempts, rand)
    ensures 0 <= Wait(retry, attempts, rand) <= retry.cap
  {
    BackedExact(retry, attempts);
    JitterBounds(Backed(retry, attempts), retry.jitter, rand);
  }

  lemma RetryRequeues(s: Store, r: FinishRequest, now: int, rand: real, wait: int)
    requires r.id in s.jobs
    requires var j := s.jobs[r.id];
             wait == ApplyJitter(RetryDelay(j.retry.base, j.retry.cap, j.attempts), j.retry.jitter, rand)
    ensures var t := RetryLater(s, r, now, rand);
            && t == s.(jobs := t.jobs, gauges := t.gauges)
            && r.id in t.jobs && t.jobs == s.jobs[r.id := t.jobs[r.id]]
            && Requeues(s.jobs[r.id], t.jobs[r.id], r.error, now, wait)
  {
  }

  /** A retry puts the job back with its error, due after the backoff, and changes nothing else but gauges. */
  lemma RetryWrites(s: Store, r: FinishRequest, now: int, rand: real)
    requires Honoured(s, r, now) && r.error.Some? && !GivesUp(s.jobs[r.id], r)
    requires s.jobs[r.id].attempts >= 1 && RetryOk(s.jobs[r.id].retry) && 0.0 <= rand < 1.0
    ensures var t, j := FinishJob(s, r, now, rand).0, s.jobs[r.id];
            var wait := Wait(j.retry, j.attempts, rand);
            && t == s.(jobs := t.jobs, gauges := t.gauges)
            && r.id in t.jobs && t.jobs == s.jobs[r.id := t.jobs[r.id]]
            && Requeues(j, t.jobs[r.id], r.error, now, wait) && 0 <= wait <= j.retry.cap
  {
    var j := s.jobs[r.id];
    Judged(s, r, now);
    Accepted(s, r, now, rand);
    WaitExact(j.retry, j.attempts, rand);
    RetryRequeues(s, r, now, rand, Wait(j.retry, j.attempts, rand));
  }

  /** The parent's row after one of its children completed. */
  predicate Credited(j: Job, j': Job, now: int) {
    && j' == j.(pending := j.pending - 1, state := j'.state)
    && j'.state == (if !j.state.WaitingChildren? || j.pending > 1 then j.state
                    else if j.availableAt > now then Delayed else Waiting)
  }

  /** A completion archives the job with its result, credits its live parent and releases its own receipt. */
  lemma CompletionWrites(s: Store, r: FinishRequest, now: int, rand: real, x: Id, slot: Slot)
    requires Honoured(s, r, now) && r.error.None?
    ensures var t, j := FinishJob(s, r, now, rand).0, s.jobs[r.id];
            && t == s.(jobs := t.jobs, history := t.history, receipts := t.receipts, gauges := t.gauges)
            && r.id in t.history && t.history == s.history[r.id := t.history[r.id]]
            && CarriedOver(j, t.history[r.id]) && t.history[r.id].outcome.Completed?
            && t.history[r.id].result == r.result && t.history[r.id].lastError == j.lastError
            && t.history[r.id].finishedAt == now
    ensures var t, j := FinishJob(s, r, now, rand).0, s.jobs[r.id];
            && r.id !in t.jobs
            && (x != r.id ==> (x in t.jobs <==> x in s.jobs))
            && (x != r.id && x in s.jobs ==>
                  if j.card.parent == Some(x) then Credited(s.jobs[x], t.jobs[x], now) else t.jobs[x] == s.jobs[x])
    ensures var t := FinishJob(s, r, now, rand).0;
            && (slot in t.receipts <==>
                slot in s.receipts && !(s.receipts[slot].releaseOnFinish && s.receipts[slot].jobId == r.id))
            && (slot in t.receipts ==> t.receipts[slot] == s.receipts[slot])
  {
  }

  lemma FailReleases(s: Store, r: FinishRequest, now: int, slot: Slot)
    requires r.id in s.jobs
    ensures var t := Fail(s, r, now);
            && t == s.(jobs := t.jobs, history := t.history, receipts := t.receipts, gauges := t.gauges)
            && (slot in t.receipts <==>
                slot in s.receipts
                && !(s.receipts[slot].releaseOnFinish && s.receipts[slot].jobId in Doomed(s.jobs, r.id)))
            && (slot in t.receipts ==> t.receipts[slot] == s.receipts[slot])
  {
  }

  /** A terminal failure releases the receipts of the jobs it takes, if they are to be released. */
  lemma FailureReleases(s: Store, r: FinishRequest, now: int, rand: real, slot: Slot)
    requires Honoured(s, r, now) && GivesUp(s.jobs[r.id], r)
    ensures var t := FinishJob(s, r, now, rand).0;
            && t == s.(jobs := t.jobs, history := t.history, receipts := t.receipts, gauges := t.gauges)
            && (slot in t.receipts <==>
                slot in s.receipts
                && !(s.receipts[slot].releaseOnFinish && FailsWith(s.jobs, r.id, s.receipts[slot].jobId)))
            && (slot in t.receipts ==> t.receipts[slot] == s.receipts[slot])
  {
    Judged(s, r, now);
    Accepted(s, r, now, rand);
    FailReleases(s, r, now, slot);
    if slot in s.receipts { DoomedByPath(s.jobs, r.id, s.receipts[slot].jobId); }
  }
}
