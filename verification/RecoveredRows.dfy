/**
  Lease recovery row by row: which claims a pass takes back, and what becomes
  of each.
 */
module RecoveredRows {
  import opened Tables
  import opened Backoff
  import opened Finish
  import opened Leases
  import opened FinishedRows
  import opened Queries
  import opened Sets

  predicate Expired(jobs: Jobs, now: int, id: Id) {
    && id in jobs && jobs[id].state.Active?
    && jobs[id].lease.Some? && jobs[id].lease.value <= now
  }

  function AllExpired(jobs: Jobs, now: int): set<Id> {
    set id | id in jobs && Expired(jobs, now, id)
  }

  /** A pass takes as many expired claims as the batch allows, and none that expired later than one it leaves. */
  predicate TakesOldest(jobs: Jobs, now: int, batch: nat, taken: set<Id>) {
    && taken <= AllExpired(jobs, now)
    && |taken| == (if batch < |AllExpired(jobs, now)| then batch else |AllExpired(jobs, now)|)
    && forall x, y | x in taken && Expired(jobs, now, y) && y !in taken ::
         x in jobs && y in jobs ==> jobs[x].lease.value <= jobs[y].lease.value
  }

  /** An expired claim with attempts left goes back to the queue after its backoff. */
  predicate GoesBack(j: Job, t: Store, id: Id, now: int) {
    && id in t.jobs && j.attempts >= 1
    && Requeues(j, t.jobs[id], Some("Worker lease expired"), now, Backed(j.retry, j.attempts))
  }

  /** One without fails for good; its history row loses the flow columns. */
  predicate Dies(j: Job, t: Store, id: Id, now: int) {
    && id !in t.jobs && id in t.history
    && t.history[id] == Archived(j.card, Failed, j.attempts, now, j.worker, Some("Worker lease expired"), None, false,
                                 None, 0)
  }

  predicate Fate(s: Store, t: Store, taken: set<Id>, id: Id, now: int) {
    if id in taken then
      id in s.jobs && (if s.jobs[id].attempts < s.jobs[id].card.maxAttempts then
                         GoesBack(s.jobs[id], t, id, now) && Lookup(t.history, id) == Lookup(s.history, id)
                       else Dies(s.jobs[id], t, id, now))
    else Lookup(t.jobs, id) == Lookup(s.jobs, id) && Lookup(t.history, id) == Lookup(s.history, id)
  }

  lemma TakenIsOldest(jobs: Jobs, now: int, batch: nat)
    ensures TakesOldest(jobs, now, batch, ToSet(ExpiredBatch(jobs, now, batch)))
  {
    var rows, all := ExpiredBatch(jobs, now, batch), AllExpired(jobs, now);
    var taken := ToSet(rows);
    BatchIsExpired(jobs, now, batch);
    BatchSize(jobs, now, batch);
    SubsetSize(taken, all);
    if taken != all {
      assert all == taken + (all - taken);
      var y :| y in all - taken;
      OldestFirst(jobs, now, batch, y);
    }
    forall x, y | x in taken && Expired(jobs, now, y) && y !in taken
      ensures x in jobs && y in jobs ==> jobs[x].lease.value <= jobs[y].lease.value {
      OldestFirst(jobs, now, batch, y);
    }
  }

  lemma BatchSize(jobs: Jobs, now: int, batch: nat)
    ensures |ToSet(ExpiredBatch(jobs, now, batch))| == |ExpiredBatch(jobs, now, batch)| <= batch
  {
    BatchIsExpired(jobs, now, batch);
    TakeRows(ExpiredKeys(jobs, now), 1, batch);
    SeqSize(ExpiredBatch(jobs, now, batch));
  }

  /** What each job in the two tables comes to. */
  lemma RowFate(s: Store, taken: set<Id>, id: Id, now: int)
    requires id in taken ==> id in s.jobs && s.jobs[id].attempts >= 1 && RetryOk(s.jobs[id].retry)
    ensures Fate(s, RecoverRows(s, taken, now), taken, id, now)
  {
    if id in taken { RetryDelayExact(s.jobs[id].retry.base, s.jobs[id].retry.cap, s.jobs[id].attempts); }
  }

  /** A receipt goes exactly if it is to be released and its job died. */
  lemma ReceiptFate(s: Store, taken: set<Id>, now: int, slot: Slot)
    requires taken <= s.jobs.Keys
    ensures var t := RecoverRows(s, taken, now);
            && t == s.(jobs := t.jobs, history := t.history, receipts := t.receipts, gauges := t.gauges)
            && (slot in t.receipts <==>
                slot in s.receipts
                && !(s.receipts[slot].releaseOnFinish && s.receipts[slot].jobId in taken
                     && s.jobs[s.receipts[slot].jobId].attempts >= s.jobs[s.receipts[slot].jobId].card.maxAttempts))
            && (slot in t.receipts ==> t.receipts[slot] == s.receipts[slot])
  {
  }

  /** The whole pass: the oldest expired claims are requeued or failed, and every other row stays. */
  lemma RecoverExactly(s: Store, batch: nat, now: int, id: Id) returns (taken: set<Id>)
    requires Expired(s.jobs, now, id) ==> s.jobs[id].attempts >= 1 && RetryOk(s.jobs[id].retry)
    ensures TakesOldest(s.jobs, now, batch, taken)
    ensures Fate(s, Recover(s, batch, now), taken, id, now)
  {
    taken := ToSet(ExpiredBatch(s.jobs, now, batch));
    TakenIsOldest(s.jobs, now, batch);
    RowFate(s, taken, id, now);
  }

  /** A pass whose batch is large enough leaves no expired claim. */
  lemma NoneLeft(s: Store, batch: nat, now: int, id: Id)
    requires |AllExpired(s.jobs, now)| <= batch
    ensures !Expired(Recover(s, batch, now).jobs, now, id)
  {
    var taken := ToSet(ExpiredBatch(s.jobs, now, batch));
    TakenIsOldest(s.jobs, now, batch);
    SubsetSize(taken, AllExpired(s.jobs, now));
  }

  /** And otherwise one expired claim is left only behind a full batch of older ones, none of them held any more. */
  lemma LeftBehind(s: Store, batch: nat, now: int, y: Id) returns (taken: set<Id>)
    requires Expired(Recover(s, batch, now).jobs, now, y)
    ensures Expired(s.jobs, now, y) && |taken| == batch && y !in taken
    ensures forall x | x in taken :: Expired(s.jobs, now, x) && s.jobs[x].lease.value <= s.jobs[y].lease.value
                                     && !Expired(Recover(s, batch, now).jobs, now, x)
  {
    taken := ToSet(ExpiredBatch(s.jobs, now, batch));
    TakenIsOldest(s.jobs, now, batch);
    assert y !in taken && Expired(s.jobs, now, y);
    OldestFirst(s.jobs, now, batch, y);
    BatchSize(s.jobs, now, batch);
  }
}
