/**
  Enqueuing: a batch is its requests one by one, a failed one leaves at most a
  rejection row, a replay changes nothing, and an admitted job is an admission
  of the job machine.
 */
module EnqueueLaws {
  import opened Tables
  import opened Lifecycle
  import opened LifecycleLaws
  import opened Enqueue

  // ---- Replays ----

  /** A request whose receipt matches gets the original answer and changes nothing at all. */
  lemma ReplayIsIdempotent(cfg: Config, s: Store, r: AddJobRequest, id: Id, trace: string, now: int)
    requires r.key != "" && Slot(r.name, r.key) in s.receipts && s.receipts[Slot(r.name, r.key)].request == r
    ensures var kept := s.receipts[Slot(r.name, r.key)];
            EnqueueOne(cfg, s, r, id, trace, now) == Admitted(s, AddReply(kept.jobId, kept.initialState, true))
  {
  }

  /** Right after a keyed job is admitted, sending the same request again is such a replay. */
  lemma AdmissionThenReplay(cfg: Config, s: Store, r: AddJobRequest, id: Id, trace: string, now: int, id': Id,
                            trace': string, now': int)
    requires r.key != "" && EnqueueOne(cfg, s, r, id, trace, now).Admitted?
    ensures var a := EnqueueOne(cfg, s, r, id, trace, now);
            EnqueueOne(cfg, a.store, r, id', trace', now') == Admitted(a.store, a.reply.(replayed := true))
  {
  }

  // ---- Batches ----

  /** A single AddJob, spelled out. */
  lemma AddJobUnfolds(cfg: Config, s: Store, r: AddJobRequest, id: Id, trace: string, now: int)
    ensures AddJob(cfg, s, r, id, trace, now) ==
      match Validate(cfg, r)
      case Err(code) => (s, Err(code))
      case Ok(v) =>
        match EnqueueOne(cfg, s, v, id, trace, now)
        case Admitted(t, reply) => (t, Ok([reply]))
        case Refused(code) => (s, Err(code))
        case Rejected(code, record) => (Record(s, Some(record)), Err(code))
  {
    assert [r][..0] == [] && ValidateAll(cfg, [r][..0]) == Ok([]);
    match Validate(cfg, r)
    case Err(code) =>
      assert ValidateAll(cfg, [r]) == Err(code);
    case Ok(v) =>
      var none: seq<AddJobRequest> := [];
      assert ValidateAll(cfg, [r]) == Ok(none + [v]) && none + [v] == [v];
      assert ItemsOf([v], [id], [trace]) == [Item(v, id, trace)];
      BatchOfOne(cfg, s, Item(v, id, trace), now);
  }

  lemma BatchOfOne(cfg: Config, s: Store, item: Item, now: int)
    ensures EnqueueAll(cfg, s, [item], now) ==
      match EnqueueOne(cfg, s, item.request, item.id, item.freshTrace, now)
      case Admitted(t, reply) => Done(t, [reply])
      case Refused(code) => Undone(code, None)
      case Rejected(code, record) => Undone(code, Some(record))
  {
    assert [item][..0] == [] && EnqueueAll(cfg, s, [item][..0], now) == Done(s, []);
    assert forall reply: AddReply :: [] + [reply] == [reply];
  }

  /** The requests sent one by one at the same instant, until one fails. */
  function OneByOne(cfg: Config, s: Store, rs: seq<AddJobRequest>, ids: seq<Id>, traces: seq<string>, now: int)
    : Reply<(Store, seq<AddReply>)>
    requires |ids| == |traces| == |rs|
  {
    if rs == [] then Ok((s, []))
    else
      var n := |rs| - 1;
      match OneByOne(cfg, s, rs[..n], ids[..n], traces[..n], now)
      case Err(code) => Err(code)
      case Ok(done) =>
        var (t, reply) := AddJob(cfg, done.0, rs[n], ids[n], traces[n], now);
        match reply
        case Err(code) => Err(code)
        case Ok(replies) => Ok((t, done.1 + replies))
  }

  lemma ItemsPrefix(valid: seq<AddJobRequest>, ids: seq<Id>, traces: seq<string>, n: nat)
    requires |ids| == |traces| == |valid| == n + 1
    ensures ItemsOf(valid, ids, traces)[..n] == ItemsOf(valid[..n], ids[..n], traces[..n])
    ensures ItemsOf(valid, ids, traces)[n] == Item(valid[n], ids[n], traces[n])
  {
  }

  /** Validated and run as one batch. */
  function AsBatch(cfg: Config, s: Store, rs: seq<AddJobRequest>, ids: seq<Id>, traces: seq<string>,
                   now: int): Option<Batch>
    requires |ids| == |traces| == |rs|
  {
    match ValidateAll(cfg, rs)
    case Err(_) => None
    case Ok(valid) => Some(EnqueueAll(cfg, s, ItemsOf(valid, ids, traces), now))
  }

  lemma {:induction false} BatchIsOneByOne(cfg: Config, s: Store, rs: seq<AddJobRequest>, ids: seq<Id>,
                                           traces: seq<string>, now: int)
    requires |ids| == |traces| == |rs|
    ensures var b, o := AsBatch(cfg, s, rs, ids, traces, now), OneByOne(cfg, s, rs, ids, traces, now);
            && (o.Ok? <==> b.Some? && b.value.Done?)
            && (o.Ok? ==> o.value == (b.value.store, b.value.replies))
  {
    if rs != [] {
      var n := |rs| - 1;
      BatchIsOneByOne(cfg, s, rs[..n], ids[..n], traces[..n], now);
      var o := OneByOne(cfg, s, rs[..n], ids[..n], traces[..n], now);
      if o.Ok? {
        AddJobUnfolds(cfg, o.value.0, rs[n], ids[n], traces[n], now);
      }
      var all := ValidateAll(cfg, rs);
      if all.Ok? {
        assert all.value == ValidateAll(cfg, rs[..n]).value + [Validate(cfg, rs[n]).value];
        assert all.value[..n] == ValidateAll(cfg, rs[..n]).value;
        ItemsPrefix(all.value, ids, traces, n);
      }
    }
  }

  /**
    A bulk call of an allowed size succeeds exactly when its requests succeed one by one at the
    same instant, and then reaches the same database with the same replies in order.
   */
  lemma BulkRefinesSingles(cfg: Config, s: Store, rs: seq<AddJobRequest>, ids: seq<Id>, traces: seq<string>, now: int)
    requires |ids| == |traces| == |rs| && 1 <= |rs| <= MAX_BULK_BATCH_SIZE
    ensures var (t, reply) := AddJobs(cfg, s, true, rs, ids, traces, now);
            var o := OneByOne(cfg, s, rs, ids, traces, now);
            && (reply.Ok? <==> o.Ok?)
            && (reply.Ok? ==> o.value == (t, reply.value) && |reply.value| == |rs|)
  {
    BatchIsOneByOne(cfg, s, rs, ids, traces, now);
    RepliesInOrder(cfg, s, rs, ids, traces, now);
  }

  lemma {:induction false} RepliesInOrder(cfg: Config, s: Store, rs: seq<AddJobRequest>, ids: seq<Id>,
                                          traces: seq<string>, now: int)
    requires |ids| == |traces| == |rs|
    ensures OneByOne(cfg, s, rs, ids, traces, now).Ok? ==> |OneByOne(cfg, s, rs, ids, traces, now).value.1| == |rs|
  {
    if rs != [] {
      var n := |rs| - 1;
      RepliesInOrder(cfg, s, rs[..n], ids[..n], traces[..n], now);
      var o := OneByOne(cfg, s, rs[..n], ids[..n], traces[..n], now);
      if o.Ok? { AddJobUnfolds(cfg, o.value.0, rs[n], ids[n], traces[n], now); }
    }
  }

  /** Nothing but the rejection log differs, and it by at most one new row. */
  predicate SameButRejections(s: Store, t: Store) {
    && t == s.(rejections := t.rejections, nextRejection := t.nextRejection)
    && (t == s
        || (&& s.nextRejection in t.rejections && t.nextRejection == s.nextRejection + 1
            && t.rejections == s.rejections[s.nextRejection := t.rejections[s.nextRejection]]))
  }

  lemma RecordAddsOne(s: Store, record: Option<Rejection>)
    ensures SameButRejections(s, Record(s, record))
  {
  }

  /** A failing call, bulk or single, leaves every table unchanged but for at most one rejection row. */
  lemma FailedBatchLeavesNoTrace(cfg: Config, s: Store, bulk: bool, rs: seq<AddJobRequest>, ids: seq<Id>,
                                 traces: seq<string>, now: int)
    requires |ids| == |traces| == |rs|
    requires AddJobs(cfg, s, bulk, rs, ids, traces, now).1.Err?
    ensures SameButRejections(s, AddJobs(cfg, s, bulk, rs, ids, traces, now).0)
  {
    var t := AddJobs(cfg, s, bulk, rs, ids, traces, now).0;
    RecordAddsOne(s, None);
    if t != s {
      var b := EnqueueAll(cfg, s, ItemsOf(ValidateAll(cfg, rs).value, ids, traces), now);
      RecordAddsOne(s, b.record);
    }
  }

  // ---- Admission ----

  predicate IsNew(a: Admission) {
    a.Admitted? && !a.reply.replayed
  }

  lemma NewAdmissionRow(cfg: Config, s: Store, r: AddJobRequest, id: Id, trace: string, now: int)
    requires IsNew(EnqueueOne(cfg, s, r, id, trace, now))
    ensures var a := Trace(s.jobs, s.history, r, trace);
            && a.Placed? && a.depth <= cfg.maxExecutionDepth
            && var t := EnqueueOne(cfg, s, r, id, trace, now).store;
            t.jobs == s.jobs[id := SoloJob(r, a.depth, a.trace, now)] && t.history == s.history
  {
  }

  /** An admitted job is a single row outside any tree. */
  lemma EnqueueAdmits(cfg: Config, v: View, s: Store, r: AddJobRequest, id: Id, trace: string, now: int)
    requires v.jobs == s.jobs && v.history == s.history && id !in v.born && Conserved(v)
    requires r.maxAttempts >= 1 && IsNew(EnqueueOne(cfg, s, r, id, trace, now))
    ensures var t := EnqueueOne(cfg, s, r, id, trace, now).store;
            && id in t.jobs
            && Admits(cfg, v, map[id := t.jobs[id]], None, t.jobs) && t.history == v.history
  {
    NewAdmissionRow(cfg, s, r, id, trace, now);
    var a := Trace(s.jobs, s.history, r, trace);
    var j := SoloJob(r, a.depth, a.trace, now);
    var jobs' := s.jobs[id := j];
    assert Accounted(v, id);
    assert jobs' == s.jobs + map[id := j];
    assert SoloRow(cfg, jobs', v.history, j);
  }
}
