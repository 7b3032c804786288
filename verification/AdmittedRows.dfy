/**
  AddJob row by row: when a request is valid, when it is admitted, and what the
  admitted job's row and receipt hold of it.
 */
module AdmittedRows {
  import opened Tables
  import opened Enqueue
  import opened EnqueueLaws
  import opened Laws
  import Ingress

  function OptionOf(s: string): Option<string> {
    if s == "" then None else Some(s)
  }

  // ---- Validation ----

  predicate WellFormed(r: AddJobRequest) {
    && (r.key == "" || (!Blank(r.key) && Utf8Length(r.key) <= 256))
    && (r.releaseOnFinish ==> r.key != "")
    && 0 <= r.delayMs && 0 <= r.backoffMs && 0 <= r.backoffMaxMs
    && (r.backoffMaxMs == 0 || r.backoffMs <= r.backoffMaxMs)
    && 0.0 <= r.jitter <= 1.0
  }

  /** Unset retry options take the server's defaults; everything else stays as sent. */
  predicate Normalizes(r: AddJobRequest, v: AddJobRequest) {
    && v.name == r.name && v.payload == r.payload && v.priority == r.priority && v.metadata == r.metadata
    && v.delayMs == r.delayMs && v.facet == r.facet && v.key == r.key && v.releaseOnFinish == r.releaseOnFinish
    && v.jitter == r.jitter && v.backoffMs == r.backoffMs
    && v.maxAttempts == (if r.maxAttempts > 0 then r.maxAttempts else 3)
    && v.backoffMaxMs == (if r.backoffMaxMs > 0 then r.backoffMaxMs
                          else if r.backoffMs > 60_000 then r.backoffMs else 60_000)
  }

  /** Exactly the well-formed requests within the depth limit are valid, and become normal. */
  lemma ValidExactly(cfg: Config, r: AddJobRequest)
    ensures Validate(cfg, r).Ok? <==> WellFormed(r) && r.metadata.depth <= cfg.maxExecutionDepth
    ensures Validate(cfg, r).Ok? ==> Normalizes(r, Validate(cfg, r).value)
    ensures Validate(cfg, r).Err? ==>
              Validate(cfg, r).code == if WellFormed(r) then ResourceExhausted else InvalidArgument
  {
  }

  lemma {:induction false} AllValid(cfg: Config, rs: seq<AddJobRequest>, k: nat)
    requires ValidateAll(cfg, rs).Ok? && k < |rs|
    ensures WellFormed(rs[k]) && rs[k].metadata.depth <= cfg.maxExecutionDepth
    ensures Normalizes(rs[k], ValidateAll(cfg, rs).value[k])
  {
    var n := |rs| - 1;
    if k < n { AllValid(cfg, rs[..n], k); } else { ValidExactly(cfg, rs[n]); }
  }

  // ---- Admission ----

  /** The card of a job that is live or in history. */
  predicate IsCard(s: Store, p: Id, card: Card) {
    if p in s.jobs then s.jobs[p].card == card else p in s.history && s.history[p].card == card
  }

  predicate Known(s: Store, r: AddJobRequest) {
    r.key != "" && Slot(r.name, r.key) in s.receipts
  }

  predicate Orphaned(s: Store, r: AddJobRequest) {
    r.metadata.parentId != "" && r.metadata.parentId !in s.jobs && r.metadata.parentId !in s.history
  }

  /** Where the new job stands: with a parent one below it and in its trace, else where the client says. */
  ghost predicate StandsAt(s: Store, r: AddJobRequest, newTrace: string, depth: nat, trace: string) {
    if r.metadata.parentId == ""
    then depth == r.metadata.depth && trace == (if r.metadata.traceId == "" then newTrace else r.metadata.traceId)
    else exists card: Card :: IsCard(s, r.metadata.parentId, card) && depth == card.depth + 1 && trace == card.trace
  }

  predicate Full(cfg: Config, s: Store, trace: string) {
    cfg.maxChainSize > 0 && trace in s.chains && s.chains[trace].count >= cfg.maxChainSize
  }

  /** What decides an enqueue, in the order in which it is looked at. */
  datatype Ground = Repeat | Conflict | Throttle | Overflow | Orphan | Misplaced | TooDeep | Quarantined | Clear

  ghost predicate Decides(cfg: Config, s: Store, r: AddJobRequest, now: int, depth: nat, trace: string, g: Ground) {
    if Known(s, r) then g == if s.receipts[Slot(r.name, r.key)].request == r then Repeat else Conflict
    else if r.facet != "" && Ingress.Throttled(s.ingressRules, s.ingressCounts, r.facet, now) then g == Throttle
    else if now + r.delayMs > I64_MAX then g == Overflow
    else if Orphaned(s, r) then g == Orphan
    else if r.metadata.parentId != "" && r.metadata.depth != 0 && r.metadata.depth != depth then g == Misplaced
    else if depth > cfg.maxExecutionDepth then g == TooDeep
    else if Full(cfg, s, trace) then g == Quarantined
    else g == Clear
  }

  /** A rejection that is recorded: its code, its kind, and the fields that explain it. */
  predicate Logs(a: Admission, code: Code, kind: RejectionKind, r: AddJobRequest, now: int, trace: Option<string>,
                 depth: Option<int>) {
    && a.Rejected? && a.code == code && a.record.kind == kind && a.record.name == r.name && a.record.at == now
    && a.record.trace == trace && a.record.depth == depth
    && a.record.parent == (if kind == IngressVelocity then None else OptionOf(r.metadata.parentId))
    && a.record.facet == (if kind == IngressVelocity then Some(r.facet) else None)
  }

  ghost predicate Answers(a: Admission, s: Store, r: AddJobRequest, id: Id, now: int, depth: nat, trace: string,
                          g: Ground) {
    match g
    case Repeat =>
      Known(s, r) && var kept := s.receipts[Slot(r.name, r.key)];
      a == Admitted(s, AddReply(kept.jobId, kept.initialState, true))
    case Conflict => a == Refused(AlreadyExists)
    case Throttle => Logs(a, ResourceExhausted, IngressVelocity, r, now, None, None)
    case Overflow => a == Refused(InvalidArgument)
    case Orphan => Logs(a, FailedPrecondition, ParentNotFound, r, now, None, None)
    case Misplaced =>
      Logs(a, InvalidArgument, InconsistentDepth, r, now, Some(trace), Some(r.metadata.depth))
    case TooDeep => Logs(a, ResourceExhausted, CircuitBreaker, r, now, Some(trace), Some(depth))
    case Quarantined => Logs(a, ResourceExhausted, ChainQuarantine, r, now, Some(trace), Some(depth))
    case Clear => IsNew(a) && a.reply.id == id
  }

  lemma Standing(s: Store, r: AddJobRequest, newTrace: string) returns (depth: nat, trace: string)
    ensures Orphaned(s, r) || StandsAt(s, r, newTrace, depth, trace)
  {
    var p := r.metadata.parentId;
    if p == "" {
      depth, trace := r.metadata.depth, if r.metadata.traceId == "" then newTrace else r.metadata.traceId;
    } else if !Orphaned(s, r) {
      var card := if p in s.jobs then s.jobs[p].card else s.history[p].card;
      assert IsCard(s, p, card);
      depth, trace := card.depth + 1, card.trace;
    } else {
      depth, trace := 0, "";
    }
  }

  /** The first ground that applies decides the answer, and with none the job is admitted. */
  lemma AdmittedExactly(cfg: Config, s: Store, r: AddJobRequest, id: Id, newTrace: string, now: int, depth: nat,
                        trace: string, g: Ground)
    requires Orphaned(s, r) || StandsAt(s, r, newTrace, depth, trace)
    requires Decides(cfg, s, r, now, depth, trace, g)
    ensures Answers(EnqueueOne(cfg, s, r, id, newTrace, now), s, r, id, now, depth, trace, g)
  {
    Ingress.StatusAgreesWithAdmit(s.ingressRules, s.ingressCounts, r.facet, now);
  }

  // ---- The new row ----

  predicate AtRest(j: Job) {
    j.attempts == 0 && j.worker.None? && j.lease.None? && j.lastError.None?
  }

  /** The row holds the request: what to run, when, how often and for whom. */
  predicate Holds(j: Job, v: AddJobRequest, now: int) {
    && j.card.name == v.name && j.card.payload == v.payload && j.card.priority == v.priority
    && j.card.parent == OptionOf(v.metadata.parentId) && j.card.facet == OptionOf(v.facet)
    && j.card.maxAttempts == v.maxAttempts && j.card.createdAt == now
    && j.retry.base == v.backoffMs && j.retry.cap == v.backoffMaxMs && j.retry.jitter == v.jitter
    && j.availableAt == now + v.delayMs
    && j.state == (if v.delayMs > 0 then Delayed else Waiting)
    && AtRest(j) && j.pending == 0 && !j.failParent && j.treeId.None? && j.treeDepth == 0
  }

  /** Its receipt, if it has a key, answers for it. */
  predicate Receipted(receipts: Receipts, v: AddJobRequest, id: Id, state: State) {
    v.key != "" ==>
      var slot := Slot(v.name, v.key);
      && slot in receipts && receipts[slot].request == v && receipts[slot].jobId == id
      && receipts[slot].initialState == state
  }

  /** A new admission adds one row, which holds the request and stands where it should, and its receipt. */
  lemma NewRow(cfg: Config, s: Store, v: AddJobRequest, id: Id, newTrace: string, now: int)
    requires IsNew(EnqueueOne(cfg, s, v, id, newTrace, now))
    ensures var a := EnqueueOne(cfg, s, v, id, newTrace, now);
            && id in a.store.jobs && a.store.jobs == s.jobs[id := a.store.jobs[id]]
            && Holds(a.store.jobs[id], v, now)
            && StandsAt(s, v, newTrace, a.store.jobs[id].card.depth, a.store.jobs[id].card.trace)
            && a.reply.id == id && a.reply.state == a.store.jobs[id].state
    ensures var a := EnqueueOne(cfg, s, v, id, newTrace, now);
            Receipted(a.store.receipts, v, id, a.reply.state) && ReceiptsOnlyAdded(s.receipts, a.store.receipts, v, now)
  {
    NewAdmissionRow(cfg, s, v, id, newTrace, now);
    var p := v.metadata.parentId;
    if p != "" { assert IsCard(s, p, if p in s.jobs then s.jobs[p].card else s.history[p].card); }
  }

  /** It counts in its trace and in its facet's ingress window, and nothing else changes but gauges. */
  lemma NewCounters(cfg: Config, s: Store, v: AddJobRequest, id: Id, newTrace: string, now: int)
    requires IsNew(EnqueueOne(cfg, s, v, id, newTrace, now))
    ensures id in EnqueueOne(cfg, s, v, id, newTrace, now).store.jobs
    ensures var t := EnqueueOne(cfg, s, v, id, newTrace, now).store;
            && CountsTrace(cfg, s.chains, t.chains, t.jobs[id].card.trace, now)
            && (if v.facet == "" then t.ingressCounts == s.ingressCounts
                else Ingress.Admit(s.ingressRules, s.ingressCounts, v.facet, now) == Some(t.ingressCounts))
            && t == s.(jobs := t.jobs, receipts := t.receipts, chains := t.chains, ingressCounts := t.ingressCounts,
                       gauges := t.gauges)
  {
  }

  /** With a cap, the trace counts one more job and remembers when. */
  predicate CountsTrace(cfg: Config, chains: map<string, ChainRow>, chains': map<string, ChainRow>, trace: string,
                        now: int) {
    if cfg.maxChainSize == 0 then chains' == chains
    else
      && trace in chains' && chains' == chains[trace := chains'[trace]]
      && chains'[trace] == ChainRow((if trace in chains then chains[trace].count else 0) + 1, now)
  }

  /** No other receipt changes; a new one remembers how it is to be released. */
  predicate ReceiptsOnlyAdded(receipts: Receipts, receipts': Receipts, v: AddJobRequest, now: int) {
    var slot := Slot(v.name, v.key);
    && (v.key == "" ==> receipts' == receipts)
    && (v.key != "" ==>
          && slot !in receipts && slot in receipts' && receipts' == receipts[slot := receipts'[slot]]
          && receipts'[slot].releaseOnFinish == v.releaseOnFinish && receipts'[slot].createdAt == now)
  }

  // ---- Batches ----

  /** A job without a parent stands where the client says, in a fresh trace if it names none. */
  predicate RootStands(j: Job, r: AddJobRequest, newTrace: string) {
    r.metadata.parentId == "" ==>
      && j.card.depth == r.metadata.depth
      && j.card.trace == if r.metadata.traceId == "" then newTrace else r.metadata.traceId
  }

  /** What the `k`-th answer of a batch means for the tables. */
  predicate Serves(t: Store, item: Item, reply: AddReply, now: int) {
    && Receipted(t.receipts, item.request, reply.id, reply.state)
    && (reply.replayed ==> item.request.key != "")
    && (!reply.replayed ==>
          && reply.id == item.id && item.id in t.jobs && Holds(t.jobs[item.id], item.request, now)
          && RootStands(t.jobs[item.id], item.request, item.freshTrace)
          && reply.state == t.jobs[item.id].state)
  }

  lemma NewServed(cfg: Config, s: Store, item: Item, now: int)
    requires IsNew(EnqueueOne(cfg, s, item.request, item.id, item.freshTrace, now))
    ensures var a := EnqueueOne(cfg, s, item.request, item.id, item.freshTrace, now);
            Serves(a.store, item, a.reply, now)
  {
    NewRow(cfg, s, item.request, item.id, item.freshTrace, now);
  }

  lemma NewKeeps(cfg: Config, s: Store, item: Item, now: int)
    requires IsNew(EnqueueOne(cfg, s, item.request, item.id, item.freshTrace, now)) && item.id !in s.jobs
    ensures Keeps(s, EnqueueOne(cfg, s, item.request, item.id, item.freshTrace, now).store)
  {
    NewRow(cfg, s, item.request, item.id, item.freshTrace, now);
  }

  lemma OneServed(cfg: Config, s: Store, item: Item, now: int)
    requires EnqueueOne(cfg, s, item.request, item.id, item.freshTrace, now).Admitted? && item.id !in s.jobs
    ensures var a := EnqueueOne(cfg, s, item.request, item.id, item.freshTrace, now);
            Serves(a.store, item, a.reply, now) && Keeps(s, a.store)
  {
    var a := EnqueueOne(cfg, s, item.request, item.id, item.freshTrace, now);
    if IsNew(a) {
      NewServed(cfg, s, item, now);
      NewKeeps(cfg, s, item, now);
    }
  }

  /** Rows and receipts are only added. */
  predicate Keeps(s: Store, t: Store) {
    && (forall id | id in s.jobs :: id in t.jobs && t.jobs[id] == s.jobs[id])
    && (forall slot | slot in s.receipts :: slot in t.receipts && t.receipts[slot] == s.receipts[slot])
  }

  lemma ServedStays(s: Store, t: Store, item: Item, reply: AddReply, now: int)
    requires Serves(s, item, reply, now) && Keeps(s, t)
    ensures Serves(t, item, reply, now)
  {
  }

  /** What the last item of a batch does to the tables that the earlier ones left. */
  lemma LastServed(cfg: Config, s: Store, items: seq<Item>, now: int)
    requires items != [] && EnqueueAll(cfg, s, items, now).Done? && FreshItems(s.jobs.Keys, items)
    ensures var n, b := |items| - 1, EnqueueAll(cfg, s, items, now);
            var a := EnqueueAll(cfg, s, items[..n], now);
            && a.Done? && FreshItems(s.jobs.Keys, items[..n]) && |b.replies| == |a.replies| + 1
            && b.replies[..|a.replies|] == a.replies && Keeps(a.store, b.store)
            && Serves(b.store, items[n], b.replies[|a.replies|], now)
  {
    var n := |items| - 1;
    var a := EnqueueAll(cfg, s, items[..n], now);
    assert FreshItems(s.jobs.Keys, items[..n]);
    BatchGrows(cfg, s, items[..n], now);
    NextIsFresh(s.jobs.Keys, items, a.store.jobs.Keys);
    OneServed(cfg, a.store, items[n], now);
  }

  lemma {:induction false} BatchServed(cfg: Config, s: Store, items: seq<Item>, now: int, k: nat)
    requires EnqueueAll(cfg, s, items, now).Done? && FreshItems(s.jobs.Keys, items) && k < |items|
    ensures var b := EnqueueAll(cfg, s, items, now);
            |b.replies| == |items| && Serves(b.store, items[k], b.replies[k], now)
    decreases |items|
  {
    var n, b := |items| - 1, EnqueueAll(cfg, s, items, now);
    LastServed(cfg, s, items, now);
    BatchLength(cfg, s, items, now);
    if k < n {
      var a := EnqueueAll(cfg, s, items[..n], now);
      BatchServed(cfg, s, items[..n], now, k);
      ServedStays(a.store, b.store, items[k], a.replies[k], now);
      assert b.replies[k] == a.replies[k];
    }
  }

  lemma {:induction false} BatchLength(cfg: Config, s: Store, items: seq<Item>, now: int)
    requires EnqueueAll(cfg, s, items, now).Done?
    ensures |EnqueueAll(cfg, s, items, now).replies| == |items|
  {
    if items != [] { BatchLength(cfg, s, items[..|items| - 1], now); }
  }

  // ---- The call ----

  /** The row does what the client asked for. */
  predicate AsAsked(j: Job, r: AddJobRequest, now: int) {
    && j.card.name == r.name && j.card.payload == r.payload && j.card.priority == r.priority
    && j.card.parent == OptionOf(r.metadata.parentId) && j.card.facet == OptionOf(r.facet)
    && j.card.maxAttempts == (if r.maxAttempts > 0 then r.maxAttempts else 3) && j.card.createdAt == now
    && j.retry.base == r.backoffMs && j.retry.jitter == r.jitter
    && j.retry.cap == (if r.backoffMaxMs > 0 then r.backoffMaxMs
                       else if r.backoffMs > 60_000 then r.backoffMs else 60_000)
    && j.availableAt == now + r.delayMs && j.state == (if r.delayMs > 0 then Delayed else Waiting)
    && AtRest(j) && j.pending == 0 && !j.failParent && j.treeId.None? && j.treeDepth == 0
  }

  predicate FreshIds(s: Store, ids: seq<Id>) {
    && (forall i | 0 <= i < |ids| :: ids[i] !in s.jobs)
    && (forall i, j | 0 <= i < j < |ids| :: ids[i] != ids[j])
  }

  /** What the `k`-th answer of a call tells its client. */
  predicate Told(t: Store, r: AddJobRequest, id: Id, newTrace: string, reply: AddReply, now: int) {
    && (reply.replayed ==> r.key != "")
    && (r.key != "" ==>
          var slot := Slot(r.name, r.key);
          slot in t.receipts && t.receipts[slot].jobId == reply.id && t.receipts[slot].initialState == reply.state
          && Normalizes(r, t.receipts[slot].request))
    && (!reply.replayed ==>
          && reply.id == id && id in t.jobs && AsAsked(t.jobs[id], r, now) && RootStands(t.jobs[id], r, newTrace)
          && reply.state == t.jobs[id].state)
  }

  /** A successful call stores a job as asked for every request that is not a replay, and answers in order. */
  lemma CallServed(cfg: Config, s: Store, bulk: bool, rs: seq<AddJobRequest>, ids: seq<Id>, traces: seq<string>,
                   now: int, k: nat)
    requires |ids| == |traces| == |rs| && k < |rs| && FreshIds(s, ids)
    requires AddJobs(cfg, s, bulk, rs, ids, traces, now).1.Ok?
    ensures var (t, reply) := AddJobs(cfg, s, bulk, rs, ids, traces, now);
            |reply.value| == |rs| && Told(t, rs[k], ids[k], traces[k], reply.value[k], now)
  {
    var valid := ValidateAll(cfg, rs).value;
    var items := ItemsOf(valid, ids, traces);
    forall i | 0 <= i < |rs| ensures items[i].request.maxAttempts >= 1 { AllValid(cfg, rs, i); }
    AllValid(cfg, rs, k);
    BatchServed(cfg, s, items, now, k);
  }

  /** A bulk call takes 1 to 5000 requests; a call with an invalid request is refused with the first one's code. */
  lemma {:induction false} FirstInvalid(cfg: Config, rs: seq<AddJobRequest>)
    ensures ValidateAll(cfg, rs).Ok? <==>
            forall k | 0 <= k < |rs| :: WellFormed(rs[k]) && rs[k].metadata.depth <= cfg.maxExecutionDepth
    ensures ValidateAll(cfg, rs).Err? ==>
              exists k | 0 <= k < |rs| ::
                && (forall i | 0 <= i < k :: WellFormed(rs[i]) && rs[i].metadata.depth <= cfg.maxExecutionDepth)
                && !(WellFormed(rs[k]) && rs[k].metadata.depth <= cfg.maxExecutionDepth)
                && ValidateAll(cfg, rs).code == if WellFormed(rs[k]) then ResourceExhausted else InvalidArgument
  {
    if rs != [] {
      var n := |rs| - 1;
      FirstInvalid(cfg, rs[..n]);
      ValidExactly(cfg, rs[n]);
      assert forall i | 0 <= i < n :: rs[..n][i] == rs[i];
    }
  }

  lemma CallRefused(cfg: Config, s: Store, bulk: bool, rs: seq<AddJobRequest>, ids: seq<Id>, traces: seq<string>,
                    now: int)
    requires |ids| == |traces| == |rs|
    ensures var sized := bulk ==> 1 <= |rs| <= 5000;
            && (!sized ==> AddJobs(cfg, s, bulk, rs, ids, traces, now) == (s, Err(InvalidArgument)))
            && (sized && ValidateAll(cfg, rs).Err? ==>
                  AddJobs(cfg, s, bulk, rs, ids, traces, now) == (s, Err(ValidateAll(cfg, rs).code)))
  {
  }

  /** A batch fails at the first item that is not admitted, and for its reason. */
  lemma {:induction false} FirstFailure(cfg: Config, s: Store, items: seq<Item>, now: int) returns (k: nat, mid: Store)
    requires EnqueueAll(cfg, s, items, now).Undone?
    ensures k < |items| && EnqueueAll(cfg, s, items[..k], now).Done? && mid == EnqueueAll(cfg, s, items[..k], now).store
    ensures var a, b := EnqueueOne(cfg, mid, items[k].request, items[k].id, items[k].freshTrace, now),
                        EnqueueAll(cfg, s, items, now);
            && (a.Refused? || a.Rejected?)
            && b.code == a.code && b.record == if a.Rejected? then Some(a.record) else None
  {
    var n := |items| - 1;
    if EnqueueAll(cfg, s, items[..n], now).Done? {
      k, mid := n, EnqueueAll(cfg, s, items[..n], now).store;
    } else {
      k, mid := FirstFailure(cfg, s, items[..n], now);
      assert items[..n][..k] == items[..k];
    }
  }

  /** A failing call answers for its first request that is not admitted, and records exactly that rejection. */
  lemma CallRejected(cfg: Config, s: Store, bulk: bool, rs: seq<AddJobRequest>, ids: seq<Id>, traces: seq<string>,
                     now: int)
    returns (k: nat, mid: Store)
    requires |ids| == |traces| == |rs| && (bulk ==> 1 <= |rs| <= 5000) && ValidateAll(cfg, rs).Ok?
    requires AddJobs(cfg, s, bulk, rs, ids, traces, now).1.Err?
    ensures var items := ItemsOf(ValidateAll(cfg, rs).value, ids, traces);
            && k < |items| && EnqueueAll(cfg, s, items[..k], now).Done?
            && mid == EnqueueAll(cfg, s, items[..k], now).store
            && var a := EnqueueOne(cfg, mid, items[k].request, items[k].id, items[k].freshTrace, now);
               var (t, reply) := AddJobs(cfg, s, bulk, rs, ids, traces, now);
            && (a.Refused? || a.Rejected?) && reply == Err(a.code)
            && (a.Refused? ==> t == s)
            && (a.Rejected? ==> t == s.(rejections := s.rejections[s.nextRejection := a.record],
                                        nextRejection := s.nextRejection + 1))
  {
    k, mid := FirstFailure(cfg, s, ItemsOf(ValidateAll(cfg, rs).value, ids, traces), now);
  }
}
