/**
  AddJob and AddJobBulk: validation, the admission core shared by single, bulk
  and scheduled enqueues, and the all-or-nothing batch.
 */
module Enqueue {
  import opened Tables
  import opened Telemetry
  import opened Flatten
  import Ingress
  import Flow

  datatype AddReply = AddReply(id: Id, state: State, replayed: bool)

  // ---- Validation ----

  /** `validate_and_prepare`: the request with its defaults filled in, or the reason to refuse it. */
  function Validate(cfg: Config, r: AddJobRequest): Reply<AddJobRequest> {
    if !KeyOk(r.key) then Err(InvalidArgument)
    else if r.releaseOnFinish && r.key == "" then Err(InvalidArgument)
    else if r.delayMs < 0 || r.backoffMs < 0 || r.backoffMaxMs < 0 then Err(InvalidArgument)
    else if EffectiveCap(r.backoffMs, r.backoffMaxMs) < r.backoffMs then Err(InvalidArgument)
    else if !(0.0 <= r.jitter <= 1.0) then Err(InvalidArgument)
    else if r.metadata.depth > cfg.maxExecutionDepth then Err(ResourceExhausted)
    else Ok(r.(backoffMaxMs := EffectiveCap(r.backoffMs, r.backoffMaxMs),
               maxAttempts := if r.maxAttempts == 0 then 3 else r.maxAttempts))
  }

  function ValidateAll(cfg: Config, rs: seq<AddJobRequest>): (valid: Reply<seq<AddJobRequest>>)
    ensures valid.Ok? ==> |valid.value| == |rs|
  {
    if rs == [] then Ok([])
    else
      var n := |rs| - 1;
      match ValidateAll(cfg, rs[..n])
      case Err(code) => Err(code)
      case Ok(done) =>
        match Validate(cfg, rs[n])
        case Err(code) => Err(code)
        case Ok(r) => Ok(done + [r])
  }

  // ---- Lineage ----

  datatype Ancestry = Placed(depth: nat, trace: string) | NoParent | WrongDepth(parentTrace: string)

  function ParentOf(r: AddJobRequest): Option<Id> {
    if r.metadata.parentId == "" then None else Some(r.metadata.parentId)
  }

  /** With a parent, depth and trace are the server's to derive; without one they are the client's. */
  function Trace(jobs: Jobs, history: History, r: AddJobRequest, freshTrace: string): Ancestry {
    match ParentOf(r)
    case None => Placed(r.metadata.depth, if r.metadata.traceId == "" then freshTrace else r.metadata.traceId)
    case Some(p) =>
      if p !in jobs && p !in history then NoParent
      else
        var card := if p in jobs then jobs[p].card else history[p].card;
        if r.metadata.depth == 0 || r.metadata.depth == card.depth + 1 then Placed(card.depth + 1, card.trace)
        else WrongDepth(card.trace)
  }

  // ---- The admission core ----

  datatype Admission =
    | Admitted(store: Store, reply: AddReply)
    | Refused(code: Code)
    | Rejected(code: Code, record: Rejection)

  function ChainSize(chains: map<string, ChainRow>, trace: string): int {
    if trace in chains then chains[trace].count else 0
  }

  function Counted(cfg: Config, chains: map<string, ChainRow>, trace: string, now: int): map<string, ChainRow> {
    if cfg.maxChainSize == 0 then chains
    else chains[trace := ChainRow(ChainSize(chains, trace) + 1, now)]
  }

  function SoloJob(r: AddJobRequest, depth: nat, trace: string, now: int): Job {
    Job(Card(r.name, r.priority, r.payload, ParentOf(r), trace, depth, r.maxAttempts, now, Flow.NonEmpty(r.facet)),
        Retry(r.backoffMs, r.backoffMaxMs, r.jitter),
        if r.delayMs > 0 then Delayed else Waiting, 0, now + r.delayMs, None, None, None, 0, false, None, 0)
  }

  /** The inserts of an admitted job. */
  function Store1(cfg: Config, s: Store, counts: map<string, Bucket>, r: AddJobRequest, depth: nat, trace: string,
                  id: Id, now: int): Store
  {
    var j := SoloJob(r, depth, trace, now);
    s.(jobs := s.jobs[id := j],
       receipts := if r.key == "" then s.receipts
                   else s.receipts[Slot(r.name, r.key) := Receipt(r, id, j.state, now, r.releaseOnFinish)],
       chains := Counted(cfg, s.chains, trace, now),
       ingressCounts := counts,
       gauges := Transition(s.gauges, None, Live(j.state)))
  }

  function Quota(s: Store, r: AddJobRequest, now: int): Option<map<string, Bucket>> {
    if r.facet == "" then Some(s.ingressCounts) else Ingress.Admit(s.ingressRules, s.ingressCounts, r.facet, now)
  }

  /** `enqueue_one`: the checks in the order they are made. */
  function EnqueueOne(cfg: Config, s: Store, r: AddJobRequest, id: Id, freshTrace: string, now: int): Admission {
    if r.key != "" && Slot(r.name, r.key) in s.receipts then
      var kept := s.receipts[Slot(r.name, r.key)];
      if kept.request == r then Admitted(s, AddReply(kept.jobId, kept.initialState, true)) else Refused(AlreadyExists)
    else
      match Quota(s, r, now)
      case None =>
        Rejected(ResourceExhausted, Rejection(now, IngressVelocity, r.name, None, None, None, Some(r.facet)))
      case Some(counts) =>
        if now + r.delayMs > I64_MAX then Refused(InvalidArgument)
        else
          match Trace(s.jobs, s.history, r, freshTrace)
          case NoParent =>
            Rejected(FailedPrecondition, Rejection(now, ParentNotFound, r.name, None, ParentOf(r), None, None))
          case WrongDepth(t) =>
            Rejected(InvalidArgument,
                     Rejection(now, InconsistentDepth, r.name, Some(t), ParentOf(r), Some(r.metadata.depth), None))
          case Placed(depth, trace) =>
            if depth > cfg.maxExecutionDepth then
              Rejected(ResourceExhausted,
                       Rejection(now, CircuitBreaker, r.name, Some(trace), ParentOf(r), Some(depth), None))
            else if cfg.maxChainSize > 0 && ChainSize(s.chains, trace) >= cfg.maxChainSize then
              Rejected(ResourceExhausted,
                       Rejection(now, ChainQuarantine, r.name, Some(trace), ParentOf(r), Some(depth), None))
            else
              Admitted(Store1(cfg, s, counts, r, depth, trace, id, now),
                       AddReply(id, SoloJob(r, depth, trace, now).state, false))
  }

  // ---- Batches ----

  /** A validated request with the id and trace it will get if it needs them. */
  datatype Item = Item(request: AddJobRequest, id: Id, freshTrace: string)

  datatype Batch = Done(store: Store, replies: seq<AddReply>) | Undone(code: Code, record: Option<Rejection>)

  function EnqueueAll(cfg: Config, s: Store, items: seq<Item>, now: int): Batch {
    if items == [] then Done(s, [])
    else
      var n := |items| - 1;
      match EnqueueAll(cfg, s, items[..n], now)
      case Undone(code, record) => Undone(code, record)
      case Done(t, replies) =>
        match EnqueueOne(cfg, t, items[n].request, items[n].id, items[n].freshTrace, now)
        case Admitted(t', reply) => Done(t', replies + [reply])
        case Refused(code) => Undone(code, None)
        case Rejected(code, record) => Undone(code, Some(record))
  }

  /** A rejection is recorded in a transaction of its own, after the rollback. */
  function Record(s: Store, record: Option<Rejection>): Store {
    if record.None? then s
    else s.(rejections := s.rejections[s.nextRejection := record.value], nextRejection := s.nextRejection + 1)
  }

  const MAX_BULK_BATCH_SIZE := 5000

  function ItemsOf(rs: seq<AddJobRequest>, ids: seq<Id>, traces: seq<string>): (items: seq<Item>)
    requires |ids| == |traces| == |rs|
    ensures |items| == |rs|
  {
    seq(|rs|, i requires 0 <= i < |rs| => Item(rs[i], ids[i], traces[i]))
  }

  function AddJobs(cfg: Config, s: Store, bulk: bool, rs: seq<AddJobRequest>, ids: seq<Id>, traces: seq<string>,
                   now: int)
    : (Store, Reply<seq<AddReply>>)
    requires |ids| == |traces| == |rs|
  {
    if bulk && (rs == [] || |rs| > MAX_BULK_BATCH_SIZE) then (s, Err(InvalidArgument))
    else
      match ValidateAll(cfg, rs)
      case Err(code) => (s, Err(code))
      case Ok(valid) =>
        match EnqueueAll(cfg, s, ItemsOf(valid, ids, traces), now)
        case Undone(code, record) => (Record(s, record), Err(code))
        case Done(t, replies) => (t, Ok(replies))
  }

  function AddJob(cfg: Config, s: Store, r: AddJobRequest, id: Id, trace: string,
                  now: int): (Store, Reply<seq<AddReply>>) {
    AddJobs(cfg, s, false, [r], [id], [trace], now)
  }
}
