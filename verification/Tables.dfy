/**
  The rows of the broker's tables, the requests that reach it and the statuses
  it answers with.  Text columns are strings, nullable columns are options, and
  a whole database is one value, so that a transaction is a value that is
  either stored back or dropped.
 */
module Tables {

  datatype Option<+T> = None | Some(value: T)

  type Id = string
  newtype byte = x: int | 0 <= x < 256
  type Bytes = seq<byte>

  const I64_MAX: int := 0x7fff_ffff_ffff_ffff
  const U32_MAX: int := 0xffff_ffff

  /** `i64`, where a stored column relies on its range. */
  type Long = x: int | -I64_MAX - 1 <= x <= I64_MAX

  /** The gRPC status codes the modelled calls answer with. */
  datatype Code =
    | InvalidArgument
    | NotFound
    | AlreadyExists
    | PermissionDenied
    | FailedPrecondition
    | ResourceExhausted
    | Internal

  datatype Reply<+T> = Ok(value: T) | Err(code: Code)

  /** States of a row in `jobs`; a row in `job_history` has an `Outcome`. */
  datatype State = Waiting | Delayed | Active | WaitingChildren

  datatype Outcome = Completed | Failed

  /** The columns that `jobs` and `job_history` share and that no update touches. */
  datatype Card = Card(
    name: string,
    priority: int,
    payload: Bytes,
    parent: Option<Id>,
    trace: string,
    depth: nat,
    maxAttempts: nat,
    createdAt: int,
    facet: Option<string>)

  datatype Retry = Retry(base: Long, cap: Long, jitter: real)

  datatype Job = Job(
    card: Card,
    retry: Retry,
    state: State,
    attempts: nat,
    availableAt: int,
    worker: Option<string>,
    lease: Option<int>,
    lastError: Option<string>,
    pending: int,
    failParent: bool,
    treeId: Option<Id>,
    treeDepth: nat)

  datatype Archived = Archived(
    card: Card,
    outcome: Outcome,
    attempts: nat,
    finishedAt: int,
    worker: Option<string>,
    lastError: Option<string>,
    result: Option<Bytes>,
    failParent: bool,
    treeId: Option<Id>,
    treeDepth: nat)

  type Jobs = map<Id, Job>
  type History = map<Id, Archived>

  /** The primary key of `enqueue_receipts`. */
  datatype Slot = Slot(queue: string, key: string)

  datatype Metadata = Metadata(parentId: string, traceId: string, depth: nat)

  datatype AddJobRequest = AddJobRequest(
    name: string,
    payload: Bytes,
    priority: int,
    metadata: Metadata,
    maxAttempts: nat,
    delayMs: int,
    facet: string,
    backoffMs: Long,
    backoffMaxMs: Long,
    key: string,
    jitter: real,
    releaseOnFinish: bool)

  /** A receipt keeps the normalized request itself in place of its encoded bytes. */
  datatype Receipt = Receipt(
    request: AddJobRequest,
    jobId: Id,
    initialState: State,
    createdAt: int,
    releaseOnFinish: bool)

  type Receipts = map<Slot, Receipt>

  /** A rule is only stored once its window is known to be positive. */
  type Millis = x: int | 0 < x witness 1
  datatype Rule = Rule(maxJobs: nat, windowMs: Millis)
  datatype WindowCount = WindowCount(count: int, expiresAt: int)
  datatype Bucket = Bucket(start: int, current: int, previous: int)
  datatype ChainRow = ChainRow(count: int, updatedAt: int)
  datatype Served = Served(seqNo: int, at: int)

  datatype RejectionKind =
    | IngressVelocity
    | ParentNotFound
    | InconsistentDepth
    | CircuitBreaker
    | ChainQuarantine

  datatype Rejection = Rejection(
    at: int,
    kind: RejectionKind,
    name: string,
    trace: Option<string>,
    parent: Option<Id>,
    depth: Option<int>,
    facet: Option<string>)

  datatype Scheduler = Scheduler(
    jobName: string,
    payload: Bytes,
    cron: string,
    timezone: Option<string>,
    produced: nat,
    nextRun: Option<int>,
    lastJob: Option<Id>,
    priority: Option<int>,
    maxAttempts: Option<nat>,
    backoffMs: Option<Long>,
    backoffMaxMs: Option<Long>,
    jitter: Option<real>,
    facet: Option<string>,
    createdAt: int,
    updatedAt: int)

  /** The in-memory level gauges: one per tracked state and one for parked parents. */
  datatype Gauges = Gauges(
    waiting: int,
    delayed: int,
    active: int,
    completed: int,
    failed: int,
    waitingChildren: int)

  datatype Store = Store(
    jobs: Jobs,
    history: History,
    receipts: Receipts,
    chains: map<string, ChainRow>,
    rateRules: map<string, Rule>,
    rateCounts: map<string, WindowCount>,
    ingressRules: map<string, Rule>,
    ingressCounts: map<string, Bucket>,
    facets: map<string, Served>,
    schedulers: map<Id, Scheduler>,
    rejections: map<nat, Rejection>,
    nextRejection: nat,
    gauges: Gauges)

  const NO_GAUGES := Gauges(0, 0, 0, 0, 0, 0)

  /** A fresh schema. */
  const EMPTY := Store(map[], map[], map[], map[], map[], map[], map[], map[], map[],
                       map[], map[], 0, NO_GAUGES)

  datatype Config = Config(
    maxExecutionDepth: nat,
    maxChainSize: nat,
    fairness: bool,
    leaseMs: nat,
    maxFlowDepth: nat,
    maxFlowNodes: nat,
    maxFlowBulk: nat)

  function Lookup<V>(m: map<string, V>, k: string): Option<V> {
    if k in m then Some(m[k]) else None
  }

  /** `i64::saturating_add`. */
  function SatAdd(a: int, b: int): int {
    if a + b > I64_MAX then I64_MAX else if a + b < -I64_MAX - 1 then -I64_MAX - 1 else a + b
  }

  /** The row a terminal transition writes to `job_history`. */
  function Archive(j: Job, outcome: Outcome, now: int, error: Option<string>, result: Option<Bytes>): Archived {
    Archived(j.card, outcome, j.attempts, now, j.worker, error, result, j.failParent, j.treeId, j.treeDepth)
  }

  /** Lease recovery leaves the flow columns out of its insert, so they take their defaults. */
  function ArchiveExpired(j: Job, now: int): Archived {
    Archived(j.card, Failed, j.attempts, now, j.worker, Some("Worker lease expired"), None, false, None, 0)
  }

  // ---- Text ----

  /** Unicode White_Space, which `str::trim` strips. */
  predicate IsSpace(c: char) {
    var n := c as int;
    9 <= n <= 13 || n in {0x20, 0x85, 0xA0, 0x1680, 0x2028, 0x2029, 0x202F, 0x205F, 0x3000} || 0x2000 <= n <= 0x200A
  }

  predicate Blank(s: string) {
    forall i :: 0 <= i < |s| ==> IsSpace(s[i])
  }

  /** Length of a string in UTF-8 bytes. */
  function Utf8Length(s: string): nat {
    if s == [] then 0
    else
      var n := s[0] as int;
      (if n < 0x80 then 1 else if n < 0x800 then 2 else if n < 0x1_0000 then 3 else 4) + Utf8Length(s[1..])
  }
}
