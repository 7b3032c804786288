/**
  AddFlow, AddFlowBulk and AddFlowMerge: storing flattened trees, either as new
  trees or under an existing job that then waits for the new children too.
 */
module Flow {
  import opened Tables
  import opened Telemetry
  import opened Lifecycle
  import opened Flatten

  function NonEmpty(s: string): Option<string> {
    if s == "" then None else Some(s)
  }

  /** The row stored for a prepared node of `tree` whose list starts `base` levels down. */
  function JobOf(r: Prepared, tree: Id, base: nat, now: int): Job {
    Job(Card(r.body.name, r.body.priority, r.body.payload, r.parent, tree, base + r.depth, r.body.maxAttempts, now,
             NonEmpty(r.body.facet)),
        Retry(r.body.backoffMs, r.body.backoffMaxMs, r.body.jitter),
        r.state, 0, now + r.body.delayMs, None, None, None, r.pending, r.body.failParent, Some(tree), base + r.depth)
  }

  /** The request a node's receipt remembers: what AddJob would have been asked for. */
  function RequestOf(r: Prepared, tree: Id, base: nat): AddJobRequest {
    AddJobRequest(r.body.name, r.body.payload, r.body.priority,
                  Metadata(if r.parent.Some? then r.parent.value else "", tree, base + r.depth),
                  r.body.maxAttempts, r.body.delayMs, r.body.facet, r.body.backoffMs, r.body.backoffMaxMs,
                  r.body.key, r.body.jitter, false)
  }

  function ReceiptOf(r: Prepared, tree: Id, base: nat, now: int): Receipt {
    Receipt(RequestOf(r, tree, base), r.id, r.state, now, false)
  }

  function RowMap(rows: seq<Prepared>, tree: Id, base: nat, now: int): Jobs {
    if rows == [] then map[]
    else
      var n := |rows| - 1;
      RowMap(rows[..n], tree, base, now)[rows[n].id := JobOf(rows[n], tree, base, now)]
  }

  function ReceiptMap(rows: seq<Prepared>, tree: Id, base: nat, now: int): Receipts {
    if rows == [] then map[]
    else
      var n := |rows| - 1;
      var m := ReceiptMap(rows[..n], tree, base, now);
      if rows[n].body.key == "" then m else m[SlotOf(rows[n].body) := ReceiptOf(rows[n], tree, base, now)]
  }

  /** A node that cannot be stored: its due time overflows, or its key is taken. */
  function Offence(receipts: Receipts, r: Prepared, now: int): Option<Code> {
    if now + r.body.delayMs > I64_MAX then Some(InvalidArgument)
    else if r.body.key != "" && SlotOf(r.body) in receipts then Some(FailedPrecondition)
    else None
  }

  /** The first node in order that cannot be stored decides the answer. */
  function FirstOffence(receipts: Receipts, rows: seq<Prepared>, now: int): Option<Code> {
    if rows == [] then None
    else
      var n := |rows| - 1;
      var earlier := FirstOffence(receipts, rows[..n], now);
      if earlier.Some? then earlier else Offence(receipts, rows[n], now)
  }

  /** The gauges after inserting `rows`. */
  function Added(g: Gauges, rows: Jobs): Gauges {
    g.(waiting := g.waiting + |InState(rows, Waiting)|,
       delayed := g.delayed + |InState(rows, Delayed)|,
       active := g.active + |InState(rows, Active)|,
       waitingChildren := g.waitingChildren + |InState(rows, WaitingChildren)|)
  }

  function Insert(s: Store, rows: seq<Prepared>, tree: Id, base: nat, now: int): Store {
    var news := RowMap(rows, tree, base, now);
    s.(jobs := s.jobs + news,
       receipts := s.receipts + ReceiptMap(rows, tree, base, now),
       gauges := Added(s.gauges, news))
  }

  /** What the client is told of a stored node. */
  datatype FlowNode = FlowNode(id: Id, parentId: string, name: string, depth: nat, state: State)

  function NodeOf(r: Prepared, base: nat): FlowNode {
    FlowNode(r.id, if r.parent.Some? then r.parent.value else "", r.body.name, base + r.depth, r.state)
  }

  function Report(rows: seq<Prepared>, base: nat): (nodes: seq<FlowNode>)
    ensures |nodes| == |rows|
  {
    seq(|rows|, i requires 0 <= i < |rows| => NodeOf(rows[i], base))
  }

  // ---- New trees ----

  function InsertTree(s: Store, rows: seq<Prepared>, now: int): Reply<Store>
    requires rows != []
  {
    match FirstOffence(s.receipts, rows, now)
    case Some(code) => Err(code)
    case None => Ok(Insert(s, rows, rows[0].id, 0, now))
  }

  /** Trees of one call share the set of keys already used. */
  predicate AcceptableTrees(cfg: Config, flows: seq<FlowJob>, seen: set<Slot>) {
    flows == [] ||
    (&& Acceptable(flows[0], 0, cfg.maxFlowNodes, cfg.maxFlowDepth, seen)
     && AcceptableTrees(cfg, flows[1..], seen + SlotSet(Slots(flows[0]))))
  }

  /** Enough fresh ids for every tree. */
  predicate Supplied(flows: seq<FlowJob>, supplies: seq<seq<Id>>) {
    |flows| == |supplies| && forall i | 0 <= i < |flows| :: Size(flows[i]) <= |supplies[i]|
  }

  function InsertTrees(s: Store, flows: seq<FlowJob>, supplies: seq<seq<Id>>, now: int): Reply<Store>
    requires Supplied(flows, supplies)
    decreases |flows|
  {
    if flows == [] then Ok(s)
    else
      match InsertTree(s, Flat(flows[0], None, 0, supplies[0], 0), now)
      case Err(code) => Err(code)
      case Ok(t) => InsertTrees(t, flows[1..], supplies[1..], now)
  }

  function Reports(flows: seq<FlowJob>, supplies: seq<seq<Id>>): (trees: seq<seq<FlowNode>>)
    requires Supplied(flows, supplies)
    ensures |trees| == |flows|
  {
    seq(|flows|, i requires 0 <= i < |flows| => Report(Flat(flows[i], None, 0, supplies[i], 0), 0))
  }

  function AddFlows(cfg: Config, s: Store, bulk: bool, flows: seq<FlowJob>, supplies: seq<seq<Id>>, now: int)
    : (Store, Reply<seq<seq<FlowNode>>>)
    requires Supplied(flows, supplies)
  {
    if bulk && (flows == [] || |flows| > cfg.maxFlowBulk) then (s, Err(InvalidArgument))
    else if !AcceptableTrees(cfg, flows, {}) then (s, Err(InvalidArgument))
    else
      match InsertTrees(s, flows, supplies, now)
      case Err(code) => (s, Err(code))
      case Ok(t) => (t, Ok(Reports(flows, supplies)))
  }

  // ---- Merging under an existing job ----

  datatype Attached = Attached(parent: Id, nodes: seq<FlowNode>)

  function TreeOf(t: Id, j: Job): Id {
    if j.treeId.Some? then j.treeId.value else t
  }

  /** The table with the target counted in the tree it roots. */
  function Adopt(jobs: Jobs, t: Id): Jobs
    requires t in jobs
  {
    jobs[t := jobs[t].(treeId := Some(TreeOf(t, jobs[t])))]
  }

  /** Checks on the target and on the merged tree, in the order they are made. */
  function JudgeMerge(cfg: Config, s: Store, flow: FlowJob): Option<Code> {
    if SlotOf(flow.body) !in s.receipts then Some(NotFound)
    else
      var t := s.receipts[SlotOf(flow.body)].jobId;
      if t !in s.jobs || s.jobs[t].state.Active? then Some(FailedPrecondition)
      else if s.jobs[t].treeDepth + 1 + HeightAll(flow.children) > cfg.maxFlowDepth then Some(InvalidArgument)
      else if |TreeRows(Adopt(s.jobs, t), TreeOf(t, s.jobs[t]))| + SizeAll(flow.children) > cfg.maxFlowNodes
      then Some(InvalidArgument)
      else None
  }

  predicate BadMerge(flow: FlowJob) {
    || flow.body.key == ""
    || flow.children == []
    || !AcceptableAll(flow.children, 1, U32_MAX, U32_MAX, {})
  }

  function RegateGauges(g: Gauges, state: State): Gauges {
    if state.Waiting? || state.Delayed?
    then Telemetry.Parked(Transition(g, Some(Live(state)), Live(WaitingChildren)), 1)
    else g
  }

  /** The target `t` gains `added` children and waits for them. */
  function RegateTarget(s: Store, t: Id, added: nat): Store
    requires t in s.jobs
  {
    s.(jobs := s.jobs[t := Regated(t, s.jobs[t], added)], gauges := RegateGauges(s.gauges, s.jobs[t].state))
  }

  function NewRows(flow: FlowJob, t: Id, supply: seq<Id>): seq<Prepared>
    requires SizeAll(flow.children) <= |supply|
  {
    FlatAll(flow.children, Some(t), 1, supply, 0)
  }

  function AddFlowMerge(cfg: Config, s: Store, flow: FlowJob, supply: seq<Id>, now: int): (Store, Reply<Attached>)
    requires SizeAll(flow.children) <= |supply|
  {
    if BadMerge(flow) then (s, Err(InvalidArgument))
    else
      match JudgeMerge(cfg, s, flow)
      case Some(code) => (s, Err(code))
      case None =>
        var t := s.receipts[SlotOf(flow.body)].jobId;
        var rows := NewRows(flow, t, supply);
        match FirstOffence(s.receipts, rows, now)
        case Some(code) => (s, Err(code))
        case None =>
          (Insert(RegateTarget(s, t, |flow.children|), rows, TreeOf(t, s.jobs[t]), s.jobs[t].treeDepth, now),
           Ok(Attached(t, Report(rows, s.jobs[t].treeDepth))))
  }
}
