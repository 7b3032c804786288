/**
  AddFlowMerge as the client sees it: the checks in their order, what every new
  node has become, what the target waits for, and that the attached trees read
  back as sent.
 */
module MergeCalls {
  import opened Tables
  import opened Flatten
  import opened FlattenLaws
  import opened Flow
  import opened FlowLaws
  import opened FlowRows
  import opened FlowCalls
  import opened AcceptedFlows
  import opened Lifecycle
  import opened ReceiptLaws

  // ---- The checks ----

  predicate Askable(flow: FlowJob) {
    && flow.body.key != "" && flow.children != []
    && 1 + HeightAll(flow.children) <= U32_MAX && SizeAll(flow.children) <= U32_MAX
    && AllFine(PreorderAll(flow.children)) && Unused(KeysOf(PreorderAll(flow.children)), {})
  }

  lemma AskableExactly(flow: FlowJob)
    ensures Askable(flow) <==> !BadMerge(flow)
  {
    ForestFine(flow.children);
    ForestKeys(flow.children);
  }

  /** The tree a job belongs to, or roots if it belongs to none. */
  function OwnTree(j: Job, t: Id): Id {
    match j.treeId
    case Some(tree) => tree
    case None => t
  }

  /** The live jobs of the target's tree, the target among them. */
  function Members(jobs: Jobs, t: Id): set<Id>
    requires t in jobs
  {
    (set id | id in jobs && jobs[id].treeId == Some(OwnTree(jobs[t], t))) + {t}
  }

  /** What decides a merge, in the order in which it is looked at. */
  predicate Obstacle(cfg: Config, s: Store, flow: FlowJob, code: Option<Code>) {
    var slot := Slot(flow.body.name, flow.body.key);
    if !Askable(flow) then code == Some(InvalidArgument)
    else if slot !in s.receipts then code == Some(NotFound)
    else if s.receipts[slot].jobId !in s.jobs then code == Some(FailedPrecondition)
    else
      var t := s.receipts[slot].jobId;
      if s.jobs[t].state.Active? then code == Some(FailedPrecondition)
      else if s.jobs[t].treeDepth + 1 + HeightAll(flow.children) > cfg.maxFlowDepth then code == Some(InvalidArgument)
      else if |Members(s.jobs, t)| + SizeAll(flow.children) > cfg.maxFlowNodes then code == Some(InvalidArgument)
      else code == None
  }

  lemma ChecksExactly(cfg: Config, s: Store, flow: FlowJob)
    ensures Obstacle(cfg, s, flow, if BadMerge(flow) then Some(InvalidArgument) else JudgeMerge(cfg, s, flow))
  {
    AskableExactly(flow);
    var slot := Slot(flow.body.name, flow.body.key);
    if slot in s.receipts && s.receipts[slot].jobId in s.jobs {
      var t := s.receipts[slot].jobId;
      assert TreeRows(Adopt(s.jobs, t), TreeOf(t, s.jobs[t])) == Members(s.jobs, t);
    }
  }

  lemma NodesPrepared(flow: FlowJob, t: Id, supply: seq<Id>)
    requires SizeAll(flow.children) <= |supply|
    ensures var rows := NewRows(flow, t, supply);
            |rows| == |PreorderAll(flow.children)|
            && forall i | 0 <= i < |rows| :: Prepares(PreorderAll(flow.children)[i], rows[i]) && rows[i].id == supply[i]
  {
    var rows := NewRows(flow, t, supply);
    forall i | 0 <= i < |rows| ensures Prepares(PreorderAll(flow.children)[i], rows[i]) && rows[i].id == supply[i] {
      ForestPrepares(flow.children, Some(t), 1, supply, 0, i);
      ForestRow(flow.children, Some(t), 1, supply, 0, i);
    }
  }

  /** A merge succeeds exactly if no check stops it and every node can be stored; else it changes nothing. */
  lemma MergeExactly(cfg: Config, s: Store, flow: FlowJob, supply: seq<Id>, now: int, code: Option<Code>)
    requires SizeAll(flow.children) <= |supply| && Obstacle(cfg, s, flow, code)
    ensures var (t, reply) := AddFlowMerge(cfg, s, flow, supply, now);
            && (reply.Ok? <==> code.None? && AllStorable(s.receipts, PreorderAll(flow.children), now))
            && (reply.Err? ==> t == s)
            && (code.Some? ==> reply == Err(code.value))
            && (code.None? && reply.Err? ==> FirstBad(s.receipts, PreorderAll(flow.children), now, reply.code))
  {
    ChecksExactly(cfg, s, flow);
    AskableExactly(flow);
    if code.None? {
      var p := s.receipts[SlotOf(flow.body)].jobId;
      NodesPrepared(flow, p, supply);
      ListExactly(s.receipts, NewRows(flow, p, supply), PreorderAll(flow.children), now);
    }
  }

  // ---- The writes ----

  lemma MergeList(flow: FlowJob, t: Id, supply: seq<Id>)
    requires SizeAll(flow.children) <= |supply| && Distinct(supply) && !BadMerge(flow)
    ensures var rows := NewRows(flow, t, supply);
            OneEach(rows) && IdsOf(rows) <= IdSet(supply) && Unused(RowSlots(rows), {})
  {
    NodesPrepared(flow, t, supply);
    ForestSlots(flow.children, Some(t), 1, supply, 0);
  }

  lemma MergeStored(cfg: Config, s: Store, flow: FlowJob, supply: seq<Id>, now: int, i: nat)
    requires SizeAll(flow.children) <= |supply| && NewIds(s.receipts, [supply]) && i < SizeAll(flow.children)
    requires AddFlowMerge(cfg, s, flow, supply, now).1.Ok?
    ensures var t, p := AddFlowMerge(cfg, s, flow, supply, now).0, s.receipts[SlotOf(flow.body)].jobId;
            StoredAs(t.jobs, t.receipts, NewRows(flow, p, supply)[i], OwnTree(s.jobs[p], p), s.jobs[p].treeDepth, now)
  {
    assert Distinct([supply][0]) && Unnamed(s.receipts, IdSet([supply][0]));
    var p := s.receipts[SlotOf(flow.body)].jobId;
    MergeList(flow, p, supply);
    var u := RegateTarget(s, p, |flow.children|);
    ListStored(u.jobs, s.receipts, NewRows(flow, p, supply), OwnTree(s.jobs[p], p), s.jobs[p].treeDepth, now, i);
  }

  /** After a merge every new node is stored as it was sent, in the target's tree, and the answer says where. */
  lemma MergeAsSent(cfg: Config, s: Store, flow: FlowJob, supply: seq<Id>, now: int, i: nat)
    requires SizeAll(flow.children) <= |supply| && NewIds(s.receipts, [supply]) && i < SizeAll(flow.children)
    requires AddFlowMerge(cfg, s, flow, supply, now).1.Ok?
    ensures var (t, reply) := AddFlowMerge(cfg, s, flow, supply, now);
            var p := s.receipts[Slot(flow.body.name, flow.body.key)].jobId;
            && NodeStored(t, PreorderAll(flow.children)[i], supply[i], OwnTree(s.jobs[p], p), now)
            && reply.value.parent == p && |reply.value.nodes| == SizeAll(flow.children)
            && Reported(reply.value.nodes[i], t, supply[i])
  {
    var t, p := AddFlowMerge(cfg, s, flow, supply, now).0, s.receipts[SlotOf(flow.body)].jobId;
    MergeStored(cfg, s, flow, supply, now, i);
    NodesPrepared(flow, p, supply);
    var r := NewRows(flow, p, supply)[i];
    StoredIsSent(t, PreorderAll(flow.children)[i], r, OwnTree(s.jobs[p], p), s.jobs[p].treeDepth, now);
  }

  /** The target's row once it waits for `added` more children. */
  function Waiter(j: Job, t: Id, added: nat): Job {
    j.(state := WaitingChildren, pending := j.pending + added, treeId := Some(OwnTree(j, t)))
  }

  lemma TargetWaits(s: Store, p: Id, added: nat, x: Id)
    requires p in s.jobs
    ensures Lookup(RegateTarget(s, p, added).jobs, x) ==
            if x == p then Some(Waiter(s.jobs[p], p, added)) else Lookup(s.jobs, x)
  {
  }

  /** The target waits for its new children too; every other row stays. */
  lemma MergeTarget(cfg: Config, s: Store, flow: FlowJob, supply: seq<Id>, now: int, x: Id)
    requires SizeAll(flow.children) <= |supply| && x !in supply
    requires AddFlowMerge(cfg, s, flow, supply, now).1.Ok?
    ensures var p := s.receipts[Slot(flow.body.name, flow.body.key)].jobId;
            && p in s.jobs
            && Lookup(AddFlowMerge(cfg, s, flow, supply, now).0.jobs, x) ==
               if x == p then Some(Waiter(s.jobs[p], p, |flow.children|)) else Lookup(s.jobs, x)
  {
    var p := s.receipts[SlotOf(flow.body)].jobId;
    var rows, tree, base := NewRows(flow, p, supply), TreeOf(p, s.jobs[p]), s.jobs[p].treeDepth;
    NotNew(flow, p, supply, tree, base, now, x);
    MergedJobs(cfg, s, flow, supply, now, p);
    AddedElsewhere(RegateTarget(s, p, |flow.children|).jobs, RowMap(rows, tree, base, now), x);
    TargetWaits(s, p, |flow.children|, x);
  }

  lemma NotNew(flow: FlowJob, p: Id, supply: seq<Id>, tree: Id, base: nat, now: int, x: Id)
    requires SizeAll(flow.children) <= |supply| && x !in supply
    ensures x !in RowMap(NewRows(flow, p, supply), tree, base, now)
  {
    NodesPrepared(flow, p, supply);
    RowMapKeys(NewRows(flow, p, supply), tree, base, now);
  }

  lemma MergedJobs(cfg: Config, s: Store, flow: FlowJob, supply: seq<Id>, now: int, p: Id)
    requires SizeAll(flow.children) <= |supply| && AddFlowMerge(cfg, s, flow, supply, now).1.Ok?
    requires p == s.receipts[SlotOf(flow.body)].jobId
    ensures AddFlowMerge(cfg, s, flow, supply, now).0.jobs ==
            RegateTarget(s, p, |flow.children|).jobs
            + RowMap(NewRows(flow, p, supply), TreeOf(p, s.jobs[p]), s.jobs[p].treeDepth, now)
  {
  }

  lemma AddedElsewhere(jobs: Jobs, news: Jobs, x: Id)
    requires x !in news
    ensures Lookup(jobs + news, x) == Lookup(jobs, x)
  {
  }

  /** The attached trees, read from the tables by their parent links, are the children that were sent. */
  lemma MergeReadsBack(cfg: Config, s: Store, flow: FlowJob, supply: seq<Id>, now: int)
    requires SizeAll(flow.children) <= |supply| && NewIds(s.receipts, [supply])
    requires AddFlowMerge(cfg, s, flow, supply, now).1.Ok?
    requires s.receipts[Slot(flow.body.name, flow.body.key)].jobId !in supply
    ensures var t := AddFlowMerge(cfg, s, flow, supply, now).0;
            var p := s.receipts[Slot(flow.body.name, flow.body.key)].jobId;
            var ids := supply[..SizeAll(flow.children)];
            && (forall i | 0 <= i < |ids| :: ids[i] in t.jobs)
            && TreesUnder(ReadRows(t.jobs, t.receipts, ids, s.jobs[p].treeDepth), p, 0) == NormalAll(flow.children)
  {
    var t, p := AddFlowMerge(cfg, s, flow, supply, now).0, s.receipts[SlotOf(flow.body)].jobId;
    var rows, ids := NewRows(flow, p, supply), supply[..SizeAll(flow.children)];
    NodesPrepared(flow, p, supply);
    forall i | 0 <= i < |rows|
      ensures StoredAs(t.jobs, t.receipts, rows[i], OwnTree(s.jobs[p], p), s.jobs[p].treeDepth, now) {
      MergeStored(cfg, s, flow, supply, now, i);
    }
    RowsReadBack(t.jobs, t.receipts, rows, ids, OwnTree(s.jobs[p], p), s.jobs[p].treeDepth, now);
    assert Distinct([supply][0]);
    ForestRoundTrip(flow.children, p, supply);
  }

  lemma ForestRoundTrip(ns: seq<FlowJob>, p: Id, supply: seq<Id>)
    requires SizeAll(ns) <= |supply| && Distinct(supply) && p !in supply
    ensures TreesUnder(FlatAll(ns, Some(p), 1, supply, 0), p, 0) == NormalAll(ns)
  {
    var rows := FlatAll(ns, Some(p), 1, supply, 0);
    assert rows[0..|rows|] == rows;
    RebuildForest(rows, ns, p, 1, supply, 0);
  }
}
