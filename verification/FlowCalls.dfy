/**
  AddFlow, AddFlowBulk and AddFlowMerge as the client sees them: when a call
  succeeds, what every node has become, and that the stored trees read back as
  the trees that were sent.
 */
module FlowCalls {
  import opened Tables
  import opened Flatten
  import opened FlattenLaws
  import opened Flow
  import opened FlowLaws
  import opened FlowRows
  import opened Lifecycle
  import opened ReceiptLaws

  // ---- What a node has become ----

  /** The job does what the node asks for, waits for the node's children and belongs to `tree`. */
  predicate AsSent(j: Job, n: FlowJob, tree: Id, now: int) {
    && j.card.name == n.body.name && j.card.payload == n.body.payload && j.card.priority == n.body.priority
    && j.card.facet == OptionOf(n.body.facet) && j.card.createdAt == now
    && j.card.maxAttempts == (if n.body.maxAttempts > 0 then n.body.maxAttempts else 3)
    && j.retry.base == n.body.backoffMs && j.retry.jitter == n.body.jitter
    && j.retry.cap == (if n.body.backoffMaxMs != 0 then n.body.backoffMaxMs
                       else if n.body.backoffMs > 60_000 then n.body.backoffMs else 60_000)
    && j.availableAt == now + n.body.delayMs && j.failParent == n.body.failParent
    && j.card.trace == tree && j.treeId == Some(tree) && j.card.depth == j.treeDepth
    && j.pending == |n.children|
    && j.state == (if n.children != [] then WaitingChildren else if n.body.delayMs > 0 then Delayed else Waiting)
    && j.attempts == 0 && j.worker.None? && j.lease.None? && j.lastError.None?
  }

  /** Exactly a node with a key has a receipt, and it answers for the node's job. */
  predicate Keyed(receipts: Receipts, n: FlowJob, id: Id, state: State) {
    && (n.body.key != "" ==>
          var slot := Slot(n.body.name, n.body.key);
          slot in receipts && receipts[slot].jobId == id && receipts[slot].initialState == state
          && !receipts[slot].releaseOnFinish)
    && (forall slot | slot in receipts && receipts[slot].jobId == id ::
          n.body.key != "" && slot == Slot(n.body.name, n.body.key))
  }

  predicate NodeStored(t: Store, n: FlowJob, id: Id, tree: Id, now: int) {
    id in t.jobs && AsSent(t.jobs[id], n, tree, now) && Keyed(t.receipts, n, id, t.jobs[id].state)
  }

  lemma StoredIsSent(t: Store, n: FlowJob, r: Prepared, tree: Id, base: nat, now: int)
    requires StoredAs(t.jobs, t.receipts, r, tree, base, now) && Prepares(n, r)
    ensures NodeStored(t, n, r.id, tree, now)
  {
  }

  /** The answer describes the stored row. */
  predicate Reported(node: FlowNode, t: Store, id: Id) {
    && id in t.jobs && node.id == id && node.name == t.jobs[id].card.name && node.depth == t.jobs[id].treeDepth
    && node.state == t.jobs[id].state && node.parentId == TextOf(t.jobs[id].card.parent)
  }

  // ---- New trees ----

  /** After a successful call every node of every tree is stored as it was sent, and the answer says where. */
  lemma FlowsAsSent(cfg: Config, s: Store, bulk: bool, flows: seq<FlowJob>, supplies: seq<seq<Id>>, now: int, f: nat,
                    i: nat)
    requires Supplied(flows, supplies) && NewIds(s.receipts, supplies) && f < |flows| && i < Size(flows[f])
    requires AddFlows(cfg, s, bulk, flows, supplies, now).1.Ok?
    ensures var (t, reply) := AddFlows(cfg, s, bulk, flows, supplies, now);
            && NodeStored(t, Preorder(flows[f])[i], supplies[f][i], supplies[f][0], now)
            && |reply.value| == |flows| && |reply.value[f]| == Size(flows[f])
            && Reported(reply.value[f][i], t, supplies[f][i])
  {
    var t := AddFlows(cfg, s, bulk, flows, supplies, now).0;
    TreesStored(cfg, s, flows, supplies, now, {}, f, i);
    FlatPrepares(flows[f], None, 0, supplies[f], 0, i);
    FlatRow(flows[f], None, 0, supplies[f], 0, i);
    StoredIsSent(t, Preorder(flows[f])[i], Flat(flows[f], None, 0, supplies[f], 0)[i], supplies[f][0], 0, now);
  }

  /** And the rows, read from the tables by their parent links, are the tree that was sent, with defaults filled in. */
  lemma FlowsReadBack(cfg: Config, s: Store, bulk: bool, flows: seq<FlowJob>, supplies: seq<seq<Id>>, now: int, f: nat)
    requires Supplied(flows, supplies) && NewIds(s.receipts, supplies) && f < |flows|
    requires AddFlows(cfg, s, bulk, flows, supplies, now).1.Ok?
    ensures var t, ids := AddFlows(cfg, s, bulk, flows, supplies, now).0, supplies[f][..Size(flows[f])];
            && (forall i | 0 <= i < |ids| :: ids[i] in t.jobs)
            && TreeAt(ReadRows(t.jobs, t.receipts, ids, 0), 0) == Normal(flows[f])
  {
    var t := AddFlows(cfg, s, bulk, flows, supplies, now).0;
    var rows, ids := Flat(flows[f], None, 0, supplies[f], 0), supplies[f][..Size(flows[f])];
    forall i | 0 <= i < |rows|
      ensures rows[i].id == ids[i] && StoredAs(t.jobs, t.receipts, rows[i], supplies[f][0], 0, now) {
      TreesStored(cfg, s, flows, supplies, now, {}, f, i);
      FlatRow(flows[f], None, 0, supplies[f], 0, i);
    }
    RowsReadBack(t.jobs, t.receipts, rows, ids, supplies[f][0], 0, now);
    FlattenRoundTrip(flows[f], supplies[f]);
  }

  /** Rows of other ids stay as they were. */
  lemma {:induction false} OtherRowsStay(s: Store, flows: seq<FlowJob>, supplies: seq<seq<Id>>, now: int, x: Id)
    requires Supplied(flows, supplies) && InsertTrees(s, flows, supplies, now).Ok?
    requires forall k | 0 <= k < |supplies| :: x !in supplies[k]
    ensures Lookup(InsertTrees(s, flows, supplies, now).value.jobs, x) == Lookup(s.jobs, x)
    decreases |flows|
  {
    if flows != [] {
      var rows := Flat(flows[0], None, 0, supplies[0], 0);
      forall i | 0 <= i < |rows| ensures rows[i].id in supplies[0] { FlatRow(flows[0], None, 0, supplies[0], 0, i); }
      RowMapKeys(rows, rows[0].id, 0, now);
      OtherRowsStay(InsertTree(s, rows, now).value, flows[1..], supplies[1..], now, x);
    }
  }

  // ---- When a call succeeds ----

  /** A node as sent can be stored: its due time is in range and its key is free. */
  predicate Storable(receipts: Receipts, n: FlowJob, now: int) {
    now + n.body.delayMs <= I64_MAX && (n.body.key != "" ==> Slot(n.body.name, n.body.key) !in receipts)
  }

  predicate AllStorable(receipts: Receipts, nodes: seq<FlowJob>, now: int) {
    forall i | 0 <= i < |nodes| :: Storable(receipts, nodes[i], now)
  }

  /** The first node that cannot be stored decides the code. */
  ghost predicate FirstBad(receipts: Receipts, nodes: seq<FlowJob>, now: int, code: Code) {
    exists i | 0 <= i < |nodes| ::
      && AllStorable(receipts, nodes[..i], now) && !Storable(receipts, nodes[i], now)
      && code == if now + nodes[i].body.delayMs > I64_MAX then InvalidArgument else FailedPrecondition
  }

  lemma ListExactly(receipts: Receipts, rows: seq<Prepared>, nodes: seq<FlowJob>, now: int)
    requires |nodes| == |rows| && forall i | 0 <= i < |rows| :: Prepares(nodes[i], rows[i])
    ensures FirstOffence(receipts, rows, now).None? <==> AllStorable(receipts, nodes, now)
    ensures FirstOffence(receipts, rows, now).Some? ==>
              FirstBad(receipts, nodes, now, FirstOffence(receipts, rows, now).value)
  {
    StorableExactly(receipts, rows, now);
    forall i | 0 <= i < |rows| ensures Fits(receipts, rows[i], now) <==> Storable(receipts, nodes[i], now) {
      assert Prepares(nodes[i], rows[i]);
    }
    if FirstOffence(receipts, rows, now).Some? {
      var code := FirstOffence(receipts, rows, now).value;
      var i :| 0 <= i < |rows| && StopsAt(receipts, rows, now, i, code);
      forall k | 0 <= k < |nodes[..i]| ensures Storable(receipts, nodes[..i][k], now) {
        assert Fits(receipts, rows[k], now);
      }
      assert Prepares(nodes[i], rows[i]);
      assert AllStorable(receipts, nodes[..i], now) && !Storable(receipts, nodes[i], now);
    }
  }

  lemma TreeExactly(s: Store, n: FlowJob, supply: seq<Id>, now: int)
    requires Size(n) <= |supply|
    ensures InsertTree(s, Flat(n, None, 0, supply, 0), now).Ok? <==> AllStorable(s.receipts, Preorder(n), now)
    ensures InsertTree(s, Flat(n, None, 0, supply, 0), now).Err? ==>
              FirstBad(s.receipts, Preorder(n), now, InsertTree(s, Flat(n, None, 0, supply, 0), now).code)
  {
    var rows := Flat(n, None, 0, supply, 0);
    forall i | 0 <= i < |rows| ensures Prepares(Preorder(n)[i], rows[i]) { FlatPrepares(n, None, 0, supply, 0, i); }
    ListExactly(s.receipts, rows, Preorder(n), now);
  }

  function AllNodes(flows: seq<FlowJob>): seq<FlowJob> {
    if flows == [] then [] else Preorder(flows[0]) + AllNodes(flows[1..])
  }

  /** The keys of one tree are those of its nodes. */
  lemma {:induction false} SlotsOfNodes(n: FlowJob, i: nat)
    requires i < Size(n) && Preorder(n)[i].body.key != ""
    ensures SlotOf(Preorder(n)[i].body) in Slots(n)
    decreases n, 1
  {
    if i > 0 { SlotsOfForest(n.children, i - 1); }
  }

  lemma {:induction false} SlotsOfForest(ns: seq<FlowJob>, i: nat)
    requires i < SizeAll(ns) && PreorderAll(ns)[i].body.key != ""
    ensures SlotOf(PreorderAll(ns)[i].body) in SlotsAll(ns)
    decreases ns, 0
  {
    var s := Size(ns[0]);
    if i < s { SlotsOfNodes(ns[0], i); } else { SlotsOfForest(ns[1..], i - s); }
  }

  /** Trees accepted after others use none of the others' keys. */
  lemma {:induction false} KeysAvoid(cfg: Config, flows: seq<FlowJob>, seen: set<Slot>, i: nat)
    requires AcceptableTrees(cfg, flows, seen) && i < |AllNodes(flows)| && AllNodes(flows)[i].body.key != ""
    ensures SlotOf(AllNodes(flows)[i].body) !in seen
    decreases |flows|
  {
    var n := Size(flows[0]);
    if i < n {
      SlotsOfNodes(flows[0], i);
    } else {
      KeysAvoid(cfg, flows[1..], seen + SlotSet(Slots(flows[0])), i - n);
    }
  }

  /** So what the first tree stores does not decide whether the others can be stored. */
  lemma SameFits(cfg: Config, receipts: Receipts, receipts': Receipts, flows: seq<FlowJob>, seen: set<Slot>, now: int,
                 i: nat)
    requires AcceptableTrees(cfg, flows, seen) && i < |AllNodes(flows)|
    requires receipts.Keys <= receipts'.Keys <= receipts.Keys + seen
    ensures Storable(receipts', AllNodes(flows)[i], now) <==> Storable(receipts, AllNodes(flows)[i], now)
  {
    if AllNodes(flows)[i].body.key != "" { KeysAvoid(cfg, flows, seen, i); }
  }

  lemma FirstTreeReceipts(s: Store, n: FlowJob, supply: seq<Id>, now: int)
    requires Size(n) <= |supply| && InsertTree(s, Flat(n, None, 0, supply, 0), now).Ok?
    ensures var t := InsertTree(s, Flat(n, None, 0, supply, 0), now).value;
            t.receipts.Keys == s.receipts.Keys + SlotSet(Slots(n))
  {
    FlatSlots(n, None, 0, supply, 0);
    ReceiptMapSlots(Flat(n, None, 0, supply, 0), supply[0], 0, now);
  }

  lemma StorableSplit(receipts: Receipts, a: seq<FlowJob>, b: seq<FlowJob>, now: int)
    ensures AllStorable(receipts, a + b, now) <==> AllStorable(receipts, a, now) && AllStorable(receipts, b, now)
  {
    var c := a + b;
    if AllStorable(receipts, c, now) {
      forall i | 0 <= i < |a| ensures Storable(receipts, a[i], now) { assert c[i] == a[i]; }
      forall i | 0 <= i < |b| ensures Storable(receipts, b[i], now) { assert c[|a| + i] == b[i]; }
    }
  }

  lemma BadFirst(receipts: Receipts, a: seq<FlowJob>, b: seq<FlowJob>, now: int, code: Code)
    requires FirstBad(receipts, a, now, code)
    ensures FirstBad(receipts, a + b, now, code)
  {
    var i :| 0 <= i < |a| && AllStorable(receipts, a[..i], now) && !Storable(receipts, a[i], now)
             && code == if now + a[i].body.delayMs > I64_MAX then InvalidArgument else FailedPrecondition;
    assert (a + b)[..i] == a[..i] && (a + b)[i] == a[i];
  }

  lemma BadLater(receipts: Receipts, a: seq<FlowJob>, b: seq<FlowJob>, now: int, code: Code)
    requires AllStorable(receipts, a, now) && FirstBad(receipts, b, now, code)
    ensures FirstBad(receipts, a + b, now, code)
  {
    var i :| 0 <= i < |b| && AllStorable(receipts, b[..i], now) && !Storable(receipts, b[i], now)
             && code == if now + b[i].body.delayMs > I64_MAX then InvalidArgument else FailedPrecondition;
    assert (a + b)[..|a| + i] == a + b[..i] && (a + b)[|a| + i] == b[i];
    StorableSplit(receipts, a, b[..i], now);
  }

  lemma SameBad(receipts: Receipts, receipts': Receipts, nodes: seq<FlowJob>, now: int, code: Code)
    requires forall i | 0 <= i < |nodes| :: Storable(receipts', nodes[i], now) <==> Storable(receipts, nodes[i], now)
    ensures AllStorable(receipts', nodes, now) <==> AllStorable(receipts, nodes, now)
    ensures FirstBad(receipts', nodes, now, code) ==> FirstBad(receipts, nodes, now, code)
  {
    if FirstBad(receipts', nodes, now, code) {
      var i :| 0 <= i < |nodes| && AllStorable(receipts', nodes[..i], now) && !Storable(receipts', nodes[i], now)
               && code == if now + nodes[i].body.delayMs > I64_MAX then InvalidArgument else FailedPrecondition;
      forall k | 0 <= k < i ensures Storable(receipts, nodes[..i][k], now) {
        assert Storable(receipts', nodes[..i][k], now) && nodes[..i][k] == nodes[k];
      }
      assert AllStorable(receipts, nodes[..i], now);
    }
  }

  /** Trees are stored exactly if every node of the call can be; otherwise the first that cannot decides. */
  lemma {:induction false} TreesExactly(cfg: Config, s: Store, flows: seq<FlowJob>, supplies: seq<seq<Id>>, now: int,
                                        seen: set<Slot>)
    requires Supplied(flows, supplies) && AcceptableTrees(cfg, flows, seen)
    ensures InsertTrees(s, flows, supplies, now).Ok? <==> AllStorable(s.receipts, AllNodes(flows), now)
    ensures InsertTrees(s, flows, supplies, now).Err? ==>
              FirstBad(s.receipts, AllNodes(flows), now, InsertTrees(s, flows, supplies, now).code)
    decreases |flows|
  {
    if flows != [] {
      var a, b := Preorder(flows[0]), AllNodes(flows[1..]);
      TreeExactly(s, flows[0], supplies[0], now);
      StorableSplit(s.receipts, a, b, now);
      var first := InsertTree(s, Flat(flows[0], None, 0, supplies[0], 0), now);
      if first.Err? {
        BadFirst(s.receipts, a, b, now, first.code);
      } else {
        var t, seen' := first.value, seen + SlotSet(Slots(flows[0]));
        TreesExactly(cfg, t, flows[1..], supplies[1..], now, seen');
        FirstTreeReceipts(s, flows[0], supplies[0], now);
        forall i | 0 <= i < |b| ensures Storable(t.receipts, b[i], now) <==> Storable(s.receipts, b[i], now) {
          SameFits(cfg, s.receipts, t.receipts, flows[1..], seen', now, i);
        }
        var rest := InsertTrees(t, flows[1..], supplies[1..], now);
        SameBad(s.receipts, t.receipts, b, now, if rest.Err? then rest.code else Internal);
        if rest.Err? { BadLater(s.receipts, a, b, now, rest.code); }
      }
    }
  }

  /** A call succeeds exactly if it is of an allowed size, its trees are acceptable and every node can be stored. */
  lemma FlowsExactly(cfg: Config, s: Store, bulk: bool, flows: seq<FlowJob>, supplies: seq<seq<Id>>, now: int)
    requires Supplied(flows, supplies)
    ensures var (t, reply) := AddFlows(cfg, s, bulk, flows, supplies, now);
            var allowed := (bulk ==> 1 <= |flows| <= cfg.maxFlowBulk) && AcceptableTrees(cfg, flows, {});
            && (reply.Ok? <==> allowed && AllStorable(s.receipts, AllNodes(flows), now))
            && (reply.Err? ==> t == s)
            && (!allowed ==> reply == Err(InvalidArgument))
            && (allowed && reply.Err? ==> FirstBad(s.receipts, AllNodes(flows), now, reply.code))
  {
    if AcceptableTrees(cfg, flows, {}) { TreesExactly(cfg, s, flows, supplies, now, {}); }
  }
}
