/**
  The loops of AddFlow, AddFlowBulk and AddFlowMerge: preparing the trees,
  storing the prepared nodes one by one, and counting them after the commit.
 */
module FlowTransactions {
  import opened Tables
  import opened Telemetry
  import opened Flatten
  import opened FlattenLaws
  import opened FlowLaws
  import opened Flow
  import opened ReceiptLaws

  // ---- Storing prepared nodes ----

  lemma SlotsPrefix(rows: seq<Prepared>, n: nat)
    requires n <= |rows| && Unused(RowSlots(rows), {})
    ensures Unused(RowSlots(rows[..n]), {})
  {
    assert rows == rows[..n] + rows[n..];
    RowSlotsConcat(rows[..n], rows[n..]);
    var a, b := RowSlots(rows[..n]), RowSlots(rows[n..]);
    assert forall i | 0 <= i < |a| :: (a + b)[i] == a[i];
  }

  /** A node's key is taken in the table so far exactly when it was taken before the call. */
  lemma OnlyOldKeysClash(receipts: Receipts, rows: seq<Prepared>, tree: Id, base: nat, now: int, n: nat)
    requires n < |rows| && Unused(RowSlots(rows), {}) && rows[n].body.key != ""
    ensures SlotOf(rows[n].body) in receipts + ReceiptMap(rows[..n], tree, base, now) <==>
            SlotOf(rows[n].body) in receipts
  {
    SlotsPrefix(rows, n + 1);
    assert rows[..n + 1][..n] == rows[..n];
    var none: Receipts := map[];
    LastSlotUnused(none, rows[..n + 1], tree, base, now);
  }

  lemma {:induction false} OffencePrefix(receipts: Receipts, rows: seq<Prepared>, now: int, n: nat)
    requires n <= |rows| && FirstOffence(receipts, rows[..n], now).Some?
    ensures FirstOffence(receipts, rows, now) == FirstOffence(receipts, rows[..n], now)
    decreases |rows| - n
  {
    if n == |rows| {
      assert rows[..n] == rows;
    } else {
      assert rows[..n + 1][..n] == rows[..n];
      OffencePrefix(receipts, rows, now, n + 1);
    }
  }

  lemma RowMapNext(jobs: Jobs, rows: seq<Prepared>, tree: Id, base: nat, now: int, n: nat)
    requires n < |rows|
    ensures (jobs + RowMap(rows[..n], tree, base, now))[rows[n].id := JobOf(rows[n], tree, base, now)]
            == jobs + RowMap(rows[..n + 1], tree, base, now)
  {
    assert rows[..n + 1][..n] == rows[..n];
  }

  lemma ReceiptMapNext(receipts: Receipts, rows: seq<Prepared>, tree: Id, base: nat, now: int, n: nat)
    requires n < |rows|
    ensures receipts + ReceiptMap(rows[..n + 1], tree, base, now) ==
      var before := receipts + ReceiptMap(rows[..n], tree, base, now);
      if rows[n].body.key == "" then before else before[SlotOf(rows[n].body) := ReceiptOf(rows[n], tree, base, now)]
  {
    assert rows[..n + 1][..n] == rows[..n];
  }

  /** The tables once the first `n` nodes are stored. */
  ghost predicate Stored(live: Jobs, issued: Receipts, rows: seq<Prepared>, tree: Id, base: nat, now: int, n: nat,
                         jobs: Jobs, receipts: Receipts)
    requires n <= |rows|
  {
    && FirstOffence(issued, rows[..n], now).None?
    && jobs == live + RowMap(rows[..n], tree, base, now)
    && receipts == issued + ReceiptMap(rows[..n], tree, base, now)
  }

  lemma NothingStored(live: Jobs, issued: Receipts, rows: seq<Prepared>, tree: Id, base: nat, now: int)
    ensures Stored(live, issued, rows, tree, base, now, 0, live, issued)
  {
    assert rows[..0] == [] && live + map[] == live && issued + map[] == issued;
  }

  lemma OneMoreStored(live: Jobs, issued: Receipts, rows: seq<Prepared>, tree: Id, base: nat, now: int, n: nat,
                      jobs: Jobs, receipts: Receipts)
    requires n < |rows| && Stored(live, issued, rows, tree, base, now, n, jobs, receipts)
              && Offence(issued, rows[n], now).None?
    ensures Stored(live, issued, rows, tree, base, now, n + 1, jobs[rows[n].id := JobOf(rows[n], tree, base, now)],
                   if rows[n].body.key == "" then receipts
                   else receipts[SlotOf(rows[n].body) := ReceiptOf(rows[n], tree, base, now)])
  {
    assert rows[..n + 1][..n] == rows[..n];
    RowMapNext(live, rows, tree, base, now, n);
    ReceiptMapNext(issued, rows, tree, base, now, n);
  }

  lemma StopsAt(issued: Receipts, rows: seq<Prepared>, now: int, n: nat)
    requires n < |rows| && FirstOffence(issued, rows[..n], now).None? && Offence(issued, rows[n], now).Some?
    ensures FirstOffence(issued, rows, now) == Offence(issued, rows[n], now)
  {
    assert rows[..n + 1][..n] == rows[..n];
    OffencePrefix(issued, rows, now, n + 1);
  }

  /**
    Stores the nodes in order, each only if its due time fits and its key is free; the first that cannot be
    stored ends it.
   */
  method StoreNodes(live: Jobs, issued: Receipts, rows: seq<Prepared>, tree: Id, base: nat, now: int)
    returns (failure: Option<Code>, jobs: Jobs, receipts: Receipts)
    requires Unused(RowSlots(rows), {})
    ensures failure == FirstOffence(issued, rows, now)
    ensures failure.None? ==> jobs == live + RowMap(rows, tree, base, now)
    ensures failure.None? ==> receipts == issued + ReceiptMap(rows, tree, base, now)
  {
    jobs, receipts, failure := live, issued, None;
    NothingStored(live, issued, rows, tree, base, now);
    for i := 0 to |rows|
      invariant Stored(live, issued, rows, tree, base, now, i, jobs, receipts)
    {
      var node := rows[i];
      if now + node.body.delayMs > I64_MAX {
        StopsAt(issued, rows, now, i);
        failure := Some(InvalidArgument);
        return;
      }
      if node.body.key != "" {
        OnlyOldKeysClash(issued, rows, tree, base, now, i);
        if SlotOf(node.body) in receipts {
          StopsAt(issued, rows, now, i);
          failure := Some(FailedPrecondition);
          return;
        }
      }
      OneMoreStored(live, issued, rows, tree, base, now, i, jobs, receipts);
      var body := node.body;
      var facet := if body.facet == "" then None else Some(body.facet);
      jobs := jobs[node.id := Job(Card(body.name, body.priority, body.payload, node.parent, tree, base + node.depth,
                                       body.maxAttempts, now, facet),
                                  Retry(body.backoffMs, body.backoffMaxMs, body.jitter), node.state, 0,
                                  now + body.delayMs, None, None, None, node.pending, body.failParent, Some(tree),
                                  base + node.depth)];
      if body.key != "" {
        var parent := if node.parent.Some? then node.parent.value else "";
        var request := AddJobRequest(body.name, body.payload, body.priority, Metadata(parent, tree, base + node.depth),
                                     body.maxAttempts, body.delayMs, body.facet, body.backoffMs, body.backoffMaxMs,
                                     body.key, body.jitter, false);
        receipts := receipts[Slot(body.name, body.key) := Receipt(request, node.id, node.state, now, false)];
      }
    }
    assert rows[..|rows|] == rows;
  }

  // ---- Counting stored nodes ----

  /** Counting the nodes one after the other; parked nodes have a count of their own. */
  function Flushed(g: Gauges, rows: seq<Prepared>): Gauges {
    if rows == [] then g
    else
      var n := |rows| - 1;
      var h := Transition(Flushed(g, rows[..n]), None, Live(rows[n].state));
      Telemetry.Parked(h, if rows[n].pending > 0 then 1 else 0)
  }

  lemma AddedOne(g: Gauges, rows: Jobs, id: Id, j: Job)
    requires id !in rows && !j.state.Active?
    ensures Added(g, rows[id := j]) ==
            Telemetry.Parked(Transition(Added(g, rows), None, Live(j.state)), if j.state.WaitingChildren? then 1 else 0)
  {
    assert rows[id := j] == rows + map[id := j];
    forall s: State ensures |InState(rows[id := j], s)| == |InState(rows, s)| + Unit(Live(j.state), Live(s)) {
      StateAdded(rows, map[id := j], s);
      StateOfOne(id, j, s);
    }
  }

  lemma {:induction false} FlushedIsAdded(g: Gauges, rows: seq<Prepared>, tree: Id, base: nat, now: int)
    requires OneEach(rows) && forall i | 0 <= i < |rows| :: Rests(rows[i])
    ensures Flushed(g, rows) == Added(g, RowMap(rows, tree, base, now))
  {
    if rows == [] {
      forall s: State ensures InState(map[], s) == {} {}
    } else {
      var n := |rows| - 1;
      FlushedIsAdded(g, rows[..n], tree, base, now);
      RowMapKeys(rows[..n], tree, base, now);
      assert Rests(rows[n]);
      AddedOne(g, RowMap(rows[..n], tree, base, now), rows[n].id, JobOf(rows[n], tree, base, now));
    }
  }

  /** The loop over the stored nodes after the commit. */
  method FlushNodes(g: Gauges, rows: seq<Prepared>) returns (g': Gauges)
    ensures g' == Flushed(g, rows)
  {
    g' := g;
    var waiting := 0;
    for i := 0 to |rows|
      invariant Telemetry.Parked(g', waiting) == Flushed(g, rows[..i])
    {
      assert rows[..i + 1][..i] == rows[..i];
      g' := Transition(g', None, Live(rows[i].state));
      if rows[i].pending > 0 { waiting := waiting + 1; }
    }
    assert rows[..|rows|] == rows;
    g' := Telemetry.Parked(g', waiting);
  }

  // ---- Merging ----

  function Resolved(rows: seq<Prepared>, t: Id): seq<Prepared> {
    seq(|rows|, i requires 0 <= i < |rows| =>
      if rows[i].parent.None? then rows[i].(parent := Some(t)) else rows[i])
  }

  lemma ResolvedConcat(a: seq<Prepared>, b: seq<Prepared>, t: Id)
    ensures Resolved(a + b, t) == Resolved(a, t) + Resolved(b, t)
  {
  }

  /** Nodes below the roots already have a parent. */
  lemma ResolvedTree(n: FlowJob, depth: nat, supply: seq<Id>, k: nat, t: Id)
    requires k + Size(n) <= |supply|
    ensures Resolved(Flat(n, None, depth, supply, k), t) == Flat(n, Some(t), depth, supply, k)
  {
    var rest := FlatAll(n.children, Some(supply[k]), depth + 1, supply, k + 1);
    var root := RowOf(n, None, depth, supply[k]);
    ResolvedConcat([root], rest, t);
    forall i | 0 <= i < |rest| ensures rest[i].parent.Some? {
      ForestHasParents(n.children, supply[k], depth + 1, supply, k + 1, i);
    }
    assert Resolved(rest, t) == rest;
    assert Resolved([root], t) == [RowOf(n, Some(t), depth, supply[k])];
  }

  lemma {:induction false} TreeHasParents(n: FlowJob, p: Id, depth: nat, supply: seq<Id>, k: nat, i: nat)
    requires k + Size(n) <= |supply| && i < Size(n)
    ensures Flat(n, Some(p), depth, supply, k)[i].parent.Some?
    decreases n, 1
  {
    if i > 0 { ForestHasParents(n.children, supply[k], depth + 1, supply, k + 1, i - 1); }
  }

  lemma {:induction false} ForestHasParents(ns: seq<FlowJob>, p: Id, depth: nat, supply: seq<Id>, k: nat, i: nat)
    requires k + SizeAll(ns) <= |supply| && i < SizeAll(ns)
    ensures FlatAll(ns, Some(p), depth, supply, k)[i].parent.Some?
    decreases ns, 0
  {
    var s := Size(ns[0]);
    if i < s {
      TreeHasParents(ns[0], p, depth, supply, k, i);
    } else {
      ForestHasParents(ns[1..], p, depth, supply, k + s, i - s);
    }
  }

  /** Linking the parentless nodes to the target gives the forest flattened under the target. */
  lemma {:induction false} ResolvedForest(ns: seq<FlowJob>, depth: nat, supply: seq<Id>, k: nat, t: Id)
    requires k + SizeAll(ns) <= |supply|
    ensures Resolved(FlatAll(ns, None, depth, supply, k), t) == FlatAll(ns, Some(t), depth, supply, k)
    decreases |ns|
  {
    if ns != [] {
      SplitFlat(ns, None, depth, supply, k);
      SplitFlat(ns, Some(t), depth, supply, k);
      ResolvedConcat(Flat(ns[0], None, depth, supply, k), FlatAll(ns[1..], None, depth, supply, k + Size(ns[0])), t);
      ResolvedTree(ns[0], depth, supply, k, t);
      ResolvedForest(ns[1..], depth, supply, k + Size(ns[0]), t);
    }
  }

  /** Deepest relative level of the nodes. */
  method Deepest(rows: seq<Prepared>) returns (d: nat)
    ensures rows == [] ==> d == 1
    ensures rows != [] ==> exists i :: 0 <= i < |rows| && rows[i].depth == d
    ensures forall i | 0 <= i < |rows| :: rows[i].depth <= d
  {
    if rows == [] { return 1; }
    d := rows[0].depth;
    for i := 1 to |rows|
      invariant exists j :: 0 <= j < i && rows[j].depth == d
      invariant forall j | 0 <= j < i :: rows[j].depth <= d
    {
      if rows[i].depth > d { d := rows[i].depth; }
    }
  }

  function Roots(rows: seq<Prepared>): nat {
    if rows == [] then 0 else Roots(rows[..|rows| - 1]) + if rows[|rows| - 1].parent.None? then 1 else 0
  }

  /** How many nodes have no parent among the new ones. */
  method CountRoots(rows: seq<Prepared>) returns (n: nat)
    ensures n == Roots(rows)
  {
    n := 0;
    for i := 0 to |rows|
      invariant n == Roots(rows[..i])
    {
      assert rows[..i + 1][..i] == rows[..i];
      if rows[i].parent.None? { n := n + 1; }
    }
    assert rows[..|rows|] == rows;
  }

  lemma {:induction false} RootsConcat(a: seq<Prepared>, b: seq<Prepared>)
    ensures Roots(a + b) == Roots(a) + Roots(b)
  {
    if b == [] {
      assert a + b == a;
    } else {
      var n := |b| - 1;
      assert (a + b)[..|a + b| - 1] == a + b[..n];
      RootsConcat(a, b[..n]);
    }
  }

  lemma {:induction false} NoRoots(rows: seq<Prepared>)
    requires forall i | 0 <= i < |rows| :: rows[i].parent.Some?
    ensures Roots(rows) == 0
  {
    if rows != [] { NoRoots(rows[..|rows| - 1]); }
  }

  lemma OneRoot(n: FlowJob, depth: nat, supply: seq<Id>, k: nat)
    requires k + Size(n) <= |supply|
    ensures Roots(Flat(n, None, depth, supply, k)) == 1
  {
    var rest := FlatAll(n.children, Some(supply[k]), depth + 1, supply, k + 1);
    forall i | 0 <= i < |rest| ensures rest[i].parent.Some? {
      ForestHasParents(n.children, supply[k], depth + 1, supply, k + 1, i);
    }
    NoRoots(rest);
    var root := RowOf(n, None, depth, supply[k]);
    assert [root][..0] == [];
    RootsConcat([root], rest);
  }

  /** The parentless nodes of a flattened forest are its trees' roots. */
  lemma {:induction false} RootsAreTrees(ns: seq<FlowJob>, depth: nat, supply: seq<Id>, k: nat)
    requires k + SizeAll(ns) <= |supply|
    ensures Roots(FlatAll(ns, None, depth, supply, k)) == |ns|
    decreases |ns|
  {
    if ns != [] {
      SplitFlat(ns, None, depth, supply, k);
      RootsConcat(Flat(ns[0], None, depth, supply, k), FlatAll(ns[1..], None, depth, supply, k + Size(ns[0])));
      OneRoot(ns[0], depth, supply, k);
      RootsAreTrees(ns[1..], depth, supply, k + Size(ns[0]));
    }
  }

  // ---- The deepest level of a flattened forest is its height ----

  lemma {:induction false} TreeReaches(n: FlowJob, parent: Option<Id>, depth: nat, supply: seq<Id>,
                                       k: nat) returns (i: nat)
    requires k + Size(n) <= |supply|
    ensures i < Size(n) && Flat(n, parent, depth, supply, k)[i].depth == depth + Height(n)
    decreases n, 1
  {
    if n.children == [] {
      i := 0;
    } else {
      var j := ForestReaches(n.children, Some(supply[k]), depth + 1, supply, k + 1);
      i := j + 1;
    }
  }

  lemma {:induction false} ForestReaches(ns: seq<FlowJob>, parent: Option<Id>, depth: nat, supply: seq<Id>,
                                         k: nat) returns (i: nat)
    requires ns != [] && k + SizeAll(ns) <= |supply|
    ensures i < SizeAll(ns) && FlatAll(ns, parent, depth, supply, k)[i].depth == depth + HeightAll(ns)
    decreases ns, 0
  {
    var s := Size(ns[0]);
    Split(ns);
    SplitFlat(ns, parent, depth, supply, k);
    if ns[1..] == [] || Height(ns[0]) > HeightAll(ns[1..]) {
      i := TreeReaches(ns[0], parent, depth, supply, k);
    } else {
      var j := ForestReaches(ns[1..], parent, depth, supply, k + s);
      i := s + j;
    }
  }

  lemma DeepestIsHeight(ns: seq<FlowJob>, supply: seq<Id>, d: nat)
    requires ns != [] && SizeAll(ns) <= |supply|
    requires var rows := FlatAll(ns, None, 1, supply, 0);
             && (exists i :: 0 <= i < |rows| && rows[i].depth == d)
                 && (forall i | 0 <= i < |rows| :: rows[i].depth <= d)
    ensures d == 1 + HeightAll(ns)
  {
    var rows := FlatAll(ns, None, 1, supply, 0);
    var i := ForestReaches(ns, None, 1, supply, 0);
    var j :| 0 <= j < |rows| && rows[j].depth == d;
    ForestDepth(ns, None, 1, supply, 0, j);
  }
}
