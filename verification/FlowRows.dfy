/**
  AddFlow and AddFlowMerge row by row: when a node can be stored, what its row
  and its receipt hold of the options it was sent with, and that the rows, read
  back by their parent links, give the tree again.
 */
module FlowRows {
  import opened Tables
  import opened Flatten
  import opened FlattenLaws
  import opened Flow
  import opened FlowLaws
  import opened Lifecycle
  import opened ReceiptLaws

  // ---- The nodes of a tree, parents first ----

  function Preorder(n: FlowJob): (ns: seq<FlowJob>)
    ensures |ns| == Size(n)
    decreases n, 1
  {
    [n] + PreorderAll(n.children)
  }

  function PreorderAll(ns: seq<FlowJob>): (all: seq<FlowJob>)
    ensures |all| == SizeAll(ns)
    decreases ns, 0
  {
    if ns == [] then [] else Preorder(ns[0]) + PreorderAll(ns[1..])
  }

  /** The options of a node that leaves nothing to be filled in. */
  predicate Filled(b: Body, b': Body) {
    && b'.name == b.name && b'.payload == b.payload && b'.priority == b.priority && b'.delayMs == b.delayMs
    && b'.facet == b.facet && b'.key == b.key && b'.failParent == b.failParent
    && b'.backoffMs == b.backoffMs && b'.jitter == b.jitter
    && b'.maxAttempts == (if b.maxAttempts > 0 then b.maxAttempts else 3)
    && b'.backoffMaxMs == (if b.backoffMaxMs != 0 then b.backoffMaxMs
                           else if b.backoffMs > 60_000 then b.backoffMs else 60_000)
  }

  predicate Prepares(n: FlowJob, r: Prepared) {
    && Filled(n.body, r.body) && r.pending == |n.children|
    && r.state == (if n.children != [] then WaitingChildren else if n.body.delayMs > 0 then Delayed else Waiting)
  }

  lemma {:induction false} FlatPrepares(n: FlowJob, parent: Option<Id>, depth: nat, supply: seq<Id>, k: nat, i: nat)
    requires k + Size(n) <= |supply| && i < Size(n)
    ensures Prepares(Preorder(n)[i], Flat(n, parent, depth, supply, k)[i])
    decreases n, 1
  {
    if i > 0 { ForestPrepares(n.children, Some(supply[k]), depth + 1, supply, k + 1, i - 1); }
  }

  lemma {:induction false} ForestPrepares(ns: seq<FlowJob>, parent: Option<Id>, depth: nat, supply: seq<Id>, k: nat,
                                          i: nat)
    requires k + SizeAll(ns) <= |supply| && i < SizeAll(ns)
    ensures Prepares(PreorderAll(ns)[i], FlatAll(ns, parent, depth, supply, k)[i])
    decreases ns, 0
  {
    var s := Size(ns[0]);
    if i < s {
      FlatPrepares(ns[0], parent, depth, supply, k, i);
    } else {
      ForestPrepares(ns[1..], parent, depth, supply, k + s, i - s);
    }
  }

  // ---- When a list can be stored ----

  predicate Late(r: Prepared, now: int) {
    now + r.body.delayMs > I64_MAX
  }

  predicate Taken(receipts: Receipts, r: Prepared) {
    r.body.key != "" && Slot(r.body.name, r.body.key) in receipts
  }

  predicate Fits(receipts: Receipts, r: Prepared, now: int) {
    !Late(r, now) && !Taken(receipts, r)
  }

  /** The first node that does not fit decides. */
  predicate StopsAt(receipts: Receipts, rows: seq<Prepared>, now: int, i: nat, code: Code)
    requires i < |rows|
  {
    && (forall k | 0 <= k < i :: Fits(receipts, rows[k], now))
    && !Fits(receipts, rows[i], now)
    && code == if Late(rows[i], now) then InvalidArgument else FailedPrecondition
  }

  lemma {:induction false} StorableExactly(receipts: Receipts, rows: seq<Prepared>, now: int)
    ensures FirstOffence(receipts, rows, now).None? <==> forall i | 0 <= i < |rows| :: Fits(receipts, rows[i], now)
    ensures FirstOffence(receipts, rows, now).Some? ==>
              exists i | 0 <= i < |rows| :: StopsAt(receipts, rows, now, i, FirstOffence(receipts, rows, now).value)
  {
    if rows != [] {
      var n := |rows| - 1;
      StorableExactly(receipts, rows[..n], now);
      var before, all := FirstOffence(receipts, rows[..n], now), FirstOffence(receipts, rows, now);
      if before.Some? {
        var i :| 0 <= i < n && StopsAt(receipts, rows[..n], now, i, before.value);
        assert StopsAt(receipts, rows, now, i, all.value);
      } else if all.Some? {
        assert StopsAt(receipts, rows, now, n, all.value);
      } else {
        assert Fits(receipts, rows[n], now);
      }
    }
  }

  // ---- The stored row and its receipt ----

  function OptionOf(s: string): Option<string> {
    if s == "" then None else Some(s)
  }

  /** The row holds the node's options, its place in the tree and its count of children. */
  predicate RowHolds(j: Job, r: Prepared, tree: Id, base: nat, now: int) {
    && j.card.name == r.body.name && j.card.payload == r.body.payload && j.card.priority == r.body.priority
    && j.card.facet == OptionOf(r.body.facet) && j.card.maxAttempts == r.body.maxAttempts && j.card.createdAt == now
    && j.retry.base == r.body.backoffMs && j.retry.cap == r.body.backoffMaxMs && j.retry.jitter == r.body.jitter
    && j.availableAt == now + r.body.delayMs && j.failParent == r.body.failParent
    && j.card.parent == r.parent && j.card.trace == tree && j.treeId == Some(tree)
    && j.card.depth == base + r.depth && j.treeDepth == base + r.depth
    && j.state == r.state && j.pending == r.pending
    && j.attempts == 0 && j.worker.None? && j.lease.None? && j.lastError.None?
  }

  /** The receipt remembers what AddJob would have been asked for, and is kept when the job ends. */
  predicate ReceiptHolds(x: Receipt, r: Prepared, tree: Id, base: nat, now: int) {
    && x.jobId == r.id && x.initialState == r.state && x.createdAt == now && !x.releaseOnFinish
    && x.request.name == r.body.name && x.request.payload == r.body.payload && x.request.priority == r.body.priority
    && x.request.metadata == Metadata(if r.parent.Some? then r.parent.value else "", tree, base + r.depth)
    && x.request.maxAttempts == r.body.maxAttempts && x.request.delayMs == r.body.delayMs
    && x.request.facet == r.body.facet && x.request.backoffMs == r.body.backoffMs
    && x.request.backoffMaxMs == r.body.backoffMaxMs && x.request.key == r.body.key
    && x.request.jitter == r.body.jitter && !x.request.releaseOnFinish
  }

  /** The tables hold the node: its row and, exactly if it has a key, one receipt. */
  predicate StoredAs(jobs: Jobs, receipts: Receipts, r: Prepared, tree: Id, base: nat, now: int) {
    && r.id in jobs && RowHolds(jobs[r.id], r, tree, base, now)
    && (r.body.key != "" ==>
          var slot := Slot(r.body.name, r.body.key);
          slot in receipts && ReceiptHolds(receipts[slot], r, tree, base, now))
    && (forall slot | slot in receipts && receipts[slot].jobId == r.id ::
          r.body.key != "" && slot == Slot(r.body.name, r.body.key))
  }

  /** No receipt names an id that is still to be given out. */
  predicate Unnamed(receipts: Receipts, ids: set<Id>) {
    forall slot | slot in receipts :: receipts[slot].jobId !in ids
  }

  lemma {:induction false} KeyIsStored(rows: seq<Prepared>, tree: Id, base: nat, now: int, i: nat)
    requires Unused(RowSlots(rows), {}) && i < |rows| && rows[i].body.key != ""
    ensures var m, slot := ReceiptMap(rows, tree, base, now), SlotOf(rows[i].body);
            slot in m && ReceiptHolds(m[slot], rows[i], tree, base, now)
  {
    var n := |rows| - 1;
    var none: Receipts := map[];
    assert none.Keys == {};
    LastSlotUnused(none, rows, tree, base, now);
    if i < n {
      KeyIsStored(rows[..n], tree, base, now, i);
      assert SlotOf(rows[i].body) in none + ReceiptMap(rows[..n], tree, base, now);
    }
  }

  /** Every new receipt belongs to a node of the list. */
  lemma {:induction false} ReceiptIsOwned(rows: seq<Prepared>, tree: Id, base: nat, now: int, slot: Slot)
    requires slot in ReceiptMap(rows, tree, base, now)
    ensures exists i | 0 <= i < |rows| ::
              && rows[i].body.key != "" && slot == SlotOf(rows[i].body)
              && ReceiptMap(rows, tree, base, now)[slot].jobId == rows[i].id
  {
    var n := |rows| - 1;
    if rows[n].body.key == "" || slot != SlotOf(rows[n].body) {
      ReceiptIsOwned(rows[..n], tree, base, now, slot);
      var i :| 0 <= i < n && rows[i].body.key != "" && slot == SlotOf(rows[i].body)
               && ReceiptMap(rows[..n], tree, base, now)[slot].jobId == rows[i].id;
    }
  }

  /** Storing a list stores each of its nodes. */
  lemma ListStored(jobs: Jobs, receipts: Receipts, rows: seq<Prepared>, tree: Id, base: nat, now: int, i: nat)
    requires OneEach(rows) && Unused(RowSlots(rows), {}) && Unnamed(receipts, IdsOf(rows)) && i < |rows|
    ensures StoredAs(jobs + RowMap(rows, tree, base, now), receipts + ReceiptMap(rows, tree, base, now), rows[i], tree,
                     base, now)
  {
    RowMapAt(rows, tree, base, now, i);
    var m := ReceiptMap(rows, tree, base, now);
    if rows[i].body.key != "" { KeyIsStored(rows, tree, base, now, i); }
    assert rows[i].id in IdsOf(rows);
    forall slot | slot in receipts + m && (receipts + m)[slot].jobId == rows[i].id
      ensures rows[i].body.key != "" && slot == SlotOf(rows[i].body) {
      assert slot in m;
      ReceiptIsOwned(rows, tree, base, now, slot);
      var k :| 0 <= k < |rows| && rows[k].body.key != "" && slot == SlotOf(rows[k].body) && m[slot].jobId == rows[k].id;
      assert k == i;
    }
  }

  /** Storing further nodes leaves a stored node alone. */
  lemma StaysStored(jobs: Jobs, receipts: Receipts, r: Prepared, tree: Id, base: nat, now: int, rows: seq<Prepared>,
                    tree': Id, base': nat)
    requires StoredAs(jobs, receipts, r, tree, base, now) && r.id !in IdsOf(rows)
    requires FirstOffence(receipts, rows, now).None?
    ensures StoredAs(jobs + RowMap(rows, tree', base', now), receipts + ReceiptMap(rows, tree', base', now), r, tree,
                     base, now)
  {
    RowMapKeys(rows, tree', base', now);
    NewSlots(receipts, rows, tree', base', now);
    var m := ReceiptMap(rows, tree', base', now);
    forall slot | slot in receipts + m && (receipts + m)[slot].jobId == r.id
      ensures r.body.key != "" && slot == Slot(r.body.name, r.body.key) {
      if slot in m { ReceiptIsOwned(rows, tree', base', now, slot); }
    }
  }

  lemma NewSlots(receipts: Receipts, rows: seq<Prepared>, tree: Id, base: nat, now: int)
    requires FirstOffence(receipts, rows, now).None?
    ensures receipts.Keys !! ReceiptMap(rows, tree, base, now).Keys
  {
    NoOffence(receipts, rows, now);
    ReceiptMapSlots(rows, tree, base, now);
  }

  // ---- Reading back ----

  /** The key a job was stored under, as far as receipts tell. */
  ghost function KeyFor(receipts: Receipts, id: Id): string {
    if exists slot :: slot in receipts && receipts[slot].jobId == id
    then var slot :| slot in receipts && receipts[slot].jobId == id; slot.key else ""
  }

  function TextOf(o: Option<string>): string {
    if o.Some? then o.value else ""
  }

  function Natural(x: int): nat {
    if x < 0 then 0 else x
  }

  /** A node read from the tables alone. */
  ghost function ReadNode(jobs: Jobs, receipts: Receipts, id: Id, base: nat): Prepared
    requires id in jobs
  {
    var j := jobs[id];
    Prepared(id, j.card.parent,
             Body(j.card.name, j.card.payload, j.card.priority, j.card.maxAttempts, j.availableAt - j.card.createdAt,
                  TextOf(j.card.facet), j.retry.base, j.retry.cap, j.retry.jitter, KeyFor(receipts, id), j.failParent),
             Natural(j.treeDepth - base), Natural(j.pending), j.state)
  }

  ghost function ReadRows(jobs: Jobs, receipts: Receipts, ids: seq<Id>, base: nat): (rows: seq<Prepared>)
    requires forall i | 0 <= i < |ids| :: ids[i] in jobs
    ensures |rows| == |ids|
  {
    seq(|ids|, i requires 0 <= i < |ids| => ReadNode(jobs, receipts, ids[i], base))
  }

  lemma ReadsBack(jobs: Jobs, receipts: Receipts, r: Prepared, tree: Id, base: nat, now: int)
    requires StoredAs(jobs, receipts, r, tree, base, now)
    ensures ReadNode(jobs, receipts, r.id, base) == r
  {
    var slot := Slot(r.body.name, r.body.key);
    assert r.body.key != "" ==> slot in receipts && receipts[slot].jobId == r.id;
  }

  lemma RowsReadBack(jobs: Jobs, receipts: Receipts, rows: seq<Prepared>, ids: seq<Id>, tree: Id, base: nat, now: int)
    requires |ids| == |rows| && forall i | 0 <= i < |rows| :: rows[i].id == ids[i]
    requires forall i | 0 <= i < |rows| :: StoredAs(jobs, receipts, rows[i], tree, base, now)
    ensures (forall i | 0 <= i < |ids| :: ids[i] in jobs) && ReadRows(jobs, receipts, ids, base) == rows
  {
    forall i | 0 <= i < |ids| ensures ids[i] in jobs { assert rows[i].id == ids[i]; }
    forall i | 0 <= i < |ids| ensures ReadRows(jobs, receipts, ids, base)[i] == rows[i] {
      ReadsBack(jobs, receipts, rows[i], tree, base, now);
    }
  }

  // ---- New trees ----

  function IdSet(supply: seq<Id>): set<Id> {
    set id | id in supply
  }

  /** Ids that were never given out: no receipt names one, and no two are equal. */
  predicate NewIds(receipts: Receipts, supplies: seq<seq<Id>>) {
    && (forall k | 0 <= k < |supplies| :: Distinct(supplies[k]) && Unnamed(receipts, IdSet(supplies[k])))
    && (forall i, k | 0 <= i < k < |supplies| :: IdSet(supplies[i]) !! IdSet(supplies[k]))
  }

  lemma TreeList(n: FlowJob, supply: seq<Id>)
    requires Distinct(supply) && Size(n) <= |supply| && Unused(Slots(n), {})
    ensures var rows := Flat(n, None, 0, supply, 0);
            && OneEach(rows) && IdsOf(rows) <= IdSet(supply) && Unused(RowSlots(rows), {})
            && rows[0].id == supply[0] && forall i | 0 <= i < |rows| :: rows[i].id == supply[i]
  {
    var rows := Flat(n, None, 0, supply, 0);
    forall i | 0 <= i < |rows| ensures rows[i].id == supply[i] { FlatRow(n, None, 0, supply, 0, i); }
    FlatSlots(n, None, 0, supply, 0);
  }

  /** A tree stored later leaves stored nodes and unused ids alone. */
  lemma NextTree(s: Store, n: FlowJob, supplies: seq<seq<Id>>, now: int)
    requires supplies != [] && NewIds(s.receipts, supplies) && Size(n) <= |supplies[0]| && Unused(Slots(n), {})
    requires InsertTree(s, Flat(n, None, 0, supplies[0], 0), now).Ok?
    ensures NewIds(InsertTree(s, Flat(n, None, 0, supplies[0], 0), now).value.receipts, supplies[1..])
  {
    var rows := Flat(n, None, 0, supplies[0], 0);
    var m, rest := ReceiptMap(rows, rows[0].id, 0, now), supplies[1..];
    TreeList(n, supplies[0]);
    forall k | 0 <= k < |rest| ensures Distinct(rest[k]) && Unnamed(s.receipts + m, IdSet(rest[k])) {
      assert rest[k] == supplies[k + 1] && IdSet(supplies[0]) !! IdSet(supplies[k + 1]);
      forall slot | slot in s.receipts + m ensures (s.receipts + m)[slot].jobId !in IdSet(rest[k]) {
        if slot in m { ReceiptIsOwned(rows, rows[0].id, 0, now, slot); }
      }
    }
  }

  lemma {:induction false} LaterTrees(s: Store, flows: seq<FlowJob>, supplies: seq<seq<Id>>, now: int, r: Prepared,
                                      tree: Id, base: nat)
    requires Supplied(flows, supplies) && InsertTrees(s, flows, supplies, now).Ok?
    requires StoredAs(s.jobs, s.receipts, r, tree, base, now)
    requires forall k | 0 <= k < |supplies| :: r.id !in supplies[k]
    ensures var t := InsertTrees(s, flows, supplies, now).value; StoredAs(t.jobs, t.receipts, r, tree, base, now)
    decreases |flows|
  {
    if flows != [] {
      var rows := Flat(flows[0], None, 0, supplies[0], 0);
      var t := InsertTree(s, rows, now).value;
      forall i | 0 <= i < |rows| ensures rows[i].id in supplies[0] { FlatRow(flows[0], None, 0, supplies[0], 0, i); }
      StaysStored(s.jobs, s.receipts, r, tree, base, now, rows, rows[0].id, 0);
      LaterTrees(t, flows[1..], supplies[1..], now, r, tree, base);
    }
  }

  lemma FirstStored(s: Store, flows: seq<FlowJob>, supplies: seq<seq<Id>>, now: int, i: nat)
    requires flows != [] && Supplied(flows, supplies) && Unused(Slots(flows[0]), {}) && NewIds(s.receipts, supplies)
    requires InsertTrees(s, flows, supplies, now).Ok? && i < Size(flows[0])
    ensures var t := InsertTrees(s, flows, supplies, now).value;
            StoredAs(t.jobs, t.receipts, Flat(flows[0], None, 0, supplies[0], 0)[i], supplies[0][0], 0, now)
  {
    var rows := Flat(flows[0], None, 0, supplies[0], 0);
    TreeList(flows[0], supplies[0]);
    ListStored(s.jobs, s.receipts, rows, rows[0].id, 0, now, i);
    NotLater(supplies, i);
    LaterTrees(InsertTree(s, rows, now).value, flows[1..], supplies[1..], now, rows[i], rows[0].id, 0);
  }

  /** What stands before the second tree is what stood before the first. */
  lemma SecondReady(cfg: Config, s: Store, flows: seq<FlowJob>, supplies: seq<seq<Id>>, now: int, seen: set<Slot>)
    requires flows != [] && Supplied(flows, supplies) && AcceptableTrees(cfg, flows, seen)
    requires NewIds(s.receipts, supplies) && InsertTrees(s, flows, supplies, now).Ok?
    ensures Unused(Slots(flows[0]), {}) && Supplied(flows[1..], supplies[1..])
    ensures AcceptableTrees(cfg, flows[1..], seen + SlotSet(Slots(flows[0])))
    ensures var u := InsertTree(s, Flat(flows[0], None, 0, supplies[0], 0), now);
            && u.Ok? && NewIds(u.value.receipts, supplies[1..])
            && InsertTrees(s, flows, supplies, now) == InsertTrees(u.value, flows[1..], supplies[1..], now)
  {
    NextTree(s, flows[0], supplies, now);
  }

  lemma {:induction false} TreesStored(cfg: Config, s: Store, flows: seq<FlowJob>, supplies: seq<seq<Id>>, now: int,
                                       seen: set<Slot>, f: nat, i: nat)
    requires Supplied(flows, supplies) && AcceptableTrees(cfg, flows, seen) && NewIds(s.receipts, supplies)
    requires InsertTrees(s, flows, supplies, now).Ok? && f < |flows| && i < Size(flows[f])
    ensures var t := InsertTrees(s, flows, supplies, now).value;
            StoredAs(t.jobs, t.receipts, Flat(flows[f], None, 0, supplies[f], 0)[i], supplies[f][0], 0, now)
    decreases |flows|
  {
    SecondReady(cfg, s, flows, supplies, now, seen);
    if f == 0 {
      FirstStored(s, flows, supplies, now, i);
    } else {
      var t := InsertTree(s, Flat(flows[0], None, 0, supplies[0], 0), now).value;
      TreesStored(cfg, t, flows[1..], supplies[1..], now, seen + SlotSet(Slots(flows[0])), f - 1, i);
    }
  }

  lemma NotLater(supplies: seq<seq<Id>>, i: nat)
    requires supplies != [] && i < |supplies[0]|
    requires forall a, b | 0 <= a < b < |supplies| :: IdSet(supplies[a]) !! IdSet(supplies[b])
    ensures forall k | 0 <= k < |supplies[1..]| :: supplies[0][i] !in supplies[1..][k]
  {
    forall k | 0 <= k < |supplies[1..]| ensures supplies[0][i] !in supplies[1..][k] {
      assert IdSet(supplies[0]) !! IdSet(supplies[k + 1]) && supplies[0][i] in IdSet(supplies[0]);
      assert supplies[1..][k] == supplies[k + 1];
    }
  }
}
