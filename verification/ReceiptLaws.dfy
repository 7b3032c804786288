/**
  Idempotency receipts.  An observer keeps every receipt as it was issued; the
  law says that the table holds, unchanged, the receipt of every live keyed job
  and every retained receipt of a job still in history, and nothing that was
  not issued.
 */
module ReceiptLaws {
  import opened Tables
  import opened Flatten
  import FlattenLaws
  import opened FlowLaws
  import opened Flow
  import opened Finish
  import opened Leases
  import opened Enqueue
  import opened EnqueueLaws
  import Retention

  datatype Issue = Issue(slot: Slot, receipt: Receipt)

  type Issues = map<Id, Issue>

  // ---- The law ----

  /** The slot is the queue and key that the request asked for. */
  predicate Labelled(issue: Issue) {
    var r := issue.receipt.request;
    r.key != "" && issue.slot == Slot(r.name, r.key)
  }

  /** A job's receipt stays, as issued, while the job is live and, if retained, while it is in history. */
  predicate Kept(receipts: Receipts, live: set<Id>, past: set<Id>, issued: Issues, id: Id) {
    id in issued ==>
      && issued[id].receipt.jobId == id && Labelled(issued[id])
      && (id in live || (id in past && !issued[id].receipt.releaseOnFinish) ==>
            issued[id].slot in receipts && receipts[issued[id].slot] == issued[id].receipt)
  }

  /** A stored receipt is one that was issued for its slot; one that is released on finish has a live job. */
  predicate Backed(receipts: Receipts, live: set<Id>, issued: Issues, slot: Slot) {
    slot in receipts ==>
      && receipts[slot].jobId in issued
      && issued[receipts[slot].jobId] == Issue(slot, receipts[slot])
      && (receipts[slot].releaseOnFinish ==> receipts[slot].jobId in live)
  }

  ghost predicate Receipted(receipts: Receipts, live: set<Id>, past: set<Id>, issued: Issues) {
    && (forall id: Id :: Kept(receipts, live, past, issued, id))
    && (forall slot: Slot :: Backed(receipts, live, issued, slot))
  }

  ghost predicate ReceiptLaw(s: Store, issued: Issues) {
    Receipted(s.receipts, s.jobs.Keys, s.history.Keys, issued)
  }

  // ---- What the law gives ----

  /** No two live jobs hold the same queue and key. */
  lemma NoSharedSlot(s: Store, issued: Issues, a: Id, b: Id)
    requires ReceiptLaw(s, issued) && a in s.jobs && b in s.jobs && a in issued && b in issued
    requires issued[a].slot == issued[b].slot
    ensures a == b
  {
    assert Kept(s.receipts, s.jobs.Keys, s.history.Keys, issued, a);
    assert Kept(s.receipts, s.jobs.Keys, s.history.Keys, issued, b);
  }

  /** The receipt of a job that releases its key on finish is stored exactly while the job is live. */
  lemma ReleasedExactly(s: Store, issued: Issues, id: Id)
    requires ReceiptLaw(s, issued) && id in issued && issued[id].receipt.releaseOnFinish
    ensures id in s.jobs <==> issued[id].slot in s.receipts && s.receipts[issued[id].slot] == issued[id].receipt
  {
    assert Kept(s.receipts, s.jobs.Keys, s.history.Keys, issued, id);
    assert Backed(s.receipts, s.jobs.Keys, issued, issued[id].slot);
  }

  /**
    While a receipt is stored, its request sent again gets the answer recorded at issue, another request for its
    slot is refused, and neither changes anything.
   */
  lemma ReplayAnswersAsIssued(cfg: Config, s: Store, issued: Issues, slot: Slot, r: AddJobRequest, id: Id,
                              trace: string, now: int)
    requires ReceiptLaw(s, issued) && slot in s.receipts
    requires Validate(cfg, r).Ok? && slot == Slot(r.name, r.key)
    ensures s.receipts[slot].jobId in issued && issued[s.receipts[slot].jobId] == Issue(slot, s.receipts[slot])
    ensures var kept := s.receipts[slot];
            AddJob(cfg, s, r, id, trace, now) ==
            if Validate(cfg, r).value == kept.request
            then (s, Ok([AddReply(kept.jobId, kept.initialState, true)])) else (s, Err(AlreadyExists))
  {
    assert Backed(s.receipts, s.jobs.Keys, issued, slot);
    assert Kept(s.receipts, s.jobs.Keys, s.history.Keys, issued, s.receipts[slot].jobId);
    AddJobUnfolds(cfg, s, r, id, trace, now);
  }

  // ---- The four ways the table changes ----

  lemma IssueKeeps(receipts: Receipts, live: set<Id>, past: set<Id>, issued: Issues, id: Id, issue: Issue)
    requires Receipted(receipts, live, past, issued)
    requires id !in issued && issue.slot !in receipts && issue.receipt.jobId == id && Labelled(issue)
    ensures Receipted(receipts[issue.slot := issue.receipt], live + {id}, past, issued[id := issue])
  {
    var receipts', live', issued' := receipts[issue.slot := issue.receipt], live + {id}, issued[id := issue];
    forall x: Id ensures Kept(receipts', live', past, issued', x) {
      assert Kept(receipts, live, past, issued, x);
    }
    forall slot: Slot ensures Backed(receipts', live', issued', slot) {
      assert Backed(receipts, live, issued, slot);
    }
  }

  /** A job admitted without a key. */
  lemma UnkeyedKeeps(receipts: Receipts, live: set<Id>, past: set<Id>, issued: Issues, id: Id)
    requires Receipted(receipts, live, past, issued) && id !in issued
    ensures Receipted(receipts, live + {id}, past, issued)
  {
    forall x: Id ensures Kept(receipts, live + {id}, past, issued, x) { assert Kept(receipts, live, past, issued, x); }
    forall slot: Slot ensures Backed(receipts, live + {id}, issued, slot) {
      assert Backed(receipts, live, issued, slot);
    }
  }

  lemma DeathsKeep(receipts: Receipts, live: set<Id>, past: set<Id>, issued: Issues, dead: set<Id>)
    requires Receipted(receipts, live, past, issued) && dead <= live
    ensures Receipted(Release(receipts, dead), live - dead, past + dead, issued)
  {
    var receipts' := Release(receipts, dead);
    forall x: Id ensures Kept(receipts', live - dead, past + dead, issued, x) {
      assert Kept(receipts, live, past, issued, x);
    }
    forall slot: Slot ensures Backed(receipts', live - dead, issued, slot) {
      assert Backed(receipts, live, issued, slot);
    }
  }

  /** Receipts may go once their job is neither live nor in history. */
  lemma PruneKeeps(receipts: Receipts, live: set<Id>, past: set<Id>, issued: Issues, past': set<Id>, gone: set<Slot>)
    requires Receipted(receipts, live, past, issued) && past' <= past
    requires forall slot | slot in gone && slot in receipts ::
               receipts[slot].jobId !in live && receipts[slot].jobId !in past'
    ensures Receipted(receipts - gone, live, past', issued)
  {
    forall x: Id ensures Kept(receipts - gone, live, past', issued, x) { assert Kept(receipts, live, past, issued, x); }
    forall slot: Slot ensures Backed(receipts - gone, live, issued, slot) {
      assert Backed(receipts, live, issued, slot);
    }
  }

  // ---- Jobs ----

  /** The receipts issued by a batch, in the observer's books. */
  function BatchIssues(cfg: Config, s: Store, items: seq<Item>, now: int): Issues {
    if items == [] then map[]
    else
      var n := |items| - 1;
      var earlier := BatchIssues(cfg, s, items[..n], now);
      match EnqueueAll(cfg, s, items[..n], now)
      case Undone(_, _) => earlier
      case Done(t, _) => earlier + IssueOf(EnqueueOne(cfg, t, items[n].request, items[n].id, items[n].freshTrace, now),
                                           items[n], now)
  }

  /** A newly admitted keyed job is issued a receipt that remembers its request and its first state. */
  function IssueOf(a: Admission, item: Item, now: int): Issues {
    if IsNew(a) && item.request.key != ""
    then map[item.id := Issue(Slot(item.request.name, item.request.key),
                              Receipt(item.request, item.id, a.reply.state, now, item.request.releaseOnFinish))]
    else map[]
  }

  lemma EnqueueReceipts(cfg: Config, s: Store, item: Item, now: int)
    requires IsNew(EnqueueOne(cfg, s, item.request, item.id, item.freshTrace, now))
    ensures var a := EnqueueOne(cfg, s, item.request, item.id, item.freshTrace, now);
            && a.store.jobs.Keys == s.jobs.Keys + {item.id} && a.store.history == s.history
            && (item.request.key == "" ==> a.store.receipts == s.receipts)
            && (item.request.key != "" ==>
                  var issue := IssueOf(a, item, now)[item.id];
                  issue.slot !in s.receipts && a.store.receipts == s.receipts[issue.slot := issue.receipt])
  {
  }

  lemma UnkeyedAdmission(cfg: Config, s: Store, issued: Issues, item: Item, now: int)
    requires ReceiptLaw(s, issued) && item.id !in issued && item.request.key == ""
    requires IsNew(EnqueueOne(cfg, s, item.request, item.id, item.freshTrace, now))
    ensures ReceiptLaw(EnqueueOne(cfg, s, item.request, item.id, item.freshTrace, now).store, issued)
  {
    EnqueueReceipts(cfg, s, item, now);
    UnkeyedKeeps(s.receipts, s.jobs.Keys, s.history.Keys, issued, item.id);
  }

  lemma KeyedAdmission(cfg: Config, s: Store, issued: Issues, item: Item, now: int)
    requires ReceiptLaw(s, issued) && item.id !in issued && item.request.key != ""
    requires IsNew(EnqueueOne(cfg, s, item.request, item.id, item.freshTrace, now))
    ensures var a := EnqueueOne(cfg, s, item.request, item.id, item.freshTrace, now);
            ReceiptLaw(a.store, issued[item.id := IssueOf(a, item, now)[item.id]])
  {
    EnqueueReceipts(cfg, s, item, now);
    var a := EnqueueOne(cfg, s, item.request, item.id, item.freshTrace, now);
    IssueKeeps(s.receipts, s.jobs.Keys, s.history.Keys, issued, item.id, IssueOf(a, item, now)[item.id]);
  }

  lemma AddNothing<K, V>(m: map<K, V>)
    ensures m + map[] == m
  {
  }

  lemma AddOne<K, V>(m: map<K, V>, k: K, v: V)
    ensures m + map[k := v] == m[k := v]
  {
  }

  lemma EnqueueKeepsReceipts(cfg: Config, s: Store, issued: Issues, item: Item, now: int)
    requires ReceiptLaw(s, issued) && item.id !in issued
    requires EnqueueOne(cfg, s, item.request, item.id, item.freshTrace, now).Admitted?
    ensures var a := EnqueueOne(cfg, s, item.request, item.id, item.freshTrace, now);
            ReceiptLaw(a.store, issued + IssueOf(a, item, now))
  {
    var a := EnqueueOne(cfg, s, item.request, item.id, item.freshTrace, now);
    AddNothing(issued);
    if IsNew(a) {
      if item.request.key == "" {
        UnkeyedAdmission(cfg, s, issued, item, now);
      } else {
        KeyedAdmission(cfg, s, issued, item, now);
        AddOne(issued, item.id, IssueOf(a, item, now)[item.id]);
      }
    }
  }

  predicate Unissued(issued: Issues, items: seq<Item>) {
    && (forall i | 0 <= i < |items| :: items[i].id !in issued)
    && (forall i, j | 0 <= i < j < |items| :: items[i].id != items[j].id)
  }

  lemma {:induction false} BatchIssuesOwn(cfg: Config, s: Store, items: seq<Item>, now: int, id: Id)
    requires id in BatchIssues(cfg, s, items, now)
    ensures exists i :: 0 <= i < |items| && items[i].id == id
  {
    var n := |items| - 1;
    if id in BatchIssues(cfg, s, items[..n], now) {
      BatchIssuesOwn(cfg, s, items[..n], now, id);
      var i :| 0 <= i < n && items[..n][i].id == id;
      assert items[i].id == id;
    } else {
      assert items[n].id == id;
    }
  }

  lemma NextUnissued(cfg: Config, s: Store, issued: Issues, items: seq<Item>, now: int)
    requires items != [] && Unissued(issued, items)
    ensures var n := |items| - 1;
            Unissued(issued, items[..n]) && items[n].id !in issued + BatchIssues(cfg, s, items[..n], now)
  {
    var n := |items| - 1;
    forall id | id in BatchIssues(cfg, s, items[..n], now) ensures id != items[n].id {
      BatchIssuesOwn(cfg, s, items[..n], now, id);
    }
  }

  lemma Regrouped<K, V>(a: map<K, V>, b: map<K, V>, c: map<K, V>)
    ensures a + b + c == a + (b + c)
  {
  }

  lemma {:induction false} BatchKeepsReceipts(cfg: Config, s: Store, issued: Issues, items: seq<Item>, now: int)
    requires ReceiptLaw(s, issued) && Unissued(issued, items) && EnqueueAll(cfg, s, items, now).Done?
    ensures ReceiptLaw(EnqueueAll(cfg, s, items, now).store, issued + BatchIssues(cfg, s, items, now))
  {
    if items == [] {
      assert issued + map[] == issued;
    } else {
      var n := |items| - 1;
      NextUnissued(cfg, s, issued, items, now);
      BatchKeepsReceipts(cfg, s, issued, items[..n], now);
      var t, earlier := EnqueueAll(cfg, s, items[..n], now).store, BatchIssues(cfg, s, items[..n], now);
      EnqueueKeepsReceipts(cfg, t, issued + earlier, items[n], now);
      Regrouped(issued, earlier,
                IssueOf(EnqueueOne(cfg, t, items[n].request, items[n].id, items[n].freshTrace, now), items[n], now));
    }
  }

  // ---- Flows ----

  function RowSlots(rows: seq<Prepared>): seq<Slot> {
    if rows == [] then [] else RowSlots(rows[..|rows| - 1]) + OwnSlots(rows[|rows| - 1].body)
  }

  lemma {:induction false} RowSlotsConcat(a: seq<Prepared>, b: seq<Prepared>)
    ensures RowSlots(a + b) == RowSlots(a) + RowSlots(b)
  {
    if b == [] {
      assert a + b == a;
    } else {
      var n := |b| - 1;
      assert (a + b)[..|a + b| - 1] == a + b[..n];
      RowSlotsConcat(a, b[..n]);
      assert RowSlots(a) + RowSlots(b[..n]) + OwnSlots(b[n].body)
          == RowSlots(a) + (RowSlots(b[..n]) + OwnSlots(b[n].body));
    }
  }

  lemma RowSlotsOfOne(r: Prepared)
    ensures RowSlots([r]) == OwnSlots(r.body)
  {
    assert [r][..0] == [];
  }

  /** A flattened tree carries the slots of the tree, in the same order. */
  lemma {:induction false} FlatSlots(n: FlowJob, parent: Option<Id>, depth: nat, supply: seq<Id>, k: nat)
    requires k + Size(n) <= |supply|
    ensures RowSlots(Flat(n, parent, depth, supply, k)) == Slots(n)
    decreases n, 1
  {
    var root := RowOf(n, parent, depth, supply[k]);
    RowSlotsConcat([root], FlatAll(n.children, Some(supply[k]), depth + 1, supply, k + 1));
    RowSlotsOfOne(root);
    ForestSlots(n.children, Some(supply[k]), depth + 1, supply, k + 1);
  }

  lemma {:induction false} ForestSlots(ns: seq<FlowJob>, parent: Option<Id>, depth: nat, supply: seq<Id>, k: nat)
    requires k + SizeAll(ns) <= |supply|
    ensures RowSlots(FlatAll(ns, parent, depth, supply, k)) == SlotsAll(ns)
    decreases ns, 0
  {
    if ns != [] {
      FlatSlots(ns[0], parent, depth, supply, k);
      ForestSlots(ns[1..], parent, depth, supply, k + Size(ns[0]));
      JoinedSlots(ns, parent, depth, supply, k);
    }
  }

  lemma JoinedSlots(ns: seq<FlowJob>, parent: Option<Id>, depth: nat, supply: seq<Id>, k: nat)
    requires ns != [] && k + SizeAll(ns) <= |supply|
    requires RowSlots(Flat(ns[0], parent, depth, supply, k)) == Slots(ns[0])
    requires RowSlots(FlatAll(ns[1..], parent, depth, supply, k + Size(ns[0]))) == SlotsAll(ns[1..])
    ensures RowSlots(FlatAll(ns, parent, depth, supply, k)) == SlotsAll(ns)
  {
    Split(ns);
    SplitFlat(ns, parent, depth, supply, k);
    RowSlotsConcat(Flat(ns[0], parent, depth, supply, k), FlatAll(ns[1..], parent, depth, supply, k + Size(ns[0])));
  }

  /** A list that is stored uses no slot that is taken. */
  lemma {:induction false} NoOffence(receipts: Receipts, rows: seq<Prepared>, now: int)
    requires FirstOffence(receipts, rows, now).None?
    ensures forall i | 0 <= i < |RowSlots(rows)| :: RowSlots(rows)[i] !in receipts
  {
    if rows != [] { NoOffence(receipts, rows[..|rows| - 1], now); }
  }

  function RowIssues(rows: seq<Prepared>, tree: Id, base: nat, now: int): Issues {
    if rows == [] then map[]
    else
      var n := |rows| - 1;
      var m := RowIssues(rows[..n], tree, base, now);
      if rows[n].body.key == "" then m
      else m[rows[n].id := Issue(SlotOf(rows[n].body), ReceiptOf(rows[n], tree, base, now))]
  }

  lemma {:induction false} RowIssuesOwn(rows: seq<Prepared>, tree: Id, base: nat, now: int)
    ensures RowIssues(rows, tree, base, now).Keys <= IdsOf(rows)
  {
    if rows != [] {
      var n := |rows| - 1;
      RowIssuesOwn(rows[..n], tree, base, now);
      assert IdsOf(rows) == IdsOf(rows[..n]) + {rows[n].id};
    }
  }

  lemma {:induction false} ReceiptMapSlots(rows: seq<Prepared>, tree: Id, base: nat, now: int)
    ensures ReceiptMap(rows, tree, base, now).Keys == SlotSet(RowSlots(rows))
  {
    if rows != [] {
      var n := |rows| - 1;
      ReceiptMapSlots(rows[..n], tree, base, now);
      var a, b := RowSlots(rows[..n]), OwnSlots(rows[n].body);
      assert SlotSet(a + b) == SlotSet(a) + SlotSet(b);
    }
  }

  /** The last row's slot is not used by the rows before it. */
  lemma LastSlotUnused(receipts: Receipts, rows: seq<Prepared>, tree: Id, base: nat, now: int)
    requires rows != [] && Unused(RowSlots(rows), receipts.Keys)
    ensures var n := |rows| - 1;
            && Unused(RowSlots(rows[..n]), receipts.Keys)
            && (rows[n].body.key != "" ==> SlotOf(rows[n].body) !in receipts + ReceiptMap(rows[..n], tree, base, now))
  {
    var n := |rows| - 1;
    var a := RowSlots(rows[..n]);
    ReceiptMapSlots(rows[..n], tree, base, now);
    assert forall i | 0 <= i < |a| :: RowSlots(rows)[i] == a[i];
    if rows[n].body.key != "" {
      assert RowSlots(rows)[|a|] == SlotOf(rows[n].body);
    }
  }

  /** One more row of a list. */
  lemma RowKeepsReceipts(receipts: Receipts, live: set<Id>, past: set<Id>, issued: Issues, m: Receipts, ids: set<Id>,
                         i: Issues, r: Prepared, tree: Id, base: nat, now: int)
    requires Receipted(receipts + m, live + ids, past, issued + i) && r.id !in issued + i
    requires r.body.key != "" ==> SlotOf(r.body) !in receipts + m
    ensures var issue := Issue(SlotOf(r.body), ReceiptOf(r, tree, base, now));
            if r.body.key == "" then Receipted(receipts + m, live + (ids + {r.id}), past, issued + i)
            else Receipted(receipts + m[issue.slot := issue.receipt], live + (ids + {r.id}), past,
                           issued + i[r.id := issue])
  {
    assert live + (ids + {r.id}) == live + ids + {r.id};
    if r.body.key == "" {
      UnkeyedKeeps(receipts + m, live + ids, past, issued + i, r.id);
    } else {
      var issue := Issue(SlotOf(r.body), ReceiptOf(r, tree, base, now));
      IssueKeeps(receipts + m, live + ids, past, issued + i, r.id, issue);
      assert (receipts + m)[issue.slot := issue.receipt] == receipts + m[issue.slot := issue.receipt];
      assert (issued + i)[r.id := issue] == issued + i[r.id := issue];
    }
  }

  lemma LastRowIsNew(rows: seq<Prepared>, issued: Issues, tree: Id, base: nat, now: int)
    requires rows != [] && OneEach(rows) && IdsOf(rows) !! issued.Keys
    ensures var n := |rows| - 1;
            && OneEach(rows[..n]) && IdsOf(rows[..n]) !! issued.Keys
            && IdsOf(rows) == IdsOf(rows[..n]) + {rows[n].id}
            && rows[n].id !in issued + RowIssues(rows[..n], tree, base, now)
  {
    var n := |rows| - 1;
    assert IdsOf(rows) == IdsOf(rows[..n]) + {rows[n].id};
    RowIssuesOwn(rows[..n], tree, base, now);
  }

  /** Storing a list of prepared nodes. */
  lemma {:induction false} RowsKeepReceipts(receipts: Receipts, live: set<Id>, past: set<Id>, issued: Issues,
                                            rows: seq<Prepared>, tree: Id, base: nat, now: int)
    requires Receipted(receipts, live, past, issued) && OneEach(rows) && IdsOf(rows) !! issued.Keys
    requires Unused(RowSlots(rows), receipts.Keys)
    ensures Receipted(receipts + ReceiptMap(rows, tree, base, now), live + IdsOf(rows), past,
                      issued + RowIssues(rows, tree, base, now))
  {
    if rows == [] {
      assert receipts + map[] == receipts && live + IdsOf(rows) == live && issued + map[] == issued;
    } else {
      var n := |rows| - 1;
      LastSlotUnused(receipts, rows, tree, base, now);
      LastRowIsNew(rows, issued, tree, base, now);
      RowsKeepReceipts(receipts, live, past, issued, rows[..n], tree, base, now);
      RowKeepsReceipts(receipts, live, past, issued, ReceiptMap(rows[..n], tree, base, now), IdsOf(rows[..n]),
                       RowIssues(rows[..n], tree, base, now), rows[n], tree, base, now);
    }
  }

  lemma InsertKeepsReceipts(s: Store, issued: Issues, rows: seq<Prepared>, tree: Id, base: nat, now: int)
    requires ReceiptLaw(s, issued) && OneEach(rows) && IdsOf(rows) !! issued.Keys
    requires FirstOffence(s.receipts, rows, now).None? && Unused(RowSlots(rows), {})
    ensures ReceiptLaw(Insert(s, rows, tree, base, now), issued + RowIssues(rows, tree, base, now))
  {
    NoOffence(s.receipts, rows, now);
    RowMapKeys(rows, tree, base, now);
    RowsKeepReceipts(s.receipts, s.jobs.Keys, s.history.Keys, issued, rows, tree, base, now);
  }

  /** The receipts issued by a call that stores several trees. */
  function TreeIssues(flows: seq<FlowJob>, supplies: seq<seq<Id>>, now: int): Issues
    requires Supplied(flows, supplies)
    decreases |flows|
  {
    if flows == [] then map[]
    else RowIssues(Flat(flows[0], None, 0, supplies[0], 0), supplies[0][0], 0, now)
         + TreeIssues(flows[1..], supplies[1..], now)
  }

  /** No supply holds an id that already has a receipt, or an id of another supply. */
  predicate UnissuedSupplies(issued: Issues, supplies: seq<seq<Id>>) {
    && (forall i | 0 <= i < |supplies| :: FlattenLaws.Distinct(supplies[i]))
    && (forall i, a | 0 <= i < |supplies| && 0 <= a < |supplies[i]| :: supplies[i][a] !in issued)
    && (forall i, j, a, b | 0 <= i < j < |supplies| && 0 <= a < |supplies[i]| && 0 <= b < |supplies[j]| ::
          supplies[i][a] != supplies[j][b])
  }

  lemma FirstTreeIds(n: FlowJob, supply: seq<Id>)
    requires FlattenLaws.Distinct(supply) && Size(n) <= |supply|
    ensures var rows := Flat(n, None, 0, supply, 0);
            OneEach(rows) && rows[0].id == supply[0] && forall x | x in IdsOf(rows) :: x in supply
  {
    var rows := Flat(n, None, 0, supply, 0);
    forall i | 0 <= i < |rows| ensures rows[i].id == supply[i] { FlattenLaws.FlatRow(n, None, 0, supply, 0, i); }
  }

  lemma TreeKeepsReceipts(cfg: Config, s: Store, issued: Issues, n: FlowJob, supply: seq<Id>, now: int, seen: set<Slot>)
    requires ReceiptLaw(s, issued) && FlattenLaws.Distinct(supply) && Size(n) <= |supply|
    requires forall a | 0 <= a < |supply| :: supply[a] !in issued
    requires Acceptable(n, 0, cfg.maxFlowNodes, cfg.maxFlowDepth, seen)
    requires InsertTree(s, Flat(n, None, 0, supply, 0), now).Ok?
    ensures ReceiptLaw(InsertTree(s, Flat(n, None, 0, supply, 0), now).value,
                       issued + RowIssues(Flat(n, None, 0, supply, 0), supply[0], 0, now))
  {
    FirstTreeIds(n, supply);
    FlatSlots(n, None, 0, supply, 0);
    InsertKeepsReceipts(s, issued, Flat(n, None, 0, supply, 0), supply[0], 0, now);
  }

  lemma LaterUnissued(issued: Issues, n: FlowJob, supplies: seq<seq<Id>>, now: int)
    requires supplies != [] && UnissuedSupplies(issued, supplies) && Size(n) <= |supplies[0]|
    ensures UnissuedSupplies(issued + RowIssues(Flat(n, None, 0, supplies[0], 0), supplies[0][0], 0, now),
                             supplies[1..])
  {
    var rows := Flat(n, None, 0, supplies[0], 0);
    FirstTreeIds(n, supplies[0]);
    RowIssuesOwn(rows, supplies[0][0], 0, now);
    assert forall i | 0 <= i < |supplies[1..]| :: supplies[1..][i] == supplies[i + 1];
  }

  lemma {:induction false} TreesKeepReceipts(cfg: Config, s: Store, issued: Issues, flows: seq<FlowJob>,
                                             supplies: seq<seq<Id>>, now: int, seen: set<Slot>)
    requires ReceiptLaw(s, issued) && Supplied(flows, supplies) && UnissuedSupplies(issued, supplies)
    requires AcceptableTrees(cfg, flows, seen) && InsertTrees(s, flows, supplies, now).Ok?
    ensures ReceiptLaw(InsertTrees(s, flows, supplies, now).value, issued + TreeIssues(flows, supplies, now))
    decreases |flows|
  {
    if flows == [] {
      assert issued + map[] == issued;
    } else {
      var first := RowIssues(Flat(flows[0], None, 0, supplies[0], 0), supplies[0][0], 0, now);
      TreeKeepsReceipts(cfg, s, issued, flows[0], supplies[0], now, seen);
      LaterUnissued(issued, flows[0], supplies, now);
      TreesKeepReceipts(cfg, InsertTree(s, Flat(flows[0], None, 0, supplies[0], 0), now).value, issued + first,
                        flows[1..], supplies[1..], now, seen + SlotSet(Slots(flows[0])));
      Regrouped(issued, first, TreeIssues(flows[1..], supplies[1..], now));
    }
  }

  lemma MergeKeepsReceipts(cfg: Config, s: Store, issued: Issues, flow: FlowJob, supply: seq<Id>, now: int)
    requires ReceiptLaw(s, issued) && FlattenLaws.Distinct(supply) && SizeAll(flow.children) <= |supply|
    requires forall a | 0 <= a < |supply| :: supply[a] !in issued
    requires AddFlowMerge(cfg, s, flow, supply, now).1.Ok?
    ensures var t := s.receipts[SlotOf(flow.body)].jobId;
            ReceiptLaw(AddFlowMerge(cfg, s, flow, supply, now).0,
                       issued + RowIssues(NewRows(flow, t, supply), TreeOf(t, s.jobs[t]), s.jobs[t].treeDepth, now))
  {
    var t := s.receipts[SlotOf(flow.body)].jobId;
    var rows := NewRows(flow, t, supply);
    forall i | 0 <= i < |rows| ensures rows[i].id == supply[i] {
      FlattenLaws.ForestRow(flow.children, Some(t), 1, supply, 0, i);
    }
    ForestSlots(flow.children, Some(t), 1, supply, 0);
    var s1 := RegateTarget(s, t, |flow.children|);
    assert s1.jobs.Keys == s.jobs.Keys;
    InsertKeepsReceipts(s1, issued, rows, TreeOf(t, s.jobs[t]), s.jobs[t].treeDepth, now);
  }

  // ---- Ends of jobs ----

  lemma FailKeepsReceipts(s: Store, issued: Issues, r: FinishRequest, now: int)
    requires ReceiptLaw(s, issued) && r.id in s.jobs
    ensures ReceiptLaw(Fail(s, r, now), issued)
  {
    var dead := Doomed(s.jobs, r.id);
    DoomedAreLive(s.jobs, r.id);
    DeathsKeep(s.receipts, s.jobs.Keys, s.history.Keys, issued, dead);
    assert (s.jobs - dead).Keys == s.jobs.Keys - dead;
    assert (s.history + FailedRows(s.jobs, r, now, dead)).Keys == s.history.Keys + dead;
  }

  lemma SucceedKeepsReceipts(s: Store, issued: Issues, r: FinishRequest, now: int)
    requires ReceiptLaw(s, issued) && r.id in s.jobs
    ensures ReceiptLaw(Succeed(s, r, now), issued)
  {
    DeathsKeep(s.receipts, s.jobs.Keys, s.history.Keys, issued, {r.id});
    assert Succeed(s, r, now).jobs.Keys == s.jobs.Keys - {r.id};
    assert Succeed(s, r, now).history.Keys == s.history.Keys + {r.id};
  }

  lemma RetryKeepsReceipts(s: Store, issued: Issues, r: FinishRequest, now: int, rand: real)
    requires ReceiptLaw(s, issued) && r.id in s.jobs
    ensures ReceiptLaw(RetryLater(s, r, now, rand), issued)
  {
    assert RetryLater(s, r, now, rand).jobs.Keys == s.jobs.Keys;
  }

  lemma FinishKeepsReceipts(s: Store, issued: Issues, r: FinishRequest, now: int, rand: real)
    requires ReceiptLaw(s, issued)
    ensures ReceiptLaw(FinishJob(s, r, now, rand).0, issued)
  {
    if Judge(s, r, now).Accepted? {
      if Retries(s.jobs[r.id], r) {
        RetryKeepsReceipts(s, issued, r, now, rand);
      } else if r.error.Some? {
        FailKeepsReceipts(s, issued, r, now);
      } else {
        SucceedKeepsReceipts(s, issued, r, now);
      }
    }
  }

  lemma RecoverKeepsReceipts(s: Store, issued: Issues, rows: set<Id>, now: int)
    requires ReceiptLaw(s, issued)
    ensures ReceiptLaw(RecoverRows(s, rows, now), issued)
  {
    var dead := Exhausted(s.jobs, rows);
    DeathsKeep(s.receipts, s.jobs.Keys, s.history.Keys, issued, dead);
    assert RecoveredJobs(s.jobs, rows, now).Keys == s.jobs.Keys - dead;
    assert ExpiredRows(s.jobs, rows, now).Keys == dead;
  }

  lemma SweepKeepsReceipts(rc: Retention.RetentionConfig, s: Store, issued: Issues, p: Retention.Picks, now: int)
    requires ReceiptLaw(s, issued) && Retention.SweepLegal(rc, s, p, now)
    ensures ReceiptLaw(Retention.Sweep(s, p), issued)
  {
    PruneKeeps(s.receipts, s.jobs.Keys, s.history.Keys, issued, Retention.Sweep(s, p).history.Keys, p.receipts);
  }
}
