/**
  `prepare_node`: validating a flow tree and flattening it, root first, into
  rows linked by id.  Ids come from a supply of fresh ones; the row at position
  `i` of the output takes the `i`-th.
 */
module Flatten {
  import opened Tables

  /** The options of one node, as a request carries them. */
  datatype Body = Body(
    name: string,
    payload: Bytes,
    priority: int,
    maxAttempts: nat,
    delayMs: int,
    facet: string,
    backoffMs: Long,
    backoffMaxMs: Long,
    jitter: real,
    key: string,
    failParent: bool)

  datatype FlowJob = FlowJob(body: Body, children: seq<FlowJob>)

  datatype Prepared = Prepared(
    id: Id,
    parent: Option<Id>,
    body: Body,
    depth: nat,
    pending: nat,
    state: State)

  // ---- Options ----

  function EffectiveCap(base: Long, cap: Long): Long {
    if cap == 0 then (if base > 60_000 then base else 60_000) else cap
  }

  predicate KeyOk(key: string) {
    key == "" || (!Blank(key) && Utf8Length(key) <= 256)
  }

  predicate BodyOk(b: Body) {
    && KeyOk(b.key)
    && 0 <= b.delayMs && 0 <= b.backoffMs && 0 <= b.backoffMaxMs
    && b.backoffMs <= EffectiveCap(b.backoffMs, b.backoffMaxMs)
    && 0.0 <= b.jitter <= 1.0
  }

  /** Unset retry options take the server's defaults. */
  function NormalBody(b: Body): Body {
    b.(maxAttempts := if b.maxAttempts == 0 then 3 else b.maxAttempts,
       backoffMaxMs := EffectiveCap(b.backoffMs, b.backoffMaxMs))
  }

  function SlotOf(b: Body): Slot {
    Slot(b.name, b.key)
  }

  // ---- Trees ----

  function Size(n: FlowJob): (k: nat)
    ensures k >= 1
    decreases n, 1
  {
    1 + SizeAll(n.children)
  }

  function SizeAll(ns: seq<FlowJob>): nat
    decreases ns, 0
  {
    if ns == [] then 0 else Size(ns[0]) + SizeAll(ns[1..])
  }

  /** Levels below the root. */
  function Height(n: FlowJob): nat
    decreases n, 1
  {
    if n.children == [] then 0 else 1 + HeightAll(n.children)
  }

  function HeightAll(ns: seq<FlowJob>): nat
    decreases ns, 0
  {
    if ns == [] then 0
    else
      var a, b := Height(ns[0]), HeightAll(ns[1..]);
      if a > b then a else b
  }

  predicate TreeOk(n: FlowJob)
    decreases n, 1
  {
    BodyOk(n.body) && ForestOk(n.children)
  }

  predicate ForestOk(ns: seq<FlowJob>)
    decreases ns, 0
  {
    ns == [] || (TreeOk(ns[0]) && ForestOk(ns[1..]))
  }

  /** The idempotency slots used, in preorder. */
  function Slots(n: FlowJob): seq<Slot>
    decreases n, 1
  {
    OwnSlots(n.body) + SlotsAll(n.children)
  }

  function SlotsAll(ns: seq<FlowJob>): seq<Slot>
    decreases ns, 0
  {
    if ns == [] then [] else Slots(ns[0]) + SlotsAll(ns[1..])
  }

  /** No slot is used twice, and none was used before. */
  predicate Unused(slots: seq<Slot>, seen: set<Slot>) {
    && (forall i | 0 <= i < |slots| :: slots[i] !in seen)
    && (forall i, j | 0 <= i < j < |slots| :: slots[i] != slots[j])
  }

  function SlotSet(slots: seq<Slot>): set<Slot> {
    set x | x in slots
  }

  function Normal(n: FlowJob): FlowJob
    decreases n, 1
  {
    FlowJob(NormalBody(n.body), NormalAll(n.children))
  }

  function NormalAll(ns: seq<FlowJob>): (ms: seq<FlowJob>)
    decreases ns, 0
  {
    if ns == [] then [] else [Normal(ns[0])] + NormalAll(ns[1..])
  }

  // ---- The flattened list ----

  function Resting(b: Body, children: nat): State {
    if children > 0 then WaitingChildren else if b.delayMs > 0 then Delayed else Waiting
  }

  function RowOf(n: FlowJob, parent: Option<Id>, depth: nat, id: Id): Prepared {
    Prepared(id, parent, NormalBody(n.body), depth, |n.children|, Resting(n.body, |n.children|))
  }

  function Flat(n: FlowJob, parent: Option<Id>, depth: nat, supply: seq<Id>, k: nat): (rows: seq<Prepared>)
    requires k + Size(n) <= |supply|
    ensures |rows| == Size(n)
    decreases n, 1
  {
    [RowOf(n, parent, depth, supply[k])] + FlatAll(n.children, Some(supply[k]), depth + 1, supply, k + 1)
  }

  function FlatAll(ns: seq<FlowJob>, parent: Option<Id>, depth: nat, supply: seq<Id>, k: nat): (rows: seq<Prepared>)
    requires k + SizeAll(ns) <= |supply|
    ensures |rows| == SizeAll(ns)
    decreases ns, 0
  {
    if ns == [] then []
    else Flat(ns[0], parent, depth, supply, k) + FlatAll(ns[1..], parent, depth, supply, k + Size(ns[0]))
  }

  // ---- Acceptance ----

  /** Within both caps, well-formed fields, and keys not used before. */
  predicate Acceptable(n: FlowJob, depth: nat, room: int, levels: nat, seen: set<Slot>) {
    depth + Height(n) <= levels && Size(n) <= room && TreeOk(n) && Unused(Slots(n), seen)
  }

  predicate AcceptableAll(ns: seq<FlowJob>, depth: nat, room: int, levels: nat, seen: set<Slot>) {
    ns == [] || (depth + HeightAll(ns) <= levels && SizeAll(ns) <= room && ForestOk(ns) && Unused(SlotsAll(ns), seen))
  }

  lemma UnusedConcat(a: seq<Slot>, b: seq<Slot>, seen: set<Slot>)
    ensures Unused(a + b, seen) <==> Unused(a, seen) && Unused(b, seen + SlotSet(a))
    ensures SlotSet(a + b) == SlotSet(a) + SlotSet(b)
  {
    var c := a + b;
    if Unused(c, seen) {
      forall i | 0 <= i < |a| ensures a[i] !in seen { assert c[i] == a[i]; }
      forall i, j | 0 <= i < j < |a| ensures a[i] != a[j] { assert c[i] == a[i] && c[j] == a[j]; }
      forall i | 0 <= i < |b| ensures b[i] !in seen + SlotSet(a) {
        assert c[|a| + i] == b[i];
        forall x | x in SlotSet(a) ensures x != b[i] {
          var m :| 0 <= m < |a| && a[m] == x;
          assert c[m] == x;
        }
      }
      forall i, j | 0 <= i < j < |b| ensures b[i] != b[j] {
        assert c[|a| + i] == b[i] && c[|a| + j] == b[j];
      }
    }
    if Unused(a, seen) && Unused(b, seen + SlotSet(a)) {
      forall i, j | 0 <= i < j < |c| ensures c[i] != c[j] {
        if i < |a| <= j {
          assert c[i] in SlotSet(a) && c[j] == b[j - |a|];
        }
      }
    }
  }

  function OwnSlots(b: Body): seq<Slot> {
    if b.key == "" then [] else [SlotOf(b)]
  }

  lemma NoSlots(seen: set<Slot>)
    ensures Unused([], seen) && SlotSet([]) == {}
  {
  }

  lemma OwnSlotsUnused(b: Body, seen: set<Slot>)
    ensures Unused(OwnSlots(b), seen) <==> (b.key != "" ==> SlotOf(b) !in seen)
    ensures SlotSet(OwnSlots(b)) == if b.key == "" then {} else {SlotOf(b)}
  {
    if b.key != "" { assert OwnSlots(b)[0] == SlotOf(b); }
  }

  lemma Unfold(n: FlowJob)
    ensures Size(n) == 1 + SizeAll(n.children)
    ensures Height(n) == if n.children == [] then 0 else 1 + HeightAll(n.children)
    ensures TreeOk(n) <==> BodyOk(n.body) && ForestOk(n.children)
    ensures Slots(n) == OwnSlots(n.body) + SlotsAll(n.children)
    ensures n.children == [] ==>
              SizeAll(n.children) == 0 && ForestOk(n.children) && SlotsAll(n.children) == []
  {
  }

  /** A node is acceptable when it is so itself and its children are in what room it leaves. */
  lemma AcceptableNode(n: FlowJob, depth: nat, room: int, levels: nat, seen: set<Slot>)
    ensures Acceptable(n, depth, room, levels, seen) <==>
              && depth <= levels && 1 <= room && BodyOk(n.body)
              && (n.body.key != "" ==> SlotOf(n.body) !in seen)
              && AcceptableAll(n.children, depth + 1, room - 1, levels, seen + SlotSet(OwnSlots(n.body)))
    ensures SlotSet(Slots(n)) == SlotSet(OwnSlots(n.body)) + SlotSet(SlotsAll(n.children))
  {
    UnusedConcat(OwnSlots(n.body), SlotsAll(n.children), seen);
    OwnSlotsUnused(n.body, seen);
    NoSlots(seen + SlotSet(OwnSlots(n.body)));
    Unfold(n);
  }

  lemma Split(ns: seq<FlowJob>)
    requires ns != []
    ensures SizeAll(ns) == Size(ns[0]) + SizeAll(ns[1..])
    ensures HeightAll(ns) == if Height(ns[0]) > HeightAll(ns[1..]) then Height(ns[0]) else HeightAll(ns[1..])
    ensures ForestOk(ns) <==> TreeOk(ns[0]) && ForestOk(ns[1..])
    ensures SlotsAll(ns) == Slots(ns[0]) + SlotsAll(ns[1..])
    ensures ns[1..] == [] ==>
              SizeAll(ns[1..]) == 0 && HeightAll(ns[1..]) == 0 && ForestOk(ns[1..]) && SlotsAll(ns[1..]) == []
  {
  }

  lemma AcceptableParts(ns: seq<FlowJob>, head: FlowJob, tail: seq<FlowJob>, depth: nat, room: int, levels: nat,
                        seen: set<Slot>)
    requires ns != []
    requires SizeAll(ns) == Size(head) + SizeAll(tail)
    requires HeightAll(ns) == if Height(head) > HeightAll(tail) then Height(head) else HeightAll(tail)
    requires ForestOk(ns) <==> TreeOk(head) && ForestOk(tail)
    requires SlotsAll(ns) == Slots(head) + SlotsAll(tail)
    requires tail == [] ==> SizeAll(tail) == 0 && HeightAll(tail) == 0 && ForestOk(tail) && SlotsAll(tail) == []
    ensures AcceptableAll(ns, depth, room, levels, seen) <==>
              && Acceptable(head, depth, room, levels, seen)
              && AcceptableAll(tail, depth, room - Size(head), levels, seen + SlotSet(Slots(head)))
    ensures SlotSet(SlotsAll(ns)) == SlotSet(Slots(head)) + SlotSet(SlotsAll(tail))
  {
    UnusedConcat(Slots(head), SlotsAll(tail), seen);
    NoSlots(seen + SlotSet(Slots(head)));
  }

  lemma AcceptableSplit(ns: seq<FlowJob>, depth: nat, room: int, levels: nat, seen: set<Slot>)
    requires ns != []
    ensures AcceptableAll(ns, depth, room, levels, seen) <==>
              && Acceptable(ns[0], depth, room, levels, seen)
              && AcceptableAll(ns[1..], depth, room - Size(ns[0]), levels, seen + SlotSet(Slots(ns[0])))
    ensures SlotSet(SlotsAll(ns)) == SlotSet(Slots(ns[0])) + SlotSet(SlotsAll(ns[1..]))
  {
    Split(ns);
    AcceptableParts(ns, ns[0], ns[1..], depth, room, levels, seen);
  }

  lemma SplitFlat(ns: seq<FlowJob>, parent: Option<Id>, depth: nat, supply: seq<Id>, k: nat)
    requires ns != [] && k + SizeAll(ns) <= |supply|
    ensures k + Size(ns[0]) + SizeAll(ns[1..]) <= |supply|
    ensures FlatAll(ns, parent, depth, supply, k)
            == Flat(ns[0], parent, depth, supply, k) + FlatAll(ns[1..], parent, depth, supply, k + Size(ns[0]))
  {
  }

  /** Where the loop over a list of children stands. */
  datatype Work = Work(
    depth: nat, levels: nat, nodes: nat, parent: Option<Id>, supply: seq<Id>, rows: seq<Prepared>, seen: set<Slot>)

  /** Doing `rest` from `now` comes to the same as doing `ns` from `whole`. */
  ghost predicate Leaves(whole: Work, ns: seq<FlowJob>, now: Work, rest: seq<FlowJob>) {
    && |whole.rows| + SizeAll(ns) <= |whole.supply|
    && |now.rows| + SizeAll(rest) <= |now.supply|
    && (AcceptableAll(ns, whole.depth, whole.nodes - |whole.rows|, whole.levels, whole.seen)
        <==> AcceptableAll(rest, now.depth, now.nodes - |now.rows|, now.levels, now.seen))
    && whole.rows + FlatAll(ns, whole.parent, whole.depth, whole.supply, |whole.rows|)
       == now.rows + FlatAll(rest, now.parent, now.depth, now.supply, |now.rows|)
    && whole.seen + SlotSet(SlotsAll(ns)) == now.seen + SlotSet(SlotsAll(rest))
  }

  lemma Regroup<T>(a: seq<T>, b: seq<T>, c: seq<T>)
    ensures a + b + c == a + (b + c)
  {
  }

  lemma LeaveRows(rest: seq<FlowJob>, parent: Option<Id>, depth: nat, supply: seq<Id>, rows: seq<Prepared>)
    requires rest != [] && |rows| + SizeAll(rest) <= |supply|
    ensures var more := rows + Flat(rest[0], parent, depth, supply, |rows|);
            && |more| + SizeAll(rest[1..]) <= |supply|
            && rows + FlatAll(rest, parent, depth, supply, |rows|) ==
               more + FlatAll(rest[1..], parent, depth, supply, |more|)
  {
    SplitFlat(rest, parent, depth, supply, |rows|);
    Regroup(rows, Flat(rest[0], parent, depth, supply, |rows|),
            FlatAll(rest[1..], parent, depth, supply, |rows| + Size(rest[0])));
  }

  /** One child done leaves the others, if it is accepted at all. */
  lemma Leave(whole: Work, ns: seq<FlowJob>, now: Work, rest: seq<FlowJob>)
    requires rest != [] && Leaves(whole, ns, now, rest)
    ensures |now.rows| + Size(rest[0]) <= |now.supply|
    ensures !Acceptable(rest[0], now.depth, now.nodes - |now.rows|, now.levels, now.seen) ==>
              !AcceptableAll(ns, whole.depth, whole.nodes - |whole.rows|, whole.levels, whole.seen)
    ensures Acceptable(rest[0], now.depth, now.nodes - |now.rows|, now.levels, now.seen) ==>
              Leaves(whole, ns,
                     now.(rows := now.rows + Flat(rest[0], now.parent, now.depth, now.supply, |now.rows|),
                          seen := now.seen + SlotSet(Slots(rest[0]))),
                     rest[1..])
  {
    Split(rest);
    AcceptableSplit(rest, now.depth, now.nodes - |now.rows|, now.levels, now.seen);
    LeaveRows(rest, now.parent, now.depth, now.supply, now.rows);
  }

  /** A node's rows and slots are its own followed by its children's. */
  lemma NodeParts(n: FlowJob, parent: Option<Id>, depth: nat, supply: seq<Id>, rows: seq<Prepared>, seen: set<Slot>)
    requires |rows| + Size(n) <= |supply|
    ensures var root, k := RowOf(n, parent, depth, supply[|rows|]), |rows|;
            && k + 1 + SizeAll(n.children) <= |supply|
            && rows + Flat(n, parent, depth, supply, k)
               == rows + [root] + FlatAll(n.children, Some(supply[k]), depth + 1, supply, k + 1)
    ensures seen + SlotSet(Slots(n)) == seen + SlotSet(OwnSlots(n.body)) + SlotSet(SlotsAll(n.children))
  {
    Unfold(n);
    Regroup(rows, [RowOf(n, parent, depth, supply[|rows|])],
            FlatAll(n.children, Some(supply[|rows|]), depth + 1, supply, |rows| + 1));
    var a, b := OwnSlots(n.body), SlotsAll(n.children);
    assert SlotSet(a + b) == SlotSet(a) + SlotSet(b);
  }

  /** The checks on one node's fields, and the fields with their defaults filled in. */
  method CheckBody(b: Body) returns (ok: bool, body: Body)
    ensures ok <==> BodyOk(b)
    ensures ok ==> body == NormalBody(b)
  {
    body := b;
    if b.key != "" && (Blank(b.key) || Utf8Length(b.key) > 256) { return false, b; }
    if b.delayMs < 0 || b.backoffMs < 0 || b.backoffMaxMs < 0 { return false, b; }
    if b.backoffMaxMs == 0 {
      body := body.(backoffMaxMs := if b.backoffMs > 60_000 then b.backoffMs else 60_000);
    }
    if body.backoffMaxMs < b.backoffMs { return false, b; }
    if !(0.0 <= b.jitter <= 1.0) { return false, b; }
    if b.maxAttempts == 0 { body := body.(maxAttempts := 3); }
    ok := true;
  }

  /** The accumulators that the recursion pushes onto. */
  class Preparation {
    var seen: set<Slot>
    var rows: seq<Prepared>

    constructor ()
      ensures seen == {} && rows == []
    {
      seen, rows := {}, [];
    }

    /** Accepts exactly the acceptable trees and appends their flattened rows. */
    method PrepareNode(n: FlowJob, parent: Option<Id>, depth: nat, levels: nat, nodes: nat, supply: seq<Id>)
      returns (ok: bool)
      requires |rows| + Size(n) <= |supply|
      modifies this
      ensures ok <==> Acceptable(n, depth, nodes - |old(rows)|, levels, old(seen))
      ensures ok ==> rows == old(rows) + Flat(n, parent, depth, supply, |old(rows)|)
      ensures ok ==> seen == old(seen) + SlotSet(Slots(n))
      decreases n
    {
      AcceptableNode(n, depth, nodes - |rows|, levels, seen);
      NodeParts(n, parent, depth, supply, rows, seen);
      if depth > levels || |rows| >= nodes { return false; }
      var valid, body := CheckBody(n.body);
      if !valid || (n.body.key != "" && SlotOf(n.body) in seen) { return false; }
      if n.body.key != "" { seen := seen + {SlotOf(n.body)}; }
      assert seen == old(seen) + SlotSet(OwnSlots(n.body));
      var id := supply[|rows|];
      var state := if |n.children| > 0 then WaitingChildren else if n.body.delayMs > 0 then Delayed else Waiting;
      rows := rows + [Prepared(id, parent, body, depth, |n.children|, state)];
      assert rows == old(rows) + [RowOf(n, parent, depth, id)];
      ok := PrepareAll(n.children, Some(id), depth + 1, levels, nodes, supply);
    }

    /** The loop over a node's children. */
    method PrepareAll(ns: seq<FlowJob>, parent: Option<Id>, depth: nat, levels: nat, nodes: nat, supply: seq<Id>)
      returns (ok: bool)
      requires |rows| + SizeAll(ns) <= |supply|
      modifies this
      ensures ok <==> AcceptableAll(ns, depth, nodes - |old(rows)|, levels, old(seen))
      ensures ok ==> rows == old(rows) + FlatAll(ns, parent, depth, supply, |old(rows)|)
      ensures ok ==> seen == old(seen) + SlotSet(SlotsAll(ns))
      decreases ns
    {
      ghost var whole := Work(depth, levels, nodes, parent, supply, rows, seen);
      assert ns[0..] == ns;
      for i := 0 to |ns|
        invariant Leaves(whole, ns, Work(depth, levels, nodes, parent, supply, rows, seen), ns[i..])
      {
        assert ns[i..][0] == ns[i] && ns[i..][1..] == ns[i + 1..];
        Leave(whole, ns, Work(depth, levels, nodes, parent, supply, rows, seen), ns[i..]);
        var accepted := PrepareNode(ns[i], parent, depth, levels, nodes, supply);
        if !accepted { return false; }
      }
      assert ns[|ns|..] == [];
      return true;
    }
  }
}
