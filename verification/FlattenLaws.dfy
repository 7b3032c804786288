/**
  What the flattened list of a flow tree says: it is root first with every
  parent before its children, each row counts the rows that name it as parent,
  and the links alone rebuild the tree.
 */
module FlattenLaws {
  import opened Tables
  import opened Flatten

  predicate Distinct(supply: seq<Id>) {
    forall i, j | 0 <= i < j < |supply| :: supply[i] != supply[j]
  }

  // ---- Ids and resting states ----

  predicate Rests(r: Prepared) {
    && (r.state.WaitingChildren? <==> r.pending > 0)
    && !r.state.Active?
    && 1 <= r.body.maxAttempts
  }

  lemma {:induction false} FlatRow(n: FlowJob, parent: Option<Id>, depth: nat, supply: seq<Id>, k: nat, i: nat)
    requires k + Size(n) <= |supply| && i < Size(n)
    ensures Flat(n, parent, depth, supply, k)[i].id == supply[k + i]
    ensures Rests(Flat(n, parent, depth, supply, k)[i])
    decreases n, 1
  {
    if i > 0 { ForestRow(n.children, Some(supply[k]), depth + 1, supply, k + 1, i - 1); }
  }

  lemma {:induction false} ForestRow(ns: seq<FlowJob>, parent: Option<Id>, depth: nat, supply: seq<Id>, k: nat, i: nat)
    requires k + SizeAll(ns) <= |supply| && i < SizeAll(ns)
    ensures FlatAll(ns, parent, depth, supply, k)[i].id == supply[k + i]
    ensures Rests(FlatAll(ns, parent, depth, supply, k)[i])
    decreases ns, 0
  {
    var s := Size(ns[0]);
    if i < s {
      FlatRow(ns[0], parent, depth, supply, k, i);
    } else {
      ForestRow(ns[1..], parent, depth, supply, k + s, i - s);
    }
  }

  // ---- Links ----

  /** Row `i` hangs under `parent`, or under the earlier row `j`, one level up. */
  predicate Linked(rows: seq<Prepared>, parent: Option<Id>, depth: nat, i: nat, j: int)
    requires i < |rows|
  {
    if j < 0 then rows[i].parent == parent && rows[i].depth == depth
    else j < i && rows[i].parent == Some(rows[j].id) && rows[i].depth == rows[j].depth + 1
  }

  /** The row a row hangs under comes before it; `-1` stands for the given parent. */
  lemma {:induction false} FlatLink(n: FlowJob, parent: Option<Id>, depth: nat, supply: seq<Id>, k: nat, i: nat)
    returns (j: int)
    requires k + Size(n) <= |supply| && i < Size(n)
    ensures Linked(Flat(n, parent, depth, supply, k), parent, depth, i, j)
    ensures i == 0 <==> j < 0
    decreases n, 1
  {
    var rows := Flat(n, parent, depth, supply, k);
    if i == 0 {
      j := -1;
    } else {
      var kids := FlatAll(n.children, Some(supply[k]), depth + 1, supply, k + 1);
      var h := ForestLink(n.children, Some(supply[k]), depth + 1, supply, k + 1, i - 1);
      assert rows[i] == kids[i - 1];
      j := if h < 0 then 0 else h + 1;
      if h >= 0 { assert rows[j] == kids[h]; }
    }
  }

  lemma {:induction false} ForestLink(ns: seq<FlowJob>, parent: Option<Id>, depth: nat, supply: seq<Id>, k: nat, i: nat)
    returns (j: int)
    requires k + SizeAll(ns) <= |supply| && i < SizeAll(ns)
    ensures Linked(FlatAll(ns, parent, depth, supply, k), parent, depth, i, j)
    decreases ns, 0
  {
    var rows, s := FlatAll(ns, parent, depth, supply, k), Size(ns[0]);
    if i < s {
      j := FlatLink(ns[0], parent, depth, supply, k, i);
    } else {
      var tail := FlatAll(ns[1..], parent, depth, supply, k + s);
      var h := ForestLink(ns[1..], parent, depth, supply, k + s, i - s);
      assert rows[i] == tail[i - s];
      j := if h < 0 then -1 else h + s;
      if h >= 0 { assert rows[j] == tail[h]; }
    }
  }

  // ---- Counts ----

  function KidsOf(rows: seq<Prepared>, p: Id): set<Id> {
    set i | 0 <= i < |rows| && rows[i].parent == Some(p) :: rows[i].id
  }

  lemma KidsOfConcat(a: seq<Prepared>, b: seq<Prepared>, p: Id)
    ensures KidsOf(a + b, p) == KidsOf(a, p) + KidsOf(b, p)
  {
    var c := a + b;
    forall x | x in KidsOf(a, p) ensures x in KidsOf(c, p) {
      var i :| 0 <= i < |a| && a[i].parent == Some(p) && a[i].id == x;
      assert c[i] == a[i];
    }
    forall x | x in KidsOf(b, p) ensures x in KidsOf(c, p) {
      var i :| 0 <= i < |b| && b[i].parent == Some(p) && b[i].id == x;
      assert c[|a| + i] == b[i];
    }
  }

  lemma KidsLeft(a: seq<Prepared>, b: seq<Prepared>, p: Id)
    requires KidsOf(b, p) == {}
    ensures |KidsOf(a + b, p)| == |KidsOf(a, p)|
  {
    KidsOfConcat(a, b, p);
    assert KidsOf(a + b, p) == KidsOf(a, p);
  }

  lemma KidsRight(a: seq<Prepared>, b: seq<Prepared>, p: Id)
    requires KidsOf(a, p) == {}
    ensures |KidsOf(a + b, p)| == |KidsOf(b, p)|
  {
    KidsOfConcat(a, b, p);
    assert KidsOf(a + b, p) == KidsOf(b, p);
  }

  /** Ids in `supply[k..m]`. */
  predicate Within(supply: seq<Id>, k: nat, m: nat, x: Id)
    requires k <= m <= |supply|
  {
    exists i | k <= i < m :: supply[i] == x
  }

  lemma Narrow(supply: seq<Id>, k: nat, m: nat, k2: nat, m2: nat, x: Id)
    requires k <= k2 <= m2 <= m <= |supply| && !Within(supply, k, m, x)
    ensures !Within(supply, k2, m2, x)
  {
  }

  lemma Apart(supply: seq<Id>, k: nat, m: nat, i: nat)
    requires Distinct(supply) && k <= m <= |supply| && i < |supply| && (i < k || m <= i)
    ensures !Within(supply, k, m, supply[i])
  {
  }

  lemma Inside(supply: seq<Id>, k: nat, m: nat, i: nat)
    requires k <= i < m <= |supply|
    ensures Within(supply, k, m, supply[i])
  {
  }

  /** A forest only names its given parent and its own rows as parents. */
  lemma NoStrangers(ns: seq<FlowJob>, parent: Option<Id>, depth: nat, supply: seq<Id>, k: nat, p: Id)
    requires k + SizeAll(ns) <= |supply|
    requires parent != Some(p) && !Within(supply, k, k + SizeAll(ns), p)
    ensures KidsOf(FlatAll(ns, parent, depth, supply, k), p) == {}
  {
    var rows := FlatAll(ns, parent, depth, supply, k);
    forall i | 0 <= i < |rows| ensures rows[i].parent != Some(p) {
      var j := ForestLink(ns, parent, depth, supply, k, i);
      if j >= 0 {
        ForestRow(ns, parent, depth, supply, k, j);
        assert supply[k + j] == rows[j].id;
      }
    }
  }

  lemma NoStrangersInTree(n: FlowJob, parent: Option<Id>, depth: nat, supply: seq<Id>, k: nat, p: Id)
    requires k + Size(n) <= |supply|
    requires parent != Some(p) && !Within(supply, k, k + Size(n), p)
    ensures KidsOf(Flat(n, parent, depth, supply, k), p) == {}
  {
    var rows := Flat(n, parent, depth, supply, k);
    forall i | 0 <= i < |rows| ensures rows[i].parent != Some(p) {
      var j := FlatLink(n, parent, depth, supply, k, i);
      if j >= 0 {
        FlatRow(n, parent, depth, supply, k, j);
        assert supply[k + j] == rows[j].id;
      }
    }
  }

  /** Of a tree hung under `p`, only the root names `p`. */
  lemma OnlyRootNames(n: FlowJob, p: Id, depth: nat, supply: seq<Id>, k: nat)
    requires k + Size(n) <= |supply| && !Within(supply, k, k + Size(n), p)
    ensures KidsOf(Flat(n, Some(p), depth, supply, k), p) == {supply[k]}
  {
    var rows := Flat(n, Some(p), depth, supply, k);
    forall i | 0 < i < |rows| ensures rows[i].parent != Some(p) {
      var j := FlatLink(n, Some(p), depth, supply, k, i);
      FlatRow(n, Some(p), depth, supply, k, j);
      assert supply[k + j] == rows[j].id;
    }
    assert rows[0].parent == Some(p) && rows[0].id == supply[k];
  }

  lemma Widen(supply: seq<Id>, k: nat, m: nat, k2: nat, m2: nat, xs: set<Id>)
    requires k <= k2 <= m2 <= m <= |supply| && forall x | x in xs :: Within(supply, k2, m2, x)
    ensures forall x | x in xs :: Within(supply, k, m, x)
  {
    forall x | x in xs ensures Within(supply, k, m, x) {
      var i :| k2 <= i < m2 && supply[i] == x;
    }
  }

  /** As many rows of a forest name its parent as it has trees. */
  lemma {:induction false} ForestNamesParent(ns: seq<FlowJob>, p: Id, depth: nat, supply: seq<Id>, k: nat)
    requires k + SizeAll(ns) <= |supply| && Distinct(supply) && !Within(supply, k, k + SizeAll(ns), p)
    ensures |KidsOf(FlatAll(ns, Some(p), depth, supply, k), p)| == |ns|
    ensures forall x | x in KidsOf(FlatAll(ns, Some(p), depth, supply, k), p) :: Within(supply, k, k + SizeAll(ns), x)
    decreases ns
  {
    if ns != [] {
      var s, all := Size(ns[0]), SizeAll(ns);
      Split(ns);
      SplitFlat(ns, Some(p), depth, supply, k);
      Narrow(supply, k, k + all, k, k + s, p);
      Narrow(supply, k, k + all, k + s, k + all, p);
      OnlyRootNames(ns[0], p, depth, supply, k);
      ForestNamesParent(ns[1..], p, depth, supply, k + s);
      HeadAndTailKids(Flat(ns[0], Some(p), depth, supply, k), FlatAll(ns[1..], Some(p), depth, supply, k + s), p,
                      supply, k, s, all);
    }
  }

  lemma HeadAndTailKids(head: seq<Prepared>, tail: seq<Prepared>, p: Id, supply: seq<Id>, k: nat, s: nat, all: nat)
    requires 1 <= s <= all && k + all <= |supply| && Distinct(supply) && KidsOf(head, p) == {supply[k]}
    requires forall x | x in KidsOf(tail, p) :: Within(supply, k + s, k + all, x)
    ensures |KidsOf(head + tail, p)| == 1 + |KidsOf(tail, p)|
    ensures forall x | x in KidsOf(head + tail, p) :: Within(supply, k, k + all, x)
  {
    KidsOfConcat(head, tail, p);
    Widen(supply, k, k + all, k + s, k + all, KidsOf(tail, p));
    Inside(supply, k, k + all, k);
    forall x | x in KidsOf(tail, p) ensures x != supply[k] {
      var i :| k + s <= i < k + all && supply[i] == x;
    }
    assert KidsOf(head + tail, p) == {supply[k]} + KidsOf(tail, p);
  }

  /** Every row's count is the number of rows that name it as parent. */
  lemma {:induction false} FlatCounts(n: FlowJob, parent: Option<Id>, depth: nat, supply: seq<Id>, k: nat, i: nat)
    requires k + Size(n) <= |supply| && Distinct(supply) && i < Size(n)
    requires parent.Some? ==> !Within(supply, k, k + Size(n), parent.value)
    ensures |KidsOf(Flat(n, parent, depth, supply, k), supply[k + i])| == Flat(n, parent, depth, supply, k)[i].pending
    decreases n, 1
  {
    Unfold(n);
    var kids := FlatAll(n.children, Some(supply[k]), depth + 1, supply, k + 1);
    var root, x := [RowOf(n, parent, depth, supply[k])], supply[k + i];
    assert Flat(n, parent, depth, supply, k) == root + kids;
    Inside(supply, k, k + Size(n), k + i);
    assert KidsOf(root, x) == {};
    KidsRight(root, kids, x);
    Apart(supply, k + 1, k + Size(n), k);
    if i == 0 {
      ForestNamesParent(n.children, x, depth + 1, supply, k + 1);
    } else {
      ForestCounts(n.children, Some(supply[k]), depth + 1, supply, k + 1, i - 1);
    }
  }

  lemma OutsideBoth(parent: Option<Id>, supply: seq<Id>, k: nat, m: nat, e: nat)
    requires k <= m <= e <= |supply| && (parent.Some? ==> !Within(supply, k, e, parent.value))
    ensures parent.Some? ==> !Within(supply, k, m, parent.value) && !Within(supply, m, e, parent.value)
  {
  }

  lemma SplitSize(ns: seq<FlowJob>)
    requires ns != []
    ensures SizeAll(ns) == Size(ns[0]) + SizeAll(ns[1..])
  {
    Split(ns);
  }

  lemma {:induction false} ForestCounts(ns: seq<FlowJob>, parent: Option<Id>, depth: nat, supply: seq<Id>, k: nat,
                                        i: nat)
    requires k + SizeAll(ns) <= |supply| && Distinct(supply) && i < SizeAll(ns)
    requires parent.Some? ==> !Within(supply, k, k + SizeAll(ns), parent.value)
    ensures |KidsOf(FlatAll(ns, parent, depth, supply, k), supply[k + i])|
              == FlatAll(ns, parent, depth, supply, k)[i].pending
    decreases ns, 0
  {
    assert ns != [];
    SplitSize(ns);
    var s := Size(ns[0]);
    OutsideBoth(parent, supply, k, k + s, k + SizeAll(ns));
    if i < s {
      FlatCounts(ns[0], parent, depth, supply, k, i);
      HeadCounts(ns, parent, depth, supply, k, i);
    } else {
      ForestCounts(ns[1..], parent, depth, supply, k + s, i - s);
      TailCounts(ns, parent, depth, supply, k, i);
    }
  }

  lemma HeadCounts(ns: seq<FlowJob>, parent: Option<Id>, depth: nat, supply: seq<Id>, k: nat, i: nat)
    requires ns != [] && k + SizeAll(ns) <= |supply| && Distinct(supply) && i < Size(ns[0])
    requires parent.Some? ==> !Within(supply, k, k + SizeAll(ns), parent.value)
    requires |KidsOf(Flat(ns[0], parent, depth, supply, k), supply[k + i])|
              == Flat(ns[0], parent, depth, supply, k)[i].pending
    ensures |KidsOf(FlatAll(ns, parent, depth, supply, k), supply[k + i])|
              == FlatAll(ns, parent, depth, supply, k)[i].pending
  {
    SplitFlat(ns, parent, depth, supply, k);
    var s, e, x := Size(ns[0]), k + SizeAll(ns), supply[k + i];
    Inside(supply, k, e, k + i);
    Apart(supply, k + s, e, k + i);
    NoStrangers(ns[1..], parent, depth, supply, k + s, x);
    KidsLeft(Flat(ns[0], parent, depth, supply, k), FlatAll(ns[1..], parent, depth, supply, k + s), x);
  }

  lemma TailCounts(ns: seq<FlowJob>, parent: Option<Id>, depth: nat, supply: seq<Id>, k: nat, i: nat)
    requires ns != [] && k + SizeAll(ns) <= |supply| && Distinct(supply) && Size(ns[0]) <= i < SizeAll(ns)
    requires parent.Some? ==> !Within(supply, k, k + SizeAll(ns), parent.value)
    requires |KidsOf(FlatAll(ns[1..], parent, depth, supply, k + Size(ns[0])), supply[k + i])|
             == FlatAll(ns[1..], parent, depth, supply, k + Size(ns[0]))[i - Size(ns[0])].pending
    ensures |KidsOf(FlatAll(ns, parent, depth, supply, k), supply[k + i])|
              == FlatAll(ns, parent, depth, supply, k)[i].pending
  {
    SplitFlat(ns, parent, depth, supply, k);
    var s, e, x := Size(ns[0]), k + SizeAll(ns), supply[k + i];
    Inside(supply, k, e, k + i);
    Apart(supply, k, k + s, k + i);
    NoStrangersInTree(ns[0], parent, depth, supply, k, x);
    KidsRight(Flat(ns[0], parent, depth, supply, k), FlatAll(ns[1..], parent, depth, supply, k + s), x);
  }

  // ---- The links rebuild the tree ----

  /** The tree hanging at row `k`: its options and the trees at the rows that name it as parent. */
  function TreeAt(rows: seq<Prepared>, k: nat): FlowJob
    requires k < |rows|
    decreases |rows| - k, 0
  {
    FlowJob(rows[k].body, TreesUnder(rows, rows[k].id, k + 1))
  }

  function TreesUnder(rows: seq<Prepared>, p: Id, i: nat): seq<FlowJob>
    requires i <= |rows|
    decreases |rows| - i, 1
  {
    if i == |rows| then []
    else (if rows[i].parent == Some(p) then [TreeAt(rows, i)] else []) + TreesUnder(rows, p, i + 1)
  }

  /** Rows that do not name `p` are passed over. */
  lemma {:induction false} PassOver(rows: seq<Prepared>, p: Id, i: nat, j: nat)
    requires i <= j <= |rows| && forall m | i <= m < j :: rows[m].parent != Some(p)
    ensures TreesUnder(rows, p, i) == TreesUnder(rows, p, j)
    decreases j - i
  {
    if i < j { PassOver(rows, p, i + 1, j); }
  }

  /** The rows from `k` on start with `part`, and no later row hangs under the ids `k..k+|part|`. */
  ghost predicate Holds(rows: seq<Prepared>, supply: seq<Id>, k: nat, part: seq<Prepared>) {
    && k + |part| <= |rows| <= |supply|
    && rows[k..k + |part|] == part
    && forall m, i | k + |part| <= m < |rows| && k <= i < k + |part| :: rows[m].parent != Some(supply[i])
  }

  /** From row `i` on, no row hangs under `p`. */
  predicate NoneFrom(rows: seq<Prepared>, p: Id, i: nat) {
    forall m | i <= m < |rows| :: rows[m].parent != Some(p)
  }

  lemma {:induction false} RebuildTree(rows: seq<Prepared>, n: FlowJob, parent: Option<Id>, depth: nat, supply: seq<Id>,
                                       k: nat)
    requires Distinct(supply) && k + Size(n) <= |supply|
    requires Holds(rows, supply, k, Flat(n, parent, depth, supply, k))
    ensures TreeAt(rows, k) == Normal(n)
    decreases n, 1
  {
    var part := Flat(n, parent, depth, supply, k);
    var kids := FlatAll(n.children, Some(supply[k]), depth + 1, supply, k + 1);
    assert part == [part[0]] + kids;
    assert rows[k] == part[0];
    assert rows[k + 1..k + |part|] == kids by {
      assert rows[k + 1..k + |part|] == rows[k..k + |part|][1..];
    }
    assert NoneFrom(rows, supply[k], k + |part|);
    RebuildForest(rows, n.children, supply[k], depth + 1, supply, k + 1);
  }

  lemma {:induction false} RebuildForest(rows: seq<Prepared>, ns: seq<FlowJob>, p: Id, depth: nat, supply: seq<Id>,
                                         k: nat)
    requires Distinct(supply) && k + SizeAll(ns) <= |supply|
    requires !Within(supply, k, k + SizeAll(ns), p)
    requires Holds(rows, supply, k, FlatAll(ns, Some(p), depth, supply, k))
    requires NoneFrom(rows, p, k + SizeAll(ns))
    ensures TreesUnder(rows, p, k) == NormalAll(ns)
    decreases ns, 0
  {
    if ns == [] {
      PassOver(rows, p, k, |rows|);
    } else {
      FirstTree(rows, ns, p, depth, supply, k);
      RebuildTree(rows, ns[0], Some(p), depth, supply, k);
      RebuildForest(rows, ns[1..], p, depth, supply, k + Size(ns[0]));
      Joined(rows, ns, p, k);
    }
  }

  /** Where the first tree of a forest ends and the others begin. */
  lemma FirstTree(rows: seq<Prepared>, ns: seq<FlowJob>, p: Id, depth: nat, supply: seq<Id>, k: nat)
    requires ns != [] && Distinct(supply) && k + SizeAll(ns) <= |supply|
    requires !Within(supply, k, k + SizeAll(ns), p)
    requires Holds(rows, supply, k, FlatAll(ns, Some(p), depth, supply, k))
    ensures SizeAll(ns) == Size(ns[0]) + SizeAll(ns[1..])
    ensures Holds(rows, supply, k, Flat(ns[0], Some(p), depth, supply, k))
    ensures Holds(rows, supply, k + Size(ns[0]), FlatAll(ns[1..], Some(p), depth, supply, k + Size(ns[0])))
    ensures rows[k].parent == Some(p) && TreesUnder(rows, p, k + 1) == TreesUnder(rows, p, k + Size(ns[0]))
    ensures !Within(supply, k + Size(ns[0]), k + SizeAll(ns), p)
  {
    var s, all := Size(ns[0]), SizeAll(ns);
    Split(ns);
    forall i | k <= i < k + all ensures supply[i] != p {}
    HeadHolds(rows, ns, p, depth, supply, k);
    RestOfHead(rows, ns[0], p, depth, supply, k);
    PassOver(rows, p, k + 1, k + s);
    Narrow(supply, k, k + all, k + s, k + all, p);
  }

  /** The first tree and what is found behind it. */
  lemma Joined(rows: seq<Prepared>, ns: seq<FlowJob>, p: Id, k: nat)
    requires ns != [] && k + Size(ns[0]) <= |rows| && rows[k].parent == Some(p) && TreeAt(rows, k) == Normal(ns[0])
    requires TreesUnder(rows, p, k + 1) == TreesUnder(rows, p, k + Size(ns[0])) == NormalAll(ns[1..])
    ensures TreesUnder(rows, p, k) == NormalAll(ns)
  {
  }

  /** Below its root, no row of a tree hangs under the tree's parent. */
  lemma RestOfHead(rows: seq<Prepared>, n: FlowJob, p: Id, depth: nat, supply: seq<Id>, k: nat)
    requires Distinct(supply) && k + Size(n) <= |supply| && Holds(rows, supply, k, Flat(n, Some(p), depth, supply, k))
    requires forall i | k <= i < k + Size(n) :: supply[i] != p
    ensures k + Size(n) <= |rows| && rows[k].parent == Some(p)
    ensures forall m | k + 1 <= m < k + Size(n) :: rows[m].parent != Some(p)
  {
    var head := Flat(n, Some(p), depth, supply, k);
    assert rows[k] == rows[k..k + |head|][0];
    forall m | k + 1 <= m < k + Size(n) ensures rows[m].parent != Some(p) {
      assert rows[m] == rows[k..k + |head|][m - k];
      var j := FlatLink(n, Some(p), depth, supply, k, m - k);
      FlatRow(n, Some(p), depth, supply, k, j);
    }
  }

  /** No row of the later trees hangs under a row of the first. */
  lemma TailAvoidsHead(ns: seq<FlowJob>, p: Id, depth: nat, supply: seq<Id>, k: nat, m: nat, i: nat)
    requires k + SizeAll(ns) <= |supply| && Distinct(supply)
    requires m < SizeAll(ns) && i < k && supply[i] != p
    ensures FlatAll(ns, Some(p), depth, supply, k)[m].parent != Some(supply[i])
  {
    var j := ForestLink(ns, Some(p), depth, supply, k, m);
    if j >= 0 { ForestRow(ns, Some(p), depth, supply, k, j); }
  }

  lemma SplitHolds(rows: seq<Prepared>, supply: seq<Id>, k: nat, head: seq<Prepared>, tail: seq<Prepared>)
    requires k + |head| + |tail| <= |supply| && Holds(rows, supply, k, head + tail)
    requires forall m, i | 0 <= m < |tail| && k <= i < k + |head| :: tail[m].parent != Some(supply[i])
    ensures Holds(rows, supply, k, head) && Holds(rows, supply, k + |head|, tail)
  {
    var s, e := k + |head|, k + |head| + |tail|;
    assert rows[k..s] == rows[k..e][..|head|];
    assert rows[s..e] == rows[k..e][|head|..];
    forall m, i | s <= m < |rows| && k <= i < s ensures rows[m].parent != Some(supply[i]) {
      if m < e { assert rows[m] == tail[m - s]; }
    }
  }

  /** Splitting a forest off its first tree keeps both parts in place. */
  lemma HeadHolds(rows: seq<Prepared>, ns: seq<FlowJob>, p: Id, depth: nat, supply: seq<Id>, k: nat)
    requires ns != [] && Distinct(supply) && k + SizeAll(ns) <= |supply|
    requires forall i | k <= i < k + SizeAll(ns) :: supply[i] != p
    requires Holds(rows, supply, k, FlatAll(ns, Some(p), depth, supply, k))
    ensures Holds(rows, supply, k, Flat(ns[0], Some(p), depth, supply, k))
    ensures Holds(rows, supply, k + Size(ns[0]), FlatAll(ns[1..], Some(p), depth, supply, k + Size(ns[0])))
  {
    Split(ns);
    SplitFlat(ns, Some(p), depth, supply, k);
    var s := Size(ns[0]);
    var head, tail := Flat(ns[0], Some(p), depth, supply, k), FlatAll(ns[1..], Some(p), depth, supply, k + s);
    forall m, i | 0 <= m < |tail| && k <= i < k + s ensures tail[m].parent != Some(supply[i]) {
      TailAvoidsHead(ns[1..], p, depth, supply, k + s, m, i);
    }
    SplitHolds(rows, supply, k, head, tail);
  }

  /** Flattening loses nothing: the rows' links and options give back the normalized tree. */
  lemma FlattenRoundTrip(n: FlowJob, supply: seq<Id>)
    requires Distinct(supply) && Size(n) <= |supply|
    ensures TreeAt(Flat(n, None, 0, supply, 0), 0) == Normal(n)
  {
    var rows := Flat(n, None, 0, supply, 0);
    assert rows[0..|rows|] == rows;
    RebuildTree(rows, n, None, 0, supply, 0);
  }
}
