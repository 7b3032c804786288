/**
  Storing a flattened tree is an admission of the job machine: the stored
  counts, depths and tree ids are what the forest needs.
 */
module FlowLaws {
  import opened Tables
  import opened Lifecycle
  import opened LifecycleLaws
  import opened Flatten
  import opened FlattenLaws
  import opened Flow

  // ---- The stored rows ----

  function IdsOf(rows: seq<Prepared>): set<Id> {
    set i | 0 <= i < |rows| :: rows[i].id
  }

  predicate OneEach(rows: seq<Prepared>) {
    forall i, j | 0 <= i < j < |rows| :: rows[i].id != rows[j].id
  }

  lemma {:induction false} RowMapKeys(rows: seq<Prepared>, tree: Id, base: nat, now: int)
    ensures RowMap(rows, tree, base, now).Keys == IdsOf(rows)
  {
    if rows != [] {
      var n := |rows| - 1;
      RowMapKeys(rows[..n], tree, base, now);
      assert IdsOf(rows) == IdsOf(rows[..n]) + {rows[n].id};
    }
  }

  lemma {:induction false} RowMapAt(rows: seq<Prepared>, tree: Id, base: nat, now: int, i: nat)
    requires OneEach(rows) && i < |rows|
    ensures rows[i].id in RowMap(rows, tree, base, now)
    ensures RowMap(rows, tree, base, now)[rows[i].id] == JobOf(rows[i], tree, base, now)
  {
    var n := |rows| - 1;
    if i < n { RowMapAt(rows[..n], tree, base, now, i); }
  }

  lemma {:induction false} IdCount(rows: seq<Prepared>)
    requires OneEach(rows)
    ensures |IdsOf(rows)| == |rows|
  {
    if rows != [] {
      var n := |rows| - 1;
      IdCount(rows[..n]);
      assert IdsOf(rows) == IdsOf(rows[..n]) + {rows[n].id};
    }
  }

  /** The stored links are the links of the list. */
  lemma StoredKids(rows: seq<Prepared>, tree: Id, base: nat, now: int, p: Id)
    requires OneEach(rows)
    ensures FlowKids(RowMap(rows, tree, base, now), p) == KidsOf(rows, p)
  {
    var m := RowMap(rows, tree, base, now);
    RowMapKeys(rows, tree, base, now);
    forall x: Id ensures x in FlowKids(m, p) <==> x in KidsOf(rows, p) {
      if x in m {
        var i :| 0 <= i < |rows| && rows[i].id == x;
        RowMapAt(rows, tree, base, now, i);
      }
    }
  }

  // ---- Lists of a tree or of the forest under a merge target ----

  lemma {:induction false} FlatDepth(n: FlowJob, parent: Option<Id>, depth: nat, supply: seq<Id>, k: nat, i: nat)
    requires k + Size(n) <= |supply| && i < Size(n)
    ensures Flat(n, parent, depth, supply, k)[i].depth <= depth + Height(n)
    decreases n, 1
  {
    if i > 0 { ForestDepth(n.children, Some(supply[k]), depth + 1, supply, k + 1, i - 1); }
  }

  lemma {:induction false} ForestDepth(ns: seq<FlowJob>, parent: Option<Id>, depth: nat, supply: seq<Id>, k: nat,
                                       i: nat)
    requires k + SizeAll(ns) <= |supply| && i < SizeAll(ns)
    ensures FlatAll(ns, parent, depth, supply, k)[i].depth <= depth + HeightAll(ns)
    decreases ns, 0
  {
    var s := Size(ns[0]);
    if i < s {
      FlatDepth(ns[0], parent, depth, supply, k, i);
    } else {
      ForestDepth(ns[1..], parent, depth, supply, k + s, i - s);
    }
  }

  /** What the laws need of a prepared list hung under `under`, `base` levels down. */
  ghost predicate WellLinked(rows: seq<Prepared>, under: Option<Id>, i: nat)
    requires i < |rows|
  {
    && Rests(rows[i])
    && rows[i].pending == |KidsOf(rows, rows[i].id)|
    && ((rows[i].parent == under && rows[i].depth == (if under.Some? then 1 else 0) && (under.None? ==> i == 0))
        || exists j :: 0 <= j < i && rows[i].parent == Some(rows[j].id) && rows[i].depth == rows[j].depth + 1)
  }

  lemma TreeWellLinked(n: FlowJob, supply: seq<Id>, i: nat)
    requires Distinct(supply) && Size(n) <= |supply| && i < Size(n)
    ensures WellLinked(Flat(n, None, 0, supply, 0), None, i)
  {
    FlatRow(n, None, 0, supply, 0, i);
    FlatCounts(n, None, 0, supply, 0, i);
    var j := FlatLink(n, None, 0, supply, 0, i);
  }

  lemma ForestWellLinked(ns: seq<FlowJob>, t: Id, supply: seq<Id>, i: nat)
    requires Distinct(supply) && SizeAll(ns) <= |supply| && t !in supply && i < SizeAll(ns)
    ensures WellLinked(FlatAll(ns, Some(t), 1, supply, 0), Some(t), i)
  {
    ForestRow(ns, Some(t), 1, supply, 0, i);
    ForestCounts(ns, Some(t), 1, supply, 0, i);
    var j := ForestLink(ns, Some(t), 1, supply, 0, i);
  }

  lemma ListIds(rows: seq<Prepared>, supply: seq<Id>)
    requires Distinct(supply) && |rows| <= |supply| && forall i | 0 <= i < |rows| :: rows[i].id == supply[i]
    ensures OneEach(rows)
  {
  }

  // ---- Admission ----

  /** The conditions under which storing a list is an admission. */
  ghost predicate Storable(cfg: Config, v: View, rows: seq<Prepared>, tree: Id, base: nat, target: Option<Id>,
                           jobs': Jobs) {
    && OneEach(rows)
    && (forall i | 0 <= i < |rows| :: WellLinked(rows, target, i) && base + rows[i].depth <= cfg.maxFlowDepth)
    && (tree in IdsOf(rows) || (target.Some? && target.value in jobs' && jobs'[target.value].treeId == Some(tree)))
    && |TreeRows(jobs', tree)| <= cfg.maxFlowNodes
    && (target.Some? ==> target.value in jobs' && jobs'[target.value].treeDepth == base
                         && jobs'[target.value].treeId == Some(tree))
    && (target.None? ==> base == 0)
  }

  lemma StoredRowIsFlowRow(cfg: Config, v: View, rows: seq<Prepared>, tree: Id, base: nat, target: Option<Id>, now: int,
                           jobs': Jobs, i: nat)
    requires Storable(cfg, v, rows, tree, base, target, jobs') && i < |rows|
    requires var m := RowMap(rows, tree, base, now); m.Keys <= jobs'.Keys && forall c | c in m :: jobs'[c] == m[c]
    ensures rows[i].id in RowMap(rows, tree, base, now)
    ensures FlowRow(cfg, RowMap(rows, tree, base, now), target, jobs', rows[i].id)
  {
    var m := RowMap(rows, tree, base, now);
    RowMapKeys(rows, tree, base, now);
    RowMapAt(rows, tree, base, now, i);
    StoredKids(rows, tree, base, now, rows[i].id);
    assert WellLinked(rows, target, i);
    if j :| 0 <= j < i && rows[i].parent == Some(rows[j].id) && rows[i].depth == rows[j].depth + 1 {
      RowMapAt(rows, tree, base, now, j);
    }
  }

  lemma StoringAdmits(cfg: Config, v: View, rows: seq<Prepared>, tree: Id, base: nat, target: Option<Id>, now: int,
                      jobs': Jobs)
    requires Storable(cfg, v, rows, tree, base, target, jobs')
    requires var m := RowMap(rows, tree, base, now); m.Keys <= jobs'.Keys && forall c | c in m :: jobs'[c] == m[c]
    requires IdsOf(rows) !! v.born.Keys
    requires target.Some? ==> target.value in v.jobs && !v.jobs[target.value].state.Active?
                              && FlowKids(RowMap(rows, tree, base, now), target.value) != {}
    requires jobs' == Regate(v.jobs, target, RowMap(rows, tree, base, now)) + RowMap(rows, tree, base, now)
    ensures Admits(cfg, v, RowMap(rows, tree, base, now), target, jobs')
  {
    var m := RowMap(rows, tree, base, now);
    RowMapKeys(rows, tree, base, now);
    forall c | c in m ensures
      && m[c].attempts == 0 && m[c].worker.None? && m[c].lease.None? && 1 <= m[c].card.maxAttempts
      && FlowRow(cfg, m, target, jobs', c)
    {
      var i :| 0 <= i < |rows| && rows[i].id == c;
      RowMapAt(rows, tree, base, now, i);
      assert WellLinked(rows, target, i);
      StoredRowIsFlowRow(cfg, v, rows, tree, base, target, now, jobs', i);
    }
  }

  // ---- A new tree ----

  lemma NewTreeRows(v: View, rows: seq<Prepared>, tree: Id, base: nat, now: int)
    requires Conserved(v) && AllRooted(v) && OneEach(rows) && tree !in v.born
    ensures TreeRows(v.jobs + RowMap(rows, tree, base, now), tree) == IdsOf(rows)
  {
    var m := RowMap(rows, tree, base, now);
    RowMapKeys(rows, tree, base, now);
    forall x: Id ensures x in TreeRows(v.jobs + m, tree) <==> x in IdsOf(rows) {
      assert Rooted(v, x);
      if x in m {
        var i :| 0 <= i < |rows| && rows[i].id == x;
        RowMapAt(rows, tree, base, now, i);
      }
    }
  }

  predicate Fresh(v: View, supply: seq<Id>) {
    Distinct(supply) && forall i | 0 <= i < |supply| :: supply[i] !in v.born
  }

  lemma TreeIds(v: View, n: FlowJob, supply: seq<Id>)
    requires Fresh(v, supply) && Size(n) <= |supply|
    ensures OneEach(Flat(n, None, 0, supply, 0)) && IdsOf(Flat(n, None, 0, supply, 0)) !! v.born.Keys
    ensures Flat(n, None, 0, supply, 0)[0].id == supply[0]
  {
    var rows := Flat(n, None, 0, supply, 0);
    forall i | 0 <= i < |rows| ensures rows[i].id == supply[i] { FlatRow(n, None, 0, supply, 0, i); }
    ListIds(rows, supply);
  }

  lemma TreeStorable(cfg: Config, v: View, n: FlowJob, supply: seq<Id>, now: int)
    requires Conserved(v) && AllRooted(v) && Fresh(v, supply) && Size(n) <= |supply|
    requires Height(n) <= cfg.maxFlowDepth && Size(n) <= cfg.maxFlowNodes
    ensures var rows := Flat(n, None, 0, supply, 0);
            Storable(cfg, v, rows, supply[0], 0, None, v.jobs + RowMap(rows, supply[0], 0, now))
  {
    var rows := Flat(n, None, 0, supply, 0);
    TreeIds(v, n, supply);
    NewTreeRows(v, rows, supply[0], 0, now);
    IdCount(rows);
    forall i | 0 <= i < |rows| ensures WellLinked(rows, None, i) && rows[i].depth <= cfg.maxFlowDepth {
      TreeWellLinked(n, supply, i);
      FlatDepth(n, None, 0, supply, 0, i);
    }
  }

  /** Storing an acceptable new tree is an admission. */
  lemma TreeAdmits(cfg: Config, v: View, n: FlowJob, supply: seq<Id>, now: int)
    requires Conserved(v) && AllRooted(v) && Fresh(v, supply) && Size(n) <= |supply|
    requires Height(n) <= cfg.maxFlowDepth && Size(n) <= cfg.maxFlowNodes
    ensures var rows := Flat(n, None, 0, supply, 0);
            Admits(cfg, v, RowMap(rows, rows[0].id, 0, now), None, v.jobs + RowMap(rows, rows[0].id, 0, now))
  {
    TreeIds(v, n, supply);
    TreeStorable(cfg, v, n, supply, now);
    var rows := Flat(n, None, 0, supply, 0);
    RowMapKeys(rows, supply[0], 0, now);
    StoringAdmits(cfg, v, rows, supply[0], 0, None, now, v.jobs + RowMap(rows, supply[0], 0, now));
  }

  // ---- A merge ----

  lemma MergedTreeRows(v: View, rows: seq<Prepared>, t: Id, now: int, added: nat)
    requires OneEach(rows) && t in v.jobs && t !in IdsOf(rows) && IdsOf(rows) !! v.jobs.Keys
    ensures var tree := TreeOf(t, v.jobs[t]);
            var jobs' := v.jobs[t := Regated(t, v.jobs[t], added)] + RowMap(rows, tree, v.jobs[t].treeDepth, now);
            TreeRows(jobs', tree) == TreeRows(Adopt(v.jobs, t), tree) + IdsOf(rows)
  {
    var tree, base := TreeOf(t, v.jobs[t]), v.jobs[t].treeDepth;
    var m := RowMap(rows, tree, base, now);
    var jobs' := v.jobs[t := Regated(t, v.jobs[t], added)] + m;
    RowMapKeys(rows, tree, base, now);
    forall x: Id ensures x in TreeRows(jobs', tree) <==> x in TreeRows(Adopt(v.jobs, t), tree) + IdsOf(rows) {
      if x in m {
        var i :| 0 <= i < |rows| && rows[i].id == x;
        RowMapAt(rows, tree, base, now, i);
      }
    }
  }

  lemma MergeIds(v: View, ns: seq<FlowJob>, t: Id, supply: seq<Id>)
    requires Conserved(v) && Fresh(v, supply) && SizeAll(ns) <= |supply| && t in v.jobs
    ensures var rows := FlatAll(ns, Some(t), 1, supply, 0);
            OneEach(rows) && IdsOf(rows) !! v.born.Keys && IdsOf(rows) !! v.jobs.Keys
    ensures t !in supply && t !in IdsOf(FlatAll(ns, Some(t), 1, supply, 0))
  {
    var rows := FlatAll(ns, Some(t), 1, supply, 0);
    KeysConserved(v);
    forall i | 0 <= i < |rows| ensures rows[i].id == supply[i] { ForestRow(ns, Some(t), 1, supply, 0, i); }
    ListIds(rows, supply);
  }

  /** The children of the target among the new rows are the roots of the merged trees. */
  lemma MergeKids(ns: seq<FlowJob>, t: Id, supply: seq<Id>, tree: Id, base: nat, now: int)
    requires Distinct(supply) && SizeAll(ns) <= |supply| && t !in supply
    requires OneEach(FlatAll(ns, Some(t), 1, supply, 0))
    ensures |FlowKids(RowMap(FlatAll(ns, Some(t), 1, supply, 0), tree, base, now), t)| == |ns|
  {
    ForestNamesParent(ns, t, 1, supply, 0);
    StoredKids(FlatAll(ns, Some(t), 1, supply, 0), tree, base, now, t);
  }

  ghost predicate Mergeable(cfg: Config, v: View, ns: seq<FlowJob>, t: Id, supply: seq<Id>) {
    && Fresh(v, supply) && SizeAll(ns) <= |supply| && ns != []
    && t in v.jobs && !v.jobs[t].state.Active?
    && v.jobs[t].treeDepth + 1 + HeightAll(ns) <= cfg.maxFlowDepth
    && |TreeRows(Adopt(v.jobs, t), TreeOf(t, v.jobs[t]))| + SizeAll(ns) <= cfg.maxFlowNodes
  }

  lemma MergeStorable(cfg: Config, v: View, ns: seq<FlowJob>, t: Id, supply: seq<Id>, now: int)
    requires Conserved(v) && Mergeable(cfg, v, ns, t, supply)
    ensures var rows, tree, base := FlatAll(ns, Some(t), 1, supply, 0), TreeOf(t, v.jobs[t]), v.jobs[t].treeDepth;
            Storable(cfg, v, rows, tree, base, Some(t),
                     v.jobs[t := Regated(t, v.jobs[t], |ns|)] + RowMap(rows, tree, base, now))
  {
    var rows, tree, base := FlatAll(ns, Some(t), 1, supply, 0), TreeOf(t, v.jobs[t]), v.jobs[t].treeDepth;
    MergeIds(v, ns, t, supply);
    MergedTreeRows(v, rows, t, now, |ns|);
    IdCount(rows);
    RowMapKeys(rows, tree, base, now);
    assert |TreeRows(Adopt(v.jobs, t), tree) + IdsOf(rows)| <= |TreeRows(Adopt(v.jobs, t), tree)| + |IdsOf(rows)|;
    forall i | 0 <= i < |rows| ensures WellLinked(rows, Some(t), i) && base + rows[i].depth <= cfg.maxFlowDepth {
      ForestWellLinked(ns, t, supply, i);
      ForestDepth(ns, Some(t), 1, supply, 0, i);
    }
  }

  /** Storing an acceptable merge is an admission that re-gates the target. */
  lemma MergeAdmits(cfg: Config, v: View, ns: seq<FlowJob>, t: Id, supply: seq<Id>, now: int)
    requires Conserved(v) && Mergeable(cfg, v, ns, t, supply)
    ensures var rows := FlatAll(ns, Some(t), 1, supply, 0);
            var m := RowMap(rows, TreeOf(t, v.jobs[t]), v.jobs[t].treeDepth, now);
            Admits(cfg, v, m, Some(t), v.jobs[t := Regated(t, v.jobs[t], |ns|)] + m)
  {
    var rows, tree, base := FlatAll(ns, Some(t), 1, supply, 0), TreeOf(t, v.jobs[t]), v.jobs[t].treeDepth;
    MergeIds(v, ns, t, supply);
    MergeKids(ns, t, supply, tree, base, now);
    MergeStorable(cfg, v, ns, t, supply, now);
    RowMapKeys(rows, tree, base, now);
    StoringAdmits(cfg, v, rows, tree, base, Some(t), now,
                  v.jobs[t := Regated(t, v.jobs[t], |ns|)] + RowMap(rows, tree, base, now));
  }
}
