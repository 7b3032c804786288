/**
  The flow forest and the lineage of AddJob children.
 */
module Forest {
  import opened Tables
  import opened Lifecycle
  import opened LifecycleLaws
  import opened Gate
  import opened Sets

  // ---- Depths and trees ----

  /** A flow child lies one below its parent, in the parent's tree while the parent is live. */
  predicate Grafted(cfg: Config, v: View, c: Id) {
    c in v.born ==>
      && (v.born[c].treeId.None? ==> v.born[c].treeDepth == 0)
      && (v.born[c].treeId.Some? ==>
        && v.born[c].treeDepth <= cfg.maxFlowDepth
        && (v.born[c].card.parent.Some? ==>
          var p := v.born[c].card.parent.value;
          && p in v.born
          && v.born[c].treeDepth == v.born[p].treeDepth + 1
          && (p in v.jobs ==> v.jobs[p].treeId == v.born[c].treeId)))
  }

  predicate Small(cfg: Config, v: View, t: Id) {
    |TreeRows(v.jobs, t)| <= cfg.maxFlowNodes
  }

  ghost predicate Forested(cfg: Config, v: View) {
    forall id: Id :: Grafted(cfg, v, id) && Small(cfg, v, id)
  }

  lemma FlowRowGrafts(cfg: Config, v: View, rows: Jobs, target: Option<Id>, jobs': Jobs, c: Id)
    requires Conserved(v) && Admits(cfg, v, rows, target, jobs') && c in rows && FlowRow(cfg, rows, target, jobs', c)
    requires Watch(v, jobs', v.history).born == rows + v.born && rows.Keys !! v.born.Keys
    ensures Grafted(cfg, Watch(v, jobs', v.history), c)
  {
    if rows[c].card.parent.Some? && rows[c].card.parent.value !in rows {
      assert Accounted(v, rows[c].card.parent.value);
    }
  }

  lemma AdmitGrafts(cfg: Config, v: View, rows: Jobs, target: Option<Id>, jobs': Jobs, c: Id)
    requires Conserved(v) && Admits(cfg, v, rows, target, jobs') && c in rows
    ensures Grafted(cfg, Watch(v, jobs', v.history), c)
  {
    BirthsOf(cfg, v, Admit(rows, target), jobs', v.history);
    if FlowRow(cfg, rows, target, jobs', c) {
      FlowRowGrafts(cfg, v, rows, target, jobs', c);
    } else {
      assert SoloRow(cfg, jobs', v.history, rows[c]);
    }
  }

  lemma MoveGrafts(cfg: Config, v: View, m: Move, jobs': Jobs, history': History, c: Id)
    requires Conserved(v) && Grafted(cfg, v, c) && Happens(cfg, v, m, jobs', history')
    ensures Grafted(cfg, Watch(v, jobs', history'), c)
  {
    BirthsOf(cfg, v, m, jobs', history');
    if m.Admit? && c in m.rows {
      AdmitGrafts(cfg, v, m.rows, m.target, jobs', c);
    } else if c in v.born && v.born[c].card.parent.Some? {
      var p := v.born[c].card.parent.value;
      assert Accounted(v, p);
      MoveLives(cfg, v, m, jobs', history', p);
    }
  }

  /** An admission below a target puts a row into the target's tree. */
  lemma GraftJoins(cfg: Config, v: View, rows: Jobs, target: Id, jobs': Jobs)
    requires Admits(cfg, v, rows, Some(target), jobs') && target in jobs' && jobs'[target].treeId.Some?
    ensures exists c :: c in rows && rows[c].treeId == jobs'[target].treeId
  {
    var c :| c in FlowKids(rows, target);
    assert SoloRow(cfg, jobs', v.history, rows[c]) || FlowRow(cfg, rows, Some(target), jobs', c);
  }

  /** Only an admission puts further rows into a tree. */
  lemma TreeRowsAfter(cfg: Config, v: View, m: Move, jobs': Jobs, history': History, t: Id)
    requires Conserved(v) && Happens(cfg, v, m, jobs', history')
    requires m.Admit? ==> forall c | c in m.rows :: m.rows[c].treeId != Some(t)
    ensures TreeRows(jobs', t) <= TreeRows(v.jobs, t)
  {
    forall id: Id | id in TreeRows(jobs', t) ensures id in TreeRows(v.jobs, t) {
      assert Accounted(v, id);
      if m.Admit? && m.target == Some(id) { GraftJoins(cfg, v, m.rows, id, jobs'); }
    }
  }

  lemma MoveKeepsSmall(cfg: Config, v: View, m: Move, jobs': Jobs, history': History, t: Id)
    requires Conserved(v) && Small(cfg, v, t) && Happens(cfg, v, m, jobs', history')
    ensures Small(cfg, Watch(v, jobs', history'), t)
  {
    if m.Admit? && exists c :: c in m.rows && m.rows[c].treeId == Some(t) {
      var c :| c in m.rows && m.rows[c].treeId == Some(t);
      assert FlowRow(cfg, m.rows, m.target, jobs', c);
    } else {
      TreeRowsAfter(cfg, v, m, jobs', history', t);
      SubsetSize(TreeRows(jobs', t), TreeRows(v.jobs, t));
    }
  }

  lemma MoveKeepsForest(cfg: Config, v: View, m: Move, jobs': Jobs, history': History)
    requires Conserved(v) && Forested(cfg, v) && Happens(cfg, v, m, jobs', history')
    ensures Forested(cfg, Watch(v, jobs', history'))
  {
    forall id: Id ensures Grafted(cfg, Watch(v, jobs', history'), id) && Small(cfg, Watch(v, jobs', history'), id) {
      assert Grafted(cfg, v, id) && Small(cfg, v, id);
      MoveGrafts(cfg, v, m, jobs', history', id);
      MoveKeepsSmall(cfg, v, m, jobs', history', id);
    }
  }

  /** Along a path of flow links the depth grows by one each step and stays within the cap. */
  lemma {:induction false} DepthAlongPath(cfg: Config, v: View, path: seq<Id>)
    requires Forested(cfg, v) && Descends(v, path) && path[0] in v.born
    ensures path[|path| - 1] in v.born
    ensures v.born[path[|path| - 1]].treeDepth == v.born[path[0]].treeDepth + |path| - 1
    ensures |path| - 1 <= cfg.maxFlowDepth
  {
    assert Grafted(cfg, v, path[0]);
    if |path| >= 2 {
      assert path[1] in FlowKids(v.born, path[0]);
      assert Grafted(cfg, v, path[1]);
      DepthAlongPath(cfg, v, path[1..]);
      assert path[1..][|path| - 2] == path[|path| - 1];
      assert Grafted(cfg, v, path[|path| - 1]);
      assert path[|path| - 1] in FlowKids(v.born, path[|path| - 2]);
    }
  }

  /** Flow links never close a cycle. */
  lemma FlowLinksAcyclic(cfg: Config, v: View, path: seq<Id>)
    requires Forested(cfg, v) && Descends(v, path) && |path| >= 2
    ensures path[0] != path[|path| - 1]
  {
    assert path[1] in FlowKids(v.born, path[0]);
    assert Grafted(cfg, v, path[1]);
    DepthAlongPath(cfg, v, path);
  }

  // ---- Lineage ----

  /** An AddJob child is one deeper than its parent and in its parent's trace. */
  predicate Derived(cfg: Config, v: View, c: Id) {
    c in v.born ==>
      && (v.born[c].treeId.None? ==>
        && v.born[c].card.depth <= cfg.maxExecutionDepth
        && (v.born[c].card.parent.Some? ==>
          var p := v.born[c].card.parent.value;
          && p in v.born
          && v.born[c].card.depth == v.born[p].card.depth + 1
          && v.born[c].card.trace == v.born[p].card.trace))
  }

  ghost predicate AllDerived(cfg: Config, v: View) {
    forall c: Id :: Derived(cfg, v, c)
  }

  lemma AdmitDerives(cfg: Config, v: View, rows: Jobs, target: Option<Id>, jobs': Jobs, c: Id)
    requires Conserved(v) && Admits(cfg, v, rows, target, jobs') && c in rows
    ensures Derived(cfg, Watch(v, jobs', v.history), c)
  {
    var m := Admit(rows, target);
    BirthsOf(cfg, v, m, jobs', v.history);
    assert SoloRow(cfg, jobs', v.history, rows[c]) || FlowRow(cfg, rows, target, jobs', c);
    if rows[c].treeId.None? && rows[c].card.parent.Some? {
      var p := rows[c].card.parent.value;
      assert Accounted(v, p);
      AdmitLives(cfg, v, rows, target, jobs', p);
    }
  }

  lemma MoveKeepsLineage(cfg: Config, v: View, m: Move, jobs': Jobs, history': History)
    requires Conserved(v) && AllDerived(cfg, v) && Happens(cfg, v, m, jobs', history')
    ensures AllDerived(cfg, Watch(v, jobs', history'))
  {
    BirthsOf(cfg, v, m, jobs', history');
    forall c: Id ensures Derived(cfg, Watch(v, jobs', history'), c) {
      assert Derived(cfg, v, c);
      if m.Admit? && c in m.rows {
        AdmitDerives(cfg, v, m.rows, m.target, jobs', c);
      }
    }
  }

  /** A chain of AddJob links, each job the parent of the next. */
  ghost predicate Chained(v: View, chain: seq<Id>) {
    && |chain| > 0
    && (forall i | 0 <= i < |chain| :: chain[i] in v.born)
    && (forall i | 0 < i < |chain| ::
          v.born[chain[i]].treeId.None? && v.born[chain[i]].card.parent == Some(chain[i - 1]))
  }

  /** A chain of AddJob links stays in one trace and within the execution depth limit. */
  lemma {:induction false} ChainBounded(cfg: Config, v: View, chain: seq<Id>)
    requires AllDerived(cfg, v) && Chained(v, chain)
    ensures v.born[chain[|chain| - 1]].card.trace == v.born[chain[0]].card.trace
    ensures v.born[chain[|chain| - 1]].card.depth == v.born[chain[0]].card.depth + |chain| - 1
    ensures |chain| <= cfg.maxExecutionDepth + 1
  {
    var n := |chain|;
    assert Derived(cfg, v, chain[0]);
    if n > 1 {
      ChainBounded(cfg, v, chain[..n - 1]);
      assert Derived(cfg, v, chain[n - 1]);
    }
  }
}
