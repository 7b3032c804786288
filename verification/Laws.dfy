/**
  The laws of the job machine taken together, kept by every move and by the
  calls that insert many rows at once.
 */
module Laws {
  import opened Tables
  import opened Lifecycle
  import opened LifecycleLaws
  import opened Gate
  import opened Forest
  import opened Flatten
  import opened FlattenLaws
  import opened Flow
  import opened FlowLaws
  import opened Enqueue
  import opened EnqueueLaws

  /** Everything that holds in every run and, when `strict`, what holds if only flows link to live parents. */
  ghost predicate Lawful(cfg: Config, v: View, strict: bool) {
    && Conserved(v) && AllFenced(v) && AllRooted(v) && Ledger(v) && GateLaw(v)
    && Forested(cfg, v) && AllDerived(cfg, v)
    && (strict ==> AllDetached(v))
  }

  lemma NothingIsLawful(cfg: Config)
    ensures Lawful(cfg, NOTHING, true)
  {
    forall id: Id ensures Accounted(NOTHING, id) && Fenced(NOTHING, id) {}
    forall id: Id ensures Rooted(NOTHING, id) && Balanced(NOTHING, id) {}
    forall id: Id ensures Grafted(cfg, NOTHING, id) && Small(cfg, NOTHING, id) {
      assert TreeRows(NOTHING.jobs, id) == {};
    }
    forall id: Id ensures Derived(cfg, NOTHING, id) && GatedId(NOTHING, id) && Detached(NOTHING, id) {}
  }

  lemma MoveKeepsLaws(cfg: Config, v: View, m: Move, jobs': Jobs, history': History, strict: bool)
    requires Lawful(cfg, v, strict) && Happens(cfg, v, m, jobs', history')
    requires strict ==> OnlyFlowLinks(v, jobs')
    ensures Lawful(cfg, Watch(v, jobs', history'), strict)
  {
    MoveConserves(cfg, v, m, jobs', history');
    MoveKeepsFenced(cfg, v, m, jobs', history');
    MoveKeepsRooted(cfg, v, m, jobs', history');
    MoveKeepsLedger(cfg, v, m, jobs', history');
    MoveKeepsForest(cfg, v, m, jobs', history');
    MoveKeepsLineage(cfg, v, m, jobs', history');
    MoveKeepsGate(cfg, v, m, jobs', history');
    if strict { MoveKeepsDetached(cfg, v, m, jobs', history'); }
  }

  // ---- Growing in several steps ----

  /** `jobs'` adds resting rows to `jobs`. */
  predicate Grows(jobs: Jobs, jobs': Jobs) {
    && jobs.Keys <= jobs'.Keys
    && (forall id | id in jobs :: jobs'[id] == jobs[id])
    && (forall id | id in jobs' && id !in jobs :: !jobs'[id].state.Active? && jobs'[id].attempts == 0)
  }

  predicate Listed(v: View) {
    v.claimed.Keys <= v.born.Keys && v.closed.Keys <= v.born.Keys
  }

  lemma FencedIsListed(v: View)
    requires AllFenced(v)
    ensures Listed(v)
  {
    forall id: Id ensures id !in v.born ==> id !in v.claimed && id !in v.closed { assert Fenced(v, id); }
  }

  lemma SameTokens(v: View, jobs': Jobs, id: Id)
    requires Grows(v.jobs, jobs') && Listed(v)
    ensures Tokens(Watch(v, jobs', v.history).claimed, id) == Tokens(v.claimed, id)
    ensures Tokens(Watch(v, jobs', v.history).closed, id) == Tokens(v.closed, id)
  {
    assert Held(jobs', id) <==> Held(v.jobs, id);
  }

  lemma TokensDecide(m: map<Id, seq<nat>>, n: map<Id, seq<nat>>)
    requires m.Keys == n.Keys && forall id: Id :: Tokens(m, id) == Tokens(n, id)
    ensures m == n
  {
    forall id | id in m ensures m[id] == n[id] { assert Tokens(m, id) == Tokens(n, id); }
  }

  lemma Absorb<V>(a: map<Id, V>, b: map<Id, V>, c: map<Id, V>)
    requires a.Keys <= b.Keys && forall id | id in a :: b[id] == a[id]
    ensures b + (a + c) == b + c
  {
  }

  lemma GrownKeys(v: View, j1: Jobs, j2: Jobs)
    requires Grows(v.jobs, j1) && Grows(j1, j2)
    ensures Watch(Watch(v, j1, v.history), j2, v.history).born == Watch(v, j2, v.history).born
    ensures Watch(Watch(v, j1, v.history), j2, v.history).died == Watch(v, j2, v.history).died
    ensures j2.Keys + Watch(v, j1, v.history).born.Keys == j2.Keys + v.born.Keys
  {
    Absorb(j1, j2, v.born);
    Absorb(v.history, v.history, v.died);
  }

  /** Watching twice while rows are only added sees what watching once sees. */
  lemma WatchGrown(v: View, j1: Jobs, j2: Jobs)
    requires Grows(v.jobs, j1) && Grows(j1, j2) && Listed(v)
    ensures Watch(Watch(v, j1, v.history), j2, v.history) == Watch(v, j2, v.history)
  {
    var v1 := Watch(v, j1, v.history);
    var a, b := Watch(v1, j2, v.history), Watch(v, j2, v.history);
    GrowsTransitive(v.jobs, j1, j2);
    GrownKeys(v, j1, j2);
    forall id: Id
      ensures Tokens(a.claimed, id) == Tokens(b.claimed, id) && Tokens(a.closed, id) == Tokens(b.closed, id) {
      SameTokens(v, j1, id);
      SameTokens(v1, j2, id);
      SameTokens(v, j2, id);
    }
    TokensDecide(a.claimed, b.claimed);
    TokensDecide(a.closed, b.closed);
  }

  lemma GrowsTransitive(a: Jobs, b: Jobs, c: Jobs)
    requires Grows(a, b) && Grows(b, c)
    ensures Grows(a, c)
  {
  }

  lemma LinksShrink(v: View, j1: Jobs, j2: Jobs)
    requires Grows(v.jobs, j1) && Grows(j1, j2) && OnlyFlowLinks(v, j2)
    ensures OnlyFlowLinks(v, j1) && OnlyFlowLinks(Watch(v, j1, v.history), j2)
  {
  }

  /** An admission without a target only adds resting rows. */
  lemma AdmitGrows(cfg: Config, v: View, rows: Jobs, jobs': Jobs)
    requires Conserved(v) && Admits(cfg, v, rows, None, jobs')
    ensures Grows(v.jobs, jobs')
    ensures Watch(v, jobs', v.history).born.Keys == v.born.Keys + rows.Keys
  {
    KeysConserved(v);
    BirthsOf(cfg, v, Admit(rows, None), jobs', v.history);
  }

  /** An admission made after some growth is an admission seen as further growth. */
  lemma AdmitAfterGrowth(cfg: Config, v: View, j1: Jobs, rows: Jobs, j2: Jobs, strict: bool)
    requires Grows(v.jobs, j1) && Listed(v) && Lawful(cfg, Watch(v, j1, v.history), strict)
    requires Admits(cfg, Watch(v, j1, v.history), rows, None, j2)
    requires strict ==> OnlyFlowLinks(v, j2)
    ensures Grows(j1, j2) && Lawful(cfg, Watch(v, j2, v.history), strict)
  {
    var v1 := Watch(v, j1, v.history);
    AdmitGrows(cfg, v1, rows, j2);
    if strict { LinksShrink(v, j1, j2); }
    MoveKeepsLaws(cfg, v1, Admit(rows, None), j2, v.history, strict);
    WatchGrown(v, j1, j2);
  }

  // ---- Batches of jobs ----

  predicate FreshItems(born: set<Id>, items: seq<Item>) {
    && (forall i | 0 <= i < |items| :: items[i].id !in born && items[i].request.maxAttempts >= 1)
    && (forall i, j | 0 <= i < j < |items| :: items[i].id != items[j].id)
  }

  function ItemIds(items: seq<Item>): set<Id> {
    set i | 0 <= i < |items| :: items[i].id
  }

  /** What one enqueue does to the two tables. */
  lemma EnqueueTables(cfg: Config, s: Store, r: AddJobRequest, id: Id, trace: string, now: int)
    requires EnqueueOne(cfg, s, r, id, trace, now).Admitted? && id !in s.jobs
    ensures var a := EnqueueOne(cfg, s, r, id, trace, now);
            && a.store.history == s.history
            && Grows(s.jobs, a.store.jobs)
            && a.store.jobs.Keys <= s.jobs.Keys + {id}
            && (a.reply.replayed ==> a.store == s)
  {
    var a := EnqueueOne(cfg, s, r, id, trace, now);
    if !a.reply.replayed { NewAdmissionRow(cfg, s, r, id, trace, now); }
  }

  /** The next item's id is not among the rows stored so far. */
  lemma NextIsFresh(born: set<Id>, items: seq<Item>, keys: set<Id>)
    requires FreshItems(born, items) && items != [] && keys <= born + ItemIds(items[..|items| - 1])
    ensures items[|items| - 1].id !in keys && FreshItems(born, items[..|items| - 1])
    ensures ItemIds(items) == ItemIds(items[..|items| - 1]) + {items[|items| - 1].id}
  {
    var n := |items| - 1;
    assert forall i | 0 <= i < n :: items[..n][i] == items[i];
  }

  lemma {:induction false} BatchGrows(cfg: Config, s: Store, items: seq<Item>, now: int)
    requires EnqueueAll(cfg, s, items, now).Done? && FreshItems(s.jobs.Keys, items)
    ensures var t := EnqueueAll(cfg, s, items, now).store;
            t.history == s.history && Grows(s.jobs, t.jobs) && t.jobs.Keys <= s.jobs.Keys + ItemIds(items)
  {
    if items != [] {
      var n := |items| - 1;
      var t1 := EnqueueAll(cfg, s, items[..n], now).store;
      assert FreshItems(s.jobs.Keys, items[..n]);
      BatchGrows(cfg, s, items[..n], now);
      NextIsFresh(s.jobs.Keys, items, t1.jobs.Keys);
      var x := items[n];
      EnqueueTables(cfg, t1, x.request, x.id, x.freshTrace, now);
      GrowsTransitive(s.jobs, t1.jobs, EnqueueAll(cfg, s, items, now).store.jobs);
    }
  }

  lemma {:induction false} BatchLawful(cfg: Config, v: View, s: Store, items: seq<Item>, now: int, strict: bool)
    requires Lawful(cfg, v, strict) && v.jobs == s.jobs && v.history == s.history
    requires FreshItems(v.born.Keys, items) && EnqueueAll(cfg, s, items, now).Done?
    requires strict ==> OnlyFlowLinks(v, EnqueueAll(cfg, s, items, now).store.jobs)
    ensures Lawful(cfg, Watch(v, EnqueueAll(cfg, s, items, now).store.jobs, v.history), strict)
    decreases |items|
  {
    KeysConserved(v);
    FencedIsListed(v);
    var t := EnqueueAll(cfg, s, items, now).store;
    if items == [] {
      MoveKeepsLaws(cfg, v, Quiet, t.jobs, v.history, strict);
    } else {
      var n := |items| - 1;
      var x, t1 := items[n], EnqueueAll(cfg, s, items[..n], now).store;
      BatchGrows(cfg, s, items[..n], now);
      EnqueueTables(cfg, t1, x.request, x.id, x.freshTrace, now);
      if strict { LinksShrink(v, t1.jobs, t.jobs); }
      BatchLawful(cfg, v, s, items[..n], now, strict);
      var v1 := Watch(v, t1.jobs, v.history);
      if IsNew(EnqueueOne(cfg, t1, x.request, x.id, x.freshTrace, now)) {
        EnqueueAdmits(cfg, v1, t1, x.request, x.id, x.freshTrace, now);
        AdmitAfterGrowth(cfg, v, t1.jobs, map[x.id := t.jobs[x.id]], t.jobs, strict);
      }
    }
  }

  // ---- Several new trees ----

  /** Fresh supplies that share no id. */
  predicate FreshSupplies(v: View, supplies: seq<seq<Id>>) {
    && (forall i | 0 <= i < |supplies| :: Fresh(v, supplies[i]))
    && (forall i, j, a, b | 0 <= i < j < |supplies| && 0 <= a < |supplies[i]| && 0 <= b < |supplies[j]| ::
          supplies[i][a] != supplies[j][b])
  }

  lemma FirstTreeAdmits(cfg: Config, v: View, s: Store, n: FlowJob, supply: seq<Id>, now: int, seen: set<Slot>)
    requires Conserved(v) && AllRooted(v) && v.jobs == s.jobs && v.history == s.history
    requires Fresh(v, supply) && Size(n) <= |supply|
    requires Acceptable(n, 0, cfg.maxFlowNodes, cfg.maxFlowDepth, seen)
    requires InsertTree(s, Flat(n, None, 0, supply, 0), now).Ok?
    ensures var t := InsertTree(s, Flat(n, None, 0, supply, 0), now).value;
            var rows := RowMap(Flat(n, None, 0, supply, 0), supply[0], 0, now);
            && t.history == s.history
            && Admits(cfg, v, rows, None, t.jobs)
            && rows.Keys == IdsOf(Flat(n, None, 0, supply, 0))
  {
    TreeIds(v, n, supply);
    TreeAdmits(cfg, v, n, supply, now);
    RowMapKeys(Flat(n, None, 0, supply, 0), supply[0], 0, now);
  }

  lemma FlatIdsSupplied(n: FlowJob, supply: seq<Id>, id: Id)
    requires Size(n) <= |supply| && id in IdsOf(Flat(n, None, 0, supply, 0))
    ensures id in supply
  {
    var flat := Flat(n, None, 0, supply, 0);
    var i :| 0 <= i < |flat| && flat[i].id == id;
    FlatRow(n, None, 0, supply, 0, i);
  }

  /** A supply stays fresh while ids of another supply are used up. */
  lemma OneStillFresh(v: View, v': View, supply: seq<Id>, used: seq<Id>)
    requires Fresh(v, supply) && forall id | id in v'.born :: id in v.born || id in used
    requires forall a, b | 0 <= a < |used| && 0 <= b < |supply| :: used[a] != supply[b]
    ensures Fresh(v', supply)
  {
  }

  /** Supplies stay fresh for the later trees. */
  lemma StillFresh(cfg: Config, v: View, n: FlowJob, supplies: seq<seq<Id>>, rows: Jobs, jobs': Jobs)
    requires Conserved(v) && supplies != [] && FreshSupplies(v, supplies) && Size(n) <= |supplies[0]|
    requires Admits(cfg, v, rows, None, jobs') && rows.Keys == IdsOf(Flat(n, None, 0, supplies[0], 0))
    ensures FreshSupplies(Watch(v, jobs', v.history), supplies[1..])
  {
    var v' := Watch(v, jobs', v.history);
    assert v'.born.Keys == v.born.Keys + rows.Keys by { AdmitGrows(cfg, v, rows, jobs'); }
    forall id | id in v'.born ensures id in v.born || id in supplies[0] {
      if id in rows { FlatIdsSupplied(n, supplies[0], id); }
    }
    LaterFresh(v, v', supplies);
  }

  lemma LaterFresh(v: View, v': View, supplies: seq<seq<Id>>)
    requires supplies != [] && FreshSupplies(v, supplies)
    requires forall id | id in v'.born :: id in v.born || id in supplies[0]
    ensures FreshSupplies(v', supplies[1..])
  {
    var rest := supplies[1..];
    assert forall i | 0 <= i < |rest| :: rest[i] == supplies[i + 1];
    forall i | 0 <= i < |rest| ensures Fresh(v', rest[i]) {
      OneStillFresh(v, v', supplies[i + 1], supplies[0]);
    }
  }

  lemma {:induction false} AllInTree(rows: seq<Prepared>, tree: Id, base: nat, now: int)
    ensures forall c | c in RowMap(rows, tree, base, now) :: RowMap(rows, tree, base, now)[c].treeId.Some?
  {
    if rows != [] { AllInTree(rows[..|rows| - 1], tree, base, now); }
  }

  /** Rows of a tree link as they like. */
  lemma TreeRowsLinkFreely(cfg: Config, v: View, rows: Jobs, target: Option<Id>, jobs': Jobs)
    requires Conserved(v) && Admits(cfg, v, rows, target, jobs') && forall c | c in rows :: rows[c].treeId.Some?
    ensures OnlyFlowLinks(v, jobs')
  {
    KeysConserved(v);
  }

  /** One new tree, as a step of its own. */
  lemma TreeLawful(cfg: Config, v: View, s: Store, n: FlowJob, supply: seq<Id>, now: int, seen: set<Slot>, strict: bool)
    requires Lawful(cfg, v, strict) && v.jobs == s.jobs && v.history == s.history
    requires Fresh(v, supply) && Size(n) <= |supply|
    requires Acceptable(n, 0, cfg.maxFlowNodes, cfg.maxFlowDepth, seen)
    requires InsertTree(s, Flat(n, None, 0, supply, 0), now).Ok?
    ensures var t := InsertTree(s, Flat(n, None, 0, supply, 0), now).value;
            && t.history == s.history && Grows(s.jobs, t.jobs) && Adopted(v, t.jobs)
            && Lawful(cfg, Watch(v, t.jobs, v.history), strict)
  {
    var flat := Flat(n, None, 0, supply, 0);
    var rows, t := RowMap(flat, supply[0], 0, now), InsertTree(s, flat, now).value;
    FirstTreeAdmits(cfg, v, s, n, supply, now, seen);
    AdmitGrows(cfg, v, rows, t.jobs);
    AdmitAdopts(cfg, v, rows, None, t.jobs);
    AllInTree(flat, supply[0], 0, now);
    TreeRowsLinkFreely(cfg, v, rows, None, t.jobs);
    MoveKeepsLaws(cfg, v, Admit(rows, None), t.jobs, v.history, strict);
  }

  lemma LaterSupplies(cfg: Config, v: View, s: Store, n: FlowJob, supplies: seq<seq<Id>>, now: int, seen: set<Slot>)
    requires Conserved(v) && AllRooted(v) && v.jobs == s.jobs && v.history == s.history
    requires supplies != [] && FreshSupplies(v, supplies) && Size(n) <= |supplies[0]|
    requires Acceptable(n, 0, cfg.maxFlowNodes, cfg.maxFlowDepth, seen)
    requires InsertTree(s, Flat(n, None, 0, supplies[0], 0), now).Ok?
    ensures FreshSupplies(Watch(v, InsertTree(s, Flat(n, None, 0, supplies[0], 0), now).value.jobs, v.history),
                          supplies[1..])
  {
    var flat := Flat(n, None, 0, supplies[0], 0);
    FirstTreeAdmits(cfg, v, s, n, supplies[0], now, seen);
    StillFresh(cfg, v, n, supplies, RowMap(flat, supplies[0][0], 0, now), InsertTree(s, flat, now).value.jobs);
  }

  lemma AdoptedGrown(v: View, j1: Jobs, j2: Jobs)
    requires Grows(j1, j2) && Adopted(v, j1) && Adopted(Watch(v, j1, v.history), j2)
    ensures Adopted(v, j2)
  {
    forall c: Id | c in j2 && c !in v.born && j2[c].treeId.Some? && j2[c].card.parent.Some?
      ensures j2[c].card.parent.value in j2 {
      assert c in Watch(v, j1, v.history).born <==> c in j1;
    }
  }

  lemma {:induction false} TreesLawful(cfg: Config, v: View, s: Store, flows: seq<FlowJob>, supplies: seq<seq<Id>>,
                                       now: int, seen: set<Slot>, strict: bool)
    requires Lawful(cfg, v, strict) && v.jobs == s.jobs && v.history == s.history
    requires Supplied(flows, supplies) && FreshSupplies(v, supplies)
    requires AcceptableTrees(cfg, flows, seen) && InsertTrees(s, flows, supplies, now).Ok?
    ensures var t := InsertTrees(s, flows, supplies, now).value;
            && t.history == s.history && Grows(s.jobs, t.jobs) && Adopted(v, t.jobs)
            && Lawful(cfg, Watch(v, t.jobs, v.history), strict)
    decreases |flows|
  {
    FencedIsListed(v);
    if flows == [] {
      assert Grows(s.jobs, s.jobs);
      KeysConserved(v);
      NothingSeen(cfg, v, strict);
    } else {
      var t1 := InsertTree(s, Flat(flows[0], None, 0, supplies[0], 0), now).value;
      TreeLawful(cfg, v, s, flows[0], supplies[0], now, seen, strict);
      LaterSupplies(cfg, v, s, flows[0], supplies, now, seen);
      TreesLawful(cfg, Watch(v, t1.jobs, v.history), t1, flows[1..], supplies[1..], now,
                  seen + SlotSet(Slots(flows[0])), strict);
      var t := InsertTrees(s, flows, supplies, now).value;
      GrowsTransitive(s.jobs, t1.jobs, t.jobs);
      WatchGrown(v, t1.jobs, t.jobs);
      AdoptedGrown(v, t1.jobs, t.jobs);
    }
  }

  lemma NothingSeen(cfg: Config, v: View, strict: bool)
    requires Lawful(cfg, v, strict)
    ensures Lawful(cfg, Watch(v, v.jobs, v.history), strict)
  {
    KeysConserved(v);
    MoveKeepsLaws(cfg, v, Quiet, v.jobs, v.history, strict);
  }
}
