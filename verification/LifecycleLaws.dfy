/**
  What every move of the job machine keeps: conservation of ids, attempt
  fencing, the ledger of pending children, the dependency gate, the shape of
  the flow forest and the lineage of AddJob children.
 */
module LifecycleLaws {
  import opened Tables
  import opened Lifecycle

  // ---- One id across one move ----

  /** Owner and lease exactly while Active, and attempts within the limit. */
  predicate RowOk(j: Job) {
    && (j.state.Active? <==> j.worker.Some?)
    && (j.state.Active? <==> j.lease.Some?)
    && (if j.state.Active? then 1 <= j.attempts <= j.card.maxAttempts else j.attempts < j.card.maxAttempts)
  }

  /** A live row still carries the card it was born with. */
  predicate Faithful(b: Job, j: Job) {
    && j.card == b.card && j.retry == b.retry
    && j.failParent == b.failParent && j.treeDepth == b.treeDepth
    && (b.treeId.Some? ==> j.treeId == b.treeId)
  }

  /** A live row keeps its attempt number except when a claim opens the next one. */
  predicate Evolves(j: Job, j': Job) {
    && Faithful(j, j')
    && (if !j.state.Active? && j'.state.Active? then j'.attempts == j.attempts + 1 else j'.attempts == j.attempts)
    && (RowOk(j) ==> RowOk(j'))
  }

  /** The only ways an id can be affected: it is born, it evolves, it dies, or its history row is pruned. */
  predicate Lives(v: View, jobs': Jobs, history': History, id: Id) {
    && (id in v.jobs && id in jobs' ==>
          Evolves(v.jobs[id], jobs'[id]) && (jobs'[id].treeId == v.jobs[id].treeId || jobs'[id].treeId == Some(id)))
    && (id in v.jobs && id !in jobs' ==> id in history' && Recorded(v.jobs[id], history'[id]))
    && (id !in v.jobs && id in jobs' ==> id !in v.born && RowOk(jobs'[id]) && jobs'[id].attempts == 0)
    && (id in history' && (id !in v.jobs || id in jobs') ==> id in v.history && history'[id] == v.history[id])
  }

  lemma AdmitLives(cfg: Config, v: View, rows: Jobs, target: Option<Id>, jobs': Jobs, id: Id)
    requires Admits(cfg, v, rows, target, jobs')
    requires id in v.jobs ==> id in v.born
    ensures Lives(v, jobs', v.history, id)
  {
  }

  lemma SettleLives(v: View, retried: set<Id>, dead: set<Id>, jobs': Jobs, history': History, id: Id)
    requires Settles(v, retried, dead, jobs', history')
    ensures Lives(v, jobs', history', id)
  {
  }

  lemma CompleteLives(v: View, id: Id, now: int, jobs': Jobs, history': History, x: Id)
    requires Completes(v, id, now, jobs', history')
    ensures Lives(v, jobs', history', x)
  {
  }

  lemma MoveLives(cfg: Config, v: View, m: Move, jobs': Jobs, history': History, id: Id)
    requires Happens(cfg, v, m, jobs', history')
    requires id in v.jobs ==> id in v.born
    ensures Lives(v, jobs', history', id)
  {
    match m
    case Admit(rows, target) => AdmitLives(cfg, v, rows, target, jobs', id);
    case Settle(retried, dead) => SettleLives(v, retried, dead, jobs', history', id);
    case Complete(x, now) => CompleteLives(v, x, now, jobs', history', id);
    case _ =>
  }

  // ---- Conservation ----

  /**
    An admitted id is live or has died, never both; a history row repeats the recorded death;
    a live row is well formed and carries the card it was born with.
   */
  predicate Accounted(v: View, id: Id) {
    && (id in v.born <==> id in v.jobs || id in v.died)
    && !(id in v.jobs && id in v.died)
    && (id in v.history ==> id in v.died && v.history[id] == v.died[id])
    && (id in v.jobs ==> RowOk(v.jobs[id]) && Faithful(v.born[id], v.jobs[id]))
    && (id in v.died ==> v.died[id].card == v.born[id].card)
  }

  ghost predicate Conserved(v: View) {
    forall id: Id :: Accounted(v, id)
  }

  lemma LifeIsAccounted(v: View, jobs': Jobs, history': History, id: Id)
    requires Accounted(v, id) && Lives(v, jobs', history', id)
    ensures Accounted(Watch(v, jobs', history'), id)
  {
  }

  lemma MoveConserves(cfg: Config, v: View, m: Move, jobs': Jobs, history': History)
    requires Conserved(v) && Happens(cfg, v, m, jobs', history')
    ensures Conserved(Watch(v, jobs', history'))
  {
    forall id: Id ensures Accounted(Watch(v, jobs', history'), id) {
      assert Accounted(v, id);
      MoveLives(cfg, v, m, jobs', history', id);
      LifeIsAccounted(v, jobs', history', id);
    }
  }

  // ---- Fencing ----

  function Upto(n: nat): seq<nat> {
    seq(n, i => i + 1)
  }

  /** Claims of `id` were opened as 1, 2, ..., n and closed as 1, 2, ..., in the same order. */
  predicate Fenced(v: View, id: Id) {
    var n := |Tokens(v.claimed, id)|;
    && Tokens(v.claimed, id) == Upto(n)
    && Tokens(v.closed, id) == Upto(if Held(v.jobs, id) && n > 0 then n - 1 else n)
    && (id in v.jobs ==> n == v.jobs[id].attempts)
    && (id in v.died ==> n == v.died[id].attempts)
    && (id !in v.born ==> id !in v.claimed && id !in v.closed)
    && (id in v.born ==> n <= v.born[id].card.maxAttempts)
  }

  lemma UptoNext(n: nat)
    ensures Upto(n) + [n + 1] == Upto(n + 1)
  {
  }

  /** What one observed change adds to the books of claims of an id. */
  lemma TokensAfter(v: View, jobs': Jobs, history': History, id: Id)
    requires id in jobs' || id in v.born || (id !in v.claimed && id !in v.closed && id !in v.jobs)
    ensures var v' := Watch(v, jobs', history');
            && Tokens(v'.claimed, id) == Tokens(v.claimed, id) + (if Held(jobs', id)
                && !Held(v.jobs, id) then [jobs'[id].attempts] else [])
            && Tokens(v'.closed, id) == Tokens(v.closed, id) + (if Held(v.jobs, id)
                && !Held(jobs', id) then [v.jobs[id].attempts] else [])
  {
  }

  /** How many claims an id has after an observed change. */
  function ClaimsNow(v: View, jobs': Jobs, id: Id): nat {
    |Tokens(v.claimed, id)| + if Held(jobs', id) && !Held(v.jobs, id) then 1 else 0
  }

  lemma LifeKeepsClaims(v: View, jobs': Jobs, history': History, id: Id)
    requires Accounted(v, id) && Lives(v, jobs', history', id) && Fenced(v, id)
    ensures Tokens(Watch(v, jobs', history').claimed, id) == Upto(ClaimsNow(v, jobs', id))
    ensures id in jobs' ==> ClaimsNow(v, jobs', id) == jobs'[id].attempts
  {
    UptoNext(|Tokens(v.claimed, id)|);
    TokensAfter(v, jobs', history', id);
  }

  lemma LifeKeepsClosed(v: View, jobs': Jobs, history': History, id: Id)
    requires Accounted(v, id) && Lives(v, jobs', history', id) && Fenced(v, id)
    ensures var n := ClaimsNow(v, jobs', id);
            Tokens(Watch(v, jobs', history').closed, id) == Upto(if Held(jobs', id) && n > 0 then n - 1 else n)
  {
    var n := |Tokens(v.claimed, id)|;
    if n > 0 { UptoNext(n - 1); }
    TokensAfter(v, jobs', history', id);
  }

  lemma LifeIsFenced(v: View, jobs': Jobs, history': History, id: Id)
    requires Accounted(v, id) && Lives(v, jobs', history', id) && Fenced(v, id)
    ensures Fenced(Watch(v, jobs', history'), id)
  {
    LifeKeepsClaims(v, jobs', history', id);
    LifeKeepsClosed(v, jobs', history', id);
    LifeIsAccounted(v, jobs', history', id);
  }

  ghost predicate AllFenced(v: View) {
    forall id: Id :: Fenced(v, id)
  }

  lemma MoveKeepsFenced(cfg: Config, v: View, m: Move, jobs': Jobs, history': History)
    requires Conserved(v) && AllFenced(v) && Happens(cfg, v, m, jobs', history')
    ensures AllFenced(Watch(v, jobs', history'))
  {
    forall id: Id ensures Fenced(Watch(v, jobs', history'), id) {
      assert Accounted(v, id) && Fenced(v, id);
      MoveLives(cfg, v, m, jobs', history', id);
      LifeIsFenced(v, jobs', history', id);
    }
  }

  // ---- Links lead to admitted jobs ----

  predicate Rooted(v: View, c: Id) {
    && (c in v.born && v.born[c].card.parent.Some? ==> v.born[c].card.parent.value in v.born)
    && (c in v.jobs && v.jobs[c].treeId.Some? ==> v.jobs[c].treeId.value in v.born)
  }

  ghost predicate AllRooted(v: View) {
    forall c: Id :: Rooted(v, c)
  }

  lemma KeysConserved(v: View)
    requires Conserved(v)
    ensures v.jobs.Keys <= v.born.Keys && v.died.Keys <= v.born.Keys && v.history.Keys <= v.died.Keys
    ensures v.jobs.Keys !! v.died.Keys
  {
    forall id: Id | id in v.jobs ensures id in v.born && id !in v.died { assert Accounted(v, id); }
    forall id: Id | id in v.died ensures id in v.born { assert Accounted(v, id); }
    forall id: Id | id in v.history ensures id in v.died { assert Accounted(v, id); }
  }

  lemma NoBirths(v: View, jobs': Jobs, history': History)
    requires jobs'.Keys <= v.born.Keys
    ensures Watch(v, jobs', history').born == v.born
  {
  }

  lemma AdmitBirths(v: View, rows: Jobs, jobs': Jobs, history': History)
    requires rows.Keys !! v.born.Keys
    requires jobs'.Keys - rows.Keys <= v.born.Keys
    requires rows.Keys <= jobs'.Keys && forall c | c in rows :: jobs'[c] == rows[c]
    ensures Watch(v, jobs', history').born == rows + v.born
  {
  }

  /** Only an admission adds to the books of births. */
  lemma BirthsOf(cfg: Config, v: View, m: Move, jobs': Jobs, history': History)
    requires Conserved(v) && Happens(cfg, v, m, jobs', history')
    ensures Watch(v, jobs', history').born == if m.Admit? then m.rows + v.born else v.born
    ensures m.Admit? ==> m.rows.Keys !! v.born.Keys
  {
    KeysConserved(v);
    if m.Admit? {
      AdmitBirths(v, m.rows, jobs', history');
    } else {
      NoBirths(v, jobs', history');
    }
  }

  lemma NoDeaths(v: View, jobs': Jobs, history': History)
    requires Conserved(v) && history'.Keys <= v.history.Keys
    ensures Watch(v, jobs', history').died == v.died
  {
    KeysConserved(v);
  }

  lemma OneDeath(v: View, id: Id, jobs': Jobs, history': History)
    requires Conserved(v) && id in v.jobs && id in history' && history' == v.history[id := history'[id]]
    ensures id !in v.died
    ensures Watch(v, jobs', history').died == v.died[id := history'[id]]
  {
    KeysConserved(v);
    var died' := history' + v.died;
    forall x: Id | x in died' ensures x in v.died[id := history'[id]] && died'[x] == v.died[id := history'[id]][x] {
      assert Accounted(v, x);
    }
  }

  lemma AdmitRoots(cfg: Config, v: View, rows: Jobs, target: Option<Id>, jobs': Jobs, c: Id)
    requires Conserved(v) && AllRooted(v) && Admits(cfg, v, rows, target, jobs') && c in rows
    ensures Rooted(Watch(v, jobs', v.history), c)
  {
    KeysConserved(v);
    assert SoloRow(cfg, jobs', v.history, rows[c]) || FlowRow(cfg, rows, target, jobs', c);
    if target.Some? { assert Rooted(v, target.value); }
  }

  lemma MoveKeepsRooted(cfg: Config, v: View, m: Move, jobs': Jobs, history': History)
    requires Conserved(v) && AllRooted(v) && Happens(cfg, v, m, jobs', history')
    ensures AllRooted(Watch(v, jobs', history'))
  {
    var v' := Watch(v, jobs', history');
    BirthsOf(cfg, v, m, jobs', history');
    forall c: Id ensures Rooted(v', c) {
      assert Rooted(v, c) && Accounted(v, c);
      if m.Admit? && c in m.rows {
        AdmitRoots(cfg, v, m.rows, m.target, jobs', c);
      } else {
        MoveLives(cfg, v, m, jobs', history', c);
      }
    }
  }

  // ---- The ledger of pending children ----

  /** A live row's count is the flow children ever attached less the children completed. */
  predicate Balanced(v: View, p: Id) {
    p in v.jobs ==> v.jobs[p].pending == |FlowKids(v.born, p)| - |DoneKids(v.died, p)|
  }

  ghost predicate Ledger(v: View) {
    forall p: Id :: Balanced(v, p)
  }

  lemma KidsOfUnion(a: Jobs, b: Jobs, p: Id)
    requires a.Keys !! b.Keys
    ensures FlowKids(a + b, p) == FlowKids(a, p) + FlowKids(b, p)
    ensures FlowKids(a, p) !! FlowKids(b, p)
  {
  }

  lemma NoKidsBeforeBirth(v: View, p: Id)
    requires Conserved(v) && AllRooted(v) && p !in v.born
    ensures FlowKids(v.born, p) == {} && DoneKids(v.died, p) == {}
  {
    forall c: Id ensures c !in FlowKids(v.born, p) && c !in DoneKids(v.died, p) {
      assert Rooted(v, c) && Accounted(v, c);
    }
  }

  /** Within an admission, only new flow rows and the target gain children. */
  lemma NoOtherKids(cfg: Config, v: View, rows: Jobs, target: Option<Id>, jobs': Jobs, p: Id)
    requires Admits(cfg, v, rows, target, jobs')
    requires target != Some(p) && (p in rows ==> rows[p].treeId.None?)
    ensures FlowKids(rows, p) == {}
  {
    forall c: Id ensures c !in FlowKids(rows, p) {}
  }

  lemma NewRowBalances(cfg: Config, v: View, rows: Jobs, target: Option<Id>, jobs': Jobs, p: Id)
    requires Conserved(v) && AllRooted(v) && Admits(cfg, v, rows, target, jobs') && p in rows
    ensures Balanced(Watch(v, jobs', v.history), p)
  {
    BirthsOf(cfg, v, Admit(rows, target), jobs', v.history);
    NoDeaths(v, jobs', v.history);
    KidsOfUnion(rows, v.born, p);
    NoKidsBeforeBirth(v, p);
    if rows[p].treeId.None? {
      NoOtherKids(cfg, v, rows, target, jobs', p);
    }
  }

  /** The target's count grows by its new children, any other old row's stays. */
  lemma CountsAfterAdmit(cfg: Config, v: View, rows: Jobs, target: Option<Id>, jobs': Jobs, p: Id)
    requires Admits(cfg, v, rows, target, jobs') && p !in rows && p in v.jobs
    ensures p in jobs' && jobs'[p].pending == v.jobs[p].pending + |FlowKids(rows, p)|
  {
    if target != Some(p) { NoOtherKids(cfg, v, rows, target, jobs', p); }
  }

  lemma OldRowBalances(cfg: Config, v: View, rows: Jobs, target: Option<Id>, jobs': Jobs, p: Id)
    requires Conserved(v) && Balanced(v, p) && Admits(cfg, v, rows, target, jobs') && p !in rows
    ensures Balanced(Watch(v, jobs', v.history), p)
  {
    BirthsOf(cfg, v, Admit(rows, target), jobs', v.history);
    NoDeaths(v, jobs', v.history);
    KidsOfUnion(rows, v.born, p);
    if p in v.jobs { CountsAfterAdmit(cfg, v, rows, target, jobs', p); }
  }

  lemma AdmitBalances(cfg: Config, v: View, rows: Jobs, target: Option<Id>, jobs': Jobs, p: Id)
    requires Conserved(v) && AllRooted(v) && Balanced(v, p) && Admits(cfg, v, rows, target, jobs')
    ensures Balanced(Watch(v, jobs', v.history), p)
  {
    if p in rows {
      NewRowBalances(cfg, v, rows, target, jobs', p);
    } else {
      OldRowBalances(cfg, v, rows, target, jobs', p);
    }
  }

  lemma DoneKidsSettled(v: View, retried: set<Id>, dead: set<Id>, jobs': Jobs, history': History, p: Id)
    requires Conserved(v) && Settles(v, retried, dead, jobs', history')
    ensures DoneKids(Watch(v, jobs', history').died, p) == DoneKids(v.died, p)
  {
    KeysConserved(v);
  }

  lemma DoneKidsCompleted(died: History, id: Id, a: Archived, p: Id)
    requires id !in died && a.outcome.Completed?
    ensures DoneKids(died[id := a], p) == DoneKids(died, p) + if a.card.parent == Some(p) then {id} else {}
    ensures id !in DoneKids(died, p)
  {
  }

  lemma SettleBalances(cfg: Config, v: View, retried: set<Id>, dead: set<Id>, jobs': Jobs, history': History, p: Id)
    requires Conserved(v) && Balanced(v, p) && Settles(v, retried, dead, jobs', history')
    ensures Balanced(Watch(v, jobs', history'), p)
  {
    BirthsOf(cfg, v, Settle(retried, dead), jobs', history');
    DoneKidsSettled(v, retried, dead, jobs', history', p);
    assert p in retried && p in jobs' ==> Requeued(v.jobs[p], jobs'[p]);
  }

  lemma CompleteBalances(cfg: Config, v: View, id: Id, now: int, jobs': Jobs, history': History, p: Id)
    requires Conserved(v) && Balanced(v, p) && Completes(v, id, now, jobs', history')
    ensures Balanced(Watch(v, jobs', history'), p)
  {
    BirthsOf(cfg, v, Complete(id, now), jobs', history');
    OneDeath(v, id, jobs', history');
    DoneKidsCompleted(v.died, id, history'[id], p);
  }

  lemma MoveBalances(cfg: Config, v: View, m: Move, jobs': Jobs, history': History, p: Id)
    requires Conserved(v) && AllRooted(v) && Balanced(v, p) && Happens(cfg, v, m, jobs', history')
    ensures Balanced(Watch(v, jobs', history'), p)
  {
    match m
    case Admit(rows, target) => AdmitBalances(cfg, v, rows, target, jobs', p);
    case Settle(retried, dead) => SettleBalances(cfg, v, retried, dead, jobs', history', p);
    case Complete(id, now) => CompleteBalances(cfg, v, id, now, jobs', history', p);
    case _ =>
      BirthsOf(cfg, v, m, jobs', history');
      NoDeaths(v, jobs', history');
  }

  lemma MoveKeepsLedger(cfg: Config, v: View, m: Move, jobs': Jobs, history': History)
    requires Conserved(v) && AllRooted(v) && Ledger(v) && Happens(cfg, v, m, jobs', history')
    ensures Ledger(Watch(v, jobs', history'))
  {
    forall p: Id ensures Balanced(Watch(v, jobs', history'), p) {
      assert Balanced(v, p);
      MoveBalances(cfg, v, m, jobs', history', p);
    }
  }
}
