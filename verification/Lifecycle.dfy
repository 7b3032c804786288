/**
  The life of a job as a machine over the `jobs` and `job_history` tables.

  Every transaction of the broker that touches those tables is one of the moves
  below; the modules for the single calls show which.  A `View` pairs the two
  tables with what an outside observer of committed states has written down:
  the first row seen for every id, the first history row seen for every id, and
  the attempt numbers with which claims of an id were opened and closed.
 */
module Lifecycle {
  import opened Tables

  datatype View = View(
    jobs: Jobs,
    history: History,
    born: Jobs,
    died: History,
    claimed: map<Id, seq<nat>>,
    closed: map<Id, seq<nat>>)

  const NOTHING := View(map[], map[], map[], map[], map[], map[])

  function Tokens(m: map<Id, seq<nat>>, id: Id): seq<nat> {
    if id in m then m[id] else []
  }

  predicate Held(jobs: Jobs, id: Id) {
    id in jobs && jobs[id].state.Active?
  }

  /** The observer's books after it has seen the tables change to `jobs'` and `history'`. */
  function Watch(v: View, jobs': Jobs, history': History): View {
    var ids := jobs'.Keys + v.born.Keys;
    View(
      jobs', history', jobs' + v.born, history' + v.died,
      map id | id in ids ::
        Tokens(v.claimed, id) + if Held(jobs', id) && !Held(v.jobs, id) then [jobs'[id].attempts] else [],
      map id | id in ids ::
        Tokens(v.closed, id) + if Held(v.jobs, id) && !Held(jobs', id) then [v.jobs[id].attempts] else [])
  }

  // ---- Links ----

  /** The rows placed beneath `p` by a flow: rows born inside a tree that name `p` as parent. */
  function FlowKids(rows: Jobs, p: Id): set<Id> {
    set c | c in rows && rows[c].treeId.Some? && rows[c].card.parent == Some(p)
  }

  /** The children of `p`, of any origin, that were completed. */
  function DoneKids(died: History, p: Id): set<Id> {
    set c | c in died && died[c].outcome.Completed? && died[c].card.parent == Some(p)
  }

  function TreeRows(jobs: Jobs, t: Id): set<Id> {
    set id | id in jobs && jobs[id].treeId == Some(t)
  }

  // ---- Moves ----

  datatype Move =
    | Quiet
    | Admit(rows: Jobs, target: Option<Id>)
    | Claim(id: Id)
    | Renew(id: Id)
    | Settle(retried: set<Id>, dead: set<Id>)
    | Complete(id: Id, now: int)
    | Prune(gone: set<Id>)

  /** A merge target waits for the `added` children as well and adopts a tree if it had none. */
  function Regated(t: Id, j: Job, added: nat): Job {
    j.(state := WaitingChildren,
       pending := j.pending + added,
       treeId := if j.treeId.Some? then j.treeId else Some(t))
  }

  function Regate(jobs: Jobs, target: Option<Id>, rows: Jobs): Jobs
    requires target.Some? ==> target.value in jobs
  {
    if target.None? then jobs
    else jobs[target.value := Regated(target.value, jobs[target.value], |FlowKids(rows, target.value)|)]
  }

  function Released(j: Job, now: int): Job {
    if j.state.WaitingChildren? && j.pending <= 0
    then j.(state := if j.availableAt > now then Delayed else Waiting)
    else j
  }

  /** A completed child takes one off its live parent's count and may open the parent's gate. */
  function Credit(jobs: Jobs, parent: Option<Id>, now: int): Jobs {
    if parent.Some? && parent.value in jobs
    then jobs[parent.value := Released(jobs[parent.value].(pending := jobs[parent.value].pending - 1), now)]
    else jobs
  }

  function CardOf(jobs: Jobs, history: History, id: Id): Card
    requires id in jobs || id in history
  {
    if id in jobs then jobs[id].card else history[id].card
  }

  /** A row inserted by AddJob or by a scheduler: it belongs to no tree and gates nothing. */
  predicate SoloRow(cfg: Config, jobs': Jobs, history: History, j: Job) {
    && j.treeId.None?
    && j.pending == 0
    && (j.state.Waiting? || j.state.Delayed?)
    && !j.failParent
    && j.treeDepth == 0
    && j.card.depth <= cfg.maxExecutionDepth
    && (j.card.parent.Some? ==>
      var p := j.card.parent.value;
      && (p in jobs' || p in history)
      && j.card.depth == CardOf(jobs', history, p).depth + 1
      && j.card.trace == CardOf(jobs', history, p).trace)
  }

  /** A row inserted by a flow: it hangs under another new row or under the merge target. */
  predicate FlowRow(cfg: Config, rows: Jobs, target: Option<Id>, jobs': Jobs, c: Id)
    requires c in rows
  {
    var j := rows[c];
    && j.treeId.Some?
    && j.card.depth == j.treeDepth
    && j.treeDepth <= cfg.maxFlowDepth
    && (j.treeId.value in rows || (target.Some? && target.value in jobs' && jobs'[target.value].treeId == j.treeId))
    && j.pending == |FlowKids(rows, c)|
    && (j.state.WaitingChildren? <==> j.pending > 0)
    && !j.state.Active?
    && |TreeRows(jobs', j.treeId.value)| <= cfg.maxFlowNodes
    && match j.card.parent
       case None => j.treeDepth == 0
       case Some(p) =>
         && (p in rows || target == Some(p))
         && p in jobs'
         && jobs'[p].treeId == j.treeId
         && j.treeDepth == jobs'[p].treeDepth + 1
  }

  ghost predicate Admits(cfg: Config, v: View, rows: Jobs, target: Option<Id>, jobs': Jobs) {
    && rows.Keys !! v.born.Keys
    && (target.Some? ==>
      && target.value in v.jobs
      && !v.jobs[target.value].state.Active?
      && FlowKids(rows, target.value) != {})
    && jobs' == Regate(v.jobs, target, rows) + rows
    && forall c | c in rows ::
      && rows[c].attempts == 0 && rows[c].worker.None? && rows[c].lease.None?
      && 1 <= rows[c].card.maxAttempts
      && (SoloRow(cfg, jobs', v.history, rows[c]) || FlowRow(cfg, rows, target, jobs', c))
  }

  predicate Claims(jobs: Jobs, id: Id, jobs': Jobs) {
    && id in jobs
    && (jobs[id].state.Waiting? || jobs[id].state.Delayed?)
    && id in jobs'
    && jobs'[id].worker.Some? && jobs'[id].lease.Some?
    && jobs' == jobs[id := jobs[id].(state := Active, attempts := jobs[id].attempts + 1,
                                     worker := jobs'[id].worker, lease := jobs'[id].lease)]
  }

  predicate Renews(jobs: Jobs, id: Id, jobs': Jobs) {
    && Held(jobs, id)
    && id in jobs'
    && jobs'[id].lease.Some?
    && jobs' == jobs[id := jobs[id].(lease := jobs'[id].lease)]
  }

  predicate Requeued(j: Job, j': Job) {
    && j.state.Active?
    && j.attempts < j.card.maxAttempts
    && (j'.state.Waiting? || j'.state.Delayed?)
    && j' == j.(state := j'.state, availableAt := j'.availableAt, worker := None, lease := None,
                lastError := j'.lastError)
  }

  /** What every history row keeps of the live row it came from. */
  predicate Recorded(j: Job, a: Archived) {
    && a.card == j.card
    && a.attempts == j.attempts
    && a.worker == j.worker
  }

  predicate Settles(v: View, retried: set<Id>, dead: set<Id>, jobs': Jobs, history': History) {
    && retried !! dead
    && retried + dead <= v.jobs.Keys
    && jobs'.Keys == v.jobs.Keys - dead
    && (forall id | id in retried :: Requeued(v.jobs[id], jobs'[id]))
    && (forall id | id in jobs' && id !in retried :: jobs'[id] == v.jobs[id])
    && history'.Keys == v.history.Keys + dead
    && (forall id | id in v.history && id !in dead :: history'[id] == v.history[id])
    && (forall id | id in dead :: history'[id].outcome.Failed? && Recorded(v.jobs[id], history'[id]))
  }

  predicate Completes(v: View, id: Id, now: int, jobs': Jobs, history': History) {
    && Held(v.jobs, id)
    && jobs' == Credit(v.jobs - {id}, v.jobs[id].card.parent, now)
    && id in history'
    && history' == v.history[id := history'[id]]
    && history'[id].outcome.Completed?
    && Recorded(v.jobs[id], history'[id])
  }

  ghost predicate Happens(cfg: Config, v: View, m: Move, jobs': Jobs, history': History) {
    match m
    case Quiet => jobs' == v.jobs && history' == v.history
    case Admit(rows, target) => Admits(cfg, v, rows, target, jobs') && history' == v.history
    case Claim(id) => Claims(v.jobs, id, jobs') && history' == v.history
    case Renew(id) => Renews(v.jobs, id, jobs') && history' == v.history
    case Settle(retried, dead) => Settles(v, retried, dead, jobs', history')
    case Complete(id, now) => Completes(v, id, now, jobs', history')
    case Prune(gone) => jobs' == v.jobs && history' == v.history - gone
  }
}
