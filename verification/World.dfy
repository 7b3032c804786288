/**
  Whole runs.  A run is any sequence of calls and background passes, each one
  transaction; sent twice, late or out of order, a client's messages are just
  another sequence.  What the world cannot choose is that new ids are fresh and
  that SQL picks rows it is allowed to pick.
 */
module World {
  import opened Tables
  import opened Lifecycle
  import opened LifecycleLaws
  import opened Gate
  import opened Flatten
  import opened FlowLaws
  import opened Laws
  import opened CallLaws
  import opened GaugeLaws
  import opened Books
  import Flow
  import Enqueue
  import Finish
  import Leases
  import Dispatch
  import Retention
  import RuleLaws
  import Rules
  import Telemetry
  import Timers = Scheduler
  import Windows

  datatype Op =
    | AddJobs(bulk: bool, requests: seq<AddJobRequest>, ids: seq<Id>, traces: seq<string>, now: int)
    | AddFlows(bulk: bool, flows: seq<FlowJob>, supplies: seq<seq<Id>>, now: int)
    | AddFlowMerge(flow: FlowJob, supply: seq<Id>, now: int)
    | Poll(poll: Dispatch.PollRequest, now: int, now2: int)
    | Heartbeat(beat: Leases.HeartbeatRequest, now: int)
    | FinishJob(finish: Finish.FinishRequest, now: int, rand: real)
    | Recover(batch: nat, now: int)
    | Sweep(policy: Retention.RetentionConfig, picks: Retention.Picks, now: int)
    | UpsertRate(rule: Rules.RuleRequest, now: int)
    | DeleteRate(facet: string, now: int)
    | UpsertIngress(rule: Rules.RuleRequest, now: int)
    | DeleteIngress(facet: string, now: int)
    | UpsertScheduler(scheduler: Id, spec: Scheduler, now: int)
    | DeleteScheduler(scheduler: Id, now: int)
    | Fire(scheduler: Id, job: Id, trace: string, selectedAt: int, now: int)
    | Restart(now: int)

  predicate Inserts(op: Op) {
    op.AddJobs? || op.AddFlows? || op.AddFlowMerge? || op.Fire?
  }

  predicate Works(op: Op) {
    op.Poll? || op.Heartbeat? || op.FinishJob? || op.Recover? || op.Sweep?
  }

  /** What the world promises about a step. */
  ghost predicate Legal(v: View, s: Store, op: Op) {
    match op
    case AddJobs(bulk, requests, ids, traces, _) =>
      |ids| == |traces| == |requests| && Fresh(v, ids) && (!bulk ==> |requests| == 1)
    case AddFlows(bulk, flows, supplies, _) =>
      Flow.Supplied(flows, supplies) && FreshSupplies(v, supplies) && (!bulk ==> |flows| == 1)
    case AddFlowMerge(flow, supply, _) => SizeAll(flow.children) <= |supply| && Fresh(v, supply)
    case Sweep(policy, picks, now) => Retention.SweepLegal(policy, s, picks, now)
    case Fire(id, job, _, selectedAt, _) => Timers.Due(s.schedulers, id, selectedAt) && job !in v.born
    case _ => true
  }

  // ---- The database after a step ----

  ghost function Insert(cfg: Config, next: Timers.Cron, v: View, s: Store, op: Op): Store
    requires Legal(v, s, op) && Inserts(op)
  {
    match op
    case AddJobs(bulk, requests, ids, traces, now) => Enqueue.AddJobs(cfg, s, bulk, requests, ids, traces, now).0
    case AddFlows(bulk, flows, supplies, now) => Flow.AddFlows(cfg, s, bulk, flows, supplies, now).0
    case AddFlowMerge(flow, supply, now) => Flow.AddFlowMerge(cfg, s, flow, supply, now).0
    case Fire(id, job, trace, _, now) =>
      var fired := Timers.Fire(cfg, next, s, id, s.schedulers[id], job, trace, now);
      if fired.Some? then fired.value else s
  }

  function Work(cfg: Config, s: Store, op: Op): Store
    requires Works(op)
  {
    match op
    case Poll(r, now, now2) => Dispatch.Poll(cfg, s, r, now, now2).0
    case Heartbeat(r, now) => Leases.Heartbeat(cfg, s, r, now).0
    case FinishJob(r, now, rand) => Finish.FinishJob(s, r, now, rand).0
    case Recover(batch, now) => Leases.Recover(s, batch, now)
    case Sweep(_, picks, _) => Retention.Sweep(s, picks)
  }

  function Set(s: Store, op: Op): Store
    requires !Inserts(op) && !Works(op)
  {
    match op
    case UpsertRate(r, now) => Rules.UpsertRate(s, r, now).0
    case DeleteRate(f, _) => Rules.DeleteRate(s, f).0
    case UpsertIngress(r, now) => Rules.UpsertIngress(s, r, now).0
    case DeleteIngress(f, _) => Rules.DeleteIngress(s, f).0
    case UpsertScheduler(id, spec, now) => s.(schedulers := Timers.Upsert(s.schedulers, id, spec, now))
    case DeleteScheduler(id, _) => s.(schedulers := s.schedulers - {id})
    case Restart(_) => s.(gauges := Telemetry.Seed(s.jobs, s.history))
  }

  ghost function Apply(cfg: Config, next: Timers.Cron, v: View, s: Store, op: Op): Store
    requires Legal(v, s, op)
  {
    if Inserts(op) then Insert(cfg, next, v, s, op) else if Works(op) then Work(cfg, s, op) else Set(s, op)
  }

  // ---- The observer's books after a step ----

  ghost function NoteInsert(cfg: Config, next: Timers.Cron, v: View, s: Store, b: Books, op: Op): Books
    requires Legal(v, s, op) && Inserts(op)
  {
    match op
    case AddJobs(bulk, requests, ids, traces, now) => AfterAddJobs(cfg, s, b, bulk, requests, ids, traces, now)
    case AddFlows(bulk, flows, supplies, now) => AfterAddFlows(cfg, s, b, bulk, flows, supplies, now)
    case AddFlowMerge(flow, supply, now) => AfterMerge(cfg, s, b, flow, supply, now)
    case Fire(id, job, trace, selectedAt, now) => AfterFire(cfg, next, s, b, id, job, trace, selectedAt, now)
  }

  function NoteWork(cfg: Config, s: Store, b: Books, op: Op): Books
    requires Works(op)
  {
    match op
    case Poll(r, now, _) => b.(claims := Windows.Claimed(b.claims, Charged(cfg, s, r, now), now), clock := now)
    case Sweep(_, picks, now) => AfterSweep(b, picks, now)
    case _ => b.(clock := op.now)
  }

  function NoteSet(s: Store, b: Books, op: Op): Books
    requires !Inserts(op) && !Works(op)
  {
    match op
    case UpsertRate(r, now) =>
      if Rules.RuleOk(r, now) then b.(claims := b.claims - {r.facet}, clock := now) else b.(clock := now)
    case DeleteRate(f, now) =>
      if Rules.FacetOk(f) then b.(claims := b.claims - {f}, clock := now) else b.(clock := now)
    case UpsertIngress(r, now) => if Rules.RuleOk(r, now) then Forget(b, r.facet, now) else b.(clock := now)
    case DeleteIngress(f, now) => if Rules.FacetOk(f) then Forget(b, f, now) else b.(clock := now)
    case UpsertScheduler(id, _, now) => b.(fired := Timers.Reset(s.schedulers, b.fired, id), clock := now)
    case DeleteScheduler(id, now) => b.(fired := b.fired - {id}, clock := now)
    case Restart(now) => b.(clock := now)
  }

  ghost function Note(cfg: Config, next: Timers.Cron, v: View, s: Store, b: Books, op: Op): Books
    requires Legal(v, s, op)
  {
    if Inserts(op) then NoteInsert(cfg, next, v, s, b, op)
    else if Works(op) then NoteWork(cfg, s, b, op)
    else NoteSet(s, b, op)
  }

  /** The books carry the clock reading of the last step. */
  lemma NoteClock(cfg: Config, next: Timers.Cron, v: View, s: Store, b: Books, op: Op)
    requires Legal(v, s, op)
    ensures Note(cfg, next, v, s, b, op).clock == op.now
  {
  }

  /** The database together with what an observer of its committed states has written down. */
  datatype World = World(db: Store, view: View, books: Books)

  const GENESIS := World(EMPTY, NOTHING, BLANK)

  ghost predicate Can(w: World, op: Op) {
    Legal(w.view, w.db, op)
  }

  ghost function Step(cfg: Config, next: Timers.Cron, w: World, op: Op): World
    requires Can(w, op)
  {
    var db := Apply(cfg, next, w.view, w.db, op);
    World(db, Watch(w.view, db.jobs, db.history), Note(cfg, next, w.view, w.db, w.books, op))
  }

  ghost predicate Follows(cfg: Config, next: Timers.Cron, w: World, op: Op, w': World) {
    Can(w, op) && w' == Step(cfg, next, w, op)
  }

  /** A run from a fresh schema: `ws[i + 1]` is `ws[i]` after `ops[i]`. */
  ghost predicate Run(cfg: Config, next: Timers.Cron, ws: seq<World>, ops: seq<Op>) {
    && |ws| == |ops| + 1
    && ws[0] == GENESIS
    && forall i | 0 <= i < |ops| :: Follows(cfg, next, ws[i], ops[i], ws[i + 1])
  }

  /** A run goes on with any step that is possible in its last world. */
  lemma RunExtends(cfg: Config, next: Timers.Cron, ws: seq<World>, ops: seq<Op>, op: Op, w: World)
    requires Run(cfg, next, ws, ops) && Follows(cfg, next, ws[|ops|], op, w)
    ensures Run(cfg, next, ws + [w], ops + [op])
  {
    var ws', ops' := ws + [w], ops + [op];
    forall i | 0 <= i < |ops'| ensures Follows(cfg, next, ws'[i], ops'[i], ws'[i + 1]) {
      Extended(ws, ops, op, w, i);
    }
  }

  lemma Extended(ws: seq<World>, ops: seq<Op>, op: Op, w: World, i: nat)
    requires |ws| == |ops| + 1 && i <= |ops|
    ensures (ws + [w])[i] == ws[i]
    ensures i < |ops| ==> (ops + [op])[i] == ops[i] && (ws + [w])[i + 1] == ws[i + 1]
    ensures i == |ops| ==> (ops + [op])[i] == op && (ws + [w])[i + 1] == w
  {
  }

  /** No AddJob of the run names a parent that is live at that moment. */
  ghost predicate OnlyFlowsLinkToLive(ws: seq<World>) {
    forall i | 0 <= i < |ws| - 1 :: OnlyFlowLinks(ws[i].view, ws[i + 1].db.jobs)
  }

  /** The clock never goes back during the run and stays away from the end of its range. */
  ghost predicate Timely(ws: seq<World>, ops: seq<Op>) {
    |ws| == |ops| + 1 && forall i | 0 <= i < |ops| :: OnTime(ws[i].db, ws[i].books, ops[i].now)
  }

  // ---- Every step keeps the laws of the job machine ----

  lemma InsertLawful(cfg: Config, next: Timers.Cron, v: View, s: Store, op: Op, strict: bool)
    requires Lawful(cfg, v, strict) && Shows(v, s) && Legal(v, s, op) && Inserts(op)
    requires strict ==> OnlyFlowLinks(v, Insert(cfg, next, v, s, op).jobs)
    ensures LawfulAfter(cfg, v, Insert(cfg, next, v, s, op), strict)
  {
    if op.AddJobs? {
      AddJobsLawful(cfg, v, s, op.bulk, op.requests, op.ids, op.traces, op.now, strict);
    } else if op.AddFlows? {
      AddFlowsLawful(cfg, v, s, op.bulk, op.flows, op.supplies, op.now, strict);
    } else if op.AddFlowMerge? {
      MergeLawful(cfg, v, s, op.flow, op.supply, op.now, strict);
    } else if Timers.Fire(cfg, next, s, op.scheduler, s.schedulers[op.scheduler], op.job, op.trace, op.now).Some? {
      FireLawful(cfg, v, next, s, op.scheduler, s.schedulers[op.scheduler], op.job, op.trace, op.now, strict);
    } else {
      QuietLawful(cfg, v, s, strict);
    }
  }

  lemma WorkLawful(cfg: Config, v: View, s: Store, op: Op, strict: bool)
    requires Lawful(cfg, v, strict) && Shows(v, s) && Works(op)
    ensures LawfulAfter(cfg, v, Work(cfg, s, op), strict)
  {
    if op.Poll? {
      PollLawful(cfg, v, s, op.poll, op.now, op.now2, strict);
    } else if op.Heartbeat? {
      HeartbeatLawful(cfg, v, s, op.beat, op.now, strict);
    } else if op.FinishJob? {
      FinishLawful(cfg, v, s, op.finish, op.now, op.rand, strict);
    } else if op.Recover? {
      RecoverLawful(cfg, v, s, op.batch, op.now, strict);
    } else {
      SweepLawful(cfg, v, s, op.picks, strict);
    }
  }

  /** Settings change neither jobs nor history, and only a restart touches the gauges. */
  predicate SameTables(s: Store, t: Store) {
    t.jobs == s.jobs && t.history == s.history
  }

  lemma SetTables(s: Store, op: Op)
    requires !Inserts(op) && !Works(op)
    ensures SameTables(s, Set(s, op))
    ensures !op.Restart? ==> Set(s, op).gauges == s.gauges
  {
    match op
    case UpsertRate(r, now) => RuleLaws.RateStartsAfresh(s, r, now);
    case UpsertIngress(r, now) => RuleLaws.IngressStartsAfresh(s, r, now);
    case DeleteRate(f, now) => RuleLaws.RateRemoved(s, f);
    case DeleteIngress(f, now) => RuleLaws.IngressRemoved(s, f);
    case _ =>
  }

  lemma StepLawful(cfg: Config, next: Timers.Cron, v: View, s: Store, op: Op, strict: bool)
    requires Lawful(cfg, v, strict) && Shows(v, s) && Legal(v, s, op)
    requires strict ==> OnlyFlowLinks(v, Apply(cfg, next, v, s, op).jobs)
    ensures LawfulAfter(cfg, v, Apply(cfg, next, v, s, op), strict)
  {
    if Inserts(op) {
      InsertLawful(cfg, next, v, s, op, strict);
    } else if Works(op) {
      WorkLawful(cfg, v, s, op, strict);
    } else {
      SetTables(s, op);
      QuietLawful(cfg, v, Set(s, op), strict);
    }
  }

  // ---- Only a cascade can put the gauges out ----

  /** The step is no terminal failure, or one that takes only parked ancestors. */
  predicate SparesGauges(s: Store, op: Op) {
    op.FinishJob? && Finish.FailsTerminally(s, op.finish, op.now) ==> AllParkedVictims(s, op.finish)
  }

  lemma InsertGauges(cfg: Config, next: Timers.Cron, v: View, s: Store, op: Op)
    requires Lawful(cfg, v, false) && Shows(v, s) && Legal(v, s, op) && Inserts(op) && GaugeLaw(s)
    ensures GaugeLaw(Insert(cfg, next, v, s, op))
  {
    if op.AddJobs? {
      AddJobsGauges(cfg, v, s, op.bulk, op.requests, op.ids, op.traces, op.now);
    } else if op.AddFlows? {
      AddFlowsGauges(cfg, v, s, op.bulk, op.flows, op.supplies, op.now, false);
    } else if op.AddFlowMerge? {
      MergeGauges(cfg, v, s, op.flow, op.supply, op.now);
    } else if Timers.Fire(cfg, next, s, op.scheduler, s.schedulers[op.scheduler], op.job, op.trace, op.now).Some? {
      FireGauges(cfg, v, next, s, op.scheduler, s.schedulers[op.scheduler], op.job, op.trace, op.now);
    }
  }

  lemma WorkGauges(cfg: Config, v: View, s: Store, op: Op)
    requires Lawful(cfg, v, false) && Shows(v, s) && Legal(v, s, op) && Works(op) && GaugeLaw(s)
    ensures GaugeLaw(Work(cfg, s, op)) <==> SparesGauges(s, op)
  {
    if op.Poll? {
      PollKeepsGauges(cfg, s, op.poll, op.now, op.now2);
    } else if op.Heartbeat? {
      HeartbeatKeepsGauges(cfg, s, op.beat, op.now);
    } else if op.FinishJob? {
      KeysConserved(v);
      FinishExactIff(s, op.finish, op.now, op.rand);
    } else if op.Recover? {
      RecoverGauges(v, s, op.batch, op.now);
    } else {
      SweepKeepsGauges(op.policy, s, op.picks, op.now);
    }
  }

  lemma SetGauges(s: Store, op: Op)
    requires GaugeLaw(s) && !Inserts(op) && !Works(op)
    ensures GaugeLaw(Set(s, op))
  {
    SetTables(s, op);
    if op.Restart? { Telemetry.SeedIsExact(s.jobs, s.history); }
  }

  /** From exact gauges, a step leads to exact gauges if and only if it takes no ancestor that was not parked. */
  lemma StepGauges(cfg: Config, next: Timers.Cron, v: View, s: Store, op: Op)
    requires Lawful(cfg, v, false) && Shows(v, s) && Legal(v, s, op) && GaugeLaw(s)
    ensures GaugeLaw(Apply(cfg, next, v, s, op)) <==> SparesGauges(s, op)
  {
    if Inserts(op) {
      InsertGauges(cfg, next, v, s, op);
    } else if Works(op) {
      WorkGauges(cfg, v, s, op);
    } else {
      SetGauges(s, op);
    }
  }

  // ---- Every step keeps the books ----

  lemma InsertBooks(cfg: Config, next: Timers.Cron, v: View, s: Store, b: Books, op: Op, timely: bool)
    requires Kept(cfg, next, s, b, timely) && (timely ==> OnTime(s, b, op.now)) && Legal(v, s, op) && Inserts(op)
    requires b.issued.Keys <= v.born.Keys
    ensures Kept(cfg, next, Insert(cfg, next, v, s, op), NoteInsert(cfg, next, v, s, b, op), timely)
  {
    if op.AddJobs? {
      AddJobsKeepsBooks(cfg, next, s, b, op.bulk, op.requests, op.ids, op.traces, op.now, timely);
    } else if op.AddFlows? {
      AddFlowsKeepsBooks(cfg, next, s, b, op.bulk, op.flows, op.supplies, op.now, timely);
    } else if op.AddFlowMerge? {
      MergeKeepsBooks(cfg, next, s, b, op.flow, op.supply, op.now, timely);
    } else if Timers.Fire(cfg, next, s, op.scheduler, s.schedulers[op.scheduler], op.job, op.trace, op.now).Some? {
      FireKeepsBooks(cfg, next, s, b, op.scheduler, op.job, op.trace, op.selectedAt, op.now, timely);
    } else {
      Untouched(cfg, next, s, b, s, b.issued, op.now, timely);
    }
  }

  lemma WorkBooks(cfg: Config, next: Timers.Cron, v: View, s: Store, b: Books, op: Op, timely: bool)
    requires Kept(cfg, next, s, b, timely) && (timely ==> OnTime(s, b, op.now)) && Legal(v, s, op) && Works(op)
    ensures Kept(cfg, next, Work(cfg, s, op), NoteWork(cfg, s, b, op), timely)
  {
    if op.Poll? {
      PollKeepsBooks(cfg, next, s, b, op.poll, op.now, op.now2, timely);
    } else if op.Heartbeat? {
      HeartbeatKeepsBooks(cfg, next, s, b, op.beat, op.now, timely);
    } else if op.FinishJob? {
      FinishKeepsBooks(cfg, next, s, b, op.finish, op.now, op.rand, timely);
    } else if op.Recover? {
      RecoverKeepsBooks(cfg, next, s, b, op.batch, op.now, timely);
    } else {
      SweepKeepsBooks(cfg, next, op.policy, s, b, op.picks, op.now, timely);
    }
  }

  lemma SetBooks(cfg: Config, next: Timers.Cron, s: Store, b: Books, op: Op, timely: bool)
    requires Kept(cfg, next, s, b, timely) && (timely ==> OnTime(s, b, op.now)) && !Inserts(op) && !Works(op)
    ensures Kept(cfg, next, Set(s, op), NoteSet(s, b, op), timely)
  {
    match op
    case UpsertRate(r, now) => RateUpsertBooks(cfg, next, s, b, r, now, timely);
    case DeleteRate(f, now) => RateDeleteBooks(cfg, next, s, b, f, now, timely);
    case UpsertIngress(r, now) => IngressUpsertBooks(cfg, next, s, b, r, now, timely);
    case DeleteIngress(f, now) => IngressDeleteBooks(cfg, next, s, b, f, now, timely);
    case UpsertScheduler(id, spec, now) => SchedulerUpsertBooks(cfg, next, s, b, id, spec, now, timely);
    case DeleteScheduler(id, now) => SchedulerDeleteBooks(cfg, next, s, b, id, now, timely);
    case Restart(now) => RestartBooks(cfg, next, s, b, now, timely);
  }

  lemma StepBooks(cfg: Config, next: Timers.Cron, v: View, s: Store, b: Books, op: Op, timely: bool)
    requires Kept(cfg, next, s, b, timely) && (timely ==> OnTime(s, b, op.now)) && Legal(v, s, op)
    requires b.issued.Keys <= v.born.Keys
    ensures Kept(cfg, next, Apply(cfg, next, v, s, op), Note(cfg, next, v, s, b, op), timely)
  {
    if Inserts(op) {
      InsertBooks(cfg, next, v, s, b, op, timely);
    } else if Works(op) {
      WorkBooks(cfg, next, v, s, b, op, timely);
    } else {
      SetBooks(cfg, next, s, b, op, timely);
    }
  }

  lemma InsertIssues(cfg: Config, next: Timers.Cron, v: View, s: Store, b: Books, op: Op)
    requires Legal(v, s, op) && Inserts(op)
    ensures NoteInsert(cfg, next, v, s, b, op).issued.Keys <= b.issued.Keys + Insert(cfg, next, v, s, op).jobs.Keys
  {
    if op.AddJobs? {
      AddJobsIssues(cfg, s, b, op.bulk, op.requests, op.ids, op.traces, op.now);
    } else if op.AddFlows? {
      AddFlowsIssues(cfg, s, b, op.bulk, op.flows, op.supplies, op.now);
    } else if op.AddFlowMerge? {
      MergeIssuesStored(cfg, s, b, op.flow, op.supply, op.now);
    }
  }

  lemma OthersIssueNothing(cfg: Config, s: Store, b: Books, op: Op)
    requires !Inserts(op)
    ensures (if Works(op) then NoteWork(cfg, s, b, op) else NoteSet(s, b, op)).issued == b.issued
  {
  }

  lemma StepIssues(cfg: Config, next: Timers.Cron, v: View, s: Store, b: Books, op: Op)
    requires Legal(v, s, op)
    ensures Note(cfg, next, v, s, b, op).issued.Keys <= b.issued.Keys + Apply(cfg, next, v, s, op).jobs.Keys
  {
    if Inserts(op) { InsertIssues(cfg, next, v, s, b, op); } else { OthersIssueNothing(cfg, s, b, op); }
  }

  // ---- Every reachable world ----

  /** Everything proved about a reachable world. */
  ghost predicate Sound(cfg: Config, next: Timers.Cron, w: World, strict: bool, timely: bool) {
    && Shows(w.view, w.db)
    && Lawful(cfg, w.view, strict)
    && Kept(cfg, next, w.db, w.books, timely)
    && w.books.issued.Keys <= w.view.born.Keys
  }

  lemma GenesisIsSound(cfg: Config, next: Timers.Cron)
    ensures Sound(cfg, next, GENESIS, true, true)
  {
    NothingIsLawful(cfg);
    BlankIsKept(cfg, next);
  }

  lemma GenesisIsExact()
    ensures GaugeLaw(GENESIS.db)
  {
    Telemetry.SeedIsExact(map[], map[]);
    forall s: State ensures Telemetry.InState(map[], s) == {} {}
    forall o: Outcome ensures Telemetry.WithOutcome(map[], o) == {} {}
    assert Telemetry.Seed(map[], map[]) == NO_GAUGES;
  }

  /** Any call or pass takes a sound world to a sound world. */
  lemma StepIsSound(cfg: Config, next: Timers.Cron, w: World, op: Op, strict: bool, timely: bool)
    requires Sound(cfg, next, w, strict, timely) && Can(w, op)
    requires strict ==> OnlyFlowLinks(w.view, Step(cfg, next, w, op).db.jobs)
    requires timely ==> OnTime(w.db, w.books, op.now)
    ensures Sound(cfg, next, Step(cfg, next, w, op), strict, timely)
  {
    StepLawful(cfg, next, w.view, w.db, op, strict);
    StepBooks(cfg, next, w.view, w.db, w.books, op, timely);
    StepIssues(cfg, next, w.view, w.db, w.books, op);
  }

  lemma FollowsIsSound(cfg: Config, next: Timers.Cron, w: World, op: Op, w': World, strict: bool, timely: bool)
    requires Sound(cfg, next, w, strict, timely) && Follows(cfg, next, w, op, w')
    requires strict ==> OnlyFlowLinks(w.view, w'.db.jobs)
    requires timely ==> OnTime(w.db, w.books, op.now)
    ensures Sound(cfg, next, w', strict, timely)
  {
    StepIsSound(cfg, next, w, op, strict, timely);
  }

  /** One step of a run takes a sound world to a sound world. */
  lemma RunStepIsSound(cfg: Config, next: Timers.Cron, ws: seq<World>, ops: seq<Op>, i: nat, strict: bool, timely: bool)
    requires Run(cfg, next, ws, ops) && i < |ops| && Sound(cfg, next, ws[i], strict, timely)
    requires strict ==> OnlyFlowLinks(ws[i].view, ws[i + 1].db.jobs)
    requires timely ==> OnTime(ws[i].db, ws[i].books, ops[i].now)
    ensures Sound(cfg, next, ws[i + 1], strict, timely)
  {
    FollowsIsSound(cfg, next, ws[i], ops[i], ws[i + 1], strict, timely);
  }

  /**
    Every world of every run is sound: strictly so if only flows ever link to live parents, and with
    the laws about time if the clock never goes back.
   */
  lemma {:induction false} RunIsSound(cfg: Config, next: Timers.Cron, ws: seq<World>, ops: seq<Op>, n: nat,
                                      strict: bool, timely: bool)
    requires Run(cfg, next, ws, ops) && n < |ws|
    requires (strict ==> OnlyFlowsLinkToLive(ws)) && (timely ==> Timely(ws, ops))
    ensures Sound(cfg, next, ws[n], strict, timely)
  {
    if n == 0 {
      GenesisIsSound(cfg, next);
    } else {
      var i := n - 1;
      RunIsSound(cfg, next, ws, ops, i, strict, timely);
      assert strict ==> OnlyFlowLinks(ws[i].view, ws[i + 1].db.jobs);
      RunStepIsSound(cfg, next, ws, ops, i, strict, timely);
    }
  }
}
