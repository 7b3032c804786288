/**
  From the client that adds a job to the worker that is handed it: jobs of
  AddJob, of flows and of schedulers are admitted as they were asked for, and
  every later poll that hands one out hands out just that.
 */
module Deliveries {
  import opened Tables
  import opened Lifecycle
  import opened LifecycleLaws
  import opened Laws
  import opened World
  import opened DeliveryRuns
  import opened Promises
  import AdmittedRows
  import Dispatch
  import Enqueue
  import FiredRows
  import Flatten
  import FlattenLaws
  import Flow
  import FlowCalls
  import FlowLaws
  import FlowRows
  import MergeCalls
  import ReceiptLaws
  import Timers = Scheduler

  // ---- Jobs of AddJob ----

  lemma FollowsAddJobs(cfg: Config, next: Timers.Cron, w: World, op: Op, w': World)
    requires Follows(cfg, next, w, op, w') && op.AddJobs?
    ensures |op.ids| == |op.traces| == |op.requests| && FlowLaws.Fresh(w.view, op.ids)
    ensures w'.db == Enqueue.AddJobs(cfg, w.db, op.bulk, op.requests, op.ids, op.traces, op.now).0
    ensures w'.view == Watch(w.view, w'.db.jobs, w'.db.history)
  {
  }

  /** The step admitted its `k`-th request as a new job. */
  predicate Adds(cfg: Config, w: World, op: Op, k: nat) {
    && op.AddJobs? && |op.ids| == |op.traces| == |op.requests| && k < |op.requests|
    && var reply := Enqueue.AddJobs(cfg, w.db, op.bulk, op.requests, op.ids, op.traces, op.now).1;
    reply.Ok? && |reply.value| == |op.requests| && !reply.value[k].replayed
  }

  lemma NewIsBorn(v: View, jobs': Jobs, history': History, id: Id)
    requires id !in v.born && id in jobs'
    ensures var v' := Watch(v, jobs', history'); id in v'.born && v'.born[id] == jobs'[id]
  {
  }

  lemma FreshIsFree(v: View, s: Store, ids: seq<Id>)
    requires FlowLaws.Fresh(v, ids) && Conserved(v) && v.jobs == s.jobs
    ensures AdmittedRows.FreshIds(s, ids)
  {
    KeysConserved(v);
  }

  /** A request admitted in a run is on the observer's books as it was asked. */
  lemma AddedAsAsked(cfg: Config, next: Timers.Cron, ws: seq<World>, ops: seq<Op>, i: nat, k: nat)
    requires Run(cfg, next, ws, ops) && i < |ops| && Adds(cfg, ws[i], ops[i], k)
    ensures var id, born := ops[i].ids[k], ws[i + 1].view.born;
            id in born && AdmittedRows.AsAsked(born[id], ops[i].requests[k], ops[i].now)
  {
    RunIsSound(cfg, next, ws, ops, i, false, false);
    FollowsAddJobs(cfg, next, ws[i], ops[i], ws[i + 1]);
    FreshIsFree(ws[i].view, ws[i].db, ops[i].ids);
    AdmittedRows.CallServed(cfg, ws[i].db, ops[i].bulk, ops[i].requests, ops[i].ids, ops[i].traces, ops[i].now, k);
    NewIsBorn(ws[i].view, ws[i + 1].db.jobs, ws[i + 1].db.history, ops[i].ids[k]);
  }

  lemma BornStays(cfg: Config, next: Timers.Cron, ws: seq<World>, ops: seq<Op>, i: nat, n: nat, id: Id)
    requires Run(cfg, next, ws, ops) && i <= n < |ws| && id in ws[i].view.born
    ensures id in ws[n].view.born && ws[n].view.born[id] == ws[i].view.born[id]
  {
    RunIsChronicle(cfg, next, ws, ops);
    RecordsStay(ws, i, n, id);
  }

  /**
    Any later poll that hands out the job of a request hands out the request's name, payload and parent, at most
    as often as it allows, the first time not before its delay has passed, and with a clock that never goes back
    never before.
   */
  lemma DeliveredAsAsked(cfg: Config, next: Timers.Cron, ws: seq<World>, ops: seq<Op>, i: nat, k: nat, n: nat,
                         g: Dispatch.Grant)
    requires Run(cfg, next, ws, ops) && i < n < |ops| && Adds(cfg, ws[i], ops[i], k)
    requires HandsOut(cfg, ws[n], ops[n], g) && g.id == ops[i].ids[k]
    ensures var r := ops[i].requests[k];
            && g.name == r.name && g.payload == r.payload && g.metadata.parentId == r.metadata.parentId
            && 1 <= g.attempts <= (if r.maxAttempts > 0 then r.maxAttempts else 3)
            && (g.attempts == 1 || Timely(ws, ops) ==> ops[i].now + r.delayMs <= ops[n].now)
  {
    AddedAsAsked(cfg, next, ws, ops, i, k);
    BornStays(cfg, next, ws, ops, i + 1, n, g.id);
    DeliveredAsAdmitted(cfg, next, ws, ops, n, g);
    if Timely(ws, ops) { NeverTooEarly(cfg, next, ws, ops, n, g); }
  }

  // ---- Jobs of flows ----

  /** In a run, no receipt names an id that was not given out yet. */
  lemma FreshIsUnnamed(s: Store, issued: ReceiptLaws.Issues, v: View, ids: set<Id>)
    requires ReceiptLaws.ReceiptLaw(s, issued) && issued.Keys <= v.born.Keys && ids !! v.born.Keys
    ensures FlowRows.Unnamed(s.receipts, ids)
  {
    forall slot | slot in s.receipts ensures s.receipts[slot].jobId !in ids {
      assert ReceiptLaws.Backed(s.receipts, s.jobs.Keys, issued, slot);
    }
  }

  lemma SupplyIsNew(v: View, supply: seq<Id>)
    requires FlowLaws.Fresh(v, supply)
    ensures FlowRows.IdSet(supply) !! v.born.Keys && FlattenLaws.Distinct(supply)
  {
  }

  lemma SuppliesAreNew(s: Store, issued: ReceiptLaws.Issues, v: View, supplies: seq<seq<Id>>)
    requires ReceiptLaws.ReceiptLaw(s, issued) && issued.Keys <= v.born.Keys && FreshSupplies(v, supplies)
    ensures FlowRows.NewIds(s.receipts, supplies)
  {
    forall k | 0 <= k < |supplies|
      ensures FlattenLaws.Distinct(supplies[k]) && FlowRows.Unnamed(s.receipts, FlowRows.IdSet(supplies[k])) {
      SupplyIsNew(v, supplies[k]);
      FreshIsUnnamed(s, issued, v, FlowRows.IdSet(supplies[k]));
    }
    forall i, k | 0 <= i < k < |supplies| ensures FlowRows.IdSet(supplies[i]) !! FlowRows.IdSet(supplies[k]) {
      assert forall x | x in FlowRows.IdSet(supplies[i]) :: x !in supplies[k];
    }
  }

  lemma FollowsAddFlows(cfg: Config, next: Timers.Cron, w: World, op: Op, w': World)
    requires Follows(cfg, next, w, op, w') && op.AddFlows?
    ensures Flow.Supplied(op.flows, op.supplies) && FreshSupplies(w.view, op.supplies)
    ensures w'.db == Flow.AddFlows(cfg, w.db, op.bulk, op.flows, op.supplies, op.now).0
    ensures w'.view == Watch(w.view, w'.db.jobs, w'.db.history)
  {
  }

  lemma FreshAt(v: View, supplies: seq<seq<Id>>, f: nat, i: nat)
    requires FreshSupplies(v, supplies) && f < |supplies| && i < |supplies[f]|
    ensures supplies[f][i] !in v.born
  {
    assert FlowLaws.Fresh(v, supplies[f]);
  }

  /** After a successful AddFlow step, every node is on the observer's books as it was sent, and the trees read back. */
  lemma FlowAddedAsSent(cfg: Config, next: Timers.Cron, ws: seq<World>, ops: seq<Op>, i: nat, f: nat, k: nat)
    requires Run(cfg, next, ws, ops) && i < |ops| && ops[i].AddFlows? && Flow.Supplied(ops[i].flows, ops[i].supplies)
    requires Flow.AddFlows(cfg, ws[i].db, ops[i].bulk, ops[i].flows, ops[i].supplies, ops[i].now).1.Ok?
    requires f < |ops[i].flows| && k < Flatten.Size(ops[i].flows[f])
    ensures var id, t, born := ops[i].supplies[f][k], ws[i + 1].db, ws[i + 1].view.born;
            && FlowCalls.NodeStored(t, FlowRows.Preorder(ops[i].flows[f])[k], id, ops[i].supplies[f][0], ops[i].now)
            && id in born && born[id] == t.jobs[id]
    ensures var t, ids := ws[i + 1].db, ops[i].supplies[f][..Flatten.Size(ops[i].flows[f])];
            && (forall x | 0 <= x < |ids| :: ids[x] in t.jobs)
            && FlattenLaws.TreeAt(FlowRows.ReadRows(t.jobs, t.receipts, ids, 0), 0) == Flatten.Normal(ops[i].flows[f])
  {
    RunIsSound(cfg, next, ws, ops, i, false, false);
    FollowsAddFlows(cfg, next, ws[i], ops[i], ws[i + 1]);
    SuppliesAreNew(ws[i].db, ws[i].books.issued, ws[i].view, ops[i].supplies);
    FlowCalls.FlowsAsSent(cfg, ws[i].db, ops[i].bulk, ops[i].flows, ops[i].supplies, ops[i].now, f, k);
    FlowCalls.FlowsReadBack(cfg, ws[i].db, ops[i].bulk, ops[i].flows, ops[i].supplies, ops[i].now, f);
    FreshAt(ws[i].view, ops[i].supplies, f, k);
    NewIsBorn(ws[i].view, ws[i + 1].db.jobs, ws[i + 1].db.history, ops[i].supplies[f][k]);
  }

  /** Any later poll that hands out the job of a node hands out the node's name and payload, and likewise not early. */
  lemma DeliveredAsSent(cfg: Config, next: Timers.Cron, ws: seq<World>, ops: seq<Op>, i: nat, f: nat, k: nat, n: nat,
                        g: Dispatch.Grant)
    requires Run(cfg, next, ws, ops) && i < n < |ops| && ops[i].AddFlows?
    requires Flow.Supplied(ops[i].flows, ops[i].supplies)
    requires Flow.AddFlows(cfg, ws[i].db, ops[i].bulk, ops[i].flows, ops[i].supplies, ops[i].now).1.Ok?
    requires f < |ops[i].flows| && k < Flatten.Size(ops[i].flows[f])
    requires HandsOut(cfg, ws[n], ops[n], g) && g.id == ops[i].supplies[f][k]
    ensures var b := FlowRows.Preorder(ops[i].flows[f])[k].body;
            && g.name == b.name && g.payload == b.payload
            && 1 <= g.attempts <= (if b.maxAttempts > 0 then b.maxAttempts else 3)
            && (g.attempts == 1 || Timely(ws, ops) ==> ops[i].now + b.delayMs <= ops[n].now)
  {
    FlowAddedAsSent(cfg, next, ws, ops, i, f, k);
    BornStays(cfg, next, ws, ops, i + 1, n, g.id);
    DeliveredAsAdmitted(cfg, next, ws, ops, n, g);
    if Timely(ws, ops) { NeverTooEarly(cfg, next, ws, ops, n, g); }
  }

  // ---- Jobs of merges and of schedulers ----

  lemma FollowsMerge(cfg: Config, next: Timers.Cron, w: World, op: Op, w': World)
    requires Follows(cfg, next, w, op, w') && op.AddFlowMerge?
    ensures Flatten.SizeAll(op.flow.children) <= |op.supply| && FlowLaws.Fresh(w.view, op.supply)
    ensures w'.db == Flow.AddFlowMerge(cfg, w.db, op.flow, op.supply, op.now).0
    ensures w'.view == Watch(w.view, w'.db.jobs, w'.db.history)
  {
  }

  /** After a successful merge step, every new node is on the observer's books as it was sent. */
  lemma MergeAddedAsSent(cfg: Config, next: Timers.Cron, ws: seq<World>, ops: seq<Op>, i: nat, k: nat)
    requires Run(cfg, next, ws, ops) && i < |ops| && ops[i].AddFlowMerge?
    requires k < Flatten.SizeAll(ops[i].flow.children) <= |ops[i].supply|
    requires Flow.AddFlowMerge(cfg, ws[i].db, ops[i].flow, ops[i].supply, ops[i].now).1.Ok?
    ensures var id, t, born := ops[i].supply[k], ws[i + 1].db, ws[i + 1].view.born;
            && id in t.jobs && t.jobs[id].treeId.Some?
            && FlowCalls.NodeStored(t, FlowRows.PreorderAll(ops[i].flow.children)[k], id, t.jobs[id].treeId.value,
                                    ops[i].now)
            && id in born && born[id] == t.jobs[id]
  {
    RunIsSound(cfg, next, ws, ops, i, false, false);
    FollowsMerge(cfg, next, ws[i], ops[i], ws[i + 1]);
    SupplyIsNew(ws[i].view, ops[i].supply);
    FreshIsUnnamed(ws[i].db, ws[i].books.issued, ws[i].view, FlowRows.IdSet(ops[i].supply));
    MergeCalls.MergeAsSent(cfg, ws[i].db, ops[i].flow, ops[i].supply, ops[i].now, k);
    NewIsBorn(ws[i].view, ws[i + 1].db.jobs, ws[i + 1].db.history, ops[i].supply[k]);
  }

  lemma FollowsFire(cfg: Config, next: Timers.Cron, w: World, op: Op, w': World)
    requires Follows(cfg, next, w, op, w') && op.Fire?
    ensures op.scheduler in w.db.schedulers && op.job !in w.view.born
    ensures w'.view == Watch(w.view, w'.db.jobs, w'.db.history)
    ensures var fired := Timers.Fire(cfg, next, w.db, op.scheduler, w.db.schedulers[op.scheduler], op.job, op.trace,
                                     op.now);
            w'.db == if fired.Some? then fired.value else w.db
  {
  }

  /** The job of a fire is on the observer's books as its scheduler says. */
  lemma FiredAsScheduled(cfg: Config, next: Timers.Cron, ws: seq<World>, ops: seq<Op>, i: nat)
    requires Run(cfg, next, ws, ops) && i < |ops| && ops[i].Fire? && ops[i].scheduler in ws[i].db.schedulers
    requires Timers.Fire(cfg, next, ws[i].db, ops[i].scheduler, ws[i].db.schedulers[ops[i].scheduler], ops[i].job,
                         ops[i].trace, ops[i].now).Some?
    ensures var born := ws[i + 1].view.born;
            && ops[i].job in born
            && FiredRows.AsScheduled(born[ops[i].job], ws[i].db.schedulers[ops[i].scheduler], ops[i].trace, ops[i].now)
  {
    FollowsFire(cfg, next, ws[i], ops[i], ws[i + 1]);
    var id := ops[i].scheduler;
    FiredRows.FireStores(cfg, next, ws[i].db, id, ws[i].db.schedulers[id], ops[i].job, ops[i].trace, ops[i].now);
    NewIsBorn(ws[i].view, ws[i + 1].db.jobs, ws[i + 1].db.history, ops[i].job);
  }
}
