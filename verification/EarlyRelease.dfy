/**
  Why the gate and the gauges need their hypothesis: a run in which AddJob names
  a live flow parent.  Completing that child opens the parent's gate although
  the parent's own flow child is still waiting, and a later failure of the flow
  child then takes an ancestor that is not parked.
 */
module EarlyRelease {
  import opened Tables
  import opened Lifecycle
  import opened LifecycleLaws
  import opened Flatten
  import opened FlowLaws
  import opened World
  import opened GaugeLaws
  import Dispatch
  import Enqueue
  import EnqueueLaws
  import Finish
  import Flow
  import Gate
  import Laws
  import Promises
  import Timers = Scheduler

  const CFG := Config(5, 0, false, 1000, 5, 10, 5)

  const PARENT := Body("parent", [], 0, 1, 0, "", 0, 1, 0.0, "", false)
  const CHILD := Body("child", [], 0, 1, 0, "", 0, 1, 0.0, "", true)
  const LEAF := FlowJob(CHILD, [])
  const TREE := FlowJob(PARENT, [LEAF])
  const EXTRA := AddJobRequest("extra", [], 0, Metadata("p", "", 0), 1, 0, "", 0, 1, "", 0.0, false)

  const P := Job(Card("parent", 0, [], None, "p", 0, 1, 0, None), Retry(0, 1, 0.0), WaitingChildren, 0, 0, None, None,
                 None, 1, false, Some("p"), 0)
  const C := Job(Card("child", 0, [], Some("p"), "p", 1, 1, 0, None), Retry(0, 1, 0.0), Waiting, 0, 0, None, None, None,
                 0, true, Some("p"), 1)
  const E := Job(Card("extra", 0, [], Some("p"), "p", 1, 1, 0, None), Retry(0, 1, 0.0), Waiting, 0, 0, None, None, None,
                 0, false, None, 0)

  const CREATE := AddFlows(false, [TREE], [["p", "c"]], 0)
  const HANG_ON := AddJobs(false, [EXTRA], ["e"], ["t"], 0)
  const COMPLETE_EXTRA := FinishJob(Finish.FinishRequest("e", "w", 1, None, false, None), 0, 0.0)
  const FAIL_CHILD := FinishJob(Finish.FinishRequest("c", "w", 1, Some("no"), false, None), 0, 0.0)

  function Held1(j: Job): Job {
    j.(state := Active, attempts := 1, worker := Some("w"), lease := Some(1000))
  }

  // ---- The steps ----

  lemma LeafIsFine()
    ensures Size(LEAF) == 1 && Height(LEAF) == 0 && Slots(LEAF) == [] && TreeOk(LEAF)
  {
    assert SizeAll([]) == 0 && SlotsAll([]) == [] && ForestOk([]);
  }

  lemma LeavesAreFine()
    ensures SizeAll([LEAF]) == 1 && HeightAll([LEAF]) == 0 && SlotsAll([LEAF]) == [] && ForestOk([LEAF])
  {
    LeafIsFine();
    Split([LEAF]);
    assert [LEAF][1..] == [] && [LEAF][0] == LEAF;
  }

  lemma TreeIsFine()
    ensures Size(TREE) == 2 && Height(TREE) == 1 && Slots(TREE) == [] && TreeOk(TREE)
  {
    LeavesAreFine();
    assert TREE.children == [LEAF];
  }

  lemma FlatTree()
    requires Size(TREE) == 2
    ensures Flat(TREE, None, 0, ["p", "c"], 0) ==
            [Prepared("p", None, PARENT, 0, 1, WaitingChildren), Prepared("c", Some("p"), CHILD, 1, 0, Waiting)]
  {
    LeafIsFine();
    LeavesAreFine();
    var supply: seq<Id> := ["p", "c"];
    SplitFlat([LEAF], Some("p"), 1, supply, 1);
    assert [LEAF][1..] == [] && [LEAF][0] == LEAF;
    assert FlatAll([LEAF][1..], Some("p"), 1, supply, 2) == [];
    assert FlatAll(LEAF.children, Some("c"), 2, supply, 2) == [];
    assert Flat(LEAF, Some("p"), 1, supply, 1) == [RowOf(LEAF, Some("p"), 1, "c")];
    assert TREE.children == [LEAF];
  }

  lemma PreparedTree()
    ensures Flow.AcceptableTrees(CFG, [TREE], {})
    ensures Size(TREE) == 2
    ensures Flat(TREE, None, 0, ["p", "c"], 0) ==
            [Prepared("p", None, PARENT, 0, 1, WaitingChildren), Prepared("c", Some("p"), CHILD, 1, 0, Waiting)]
  {
    TreeIsFine();
    FlatTree();
    assert Acceptable(TREE, 0, CFG.maxFlowNodes, CFG.maxFlowDepth, {});
    var flows := [TREE];
    assert flows[0] == TREE && flows[1..] == [];
    assert Flow.AcceptableTrees(CFG, flows[1..], {} + SlotSet(Slots(flows[0])));
  }

  lemma EnoughIds()
    requires Size(TREE) == 2
    ensures Flow.Supplied([TREE], [["p", "c"]])
  {
    var flows: seq<FlowJob>, supplies: seq<seq<Id>> := [TREE], [["p", "c"]];
    assert |flows| == 1 && |supplies| == 1 && |supplies[0]| == 2;
    forall i | 0 <= i < |flows| ensures Size(flows[i]) <= |supplies[i]| {
      assert i == 0;
    }
    assert Flow.Supplied(flows, supplies);
  }

  lemma StoredTree(s: Store)
    requires s.jobs == map[] && s.receipts == map[]
    ensures var rows := [Prepared("p", None, PARENT, 0, 1, WaitingChildren),
                         Prepared("c", Some("p"), CHILD, 1, 0, Waiting)];
            && Flow.FirstOffence(s.receipts, rows, 0).None?
            && Flow.RowMap(rows, "p", 0, 0) == map["p" := P, "c" := C]
  {
    var rows := [Prepared("p", None, PARENT, 0, 1, WaitingChildren), Prepared("c", Some("p"), CHILD, 1, 0, Waiting)];
    assert rows[..1] == [rows[0]] && rows[..1][..0] == [];
    assert Flow.RowMap(rows[..1], "p", 0, 0) == map["p" := P];
    assert Flow.FirstOffence(s.receipts, rows[..1], 0).None?;
  }

  lemma AfterCreate(s: Store)
    requires s.jobs == map[] && s.receipts == map[]
    ensures Size(TREE) == 2 && Flow.Supplied([TREE], [["p", "c"]])
    ensures var t := Flow.AddFlows(CFG, s, false, [TREE], [["p", "c"]], 0).0;
            t.jobs == map["p" := P, "c" := C] && t.history == s.history && t.rateRules == s.rateRules
  {
    PreparedTree();
    EnoughIds();
    StoredTree(s);
    var rows := Flat(TREE, None, 0, ["p", "c"], 0);
    assert [TREE][0] == TREE && [TREE][1..] == [] && [["p", "c"]][0] == ["p", "c"] && [["p", "c"]][1..] == [];
    assert Flow.InsertTree(s, rows, 0) == Ok(Flow.Insert(s, rows, "p", 0, 0));
    var t := Flow.Insert(s, rows, "p", 0, 0);
    assert Flow.InsertTrees(s, [TREE], [["p", "c"]], 0) == Flow.InsertTrees(t, [], [], 0);
    assert t.jobs == map[] + map["p" := P, "c" := C];
  }

  lemma AfterHangOn(s: Store)
    requires s.jobs == map["p" := P, "c" := C]
    ensures var t := Enqueue.AddJobs(CFG, s, false, [EXTRA], ["e"], ["t"], 0).0;
            t.jobs == s.jobs["e" := E] && t.history == s.history && t.rateRules == s.rateRules
  {
    EnqueueLaws.AddJobUnfolds(CFG, s, EXTRA, "e", "t", 0);
    assert Enqueue.Validate(CFG, EXTRA) == Ok(EXTRA);
    assert Enqueue.Trace(s.jobs, s.history, EXTRA, "t") == Enqueue.Placed(1, "p");
  }

  lemma NotBlank(x: string)
    requires |x| == 1 && !IsSpace(x[0])
    ensures !Blank(x)
  {
    assert !IsSpace(x[0]);
  }

  /** A poll for the one name that only `id` carries claims `id`. */
  lemma AfterPoll(s: Store, name: string, id: Id)
    requires s.rateRules == map[] && id in s.jobs && s.jobs[id].card.name == name && name != "" && !Blank(name)
    requires s.jobs[id].state.Waiting? && s.jobs[id].availableAt == 0 && s.jobs[id].attempts == 0
    requires forall x | x in s.jobs && s.jobs[x].card.name == name :: x == id
    ensures Dispatch.Poll(CFG, s, Dispatch.PollRequest("w", [name]), 0, 0).0.jobs == s.jobs[id := Held1(s.jobs[id])]
    ensures Dispatch.Poll(CFG, s, Dispatch.PollRequest("w", [name]), 0, 0).0.history == s.history
    ensures Dispatch.Poll(CFG, s, Dispatch.PollRequest("w", [name]), 0, 0).0.rateRules == s.rateRules
  {
    NotBlank("w");
    var r := Dispatch.PollRequest("w", [name]);
    assert Dispatch.Eligible(s, r.names, 0, id);
    Dispatch.EmptyPollMeansNothingEligible(CFG, s, r.names, 0);
    Dispatch.PickIsBest(CFG, s, r.names, 0, id);
    assert !Dispatch.BadPoll(r);
  }

  /** Completing the extra child opens the parent's gate, with the flow child untouched. */
  lemma AfterComplete(s: Store)
    requires s.jobs == map["p" := P, "c" := C, "e" := Held1(E)]
    ensures var t := Finish.FinishJob(s, COMPLETE_EXTRA.finish, 0, 0.0).0;
            t.jobs == map["p" := P.(pending := 0, state := Waiting), "c" := C] && t.rateRules == s.rateRules
  {
    NotBlank("w");
    NotBlank("e");
    var r := COMPLETE_EXTRA.finish;
    assert Finish.Judge(s, r, 0).Accepted?;
    assert s.jobs - {"e"} == map["p" := P, "c" := C];
  }

  // ---- The run ----

  lemma FreshPair()
    ensures Laws.FreshSupplies(NOTHING, [["p", "c"]])
  {
    assert Fresh(NOTHING, ["p", "c"]);
    assert forall i | 0 <= i < |[["p", "c"]]| :: [["p", "c"]][i] == ["p", "c"];
  }

  lemma Create(next: Timers.Cron) returns (op: Op, w: World)
    ensures Follows(CFG, next, GENESIS, op, w)
    ensures w.db.jobs == map["p" := P, "c" := C] && w.db.rateRules == map[] && w.view.born == map["p" := P, "c" := C]
  {
    AfterCreate(EMPTY);
    FreshPair();
    op := CREATE;
    w := Step(CFG, next, GENESIS, CREATE);
    assert w.view.born == map["p" := P, "c" := C] + map[];
  }

  lemma HangOn(next: Timers.Cron, v: World) returns (op: Op, w: World)
    requires v.db.jobs == map["p" := P, "c" := C] && v.db.rateRules == map[] && v.view.born.Keys == {"p", "c"}
    ensures Follows(CFG, next, v, op, w)
    ensures w.db.jobs == map["p" := P, "c" := C, "e" := E] && w.db.rateRules == map[]
  {
    AfterHangOn(v.db);
    op := HANG_ON;
    w := Step(CFG, next, v, HANG_ON);
  }

  lemma Claim(next: Timers.Cron, v: World, name: string, id: Id) returns (op: Op, w: World)
    requires v.db.rateRules == map[] && id in v.db.jobs && v.db.jobs[id].card.name == name && name != "" && !Blank(name)
    requires v.db.jobs[id].state.Waiting? && v.db.jobs[id].availableAt == 0 && v.db.jobs[id].attempts == 0
    requires forall x | x in v.db.jobs && v.db.jobs[x].card.name == name :: x == id
    ensures Follows(CFG, next, v, op, w)
    ensures w.db.jobs == v.db.jobs[id := Held1(v.db.jobs[id])] && w.db.rateRules == map[]
  {
    AfterPoll(v.db, name, id);
    op := Poll(Dispatch.PollRequest("w", [name]), 0, 0);
    w := Step(CFG, next, v, op);
  }

  lemma CompleteExtra(next: Timers.Cron, v: World) returns (op: Op, w: World)
    requires v.db.jobs == map["p" := P, "c" := C, "e" := Held1(E)] && v.db.rateRules == map[]
    ensures Follows(CFG, next, v, op, w)
    ensures w.db.jobs == map["p" := P.(pending := 0, state := Waiting), "c" := C] && w.db.rateRules == map[]
  {
    AfterComplete(v.db);
    op := COMPLETE_EXTRA;
    w := Step(CFG, next, v, COMPLETE_EXTRA);
  }

  lemma FailChild(next: Timers.Cron, v: World) returns (op: Op, w: World)
    ensures Follows(CFG, next, v, op, w) && w.db == Finish.FinishJob(v.db, FAIL_CHILD.finish, 0, 0.0).0
  {
    op := FAIL_CHILD;
    w := Step(CFG, next, v, FAIL_CHILD);
  }

  /** The flow is created. */
  lemma Run1(next: Timers.Cron) returns (ws: seq<World>, ops: seq<Op>)
    ensures Run(CFG, next, ws, ops) && |ops| == 1
    ensures ws[1].db.jobs == map["p" := P, "c" := C] && ws[1].db.rateRules == map[]
    ensures ws[1].view.born == map["p" := P, "c" := C]
  {
    var op, w := Create(next);
    RunExtends(CFG, next, [GENESIS], [], op, w);
    ws, ops := [GENESIS] + [w], [] + [op];
  }

  /** A job is added with the flow's root for a parent. */
  lemma Run2(next: Timers.Cron) returns (ws: seq<World>, ops: seq<Op>)
    ensures Run(CFG, next, ws, ops) && |ops| == 2 && ws[1].view.born == map["p" := P, "c" := C]
    ensures ws[2].db.jobs == map["p" := P, "c" := C, "e" := E] && ws[2].db.rateRules == map[]
  {
    var ws1, ops1 := Run1(next);
    var op, w := HangOn(next, ws1[1]);
    RunExtends(CFG, next, ws1, ops1, op, w);
    ws, ops := ws1 + [w], ops1 + [op];
  }

  lemma ClaimE(next: Timers.Cron, v: World) returns (op: Op, w: World)
    requires v.db.jobs == map["p" := P, "c" := C, "e" := E] && v.db.rateRules == map[]
    ensures Follows(CFG, next, v, op, w)
    ensures w.db.jobs == map["p" := P, "c" := C, "e" := Held1(E)] && w.db.rateRules == map[]
  {
    assert !IsSpace("extra"[0]);
    op, w := Claim(next, v, "extra", "e");
  }

  /** A worker claims it, and its completion opens the root's gate. */
  lemma Run4(next: Timers.Cron) returns (ws: seq<World>, ops: seq<Op>)
    ensures Run(CFG, next, ws, ops) && |ops| == 4 && ws[1].view.born == map["p" := P, "c" := C]
    ensures ws[4].db.jobs == map["p" := P.(pending := 0, state := Waiting), "c" := C] && ws[4].db.rateRules == map[]
  {
    var ws2, ops2 := Run2(next);
    var op3, w3 := ClaimE(next, ws2[2]);
    RunExtends(CFG, next, ws2, ops2, op3, w3);
    var op4, w4 := CompleteExtra(next, w3);
    RunExtends(CFG, next, ws2 + [w3], ops2 + [op3], op4, w4);
    ws, ops := ws2 + [w3] + [w4], ops2 + [op3] + [op4];
  }

  /** The root is ready to run while a job placed beneath it has not been completed. */
  lemma GateCanOpenEarly(next: Timers.Cron) returns (ws: seq<World>, ops: seq<Op>, n: nat, p: Id, c: Id)
    ensures Run(CFG, next, ws, ops) && n < |ws|
    ensures p in ws[n].db.jobs && ws[n].db.jobs[p].state.Waiting?
    ensures c in FlowKids(ws[n].view.born, p) && !Gate.IsCompleted(ws[n].view, c)
  {
    ws, ops := Run4(next);
    n, p, c := 4, "p", "c";
    RunIsSound(CFG, next, ws, ops, 4, false, false);
    Promises.RunIsChronicle(CFG, next, ws, ops);
    Promises.RecordsStay(ws, 1, 4, "c");
    StillOpen(ws[4].view);
  }

  lemma StillOpen(v: View)
    requires Conserved(v) && "c" in v.jobs && "c" in v.born && v.born["c"] == C
    ensures "c" in FlowKids(v.born, "p") && !Gate.IsCompleted(v, "c")
  {
    assert Accounted(v, "c");
  }

  lemma ClaimC(next: Timers.Cron, v: World) returns (op: Op, w: World)
    requires v.db.jobs == map["p" := P.(pending := 0, state := Waiting), "c" := C] && v.db.rateRules == map[]
    ensures Follows(CFG, next, v, op, w)
    ensures w.db.jobs == map["p" := P.(pending := 0, state := Waiting), "c" := Held1(C)]
  {
    assert !IsSpace("child"[0]);
    op, w := Claim(next, v, "child", "c");
  }

  /** The flow child is claimed and fails. */
  lemma Run6(next: Timers.Cron) returns (ws: seq<World>, ops: seq<Op>)
    ensures Run(CFG, next, ws, ops) && |ops| == 6
    ensures ws[5].db.jobs == map["p" := P.(pending := 0, state := Waiting), "c" := Held1(C)]
    ensures ws[6].db == Finish.FinishJob(ws[5].db, FAIL_CHILD.finish, 0, 0.0).0
  {
    var ws4, ops4 := Run4(next);
    var op5, w5 := ClaimC(next, ws4[4]);
    RunExtends(CFG, next, ws4, ops4, op5, w5);
    var op6, w6 := FailChild(next, w5);
    RunExtends(CFG, next, ws4 + [w5], ops4 + [op5], op6, w6);
    ws, ops := ws4 + [w5] + [w6], ops4 + [op5] + [op6];
  }

  /** The failure takes the root, which is not parked. */
  lemma FailureTakesRoot(s: Store)
    requires s.jobs == map["p" := P.(pending := 0, state := Waiting), "c" := Held1(C)]
    ensures Finish.FinishJob(s, FAIL_CHILD.finish, 0, 0.0).0 == Finish.Fail(s, FAIL_CHILD.finish, 0)
    ensures !AllParkedVictims(s, FAIL_CHILD.finish)
  {
    NotBlank("w");
    NotBlank("c");
    var r := FAIL_CHILD.finish;
    assert Finish.Judge(s, r, 0).Accepted?;
    var rest := s.jobs - {"c"};
    assert rest == map["p" := P.(pending := 0, state := Waiting)];
    assert "p" in Finish.Doomed(rest, "p");
    assert "p" in Victims(s, r);
  }

  /** In this run some gauge does not equal its row count. */
  lemma GaugesCanDrift(next: Timers.Cron) returns (ws: seq<World>, ops: seq<Op>, n: nat)
    ensures Run(CFG, next, ws, ops) && n < |ws| && !GaugeLaw(ws[n].db)
  {
    ws, ops := Run6(next);
    RunIsSound(CFG, next, ws, ops, 5, false, false);
    KeysConserved(ws[5].view);
    FailureTakesRoot(ws[5].db);
    n := if GaugeLaw(ws[5].db) then 6 else 5;
    if n == 6 { CascadeExactIff(ws[5].db, FAIL_CHILD.finish, 0); }
  }
}
