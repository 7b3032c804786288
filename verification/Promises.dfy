/**
  What the broker promises about whole runs, read off the fact that every world
  of every run is sound.
 */
module Promises {
  import opened Tables
  import opened Lifecycle
  import opened LifecycleLaws
  import opened Gate
  import opened GateRuns
  import opened Forest
  import opened Laws
  import opened CallLaws
  import opened World
  import opened Books
  import opened HistoryRuns
  import Enqueue
  import Finish
  import opened GaugeLaws
  import Ingress
  import Leases
  import Limits
  import ReceiptLaws
  import Telemetry
  import Timers = Scheduler
  import Windows

  // ---- The dependency gate ----

  /** In every run, a live job's count is the flow children ever attached less the children completed. */
  lemma CountIsLedger(cfg: Config, next: Timers.Cron, ws: seq<World>, ops: seq<Op>, n: nat, p: Id)
    requires Run(cfg, next, ws, ops) && n < |ws| && p in ws[n].db.jobs
    ensures var v := ws[n].view;
            ws[n].db.jobs[p].pending == |FlowKids(v.born, p)| - |DoneKids(v.died, p)|
  {
    RunIsSound(cfg, next, ws, ops, n, false, false);
    assert Balanced(ws[n].view, p);
  }

  /** That is the number of its flow children still open exactly as long as only flow children of it have completed. */
  lemma CountIsExactIff(cfg: Config, next: Timers.Cron, ws: seq<World>, ops: seq<Op>, n: nat, p: Id)
    requires Run(cfg, next, ws, ops) && n < |ws| && p in ws[n].db.jobs
    ensures var v := ws[n].view;
            ws[n].db.jobs[p].pending == |FlowKids(v.born, p) - DoneKids(v.died, p)| <==>
            DoneKids(v.died, p) <= FlowKids(v.born, p)
  {
    RunIsSound(cfg, next, ws, ops, n, false, false);
    assert Balanced(ws[n].view, p);
    CountExactIff(ws[n].view, p);
  }

  /** In every run, a parked job has a flow child that is not completed. */
  lemma ParkedHasOpenChild(cfg: Config, next: Timers.Cron, ws: seq<World>, ops: seq<Op>, n: nat, p: Id)
    requires Run(cfg, next, ws, ops) && n < |ws| && IsParked(ws[n].db.jobs, p)
    ensures !(FlowKids(ws[n].view.born, p) <= DoneKids(ws[n].view.died, p))
  {
    RunIsSound(cfg, next, ws, ops, n, false, false);
    assert GatedId(ws[n].view, p);
  }

  /**
    A live job of which only flow children have completed is parked exactly while some flow child ever
    attached is not completed, and its count is the number of those.
   */
  lemma ParkedExactly(cfg: Config, next: Timers.Cron, ws: seq<World>, ops: seq<Op>, n: nat, p: Id)
    requires Run(cfg, next, ws, ops) && n < |ws| && p in ws[n].db.jobs
    requires DoneKids(ws[n].view.died, p) <= FlowKids(ws[n].view.born, p)
    ensures var v, j := ws[n].view, ws[n].db.jobs[p];
            && (j.state.WaitingChildren? <==> !(FlowKids(v.born, p) <= DoneKids(v.died, p)))
            && j.pending == |FlowKids(v.born, p) - DoneKids(v.died, p)|
  {
    RunIsSound(cfg, next, ws, ops, n, false, false);
    var v := ws[n].view;
    assert GatedId(v, p) && Outside(v, p) == {};
    FittingIsRight(v, p);
    CountMeaning(v, p);
  }

  // ---- Conservation ----

  /** Each step of the run, as the observer saw it. */
  ghost predicate Chronicle(ws: seq<World>) {
    forall i | 0 <= i < |ws| - 1 :: Noticed(ws[i], ws[i + 1])
  }

  ghost predicate Noticed(w: World, w': World) {
    w'.view == Watch(w.view, w'.db.jobs, w'.db.history) && AllFenced(w.view)
  }

  lemma StepNoticed(cfg: Config, next: Timers.Cron, ws: seq<World>, ops: seq<Op>, i: nat)
    requires Run(cfg, next, ws, ops) && i < |ops|
    ensures Noticed(ws[i], ws[i + 1])
  {
    RunIsSound(cfg, next, ws, ops, i, false, false);
    FollowsNoticed(cfg, next, ws[i], ops[i], ws[i + 1]);
  }

  lemma FollowsNoticed(cfg: Config, next: Timers.Cron, w: World, op: Op, w': World)
    requires Follows(cfg, next, w, op, w') && AllFenced(w.view)
    ensures Noticed(w, w')
  {
  }

  lemma RunIsChronicle(cfg: Config, next: Timers.Cron, ws: seq<World>, ops: seq<Op>)
    requires Run(cfg, next, ws, ops)
    ensures Chronicle(ws)
  {
    forall i | 0 <= i < |ws| - 1 ensures Noticed(ws[i], ws[i + 1]) { StepNoticed(cfg, next, ws, ops, i); }
  }

  /** A recorded end never changes, and neither does the row a job was born with. */
  lemma {:induction false} RecordsStay(ws: seq<World>, i: nat, n: nat, id: Id)
    requires Chronicle(ws) && i <= n < |ws|
    ensures id in ws[i].view.died ==> id in ws[n].view.died && ws[n].view.died[id] == ws[i].view.died[id]
    ensures id in ws[i].view.born ==> id in ws[n].view.born && ws[n].view.born[id] == ws[i].view.born[id]
  {
    if i < n {
      RecordsStay(ws, i, n - 1, id);
      assert Noticed(ws[n - 1], ws[n - 1 + 1]);
    }
  }

  /**
    An admitted id is in exactly one place: live, in history, or pruned from history.  It stays admitted, its
    recorded end never changes, and once ended it is never live again and once pruned never back in history.
   */
  lemma ExactlyOnePlace(cfg: Config, next: Timers.Cron, ws: seq<World>, ops: seq<Op>, i: nat, n: nat, id: Id)
    requires Run(cfg, next, ws, ops) && i <= n < |ws| && id in ws[i].view.born
    ensures var live, kept, pruned := id in ws[n].db.jobs, id in ws[n].db.history,
                                      id in ws[n].view.died && id !in ws[n].db.history;
            (live && !kept && !pruned) || (!live && kept && !pruned) || (!live && !kept && pruned)
    ensures id in ws[n].db.history ==> id in ws[n].view.died && ws[n].db.history[id] == ws[n].view.died[id]
    ensures id in ws[i].view.died ==> id in ws[n].view.died && ws[n].view.died[id] == ws[i].view.died[id]
    ensures id in ws[i].view.died ==> id !in ws[n].db.jobs
    ensures id in ws[i].view.died && id !in ws[i].db.history ==> id !in ws[n].db.history
    ensures id in ws[n].db.jobs ==> RowOk(ws[n].db.jobs[id])
  {
    RunIsChronicle(cfg, next, ws, ops);
    RecordsStay(ws, i, n, id);
    RunIsSound(cfg, next, ws, ops, n, false, false);
    assert Accounted(ws[n].view, id);
    if id in ws[i].view.died && id !in ws[i].db.history { PrunedForGood(cfg, next, ws, ops, i, n, id); }
  }

  // ---- When a gate opens early ----

  /**
    A completion takes the parked parent of the completed job out of its state exactly when the flow children
    that stay open are no more than the completed children from outside, both known before the call.
   */
  lemma OpensExactlyWhen(cfg: Config, next: Timers.Cron, ws: seq<World>, ops: seq<Op>, i: nat, p: Id)
    requires Run(cfg, next, ws, ops) && i < |ops| && ops[i].FinishJob?
    requires Finish.Judge(ws[i].db, ops[i].finish, ops[i].now).Accepted? && ops[i].finish.error.None?
    requires IsParked(ws[i].db.jobs, p) && ws[i].db.jobs[ops[i].finish.id].card.parent == Some(p)
    ensures var v, v', c := ws[i].view, ws[i + 1].view, ops[i].finish.id;
            && (IsParked(ws[i + 1].db.jobs, p) <==> |OpenAfter(v, c, p)| > |OutsideAfter(v, c, p)|)
            && OpenAfter(v, c, p) == FlowKids(v'.born, p) - DoneKids(v'.died, p)
            && OutsideAfter(v, c, p) == DoneKids(v'.died, p) - FlowKids(v'.born, p)
  {
    RunIsSound(cfg, next, ws, ops, i, false, false);
    FollowsFinish(cfg, next, ws[i], ops[i], ws[i + 1]);
    CompletionOpens(cfg, ws[i].view, ws[i].db, ops[i].finish, ops[i].now, ops[i].rand, p);
  }

  lemma FollowsFinish(cfg: Config, next: Timers.Cron, w: World, op: Op, w': World)
    requires Follows(cfg, next, w, op, w') && op.FinishJob?
    ensures w'.db == Finish.FinishJob(w.db, op.finish, op.now, op.rand).0
    ensures w'.view == Watch(w.view, w'.db.jobs, w'.db.history)
  {
  }

  lemma CompletionOpens(cfg: Config, v: View, s: Store, r: Finish.FinishRequest, now: int, rand: real, p: Id)
    requires Lawful(cfg, v, false) && Shows(v, s) && Finish.Judge(s, r, now).Accepted? && r.error.None?
    requires IsParked(s.jobs, p) && s.jobs[r.id].card.parent == Some(p)
    ensures var t := Finish.FinishJob(s, r, now, rand).0;
            var v' := Watch(v, t.jobs, t.history);
            && (IsParked(t.jobs, p) <==> |OpenAfter(v, r.id, p)| > |OutsideAfter(v, r.id, p)|)
            && OpenAfter(v, r.id, p) == Open(v', p) && OutsideAfter(v, r.id, p) == Outside(v', p)
  {
    var t := Finish.FinishJob(s, r, now, rand).0;
    Finish.FinishIsMove(cfg, v, s, r, now, rand);
    OpensExactly(cfg, v, r.id, now, t.jobs, t.history, p);
    BooksAfter(cfg, v, r.id, now, t.jobs, t.history, p);
  }

  /** A completed child from outside stays one. */
  lemma OutsideStays(cfg: Config, next: Timers.Cron, ws: seq<World>, ops: seq<Op>, i: nat, n: nat, p: Id)
    requires Run(cfg, next, ws, ops) && i <= n < |ws|
    ensures Outside(ws[i].view, p) <= Outside(ws[n].view, p)
  {
    RunIsChronicle(cfg, next, ws, ops);
    RunIsSound(cfg, next, ws, ops, i, false, false);
    forall c: Id | c in Outside(ws[i].view, p) ensures c in Outside(ws[n].view, p) {
      assert Accounted(ws[i].view, c);
      RecordsStay(ws, i, n, c);
    }
  }

  lemma EarlyHasOutside(cfg: Config, next: Timers.Cron, ws: seq<World>, ops: seq<Op>, i: nat, p: Id)
    requires Run(cfg, next, ws, ops) && i < |ops| && OpensGateEarly(ws[i].view, ws[i].db, ops[i], p)
    ensures Outside(ws[i + 1].view, p) != {}
  {
    RunIsSound(cfg, next, ws, ops, i, false, false);
    OpensExactlyWhen(cfg, next, ws, ops, i, p);
    assert OutsideAfter(ws[i].view, ops[i].finish.id, p) != {};
  }

  lemma CleanIsNotEarly(cfg: Config, next: Timers.Cron, ws: seq<World>, ops: seq<Op>, i: nat, n: nat, p: Id)
    requires Run(cfg, next, ws, ops) && i < n < |ws| && Outside(ws[n].view, p) == {}
    ensures !OpensGateEarly(ws[i].view, ws[i].db, ops[i], p)
  {
    OutsideStays(cfg, next, ws, ops, i + 1, n, p);
    if OpensGateEarly(ws[i].view, ws[i].db, ops[i], p) { EarlyHasOutside(cfg, next, ws, ops, i, p); }
  }

  /** A job of which only flow children have completed never had its gate opened early. */
  lemma CleanIsNeverEarly(cfg: Config, next: Timers.Cron, ws: seq<World>, ops: seq<Op>, n: nat, p: Id)
    requires Run(cfg, next, ws, ops) && n < |ws| && Outside(ws[n].view, p) == {}
    ensures NeverEarly(ws, ops, n, p)
  {
    forall i | 0 <= i < n ensures !OpensGateEarly(ws[i].view, ws[i].db, ops[i], p) {
      CleanIsNotEarly(cfg, next, ws, ops, i, n, p);
    }
    NeverEarlyFrom(ws, ops, n, p);
  }

  lemma NotEarlyIfDetached(v: View, c: Id, p: Id)
    requires Booked(v) && AllDetached(v)
    ensures !OpensEarly(v, c, p)
  {
    if p in v.jobs && c in v.jobs && v.jobs[c].card.parent == Some(p) {
      NothingOutside(v, p);
      assert Accounted(v, c) && Detached(v, c);
      assert OutsideAfter(v, c, p) == {};
    }
  }

  lemma FlowsAreNotEarly(cfg: Config, next: Timers.Cron, ws: seq<World>, ops: seq<Op>, i: nat, p: Id)
    requires Run(cfg, next, ws, ops) && OnlyFlowsLinkToLive(ws) && i < |ops|
    ensures !OpensGateEarly(ws[i].view, ws[i].db, ops[i], p)
  {
    RunIsSound(cfg, next, ws, ops, i, true, false);
    if ops[i].FinishJob? { NotEarlyIfDetached(ws[i].view, ops[i].finish.id, p); }
  }

  /** If only flows link to live parents, no gate opens early. */
  lemma FlowsAreNeverEarly(cfg: Config, next: Timers.Cron, ws: seq<World>, ops: seq<Op>, n: nat, p: Id)
    requires Run(cfg, next, ws, ops) && OnlyFlowsLinkToLive(ws) && n < |ws|
    ensures NeverEarly(ws, ops, n, p)
  {
    forall i | 0 <= i < n ensures !OpensGateEarly(ws[i].view, ws[i].db, ops[i], p) {
      FlowsAreNotEarly(cfg, next, ws, ops, i, p);
    }
    NeverEarlyFrom(ws, ops, n, p);
  }

  /**
    Every job ever placed beneath a claimed or completed one, at any depth, is completed, if no gate on the way
    was opened early.
   */
  lemma NothingOpenBelow(cfg: Config, next: Timers.Cron, ws: seq<World>, ops: seq<Op>, n: nat, path: seq<Id>)
    requires Run(cfg, next, ws, ops) && n < |ws| && Descends(ws[n].view, path) && |path| >= 2
    requires forall k | 0 <= k < |path| - 1 :: NeverEarly(ws, ops, n, path[k])
    requires Held(ws[n].db.jobs, path[0]) || IsCompleted(ws[n].view, path[0])
    ensures IsCompleted(ws[n].view, path[|path| - 1])
  {
    forall k | 0 <= k < |path| - 1 ensures Right(ws[n].view, path[k]) && Shut(ws[n].view, path[k]) {
      GateRightIff(cfg, next, ws, ops, n, path[k]);
    }
    RunIsSound(cfg, next, ws, ops, n, false, false);
    NothingBelowIsOpen(ws[n].view, path);
  }

  /** In particular, if only flow children of the jobs on the way have completed. */
  lemma NothingOpenBelowClean(cfg: Config, next: Timers.Cron, ws: seq<World>, ops: seq<Op>, n: nat, path: seq<Id>)
    requires Run(cfg, next, ws, ops) && n < |ws| && Descends(ws[n].view, path) && |path| >= 2
    requires forall k | 0 <= k < |path| - 1 ::
               DoneKids(ws[n].view.died, path[k]) <= FlowKids(ws[n].view.born, path[k])
    requires Held(ws[n].db.jobs, path[0]) || IsCompleted(ws[n].view, path[0])
    ensures IsCompleted(ws[n].view, path[|path| - 1])
  {
    forall k | 0 <= k < |path| - 1 ensures NeverEarly(ws, ops, n, path[k]) {
      assert Outside(ws[n].view, path[k]) == {};
      CleanIsNeverEarly(cfg, next, ws, ops, n, path[k]);
    }
    NothingOpenBelow(cfg, next, ws, ops, n, path);
  }

  // ---- Fencing ----

  /**
    Claims of a job are numbered 1, 2, 3, ... up to at most its limit; they are closed in the same order, each
    once.
   */
  lemma ClaimsAreNumbered(cfg: Config, next: Timers.Cron, ws: seq<World>, ops: seq<Op>, n: nat, id: Id)
    requires Run(cfg, next, ws, ops) && n < |ws| && id in ws[n].view.born
    ensures var v := ws[n].view;
            var k := |Tokens(v.claimed, id)|;
            && Tokens(v.claimed, id) == Upto(k) && k <= v.born[id].card.maxAttempts
            && (Held(v.jobs, id) ==> k >= 1 && Tokens(v.closed, id) == Upto(k - 1))
            && (!Held(v.jobs, id) ==> Tokens(v.closed, id) == Upto(k))
  {
    RunIsSound(cfg, next, ws, ops, n, false, false);
    assert Fenced(ws[n].view, id) && Accounted(ws[n].view, id);
  }

  lemma TokenStays(v: View, jobs': Jobs, history': History, id: Id, a: nat)
    requires Fenced(v, id) && a in Tokens(v.closed, id)
    ensures a in Tokens(Watch(v, jobs', history').closed, id)
  {
  }

  predicate KeepsToken(w: World, w': World, id: Id, a: nat) {
    a in Tokens(w.view.closed, id) ==> a in Tokens(w'.view.closed, id)
  }

  lemma NoticedKeepsToken(w: World, w': World, id: Id, a: nat)
    requires Noticed(w, w')
    ensures KeepsToken(w, w', id, a)
  {
    assert Fenced(w.view, id);
    if a in Tokens(w.view.closed, id) { TokenStays(w.view, w'.db.jobs, w'.db.history, id, a); }
  }

  lemma ChronicleKeepsToken(ws: seq<World>, id: Id, a: nat)
    requires Chronicle(ws)
    ensures forall k | 0 <= k < |ws| - 1 :: KeepsToken(ws[k], ws[k + 1], id, a)
  {
    forall k | 0 <= k < |ws| - 1 ensures KeepsToken(ws[k], ws[k + 1], id, a) {
      NoticedKeepsToken(ws[k], ws[k + 1], id, a);
    }
  }

  lemma {:induction false} ClosedStays(ws: seq<World>, i: nat, n: nat, id: Id, a: nat)
    requires (forall k | 0 <= k < |ws| - 1 :: KeepsToken(ws[k], ws[k + 1], id, a))
    requires i <= n < |ws| && a in Tokens(ws[i].view.closed, id)
    ensures a in Tokens(ws[n].view.closed, id)
  {
    if i < n {
      ClosedStays(ws, i, n - 1, id, a);
      assert KeepsToken(ws[n - 1], ws[n - 1 + 1], id, a);
    }
  }

  /** A held claim is not among the closed ones. */
  lemma HeldIsOpen(v: View, id: Id)
    requires Fenced(v, id) && Accounted(v, id) && Held(v.jobs, id)
    ensures v.jobs[id].attempts !in Tokens(v.closed, id)
  {
  }

  lemma RefusedChangesNothing(v: View, s: Store, id: Id, a: nat, r: Finish.FinishRequest, now: int, rand: real)
    requires Fenced(v, id) && Accounted(v, id) && Shows(v, s) && a in Tokens(v.closed, id)
    requires r.id == id && Finish.Claimed(r.attempt) == a
    ensures Finish.FinishJob(s, r, now, rand).0 == s
  {
    if Finish.Judge(s, r, now).Accepted? { HeldIsOpen(v, id); }
  }

  lemma RefusedBeatChangesNothing(cfg: Config, v: View, s: Store, id: Id, a: nat, r: Leases.HeartbeatRequest, now: int)
    requires Fenced(v, id) && Accounted(v, id) && Shows(v, s) && a in Tokens(v.closed, id)
    requires r.id == id && r.attempt == a
    ensures Leases.Heartbeat(cfg, s, r, now).0 == s
  {
    if Leases.JudgeHeartbeat(s, r, now).Accepted? { HeldIsOpen(v, id); }
  }

  /** Once an attempt is closed, no completion, failure or heartbeat that carries it changes anything, ever. */
  lemma ClosedForGood(cfg: Config, next: Timers.Cron, ws: seq<World>, ops: seq<Op>, i: nat, n: nat, id: Id, a: nat,
                      r: Finish.FinishRequest, b: Leases.HeartbeatRequest, now: int, rand: real)
    requires Run(cfg, next, ws, ops) && i <= n < |ws| && a in Tokens(ws[i].view.closed, id)
    requires r.id == id && Finish.Claimed(r.attempt) == a && b.id == id && b.attempt == a
    ensures Finish.FinishJob(ws[n].db, r, now, rand).0 == ws[n].db
    ensures Leases.Heartbeat(cfg, ws[n].db, b, now).0 == ws[n].db
  {
    RunIsChronicle(cfg, next, ws, ops);
    ChronicleKeepsToken(ws, id, a);
    ClosedStays(ws, i, n, id, a);
    RunIsSound(cfg, next, ws, ops, n, false, false);
    assert Fenced(ws[n].view, id) && Accounted(ws[n].view, id);
    RefusedChangesNothing(ws[n].view, ws[n].db, id, a, r, now, rand);
    RefusedBeatChangesNothing(cfg, ws[n].view, ws[n].db, id, a, b, now);
  }

  /** The history row an accepted completion leaves. */
  lemma CompletionRecorded(s: Store, r: Finish.FinishRequest, now: int, rand: real)
    requires Finish.Judge(s, r, now).Accepted? && r.error.None?
    ensures var t := Finish.FinishJob(s, r, now, rand).0;
            && r.id in t.history && t.history[r.id].outcome.Completed?
            && t.history[r.id].worker == Some(r.worker) && t.history[r.id].attempts == Finish.Claimed(r.attempt)
            && !Blank(r.id) && !Blank(r.worker)
  {
  }

  lemma CompletionObserved(cfg: Config, next: Timers.Cron, ws: seq<World>, ops: seq<Op>, i: nat)
    requires Run(cfg, next, ws, ops) && i < |ops| && ops[i].FinishJob?
    requires Finish.Judge(ws[i].db, ops[i].finish, ops[i].now).Accepted? && ops[i].finish.error.None?
    ensures var r, d := ops[i].finish, ws[i + 1].view.died;
            r.id in d && d[r.id].outcome.Completed? && d[r.id].worker == Some(r.worker)
            && d[r.id].attempts == Finish.Claimed(r.attempt)
  {
    var w := ws[i];
    CompletionRecorded(w.db, ops[i].finish, ops[i].now, ops[i].rand);
    assert ws[i + 1].db == Finish.FinishJob(w.db, ops[i].finish, ops[i].now, ops[i].rand).0;
    RunIsSound(cfg, next, ws, ops, i + 1, false, false);
    assert Accounted(ws[i + 1].view, ops[i].finish.id);
  }

  /**
    An accepted completion can be sent again at any later time, and changes nothing, until its history row is
    pruned.
   */
  lemma CompletionReplays(cfg: Config, next: Timers.Cron, ws: seq<World>, ops: seq<Op>, i: nat, n: nat, now: int,
                          rand: real)
    requires Run(cfg, next, ws, ops) && i < n < |ws| && ops[i].FinishJob?
    requires Finish.Judge(ws[i].db, ops[i].finish, ops[i].now).Accepted? && ops[i].finish.error.None?
    requires ops[i].finish.id in ws[n].db.history
    ensures Finish.FinishJob(ws[n].db, ops[i].finish, now, rand) == (ws[n].db, Ok(false))
  {
    var r := ops[i].finish;
    CompletionRecorded(ws[i].db, r, ops[i].now, ops[i].rand);
    CompletionObserved(cfg, next, ws, ops, i);
    RunIsChronicle(cfg, next, ws, ops);
    RecordsStay(ws, i + 1, n, r.id);
    RunIsSound(cfg, next, ws, ops, n, false, false);
    assert Accounted(ws[n].view, r.id);
    ReplayJudged(ws[n].db, r, now, rand);
  }

  lemma ReplayJudged(s: Store, r: Finish.FinishRequest, now: int, rand: real)
    requires r.id !in s.jobs && r.id in s.history && s.history[r.id].outcome.Completed? && r.error.None?
    requires s.history[r.id].worker == Some(r.worker) && s.history[r.id].attempts == Finish.Claimed(r.attempt)
    requires !Blank(r.id) && !Blank(r.worker)
    ensures Finish.FinishJob(s, r, now, rand) == (s, Ok(false))
  {
  }

  // ---- The forest and the lineage ----

  /** Flow links form a forest of bounded depth, and live neighbours are in one tree, one level apart. */
  lemma ForestHolds(cfg: Config, next: Timers.Cron, ws: seq<World>, ops: seq<Op>, n: nat, path: seq<Id>)
    requires Run(cfg, next, ws, ops) && n < |ws| && Descends(ws[n].view, path) && |path| >= 2
    ensures path[0] != path[|path| - 1]
    ensures |path| - 1 <= cfg.maxFlowDepth
    ensures path[0] in ws[n].db.jobs && path[1] in ws[n].db.jobs ==>
              var p, c := ws[n].db.jobs[path[0]], ws[n].db.jobs[path[1]];
              p.treeId == c.treeId && c.treeDepth == p.treeDepth + 1
  {
    RunIsSound(cfg, next, ws, ops, n, false, false);
    ForestOfView(cfg, ws[n].view, path);
  }

  lemma ForestOfView(cfg: Config, v: View, path: seq<Id>)
    requires Lawful(cfg, v, false) && Descends(v, path) && |path| >= 2
    ensures path[0] != path[|path| - 1] && |path| - 1 <= cfg.maxFlowDepth
    ensures path[0] in v.jobs && path[1] in v.jobs ==>
              && v.jobs[path[0]].treeId == v.jobs[path[1]].treeId
              && v.jobs[path[1]].treeDepth == v.jobs[path[0]].treeDepth + 1
  {
    assert path[1] in FlowKids(v.born, path[0]);
    assert Grafted(cfg, v, path[1]);
    assert Accounted(v, path[0]) && Accounted(v, path[1]);
    FlowLinksAcyclic(cfg, v, path);
    DepthAlongPath(cfg, v, path);
  }

  /** Every tree stays within the node cap, and every live row within the depth cap. */
  lemma TreesAreSmall(cfg: Config, next: Timers.Cron, ws: seq<World>, ops: seq<Op>, n: nat, t: Id, id: Id)
    requires Run(cfg, next, ws, ops) && n < |ws|
    ensures |TreeRows(ws[n].db.jobs, t)| <= cfg.maxFlowNodes
    ensures id in ws[n].db.jobs ==> ws[n].db.jobs[id].treeDepth <= cfg.maxFlowDepth
  {
    RunIsSound(cfg, next, ws, ops, n, false, false);
    assert Small(cfg, ws[n].view, t) && Grafted(cfg, ws[n].view, id) && Accounted(ws[n].view, id);
  }

  /** A chain of AddJob children keeps one trace and at most `maxExecutionDepth + 1` jobs. */
  lemma LineageHolds(cfg: Config, next: Timers.Cron, ws: seq<World>, ops: seq<Op>, n: nat, chain: seq<Id>)
    requires Run(cfg, next, ws, ops) && n < |ws| && Chained(ws[n].view, chain)
    ensures |chain| <= cfg.maxExecutionDepth + 1
    ensures ws[n].view.born[chain[|chain| - 1]].card.trace == ws[n].view.born[chain[0]].card.trace
  {
    RunIsSound(cfg, next, ws, ops, n, false, false);
    ChainBounded(cfg, ws[n].view, chain);
  }

  // ---- Receipts, gauges, limits and schedulers ----

  /** No two live jobs hold one queue and key, and every live keyed job has its receipt as issued. */
  lemma KeysAreExclusive(cfg: Config, next: Timers.Cron, ws: seq<World>, ops: seq<Op>, n: nat, a: Id, b: Id)
    requires Run(cfg, next, ws, ops) && n < |ws|
    requires a in ws[n].books.issued && a in ws[n].db.jobs
    ensures var i := ws[n].books.issued[a];
            i.slot in ws[n].db.receipts && ws[n].db.receipts[i.slot] == i.receipt && i.receipt.jobId == a
    ensures var issued := ws[n].books.issued;
            b in issued && b in ws[n].db.jobs && issued[b].slot == issued[a].slot ==> a == b
  {
    RunIsSound(cfg, next, ws, ops, n, false, false);
    var s, issued := ws[n].db, ws[n].books.issued;
    assert ReceiptLaws.Kept(s.receipts, s.jobs.Keys, s.history.Keys, issued, a);
    if b in issued && b in s.jobs && issued[b].slot == issued[a].slot { ReceiptLaws.NoSharedSlot(s, issued, a, b); }
  }

  /**
    A receipt to be released is stored exactly while its job is live; a retained one while its job is live or
    in history.
   */
  lemma ReceiptsLast(cfg: Config, next: Timers.Cron, ws: seq<World>, ops: seq<Op>, n: nat, id: Id)
    requires Run(cfg, next, ws, ops) && n < |ws| && id in ws[n].books.issued
    ensures var s, i := ws[n].db, ws[n].books.issued[id];
            var stored := i.slot in s.receipts && s.receipts[i.slot] == i.receipt;
            if i.receipt.releaseOnFinish then stored <==> id in s.jobs else id in s.jobs || id in s.history ==> stored
  {
    RunIsSound(cfg, next, ws, ops, n, false, false);
    var s, issued := ws[n].db, ws[n].books.issued;
    assert ReceiptLaws.Kept(s.receipts, s.jobs.Keys, s.history.Keys, issued, id);
    if issued[id].receipt.releaseOnFinish { ReceiptLaws.ReleasedExactly(s, issued, id); }
  }

  /**
    As long as a receipt is stored, its request sent again gets the answer recorded when it was issued, another
    request for its queue and key is refused, and neither changes anything.
   */
  lemma ReplaysAreHarmless(cfg: Config, next: Timers.Cron, ws: seq<World>, ops: seq<Op>, n: nat, slot: Slot,
                           r: AddJobRequest, id: Id, trace: string, now: int)
    requires Run(cfg, next, ws, ops) && n < |ws| && slot in ws[n].db.receipts
    requires Enqueue.Validate(cfg, r).Ok? && slot == Slot(r.name, r.key)
    ensures var s, issued := ws[n].db, ws[n].books.issued;
            var kept := s.receipts[slot];
            && kept.jobId in issued && issued[kept.jobId] == ReceiptLaws.Issue(slot, kept)
            && Enqueue.AddJob(cfg, s, r, id, trace, now) ==
               if Enqueue.Validate(cfg, r).value == kept.request
               then (s, Ok([Enqueue.AddReply(kept.jobId, kept.initialState, true)])) else (s, Err(AlreadyExists))
  {
    RunIsSound(cfg, next, ws, ops, n, false, false);
    ReceiptLaws.ReplayAnswersAsIssued(cfg, ws[n].db, ws[n].books.issued, slot, r, id, trace, now);
  }

  // ---- Gauges ----

  /** From exact gauges, the next world's are exact if and only if the step takes no ancestor that is not parked. */
  lemma GaugesAfterStep(cfg: Config, next: Timers.Cron, ws: seq<World>, ops: seq<Op>, i: nat)
    requires Run(cfg, next, ws, ops) && i < |ops| && GaugeLaw(ws[i].db)
    ensures GaugeLaw(ws[i + 1].db) <==> SparesGauges(ws[i].db, ops[i])
  {
    RunIsSound(cfg, next, ws, ops, i, false, false);
    FollowsGauges(cfg, next, ws[i], ops[i], ws[i + 1]);
  }

  lemma FollowsGauges(cfg: Config, next: Timers.Cron, w: World, op: Op, w': World)
    requires Follows(cfg, next, w, op, w') && Lawful(cfg, w.view, false) && Shows(w.view, w.db) && GaugeLaw(w.db)
    ensures GaugeLaw(w'.db) <==> SparesGauges(w.db, op)
  {
    StepGauges(cfg, next, w.view, w.db, op);
  }

  ghost predicate ExactUpTo(ws: seq<World>, n: nat)
    requires n < |ws|
  {
    forall k | 0 <= k <= n :: GaugeLaw(ws[k].db)
  }

  predicate SparedUpTo(ws: seq<World>, ops: seq<Op>, n: nat)
    requires n <= |ops| && n < |ws|
  {
    forall i | 0 <= i < n :: SparesGauges(ws[i].db, ops[i])
  }

  /**
    Every gauge equals its row count in every world up to the n-th if and only if no terminal failure
    before it took an ancestor that was not parked.
   */
  lemma {:induction false} GaugesExactIff(cfg: Config, next: Timers.Cron, ws: seq<World>, ops: seq<Op>, n: nat)
    requires Run(cfg, next, ws, ops) && n < |ws|
    ensures ExactUpTo(ws, n) <==> SparedUpTo(ws, ops, n)
  {
    if n == 0 {
      GenesisIsExact();
    } else {
      GaugesExactIff(cfg, next, ws, ops, n - 1);
      if ExactUpTo(ws, n - 1) {
        GaugesAfterStep(cfg, next, ws, ops, n - 1);
        OneMoreExact(ws, ops, n);
      }
    }
  }

  lemma OneMoreExact(ws: seq<World>, ops: seq<Op>, n: nat)
    requires 0 < n < |ws| && n <= |ops| && ExactUpTo(ws, n - 1) && SparedUpTo(ws, ops, n - 1)
    ensures ExactUpTo(ws, n) <==> GaugeLaw(ws[n].db)
    ensures SparedUpTo(ws, ops, n) <==> SparesGauges(ws[n - 1].db, ops[n - 1])
  {
  }

  /** If only flows link to live parents, every gauge equals its row count after every step. */
  lemma {:induction false} GaugesAreExact(cfg: Config, next: Timers.Cron, ws: seq<World>, ops: seq<Op>, n: nat)
    requires Run(cfg, next, ws, ops) && OnlyFlowsLinkToLive(ws) && n < |ws|
    ensures Telemetry.Exact(ws[n].db.gauges, ws[n].db.jobs, ws[n].db.history)
  {
    forall i | 0 <= i < n ensures SparesGauges(ws[i].db, ops[i]) {
      RunIsSound(cfg, next, ws, ops, i, true, false);
      if ops[i].FinishJob? && Finish.FailsTerminally(ws[i].db, ops[i].finish, ops[i].now) {
        VictimsParked(ws[i].view, ws[i].db, ops[i].finish);
      }
    }
    GaugesExactIff(cfg, next, ws, ops, n);
    assert GaugeLaw(ws[n].db);
  }

  /**
    While the clock never goes back, the pair of counters a facet is judged by, at any later time, counts its
    entries since the rule was set in the grid window of that time and in the one before; nothing else is
    remembered.
   */
  lemma IngressPairIsExact(cfg: Config, next: Timers.Cron, ws: seq<World>, ops: seq<Op>, n: nat, f: string, now: int)
    requires Run(cfg, next, ws, ops) && Timely(ws, ops) && n < |ws|
    requires f in ws[n].db.ingressRules && ws[n].books.clock <= now
    ensures var log, w := Ingress.Times(ws[n].books.tally.entered, f), ws[n].db.ingressRules[f].windowMs;
            var c := Ingress.Current(Lookup(ws[n].db.ingressCounts, f), now, w);
            && (f in ws[n].db.ingressCounts <==> log != [])
            && (log != [] ==> ws[n].db.ingressCounts[f].start <= log[|log| - 1])
            && c.start <= now < c.start + w
            && if log == [] then c == Bucket(now, 0, 0)
               else Ingress.CountsAt(c, log, w, Ingress.WindowOf(log, w, now))
  {
    RunIsSound(cfg, next, ws, ops, n, false, true);
    PairOf(ws[n].db, ws[n].books, f, now);
  }

  lemma PairOf(s: Store, b: Books, f: string, now: int)
    requires Timed(s, b) && f in s.ingressRules && b.clock <= now
    ensures var log, w := Ingress.Times(b.tally.entered, f), s.ingressRules[f].windowMs;
            var c := Ingress.Current(Lookup(s.ingressCounts, f), now, w);
            && (f in s.ingressCounts <==> log != [])
            && (log != [] ==> s.ingressCounts[f].start <= log[|log| - 1])
            && c.start <= now < c.start + w
            && if log == [] then c == Bucket(now, 0, 0)
               else Ingress.CountsAt(c, log, w, Ingress.WindowOf(log, w, now))
  {
    assert Limits.IngressAt(s.ingressRules, s.ingressCounts, b.tally, b.clock, f);
    var log, w := Ingress.Times(b.tally.entered, f), s.ingressRules[f].windowMs;
    var k := Ingress.CurrentCounts(Lookup(s.ingressCounts, f), log, w, now);
    if log != [] { Ingress.LandsIn(log, w, now, k); }
  }

  /**
    So a job of the facet is refused at `now` exactly when P * (w - e) + c * w reaches m * w, with P and c those
    two counts of entries and e the offset of `now` in its window.
   */
  lemma IngressDecision(cfg: Config, next: Timers.Cron, ws: seq<World>, ops: seq<Op>, n: nat, f: string, now: int)
    requires Run(cfg, next, ws, ops) && Timely(ws, ops) && n < |ws|
    requires f in ws[n].db.ingressRules && ws[n].books.clock <= now
    ensures var log, rule := Ingress.Times(ws[n].books.tally.entered, f), ws[n].db.ingressRules[f];
            var refused := Ingress.Admit(ws[n].db.ingressRules, ws[n].db.ingressCounts, f, now).None?;
            if log == [] then refused <==> rule.maxJobs == 0
            else
              var w, k := rule.windowMs, Ingress.WindowOf(log, rule.windowMs, now);
              var p, c, e := Ingress.Window(log, w, k - 1), Ingress.Window(log, w, k), Ingress.OffsetIn(log, w, now);
              refused <==> p * (w - e) + c * w >= rule.maxJobs * w
  {
    RunIsSound(cfg, next, ws, ops, n, false, true);
    assert Limits.IngressAt(ws[n].db.ingressRules, ws[n].db.ingressCounts, ws[n].books.tally, ws[n].books.clock, f);
    Ingress.Decision(ws[n].db.ingressRules[f], Lookup(ws[n].db.ingressCounts, f),
                     Ingress.Times(ws[n].books.tally.entered, f), now);
  }

  /** And every entry since the rule was set, by AddJob, by a bulk call or by a scheduler, was let in with room. */
  lemma EntriesHadRoom(cfg: Config, next: Timers.Cron, ws: seq<World>, ops: seq<Op>, n: nat, f: string, j: nat)
    requires Run(cfg, next, ws, ops) && Timely(ws, ops) && n < |ws| && f in ws[n].db.ingressRules
    requires j < |Ingress.Times(ws[n].books.tally.entered, f)|
    ensures var log, rule := Ingress.Times(ws[n].books.tally.entered, f), ws[n].db.ingressRules[f];
            var w, k, sofar := rule.windowMs, Ingress.WindowOf(log, rule.windowMs, log[j]), log[..j + 1];
            var p, c, e := Ingress.Window(sofar, w, k - 1), Ingress.Window(sofar, w, k),
                           Ingress.OffsetIn(log, w, log[j]);
            w * (p + c) < w * (rule.maxJobs + 1) + p * e
  {
    RunIsSound(cfg, next, ws, ops, n, false, true);
    assert Limits.IngressAt(ws[n].db.ingressRules, ws[n].db.ingressCounts, ws[n].books.tally, ws[n].books.clock, f);
    assert Ingress.RoomAt(Ingress.Times(ws[n].books.tally.entered, f), ws[n].db.ingressRules[f].windowMs,
                          ws[n].db.ingressRules[f].maxJobs, j);
  }

  /**
    While the clock never goes back, any span of a rule's window length admits and dispatches at most twice
    its limit.
   */
  lemma SpansAreBounded(cfg: Config, next: Timers.Cron, ws: seq<World>, ops: seq<Op>, n: nat, f: string, t: int)
    requires Run(cfg, next, ws, ops) && Timely(ws, ops) && n < |ws|
    ensures f in ws[n].db.ingressRules ==>
              Ingress.CountIn(Ingress.Times(ws[n].books.tally.entered, f), t, t + ws[n].db.ingressRules[f].windowMs)
              <= 2 * ws[n].db.ingressRules[f].maxJobs
    ensures f in ws[n].db.rateRules ==>
              Windows.Span(Ingress.Times(ws[n].books.claims, f), ws[n].db.rateRules[f].windowMs, t)
              <= 2 * ws[n].db.rateRules[f].maxJobs
    ensures f in ws[n].db.rateRules && f in ws[n].db.rateCounts ==>
              ws[n].db.rateCounts[f].count <= ws[n].db.rateRules[f].maxJobs
  {
    RunIsSound(cfg, next, ws, ops, n, false, true);
    SpansOf(ws[n].db, ws[n].books, f, t);
  }

  lemma SpansOf(s: Store, b: Books, f: string, t: int)
    requires Timed(s, b)
    ensures f in s.ingressRules ==>
              Ingress.CountIn(Ingress.Times(b.tally.entered, f), t, t + s.ingressRules[f].windowMs)
              <= 2 * s.ingressRules[f].maxJobs
    ensures f in s.rateRules ==>
              Windows.Span(Ingress.Times(b.claims, f), s.rateRules[f].windowMs, t) <= 2 * s.rateRules[f].maxJobs
    ensures f in s.rateRules && f in s.rateCounts ==> s.rateCounts[f].count <= s.rateRules[f].maxJobs
  {
    if f in s.ingressRules { Limits.IngressSpan(s, b.tally, b.clock, f, t); }
    if f in s.rateRules { Windows.RateSpan(s, b.claims, b.clock, f, t); }
  }

  /** With a cap, a trace's counter is the number of jobs admitted to it since its row appeared, and within the cap. */
  lemma ChainsAreCounted(cfg: Config, next: Timers.Cron, ws: seq<World>, ops: seq<Op>, n: nat, t: string)
    requires Run(cfg, next, ws, ops) && n < |ws| && cfg.maxChainSize > 0 && t in ws[n].db.chains
    ensures ws[n].db.chains[t].count == Limits.Total(ws[n].books.tally.traced, t) <= cfg.maxChainSize
  {
    RunIsSound(cfg, next, ws, ops, n, false, false);
    assert Limits.ChainAt(cfg, ws[n].db.chains, ws[n].books.tally, t);
  }

  /** Since its last upsert, a scheduler's count grew by its fires, each selected at or after an occurrence. */
  lemma FiresAreCounted(cfg: Config, next: Timers.Cron, ws: seq<World>, ops: seq<Op>, n: nat, id: Id)
    requires Run(cfg, next, ws, ops) && n < |ws| && id in ws[n].db.schedulers
    ensures id in ws[n].books.fired
    ensures var row, f := ws[n].db.schedulers[id], ws[n].books.fired[id];
            && row.produced == f.base + |f.times|
            && Timers.Chosen(Timers.NextOf(next, row.cron, Timers.Zone(row)), f.selected, f.times)
            && (f.times != [] ==> row.nextRun == next(row.cron, Timers.Zone(row), f.times[|f.times| - 1]))
  {
    RunIsSound(cfg, next, ws, ops, n, false, false);
    assert Timers.TimerAt(next, ws[n].db.schedulers, ws[n].books.fired, id);
  }

  /**
    No span holds more fires than occurrences of the pattern plus one, if the clock did not go back between
    the selection of a fire of the span and that fire.
   */
  lemma FiresAreBounded(cfg: Config, next: Timers.Cron, ws: seq<World>, ops: seq<Op>, n: nat, id: Id,
                        occurs: int -> bool, i: nat, j: nat, lo: int, hi: int)
    requires Run(cfg, next, ws, ops) && n < |ws| && id in ws[n].db.schedulers && id in ws[n].books.fired
    requires var row := ws[n].db.schedulers[id];
             Timers.FirstAfter(Timers.NextOf(next, row.cron, Timers.Zone(row)), occurs)
    requires var f := ws[n].books.fired[id];
             && |f.selected| == |f.times| && i <= j <= |f.times| && Timers.Prompt(f, i, j)
             && (i < j ==> lo <= f.times[i] && f.times[j - 1] <= hi)
    ensures j - i <= |Timers.Occurrences(occurs, lo, hi)| + 1
  {
    FiresAreCounted(cfg, next, ws, ops, n, id);
    var row := ws[n].db.schedulers[id];
    Timers.SpanFires(Timers.NextOf(next, row.cron, Timers.Zone(row)), ws[n].books.fired[id], occurs, i, j, lo, hi);
  }
}
