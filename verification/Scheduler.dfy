/**
  The scheduler loop: producing one job per due scheduler and moving the
  scheduler on to its next occurrence, in one transaction each.  Evaluating a
  cron pattern is the work of a library; here it is a function that gives the
  next occurrence strictly after a time, or nothing if the pattern is bad.
 */
module Scheduler {
  import opened Tables
  import opened Queries
  import opened Lifecycle
  import opened LifecycleLaws
  import opened Enqueue
  import opened EnqueueLaws
  import opened Sets

  type Cron = (string, string, int) -> Option<int>

  function Zone(row: Scheduler): string {
    if row.timezone.Some? then row.timezone.value else ""
  }

  function Or<T>(o: Option<T>, d: T): T {
    if o.Some? then o.value else d
  }

  /** A scheduled job is a root job without delay and without key. */
  function BuildRequest(row: Scheduler): AddJobRequest {
    AddJobRequest(row.jobName, row.payload, Or(row.priority, 0), Metadata("", "", 0), Or(row.maxAttempts, 0), 0,
                  Or(row.facet, ""), Or(row.backoffMs, 0), Or(row.backoffMaxMs, 0), "", Or(row.jitter, 0.0), false)
  }

  /** `advance_scheduler`: an update by id, which a missing row turns into nothing. */
  function Advance(rows: map<Id, Scheduler>, id: Id, nextRun: int, job: Id, now: int): map<Id, Scheduler> {
    if id !in rows then rows
    else rows[id := rows[id].(nextRun := Some(nextRun), produced := rows[id].produced + 1, lastJob := Some(job),
                              updatedAt := now)]
  }

  /** `fire_one`: the job and the advance, or nothing. */
  function Fire(cfg: Config, next: Cron, s: Store, id: Id, row: Scheduler, job: Id, trace: string,
                now: int): Option<Store> {
    match Validate(cfg, BuildRequest(row))
    case Err(_) => None
    case Ok(r) =>
      match EnqueueOne(cfg, s, r, job, trace, now)
      case Refused(_) => None
      case Rejected(_, _) => None
      case Admitted(t, reply) =>
        match next(row.cron, Zone(row), now)
        case None => None
        case Some(n) => Some(t.(schedulers := Advance(t.schedulers, id, n, reply.id, now)))
  }

  /** `upsert_scheduler`: the spec is replaced, what the loop has written is kept. */
  function Upsert(rows: map<Id, Scheduler>, id: Id, spec: Scheduler, now: int): map<Id, Scheduler> {
    rows[id := if id in rows
               then spec.(produced := rows[id].produced, lastJob := rows[id].lastJob, createdAt := rows[id].createdAt,
                          updatedAt := now)
               else spec.(produced := 0, lastJob := None, createdAt := now, updatedAt := now)]
  }

  /** The upserted scheduler does what the spec says, and only the loop's own columns survive from before. */
  predicate Replaced(rows: map<Id, Scheduler>, rows': map<Id, Scheduler>, id: Id, spec: Scheduler, now: int) {
    && id in rows' && rows' - {id} == rows - {id}
    && rows'[id].jobName == spec.jobName && rows'[id].payload == spec.payload && rows'[id].priority == spec.priority
    && rows'[id].maxAttempts == spec.maxAttempts && rows'[id].facet == spec.facet
    && rows'[id].backoffMs == spec.backoffMs && rows'[id].backoffMaxMs == spec.backoffMaxMs
    && rows'[id].jitter == spec.jitter
    && rows'[id].cron == spec.cron && rows'[id].timezone == spec.timezone && rows'[id].nextRun == spec.nextRun
    && rows'[id].updatedAt == now
    && (id in rows ==> rows'[id].produced == rows[id].produced && rows'[id].lastJob == rows[id].lastJob
                       && rows'[id].createdAt == rows[id].createdAt)
    && (id !in rows ==> rows'[id].produced == 0 && rows'[id].lastJob.None? && rows'[id].createdAt == now)
  }

  lemma UpsertReplaces(rows: map<Id, Scheduler>, id: Id, spec: Scheduler, now: int)
    ensures Replaced(rows, Upsert(rows, id, spec, now), id, spec, now)
  {
    assert Upsert(rows, id, spec, now) - {id} == rows - {id};
  }

  predicate Due(rows: map<Id, Scheduler>, id: Id, now: int) {
    id in rows && rows[id].nextRun.Some? && rows[id].nextRun.value <= now
  }

  function DueKeys(rows: map<Id, Scheduler>, now: int): (keys: Keys)
    ensures Sorted(keys, 1)
  {
    map id | id in rows && Due(rows, id, now) :: [rows[id].nextRun.value] + Text(id)
  }

  /** `select_due_schedulers`. */
  function DueBatch(rows: map<Id, Scheduler>, now: int, limit: nat): seq<Id> {
    Take(DueKeys(rows, now), 1, limit)
  }

  /** What each fire of a tick is handed: a fresh job id, a fresh trace and its own clock reading. */
  datatype Shot = Shot(job: Id, trace: string, now: int)

  /** The database after firing the given schedulers in turn, each in isolation. */
  function FireAll(cfg: Config, next: Cron, s: Store, rows: map<Id, Scheduler>, ids: seq<Id>,
                   shots: seq<Shot>): (Store, nat)
    requires |shots| == |ids| && forall i | 0 <= i < |ids| :: ids[i] in rows
  {
    if ids == [] then (s, 0)
    else
      var n := |ids| - 1;
      var (t, produced) := FireAll(cfg, next, s, rows, ids[..n], shots[..n]);
      match Fire(cfg, next, t, ids[n], rows[ids[n]], shots[n].job, shots[n].trace, shots[n].now)
      case None => (t, produced)
      case Some(t') => (t', produced + 1)
  }

  // ---- One fire ----

  /** A fire inserts exactly one job, counts it, and moves on to the next occurrence. */
  lemma FireEffect(cfg: Config, next: Cron, s: Store, id: Id, row: Scheduler, job: Id, trace: string, now: int)
    requires id in s.schedulers && s.schedulers[id] == row
    requires Fire(cfg, next, s, id, row, job, trace, now).Some?
    ensures var t := Fire(cfg, next, s, id, row, job, trace, now).value;
            && t.jobs == s.jobs[job := SoloJob(Validate(cfg, BuildRequest(row)).value, 0, trace, now)]
            && id in t.schedulers
            && t.schedulers == s.schedulers[id := t.schedulers[id]]
            && t.schedulers[id].produced == row.produced + 1
            && t.schedulers[id].lastJob == Some(job)
            && t.schedulers[id].nextRun == next(row.cron, Zone(row), now)
            && t.schedulers[id].nextRun.Some?
            && t.schedulers[id].cron == row.cron && Zone(t.schedulers[id]) == Zone(row)
  {
  }

  /** A fire that fails changes nothing, and one that succeeds leaves the other schedulers alone. */
  lemma FireIsolated(cfg: Config, next: Cron, s: Store, id: Id, row: Scheduler, job: Id, trace: string, now: int,
                     other: Id)
    requires other != id && Fire(cfg, next, s, id, row, job, trace, now).Some?
    ensures var t := Fire(cfg, next, s, id, row, job, trace, now).value;
            (other in t.schedulers <==> other in s.schedulers)
            && (other in s.schedulers ==> t.schedulers[other] == s.schedulers[other])
  {
    var r := Validate(cfg, BuildRequest(row)).value;
    assert EnqueueOne(cfg, s, r, job, trace, now).store.schedulers == s.schedulers;
  }

  /** Whether a fire succeeds is up to its own request, its own admission and its own pattern. */
  predicate Succeeds(cfg: Config, next: Cron, s: Store, row: Scheduler, shot: Shot) {
    && Validate(cfg, BuildRequest(row)).Ok?
    && EnqueueOne(cfg, s, Validate(cfg, BuildRequest(row)).value, shot.job, shot.trace, shot.now).Admitted?
    && next(row.cron, Zone(row), shot.now).Some?
  }

  lemma FireSucceedsIff(cfg: Config, next: Cron, s: Store, id: Id, row: Scheduler, shot: Shot)
    ensures Fire(cfg, next, s, id, row, shot.job, shot.trace, shot.now).Some? <==> Succeeds(cfg, next, s, row, shot)
  {
  }

  // ---- A tick ----

  /** A tick leaves every scheduler that it does not fire alone. */
  lemma {:induction false} TickLeavesOthers(cfg: Config, next: Cron, s: Store, ids: seq<Id>, shots: seq<Shot>,
                                            other: Id)
    requires |shots| == |ids| && (forall i | 0 <= i < |ids| :: ids[i] in s.schedulers)
    requires other !in ids
    ensures var t := FireAll(cfg, next, s, s.schedulers, ids, shots).0;
            (other in t.schedulers <==> other in s.schedulers)
            && (other in s.schedulers ==> t.schedulers[other] == s.schedulers[other])
  {
    if ids != [] {
      var n := |ids| - 1;
      TickLeavesOthers(cfg, next, s, ids[..n], shots[..n], other);
      var t := FireAll(cfg, next, s, s.schedulers, ids[..n], shots[..n]).0;
      if Fire(cfg, next, t, ids[n], s.schedulers[ids[n]], shots[n].job, shots[n].trace, shots[n].now).Some? {
        FireIsolated(cfg, next, t, ids[n], s.schedulers[ids[n]], shots[n].job, shots[n].trace, shots[n].now, other);
      }
    }
  }

  lemma DueRows(rows: map<Id, Scheduler>, at: int, limit: nat)
    ensures var due := DueBatch(rows, at, limit);
            && (forall i | 0 <= i < |due| :: Due(rows, due[i], at))
            && (forall i, j | 0 <= i < j < |due| :: due[i] != due[j])
            && |due| <= limit
  {
    TakeRows(DueKeys(rows, at), 1, limit);
  }

  /** A due scheduler is in the batch, unless the batch is full of schedulers due no later. */
  lemma SoonestFirst(rows: map<Id, Scheduler>, at: int, limit: nat, y: Id)
    requires y in rows && rows[y].nextRun.Some? && rows[y].nextRun.value <= at
    requires y !in DueBatch(rows, at, limit)
    ensures |DueBatch(rows, at, limit)| == limit
    ensures forall x | x in DueBatch(rows, at, limit) ::
              x in rows && rows[x].nextRun.Some? && rows[x].nextRun.value <= rows[y].nextRun.value
  {
    var keys, batch := DueKeys(rows, at), DueBatch(rows, at, limit);
    TakeFull(keys, 1, limit, y);
    forall x | x in batch ensures x in rows && rows[x].nextRun.Some? && rows[x].nextRun.value <= rows[y].nextRun.value {
      var i :| 0 <= i < |batch| && batch[i] == x;
      TakeFirst(keys, 1, limit, i, y);
    }
  }

  /** The database when the `i`-th of the fires is made. */
  function StoreAt(cfg: Config, next: Cron, s: Store, ids: seq<Id>, shots: seq<Shot>, i: nat): Store
    requires |shots| == |ids| && (forall k | 0 <= k < |ids| :: ids[k] in s.schedulers) && i <= |ids|
  {
    FireAll(cfg, next, s, s.schedulers, ids[..i], shots[..i]).0
  }

  lemma NextStore(cfg: Config, next: Cron, s: Store, ids: seq<Id>, shots: seq<Shot>, i: nat)
    requires |shots| == |ids| && (forall k | 0 <= k < |ids| :: ids[k] in s.schedulers) && i < |ids|
    ensures var t := StoreAt(cfg, next, s, ids, shots, i);
            StoreAt(cfg, next, s, ids, shots, i + 1) ==
            match Fire(cfg, next, t, ids[i], s.schedulers[ids[i]], shots[i].job, shots[i].trace, shots[i].now)
            case None => t
            case Some(t') => t'
  {
    assert ids[..i + 1][..i] == ids[..i] && shots[..i + 1][..i] == shots[..i];
  }

  /**
    Each due scheduler is fired from the very row that was selected, which is still due at the tick's
    reading; a fire that fails leaves the database as it was, whatever became of the others.
   */
  lemma TickTurn(cfg: Config, next: Cron, s: Store, at: int, limit: nat, shots: seq<Shot>, i: nat)
    requires var due := DueBatch(s.schedulers, at, limit); |shots| == |due| && i < |due|
    ensures var due := DueBatch(s.schedulers, at, limit);
            && (forall k | 0 <= k < |due| :: due[k] in s.schedulers)
            && var t, row := StoreAt(cfg, next, s, due, shots, i), s.schedulers[due[i]];
            && due[i] in t.schedulers && t.schedulers[due[i]] == row && Due(t.schedulers, due[i], at)
            && StoreAt(cfg, next, s, due, shots, i + 1) ==
               match Fire(cfg, next, t, due[i], row, shots[i].job, shots[i].trace, shots[i].now)
               case None => t
               case Some(t') => t'
  {
    var due := DueBatch(s.schedulers, at, limit);
    DueRows(s.schedulers, at, limit);
    forall k | 0 <= k < |due| ensures due[k] in s.schedulers { assert Due(s.schedulers, due[k], at); }
    assert due[i] !in due[..i];
    TickLeavesOthers(cfg, next, s, due[..i], shots[..i], due[i]);
    NextStore(cfg, next, s, due, shots, i);
  }

  /** The fire of the `i`-th turn succeeds. */
  predicate TurnSucceeds(cfg: Config, next: Cron, s: Store, ids: seq<Id>, shots: seq<Shot>, i: nat)
    requires |shots| == |ids| && (forall k | 0 <= k < |ids| :: ids[k] in s.schedulers) && i < |ids|
  {
    Succeeds(cfg, next, StoreAt(cfg, next, s, ids, shots, i), s.schedulers[ids[i]], shots[i])
  }

  /** The turns at which a fire succeeded. */
  function Successes(cfg: Config, next: Cron, s: Store, ids: seq<Id>, shots: seq<Shot>): set<int>
    requires |shots| == |ids| && forall k | 0 <= k < |ids| :: ids[k] in s.schedulers
  {
    set i | 0 <= i < |ids| && TurnSucceeds(cfg, next, s, ids, shots, i)
  }

  /** A tick reports as many jobs as there were successful fires. */
  lemma {:induction false} TickCounts(cfg: Config, next: Cron, s: Store, ids: seq<Id>, shots: seq<Shot>)
    requires |shots| == |ids| && forall k | 0 <= k < |ids| :: ids[k] in s.schedulers
    ensures FireAll(cfg, next, s, s.schedulers, ids, shots).1 == |Successes(cfg, next, s, ids, shots)|
  {
    if ids == [] {
      assert Successes(cfg, next, s, ids, shots) == {};
    } else {
      var n := |ids| - 1;
      TickCounts(cfg, next, s, ids[..n], shots[..n]);
      SuccessesUpTo(cfg, next, s, ids, shots, n);
      FireSucceedsIff(cfg, next, StoreAt(cfg, next, s, ids, shots, n), ids[n], s.schedulers[ids[n]], shots[n]);
    }
  }

  lemma SameTurn(cfg: Config, next: Cron, s: Store, ids: seq<Id>, shots: seq<Shot>, n: nat, i: nat)
    requires |shots| == |ids| && (forall k | 0 <= k < |ids| :: ids[k] in s.schedulers) && i < n <= |ids|
    ensures TurnSucceeds(cfg, next, s, ids[..n], shots[..n], i) <==> TurnSucceeds(cfg, next, s, ids, shots, i)
  {
    assert ids[..n][..i] == ids[..i] && shots[..n][..i] == shots[..i];
  }

  lemma SuccessesUpTo(cfg: Config, next: Cron, s: Store, ids: seq<Id>, shots: seq<Shot>, n: nat)
    requires |shots| == |ids| == n + 1 && forall k | 0 <= k < |ids| :: ids[k] in s.schedulers
    ensures Successes(cfg, next, s, ids, shots) ==
            Successes(cfg, next, s, ids[..n], shots[..n])
            + (if TurnSucceeds(cfg, next, s, ids, shots, n) then {n} else {})
    ensures n !in Successes(cfg, next, s, ids[..n], shots[..n])
  {
    var all, most := Successes(cfg, next, s, ids, shots), Successes(cfg, next, s, ids[..n], shots[..n]);
    forall i: int | 0 <= i < n ensures i in all <==> i in most { SameTurn(cfg, next, s, ids, shots, n, i); }
  }

  /** A fire is the admission of one root job. */
  lemma FireAdmits(cfg: Config, v: View, next: Cron, s: Store, id: Id, row: Scheduler, job: Id, trace: string, now: int)
    requires v.jobs == s.jobs && v.history == s.history && job !in v.born && Conserved(v)
    requires Fire(cfg, next, s, id, row, job, trace, now).Some?
    ensures var t := Fire(cfg, next, s, id, row, job, trace, now).value;
            && job in t.jobs
            && Admits(cfg, v, map[job := t.jobs[job]], None, t.jobs) && t.history == v.history
  {
    var r := Validate(cfg, BuildRequest(row)).value;
    EnqueueAdmits(cfg, v, s, r, job, trace, now);
  }

  // ---- How often a scheduler fires ----

  /** `next` gives the first occurrence strictly after a time. */
  ghost predicate FirstAfter(next: int -> Option<int>, occurs: int -> bool) {
    forall t: int :: next(t).Some? ==>
      t < next(t).value && occurs(next(t).value) && forall u | t < u < next(t).value :: !occurs(u)
  }

  /** Between two consecutive fires, from `i` up to `j`, the pattern occurs, at the time the first fire set. */
  predicate Spaced(next: int -> Option<int>, fires: seq<int>, i: nat, j: nat)
    requires j <= |fires|
  {
    forall k | i <= k < j - 1 :: next(fires[k]).Some? && next(fires[k]).value <= fires[k + 1]
  }

  /** The occurrences in (lo, hi]. */
  ghost function Occurrences(occurs: int -> bool, lo: int, hi: int): set<int> {
    set t | lo < t <= hi && occurs(t)
  }

  /** Consecutive fires between `lo` and `hi` number at most the occurrences after `lo` up to `hi`, plus one. */
  lemma {:induction false} FiresBounded(next: int -> Option<int>, occurs: int -> bool, fires: seq<int>, i: nat,
                                        j: nat, lo: int, hi: int)
    requires i <= j <= |fires| && FirstAfter(next, occurs) && Spaced(next, fires, i, j)
    requires i < j ==> lo <= fires[i] && fires[j - 1] <= hi
    ensures j - i <= |Occurrences(occurs, lo, hi)| + 1
    ensures i < j ==> lo <= fires[j - 1]
    decreases j - i
  {
    if j - i > 1 {
      var t := fires[j - 2];
      var o := next(t).value;
      assert t < o <= fires[j - 1];
      FiresBounded(next, occurs, fires, i, j - 1, lo, t);
      SubsetGrows(Occurrences(occurs, lo, t), Occurrences(occurs, lo, hi), o);
    }
  }

  // ---- A scheduler between two upserts ----

  /**
    What an observer notes since a scheduler was last upserted: its count then, and for each fire the
    reading at which it was selected and the fire's own.
   */
  datatype Firing = Firing(base: nat, selected: seq<int>, times: seq<int>)

  function NextOf(next: Cron, cron: string, zone: string): int -> Option<int> {
    t => next(cron, zone, t)
  }

  /** Each fire sets an occurrence, and the next fire was selected no sooner. */
  predicate Chosen(next: int -> Option<int>, selected: seq<int>, times: seq<int>) {
    && |selected| == |times|
    && forall i | 0 <= i < |times| - 1 :: next(times[i]).Some? && next(times[i]).value <= selected[i + 1]
  }

  /** The count grew by the fires, each selected no sooner than the last one set, and the next run is set likewise. */
  predicate TimerAt(next: Cron, rows: map<Id, Scheduler>, fired: map<Id, Firing>, id: Id) {
    id in rows ==>
      && id in fired
      && rows[id].produced == fired[id].base + |fired[id].times|
      && Chosen(NextOf(next, rows[id].cron, Zone(rows[id])), fired[id].selected, fired[id].times)
      && (fired[id].times != [] ==>
            rows[id].nextRun == next(rows[id].cron, Zone(rows[id]), fired[id].times[|fired[id].times| - 1]))
  }

  ghost predicate TimerLaw(next: Cron, rows: map<Id, Scheduler>, fired: map<Id, Firing>) {
    forall id: Id :: TimerAt(next, rows, fired, id)
  }

  /** The observer's note of a fire. */
  function Noted(fired: map<Id, Firing>, id: Id, selectedAt: int, now: int): map<Id, Firing> {
    if id !in fired then fired
    else fired[id := fired[id].(selected := fired[id].selected + [selectedAt], times := fired[id].times + [now])]
  }

  /** The observer's note of an upsert. */
  function Reset(rows: map<Id, Scheduler>, fired: map<Id, Firing>, id: Id): map<Id, Firing> {
    fired[id := Firing(if id in rows then rows[id].produced else 0, [], [])]
  }

  lemma ChosenAppend(next: int -> Option<int>, selected: seq<int>, times: seq<int>, selectedAt: int, now: int)
    requires Chosen(next, selected, times)
    requires times != [] ==> next(times[|times| - 1]).Some? && next(times[|times| - 1]).value <= selectedAt
    ensures Chosen(next, selected + [selectedAt], times + [now])
  {
  }

  lemma FireKeepsTimer(cfg: Config, next: Cron, s: Store, fired: map<Id, Firing>, id: Id, job: Id, trace: string,
                       selectedAt: int, now: int, x: Id)
    requires Due(s.schedulers, id, selectedAt) && TimerAt(next, s.schedulers, fired, x)
    requires Fire(cfg, next, s, id, s.schedulers[id], job, trace, now).Some?
    ensures TimerAt(next, Fire(cfg, next, s, id, s.schedulers[id], job, trace, now).value.schedulers,
                    Noted(fired, id, selectedAt, now), x)
  {
    FireEffect(cfg, next, s, id, s.schedulers[id], job, trace, now);
    if x == id {
      var row := s.schedulers[id];
      ChosenAppend(NextOf(next, row.cron, Zone(row)), fired[id].selected, fired[id].times, selectedAt, now);
    }
  }

  lemma UpsertResets(next: Cron, rows: map<Id, Scheduler>, fired: map<Id, Firing>, id: Id, spec: Scheduler, now: int,
                     x: Id)
    requires TimerAt(next, rows, fired, x)
    ensures TimerAt(next, Upsert(rows, id, spec, now), Reset(rows, fired, id), x)
  {
  }

  /**
    One more fire keeps the fires spaced by occurrences if and only if it is the first or the scheduler
    is due at the fire's own reading too, not only at the reading it was selected with.
   */
  lemma SpacedIffDue(next: Cron, rows: map<Id, Scheduler>, fired: map<Id, Firing>, id: Id, selectedAt: int, now: int)
    requires TimerAt(next, rows, fired, id) && Due(rows, id, selectedAt)
    requires var times := fired[id].times; Spaced(NextOf(next, rows[id].cron, Zone(rows[id])), times, 0, |times|)
    ensures var times := fired[id].times;
            Spaced(NextOf(next, rows[id].cron, Zone(rows[id])), times + [now], 0, |times| + 1) <==>
            times == [] || Due(rows, id, now)
  {
    var rule, times := NextOf(next, rows[id].cron, Zone(rows[id])), fired[id].times;
    if times != [] {
      var n := |times| - 1;
      assert (times + [now])[n] == times[n] && (times + [now])[n + 1] == now;
      assert rule(times[n]) == rows[id].nextRun;
      var more := times + [now];
      forall i | 0 <= i < n ensures rule(more[i]).Some? && rule(more[i]).value <= more[i + 1] {
        assert rule(times[i]).Some? && rule(times[i]).value <= times[i + 1];
      }
    }
  }

  /** Fires `i` to `j` but the first were each made no earlier than they were selected. */
  predicate Prompt(f: Firing, i: nat, j: nat)
    requires |f.selected| == |f.times| && j <= |f.times|
  {
    forall k | i < k < j :: f.selected[k] <= f.times[k]
  }

  lemma PromptIsSpaced(next: int -> Option<int>, f: Firing, i: nat, j: nat)
    requires Chosen(next, f.selected, f.times) && i <= j <= |f.times| && Prompt(f, i, j)
    ensures Spaced(next, f.times, i, j)
  {
    forall k | i <= k < j - 1 ensures next(f.times[k]).Some? && next(f.times[k]).value <= f.times[k + 1] {
      assert f.selected[k + 1] <= f.times[k + 1];
    }
  }

  /**
    The fires in any span are at most the pattern's occurrences in it, plus one, if the clock did not go
    back between the selection of a fire and the fire.
   */
  lemma SpanFires(next: int -> Option<int>, f: Firing, occurs: int -> bool, i: nat, j: nat, lo: int, hi: int)
    requires Chosen(next, f.selected, f.times) && FirstAfter(next, occurs)
    requires i <= j <= |f.times| && Prompt(f, i, j)
    requires i < j ==> lo <= f.times[i] && f.times[j - 1] <= hi
    ensures j - i <= |Occurrences(occurs, lo, hi)| + 1
  {
    PromptIsSpaced(next, f, i, j);
    FiresBounded(next, occurs, f.times, i, j, lo, hi);
  }
}
