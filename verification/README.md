# AnvilMQ broker core, modelled and proved in Dafny

AnvilMQ is a job queue server: clients add jobs and trees of dependent jobs, workers poll for a
job, hold it under a lease, and complete or fail it, and background passes recover expired
leases, fire cron schedulers and prune old rows. All of it is one SQLite database behind one lock,
and every call is one all-or-nothing transaction.

The model has three layers.

- **Calls as functions on tables.** A whole database, with the in-memory gauges, is one value
  (`Tables.Store`). For every call there is a function from the database and the request to the
  new database and the reply, with the branches, constants and error codes of the source
  (`Enqueue`, `Flow`, `Flatten`, `Dispatch`, `Finish`, `Leases`, `Retention`, `Scheduler`,
  `Ingress`, `Rules`, `Backoff`). `Queries` gives `ORDER BY ... LIMIT` its meaning.
- **Calls as code.** `Service.Broker` is the object: one mutable field `db`, one method per call.
  `Transactions`, `FlowTransactions` and `Flatten.Preparation` hold the loops of the source: the
  `while flag` cascade, the batch loop with early rollback, the node-by-node inserts, the
  recovery loop, the recursive flattening that pushes onto its accumulators. Each is proved to
  compute the function.
- **Runs.** `World` defines every finite sequence of calls and passes from a fresh schema, in any
  order, with any arguments, and an observer who sees only committed states and answers. It
  proves by induction over runs that every reachable world obeys all laws (`RunIsSound`);
  `Promises`, `GateRuns`, `HistoryRuns`, `Ticks` and `FairRuns` read the guarantees off. Duplicated, late and reordered messages are
  just other sequences.

What each call decides and writes is also said row by row, without the functions that compute it:
`AdmittedRows`, `FlowRows`, `FlowCalls`, `AcceptedFlows`, `MergeCalls`, `ClaimedRows`,
`FinishedRows`, `RecoveredRows`, `FiredRows`, `SweptRows` and `RuleLaws`. `DeliveryRuns`,
`Deliveries` and `RetryRuns` carry these facts through whole runs.

In between, `Lifecycle` is an abstract machine of seven moves over the `jobs` and `job_history`
tables. Every call is shown to be one of these moves or, for batches, a sequence of admissions, so the
hardest invariants (`LifecycleLaws`, `Gate`, `Forest`) are proved once per move.

## What is assumed

- A transaction is atomic and serial; a rolled back one leaves the database as it was.
- New ids never repeat. Ids, trace ids, clock readings, random numbers and the cron library are
  inputs. A claim reads the clock twice, as the source does, and a scheduler tick once more than it
  fires; every other transaction once.
- Where SQL leaves open which rows a bounded `DELETE` takes, the choice is part of the step. Every
  law holds for every choice.
- `f64` is modelled by exact reals; backoff columns are bounded by their 64-bit type (`Tables.Long`). Receipts keep the normalized request itself in place of its
  encoded bytes.
- Laws about time (ingress and dispatch windows) are for runs in which the clock never goes back
  and `now + window` stays inside 64 bits (`World.Timely`).
- AddJob may name a live parent too, and completing such a child takes one off the parent's count as
  well. So the promise that a parent waits for all its flow children has an exact condition: it
  holds in a run if and only if no completion opened the parent's gate early, that is, with
  0 < open flow children <= completed outside children after it (`GateRuns.GateRightIff`,
  `Promises.OpensExactlyWhen`). The gauges are exact if and only if no terminal failure took an
  ancestor that was not parked (`Promises.GaugesExactIff`). If no AddJob names a live parent
  (`World.OnlyFlowsLinkToLive`), neither ever happens; `EarlyRelease` gives a run where both do.
- A tick reads the clock once to select and every fire reads it again. The fires of a span are bounded
  by the pattern's occurrences if no fire reads an earlier clock than its selection did; `ClockBack`
  gives runs, for any number of fires, without that.

Facts of the code that the proofs depend on: completing any child, of whatever origin, takes one
off its live parent's count (src/main.rs:520-525); only FailJob cascades, an expired lease does not
(src/leases.rs:79-85), and its history row loses the flow columns; the cascade counts down the
WaitingChildren gauge only for ancestors that were in that state (src/main.rs:594-597).

## Model

| member | source | states |
|---|---|---|
| World.RunIsSound | src/main.rs:136-138 | every world of every run obeys conservation, fencing, ledger, gate, forest, lineage, receipt, chain, scheduler and turn laws; the window laws too if the clock never goes back |
| World.StepIsSound | src/enqueue.rs:480-483 | any one call or background pass takes a world that obeys the laws to one that does |
| World.StepGauges | src/telemetry.rs:391-399 | from exact gauges, any one call or pass leads to exact gauges if and only if it is no terminal failure that takes an ancestor which is not parked |
| Promises.CountIsLedger | src/main.rs:513-549 | in every run a live job's pending count is the flow children ever attached less the children, of any origin, whose completion committed |
| Promises.CountIsExactIff | src/main.rs:520-525 | with no hypothesis: that count is the number of open flow children if and only if every completed child was placed by a flow |
| Promises.ParkedHasOpenChild | src/main.rs:536-545 | in every run, with no hypothesis, a parked job has a flow child that is not completed |
| Promises.ParkedExactly | src/flow.rs:662-679 | a live job of which only flow children have completed is WaitingChildren exactly while some flow child ever attached is not completed, and its count is their number |
| Promises.OpensExactlyWhen | src/main.rs:520-545 | a completion takes the parked parent out of WaitingChildren exactly when the flow children that stay open are no more than the completed children from outside, both readable before the call |
| GateRuns.GateRightIff | src/main.rs:513-549 | a job is parked exactly while a flow child is open, in every world up to any point of any run, if and only if no completion before that point opened its gate early |
| GateSteps.MoveRightIff | src/main.rs:520-545 | from a right gate, a move leads to a right gate if and only if it is not such an early completion |
| Promises.CleanIsNeverEarly | src/main.rs:520-545 | a job of which only flow children have completed never had its gate opened early |
| Promises.FlowsAreNeverEarly | src/enqueue.rs:295-357 | in a run where no AddJob names a live parent, no gate is ever opened early |
| Promises.NothingOpenBelow | src/main.rs:513-549 | every job ever placed beneath a claimed or completed job, at any depth, is completed, if no gate on the way was opened early |
| Promises.NothingOpenBelowClean | src/main.rs:513-549 | in particular if only flow children of the jobs on the way have completed |
| Promises.ExactlyOnePlace | src/main.rs:499-509 | an admitted id is at all times in exactly one of live, history, pruned; its recorded end never changes, once ended it is never live again and once pruned never back in history; a live row has owner and lease exactly while Active |
| HistoryRuns.PrunedForGood | src/retention.rs:195-219 | what retention has pruned is not archived again in any continuation of the run |
| Promises.ClaimsAreNumbered | src/main.rs:212-229 | a job's claims carry 1, 2, 3, ... without gap and at most `max_attempts` of them, and are closed in that order, each once |
| Promises.ClosedForGood | src/main.rs:461-479 | once an attempt is closed, no later CompleteJob, FailJob or Heartbeat carrying it changes any table, in any continuation of the run |
| Promises.CompletionReplays | src/main.rs:449-459 | an accepted completion sent again at any later time is answered the same and changes nothing until its history row is pruned |
| Promises.ForestHolds | src/flow.rs:523-572 | flow links never close a cycle, paths stay within `max_flow_depth`, live parent and child share the tree and differ by one in depth |
| Promises.TreesAreSmall | src/flow.rs:523-572 | in every world no tree has more than `max_flow_nodes` live rows and no live row is deeper than `max_flow_depth` |
| Promises.LineageHolds | src/enqueue.rs:295-357 | a chain of AddJob children stays in one trace and has at most `max_execution_depth` + 1 jobs |
| Promises.KeysAreExclusive | src/enqueue.rs:443-449 | every live keyed job has its receipt as issued, and no two live jobs hold one queue and key |
| Promises.ReceiptsLast | src/main.rs:510-512 | a release-on-finish receipt is stored exactly while its job is live, a retained one at least while its job is live or in history |
| Promises.ReplaysAreHarmless | src/enqueue.rs:223-251 | as long as a receipt is stored, its request sent again gets the id and initial state recorded at issue, a different request for its queue and key gets AlreadyExists, and neither changes anything |
| Promises.GaugesExactIff | src/telemetry.rs:391-399 | all six gauges equal the row counts in every world up to any point of any run if and only if no terminal failure before it took an ancestor that was not parked |
| Promises.GaugesAreExact | src/telemetry.rs:391-399 | so they always do, restarts included, in a run where no AddJob names a live parent |
| Promises.IngressPairIsExact | src/ingress_limit.rs:31-48 | under a standing rule the pair a facet is judged by, rolled to any later time, counts exactly its entries in the grid window of that time and in the one before |
| Promises.IngressDecision | src/ingress_limit.rs:192-237 | a job of the facet is refused exactly when P(w-e) + cw reaches mw, with P and c those counts of entries and e the offset in the window |
| Promises.EntriesHadRoom | src/ingress_limit.rs:219-231 | every entry since the rule was set, by AddJob, bulk call or scheduler, was let in with w(P+c) < w(m+1) + Pe, P and c counting the entries up to and with it |
| Promises.SpansAreBounded | src/rate_limit.rs:90-99 | any span of one window length holds at most twice `max_jobs` admissions (ingress) or claims (dispatch), and a stored dispatch count never exceeds `max_jobs` |
| Promises.ChainsAreCounted | src/enqueue.rs:380-415 | with a cap, a trace's counter equals the AddJob and scheduler admissions since its row appeared and stays within the cap |
| Promises.FiresAreCounted | src/db.rs:812-825 | between upserts `produced_count` grows by exactly the fires, each selected no sooner than the occurrence the fire before it set, and the next run is the occurrence after the last fire |
| Promises.FiresAreBounded | src/scheduler.rs:94-97 | any span holds at most its cron occurrences plus one of the fires, if no fire of the span reads an earlier clock than its selection did |
| Ticks.TickIsRun | src/scheduler.rs:106-144 | from any world of any run a tick is a run of fire steps, one for each due scheduler in order, ending in the database the tick's loop computes |
| ClockBack.FiresRepeat | src/scheduler.rs:75-101 | for every k, a run in which a scheduler fires k times in a span without any occurrence, because its fires read an earlier clock than the ticks that selected them |
| FairRuns.TurnsAreDistinct | src/main.rs:239-252 | turn numbers of different facets differ in every world of every run, prunes included |
| FairRuns.ServedInBetween | src/main.rs:156-171 | with no fairness row pruned between, a facet is not served twice while another facet eligible at the second claim's priority went unserved |
| FairRuns.EachOnce | src/main.rs:230-252 | while exactly k facets are eligible at the lowest tier, k claims in a row serve each of them exactly once |
| Deliveries.DeliveredAsAsked | src/enqueue.rs:416-441 | over a run, any later poll that hands out the job of an AddJob request hands out its name, payload and parent, at most `max_attempts` times, the first time not before its delay has passed, and never before if the clock never goes back |
| Deliveries.DeliveredAsSent | src/flow.rs:214-246 | the same for every node of every flow |
| Deliveries.AddedAsAsked | src/enqueue.rs:416-441 | a request admitted in a run is born as it was asked |
| Deliveries.FlowAddedAsSent | src/flow.rs:182-264 | after an AddFlow step of a run every node is stored as it was sent, and the rows read back by their parent links are the normalized tree |
| Deliveries.MergeAddedAsSent | src/flow.rs:578-655 | after a merge step of a run every new node is stored as it was sent |
| Deliveries.FiredAsScheduled | src/scheduler.rs:75-101 | the job of a fire step of a run is born as its scheduler says |
| DeliveryRuns.DeliveredAsAdmitted | src/main.rs:139-215 | whatever a poll hands out was admitted, carries the card it was admitted with, and is handed out for the first time not before it was admitted to be due |
| DeliveryRuns.NeverTooEarly | src/main.rs:139-142 | with a clock that never goes back, no poll hands a job out before that time, retries included |
| DeliveryRuns.HeldWasHanded | src/main.rs:212-229 | in every run a claim is held only by the worker that some earlier poll handed this very attempt to |
| DeliveryRuns.FinishTakesEffect | src/main.rs:434-479 | in every run a completion or failure changes the database exactly if its sender holds the named claim under a live lease, and then some earlier poll handed it that claim |
| RetryRuns.RunSensible | src/enqueue.rs:163-188 | in every run every live job has valid retry options |
| RetryRuns.FailureRetries | src/main.rs:487-497 | in every run a retried failure is due again after min(base * 2^(n-1), cap), jittered, and keeps everything but state, due time, owner, lease and error |
| RetryRuns.RecoveryTakesOldest | src/leases.rs:61-104 | in every run a recovery pass requeues or fails the claims that expired first, as many as the batch allows, and leaves every other row |
| EarlyRelease.GateCanOpenEarly | src/main.rs:520-545 | a run in which an AddJob child completes under a flow root and the root becomes claimable with a flow child still open |
| EarlyRelease.GaugesCanDrift | src/main.rs:594-597 | a run after which some gauge differs from its row count |
| LifecycleLaws.MoveConserves | src/main.rs:499-509 | every move keeps ids accounted for: live or dead, never both, with the card they were born with |
| LifecycleLaws.MoveKeepsFenced | src/main.rs:212-229 | every move keeps claims numbered and closed in order |
| LifecycleLaws.MoveKeepsLedger | src/main.rs:520-525 | every move keeps each live count equal to children attached less children completed |
| Gate.MoveKeepsGate | src/main.rs:536-545 | every move keeps parked jobs over an open flow child, and jobs without completed outside children parked exactly while their count is positive |
| Gate.OpensExactly | src/main.rs:520-545 | a completion opens the gate of a parked parent exactly when what stays open is no more than the completed outside children |
| Gate.NothingBelowIsOpen | src/main.rs:513-549 | by induction along flow links, everything beneath a claimed or completed job is completed, if the gates on the way are right |
| Gate.CountExactIff | src/main.rs:520-525 | the count is the number of open flow children if and only if no child from outside a flow was completed |
| Forest.MoveKeepsForest | src/flow.rs:523-572 | every move keeps tree ids, depths and tree sizes within the caps |
| Forest.FlowLinksAcyclic | src/flow.rs:578-635 | no path of flow links returns to its start |
| Forest.MoveKeepsLineage | src/enqueue.rs:295-357 | every move keeps AddJob children one deeper than their parent and in its trace |
| Forest.ChainBounded | src/enqueue.rs:361-377 | a chain of AddJob links shares one trace and is bounded by the execution depth limit |
| FlowLaws.TreeAdmits | src/flow.rs:182-264 | storing an acceptable new tree writes rows whose counts, depths and tree ids make it an admission of the job machine |
| FlowLaws.MergeAdmits | src/flow.rs:523-679 | a merge within the caps is an admission that re-gates its target by the number of new direct children |
| EnqueueLaws.EnqueueAdmits | src/enqueue.rs:295-441 | an admitted request is one new resting row outside any tree, one deeper than its parent |
| Flatten.Preparation.PrepareNode | src/flow.rs:51-148 | accepts exactly the trees within both caps with valid fields and unused keys, and appends their rows and keys to the accumulators |
| Flatten.Preparation.PrepareAll | src/flow.rs:136-147 | the loop over children accepts a list exactly when each tree is acceptable in the room the earlier ones left |
| Flatten.CheckBody | src/flow.rs:70-101 | accepts exactly the valid option sets and fills in the defaults |
| FlattenLaws.FlatLink | src/flow.rs:109-147 | every row hangs one level under the list's parent or under an earlier row |
| FlattenLaws.FlatCounts | src/flow.rs:110-135 | every row's pending count is the number of rows that name it as parent |
| FlattenLaws.FlattenRoundTrip | src/flow.rs:51-148 | links and options of the list give back the normalized tree |
| ReceiptLaws.FlatSlots | src/flow.rs:102-108 | the list carries the keys of the tree in order |
| FlowCalls.FlowsAsSent | src/flow.rs:182-264 | after AddFlow or AddFlowBulk every node has a row with its name, payload, priority, facet, retry options, attempts limit, flag and due time, defaults filled in, exactly keyed nodes have a receipt, and the answer describes the row |
| FlowCalls.FlowsReadBack | src/flow.rs:182-264 | the rows, read from the tables alone by their parent links, are the normalized tree that was sent |
| FlowCalls.FlowsExactly | src/flow.rs:360-418 | the call succeeds exactly if its size is allowed, its trees are acceptable and every node has a due time in range and a free key; else it changes nothing and the first offending node decides the code |
| AcceptedFlows.AcceptedExactly | src/flow.rs:51-148 | trees are acceptable together exactly if each is within both caps, every node is well formed, and no key occurs twice in the call |
| MergeCalls.MergeExactly | src/flow.rs:436-607 | a merge succeeds exactly if no check stops it and every new node can be stored; else it changes nothing and answers for the first obstacle |
| MergeCalls.MergeAsSent | src/flow.rs:578-655 | after a merge every new node has a row as it was sent, in the target's tree, and the answer describes it |
| MergeCalls.MergeReadsBack | src/flow.rs:578-655 | the attached rows, read from the tables alone, are the normalized children that were sent |
| MergeCalls.MergeTarget | src/flow.rs:656-679 | the target is parked and waits for its new direct children too, and every other old row stays |
| FlowRows.ListStored | src/flow.rs:192-264 | storing a list gives every node of it a row with its options and, exactly if it has a key, one receipt |
| FlowTransactions.StoreNodes | src/flow.rs:192-264 | the insert loop stores every node and its receipt column by column, or stops with the code of the first node that cannot be stored |
| FlowTransactions.FlushNodes | src/flow.rs:288-301 | the loop after the commit counts each node once |
| FlowTransactions.FlushedIsAdded | src/flow.rs:288-301 | counting node by node adds the number of stored rows per state |
| FlowTransactions.ResolvedForest | src/flow.rs:578-582 | linking parentless nodes to the target gives the forest flattened under the target |
| FlowTransactions.DeepestIsHeight | src/flow.rs:480-482 | the deepest relative level of the prepared nodes is the height of the attached trees |
| FlowTransactions.RootsAreTrees | src/flow.rs:480-483 | the parentless prepared nodes are as many as the request's children |
| Service.Broker.AddFlows | src/flow.rs:360-430 | AddFlow and AddFlowBulk: succeeds exactly if every node can be stored, then every node is stored as it was sent; else nothing changes |
| Service.Broker.AddFlowMerge | src/flow.rs:436-702 | prepares the children, checks target and merged caps in the source's order, stores every new node as it was sent, re-gates; or changes nothing |
| Service.PrepareTrees | src/flow.rs:382-400 | the validation loop accepts exactly the lists of trees acceptable with one key set for the whole call |
| Service.StoreTrees | src/flow.rs:409-418 | the storing loop reaches the state of inserting the trees one after the other, or the first failure |
| Service.AttachNodes | src/flow.rs:578-679 | a merge's writes: the new rows, their receipts and the target's new count and state |
| Finish.DoomedIsClosed | src/main.rs:550-601 | the jobs a failure takes include the live parent of every flagged one |
| Finish.DoomedIsLeast | src/main.rs:550-601 | and nobody else: they are the least such set holding the failing job |
| Finish.DoomedByPath | src/main.rs:550-601 | equivalently, they are exactly the jobs that a path of flagged links through live jobs leads to |
| Finish.FailureTakes | src/main.rs:550-601 | a terminal failure moves exactly those to history as failed, each with its error, and leaves every other live and archived row as it was |
| Finish.UnflaggedFailsAlone | src/main.rs:551-556 | a terminal failure of an unflagged job changes no other live row, no other history row and no receipt but its own |
| Finish.FinishIsMove | src/main.rs:434-601 | CompleteJob and FailJob refuse, replay, requeue, settle exactly the doomed, or complete and credit the parent |
| FinishedRows.FinishExactly | src/main.rs:434-479 | a call changes the database exactly if id and worker are not blank and the job is Active, owned by the worker, at that attempt and under a lease that has not run out; else the first condition that fails decides the answer |
| FinishedRows.RetryWrites | src/main.rs:487-497 | a retry puts the job back with its error, due after the doubled, capped and jittered backoff, and changes no other row |
| FinishedRows.CompletionWrites | src/main.rs:499-549 | a completion archives the job with its result, takes one off its live parent, which becomes Delayed or Waiting by its own due time when its gate opens, and releases its own receipt only |
| FinishedRows.FailureReleases | src/main.rs:510-512 | a terminal failure releases exactly the releasing receipts of the jobs it takes |
| Transactions.FailUpward | src/main.rs:558-600 | the `while flag` loop ends, because each round removes a live row, having moved exactly the doomed jobs to history and counted the parked ones |
| Transactions.CompleteAndRelease | src/main.rs:499-548 | moves the job to history, takes one off the live parent's count and opens its gate at zero |
| Transactions.CountFailures | src/main.rs:625-628 | the loop after the commit counts every failed ancestor |
| Service.Broker.FinishJob | src/main.rs:425-631 | the whole call: it takes effect exactly if the claim is honoured, says whether the job failed for good, and otherwise answers for the first condition that fails |
| ClaimedRows.PollExactly | src/main.rs:139-252 | a poll hands out the claimable job that precedes all others, under its next attempt and a full lease, counts it in its facet's window and takes its facet's turn; with no claimable job it finds nothing and changes nothing |
| ClaimedRows.GrantIsGood | src/main.rs:212-229 | until the granted lease runs out, and not after, the worker can complete, fail or renew the claim with what it was handed |
| ClaimedRows.PickIsNext | src/main.rs:139-178 | nothing is picked exactly if no job is Waiting or Delayed, due, of a polled name and with room in its window; what is picked comes first by priority, turn, age and id |
| Service.Broker.GetNextJob | src/main.rs:117-263 | the whole call: the next claimable job is claimed as the answer describes, or nothing changes |
| Service.ConsumeQuota | src/rate_limit.rs:90-99 | opens a window or counts one more in the open one |
| Dispatch.EmptyPollMeansNothingEligible | src/main.rs:139-153 | a poll finds nothing exactly when no due, matching, unblocked job exists |
| Dispatch.PickIsBest | src/main.rs:156-178 | the picked job comes first by priority, then by turn (or by age when fairness is off), then by age |
| Dispatch.PollIsMove | src/main.rs:212-229 | a poll changes nothing or claims one waiting job under the next attempt number |
| Fairness.NobodyIsSkipped | src/main.rs:239-252 | between two turns of a facet, anyone at least as entitled at the second was served |
| Fairness.RoundRobin | src/main.rs:230-252 | k claims over k competing facets serve each exactly once |
| Windows.ConsumeKeepsPace | src/rate_limit.rs:90-99 | a claim that selection let through keeps the count within the limit and every span within twice the limit |
| Windows.RateSpan | src/main.rs:150-150 | while a rule stands the stored count is between 1 and the limit and every span holds at most twice the limit |
| Ingress.RollComposes | src/ingress_limit.rs:31-48 | rolling to t1 and then to t2 is rolling to t2 |
| Ingress.StatusAgreesWithAdmit | src/ingress_limit.rs:155-178 | status reports throttled exactly when an admission would be refused |
| Ingress.EstimateExact | src/ingress_limit.rs:50-54 | the weighted estimate reaches m exactly when P(w-e) + cw reaches mw |
| Ingress.AdmissionKeeps | src/ingress_limit.rs:192-237 | an admission keeps the pair equal to the grid counts, every grid window within m, and satisfies w(P+c) < w(m+1) + Pe |
| Ingress.Decision | src/ingress_limit.rs:192-237 | whatever is stored, a refusal at any time is decided by the grid counts of the admissions alone |
| Ingress.SpanBound | src/ingress_limit.rs:192-237 | any span of one window length holds at most 2m admissions |
| Limits.BatchKeepsIngress | src/enqueue.rs:252-257 | a batch keeps every facet's pair in step with its admissions, replays not counted |
| Limits.BatchKeepsChain | src/enqueue.rs:380-415 | a batch keeps every trace counter equal to its admissions and within the cap |
| AdmittedRows.ValidExactly | src/enqueue.rs:149-206 | exactly the well-formed requests within the depth limit are valid, and become normal |
| AdmittedRows.AdmittedExactly | src/enqueue.rs:214-415 | replay, conflict, throttle, overflow, missing parent, wrong depth, depth limit and chain cap are looked at in this order; the first that applies decides code and record, and with none the job is admitted |
| AdmittedRows.NewRow | src/enqueue.rs:416-449 | a new admission adds one row that holds the request, due after its delay, one below its parent or where the client says, and its receipt |
| AdmittedRows.NewCounters | src/enqueue.rs:380-415 | it counts once in its trace and once in its facet's window, and no other table changes |
| AdmittedRows.CallServed | src/enqueue.rs:564-628 | after a successful AddJob or AddJobBulk every request that is not a replay has a job as asked, and the answers come in order |
| AdmittedRows.CallRejected | src/enqueue.rs:472-531 | a valid call that fails does so at the first request that is not admitted; all before it is undone, and what remains is at most that request's one rejection record |
| AdmittedRows.FirstInvalid | src/enqueue.rs:603-609 | a call is valid exactly if all its requests are, else the first invalid one decides the code |
| Transactions.AdmitJob | src/enqueue.rs:214-464 | the admission checks and writes in the source's order |
| Transactions.Locate | src/enqueue.rs:295-357 | depth and trace are the parent's plus one and the parent's trace, or the client's without a parent |
| Transactions.ValidateBatch | src/enqueue.rs:603-609 | validates every request before any transaction, first failure wins |
| Transactions.ExecuteBatch | src/enqueue.rs:472-531 | the batch loop enqueues in order and stops at the first failure |
| Service.Broker.AddJobs | src/enqueue.rs:564-628 | AddJob and AddJobBulk: every request that is not a replay becomes a job as asked, or nothing but one rejection record is written |
| EnqueueLaws.ReplayIsIdempotent | src/enqueue.rs:223-251 | a request that matches its receipt gets the original answer and changes nothing |
| EnqueueLaws.AdmissionThenReplay | src/enqueue.rs:443-464 | right after an admission the same request is such a replay |
| EnqueueLaws.BulkRefinesSingles | src/enqueue.rs:472-531 | a successful bulk enqueue reaches the state and replies of enqueuing its requests one by one at that instant |
| EnqueueLaws.RepliesInOrder | src/enqueue.rs:519-530 | the replies come in request order, one each |
| EnqueueLaws.FailedBatchLeavesNoTrace | src/enqueue.rs:494-517 | a failing call leaves every table unchanged but for at most one rejection row |
| ReceiptLaws.NoSharedSlot | src/db.rs:393-403 | under the law no two live jobs hold one queue and key |
| ReceiptLaws.ReleasedExactly | src/main.rs:510-512 | a releasing receipt is stored exactly while its job is live |
| ReceiptLaws.ReplayAnswersAsIssued | src/enqueue.rs:223-251 | as long as a receipt is stored, AddJob for its slot returns the answer as issued or AlreadyExists, and the same database |
| ReceiptLaws.BatchKeepsReceipts | src/enqueue.rs:443-449 | a batch keeps the receipt law, with the receipts it issued |
| ReceiptLaws.TreesKeepReceipts | src/flow.rs:196-213 | storing trees keeps the receipt law |
| ReceiptLaws.MergeKeepsReceipts | src/flow.rs:589-607 | a merge keeps the receipt law |
| ReceiptLaws.FinishKeepsReceipts | src/main.rs:589-593 | completing, failing and cascading keep the receipt law |
| ReceiptLaws.RecoverKeepsReceipts | src/leases.rs:84-84 | lease recovery keeps the receipt law |
| ReceiptLaws.SweepKeepsReceipts | src/retention.rs:221-233 | a sweep keeps the receipt law |
| GaugeLaws.CascadeDrift | src/main.rs:594-597 | after a cascade each gauge is off by exactly the victims that were in its state, WaitingChildren and the outcomes by none |
| GaugeLaws.CascadeExactIff | src/main.rs:624-628 | a cascade keeps the gauges exact if and only if every ancestor it takes was parked |
| GaugeLaws.CascadeParked | src/main.rs:550-601 | if only flows link to live parents, every ancestor a cascade takes was parked |
| GaugeLaws.VictimsParked | src/main.rs:550-601 | so then a failure takes parked ancestors only |
| GaugeLaws.FinishExactIff | src/main.rs:604-628 | completing and retrying keep the gauges exact, and a terminal failure does if and only if every ancestor it takes was parked |
| GaugeLaws.RecoverKeepsGauges | src/leases.rs:89-92 | a recovery pass keeps the gauges exact |
| GaugeLaws.SweepKeepsGauges | src/telemetry.rs:440-466 | a sweep keeps the gauges exact |
| GaugeLaws.MergeKeepsGauges | src/flow.rs:681-692 | a merge keeps the gauges exact |
| GaugeLaws.TreesKeepGauges | src/flow.rs:288-301 | storing trees keeps the gauges exact |
| GaugeLaws.BatchKeepsGauges | src/enqueue.rs:68-80 | a batch keeps the gauges exact |
| GaugeLaws.PollKeepsGauges | src/main.rs:255-255 | a poll keeps the gauges exact |
| Telemetry.SeedIsExact | src/telemetry.rs:353-389 | start-up seeds every gauge with its row count |
| Service.Broker.Restart | src/telemetry.rs:353-389 | a restart makes every gauge equal to its row count and changes nothing else |
| Leases.HeartbeatIsMove | src/leases.rs:28-59 | a heartbeat changes nothing or renews the lease of a held job |
| Leases.HeartbeatExtends | src/leases.rs:28-59 | an accepted heartbeat names the running claim, moves its lease a full lease ahead and never back, and changes nothing else |
| FinishedRows.HeartbeatExactly | src/leases.rs:28-59 | a heartbeat is accepted exactly for a claim that is held as named under a live lease; else nothing changes and the first condition that fails decides the code |
| Leases.BatchIsExpired | src/leases.rs:68-73 | a pass takes only Active rows whose lease has run out, at most the batch |
| Leases.OldestFirst | src/leases.rs:68-73 | an Active row whose lease has run out is left out of a pass only if the batch is full of rows that expired no later |
| RecoveredRows.RecoverExactly | src/leases.rs:68-86 | a pass takes the claims that expired first, as many as the batch allows; with attempts left they go back after their backoff, else they fail, and every other row stays |
| RecoveredRows.NoneLeft | src/leases.rs:68-86 | a pass whose batch is large enough leaves no Active row with an expired lease |
| RecoveredRows.LeftBehind | src/leases.rs:68-73 | otherwise one is left only behind a full batch of claims that expired no later, none of them held any more |
| Leases.RecoverIsMove | src/leases.rs:75-86 | a pass requeues the rows with attempts left and fails the others |
| Transactions.RecoverBatch | src/leases.rs:75-86 | the loop reaches the state of recovering the whole batch at once |
| Transactions.CountRecovered | src/leases.rs:89-100 | the loop after the commit moves each row from Active to where it went |
| Service.Broker.RenewLease | src/leases.rs:28-59 | the whole call, accepted exactly for a held claim; the lease it answers with is never earlier than the one held, and a refusal changes nothing |
| Service.Broker.RecoverExpired | src/leases.rs:61-104 | the whole pass; it reports the expired claims up to the batch, and if they all fit leaves none |
| Retention.SweepSpares | src/retention.rs:221-233 | a sweep touches no live job and no receipt whose job still exists |
| Retention.PassKeepsSurvivors | src/retention.rs:195-219 | whatever it picks, a pass leaves the set of rows to keep unchanged and deletes none of them |
| Retention.RetentionConfluent | src/retention.rs:281-327 | at a fixed clock, whatever the passes pick, they end with exactly the rows within the age cutoff and among the newest of their name |
| SweptRows.RemainExactly | src/retention.rs:195-219 | said of the policy's own fields: what remains are the Completed and Failed rows not older than their age and with fewer newer rows of their name than are kept |
| SweptRows.OnlyDue | src/retention.rs:195-219 | a sweep deletes only history rows that are too old or crowded out, and keeps the others as they are |
| SweptRows.AgePruned | src/retention.rs:195-204 | unless the batch ran out, no row that is too old is left |
| SweptRows.OldestGoFirst | src/retention.rs:195-204 | of the rows too old, those that finished first go first |
| SweptRows.CountPruned | src/retention.rs:206-219 | unless the batch ran out, no row that is crowded out is left |
| SweptRows.ReceiptsPruned | src/retention.rs:221-233 | receipts go only if their job is in neither table, and unless the batch ran out none such is left |
| SweptRows.ChainsPruned | src/retention.rs:235-246 | trace counters go exactly after their idle time, up to the batch |
| SweptRows.FacetsPruned | src/retention.rs:248-263 | turns go exactly after their idle time and only of facets without a live job, up to the batch |
| SweptRows.RejectionsPruned | src/retention.rs:265-279 | rejection records go exactly when old enough, up to the batch |
| Service.PickRows | src/retention.rs:281-327 | for every database and policy there is a legal choice of rows for every statement of a sweep |
| Service.PickOldest | src/retention.rs:195-204 | the oldest candidates, as many as the limit allows |
| Service.Broker.Sweep | src/retention.rs:281-338 | the whole pass, statement by statement, at most a batch per dimension; it reports the number of rows that are gone, and only history rows that are too old or crowded out go |
| Scheduler.FireEffect | src/scheduler.rs:75-101 | a fire inserts exactly one job, counts it and moves on to the next occurrence |
| FiredRows.FireStores | src/scheduler.rs:75-101 | a fire stores one root job with the scheduler's name, payload and options, due at once, no receipt, and advances its own row and no other |
| Scheduler.SoonestFirst | src/db.rs:796-811 | a due scheduler is left out of a tick only if the batch is full of schedulers due no later |
| Scheduler.FireIsolated | src/scheduler.rs:75-101 | a fire leaves every other scheduler alone |
| Scheduler.FireSucceedsIff | src/scheduler.rs:75-101 | a fire succeeds exactly if its own request is valid, its own admission succeeds and its pattern has a next occurrence |
| Scheduler.TickLeavesOthers | src/scheduler.rs:127-137 | a tick leaves every scheduler it does not fire alone |
| Scheduler.TickTurn | src/scheduler.rs:127-137 | each due scheduler is fired from the row that was selected, still due, and a fire that fails leaves the database as it was |
| Scheduler.TickCounts | src/scheduler.rs:127-137 | a tick reports as many jobs as there were successful fires |
| Scheduler.FiresBounded | src/scheduler.rs:94-97 | fires spaced by occurrences number at most the occurrences in their span plus one |
| Scheduler.SpacedIffDue | src/scheduler.rs:94-97 | one more fire keeps the fires an occurrence apart if and only if it is the first or the scheduler is due at the fire's own reading |
| Scheduler.SpanFires | src/db.rs:796-825 | the same for any stretch of a scheduler's fires between upserts, none of which reads an earlier clock than its selection |
| Service.FireOne | src/scheduler.rs:75-101 | job and advance together, or nothing |
| Service.FireDue | src/scheduler.rs:127-137 | the loop fires each due scheduler from its row and passes over the ones that fail |
| Service.Broker.RunOnce | src/scheduler.rs:106-144 | the whole tick over at most `limit` due schedulers; the answer is the number of turns at which a fire succeeded |
| RuleLaws.AcceptedRules | src/rate_limit.rs:18-39 | exactly the rules with an exact key and a positive window that fits are accepted |
| RuleLaws.RateStartsAfresh | src/rate_limit.rs:18-39 | a set rule holds the facet back exactly if its limit is 0, the next claim opens a window of its own, and nothing of another facet or table changes |
| RuleLaws.RateRemoved | src/rate_limit.rs:41-69 | without a rule no claim of the facet is held back or counted |
| RuleLaws.IngressStartsAfresh | src/ingress_limit.rs:56-92 | a set rule lets the next job in exactly if its limit is not 0, as the first of a new pair of counters, and nothing of another facet or table changes |
| RuleLaws.IngressRemoved | src/ingress_limit.rs:94-122 | without a rule every job of the facet is let in and none is counted |
| Service.Broker.UpsertRateLimit | src/rate_limit.rs:18-39 | accepts exactly the valid rules, refuses without a change, and starts the facet's dispatch window afresh |
| Service.Broker.UpsertIngressLimit | src/ingress_limit.rs:56-92 | accepts exactly the valid rules, refuses without a change, and starts the facet's admissions afresh |
| Service.Broker.DeleteRateLimit | src/rate_limit.rs:41-69 | afterwards no claim of the facet is limited, other facets are untouched, and the answer says whether there was a rule |
| Service.Broker.DeleteIngressLimit | src/ingress_limit.rs:94-122 | afterwards no job of the facet is throttled, other facets are untouched, and the answer says whether there was a rule |
| Scheduler.UpsertReplaces | src/db.rs:729-766 | the scheduler then makes the request, follows the pattern and is due as the spec says; count, last job and creation time survive, or start from nothing |
| Service.Broker.UpsertScheduler | src/db.rs:729-766 | the same for the call, which touches no other scheduler and no other table |
| Backoff.RetryDelayExact | src/scheduling.rs:2-11 | the saturating delay is the exact min(base * 2^(n-1), cap) |
| Backoff.RetryDelayMonotone | src/scheduling.rs:2-11 | later attempts never wait less |
| Backoff.JitterBounds | src/scheduling.rs:13-26 | the jittered delay is the rounded (1-j)d + jrd, so the clamp never acts, and lies between (1-j)d less a half and d |
| Backoff.RescheduleBounds | src/main.rs:487-497 | the rescheduled time lies between now and now plus the cap |

## Left out

- The RPC layer, configuration, start-up, console, HTTP endpoints, backups and read-only queries: plumbing with no effect on the tables modelled.
- Size limits checked before a transaction opens, such as the one on results (src/main.rs:275): they would only add easy branches.
- `updated_at` columns, log lines, named metric series, histograms and the receipts gauge: no law depends on them, and the cascade does not count the receipts it deletes.
- Cron and time zone evaluation, UUIDs, protobuf bytes and SQLite itself: see what is assumed.
- Migrations and rows of older schemas: runs start from a fresh schema.
- Clock readings inside one transaction: history rows take the transaction's reading, where the source reads the clock again in the statement.
- Update in place inside a transaction: the methods work on copies of the tables and store them back on commit, so aliasing between connections is not modelled.
- Order of deletion among idle chains, idle facets and old rejections: the model lets a sweep take any of them, the source takes the oldest.
- Validation of scheduler specs and the scheduler delete call: only their effect on the row is modelled, as steps of a run.
- Service.Broker.AddFlows: requires that the fresh ids of one tree do not repeat, which the source gets from UUIDs.
- Promises.SpansAreBounded: holds for runs whose clock never goes back and stays a window away from the 64-bit limit, because the stored expiry saturates there.
- Promises.ParkedExactly: is for jobs of which no outside child completed; `GateRuns.GateRightIff` gives the exact condition over a run, and `EarlyRelease.GateCanOpenEarly` a run that breaks it.
- Promises.GaugesAreExact: is for runs in which no AddJob names a live parent; `Promises.GaugesExactIff` gives the exact condition, and `EarlyRelease.GaugesCanDrift` a run that breaks it.
- Promises.FiresAreBounded: is for spans in which no fire reads an earlier clock than its selection; `Scheduler.SpacedIffDue` gives the exact condition per fire, and `ClockBack.FiresRepeat` runs that break the bound.
