# AI Factory Lab: verification model

AI Factory Lab turns work items into pull requests. A durable store holds tasks,
their transition log, agent runs, review requests and pull request rows; services
move a task through its lifecycle in short sequences of atomic writes; the process
may die between any two of them, and several workers interleave. This project models
that protocol and several smaller ones beside it, and proves what every reachable state
keeps.

## How it is laid out

The task protocol:

- `lifecycle.dfy`, `models.dfy`: the status graph, runs, gates, tasks with their rows.
- `protocol.dfy`: the protocol as a step system. One step is one committed
  transaction, guarded by what storage checks when it commits; what a service has read
  before that is carried by the step or named by a discipline of the history, so that
  stale decisions and stale writes are part of every history.
- `transition_log.dfy`, `published.dfy`, `bounded_failure.dfy`,
  `failure_extremes.dfy`, `world.dfy`, `overlap.dfy`: the theorems about histories of
  one task, of many tasks in one store, and of publication calls that overlap.
- `store.dfy`: the store as a class, a method per transaction, with what storage
  guarantees whatever its callers do.
- `services.dfy`, `operators.dfy`, `tracking.dfy`, `reconciliation.dfy`,
  `publication.dfy`: the services as methods over that store. Each performs its writes
  one by one, may die before any of them, and is proved to perform exactly the steps
  of the protocol (`Realizes`) or to compute exactly a specification function whose
  properties are proved beside it. What decides a call, and what it leaves, is stated a
  second time in the stored facts (the `ByFacts` predicates and their kin), without the
  functions that the bodies use.
- `system.dfy`: one driving session, any sequence of those calls cut anywhere;
  `SessionTheorem` puts the invariants together.

The smaller protocols: `backlog.dfy` (one issue per work item against an uncertain
remote), `sprint.dfy` (a position that agrees with finished tasks), `cancellation.dfy`
and `drain.dfy` (a file-marker protocol and a bounded stream loop), `context.dfy`
(canonical packs, tamper rejection, the rework chain), `audit.dfy` (gapless
numbering), `pool.dfy` (conservation over a scheduling loop) and `trello.dfy` (a
printer and its parser).

## What the proofs say about the code

- **Failed attempts.** With retry limit R, correction limit L and k review requests a
  code task accumulates at most R + L + k*L + j*(L + 1) failed attempts, and R + L + k*L
  is attained for every R, L and k. It assumes what `watch.py` states, a single
  runtime invocation at a time, which therefore finds what it has read, and reviews of
  the latest run (`Published.Serial`); a command that dispatches, refreshes, reconciles or
  publishes the same task beside it is a second invocation. Operators retry, override
  and recover, and delivery and closure sync moves tasks on, at any moment, on old facts
  too, also beside a live dispatch. j counts their overdrawn
  steps (`BoundedFailure.Overdraws`): a retry decided on a history that has outgrown the
  limit, a retry or re-entry into VALIDATING beside a claim in progress or for an
  uncertified run, and two overlaps with a collection. Both main kinds really exceed the
  limit: `StaleRetryExceedsLimit`, although the development guide
  (docs/development.md:213) says concurrent retries cannot duplicate recovery edges, and
  `RetryBesideClaimExceedsLimit`, where nothing is stale: a retry accepts a task that is
  CLAIMED only because its dispatcher has not saved its run yet. In both the
  compare-and-swap compares only the status.
- **Certified runs can be overwritten.** `update_run` writes status, gates and revision by
  run id alone, minutes after the run was read. A second session's red verdict replaces
  a certified green one even after the pull request was stored
  (`StaleVerdictUnpublishes`). Proved for all histories: when certified runs stay fixed,
  when every stored row names a certified run, and when every task under review has a
  published latest run, each as an if-and-only-if on the steps committed. Updates that
  find the run they have read never break the first two.
- **The history can disagree with the status.** `update` writes the whole task row back,
  status included, to record a reason. If an operator retries a task between its move to
  BLOCKED and that update, the task is BLOCKED again without a history row
  (`LateReasonBreaksLog`). The log replays to the stored status exactly as long as no
  update writes back a status the task has left.
- **A released review claim can be stuck.** A retry of a CLAIMED task passes through
  BLOCKED. If it dies there, the task can be retried exactly when its latest run failed
  or failed its gates; a review claim whose latest run is green stays BLOCKED
  (`ReleasedIsRetryable`).
- **Work in progress.** The claim capacity bounds the busy tasks up to the unguarded
  entries: every BLOCKED -> VALIDATING (a publication retry, the security override, a
  refresh of a blocked task), an active run saved for a task that left CLAIMED in the
  meantime, and a stale update that makes a finished run active again.
- **Sprint positions can go back.** `move` selects the row before its write transaction
  begins and updates it by id. A pause that read position 0 undoes an advance, or a
  completion, committed in between (`LatePauseRewinds`), and a selection can revive a
  cancelled sprint. The position only goes forward exactly as long as no committed move
  read a row from before the last advance or from before the end.
- **Sprint prefixes can come undone.** A DONE task is CANCELLED or BLOCKED again when a
  late `update` writes its old row back (`LateReasonLeavesDone`), also after a sprint has
  advanced over it (`LateUpdateUnfinishes`). Under any interleaving the steps before the
  position keep everything else, the immutable link and the delivery record; all of them
  are DONE at every state exactly as long as no change takes the DONE of a preceding step
  back and no move passes a step that has lost it, and so always while no task of the
  sprint leaves DONE.
- **Terminal refresh.** The second of two refreshes changes something exactly when the
  first finds a green, uncertified latest run of a task RUNNING or BLOCKED without any
  pull request: it moves the task to VALIDATING, where the second validates it. Gates
  are stored at most once all the same, and task statuses never move a second time.
- **Publication.** A call that died anywhere leaves no trace once a whole call has
  run: the remaining writes of a new call are exactly those the dead one left. And
  whatever different answers the dead calls met, the first whole call that nothing
  refuses ends with one row, commit, branch and open pull request that agree. Calls may
  also overlap between any two writes, on reads of any age: rows and pull requests stay
  consistent, with one pull request per branch exactly as long as no call opens one for
  a branch whose own has been opened and closed since it looked (`LateCallReopens`).
- **Card descriptions.** A text is read if and only if it has no marker or exactly one
  printed block. Reading back what was written is exact if and only if the text has no
  marker of its own, and removing a block can create one.
- **Cancellation.** The final look at the marker decides: a marker created before it
  always prevents success, one created after it may lose; and no
  run is reported as cancelled without one created before it.

Where it matters the model keeps what the code does even where it surprises: the gate
detail filter, the truthiness rules of stored context fragments, a document whose
version is `true`, and the rework branch that pushes before its row is refused.

## Assumptions

SHA-256 (section 6.2 of FIPS 180-4) and the sorted-key JSON text are injective functions
passed as parameters. A write transaction is atomic; a read outside one may be old by the time of the write. Git and the
provider meet their port contracts: publishing reuses a run's commit, an open pull
request for a head and base is found, and it stays open until its row is stored. The
engine, the gate runner, the workspace, the security review and the provider answer
arbitrarily otherwise.

## Model

| member | source | states |
|---|---|---|
| `TransitionLog.HistoryReplays` | src/factory/infrastructure/persistence/sqlite.py:239-339 | over every history of a task: its log replays to the stored status at every state if and only if no update of the task row writes back a status the task has left; the persistence-only edges are never used |
| `TransitionLog.DoneIsFinal` | src/factory/domain/task_lifecycle.py:13-79 | over every history without such an update DONE is absorbing |
| `TransitionLog.LateReasonLeavesDone` | src/factory/orchestration/runtime.py:873-879 | cancelled, resolved to DONE, and then the reason written with the old row: CANCELLED after DONE |
| `TransitionLog.LogOnlyGrows` | src/factory/infrastructure/persistence/sqlite.py:310-339 | over every history old entries never change |
| `TransitionLog.StepReplays` | src/factory/domain/task_lifecycle.py:13-79 | one step writes exactly the history row that joins the old status to the new one, or neither, unless it writes back an old status |
| `TransitionLog.LateReasonBreaksLog` | src/factory/orchestration/dispatch.py:173-182 | blocked, retried, and then the reason written with the old row: the task is BLOCKED while its log says READY |
| `TransitionLog.ReplayAppend` | src/factory/domain/task_lifecycle.py:57-79 | a log extended by an entry replays if and only if it replayed to the entry's source and the edge is in the graph or an audited exception |
| `BoundedFailure.FailuresBounded` | src/factory/orchestration/retry.py:33-90 | failed attempts never exceed R + L + k*L + j*(L+1) for k review requests and j overdrawn steps, over every history of one session with crashes, corrections, and retries, overrides and recoveries at any moment |
| `BoundedFailure.FreshFailuresBounded` | src/factory/orchestration/runtime.py:587-599 | one session, fresh decisions, no re-entry beside a claim or for an uncertified run: the bound is R + L + k*L |
| `BoundedFailure.StepKeepsLoad` | src/factory/orchestration/recovery.py:48-95 | under one session, failed attempts so far plus those still to come grow only with a review request by L, an overdrawn step by L + 1, or a retry within the limit up to R + L |
| `BoundedFailure.FreshNeverOverdraws` | src/factory/orchestration/retry.py:55-62 | a decision on the present history, beside no claim, never overdraws |
| `FailureExtremes.BoundAttained` | src/factory/orchestration/runtime.py:1072-1078 | R + L + k*L is attained for every policy and every k, by a history without crash, race or stale decision |
| `FailureExtremes.StaleRetryExceedsLimit` | src/factory/orchestration/retry.py:26-90 | two operators deciding on one failed history end with three failed attempts under R = 2, L = 0: the compare-and-swap on BLOCKED does not see that the history grew |
| `FailureExtremes.RetryBesideClaimExceedsLimit` | src/factory/orchestration/retry.py:33-90 | one session and fresh decisions only: a retry of a task CLAIMED by a live dispatch ends with three failed attempts under R = 2, L = 0 |
| `FailureExtremes.StaleVerdictUnpublishes` | src/factory/infrastructure/persistence/run_sqlite.py:143-203 | after a disciplined publication one stale collection leaves WAITING_HUMAN with a red, uncertified latest run and its row |
| `Published.PublishedHistory` | src/factory/orchestration/publication.py:146-197 | in every reachable state of one session and its operators in turns, a task under review has a successful, green, certified latest run that owns a stored row |
| `Published.PublishedExactly` | src/factory/orchestration/publication.py:146-197 | under every interleaving that holds at every state if and only if no run is saved under review, no update of the latest run decided on an older read brings it no certificate under review, and no unpublished run is handed off |
| `Published.BoundRunsFixedExactly` | src/factory/infrastructure/persistence/run_sqlite.py:143-203 | under every interleaving a revision certifies a green successful run, and certified runs stay fixed if and only if no update with another verdict is decided on a read from before the certificate |
| `Published.FoundRunsStayFixed` | src/factory/orchestration/tracking.py:145-194 | updates that find the run they have read overwrite no certified run |
| `Published.RowsCertifiedExactly` | src/factory/orchestration/publication.py:184-191 | under every interleaving each stored row names a run with a nonblank certified revision if and only if no row is stored for a run without one and no update decided on an older read brings none to it |
| `Published.OneRowHistory` | src/factory/infrastructure/persistence/pr_sqlite.py:97-164 | one session and its operators in turns, fresh decisions: a task never owns two pull request rows, and its row keeps number, repository, head and base through any number of reviews |
| `Published.StepKeepsInv` | src/factory/orchestration/tracking.py:432-468 | each step of a session and its operators in turns keeps: one dispatcher, finished earlier runs, certified rows, published latest run under review |
| `World.DispatchRace` | src/factory/orchestration/dispatch.py:104-161 | under any interleaving of dispatchers and crashes a task has at most one active run and never more runs than recorded claims |
| `World.IsolationHistory` | src/factory/infrastructure/persistence/schema.py:386-411 | no workspace is ever shared between two tasks, no head branch between the rows of two tasks, and no task has two active runs |
| `World.TaskHistory` | src/factory/infrastructure/persistence/sqlite.py:246-339 | whatever other tasks do in between, each task goes through a legal history of its own |
| `World.WorkInProgressBounded` | src/factory/infrastructure/persistence/sqlite.py:276-307 | busy tasks never outnumber the claim capacity by more than the unguarded entries: BLOCKED -> VALIDATING by retry, override or refresh, late saves, and updates that revive a finished run |
| `World.LateSaveExceedsCapacity` | src/factory/orchestration/dispatch.py:188-243 | a run saved after its task left CLAIMED makes two tasks busy at capacity one, without any BLOCKED -> VALIDATING |
| `Store.TaskStore.constructor` | src/factory/infrastructure/persistence/sqlite.py:50-54 | an empty store with a claim capacity of one or two |
| `Store.TaskStore.ApplyTransition` | src/factory/infrastructure/persistence/sqlite.py:246-339 | exactly when the compare-and-swap with the claim guard succeeds, the whole new state, and the precise error otherwise; storage invariants kept for any caller |
| `Store.TaskStore.ApplyTerminalResolution` | src/factory/infrastructure/persistence/sqlite.py:244-252 | FAILED or CANCELLED becomes DONE with its history row, nothing else does |
| `Store.TaskStore.Update` | src/factory/infrastructure/persistence/sqlite.py:159-193 | the reason is written together with the status its caller holds, whatever is stored, and nothing else changes |
| `Store.TaskStore.RequestRework` | src/factory/infrastructure/persistence/sqlite.py:59-98 | the request and its history row are stored together, only from WAITING_HUMAN and once per reviewed run |
| `Store.TaskStore.SaveRun` | src/factory/infrastructure/persistence/run_sqlite.py:66-133 | a run is stored exactly when identity, workspace owner, primary key and one-active-run index allow it |
| `Store.TaskStore.UpdateRun` | src/factory/infrastructure/persistence/run_sqlite.py:143-203 | exactly the stored run of that id is replaced, in its workspace, and a second active run is refused |
| `Store.TaskStore.AuthorizeTerminalRecovery` | src/factory/infrastructure/persistence/sqlite.py:393-449 | FAILED -> BLOCKED exactly for the latest failed run with a workspace, no active run anywhere and no row of the task |
| `Store.TaskStore.AuthorizeOrphanRecovery` | src/factory/infrastructure/persistence/sqlite.py:347-391 | the orphaned run fails and its task is blocked in one transaction, exactly under the identity guard |
| `Store.TaskStore.SavePullRequest` | src/factory/infrastructure/persistence/pr_sqlite.py:43-77 | a row is inserted exactly when neither its run nor its head branch has one |
| `Store.TaskStore.RecordRevision` | src/factory/infrastructure/persistence/pr_sqlite.py:97-164 | a row moves to another run of the same task on the same workspace; number and branches stay |
| `Store.SavedRun` | src/factory/infrastructure/persistence/schema.py:386-411 | saving a run keeps workspaces, run ids and active runs apart across the whole store |
| `Services.Transition` | src/factory/orchestration/transitions.py:35-65 | when a lifecycle transition succeeds, is a no-op or is refused, with the whole new state |
| `Services.DispatchService.Dispatch` | src/factory/orchestration/dispatch.py:104-144 | a dispatch cut at any write is a history of protocol steps and leaves exactly one of the stages or the context block; which one is decided by free claim slots, checkout, storage, engine and writes survived: with all of them RUNNING with the produced run, after an engine failure BLOCKED with a FAILED one |
| `Services.DispatchService.DispatchRework` | src/factory/orchestration/dispatch.py:145-166 | the same on whatever the repair of the latest run's checkout returns, only for a finished latest run |
| `Services.DispatchService.BlockWithoutContext` | src/factory/orchestration/dispatch.py:170-187 | READY -> BLOCKED and then the reason a retry recognises, cut anywhere |
| `Services.DispatchService.ClaimAndRun` | src/factory/orchestration/dispatch.py:188-302 | claim, checkout, engine, run and RUNNING in this order; at every cut the writes so far are protocol steps; the saved run has the produced status and id, and nothing but claim slots, checkout, storage and engine keeps the task from RUNNING |
| `Services.StageRealizes` | src/factory/orchestration/dispatch.py:188-302 | every stage a dispatch can stop at is a legal history that leaves no process behind |
| `Services.RetryService.Retry` | src/factory/orchestration/retry.py:26-90 | accepted if and only if, in the stored facts: BLOCKED or CLAIMED, no active run, a latest run something can be done about, failures below R, no backoff pending for a FAILED latest run, and a failed or reviewed finished run for CLAIMED; VALIDATING exactly when the reason names the latest run and its workspace, READY otherwise; a refusal writes nothing |
| `Services.RetrySteps` | src/factory/orchestration/retry.py:72-90 | both writes of a retry are protocol steps decided on what it read |
| `Services.CountFailures` | src/factory/orchestration/retry.py:55-62 | the retryable attempts of a history |
| `Services.GateFailureStreak` | src/factory/orchestration/runtime.py:1072-1078 | the exact length of the trailing block of gate failures |
| `Services.CorrectOrBlock` | src/factory/orchestration/runtime.py:587-599 | for any number of writes survived: back to READY unless the last L + 1 runs have all failed their gates, otherwise BLOCKED with the reason; only when VALIDATING with a gate-failed latest run |
| `Services.RunReady` | src/factory/orchestration/runtime.py:494-557 | in the stored facts: what is declined; and any run it saves is in the repaired checkout of the latest run exactly when there is a review request, gates of the latest run failed, it failed in the checkout of a gate-failed one, or a timeout is authorized, and in the new checkout otherwise; every outcome is a protocol history |
| `Services.BlockFailedPublication` | src/factory/orchestration/runtime.py:620-641 | only a green, unpublished latest run blocks its task, under a reason naming exactly that run and workspace |
| `Operators.RequestRework` | src/factory/orchestration/rework.py:56-96 | a review request is accepted only for the latest successful run with its open pull request, and is one protocol step |
| `Operators.SecurityOverride` | src/factory/__main__.py:884-924 | accepted exactly for the certified latest run of a task blocked by its security review; VALIDATING, as one protocol step |
| `Operators.AuthorizeRecovery` | src/factory/orchestration/terminal_recovery.py:76-158 | a terminal recovery needs acknowledgement, evidence and room under the failure limit, and leaves a task that a retry sends to READY |
| `Operators.AuthorizeOrphan` | src/factory/orchestration/terminal_recovery.py:250-330 | run and task are written off together, only for the exact latest RUNNING run |
| `Publication.CrashesLeaveNoTrace` | src/factory/orchestration/publication.py:24-34 | any number of dead calls with the same answers and then a whole one leave exactly what a whole one alone leaves |
| `Publication.EndsHandedOff` | src/factory/orchestration/publication.py:123-197 | after any calls with answers and deaths of their own, one whole unrefused call ends at WAITING_HUMAN with row, commit, branch and open pull request in agreement |
| `Publication.AfterFirstWrite` | src/factory/orchestration/publication.py:123-197 | after any write, a new call has exactly the remaining writes left to do |
| `Publication.CallByFacts` | src/factory/orchestration/publication.py:123-197 | for every site and call: refused by the stored facts, then nothing at all changes, however many writes the process could make; not refused, then one write is exactly the next missing one |
| `Publication.CallIsSingleWrites` | src/factory/orchestration/publication.py:123-197 | a call that survives k writes does what k calls of one write do, so that the step above describes whole calls |
| `Publication.PublishedOnce` | src/factory/orchestration/publication.py:170-175 | a whole call has nothing left to do a second time |
| `Publication.WholeCallCreates` | src/factory/orchestration/publication.py:193-197 | an uncut, unblocked first publication ends at WAITING_HUMAN with one commit, the branch at it, one open pull request and one row naming them |
| `Publication.WholeCallReworks` | src/factory/orchestration/publication.py:146-168 | a rework opens nothing, keeps the number, and moves only the row's run and commit |
| `Publication.PublicationHistory` | src/factory/orchestration/publication.py:264-365 | over any publish calls one at a time, cut anywhere and mixed with any other steps, stale ones included: one pull request per repository, head and base, rows agree with it, commits are made once, and the task's history is legal |
| `Overlap.OverlapExactly` | src/factory/orchestration/publication.py:123-197 | over calls that overlap between any writes, on reads of any age: one pull request per repository, head and base, each row naming it, if and only if no call opens one for a branch whose own has been opened and closed since it looked |
| `Overlap.OverlapKeepsRecords` | src/factory/infrastructure/persistence/pr_sqlite.py:43-164 | over any such calls no two rows share a run or branch, rows keep number and branches, commits are made once, pull requests keep place and number |
| `Overlap.LateCallReopens` | src/factory/orchestration/publication.py:321-349 | two calls that both look first open two pull requests for one branch when the first is closed in between |
| `Publication.RowKeepsOnePerBranch` | src/factory/orchestration/publication.py:366-402 | storing a row keeps the agreement between rows and provider pull requests |
| `Publication.PublicationService.Publish` | src/factory/orchestration/publication.py:123-197 | the service, cut anywhere, performs exactly the planned writes; in the stored facts, a call that meets any of the listed refusals (failed review outside WAITING_HUMAN, red gates, no certificate, no or another workspace, protected or foreign branch, no row outside VALIDATING) leaves task and forge as they were, and any other makes the next missing write |
| `Publication.PublicationService.PublishBranch` | src/factory/domain/ports.py:516-544 | the publisher reuses the run's commit and pushes only a branch that is not at it |
| `Publication.PublicationService.Reconcile` | src/factory/orchestration/publication.py:403-423 | forward along the publication edges only |
| `Publication.PublicationService.Rework` | src/factory/orchestration/publication.py:146-168 | the rework branch performs exactly its planned writes |
| `Publication.PublicationService.Create` | src/factory/orchestration/publication.py:193-197 | the creating branch performs exactly its planned writes |
| `Tracking.CertifiedExactlyWhen` | src/factory/orchestration/tracking.py:290-343 | a revision is certified if and only if the workspace was repaired to itself, its fingerprint is the same before and after and every required spec really passed; the gate list then matches the specs |
| `Tracking.GatesMatchSpecs` | src/factory/orchestration/tracking.py:365-430 | whatever a runner returns: one result per spec, in order, under the spec's name and flag, green exactly where it passed that spec |
| `Tracking.UncertifiedIsRed` | src/factory/orchestration/tracking.py:302-343 | a verdict that certifies nothing is red and never empty |
| `Tracking.VerdictLists` | src/factory/orchestration/tracking.py:290-343 | a verdict lists one required failure alone when the workspace was not repaired to itself or not read, and otherwise one result per spec, with one required failure after them exactly when the fingerprint moved |
| `Tracking.DetailsBounded` | src/factory/orchestration/tracking.py:365-430 | whatever text a runner returns, only bounded texts are stored, and an allowed one of a matching gate as it is |
| `Tracking.RefreshedTwice` | src/factory/orchestration/tracking.py:196-231 | refreshing twice equals refreshing once, exactly outside one state |
| `Tracking.EvaluatedAtMostOnce` | src/factory/orchestration/tracking.py:202-216 | over any number of refreshes gates are evaluated and stored at most once |
| `Tracking.SettledAfterTwo` | src/factory/orchestration/tracking.py:128-157 | however often a finished run is refreshed, nothing changes after the first two refreshes that complete |
| `Tracking.CrashAfterCollect` | src/factory/orchestration/tracking.py:196-202 | a crash between storing the terminal run and moving the task is made good by any later refresh, without evaluating a gate again |
| `Tracking.RefreshRealizes` | src/factory/orchestration/tracking.py:196-231 | a terminal refresh of a task in any status is a protocol history |
| `Tracking.CollectRealizes` | src/factory/orchestration/tracking.py:145-194 | collecting an active run, with or without the task's move, is a protocol history |
| `Tracking.RunTrackingService.Refresh` | src/factory/orchestration/tracking.py:128-194 | a superseded run never changes its task; a raising engine or runner changes nothing; otherwise, in the stored facts: when the gates are evaluated again (a BLOCKED task included), which verdict is stored, and the status that follows, for any number of writes survived |
| `Tracking.RunTrackingService.Drive` | src/factory/orchestration/tracking.py:432-457 | the table of statuses: RUNNING with a failed latest run becomes FAILED exactly without a review request and without a gate-failed run right before it in that workspace, BLOCKED otherwise; cancelled gives CANCELLED where the graph allows it; succeeded gives VALIDATING from RUNNING or BLOCKED; every other pair stays |
| `Reconciliation.Reconcile` | src/factory/orchestration/reconciliation.py:43-88 | every listed task is looked at once, nothing else changes, and the three counters are exact |
| `System.SessionTheorem` | src/factory/orchestration/watch.py:8-18 | over every sequence of service calls on a code task, security override included, each cut at any write: R + L + k*L failed attempts, published invariant, one row, one pull request per branch, replaying log |
| `System.CallSession` | src/factory/orchestration/runtime.py:452-641 | every service call, cut anywhere, is a serial history decided on fresh facts |
| `System.CallKeepsSound` | src/factory/orchestration/watch.py:8-18 | every call keeps all invariants at once |
| `Backlog.ExactlyOnce` | src/factory/orchestration/backlog.py:36-90 | over every interleaving of reconcilers, crashes and ambiguous failures: at most one create request per item, links only move forward and never change once materialized, and hold the one issue made for the item |
| `Backlog.StepKeepsExclusive` | src/factory/infrastructure/persistence/backlog_sqlite.py:16-46 | each write keeps the single writer of every item and the links' agreement with the issues made |
| `Backlog.LinkTable.Reserve` | src/factory/infrastructure/persistence/backlog_sqlite.py:16-35 | insert-or-ignore: a new reservation or nothing, refused exactly for a link of another repository or project |
| `Backlog.LinkTable.BeginWrite` | src/factory/infrastructure/persistence/backlog_sqlite.py:37-46 | the compare-and-swap one writer wins: exactly a reserved link of the item becomes POSTING |
| `Backlog.LinkTable.Complete` | src/factory/infrastructure/persistence/backlog_sqlite.py:94-130 | exactly when a completion is accepted (own link, own repository, free number, or the very same issue again) and the link it writes once |
| `Backlog.ReconcileItem` | src/factory/orchestration/backlog.py:48-89 | one item's writes are steps of the protocol; each outcome, the link it leaves and whether a create request was sent are given by the links found and what the item meets: an item that is or has become ineligible is never created |
| `Backlog.Reconcile` | src/factory/orchestration/backlog.py:36-90 | every item has its outcome in turn, the counters count the outcomes, as many creates were sent as issues created, and only for items that may be worked on |
| `Cancellation.CancelProtocol` | src/factory/integrations/codex/worker.py:55-161 | over every interleaving of one worker and any cancellers: in the end a result and no marker; cancelled only if a marker was made before the final look; such a marker never lets the run succeed |
| `Cancellation.StepKeepsInv` | src/factory/integrations/codex/adapter.py:225-245 | each file operation keeps ownership of a late marker and the worker's verdict |
| `Cancellation.LateMarkerCanLose` | src/factory/integrations/codex/worker.py:120-133 | a marker after the final look can lose to a success |
| `Cancellation.StateDir.Work` | src/factory/integrations/codex/worker.py:55-161 | the worker, with the cancellers at work between any of its file operations: every step is one of the protocol, it ends with a result and no marker; without an exception the result is CANCELLED exactly after an early marker, SUCCEEDED exactly without one for a good child, FAILED otherwise |
| `Cancellation.StateDir.Cancel` | src/factory/integrations/codex/adapter.py:225-245 | one canceller, with the worker and the others at work between any of its file operations, takes protocol steps only and leaves |
| `Drain.DrainOutput` | src/factory/integrations/codex/worker.py:191-258 | turns are handled up to the first with nothing left to do, a cancellation or the deadline; each file is exactly the first 1048576 bytes read, overflow is set exactly when a stream carried more, timed out and cancelled exactly when they are, and until the pipe breaks sent plus pending is the instruction |
| `Drain.Pipes.Handle` | src/factory/integrations/codex/worker.py:233-257 | one ready event keeps the description of all three pipes |
| `Sprint.ForwardExactly` | src/factory/infrastructure/persistence/sprint_sqlite.py:123-175 | over every interleaving the position never goes back and a finished sprint stays as it is if and only if no committed move read a row from before the last advance or from before the end |
| `Sprint.FoundNeverRewinds` | src/factory/infrastructure/persistence/sprint_sqlite.py:123-175 | moves that find the row they have read never rewind |
| `Sprint.LatePauseRewinds` | src/factory/orchestration/sprint.py:390-398 | a pause that read position 0 undoes a later advance, or a completion |
| `Sprint.LateSelectRevives` | src/factory/orchestration/sprint.py:380-388 | a selection that read ACTIVE revives a cancelled sprint |
| `Sprint.PrefixExactly` | src/factory/orchestration/sprint.py:228-256 | over any such interleaving every step before the position is linked to a DONE, delivered task at every state if and only if no change takes the DONE of a preceding step back and no move passes a step that has lost it |
| `Sprint.DoneTasksKeepPrefix` | src/factory/orchestration/sprint.py:228-256 | while no task of the sprint leaves DONE, old reads of row and tables never break that |
| `Sprint.LateUpdateUnfinishes` | src/factory/infrastructure/persistence/sqlite.py:159-193 | a late update of a DONE task's row leaves the sprint past a step that is not done |
| `Sprint.PrefixHistory` | src/factory/infrastructure/persistence/sprint_sqlite.py:123-175 | over any interleaving of callers with old reads of row and tables: position within bounds, COMPLETE exactly at the end, and every step before it was seen linked to a DONE, delivered task and lacks at most that DONE today |
| `Sprint.DependenciesComplete` | src/factory/orchestration/sprint.py:84-104 | the resolver's loop decides exactly whether the item is ready and the last earlier step of every named dependency has a DONE task |
| `Sprint.SprintService.Prepare` | src/factory/orchestration/sprint.py:228-279 | in the stored tables: it advances over every DONE, delivered step in front and stops at the first other; the sprint is paused exactly for a task WAITING_HUMAN, BLOCKED, FAILED or CANCELLED, a missing delivery record, a changed item or an open dependency; a step is selected exactly when none of these holds, its item is read and it is linked; all moves are lawful |
| `Context.BuildPack` | src/factory/domain/context.py:69-96 | a pack is built exactly when it can be, and is canonical, hashed and within budget |
| `Context.CanonicalUnique` | src/factory/domain/context.py:86-86 | two strictly ascending sequences of the same fragments are equal |
| `Context.OrderAndRepetitionIrrelevant` | src/factory/domain/context.py:69-96 | the pack depends on the set of fragments alone |
| `Context.MetadataRoundTrip` | src/factory/domain/context.py:44-51 | a built pack's metadata reads back as that pack |
| `Context.ViewIdentifies` | src/factory/domain/context.py:26-33 | nothing but the content text is lost in the metadata |
| `Context.TamperRejected` | src/factory/domain/context.py:99-112 | a document with a pack's digest that is accepted is that pack's metadata to the letter |
| `Context.Build` | src/factory/orchestration/context.py:84-123 | a rework is built exactly when the sources still give the base the chain began with; its base, the one fragment it adds with its text and digest, and each error's cause are given |
| `Context.ChainKeepsBase` | src/factory/orchestration/context.py:101-121 | over a chain of any length every pack has the first digest as base, the first budget, and the first fragments plus one naming the pack right before it |
| `Context.SameSha` | src/factory/domain/context.py:89-96 | equal digests mean equal budgets and fragments |
| `Audit.GaplessHistory` | src/factory/infrastructure/persistence/schema.py:158-259 | under any mix of inserts, ignored duplicates, guarded appends, aborts and backfills, numbers per trace and versions per aggregate stay gapless and old entries unchanged |
| `Audit.NumbersIncrease` | src/factory/infrastructure/persistence/schema.py:128-149 | numbers strictly increase in insertion order within 1..n, so the unique index never refuses a writer |
| `Audit.EveryNumberOccurs` | src/factory/infrastructure/persistence/schema.py:171-182 | each number from 1 to the length of a series occurs |
| `Audit.BackfillKeepsGapless` | src/factory/infrastructure/persistence/sqlite_base.py:95-275 | a backfill numbered from 1 is what counting the whole log would have given |
| `Audit.AuditLog.AppendIfAbsent` | src/factory/infrastructure/persistence/security.py:97-153 | check, count and insert in one transaction: exactly one row with this fact, or none if its key is there |
| `Audit.AuditLog.BackfillTask` | src/factory/infrastructure/persistence/sqlite_base.py:232-275 | the loop with its version dictionary appends the facts in order, numbered as specified, or nothing |
| `Audit.ApplyKeepsGapless` | src/factory/infrastructure/persistence/feedback_sqlite.py:73-103 | each writer keeps the numbering |
| `Pool.RunPass` | src/factory/orchestration/worker_pool.py:67-132 | in flight within the limit; reported, in flight and unstarted make up the candidates; each start has a stop question answered no; what is in flight is cancelled, once, exactly when a question after a wait is answered yes; all are reported when none is |
| `Pool.StartedOnce` | src/factory/orchestration/worker_pool.py:88-101 | each candidate is started and reported at most once |
| `Pool.ReportSessions` | src/factory/orchestration/worker_pool.py:113-128 | exactly the finished sessions in flight leave the active ones and are reported, an exception of one not touching the others |
| `Trello.RoundTripExactly` | src/factory/integrations/trello/feedback.py:21-37 | a printed description reads back if and only if the text has no marker of its own |
| `Trello.ReadBack` | src/factory/integrations/trello/feedback.py:29-37 | exactly the block is removed, text appended after it stays |
| `Trello.ReadExactly` | src/factory/integrations/trello/feedback.py:21-37 | a text without markers reads as itself, a text with exactly one printed block as the text around it, and nothing else is accepted |
| `Trello.CountMeans` | src/factory/integrations/trello/feedback.py:23-28 | counting finds none, or one, just when there is none, or one |
| `Trello.RemovalCanMakeMarker` | src/factory/integrations/trello/feedback.py:35-37 | removing a block can join its surroundings into a new marker |

## Left out

- Project identity and routing (`registry.resolve`, `project_id` comparisons): one more equality in most guards, with refusals before any write.
- Two driving sessions on one task at once: the failure bound assumes `Published.Serial`, and the published and one-row theorems `Published.Alone` as well. Log replay, fixed runs, certified rows, the exact published condition, isolation, the dispatch race and work in progress do not. Publication calls are taken one at a time in `Publication.PublicationHistory` and in the session theorem; `Overlap` lets them overlap, but does not relate their rows to protocol steps.
- Store.TaskStore.Update: title, body, labels and the other texts of a row are not modelled; callers hold a row they read as BLOCKED, FAILED, CANCELLED or DONE.
- Store.TaskStore.SaveRun: the project identity of a run is not modelled; a workspace row stored under an id is taken to be presented unchanged afterwards; run ids and creation order stand for `created_at` and its ties.
- Store.TaskStore.RecordRevision: the `merged` flag, `record_merged` and `record_provider_revision` are not modelled; they never change run, number or branches.
- Tracking.RunTrackingService.Refresh: code tasks only (an operational green run is validated again on every terminal refresh); heartbeats and a run of another engine are not modelled, and earlier runs are required to be finished, which `Published.Inv` and `BoundedFailure.Orderly` keep.
- Tracking.GatesMatchSpecs: the digits of `exit_code` details are the ASCII ones.
- Services.RunReady: selection of the task, operational tasks and the text of the feedback; the elapsed backoff time is an input.
- Operators.AuthorizeRecovery: worker result, checkout, provider and eligibility checks are one boolean input.
- Operators.SecurityOverride: the review and its recorded evidence, the operator's name and the reason text are one boolean input.
- System.SessionTheorem: calls follow one another; an operator between two writes of a call is a history of `BoundedFailure.FailuresBounded` and `Published.PublishedHistory`.
- Published.PublishedHistory: assumes operators and the session take turns; without that, `Published.PublishedExactly` says when it holds.
- Published.OneRowHistory: the same, and fresh decisions.
- Operators.AuthorizeOrphan: liveness, result and eligibility checks are one boolean input.
- Publication.PublicationService.Publish: titles, bodies and urls of pull requests; a superseded run is refused before any write and is not passed in; an exception after a write is a cut there. A push of a branch already at the commit is no write.
- Pool.RunPass: a finite list of waits stands for the unbounded loop, so that it terminates; preparation errors are one boolean, and cancelling an engine is counted, not performed.
- Drain.DrainOutput: a finite list of turns stands for the loop; liveness files are not modelled.
- Cancellation.CancelProtocol: one worker per run, which ends normally; a failure to write the result file itself is not modelled.
- Sprint.PrefixHistory: authorization and its one-live-sprint-per-project index. Resuming is allowed more often than its service does, and an item's snapshot is not compared again at commit. Links and delivery records are taken to grow as modules Backlog and Audit prove of them.
- Sprint.SprintService.Prepare: one caller, whose every move finds the row it has read; moves of others in between are the histories of `Sprint.PrefixHistory` and `Sprint.ForwardExactly`.
- Services.DispatchService.DispatchRework: what `repair` returns is an input; only `Published.FreshDecision` takes it to be the checkout it was given.
- Publication.PublicationHistory: calls that overlap are `Overlap.OverlapExactly`.
- Audit.AuditLog.BackfillTask: "no event of the task yet" is checked at commit, where the source reads it before its write transaction and the unique index aborts the loser; the selection and sorting of a legacy task's facts are an input; every event's trace is its task.
- Context.Build: the text of the task fragment; a source is what it supplies.
- Reconciliation.Reconcile: runs of another engine or project are not counted as mismatches.
- Store.TaskStore.UpdateRun: the checks that a run keeps its task, project, owner, session and context pack are not modelled.
- Operational tasks: they appear in the status graph and the store, but the runs of direct observations, which are saved after RUNNING, are not protocol steps.
- Liveness in general: a crash between claim and save during an automatic gate correction leaves a CLAIMED task without a way forward, and so does the release of a review claim (`Services.ReleasedIsRetryable`).
- Other reasons to block or cancel a task (ineligible source, missing capability, routing, security review): they are `Leave` steps and `System.Blocking` or `System.Ending` calls without their conditions.
- Delivery evidence and the closing of issues and cards: any step to DONE.
- The GitHub adapter (bounded titles, a create that falls back to a lookup) and `git_publish`: their port contracts are assumed.
- Transports, git and process plumbing, SQL text and migrations, configuration, CLI, status pages, memory search, security rules: foreign calls or shallow claims.
