// What a human may do to a task (src/factory/orchestration/rework.py,
// terminal_recovery.py, and the override command of __main__.py): guards over the
// stored facts, then one transaction.
module Operators {
  import opened Lifecycle
  import opened Models
  import opened Protocol
  import opened Publication
  import opened Store
  import opened Services

  // The pull request row a review of the latest run refers to: the run's own, else
  // the one of its branch.
  function ReviewRow(t: Task): Option<PrRow>
    requires t.runs != [] && t.Latest().workspace.Some?
  {
    var ws := t.Latest().workspace.value;
    match RowFor(t.rows, t.Latest().id)
    case Some(i) => Some(t.rows[i])
    case None =>
      match FindRow(t.rows, ws.repo, ws.branch)
      case Some(i) => Some(t.rows[i])
      case None => None
  }

  predicate Reviewable(t: Task) {
    && t.status == WaitingHuman
    && t.kind == Code
    && t.runs != []
    && t.Latest().status == RunSucceeded
    && t.Latest().workspace.Some?
    && var row := ReviewRow(t);
       && row.Some?
       && row.value.repo == t.repo
       && row.value.number > 0
       && row.value.head == t.Latest().workspace.value.branch
       && exists r :: r in t.runs && r.id == row.value.runId
  }

  // The row found for the run, by its own id before its branch, is a numbered pull
  // request of the task's repository, for the run's branch, made from one of its runs.
  predicate NamesReview(t: Task, r: Run)
    requires r.workspace.Some?
  {
    var own, branch := RowFor(t.rows, r.id), FindRow(t.rows, r.workspace.value.repo, r.workspace.value.branch);
    var i := if own.Some? then own else branch;
    i.Some?
    && var q := t.rows[i.value];
       && q.repo == t.repo && q.number > 0 && q.head == r.workspace.value.branch
       && exists d :: d in t.runs && d.id == q.runId
  }

  // ReworkService.request: only for the latest, reviewed run, whose pull request is
  // still open, and once per run.
  method RequestRework(store: TaskStore, p: Policy, id: nat, feedback: string, open: bool, ghost n: Node)
    returns (ok: bool, ghost events: seq<Event>)
    requires store.Valid() && id in store.tasks && n.task == store.tasks[id]
    modifies store
    ensures store.Valid() && OnlyTask(old(store.tasks), store.tasks, id)
    ensures Realizes(p, n, events, store.tasks[id])
    ensures !ok ==> store.tasks[id] == n.task
    ensures ok ==> Reviewable(n.task) && open
    ensures ok <==>
              && open && n.task.status == WaitingHuman && n.task.kind == Code && n.task.runs != []
              && var r := n.task.runs[|n.task.runs| - 1];
                 && r.status == RunSucceeded && r.workspace.Some?
                 && NamesReview(n.task, r)
                 && (forall other, q :: other in old(store.tasks) && q in old(store.tasks)[other].reworks ==>
                       q.reviewedRun != r.id)
    ensures ok ==>
              store.tasks[id] == n.task.MovedTo(ChangesRequested)
                                   .(reworks := n.task.reworks + [Rework(n.task.Latest().id, feedback)])
  {
    hide Consistent, Realizes;
    var t := store.tasks[id];
    assert store.tasks == store.tasks[id := t];
    NothingDone(p, n);
    events := [];
    if !Reviewable(t) || !open { return false, events; }
    assert t.Latest() in t.runs;
    var r := store.RequestRework(id, t.Latest().id, feedback);
    if r.Err? { return false, events; }
    OneStep(p, n, Event.RequestRework(t.Latest().id, feedback));
    return true, [Event.RequestRework(t.Latest().id, feedback)];
  }

  lemma OneStep(p: Policy, n: Node, e: Event)
    requires Enabled(p, n, e)
    requires Next(n, e) == n.(task := Next(n, e).task)
    ensures Realizes(p, n, [e], Next(n, e).task)
  {
    hide Enabled, Next;
    Then(p, n, [], e);
    assert [] + [e] == [e];
  }

  // The security-override command: `decided` stands for a critical, recorded review of
  // exactly this revision and for the operator's name and reason. The task then takes
  // whatever edge leads it to VALIDATING from the status it has by now.
  method SecurityOverride(store: TaskStore, p: Policy, id: nat, runId: nat, decided: bool, ghost n: Node)
    returns (ok: bool, ghost events: seq<Event>)
    requires store.Valid() && id in store.tasks && n.task == store.tasks[id]
    modifies store
    ensures store.Valid() && OnlyTask(old(store.tasks), store.tasks, id)
    ensures Realizes(p, n, events, store.tasks[id])
    ensures ok <==>
              && decided && n.task.status == Blocked && n.task.reason == Some(SecurityBlocked)
              && n.task.runs != []
              && var r := n.task.runs[|n.task.runs| - 1];
                 && r.id == runId && r.revision.Some? && r.revision.value != ""
                 && r.workspace.Some? && r.workspace.value.repo == n.task.repo
    ensures ok ==> CanOverride(n.task)
    ensures store.tasks[id] == if ok then n.task.MovedTo(Validating) else n.task
  {
    hide Consistent, Realizes;
    var t := store.tasks[id];
    assert store.tasks == store.tasks[id := t];
    NothingDone(p, n);
    events := [];
    if t.status != Blocked || t.reason != Some(SecurityBlocked) { return false, events; }
    if t.runs == [] || t.Latest().id != runId { return false, events; }
    if t.Latest().workspace.None? || t.Latest().revision.None? || t.Latest().revision.value == ""
       || t.Latest().workspace.value.repo != t.repo || !decided
    {
      return false, events;
    }
    var moved := Transition(store, id, Validating, None);
    OneStep(p, n, Override(t));
    return true, [Override(t)];
  }

  datatype Failure = TimedOut | WorkerExited

  function Marker(f: Failure, runId: nat): Reason {
    match f
    case TimedOut => TimeoutRecovery(runId)
    case WorkerExited => WorkerRecovery(runId)
  }

  // TerminalRecoveryService.authorize and authorize_worker_failure: `evidence` stands
  // for the checks outside the store (worker result, checkout, provider, eligibility).
  method AuthorizeRecovery(store: TaskStore, p: Policy, id: nat, runId: nat, failure: Failure,
                           acknowledged: bool, evidence: bool, ghost n: Node)
    returns (ok: bool, ghost events: seq<Event>)
    requires store.Valid() && id in store.tasks && n.task == store.tasks[id]
    modifies store
    ensures store.Valid() && OnlyTask(old(store.tasks), store.tasks, id)
    ensures Realizes(p, n, events, store.tasks[id])
    ensures !ok ==> store.tasks[id] == n.task
    ensures ok <==>
              && acknowledged && evidence && n.task.status == Failed && n.task.kind == Code && n.task.runs != []
              && (var r := n.task.runs[|n.task.runs| - 1];
                  && r.id == runId && r.status == RunFailed
                  && r.workspace.Some? && r.workspace.value.repo == n.task.repo)
              && |FailedRuns(n.task.runs)| < p.retryLimit
              && n.task.rows == []
              && (forall other, q :: other in old(store.tasks) && q in old(store.tasks)[other].runs ==>
                    q.status in {RunSucceeded, RunFailed, RunCancelled})
    ensures ok ==>
              && store.tasks[id] == n.task.MovedTo(Blocked).(
                   reason := Some(if failure == TimedOut then TimeoutRecovery(runId) else WorkerRecovery(runId)))
              && n.task.runs != [] && n.task.Latest().id == runId
              && (BadCount(n.task.runs) < p.retryLimit ==>
                    RetryTarget(p, store.tasks[id], false) == Some(Ready))
  {
    hide Consistent, Realizes, Enabled, Next;
    var t := store.tasks[id];
    assert store.tasks == store.tasks[id := t];
    NothingDone(p, n);
    events := [];
    if !acknowledged || t.status != Failed || t.kind != Code { return false, events; }
    if t.runs == [] || t.Latest().id != runId { return false, events; }
    FailedRunsCounted(t.runs);
    hide FailedRuns;
    if FailedCount(t.runs) >= p.retryLimit { return false, events; }
    if t.Latest().status != RunFailed || t.Latest().workspace.None?
       || t.Latest().workspace.value.repo != t.repo
    {
      return false, events;
    }
    if t.HasActiveRun() || !evidence { return false, events; }
    var r := store.AuthorizeTerminalRecovery(id, runId, Marker(failure, runId));
    if r.Err? { return false, events; }
    RecoveryIsStep(p, n, Marker(failure, runId));
    RecoveredIsRetryable(p, t, Marker(failure, runId));
    return true, [RecoverTerminal(Marker(failure, runId))];
  }

  // The places of the failed runs in a history; runs that failed their gates only do not count.
  ghost function FailedRuns(runs: seq<Run>): set<nat> {
    set i: nat | i < |runs| && runs[i].status == RunFailed
  }

  lemma {:induction false} FailedRunsCounted(runs: seq<Run>)
    ensures FailedCount(runs) == |FailedRuns(runs)|
    decreases |runs|
  {
    if runs == [] {
      assert FailedRuns(runs) == {};
    } else {
      FailedRunsCounted(runs[..|runs| - 1]);
      OneRunMore(runs);
      hide FailedRuns;
    }
  }

  lemma OneRunMore(runs: seq<Run>)
    requires runs != []
    ensures
      var last := |runs| - 1;
      && last !in FailedRuns(runs[..last])
      && FailedRuns(runs) == FailedRuns(runs[..last]) + if runs[last].status == RunFailed then {last} else {}
  {
    var last := |runs| - 1;
    assert runs[last].status == RunFailed <==> last in FailedRuns(runs);
    forall i: nat | i < last
      ensures i in FailedRuns(runs) <==> i in FailedRuns(runs[..last])
    {
      assert runs[..last][i] == runs[i];
    }
  }

  lemma RecoveryIsStep(p: Policy, n: Node, marker: Reason)
    requires CanRecoverTerminal(n.task, marker)
    ensures Realizes(p, n, [RecoverTerminal(marker)], n.task.MovedTo(Blocked).(reason := Some(marker)))
  {
    OneStep(p, n, RecoverTerminal(marker));
  }

  // A recovered task is retried as a failed attempt, never as a publication.
  lemma RecoveredIsRetryable(p: Policy, t: Task, marker: Reason)
    requires t.runs != [] && t.Latest().status == RunFailed && !t.HasActiveRun()
    ensures BadCount(t.runs) < p.retryLimit ==>
              RetryTarget(p, t.MovedTo(Blocked).(reason := Some(marker)), false) == Some(Ready)
  {
    assert t.MovedTo(Blocked).(reason := Some(marker)).HasActiveRun() == t.HasActiveRun();
  }

  // TerminalRecoveryService.authorize_orphaned_codex: the worker is gone without a
  // result; run and task are written off together.
  method AuthorizeOrphan(store: TaskStore, p: Policy, id: nat, runId: nat, acknowledged: bool,
                         evidence: bool, ghost n: Node)
    returns (ok: bool, ghost events: seq<Event>)
    requires store.Valid() && id in store.tasks && n.task == store.tasks[id]
    modifies store
    ensures store.Valid() && OnlyTask(old(store.tasks), store.tasks, id)
    ensures Realizes(p, n, events, store.tasks[id])
    ensures !ok ==> store.tasks[id] == n.task
    ensures ok <==>
              && acknowledged && evidence && n.task.status == Running && n.task.kind == Code
              && n.task.runs != [] && n.task.rows == []
              && var r := n.task.runs[|n.task.runs| - 1];
                 && r.id == runId && r.status == RunRunning
                 && r.workspace.Some? && r.workspace.value.repo == n.task.repo
    ensures ok ==>
              && store.tasks[id].status == Blocked
              && store.tasks[id].runs == n.task.WithLatest(n.task.Latest().(status := RunFailed)).runs
              && store.tasks[id].reason == Some(OrphanRecovery(runId))
  {
    hide Consistent, Realizes, Enabled, Next;
    var t := store.tasks[id];
    assert store.tasks == store.tasks[id := t];
    NothingDone(p, n);
    events := [];
    if !acknowledged || t.status != Running || t.kind != Code { return false, events; }
    if t.runs == [] || t.Latest().id != runId || t.Latest().status != RunRunning { return false, events; }
    if t.Latest().workspace.None? || t.Latest().workspace.value.repo != t.repo || !evidence {
      return false, events;
    }
    var r := store.AuthorizeOrphanRecovery(id, runId);
    if r.Err? { return false, events; }
    OrphanIsStep(p, n);
    return true, [RecoverOrphan];
  }

  lemma OrphanIsStep(p: Policy, n: Node)
    requires CanRecoverOrphan(n.task)
    ensures Realizes(p, n, [RecoverOrphan],
                     n.task.MovedTo(Blocked).WithLatest(n.task.Latest().(status := RunFailed))
                       .(reason := Some(OrphanRecovery(n.task.Latest().id))))
  {
    OneStep(p, n, RecoverOrphan);
  }
}
