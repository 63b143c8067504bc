// The durable store, one method per transaction (src/factory/infrastructure/
// persistence/sqlite.py, run_sqlite.py, pr_sqlite.py and the indexes of schema.py).
// Storage refuses what its indexes and guards refuse and nothing more: the rules
// of the services live in module Services.
module Store {
  import opened Lifecycle
  import opened Models
  import opened TransitionLog
  import opened World

  datatype StoreError =
    | UnknownTask | UnknownRun
    | StateChanged(actual: TaskStatus)
    | InvalidTransition
    | IdentityMismatch
    | Duplicate
    | RecoveryRejected

  // -- what storage guarantees whatever its callers do ------------------------

  ghost predicate DistinctRuns(t: Task) {
    forall i, j :: 0 <= i < j < |t.runs| ==> t.runs[i].id != t.runs[j].id
  }

  ghost predicate Sound(t: Task) {
    && OneActive(t)
    && DistinctRuns(t)
    && DistinctRows(t.rows)
  }

  ghost predicate DistinctRows(rows: seq<PrRow>) {
    forall i, j :: 0 <= i < j < |rows| ==>
      rows[i].runId != rows[j].runId && !(rows[i].repo == rows[j].repo && rows[i].head == rows[j].head)
  }

  ghost predicate Separate(t: Task, u: Task) {
    && Apart(t, u)
    && (forall r, s :: r in t.runs && s in u.runs ==> r.id != s.id)
    && (forall q, s :: q in t.rows && s in u.rows ==> q.runId != s.runId)
  }

  ghost predicate Consistent(tasks: map<nat, Task>) {
    && (forall id :: id in tasks ==> Sound(tasks[id]))
    && (forall id, other :: id in tasks && other in tasks && id != other ==>
          Separate(tasks[id], tasks[other]))
  }

  lemma Replaced(tasks: map<nat, Task>, id: nat, t: Task)
    requires Consistent(tasks) && Sound(t)
    requires forall other :: other in tasks && other != id ==>
               Separate(t, tasks[other]) && Separate(tasks[other], t)
    ensures Consistent(tasks[id := t])
  {
  }

  // A transition, or any other status write that goes by the graph in use, keeps the
  // stored history replayable; `Update` below need not.
  lemma MoveReplays(t: Task, target: TaskStatus)
    requires Replay(true, t.initial, t.log) == Some(t.status)
    ensures Replay(true, t.initial, t.MovedTo(target).log) ==
            if Admits(true, Edge(t.status, target)) then Some(target) else None
  {
    ReplayAppend(true, t.initial, t.log, Edge(t.status, target));
  }

  // A write that leaves the runs and pull request rows of its task alone.
  lemma Moved(tasks: map<nat, Task>, id: nat, t: Task)
    requires Consistent(tasks) && id in tasks
    requires t.runs == tasks[id].runs && t.rows == tasks[id].rows
    ensures Consistent(tasks[id := t])
  {
    forall other | other in tasks && other != id
      ensures Separate(t, tasks[other]) && Separate(tasks[other], t)
    {
      var u := tasks[other];
      assert Separate(tasks[id], u) && Separate(u, tasks[id]);
      assert forall ws :: UsesWorkspace(t, ws) == UsesWorkspace(tasks[id], ws);
    }
    Replaced(tasks, id, t);
  }

  // Tasks that occupy a claim slot, other than the one being claimed.
  function BusyTasks(tasks: map<nat, Task>): set<nat> {
    set id | id in tasks && (BusyStatus(tasks[id].status) || tasks[id].HasActiveRun())
  }

  lemma BusyByFacts(tasks: map<nat, Task>, id: nat)
    ensures BusyTasks(tasks) - {id} ==
            set other | other in tasks && other != id
                        && (tasks[other].status in {Claimed, Running, Validating, PrOpen}
                            || exists q :: q in tasks[other].runs && q.status !in {RunSucceeded, RunFailed, RunCancelled})
  {
  }

  predicate WorkspaceTaken(tasks: map<nat, Task>, id: nat, ws: nat) {
    exists other :: other in tasks && other != id && UsesWorkspace(tasks[other], ws)
  }

  predicate RunStored(tasks: map<nat, Task>, runId: nat) {
    exists id :: id in tasks && exists r :: r in tasks[id].runs && r.id == runId
  }

  predicate CanStoreRun(tasks: map<nat, Task>, id: nat, r: Run) {
    && id in tasks
    && (r.workspace.Some? ==>
          r.workspace.value.repo == tasks[id].repo && !WorkspaceTaken(tasks, id, r.workspace.value.id))
    && !RunStored(tasks, r.id)
    && (r.IsActive() ==> !tasks[id].HasActiveRun())
  }

  predicate RowClash(rows: seq<PrRow>, q: PrRow) {
    exists s :: s in rows && (s.runId == q.runId || (s.repo == q.repo && s.head == q.head))
  }

  predicate RowStored(tasks: map<nat, Task>, q: PrRow) {
    exists id :: id in tasks && RowClash(tasks[id].rows, q)
  }

  class TaskStore {
    const maxActiveClaims: nat
    var tasks: map<nat, Task>

    ghost predicate Valid() reads this { Consistent(tasks) }

    constructor (maxActiveClaims: nat)
      requires 1 <= maxActiveClaims <= 2
      ensures Valid() && tasks == map[] && this.maxActiveClaims == maxActiveClaims
    {
      this.maxActiveClaims := maxActiveClaims;
      tasks := map[];
    }

    // One compare-and-swap transaction: status and history row change together.
    // Only the move to CLAIMED counts the other busy tasks.
    method ApplyTransition(id: nat, expected: TaskStatus, target: TaskStatus)
      returns (r: Result<Task, StoreError>)
      requires Valid()
      modifies this
      ensures Valid()
      ensures r.Ok? <==>
                && id in old(tasks)
                && old(tasks)[id].status == expected
                && CanPersist(expected, target)
                && (target == Claimed ==> |BusyTasks(old(tasks)) - {id}| < maxActiveClaims)
      ensures r.Ok? && target == Claimed ==>
                |set other | other in old(tasks) && other != id
                             && (old(tasks)[other].status in {Claimed, Running, Validating, PrOpen}
                                 || exists q :: q in old(tasks)[other].runs && q.status !in {RunSucceeded, RunFailed, RunCancelled})|
                < maxActiveClaims
      ensures r.Ok? ==> r.value == old(tasks)[id].MovedTo(target) && tasks == old(tasks)[id := r.value]
      ensures r.Err? ==> tasks == old(tasks)
      ensures r.Err? ==>
                r.error == if id !in tasks then UnknownTask
                           else if tasks[id].status == expected && !CanPersist(expected, target)
                           then InvalidTransition
                           else StateChanged(tasks[id].status)
    {
      if id !in tasks { return Err(UnknownTask); }
      BusyByFacts(tasks, id);
      var t := tasks[id];
      if t.status != expected { return Err(StateChanged(t.status)); }
      if !CanPersist(expected, target) { return Err(InvalidTransition); }
      if target == Claimed && !(|BusyTasks(tasks) - {id}| < maxActiveClaims) {
        return Err(StateChanged(t.status));
      }
      Moved(tasks, id, t.MovedTo(target));
      tasks := tasks[id := t.MovedTo(target)];
      r := Ok(tasks[id]);
    }

    // FAILED or CANCELLED -> DONE on provider evidence, outside the graph.
    method ApplyTerminalResolution(id: nat, expected: TaskStatus) returns (r: Result<Task, StoreError>)
      requires Valid()
      modifies this
      ensures Valid()
      ensures r.Ok? <==>
                id in old(tasks) && old(tasks)[id].status == expected && expected in {Failed, Cancelled}
      ensures r.Ok? ==> r.value == old(tasks)[id].MovedTo(Done) && tasks == old(tasks)[id := r.value]
      ensures r.Err? ==> tasks == old(tasks)
    {
      if expected !in {Failed, Cancelled} { return Err(InvalidTransition); }
      if id !in tasks { return Err(UnknownTask); }
      if tasks[id].status != expected { return Err(StateChanged(tasks[id].status)); }
      Moved(tasks, id, tasks[id].MovedTo(Done));
      tasks := tasks[id := tasks[id].MovedTo(Done)];
      r := Ok(tasks[id]);
    }

    // The whole row of a task as its caller holds it: `held` is the status it was read
    // with, which is written back whatever is stored by now, and without history.
    method Update(id: nat, held: TaskStatus, reason: Option<Reason>) returns (r: Result<Task, StoreError>)
      requires Valid()
      modifies this
      ensures Valid()
      ensures r.Ok? <==> id in old(tasks)
      ensures r.Ok? ==>
                && r.value == old(tasks)[id].(status := held, reason := reason)
                && tasks == old(tasks)[id := r.value]
      ensures r.Err? ==> tasks == old(tasks)
    {
      if id !in tasks { return Err(UnknownTask); }
      Moved(tasks, id, tasks[id].(status := held, reason := reason));
      tasks := tasks[id := tasks[id].(status := held, reason := reason)];
      r := Ok(tasks[id]);
    }

    // WAITING_HUMAN -> CHANGES_REQUESTED with the request, once per reviewed run.
    method RequestRework(id: nat, runId: nat, feedback: string) returns (r: Result<Task, StoreError>)
      requires Valid()
      modifies this
      ensures Valid()
      ensures r.Ok? <==>
                && id in old(tasks)
                && old(tasks)[id].status == WaitingHuman
                && RunStored(old(tasks), runId)
                && (forall other, q :: other in old(tasks) && q in old(tasks)[other].reworks ==>
                      q.reviewedRun != runId)
      ensures r.Ok? ==>
                && r.value == old(tasks)[id].MovedTo(ChangesRequested)
                                .(reworks := old(tasks)[id].reworks + [Rework(runId, feedback)])
                && tasks == old(tasks)[id := r.value]
      ensures r.Err? ==> tasks == old(tasks)
    {
      if id !in tasks { return Err(UnknownTask); }
      var t := tasks[id];
      if t.status != WaitingHuman { return Err(StateChanged(t.status)); }
      if !RunStored(tasks, runId) { return Err(UnknownRun); }
      if exists other :: other in tasks && exists q :: q in tasks[other].reworks && q.reviewedRun == runId {
        return Err(Duplicate);
      }
      var u := t.MovedTo(ChangesRequested).(reworks := t.reworks + [Rework(runId, feedback)]);
      Moved(tasks, id, u);
      tasks := tasks[id := u];
      r := Ok(u);
    }

    // The run and its workspace in one transaction; the partial unique index, the
    // workspace owner and the primary key decide.
    method SaveRun(id: nat, run: Run) returns (r: Result<Run, StoreError>)
      requires Valid()
      modifies this
      ensures Valid()
      ensures r.Ok? <==> CanStoreRun(old(tasks), id, run)
      ensures r.Ok? <==>
                && id in old(tasks)
                && (run.workspace.Some? ==>
                      && run.workspace.value.repo == old(tasks)[id].repo
                      && forall other, q ::
                           (other in old(tasks) && other != id && q in old(tasks)[other].runs
                            && q.workspace.Some?) ==>
                             q.workspace.value.id != run.workspace.value.id)
                && (forall other, q :: other in old(tasks) && q in old(tasks)[other].runs ==> q.id != run.id)
                && (run.status !in {RunSucceeded, RunFailed, RunCancelled} ==>
                      forall q :: q in old(tasks)[id].runs ==> q.status in {RunSucceeded, RunFailed, RunCancelled})
      ensures r.Ok? ==>
                && r.value == run
                && tasks == old(tasks)[id := old(tasks)[id].(runs := old(tasks)[id].runs + [run])]
      ensures r.Err? ==> tasks == old(tasks)
    {
      if id !in tasks { return Err(IdentityMismatch); }
      var t := tasks[id];
      if run.workspace.Some? {
        if run.workspace.value.repo != t.repo { return Err(IdentityMismatch); }
        if WorkspaceTaken(tasks, id, run.workspace.value.id) { return Err(Duplicate); }
      }
      if RunStored(tasks, run.id) || (run.IsActive() && t.HasActiveRun()) { return Err(Duplicate); }
      SavedRun(tasks, id, run);
      tasks := tasks[id := t.(runs := t.runs + [run])];
      r := Ok(run);
    }

    // Status, gates and revision of a stored run; its workspace never changes, and
    // the partial unique index still refuses a second active run.
    method UpdateRun(id: nat, run: Run) returns (r: Result<Run, StoreError>)
      requires Valid()
      modifies this
      ensures Valid()
      ensures r.Ok? <==> id in old(tasks) && CanUpdateRun(old(tasks)[id].runs, run)
      ensures r.Ok? ==> id in tasks && ReplacesOne(old(tasks)[id].runs, run, tasks[id].runs)
      ensures r.Ok? ==>
                && r.value == run
                && tasks == old(tasks)[id := old(tasks)[id].(
                              runs := WithRun(old(tasks)[id].runs, run))]
      ensures r.Err? ==> tasks == old(tasks)
    {
      if id !in tasks { return Err(IdentityMismatch); }
      var t := tasks[id];
      if RunIndex(t.runs, run.id).None? { return Err(UnknownRun); }
      if !CanUpdateRun(t.runs, run) { return Err(Duplicate); }
      UpdateReplacesOne(t.runs, run);
      hide CanUpdateRun, ReplacesOne;
      UpdatedRun(tasks, id, RunIndex(t.runs, run.id).value, run);
      tasks := tasks[id := t.(runs := WithRun(t.runs, run))];
      r := Ok(run);
    }

    // FAILED -> BLOCKED for the exact latest failed run, while no run is active
    // anywhere and no pull request of the task exists.
    method AuthorizeTerminalRecovery(id: nat, runId: nat, marker: Reason)
      returns (r: Result<Task, StoreError>)
      requires Valid()
      modifies this
      ensures Valid()
      ensures r.Ok? <==>
                && id in old(tasks)
                && old(tasks)[id].status == Failed
                && CanRecoverFailed(old(tasks), id, runId)
      ensures r.Ok? <==>
                && id in old(tasks)
                && var t := old(tasks)[id];
                   && t.status == Failed && t.kind == Code && t.rows == [] && t.runs != []
                   && (var latest := t.runs[|t.runs| - 1];
                       latest.id == runId && latest.status == RunFailed && latest.workspace.Some?)
                   && forall other, q :: other in old(tasks) && q in old(tasks)[other].runs ==>
                        q.status in {RunSucceeded, RunFailed, RunCancelled}
      ensures r.Ok? ==>
                && r.value == old(tasks)[id].MovedTo(Blocked).(reason := Some(marker))
                && tasks == old(tasks)[id := r.value]
      ensures r.Err? ==> tasks == old(tasks)
    {
      if id !in tasks { return Err(UnknownTask); }
      var t := tasks[id];
      if t.status != Failed { return Err(StateChanged(t.status)); }
      if !CanRecoverFailed(tasks, id, runId) { return Err(RecoveryRejected); }
      var u := t.MovedTo(Blocked).(reason := Some(marker));
      Moved(tasks, id, u);
      tasks := tasks[id := u];
      r := Ok(u);
    }

    // RUNNING -> BLOCKED together with the run's RUNNING -> FAILED.
    method AuthorizeOrphanRecovery(id: nat, runId: nat) returns (r: Result<Task, StoreError>)
      requires Valid()
      modifies this
      ensures Valid()
      ensures r.Ok? <==> id in old(tasks) && IsOrphan(old(tasks)[id], runId)
      ensures r.Ok? <==>
                && id in old(tasks)
                && var t := old(tasks)[id];
                   && t.status == Running && t.kind == Code && t.rows == [] && t.runs != []
                   && var latest := t.runs[|t.runs| - 1];
                      latest.id == runId && latest.status == RunRunning && latest.workspace.Some?
      ensures r.Ok? ==>
                && r.value == old(tasks)[id].MovedTo(Blocked)
                                .WithLatest(old(tasks)[id].Latest().(status := RunFailed))
                                .(reason := Some(OrphanRecovery(runId)))
                && tasks == old(tasks)[id := r.value]
      ensures r.Err? ==> tasks == old(tasks)
    {
      if id !in tasks || !IsOrphan(tasks[id], runId) { return Err(RecoveryRejected); }
      var t := tasks[id];
      var failed := t.Latest().(status := RunFailed);
      var u := t.MovedTo(Blocked).WithLatest(failed).(reason := Some(OrphanRecovery(runId)));
      OrphanRecovered(tasks, id, failed, u);
      tasks := tasks[id := u];
      r := Ok(u);
    }

    // A first row for a run and a head branch: both are unique.
    method SavePullRequest(id: nat, row: PrRow) returns (r: Result<PrRow, StoreError>)
      requires Valid() && id in tasks
      modifies this
      ensures Valid()
      ensures r.Ok? <==>
                forall other, q :: other in old(tasks) && q in old(tasks)[other].rows ==>
                  q.runId != row.runId && !(q.repo == row.repo && q.head == row.head)
      ensures r.Ok? ==>
                && r.value == row
                && tasks == old(tasks)[id := old(tasks)[id].(rows := old(tasks)[id].rows + [row])]
      ensures r.Err? ==> tasks == old(tasks)
    {
      if RowStored(tasks, row) { return Err(Duplicate); }
      var t := tasks[id];
      SavedRow(tasks, id, row);
      tasks := tasks[id := t.(rows := t.rows + [row])];
      r := Ok(row);
    }

    // The row of an earlier review moves to the next run of the same task on the
    // same workspace; repository, branches and number stay.
    method RecordRevision(id: nat, index: nat, runId: nat, commit: string)
      returns (r: Result<PrRow, StoreError>)
      requires Valid() && id in tasks && index < |tasks[id].rows|
      modifies this
      ensures Valid()
      ensures r.Ok? <==> CanRecordRevision(old(tasks), id, index, runId, commit)
      ensures r.Ok? <==>
                && (exists i :: 0 <= i < |commit| && !IsSpace(commit[i]))
                && (exists s, d :: s in old(tasks)[id].runs && d in old(tasks)[id].runs
                      && s.id == old(tasks)[id].rows[index].runId && d.id == runId
                      && s.workspace.Some? && d.workspace == s.workspace
                      && s.workspace.value.repo == old(tasks)[id].repo == old(tasks)[id].rows[index].repo
                      && s.workspace.value.branch == old(tasks)[id].rows[index].head)
                && (forall other, q ::
                      (other in old(tasks) && q in old(tasks)[other].rows && q != old(tasks)[id].rows[index])
                      ==> q.runId != runId)
      ensures r.Ok? ==>
                && r.value == old(tasks)[id].rows[index].(runId := runId, commit := commit)
                && tasks == old(tasks)[id := old(tasks)[id].(
                              rows := old(tasks)[id].rows[index := r.value])]
      ensures r.Err? ==> tasks == old(tasks)
    {
      if !CanRecordRevision(tasks, id, index, runId, commit) { return Err(IdentityMismatch); }
      var t := tasks[id];
      var row := t.rows[index].(runId := runId, commit := commit);
      MovedRow(tasks, id, index, row);
      tasks := tasks[id := t.(rows := t.rows[index := row])];
      r := Ok(row);
    }
  }

  function RunIndex(runs: seq<Run>, runId: nat): (r: Option<nat>)
    ensures r.Some? ==> r.value < |runs| && runs[r.value].id == runId
    ensures r.None? <==> forall q :: q in runs ==> q.id != runId
  {
    if runs == [] then None
    else if runs[|runs| - 1].id == runId then Some(|runs| - 1)
    else
      assert runs == Earlier(runs) + [runs[|runs| - 1]];
      RunIndex(Earlier(runs), runId)
  }

  predicate CanUpdateRun(runs: seq<Run>, run: Run) {
    && RunIndex(runs, run.id).Some?
    && var i := RunIndex(runs, run.id).value;
       && runs[i].workspace == run.workspace
       && (run.IsActive() ==> forall j :: 0 <= j < |runs| && j != i ==> runs[j].IsTerminal())
  }

  function WithRun(runs: seq<Run>, run: Run): seq<Run>
    requires RunIndex(runs, run.id).Some?
  {
    runs[RunIndex(runs, run.id).value := run]
  }

  // Exactly the stored run of its identifier becomes `run`, in its workspace, and if it
  // is unfinished then all others are finished.
  ghost predicate ReplacesOne(runs: seq<Run>, run: Run, later: seq<Run>) {
    && |later| == |runs|
    && exists i :: 0 <= i < |runs|
         && runs[i].id == run.id && runs[i].workspace == run.workspace && later == runs[i := run]
         && (run.status !in {RunSucceeded, RunFailed, RunCancelled} ==>
               forall j :: 0 <= j < |runs| && j != i ==>
                 runs[j].status in {RunSucceeded, RunFailed, RunCancelled})
  }

  lemma UpdateReplacesOne(runs: seq<Run>, run: Run)
    requires CanUpdateRun(runs, run)
    ensures ReplacesOne(runs, run, WithRun(runs, run))
  {
    var i := RunIndex(runs, run.id).value;
    assert runs[i].id == run.id && runs[i].workspace == run.workspace;
  }

  predicate CanRecoverFailed(tasks: map<nat, Task>, id: nat, runId: nat)
    requires id in tasks
  {
    var t := tasks[id];
    && t.kind == Code
    && t.runs != []
    && t.Latest().id == runId
    && t.Latest().status == RunFailed
    && t.Latest().workspace.Some?
    && t.rows == []
    && forall other :: other in tasks ==> !tasks[other].HasActiveRun()
  }

  predicate IsOrphan(t: Task, runId: nat) {
    && t.kind == Code
    && t.status == Running
    && t.runs != []
    && t.Latest().id == runId
    && t.Latest().status == RunRunning
    && t.Latest().workspace.Some?
    && t.rows == []
  }

  // The destination run is another run of the row's task, on the workspace that
  // the row's own run used, and no other row names it.
  predicate CanRecordRevision(tasks: map<nat, Task>, id: nat, index: nat, runId: nat, commit: string)
    requires id in tasks && index < |tasks[id].rows|
  {
    var t := tasks[id];
    var row := t.rows[index];
    && NonBlank(Some(commit))
    && (exists s, d ::
          && s in t.runs && d in t.runs && s.id == row.runId && d.id == runId
          && s.workspace.Some? && s.workspace == d.workspace
          && d.workspace.value.repo == t.repo == row.repo
          && d.workspace.value.branch == row.head)
    && forall other, q :: other in tasks && q in tasks[other].rows && q != row ==> q.runId != runId
  }

  // -- the transactions that touch runs and rows -------------------------------

  lemma SavedRun(tasks: map<nat, Task>, id: nat, run: Run)
    requires Consistent(tasks) && CanStoreRun(tasks, id, run)
    ensures Consistent(tasks[id := tasks[id].(runs := tasks[id].runs + [run])])
  {
    var t := tasks[id];
    var u := t.(runs := t.runs + [run]);
    assert Sound(u) by {
      assert forall i :: 0 <= i < |t.runs| ==> t.runs[i] in t.runs;
    }
    forall other | other in tasks && other != id
      ensures Separate(u, tasks[other]) && Separate(tasks[other], u)
    {
      assert Separate(t, tasks[other]) && Separate(tasks[other], t);
      forall ws | UsesWorkspace(u, ws)
        ensures !UsesWorkspace(tasks[other], ws)
      {
        assert UsesWorkspace(t, ws) || (run.workspace.Some? && run.workspace.value.id == ws);
      }
    }
    Replaced(tasks, id, u);
  }

  lemma UpdatedRun(tasks: map<nat, Task>, id: nat, i: nat, run: Run)
    requires Consistent(tasks) && id in tasks && i < |tasks[id].runs|
    requires tasks[id].runs[i].id == run.id && tasks[id].runs[i].workspace == run.workspace
    requires run.IsActive() ==>
               forall j :: 0 <= j < |tasks[id].runs| && j != i ==> tasks[id].runs[j].IsTerminal()
    ensures Consistent(tasks[id := tasks[id].(runs := tasks[id].runs[i := run])])
  {
    var t := tasks[id];
    var u := t.(runs := t.runs[i := run]);
    assert Sound(t) && Sound(u);
    SameRunIdentity(t, u, i);
    forall other | other in tasks && other != id
      ensures Separate(u, tasks[other]) && Separate(tasks[other], u)
    {
      assert Separate(t, tasks[other]) && Separate(tasks[other], t);
    }
    Replaced(tasks, id, u);
  }

  lemma OrphanRecovered(tasks: map<nat, Task>, id: nat, failed: Run, u: Task)
    requires Consistent(tasks) && id in tasks && tasks[id].runs != []
    requires tasks[id].status == Running
    requires failed == tasks[id].Latest().(status := RunFailed)
    requires u == tasks[id].MovedTo(Blocked).WithLatest(failed).(reason := u.reason)
    ensures Consistent(tasks[id := u])
  {
    hide Consistent;
    UpdatedRun(tasks, id, |tasks[id].runs| - 1, failed);
    var mid := tasks[id := tasks[id].WithLatest(failed)];
    Moved(mid, id, u);
    assert mid[id := u] == tasks[id := u];
  }

  lemma SameRunIdentity(t: Task, u: Task, i: nat)
    requires i < |t.runs| == |u.runs|
    requires t.runs[i].id == u.runs[i].id && t.runs[i].workspace == u.runs[i].workspace
    requires u.runs == t.runs[i := u.runs[i]]
    ensures forall ws :: UsesWorkspace(u, ws) <==> UsesWorkspace(t, ws)
    ensures forall r :: r in u.runs ==> exists s :: s in t.runs && s.id == r.id
  {
    forall ws
      ensures UsesWorkspace(u, ws) <==> UsesWorkspace(t, ws)
    {
      if UsesWorkspace(u, ws) {
        var j :| 0 <= j < |u.runs| && u.runs[j].workspace.Some? && u.runs[j].workspace.value.id == ws;
        assert t.runs[j] in t.runs;
      }
      if UsesWorkspace(t, ws) {
        var j :| 0 <= j < |t.runs| && t.runs[j].workspace.Some? && t.runs[j].workspace.value.id == ws;
        assert u.runs[j] in u.runs;
      }
    }
    forall r | r in u.runs
      ensures exists s :: s in t.runs && s.id == r.id
    {
      var j :| 0 <= j < |u.runs| && u.runs[j] == r;
      assert t.runs[j] in t.runs;
    }
  }

  lemma SavedRow(tasks: map<nat, Task>, id: nat, row: PrRow)
    requires Consistent(tasks) && id in tasks && !RowStored(tasks, row)
    ensures Consistent(tasks[id := tasks[id].(rows := tasks[id].rows + [row])])
  {
    var t := tasks[id];
    var u := t.(rows := t.rows + [row]);
    assert Sound(u) by {
      assert Sound(t);
      assert forall i :: 0 <= i < |t.rows| ==> t.rows[i] in t.rows;
    }
    forall other | other in tasks && other != id
      ensures Separate(u, tasks[other]) && Separate(tasks[other], u)
    {
      assert Separate(t, tasks[other]) && Separate(tasks[other], t);
      assert forall ws :: UsesWorkspace(u, ws) == UsesWorkspace(t, ws);
    }
    Replaced(tasks, id, u);
  }

  lemma MovedRow(tasks: map<nat, Task>, id: nat, index: nat, row: PrRow)
    requires Consistent(tasks) && id in tasks && index < |tasks[id].rows|
    requires row == tasks[id].rows[index].(runId := row.runId, commit := row.commit)
    requires forall other, q :: other in tasks && q in tasks[other].rows && q != tasks[id].rows[index] ==>
               q.runId != row.runId
    ensures Consistent(tasks[id := tasks[id].(rows := tasks[id].rows[index := row])])
  {
    var t := tasks[id];
    var u := t.(rows := t.rows[index := row]);
    assert Sound(u) by {
      assert Sound(t);
      forall i | 0 <= i < |t.rows| && i != index
        ensures t.rows[i].runId != row.runId
      {
        assert t.rows[i] in t.rows;
      }
    }
    forall other | other in tasks && other != id
      ensures Separate(u, tasks[other]) && Separate(tasks[other], u)
    {
      var o := tasks[other];
      assert Separate(t, o) && Separate(o, t);
      assert forall ws :: UsesWorkspace(u, ws) == UsesWorkspace(t, ws);
      forall q, s | q in u.rows && s in o.rows
        ensures !(q.repo == s.repo && q.head == s.head) && q.runId != s.runId
      {
        assert t.rows[index] in t.rows;
        assert s != t.rows[index];
      }
    }
    Replaced(tasks, id, u);
  }
}
