// Domain records (src/factory/domain/models.py) and the facts derived from them.
module Models {
  import opened Lifecycle

  datatype Option<+T> = None | Some(value: T)

  datatype Result<+T, +E> = Ok(value: T) | Err(error: E)

  datatype TaskKind = Code | Operational

  datatype RunStatus = RunPending | RunRunning | RunSucceeded | RunFailed | RunCancelled

  datatype GateStatus = GatePending | GatePassed | GateFailed | GateSkipped

  datatype ValidationOutcome = OutcomePending | ReadyForNextPhase | GatesFailed

  datatype Gate = Gate(name: string, status: GateStatus, detail: string, required: bool) {
    predicate IsGreen() { status == GatePassed }

    predicate IsBlocking() { required && !IsGreen() }
  }

  datatype Workspace = Workspace(id: nat, repo: string, branch: string)

  datatype Run = Run(
    id: nat,
    status: RunStatus,
    workspace: Option<Workspace>,
    gates: seq<Gate>,
    revision: Option<string>)
  {
    predicate IsTerminal() { Finished(status) }

    predicate IsActive() { !IsTerminal() }

    function Outcome(): ValidationOutcome {
      if status != RunSucceeded then OutcomePending
      else if RequiredPassed(gates) then ReadyForNextPhase
      else GatesFailed
    }

    // A failed attempt: the agent failed, or its result failed a required gate.
    predicate IsBad() { status == RunFailed || Outcome() == GatesFailed }

    // Green and certified: some workspace revision passed every required gate.
    predicate IsBound() { Outcome() == ReadyForNextPhase && revision.Some? }

    // Still able to become a failed attempt: not finished, or finished
    // successfully without any revision having been certified.
    predicate IsOpen() { IsActive() || (Outcome() == ReadyForNextPhase && revision.None?) }

    predicate IsPublishable() {
      Outcome() == ReadyForNextPhase && NonBlank(revision) && workspace.Some?
    }
  }

  predicate Finished(s: RunStatus) { s in {RunSucceeded, RunFailed, RunCancelled} }

  // No required gate blocks. Vacuously true of an empty gate list.
  predicate RequiredPassed(gates: seq<Gate>) {
    forall g :: g in gates ==> !g.IsBlocking()
  }

  // Python's str.isspace, the characters str.strip removes.
  predicate IsSpace(c: char) {
    var n := c as int;
    || 9 <= n <= 13 || 28 <= n <= 32 || n == 0x85 || n == 0xA0 || n == 0x1680
    || 0x2000 <= n <= 0x200A || n == 0x2028 || n == 0x2029 || n == 0x202F || n == 0x205F
    || n == 0x3000
  }

  // revision.strip() is non-empty.
  predicate NonBlank(revision: Option<string>) {
    revision.Some? && exists i :: 0 <= i < |revision.value| && !IsSpace(revision.value[i])
  }

  // tasks.blocked_reason. Only the texts that some guard compares are told apart.
  datatype Reason =
    | PublicationFailed(runId: nat, workspaceId: nat)
    | TimeoutRecovery(runId: nat)
    | WorkerRecovery(runId: nat)
    | OrphanRecovery(runId: nat)
    | ContextUnavailable
    | SecurityBlocked
    | OtherReason(text: string)

  datatype Edge = Edge(source: TaskStatus, target: TaskStatus)

  datatype Rework = Rework(reviewedRun: nat, feedback: string)

  // One row of pull_requests.
  datatype PrRow = PrRow(
    runId: nat, repo: string, head: string, base: string, number: nat, commit: string)

  // One task with every stored row that belongs to it: its transition log, its
  // runs in creation order, its review requests and its pull request rows.
  datatype Task = Task(
    kind: TaskKind,
    repo: string,
    initial: TaskStatus,
    status: TaskStatus,
    reason: Option<Reason>,
    runs: seq<Run>,
    log: seq<Edge>,
    reworks: seq<Rework>,
    rows: seq<PrRow>)
  {
    function Latest(): Run
      requires runs != []
    {
      runs[|runs| - 1]
    }

    predicate HasActiveRun() { exists r :: r in runs && r.IsActive() }

    // A status write together with its history row.
    function MovedTo(target: TaskStatus): Task {
      this.(status := target, log := log + [Edge(status, target)])
    }

    // One stored run rewritten, in place.
    function WithRunAt(i: nat, r: Run): Task
      requires i < |runs|
    {
      this.(runs := runs[i := r])
    }

    function WithLatest(r: Run): Task
      requires runs != []
    {
      this.(runs := runs[|runs| - 1 := r])
    }

    predicate HasRowFor(runId: nat) { exists r :: r in rows && r.runId == runId }
  }

  // A task as intake stores it.
  predicate Fresh(t: Task) {
    t.status == t.initial && t.initial in {Discovered, Ready}
    && t.runs == [] && t.log == [] && t.reworks == [] && t.rows == [] && t.reason.None?
  }

  // runs[..|runs|-1] and the counts below follow the list from its end.
  function Earlier(runs: seq<Run>): seq<Run> {
    if runs == [] then [] else runs[..|runs| - 1]
  }

  // Failed attempts in the history (FAILED runs and runs with failed gates).
  function BadCount(runs: seq<Run>): nat {
    if runs == [] then 0
    else BadCount(Earlier(runs)) + if runs[|runs| - 1].IsBad() then 1 else 0
  }

  function FailedCount(runs: seq<Run>): nat {
    if runs == [] then 0
    else FailedCount(Earlier(runs)) + if runs[|runs| - 1].status == RunFailed then 1 else 0
  }

  // Length of the trailing block of runs whose gates failed.
  function Streak(runs: seq<Run>): nat {
    if runs == [] || runs[|runs| - 1].Outcome() != GatesFailed then 0
    else 1 + Streak(Earlier(runs))
  }
}
