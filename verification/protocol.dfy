// The task protocol as a step system. One step is one committed transaction on a
// task, guarded by what storage itself checks when it commits. What a service has read
// before that may be old by then: a retry, a requeue, an override and an update of a run
// or of a task row carry it. A process may die between any two steps; nothing but the
// store survives.
module Protocol {
  import opened Lifecycle
  import opened Models

  datatype Policy = Policy(retryLimit: nat, correctionLimit: nat) {
    predicate Valid() { retryLimit >= 1 }
  }

  // A task together with the dispatchers at work on it: claimants have committed
  // READY -> CLAIMED and not yet saved a run, starters have saved it and not yet
  // moved the task on. Neither is stored; both vanish with their process.
  datatype Node = Node(task: Task, claimants: nat, starters: nat)

  datatype Event =
    | Promote                                    // DISCOVERED -> READY
    | Resume                                     // CHANGES_REQUESTED -> READY
    | Claim                                      // READY -> CLAIMED
    | SaveRun(run: Run)
    | Advance                                    // CLAIMED -> RUNNING
    | LoseClaimant
    | LoseStarter
    | Settle(index: nat, collected: Run, status: RunStatus, gates: seq<Gate>, revision: Option<string>)
    | Validate                                   // RUNNING or BLOCKED -> VALIDATING
    | Revalidate(index: nat, judged: Task, newGates: seq<Gate>, newRevision: Option<string>)
    | Requeue(corrected: Task)                   // VALIDATING -> READY, decided on `corrected`
    | BindRow(base: string, number: nat, commit: string)
    | OpenPr                                     // VALIDATING -> PR_OPEN
    | HandOff                                    // PR_OPEN -> WAITING_HUMAN
    | RequestRework(reviewed: nat, feedback: string) // WAITING_HUMAN -> CHANGES_REQUESTED
    | Leave(target: TaskStatus)                  // to BLOCKED, FAILED, CANCELLED or DONE
    | SetReason(reason: Option<Reason>, held: TaskStatus) // the whole task row, as it was read
    | RetryRelease(released: Task)               // CLAIMED -> BLOCKED, decided on `released`
    | RetryReady(seen: Task)                     // BLOCKED -> READY, decided on `seen`
    | RetryPublication(published: Task)          // BLOCKED -> VALIDATING, decided on `published`
    | Override(blocked: Task)                    // BLOCKED -> VALIDATING, decided on `blocked`
    | RecoverTerminal(marker: Reason)            // FAILED -> BLOCKED
    | RecoverOrphan                              // RUNNING -> BLOCKED, the run becomes FAILED
    | ResolveTerminal                            // FAILED or CANCELLED -> DONE

  datatype FailureClass = Transient | Correctable | NonRecoverable

  // RecoveryPolicy.is_publication_retry: the reason names exactly the latest run
  // and its workspace, and that run is green and certified.
  predicate IsPublicationRetry(t: Task) {
    && t.status == Blocked
    && t.runs != []
    && t.Latest().IsPublishable()
    && t.Latest().workspace.value.repo == t.repo
    && t.reason == Some(PublicationFailed(t.Latest().id, t.Latest().workspace.value.id))
  }

  // RecoveryPolicy.classify_retry, with rework_claim as retry.py computes it.
  function ClassifyRetry(t: Task): FailureClass {
    if t.status !in {Blocked, Claimed} then NonRecoverable
    else if t.runs == [] then
      if t.status == Blocked && t.reason == Some(ContextUnavailable) then Correctable else Transient
    else if t.Latest().status == RunFailed then Correctable
    else if t.status == Blocked && t.Latest().Outcome() == GatesFailed then Correctable
    else if IsPublicationRetry(t) then Correctable
    else if t.status == Claimed && t.reworks != [] && t.Latest().IsTerminal() then Correctable
    else NonRecoverable
  }

  // RetryService.retry up to its first write: the status the task is sent to, or
  // None for each of its refusals, in the order the service checks them.
  function RetryTarget(p: Policy, t: Task, backoffPending: bool): Option<TaskStatus> {
    if t.status !in {Blocked, Claimed} then None
    else if t.HasActiveRun() then None
    else if ClassifyRetry(t) == NonRecoverable then None
    else if BadCount(t.runs) >= p.retryLimit then None
    else if t.runs != [] && t.Latest().status == RunFailed && backoffPending then None
    else if t.status == Claimed
            && (t.runs == []
                || (t.Latest().status != RunFailed
                    && !(t.reworks != [] && t.Latest().IsTerminal()))) then None
    else if IsPublicationRetry(t) then Some(Validating)
    else Some(Ready)
  }

  // The row of a repository's head branch, unique by uq_pull_requests_repository_branch.
  function FindRow(rows: seq<PrRow>, repo: string, head: string): (r: Option<nat>)
    ensures r.Some? ==> r.value < |rows| && rows[r.value].repo == repo && rows[r.value].head == head
    ensures r.None? <==> forall q :: q in rows ==> !(q.repo == repo && q.head == head)
  {
    if rows == [] then None
    else
      var last := |rows| - 1;
      if rows[last].repo == repo && rows[last].head == head then Some(last)
      else FindRow(rows[..last], repo, head)
  }

  // PublicationService._require_publishable on the task's latest run.
  predicate PublishGuard(t: Task, base: string) {
    && t.runs != []
    && t.Latest().Outcome() == ReadyForNextPhase
    && t.Latest().workspace.Some?
    && t.Latest().workspace.value.repo == t.repo
    && t.Latest().workspace.value.branch !in {"main", "master", base}
  }

  // What storage checks of a row to be stored for the latest run.
  predicate CanStoreRow(t: Task) {
    t.runs != [] && t.Latest().workspace.Some? && !t.HasRowFor(t.Latest().id)
  }

  // What publication has checked before it stores one.
  predicate CanBindRow(t: Task, base: string) {
    && t.kind == Code
    && t.status == Validating
    && PublishGuard(t, base)
    && NonBlank(t.Latest().revision)
    && !t.HasRowFor(t.Latest().id)
    && var ws := t.Latest().workspace.value;
       match FindRow(t.rows, ws.repo, ws.branch)
       case None => true
       case Some(i) =>
         t.rows[i].base == base
         && exists r :: r in Earlier(t.runs) && r.id == t.rows[i].runId
  }

  // The stored run at an index is the one that was read: update_run matches the id
  // and compares the workspace, and nothing else.
  predicate Stores(t: Task, index: nat, read: Run) {
    && index < |t.runs|
    && t.runs[index].id == read.id
    && t.runs[index].workspace == read.workspace
  }

  // What the collection of a run that was read as active may store. A certified
  // revision is only ever stored with green required gates (module Tracking proves it
  // of the source), and the one-active-run index refuses a second active run.
  predicate CanSettle(t: Task, index: nat, read: Run, status: RunStatus, gates: seq<Gate>,
                      revision: Option<string>)
  {
    && Stores(t, index, read)
    && read.IsActive()
    && (revision.Some? ==> status == RunSucceeded && RequiredPassed(gates))
    && (!Finished(status) ==>
          forall j :: 0 <= j < |t.runs| && j != index ==> t.runs[j].IsTerminal())
  }

  // Tracking re-runs the gates of a run it reads as successful only while it reads no
  // revision bound to it.
  predicate CanRevalidate(read: Task, revision: Option<string>, gates: seq<Gate>) {
    && read.kind == Code
    && read.runs != []
    && read.Latest().status == RunSucceeded
    && read.Latest().revision.None?
    && (read.Latest().gates == []
        || (read.status == Validating && RequiredPassed(read.Latest().gates)
            && read.Latest().workspace.Some? && !read.HasRowFor(read.Latest().id)))
    && (revision.Some? ==> RequiredPassed(gates))
  }

  // A dispatcher that has claimed the task, and the facts storage checks.
  predicate CanSaveRun(n: Node, r: Run) {
    && n.claimants > 0
    && r.revision.None?
    && (forall q :: q in n.task.runs ==> q.id != r.id)
    && (r.IsActive() ==> !n.task.HasActiveRun())
  }

  // The security-override command: the exact blocked run, with the revision that its
  // review inspects.
  predicate CanOverride(t: Task) {
    && t.status == Blocked
    && t.reason == Some(SecurityBlocked)
    && t.runs != []
    && t.Latest().workspace.Some?
    && t.Latest().workspace.value.repo == t.repo
    && t.Latest().revision.Some? && t.Latest().revision.value != ""
  }

  predicate CanRequeue(p: Policy, t: Task) {
    && t.kind == Code
    && t.status == Validating
    && t.runs != []
    && t.Latest().Outcome() == GatesFailed
    && Streak(t.runs) <= p.correctionLimit
  }

  predicate CanRequestRework(t: Task) {
    && t.kind == Code
    && t.status == WaitingHuman
    && t.runs != []
    && t.Latest().status == RunSucceeded
    && t.Latest().workspace.Some?
    && forall q :: q in t.reworks ==> q.reviewedRun != t.Latest().id
  }

  // The status a task row was read with: the stored one, or one of its history.
  predicate Held(t: Task, s: TaskStatus) {
    s == t.status || exists e :: e in t.log && e.target == s
  }

  predicate CanRecoverTerminal(t: Task, marker: Reason) {
    && t.kind == Code
    && t.status == Failed
    && t.runs != []
    && t.Latest().status == RunFailed
    && t.Latest().workspace.Some?
    && t.rows == []
    && marker in {TimeoutRecovery(t.Latest().id), WorkerRecovery(t.Latest().id)}
  }

  predicate CanRecoverOrphan(t: Task) {
    && t.kind == Code
    && t.status == Running
    && t.runs != []
    && t.Latest().status == RunRunning
    && t.Latest().workspace.Some?
    && t.rows == []
  }

  predicate Enabled(p: Policy, n: Node, e: Event) {
    var t := n.task;
    match e
    case Promote => t.status == Discovered
    case Resume => t.status == ChangesRequested
    case Claim => t.status == Ready
    case SaveRun(r) => CanSaveRun(n, r)
    case Advance => n.starters > 0 && t.status == Claimed
    case LoseClaimant => n.claimants > 0
    case LoseStarter => n.starters > 0
    case Settle(i, r, s, g, v) => CanSettle(t, i, r, s, g, v)
    case Validate => CanTransition(t.status, Validating) && t.runs != []
    case Revalidate(i, read, g, v) => CanRevalidate(read, v, g) && Stores(t, i, read.Latest())
    case Requeue(seen) => t.status == Validating && CanRequeue(p, seen)
    case BindRow(_, _, _) => CanStoreRow(t)
    case OpenPr => t.status == Validating
    case HandOff => t.status == PrOpen
    case RequestRework(reviewed, _) =>
      && t.status == WaitingHuman
      && (exists r :: r in t.runs && r.id == reviewed)
      && (forall q :: q in t.reworks ==> q.reviewedRun != reviewed)
    case Leave(target) =>
      target in {Blocked, Failed, Cancelled, Done} && CanTransition(t.status, target)
    case SetReason(_, held) => held in {Blocked, Failed, Cancelled, Done} && Held(t, held)
    case RetryRelease(seen) =>
      t.status == Claimed && seen.status == Claimed && RetryTarget(p, seen, false).Some?
    case RetryReady(seen) => t.status == Blocked && RetryTarget(p, seen, false) == Some(Ready)
    case RetryPublication(seen) =>
      t.status == Blocked && RetryTarget(p, seen, false) == Some(Validating)
    case Override(seen) => CanTransition(t.status, Validating) && CanOverride(seen)
    case RecoverTerminal(marker) => CanRecoverTerminal(t, marker)
    case RecoverOrphan => CanRecoverOrphan(t)
    case ResolveTerminal => t.status in {Failed, Cancelled}
  }

  // The pull request rows after the latest run's publication is stored: the
  // branch's row moves to the run, or a first row is inserted.
  function BoundRows(t: Task, base: string, number: nat, commit: string): seq<PrRow>
    requires t.runs != [] && t.Latest().workspace.Some?
  {
    var r := t.Latest();
    var ws := r.workspace.value;
    match FindRow(t.rows, ws.repo, ws.branch)
    case Some(i) => t.rows[i := t.rows[i].(runId := r.id, commit := commit)]
    case None => t.rows + [PrRow(r.id, ws.repo, ws.branch, base, number, commit)]
  }

  predicate IsUpdate(e: Event) { e.Settle? || e.Revalidate? }

  // What an update makes of the run it finds: status, gates and revision are written
  // whatever is stored, and nothing else is.
  function Written(r: Run, e: Event): Run
    requires IsUpdate(e)
  {
    match e
    case Settle(_, _, s, g, v) => r.(status := s, gates := g, revision := v)
    case Revalidate(_, _, g, v) => r.(status := RunSucceeded, gates := g, revision := v)
  }

  function Next(n: Node, e: Event): Node {
    var t := n.task;
    match e
    case Promote => n.(task := t.MovedTo(Ready))
    case Resume => n.(task := t.MovedTo(Ready))
    case Claim => n.(task := t.MovedTo(Claimed), claimants := n.claimants + 1)
    case SaveRun(r) =>
      Node(t.(runs := t.runs + [r]), if n.claimants > 0 then n.claimants - 1 else 0, n.starters + 1)
    case Advance =>
      Node(t.MovedTo(Running), n.claimants, if n.starters > 0 then n.starters - 1 else 0)
    case LoseClaimant => n.(claimants := if n.claimants > 0 then n.claimants - 1 else 0)
    case LoseStarter => n.(starters := if n.starters > 0 then n.starters - 1 else 0)
    case Settle(i, _, _, _, _) =>
      if i < |t.runs| then n.(task := t.WithRunAt(i, Written(t.runs[i], e))) else n
    case Validate => n.(task := t.MovedTo(Validating))
    case Revalidate(i, _, _, _) =>
      if i < |t.runs| then n.(task := t.WithRunAt(i, Written(t.runs[i], e))) else n
    case Requeue(_) => n.(task := t.MovedTo(Ready))
    case BindRow(base, number, commit) =>
      if t.runs != [] && t.Latest().workspace.Some?
      then n.(task := t.(rows := BoundRows(t, base, number, commit)))
      else n
    case OpenPr => n.(task := t.MovedTo(PrOpen))
    case HandOff => n.(task := t.MovedTo(WaitingHuman))
    case RequestRework(reviewed, feedback) =>
      n.(task := t.MovedTo(ChangesRequested).(reworks := t.reworks + [Rework(reviewed, feedback)]))
    case Leave(target) => n.(task := t.MovedTo(target))
    case SetReason(reason, held) => n.(task := t.(reason := reason, status := held))
    case RetryRelease(_) => n.(task := t.MovedTo(Blocked))
    case RetryReady(_) => n.(task := t.MovedTo(Ready))
    case RetryPublication(_) => n.(task := t.MovedTo(Validating))
    case Override(_) => n.(task := t.MovedTo(Validating))
    case RecoverTerminal(marker) => n.(task := t.MovedTo(Blocked).(reason := Some(marker)))
    case RecoverOrphan =>
      if t.runs != []
      then n.(task := t.MovedTo(Blocked).WithLatest(t.Latest().(status := RunFailed))
                       .(reason := Some(OrphanRecovery(t.Latest().id))))
      else n
    case ResolveTerminal => n.(task := t.MovedTo(Done))
  }

  predicate Legal(p: Policy, n: Node, events: seq<Event>)
    decreases |events|
  {
    events == []
    || (Enabled(p, n, events[0]) && Legal(p, Next(n, events[0]), events[1..]))
  }

  function After(n: Node, events: seq<Event>): Node
    decreases |events|
  {
    if events == [] then n else After(Next(n, events[0]), events[1..])
  }

  // Running one history after another is running their concatenation.
  lemma {:induction false} LegalAppend(p: Policy, n: Node, first: seq<Event>, second: seq<Event>)
    ensures After(n, first + second) == After(After(n, first), second)
    ensures Legal(p, n, first + second) <==> Legal(p, n, first) && Legal(p, After(n, first), second)
    decreases |first|
  {
    if first == [] {
      assert first + second == second;
    } else {
      assert (first + second)[1..] == first[1..] + second;
      LegalAppend(p, Next(n, first[0]), first[1..], second);
    }
  }

  // A history that leads to a task, with no process of its own left behind.
  ghost predicate Realizes(p: Policy, n: Node, events: seq<Event>, t: Task) {
    Legal(p, n, events) && After(n, events) == n.(task := t)
  }

  lemma Then(p: Policy, n: Node, events: seq<Event>, e: Event)
    requires Legal(p, n, events) && Enabled(p, After(n, events), e)
    ensures Legal(p, n, events + [e])
    ensures After(n, events + [e]) == Next(After(n, events), e)
  {
    LegalAppend(p, n, events, [e]);
    assert [e][1..] == [];
  }

  lemma ThreeSteps(p: Policy, n: Node, e: Event, f: Event, g: Event)
    requires Enabled(p, n, e) && Enabled(p, Next(n, e), f) && Enabled(p, Next(Next(n, e), f), g)
    ensures Legal(p, n, [e, f, g]) && After(n, [e, f, g]) == Next(Next(Next(n, e), f), g)
  {
    hide Enabled, Next;
    Then(p, n, [], e);
    Then(p, n, [] + [e], f);
    Then(p, n, [] + [e] + [f], g);
    assert [] + [e] + [f] + [g] == [e, f, g];
  }

  // A step leaves the runs alone, appends one, or rewrites the outcome of one.
  lemma RunsAfterStep(p: Policy, n: Node, e: Event)
    requires Enabled(p, n, e)
    ensures
      var before, later := n.task.runs, Next(n, e).task.runs;
      if e.SaveRun? then later == before + [e.run] && e.run.revision.None?
      else if IsUpdate(e) then
        && e.index < |before|
        && later == before[e.index := Written(before[e.index], e)]
        && (later[e.index].revision.Some? ==>
              later[e.index].status == RunSucceeded && RequiredPassed(later[e.index].gates))
        && (later[e.index].IsActive() ==>
              && e.Settle? && !Finished(e.status)
              && forall j :: 0 <= j < |before| && j != e.index ==> before[j].IsTerminal())
      else if e.RecoverOrphan? then
        && before != [] && before[|before| - 1].status == RunRunning
        && later == before[|before| - 1 := before[|before| - 1].(status := RunFailed)]
      else later == before
  {
  }

  // Identity and workspace of a run never change.
  lemma RunIdentity(p: Policy, n: Node, e: Event)
    requires Enabled(p, n, e)
    ensures
      var before, later := n.task.runs, Next(n, e).task.runs;
      && |before| <= |later|
      && (forall i :: 0 <= i < |before| ==>
            later[i].id == before[i].id && later[i].workspace == before[i].workspace)
      && (|later| > |before| ==> e.SaveRun? && later == before + [e.run])
  {
  }

  lemma RowsAfterStep(p: Policy, n: Node, e: Event)
    requires Enabled(p, n, e)
    ensures Next(n, e).task.rows ==
            if e.BindRow? then BoundRows(n.task, e.base, e.number, e.commit) else n.task.rows
  {
  }
}
