// Tracking a run and validating its result (src/factory/orchestration/tracking.py).
module Tracking {
  import opened Lifecycle
  import opened Models
  import opened Protocol
  import opened Published
  import opened Store
  import opened Services

  datatype Spec = Spec(name: string, required: bool)

  // What a gate runner does with a spec: any gate at all, an unexpected exception,
  // or one of the factory's own errors, which ends the whole refresh.
  datatype Answer =
    | Answered(gate: Gate)
    | Raised
    | Aborts

  // Everything one validation meets outside the store.
  datatype Env = Env(
    canRepair: bool,                 // a provisioner is configured
    repaired: Option<Workspace>,     // None when the repair raises
    before: Option<string>,          // the workspace fingerprint, None when it fails
    runner: Option<seq<Answer>>,     // None when no gate runner is configured
    after: Option<string>)

  datatype Verdict =
    | Aborted
    | Verdict(gates: seq<Gate>, revision: Option<string>)

  // -- one gate, all gates, one verdict -------------------------------------------

  predicate IsDigit(c: char) { '0' <= c <= '9' }

  // exit_code=-?\d{1,3}, timeout or spawn_error, the whole text.
  predicate AllowedDetail(detail: string) {
    || detail in {"timeout", "spawn_error"}
    || (|detail| > 10 && detail[..10] == "exit_code="
        && var code := if detail[10] == '-' then detail[11..] else detail[10..];
           1 <= |code| <= 3 && forall i :: 0 <= i < |code| ==> IsDigit(code[i]))
  }

  function RunGate(spec: Spec, a: Answer): Option<Gate> {
    match a
    case Aborts => None
    case Raised => Some(Gate(spec.name, GateFailed, "runner_error", spec.required))
    case Answered(g) =>
      if g.name != spec.name || g.required != spec.required
      then Some(Gate(spec.name, GateFailed, "runner_mismatch", spec.required))
      else Some(Gate(spec.name, g.status,
                     if AllowedDetail(g.detail) then g.detail else "redacted", spec.required))
  }

  function AnswerTo(answers: seq<Answer>, i: nat): Answer {
    if i < |answers| then answers[i] else Raised
  }

  function RunGates(specs: seq<Spec>, answers: seq<Answer>): Option<seq<Gate>>
    decreases |specs|
  {
    if specs == [] then Some([])
    else
      var last := |specs| - 1;
      match (RunGates(specs[..last], answers), RunGate(specs[last], AnswerTo(answers, last)))
      case (Some(gates), Some(gate)) => Some(gates + [gate])
      case _ => None
  }

  function EvaluateGates(specs: seq<Spec>, env: Env): Option<seq<Gate>> {
    if env.runner.None?
    then Some(seq(|specs|, i requires 0 <= i < |specs| =>
                    Gate(specs[i].name, GateFailed, "no_workspace", specs[i].required)))
    else RunGates(specs, env.runner.value)
  }

  function IntegrityFailure(detail: string): seq<Gate> {
    [Gate("workspace_integrity", GateFailed, detail, true)]
  }

  function ValidateRevision(t: Task, r: Run, specs: seq<Spec>, env: Env): Verdict {
    if r.workspace.None? || !env.canRepair then
      Verdict(IntegrityFailure("workspace repair unavailable"), None)
    else if env.repaired.None? then Verdict(IntegrityFailure("workspace repair failed"), None)
    else if env.repaired != r.workspace || r.workspace.value.repo != t.repo then
      Verdict(IntegrityFailure("workspace identity mismatch"), None)
    else if env.before.None? then Verdict(IntegrityFailure("workspace inspection failed"), None)
    else
      match EvaluateGates(specs, env)
      case None => Aborted
      case Some(gates) =>
        if env.after.None? then
          Verdict(gates + IntegrityFailure("workspace inspection failed"), None)
        else if env.before != env.after then
          Verdict(gates + IntegrityFailure("workspace changed during validation"), None)
        else if !RequiredPassed(gates) then Verdict(gates, None)
        else Verdict(gates, env.after)
  }

  // -- what a certified revision means -----------------------------------------------

  // The runner really answered this spec, as configured, with PASSED.
  predicate Passed(spec: Spec, env: Env, i: nat) {
    env.runner.Some?
    && var a := AnswerTo(env.runner.value, i);
       a.Answered? && a.gate.name == spec.name && a.gate.required == spec.required
       && a.gate.status == GatePassed
  }

  predicate Matches(specs: seq<Spec>, gates: seq<Gate>) {
    |gates| == |specs|
    && forall i :: 0 <= i < |specs| ==> gates[i].name == specs[i].name && gates[i].required == specs[i].required
  }

  // Whatever the runner returns: one result per spec, in order, under the spec's own
  // name and required flag, green exactly where it passed that very spec.
  lemma {:induction false} GatesMatchSpecs(specs: seq<Spec>, answers: seq<Answer>, env: Env)
    requires env.runner == Some(answers) && RunGates(specs, answers).Some?
    ensures Matches(specs, RunGates(specs, answers).value)
    ensures forall i :: 0 <= i < |specs| ==>
              (RunGates(specs, answers).value[i].IsGreen() <==> Passed(specs[i], env, i))
    decreases |specs|
  {
    if specs != [] {
      GatesMatchSpecs(specs[..|specs| - 1], answers, env);
    }
  }

  lemma EvaluatedGates(specs: seq<Spec>, env: Env)
    requires EvaluateGates(specs, env).Some?
    ensures Matches(specs, EvaluateGates(specs, env).value)
    ensures forall i :: 0 <= i < |specs| ==>
              (EvaluateGates(specs, env).value[i].IsGreen() <==> Passed(specs[i], env, i))
  {
    if env.runner.Some? { GatesMatchSpecs(specs, env.runner.value, env); }
  }

  // A revision is certified if and only if the workspace was repaired to itself, its
  // fingerprint was read and is the same before and after, and the runner passed
  // every required spec; the certified revision is that fingerprint, and the gate
  // list then has exactly one result per configured spec.
  lemma CertifiedExactlyWhen(t: Task, r: Run, specs: seq<Spec>, env: Env)
    requires !ValidateRevision(t, r, specs, env).Aborted?
    ensures
      var v := ValidateRevision(t, r, specs, env);
      && (v.revision.Some? <==>
            && r.workspace.Some? && env.canRepair && env.repaired == r.workspace
            && r.workspace.value.repo == t.repo
            && env.before.Some? && env.after == env.before
            && forall i :: 0 <= i < |specs| && specs[i].required ==> Passed(specs[i], env, i))
      && (v.revision.Some? ==>
            v.revision == env.before && Matches(specs, v.gates) && RequiredPassed(v.gates))
  {
    var v := ValidateRevision(t, r, specs, env);
    if EvaluateGates(specs, env).Some? {
      var gates := EvaluateGates(specs, env).value;
      EvaluatedGates(specs, env);
      assert RequiredPassed(gates) <==>
             forall i :: 0 <= i < |gates| && gates[i].required ==> gates[i].IsGreen()
      by {
        assert forall i :: 0 <= i < |gates| ==> gates[i] in gates;
      }
    }
  }

  // A verdict that certifies nothing is red, and never an empty gate list.
  lemma UncertifiedIsRed(t: Task, r: Run, specs: seq<Spec>, env: Env)
    ensures var v := ValidateRevision(t, r, specs, env);
            v.Verdict? && v.revision.None? ==> v.gates != [] && !RequiredPassed(v.gates)
    ensures var v := ValidateRevision(t, r, specs, env);
            v.Verdict? && v.revision.Some? ==> RequiredPassed(v.gates)
  {
    var v := ValidateRevision(t, r, specs, env);
    if v.Verdict? && v.revision.None? && !RequiredPassed(v.gates) {
    } else if v.Verdict? && v.revision.None? {
      var last := v.gates[|v.gates| - 1];
      assert last in v.gates && last.IsBlocking();
      assert false;
    }
  }

  predicate IsIntegrityFailure(g: Gate) {
    g.name == "workspace_integrity" && g.status == GateFailed && g.required
  }

  // What a verdict lists: one required failure alone when the workspace could not be
  // repaired to itself or read; otherwise one result per spec, and after them one
  // required failure exactly when the fingerprint is not the same afterwards.
  lemma VerdictLists(t: Task, r: Run, specs: seq<Spec>, env: Env)
    requires !ValidateRevision(t, r, specs, env).Aborted?
    ensures
      var v := ValidateRevision(t, r, specs, env);
      if r.workspace.Some? && env.canRepair && env.repaired == r.workspace
         && r.workspace.value.repo == t.repo && env.before.Some?
      then
        && |v.gates| == |specs| + (if env.after == env.before then 0 else 1)
        && Matches(specs, v.gates[..|specs|])
        && (forall i :: 0 <= i < |specs| ==> (v.gates[i].IsGreen() <==> Passed(specs[i], env, i)))
        && (env.after != env.before ==> IsIntegrityFailure(v.gates[|specs|]))
      else |v.gates| == 1 && IsIntegrityFailure(v.gates[0])
  {
    if EvaluateGates(specs, env).Some? { EvaluatedGates(specs, env); }
    hide RequiredPassed, EvaluateGates;
  }

  // -- refreshing ------------------------------------------------------------------------

  // The fixed part of a refresh: the gate configuration, whether the pull request
  // store and the provider are configured, and what they know of the run's branch.
  datatype Setup = Setup(specs: seq<Spec>, storesPresent: bool, foreignRow: bool, remotePr: bool)

  // RunTrackingService._can_revalidate.
  predicate MayRevalidate(t: Task, setup: Setup)
    requires t.runs != []
  {
    var r := t.Latest();
    && t.status == Validating
    && r.revision.None?
    && r.gates != []
    && RequiredPassed(r.gates)
    && r.workspace.Some?
    && NoPullRequest(t, setup)
  }

  predicate NoPullRequest(t: Task, setup: Setup)
    requires t.runs != [] && t.Latest().workspace.Some?
  {
    var ws := t.Latest().workspace.value;
    && setup.storesPresent
    && !t.HasRowFor(t.Latest().id)
    && FindRow(t.rows, ws.repo, ws.branch).None? && !setup.foreignRow
    && !setup.remotePr
  }

  predicate Evaluates(t: Task, setup: Setup)
    requires t.runs != []
  {
    var r := t.Latest();
    r.status == RunSucceeded
    && ((r.gates == [] && setup.specs != [] && r.revision.None?) || MayRevalidate(t, setup))
  }

  // RunTrackingService._follows_failed_gates for the latest run.
  predicate FollowsFailedGates(t: Task)
    requires t.runs != []
  {
    |t.runs| >= 2
    && t.runs[|t.runs| - 2].Outcome() == GatesFailed
    && t.runs[|t.runs| - 2].workspace == t.Latest().workspace
  }

  // The status a finished latest run drives its task toward.
  function DriveTarget(t: Task): Option<TaskStatus>
    requires t.runs != []
  {
    match t.Latest().status
    case RunSucceeded => Some(Validating)
    case RunFailed => Some(if t.reworks != [] || FollowsFailedGates(t) then Blocked else TaskStatus.Failed)
    case RunCancelled => Some(Cancelled)
    case _ => None
  }

  // RunTrackingService._drive_task: legal edges only, everything else is left alone.
  function Driven(t: Task): Task
    requires t.runs != []
  {
    match DriveTarget(t)
    case None => t
    case Some(target) => if CanTransition(t.status, target) then t.MovedTo(target) else t
  }

  function WithVerdict(t: Task, v: Verdict): Task
    requires t.runs != [] && v.Verdict?
  {
    t.WithLatest(t.Latest().(gates := v.gates, revision := v.revision))
  }

  // One refresh of a CODE task whose latest run is finished.
  function Refreshed(t: Task, setup: Setup, env: Env): Task
    requires t.runs != []
  {
    if Evaluates(t, setup) then
      var v := ValidateRevision(t, t.Latest(), setup.specs, env);
      if v.Aborted? then t else Driven(WithVerdict(t, v))
    else Driven(t)
  }

  // The same, cut after `writes` writes.
  function RefreshedCut(t: Task, setup: Setup, env: Env, writes: nat): Task
    requires t.runs != []
  {
    if !Evaluates(t, setup) then CutOff(t, Driven(t), Driven(t), writes)
    else
      var v := ValidateRevision(t, t.Latest(), setup.specs, env);
      if v.Aborted? then t else CutOff(t, WithVerdict(t, v), Driven(WithVerdict(t, v)), writes)
  }

  lemma NotCut(t: Task, setup: Setup, env: Env)
    requires t.runs != []
    ensures RefreshedCut(t, setup, env, 2) == Refreshed(t, setup, env)
  {
    hide ValidateRevision, Evaluates;
  }

  predicate Completes(t: Task, setup: Setup, env: Env)
    requires t.runs != []
  {
    !ValidateRevision(t, t.Latest(), setup.specs, env).Aborted?
  }

  lemma EvaluatedOnce(t: Task, setup: Setup, env: Env)
    requires t.runs != [] && Evaluates(t, setup) && Completes(t, setup, env)
    ensures
      var u := WithVerdict(t, ValidateRevision(t, t.Latest(), setup.specs, env));
      && u.runs != [] && u.Latest().IsTerminal()
      && !Evaluates(u, setup) && !Evaluates(Driven(u), setup)
      && u.runs != t.runs
  {
    var v := ValidateRevision(t, t.Latest(), setup.specs, env);
    UncertifiedIsRed(t, t.Latest(), setup.specs, env);
    var u := WithVerdict(t, v);
    assert u.Latest() == t.Latest().(gates := v.gates, revision := v.revision);
    assert u.Latest() != t.Latest();
  }

  lemma DrivenOnce(t: Task)
    requires t.runs != []
    ensures Driven(t).runs == t.runs && Driven(Driven(t)) == Driven(t)
  {
    assert Driven(t).Latest() == t.Latest();
  }

  // The state in which a first refresh only moves the task to VALIDATING, and a
  // second one then finds it there and re-validates: a green run without a
  // certified revision whose task is not yet, or not any more, VALIDATING.
  predicate Exposed(t: Task, setup: Setup)
    requires t.runs != []
  {
    var r := t.Latest();
    && t.status in {Running, Blocked}
    && r.status == RunSucceeded && r.revision.None?
    && r.gates != [] && RequiredPassed(r.gates)
    && r.workspace.Some? && NoPullRequest(t, setup)
  }

  // Refreshing twice equals refreshing once, exactly outside that state.
  lemma RefreshedTwice(t: Task, setup: Setup, first: Env, second: Env)
    requires t.runs != [] && t.Latest().IsTerminal()
    requires Completes(t, setup, first) && Completes(t, setup, second)
    ensures Refreshed(t, setup, first).runs != []
    ensures Refreshed(Refreshed(t, setup, first), setup, second) == Refreshed(t, setup, first)
            <==> !Exposed(t, setup)
  {
    hide ValidateRevision;
    if Evaluates(t, setup) {
      var u := WithVerdict(t, ValidateRevision(t, t.Latest(), setup.specs, first));
      EvaluatedOnce(t, setup, first);
      DrivenOnce(u);
    } else {
      var u := Driven(t);
      DrivenOnce(t);
      assert u.Latest() == t.Latest();
      if Evaluates(u, setup) {
        SameVerdict(t, u, setup, second);
        EvaluatedOnce(u, setup, second);
        DrivenOnce(WithVerdict(u, ValidateRevision(u, u.Latest(), setup.specs, second)));
      }
    }
  }

  lemma SameVerdict(t: Task, u: Task, setup: Setup, env: Env)
    requires t.runs != [] && u.runs == t.runs && u.repo == t.repo
    ensures ValidateRevision(u, u.Latest(), setup.specs, env)
            == ValidateRevision(t, t.Latest(), setup.specs, env)
  {
  }

  function Refreshes(t: Task, setup: Setup, envs: seq<Env>): Task
    requires t.runs != []
    decreases |envs|
  {
    if envs == [] then t else Refreshes(Refreshed(t, setup, envs[0]), setup, envs[1..])
  }

  // Nothing to evaluate and nowhere to go.
  predicate Settled(t: Task, setup: Setup)
    requires t.runs != []
  {
    !Evaluates(t, setup) && Driven(t) == t
  }

  lemma RefreshSettles(t: Task, setup: Setup, first: Env, second: Env)
    requires t.runs != [] && Completes(t, setup, first) && Completes(t, setup, second)
    ensures Refreshed(t, setup, first).runs != []
    ensures
      var later := Refreshed(Refreshed(t, setup, first), setup, second);
      later.runs != [] && Settled(later, setup)
  {
    hide ValidateRevision;
    if Evaluates(t, setup) {
      EvaluatedOnce(t, setup, first);
      DrivenOnce(WithVerdict(t, ValidateRevision(t, t.Latest(), setup.specs, first)));
    } else {
      var u := Driven(t);
      DrivenOnce(t);
      if Evaluates(u, setup) {
        SameVerdict(t, u, setup, second);
        EvaluatedOnce(u, setup, second);
        DrivenOnce(WithVerdict(u, ValidateRevision(u, u.Latest(), setup.specs, second)));
      }
    }
  }

  lemma {:induction false} StaysSettled(t: Task, setup: Setup, envs: seq<Env>)
    requires t.runs != [] && Settled(t, setup)
    ensures Refreshes(t, setup, envs) == t
    decreases |envs|
  {
    hide ValidateRevision;
    if envs != [] { StaysSettled(t, setup, envs[1..]); }
  }

  // However often a finished run is refreshed, and whatever the later refreshes meet,
  // nothing changes after the first two that complete.
  lemma SettledAfterTwo(t: Task, setup: Setup, first: Env, second: Env, rest: seq<Env>)
    requires t.runs != [] && Completes(t, setup, first) && Completes(t, setup, second)
    ensures Refreshed(t, setup, first).runs != []
    ensures Refreshes(t, setup, [first, second] + rest)
            == Refreshed(Refreshed(t, setup, first), setup, second)
  {
    hide Refreshed, Completes;
    RefreshSettles(t, setup, first, second);
    assert ([first, second] + rest)[1..] == [second] + rest;
    assert ([second] + rest)[1..] == rest;
    StaysSettled(Refreshed(Refreshed(t, setup, first), setup, second), setup, rest);
  }

  // Verdicts that a series of refreshes stores.
  function Evaluations(t: Task, setup: Setup, envs: seq<Env>): nat
    requires t.runs != []
    decreases |envs|
  {
    if envs == [] then 0
    else (if Evaluates(t, setup) && Completes(t, setup, envs[0]) then 1 else 0)
         + Evaluations(Refreshed(t, setup, envs[0]), setup, envs[1..])
  }

  // Over any number of refreshes, whatever each of them meets, gates are evaluated
  // and stored at most once.
  lemma {:induction false} EvaluatedAtMostOnce(t: Task, setup: Setup, envs: seq<Env>)
    requires t.runs != []
    ensures Evaluations(t, setup, envs) <= 1
    ensures t.Latest().status == RunSucceeded && Spent(t) ==> Evaluations(t, setup, envs) == 0
    decreases |envs|
  {
    hide ValidateRevision;
    if envs != [] {
      var u := Refreshed(t, setup, envs[0]);
      if Evaluates(t, setup) && Completes(t, setup, envs[0]) {
        UncertifiedIsRed(t, t.Latest(), setup.specs, envs[0]);
        DrivenOnce(WithVerdict(t, ValidateRevision(t, t.Latest(), setup.specs, envs[0])));
      } else {
        DrivenOnce(t);
      }
      EvaluatedAtMostOnce(u, setup, envs[1..]);
    }
  }

  // Certified, or red: nothing left to evaluate.
  predicate Spent(t: Task)
    requires t.runs != []
  {
    t.Latest().revision.Some? || (t.Latest().gates != [] && !RequiredPassed(t.Latest().gates))
  }

  // -- collecting an active run -------------------------------------------------------

  // The latest run as collected, and its verdict when the engine reports success.
  function Collected(t: Task, status: RunStatus, setup: Setup, env: Env): Option<Task>
    requires t.runs != []
  {
    var r := t.Latest().(status := status);
    if status != RunSucceeded then Some(t.WithLatest(r))
    else
      match ValidateRevision(t, r, setup.specs, env)
      case Aborted => None
      case Verdict(gates, revision) => Some(t.WithLatest(r.(gates := gates, revision := revision)))
  }

  // A collection with its move, cut after `writes` writes; None when the engine fails.
  function CollectedCut(t: Task, status: Option<RunStatus>, setup: Setup, env: Env, writes: nat): Task
    requires t.runs != []
  {
    if status.None? then t
    else
      match Collected(t, status.value, setup, env)
      case None => t
      case Some(stored) => if stored.runs == [] then t else CutOff(t, stored, Driven(stored), writes)
  }

  // A crash after the terminal run is stored and before its task has moved is made
  // good by any later refresh: same task, no gate evaluated again.
  lemma CrashAfterCollect(t: Task, status: RunStatus, setup: Setup, env: Env, later: Env)
    requires t.runs != [] && t.Latest().IsActive() && t.Latest().revision.None?
    requires Collected(t, status, setup, env).Some?
    ensures
      var stored := Collected(t, status, setup, env).value;
      stored.runs != [] && Refreshed(stored, setup, later) == Driven(stored)
  {
    UncertifiedIsRed(t, t.Latest().(status := status), setup.specs, env);
  }

  // -- refreshes are protocol steps ------------------------------------------------------

  function DriveSteps(t: Task): seq<Event>
    requires t.runs != []
  {
    match DriveTarget(t)
    case None => []
    case Some(target) =>
      if !CanTransition(t.status, target) then []
      else if target == Validating then [Validate] else [Leave(target)]
  }

  lemma DriveRealizes(p: Policy, n: Node)
    requires n.task.runs != []
    ensures Realizes(p, n, DriveSteps(n.task), Driven(n.task))
  {
    var steps := DriveSteps(n.task);
    if steps != [] { assert [steps[0]][1..] == []; }
  }

  // A terminal refresh, whatever the status of the task.
  lemma RefreshRealizes(p: Policy, n: Node, setup: Setup, env: Env) returns (events: seq<Event>)
    requires n.task.kind == Code && n.task.runs != [] && n.task.Latest().IsTerminal()
    ensures Realizes(p, n, events, Refreshed(n.task, setup, env))
  {
    var t := n.task;
    if Evaluates(t, setup) {
      var v := ValidateRevision(t, t.Latest(), setup.specs, env);
      if v.Aborted? {
        events := [];
      } else {
        UncertifiedIsRed(t, t.Latest(), setup.specs, env);
        hide ValidateRevision;
        events := VerdictRealizes(p, n, setup, v);
      }
    } else {
      DriveRealizes(p, n);
      events := DriveSteps(t);
    }
  }

  lemma VerdictRealizes(p: Policy, n: Node, setup: Setup, v: Verdict) returns (events: seq<Event>)
    requires n.task.kind == Code && n.task.runs != [] && Evaluates(n.task, setup) && v.Verdict?
    requires v.revision.Some? ==> RequiredPassed(v.gates)
    ensures Realizes(p, n, events, Driven(WithVerdict(n.task, v)))
  {
    var e := Revalidate(|n.task.runs| - 1, n.task, v.gates, v.revision);
    var m := n.(task := WithVerdict(n.task, v));
    assert Enabled(p, n, e) && Next(n, e) == m;
    hide Enabled, Next;
    Then(p, n, [], e);
    DriveRealizes(p, m);
    LegalAppend(p, n, [e], DriveSteps(m.task));
    events := [e] + DriveSteps(m.task);
  }

  // Collecting the active latest run.
  lemma CollectRealizes(p: Policy, n: Node, status: RunStatus, setup: Setup, env: Env)
    returns (stored: seq<Event>, driven: seq<Event>)
    requires n.task.kind == Code && n.task.runs != []
    requires n.task.Latest().IsActive() && n.task.Latest().revision.None? && EarlierFinished(n.task)
    requires Collected(n.task, status, setup, env).Some?
    ensures Realizes(p, n, stored, Collected(n.task, status, setup, env).value)
    ensures Collected(n.task, status, setup, env).value.runs != []
    ensures Realizes(p, n, driven, Driven(Collected(n.task, status, setup, env).value))
  {
    var t := n.task;
    UncertifiedIsRed(t, t.Latest().(status := status), setup.specs, env);
    var later := Collected(t, status, setup, env).value;
    var r := later.Latest();
    var e := Settle(|t.runs| - 1, t.Latest(), status, r.gates, r.revision);
    var m := n.(task := later);
    assert Enabled(p, n, e) && Next(n, e) == m;
    hide Enabled, Next;
    Then(p, n, [], e);
    stored := [e];
    DriveRealizes(p, m);
    LegalAppend(p, n, [e], DriveSteps(later));
    driven := [e] + DriveSteps(later);
  }

  // -- what a refresh does, by stored facts ----------------------------------------------

  // The statuses a finished latest run leads its task to. `recoverable` says that a
  // failed run keeps its task recoverable: there is a review request, or the run before
  // it failed its gates in the same checkout.
  predicate Follows(t: Task, u: Task)
    requires t.runs != []
  {
    var r := t.runs[|t.runs| - 1];
    var recoverable :=
      || t.reworks != []
      || (|t.runs| >= 2
          && var q := t.runs[|t.runs| - 2];
             && q.workspace == r.workspace
             && q.status == RunSucceeded
             && exists g :: g in q.gates && g.required && g.status != GatePassed);
    u.status ==
    match r.status
    case RunSucceeded => if t.status in {Running, Blocked} then Validating else t.status
    case RunCancelled => if t.status in {Done, TaskStatus.Failed, Cancelled} then t.status else Cancelled
    case RunFailed =>
      if recoverable
      then if t.status in {Ready, Claimed, Running, Validating, PrOpen} then Blocked else t.status
      else if t.status in {Discovered, Running, Validating, PrOpen, WaitingHuman} then TaskStatus.Failed
           else t.status
    case _ => t.status
  }

  // A status changes with its history row, and nothing else changes.
  predicate OnlyMoves(t: Task, u: Task) {
    && u == t.(status := u.status, log := u.log)
    && u.log == if u.status == t.status then t.log else t.log + [Edge(t.status, u.status)]
  }

  lemma DrivenFollows(t: Task)
    requires t.runs != []
    ensures Follows(t, Driven(t)) && OnlyMoves(t, Driven(t))
  {
    assert forall q: Run ::
        q.Outcome() == GatesFailed <==>
        q.status == RunSucceeded && exists g :: g in q.gates && g.required && g.status != GatePassed;
  }

  // When a refresh of a finished latest run evaluates the gates once more: the run
  // succeeded without a certified revision and either it has no results although gates
  // are configured, whatever the status of its task, BLOCKED included; or its task is
  // VALIDATING, its results are green, and no pull request is known for its branch.
  predicate Due(t: Task, setup: Setup)
    requires t.runs != []
  {
    var r := t.runs[|t.runs| - 1];
    && r.status == RunSucceeded
    && r.revision.None?
    && (|| (r.gates == [] && setup.specs != [])
        || (&& t.status == Validating
            && r.gates != []
            && (forall g :: g in r.gates && g.required ==> g.status == GatePassed)
            && r.workspace.Some?
            && setup.storesPresent && !setup.foreignRow && !setup.remotePr
            && (forall q :: q in t.rows ==>
                  q.runId != r.id
                  && !(q.repo == r.workspace.value.repo && q.head == r.workspace.value.branch))))
  }

  lemma EvaluatesWhenDue(t: Task, setup: Setup)
    requires t.runs != []
    ensures Evaluates(t, setup) <==> Due(t, setup)
  {
  }

  // The latest run of a task after a refresh: as it was; with the collected status; or
  // with the verdict of a validation.
  function Judged(t: Task, collected: Option<RunStatus>, setup: Setup, env: Env): Option<Run>
    requires t.runs != []
  {
    var r := t.runs[|t.runs| - 1];
    var validates, status :=
      if r.status in {RunSucceeded, RunFailed, RunCancelled} then Due(t, setup) else collected == Some(RunSucceeded),
      if r.status in {RunSucceeded, RunFailed, RunCancelled} || collected.None? then r.status
      else collected.value;
    if !validates then Some(r.(status := status))
    else
      match ValidateRevision(t, r.(status := status), setup.specs, env)
      case Aborted => None
      case Verdict(gates, revision) => Some(r.(status := status, gates := gates, revision := revision))
  }

  // A refresh that an engine or a gate runner ends changes nothing. Any other stores the
  // judged run first, unless it is the stored one, and then moves the task where the run
  // leads it.
  predicate RefreshedByFacts(t: Task, u: Task, collected: Option<RunStatus>, setup: Setup, env: Env,
                             writes: nat)
    requires t.runs != []
  {
    var last := |t.runs| - 1;
    var judged := Judged(t, collected, setup, env);
    var active := t.runs[last].status in {RunPending, RunRunning};
    if judged.None? || (active && collected.None?) || writes == 0 then u == t
    else
      var stored := t.(runs := t.runs[last := judged.value]);
      var moves := if active || Due(t, setup) then writes >= 2 else true;
      if moves then Follows(stored, u) && OnlyMoves(stored, u) else u == stored
  }

  lemma RefreshByFacts(t: Task, collected: Option<RunStatus>, setup: Setup, env: Env, writes: nat)
    requires t.runs != []
    ensures
      RefreshedByFacts(t, if t.Latest().IsTerminal() then RefreshedCut(t, setup, env, writes)
                          else CollectedCut(t, collected, setup, env, writes),
                       collected, setup, env, writes)
  {
    EvaluatesWhenDue(t, setup);
    hide ValidateRevision, Evaluates, Due, Driven;
    var r := t.runs[|t.runs| - 1];
    assert t.runs[|t.runs| - 1 := r] == t.runs;
    var judged := Judged(t, collected, setup, env);
    if judged.Some? { DrivenFollows(t.(runs := t.runs[|t.runs| - 1 := judged.value])); }
    hide Follows, OnlyMoves;
  }

  // A validation gives up exactly when a gate runner ends it: nothing is stored then.
  lemma {:induction false} RunGatesEnd(specs: seq<Spec>, answers: seq<Answer>)
    ensures RunGates(specs, answers).None? <==>
            exists i :: 0 <= i < |specs| && AnswerTo(answers, i).Aborts?
    decreases |specs|
  {
    if specs != [] { RunGatesEnd(specs[..|specs| - 1], answers); }
  }

  lemma AbortsExactly(t: Task, r: Run, specs: seq<Spec>, env: Env)
    ensures ValidateRevision(t, r, specs, env).Aborted? <==>
            && r.workspace.Some? && env.canRepair && env.repaired == r.workspace
            && r.workspace.value.repo == t.repo && env.before.Some? && env.runner.Some?
            && exists i :: 0 <= i < |specs| && AnswerTo(env.runner.value, i).Aborts?
  {
    if env.runner.Some? { RunGatesEnd(specs, env.runner.value); }
  }

  // The texts a gate result may carry: those the factory allows, or its own.
  ghost predicate Bounded(detail: string) {
    || detail in {"runner_error", "runner_mismatch", "redacted", "timeout", "spawn_error"}
    || (exists digits: string ::
          && 1 <= |digits| <= 3 && (forall c :: c in digits ==> '0' <= c <= '9')
          && (detail == "exit_code=" + digits || detail == "exit_code=-" + digits))
  }

  // Whatever text a runner returns, only bounded texts are stored, and a bounded text
  // of a matching gate is stored as it is.
  lemma {:induction false} DetailsBounded(specs: seq<Spec>, answers: seq<Answer>, i: nat)
    requires RunGates(specs, answers).Some? && i < |specs|
    ensures |RunGates(specs, answers).value| == |specs|
    ensures
      var gate, a := RunGates(specs, answers).value[i], AnswerTo(answers, i);
      && Bounded(gate.detail)
      && (a.Answered? && a.gate.name == specs[i].name && a.gate.required == specs[i].required ==>
            gate.detail == if AllowedDetail(a.gate.detail) then a.gate.detail else "redacted")
    decreases |specs|
  {
    var last := |specs| - 1;
    RunGatesLength(specs[..last], answers);
    if i < last {
      DetailsBounded(specs[..last], answers, i);
    } else {
      var a := AnswerTo(answers, last);
      if a.Answered? && AllowedDetail(a.gate.detail) { AllowedIsBounded(a.gate.detail); }
    }
  }

  lemma {:induction false} RunGatesLength(specs: seq<Spec>, answers: seq<Answer>)
    requires RunGates(specs, answers).Some?
    ensures |RunGates(specs, answers).value| == |specs|
    decreases |specs|
  {
    if specs != [] { RunGatesLength(specs[..|specs| - 1], answers); }
  }

  lemma AllowedIsBounded(detail: string)
    requires AllowedDetail(detail)
    ensures Bounded(detail)
  {
    if detail !in {"timeout", "spawn_error"} {
      var digits := if detail[10] == '-' then detail[11..] else detail[10..];
      forall c | c in digits
        ensures '0' <= c <= '9'
      {
        var i :| 0 <= i < |digits| && digits[i] == c;
        assert IsDigit(digits[i]);
      }
      assert detail[..10] == "exit_code=" && detail == detail[..10] + detail[10..];
      assert detail[10] == '-' ==> detail == "exit_code=-" + digits;
    }
  }

  // -- the service ------------------------------------------------------------------------

  predicate InProgress(s: TaskStatus) { s in {Claimed, Running, Validating, PrOpen} }

  class RunTrackingService {
    const store: TaskStore
    const setup: Setup

    constructor (store: TaskStore, setup: Setup)
      ensures this.store == store && this.setup == setup
    {
      this.store := store;
      this.setup := setup;
    }

    // Store the verdict or the collected status, then drive the task; a process that
    // dies in between leaves the first write alone.
    method StoreAndDrive(id: nat, later: Task, writes: nat)
      requires store.Valid() && id in store.tasks && store.tasks[id].runs != []
      requires later.runs != [] && later == store.tasks[id].WithLatest(later.Latest())
      requires later.Latest().id == store.tasks[id].Latest().id
      requires later.Latest().workspace == store.tasks[id].Latest().workspace
      requires later.Latest().IsActive() ==> EarlierFinished(store.tasks[id])
      modifies store
      ensures store.Valid() && OnlyTask(old(store.tasks), store.tasks, id)
      ensures store.tasks[id] == CutOff(old(store.tasks)[id], later, Driven(later), writes)
    {
      hide Consistent;
      assert store.tasks == store.tasks[id := store.tasks[id]];
      if writes == 0 { return; }
      var run := later.Latest();
      var t := store.tasks[id];
      assert RunIndex(t.runs, run.id) == Some(|t.runs| - 1);
      assert CanUpdateRun(t.runs, run);
      var updated := store.UpdateRun(id, run);
      assert store.tasks[id] == later;
      if writes == 1 { return; }
      Drive(id);
    }

    method Drive(id: nat)
      requires store.Valid() && id in store.tasks && store.tasks[id].runs != []
      modifies store
      ensures store.Valid() && OnlyTask(old(store.tasks), store.tasks, id)
      ensures store.tasks[id] == Driven(old(store.tasks)[id])
      ensures Follows(old(store.tasks)[id], store.tasks[id])
      ensures OnlyMoves(old(store.tasks)[id], store.tasks[id])
    {
      hide Consistent, Follows, OnlyMoves;
      var t := store.tasks[id];
      DrivenFollows(t);
      assert store.tasks == store.tasks[id := t];
      match DriveTarget(t) {
        case None =>
        case Some(target) =>
          if t.status == target { return; }
          var moved := Transition(store, id, target, None);
      }
    }

    // RunTrackingService.refresh of a CODE task's run. A finished run that is not the
    // latest one never changes its task; an engine or a gate runner that raises
    // changes nothing.
    method Refresh(id: nat, runId: nat, collected: Option<RunStatus>, env: Env, writes: nat)
      requires store.Valid() && id in store.tasks && RunIndex(store.tasks[id].runs, runId).Some?
      requires EarlierFinished(store.tasks[id])
      modifies store
      ensures store.Valid() && OnlyTask(old(store.tasks), store.tasks, id)
      ensures
        var t := old(store.tasks)[id];
        store.tasks[id] ==
        if t.Latest().id != runId then t
        else if t.Latest().IsTerminal() then RefreshedCut(t, setup, env, writes)
        else CollectedCut(t, collected, setup, env, writes)
      ensures
        var t, u := old(store.tasks)[id], store.tasks[id];
        t.runs != [] && t.Latest().id == runId ==> RefreshedByFacts(t, u, collected, setup, env, writes)
    {
      hide Consistent, ValidateRevision, RefreshedByFacts;
      RefreshByFacts(store.tasks[id], collected, setup, env, writes);
      var t := store.tasks[id];
      assert store.tasks == store.tasks[id := t];
      var i := RunIndex(t.runs, runId).value;
      if t.Latest().id != runId {
        assert i < |t.runs| - 1;
        return;
      }
      if t.Latest().IsTerminal() {
        if Evaluates(t, setup) {
          var v := ValidateRevision(t, t.Latest(), setup.specs, env);
          if v.Aborted? { return; }
          StoreAndDrive(id, WithVerdict(t, v), writes);
        } else if writes > 0 {
          Drive(id);
        }
        return;
      }
      if collected.None? { return; }
      var later := Collected(t, collected.value, setup, env);
      if later.None? { return; }
      StoreAndDrive(id, later.value, writes);
    }
  }
}
