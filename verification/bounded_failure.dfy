// How many failed attempts a task can accumulate.
module BoundedFailure {
  import opened Lifecycle
  import opened Models
  import opened Protocol
  import opened Published

  function Max(a: int, b: int): int { if a > b then a else b }

  // Attempts that can still fail one after the other once a streak of s failed gates
  // is to be corrected: the rest of the correction limit, and never less than one.
  function Rest(p: Policy, s: nat): int { Max(1, p.correctionLimit + 1 - s) }

  predicate Working(s: TaskStatus) { s in {Claimed, Running, Validating} }

  predicate InFlight(s: TaskStatus) { Working(s) || HandedOver(s) }

  predicate HandedOver(s: TaskStatus) { s in {PrOpen, WaitingHuman} }

  // Failed attempts the task can still produce from here without a further review
  // request or retry.
  function Allowance(p: Policy, n: Node): int {
    if n.claimants > 0 then BesideClaim(p, n.task)
    else if Waiting(n.task.status) then
      if n.task.HasActiveRun() then p.correctionLimit + 2 else Rest(p, Streak(n.task.runs))
    else if n.task.runs == [] then 0
    else OfLatest(p, n.task)
  }

  // A claim in progress: its run may fail at once, and where a retry has moved the task
  // on in the meantime, the run counts on top of what the task may produce by itself.
  function BesideClaim(p: Policy, t: Task): int {
    if t.status == Claimed then Rest(p, Streak(t.runs))
    else if Waiting(t.status) || t.status == Validating then p.correctionLimit + 2
    else if HandedOver(t.status) then 2
    else 1
  }

  // A run in progress can fail, or extend the streak of failed gates and be corrected
  // while the streak is within the limit; a certified run keeps one attempt in reserve
  // that it has not used up.
  function OfLatest(p: Policy, t: Task): int
    requires t.runs != []
  {
    if t.Latest().IsOpen() then
      if Working(t.status) then Rest(p, Streak(Earlier(t.runs)))
      else if HandedOver(t.status) then 2
      else 1
    else if t.Latest().IsBound() then 1
    else if t.Latest().Outcome() == GatesFailed then
      if Working(t.status) then Max(0, p.correctionLimit + 1 - Streak(t.runs))
      else if HandedOver(t.status) then 1
      else 0
    else 0
  }

  // What the bound needs of a state; a retry may have moved the task on beside a live
  // dispatch.
  ghost predicate Orderly(n: Node) {
    && n.claimants + n.starters <= 1
    && (n.claimants == 1 ==> !n.task.HasActiveRun() && n.task.status != Running)
    && EarlierFinished(n.task)
    && RowsCertified(n.task)
  }

  lemma InvIsOrderly(n: Node)
    requires Inv(n)
    ensures Orderly(n)
  {
    hide RowsCertified, ReviewedIsPublished;
  }

  lemma StepKeepsOrderly(p: Policy, n: Node, e: Event)
    requires Enabled(p, n, e) && Serial(n, e) && Orderly(n)
    ensures Orderly(Next(n, e))
  {
    SerialStaysCertified(p, n, e);
    StepKeepsRowsCertified(p, n, e);
    hide RowsCertified;
    if e.SaveRun? || IsUpdate(e) || e.RecoverOrphan? {
      RunStepKeepsOrderly(p, n, e);
    } else {
      SameRunsSameActivity(n.task, Next(n, e).task);
      assert Next(n, e).task.runs == n.task.runs;
    }
  }

  lemma RunStepKeepsOrderly(p: Policy, n: Node, e: Event)
    requires Enabled(p, n, e) && Serial(n, e) && Orderly(n)
    requires e.SaveRun? || IsUpdate(e) || e.RecoverOrphan?
    ensures
      var m := Next(n, e);
      && m.claimants + m.starters <= 1 && EarlierFinished(m.task)
      && (m.claimants == 1 ==> !m.task.HasActiveRun() && m.task.status != Running)
  {
    hide RowsCertified;
    assert forall i :: 0 <= i < |n.task.runs| ==> n.task.runs[i] in n.task.runs;
    if Next(n, e).claimants == 1 { FinishedRuns(Next(n, e).task); }
  }

  // R + L + k*L for k review requests, plus L + 1 for each overdrawn step.
  function Budget(p: Policy, reworks: nat, overdrawn: nat): int {
    p.retryLimit + p.correctionLimit + reworks * p.correctionLimit
    + overdrawn * (p.correctionLimit + 1)
  }

  // The latest run is certified and no dispatcher is about to save another one.
  predicate HoldsCertified(n: Node) {
    n.claimants == 0 && n.task.runs != [] && n.task.Latest().IsBound()
  }

  // The steps that put a task to work beyond its budget: a retry that commits although
  // the limit is reached by now or a dispatch is in flight; any other way from BLOCKED
  // to VALIDATING unless the latest run is certified and no claim is in progress; a
  // second validation of a task that has been requeued meanwhile; and a collection that
  // revives a run written off meanwhile, if such a retry has moved its task on. The
  // compare-and-swap on the status notices none of them.
  predicate Overdraws(p: Policy, n: Node, e: Event) {
    match e
    case RetryReady(_) =>
      BadCount(n.task.runs) >= p.retryLimit || n.claimants > 0 || n.task.HasActiveRun()
    case RetryPublication(_) => !HoldsCertified(n)
    case Override(_) => n.task.status == Blocked && !HoldsCertified(n)
    case Validate => n.task.status == Blocked && !HoldsCertified(n)
    case Revalidate(_, _, _, _) => Waiting(n.task.status)
    case Settle(_, _, _, _, _) => !FindsItsRun(n, e) && InFlight(n.task.status)
    case _ => false
  }

  function Overdrawn(p: Policy, n: Node, events: seq<Event>): nat
    decreases |events|
  {
    if events == [] then 0
    else (if Overdraws(p, n, events[0]) then 1 else 0)
         + Overdrawn(p, Next(n, events[0]), events[1..])
  }

  // Failed attempts so far plus those still to come.
  function Load(p: Policy, n: Node): int {
    BadCount(n.task.runs) + Allowance(p, n)
  }

  ghost predicate WithinBudget(p: Policy, n: Node, overdrawn: nat) {
    Load(p, n) <= Budget(p, |n.task.reworks|, overdrawn)
  }

  lemma LatestReplaced(runs: seq<Run>, r: Run)
    requires runs != []
    ensures Earlier(runs[|runs| - 1 := r]) == Earlier(runs)
    ensures Earlier(runs + [r]) == runs
  {
  }

  lemma BudgetGrows(p: Policy, reworks: nat, overdrawn: nat)
    ensures Budget(p, reworks + 1, overdrawn) == Budget(p, reworks, overdrawn) + p.correctionLimit
    ensures Budget(p, reworks, overdrawn + 1) ==
            Budget(p, reworks, overdrawn) + p.correctionLimit + 1
    ensures Budget(p, reworks, overdrawn) >= p.retryLimit + p.correctionLimit
  {
    assert reworks * p.correctionLimit >= 0;
    assert overdrawn * (p.correctionLimit + 1) >= 0;
    assert (reworks + 1) * p.correctionLimit == reworks * p.correctionLimit + p.correctionLimit;
    assert (overdrawn + 1) * (p.correctionLimit + 1)
        == overdrawn * (p.correctionLimit + 1) + p.correctionLimit + 1;
  }

  lemma Counted(runs: seq<Run>, r: Run)
    ensures BadCount(runs + [r]) == BadCount(runs) + if r.IsBad() then 1 else 0
    ensures Streak(runs + [r]) == if r.Outcome() == GatesFailed then 1 + Streak(runs) else 0
    ensures Earlier(runs + [r]) == runs
  {
    assert Earlier(runs + [r]) == runs;
  }

  lemma SaveKeepsLoad(p: Policy, n: Node, e: Event)
    requires e.SaveRun? && Enabled(p, n, e) && Orderly(n)
    ensures Load(p, Next(n, e)) <= Load(p, n)
  {
    var m := Next(n, e);
    assert n.claimants == 1 && m.claimants == 0 && m.task == n.task.(runs := n.task.runs + [e.run]);
    SavedActivity(n.task, m.task, e.run);
    hide Enabled, Next, RowsCertified, EarlierFinished, Load;
    SavedLoad(p, n, m, e.run);
  }

  lemma SavedLoad(p: Policy, n: Node, m: Node, r: Run)
    requires n.claimants == 1 && m.claimants == 0 && r.revision.None? && n.task.status != Running
    requires m.task == n.task.(runs := n.task.runs + [r])
    requires m.task.HasActiveRun() <==> r.IsActive()
    ensures Load(p, m) <= Load(p, n)
  {
    Counted(n.task.runs, r);
    assert m.task.Latest() == r;
    hide BadCount, Streak, RequiredPassed;
  }

  lemma SavedActivity(t: Task, u: Task, r: Run)
    requires u.runs == t.runs + [r] && !t.HasActiveRun()
    ensures u.HasActiveRun() <==> r.IsActive()
  {
    if r.IsActive() { assert r in u.runs; }
  }

  // The latest run finishes, is certified, is found wanting or is written off.
  lemma LatestKeepsLoad(p: Policy, n: Node, m: Node, r: Run)
    requires n.task.runs != [] && n.task.Latest().IsOpen() && EarlierFinished(n.task)
    requires n.claimants == 0 && m.claimants == 0
    requires m.task.runs == n.task.WithLatest(r).runs
    requires || m.task.status == n.task.status
             || (n.task.status == Running && m.task.status == Blocked && r.IsTerminal())
    ensures Load(p, m) <= Load(p, n)
         || (Waiting(n.task.status) && n.task.Latest().IsTerminal()
             && Load(p, m) <= Load(p, n) + p.correctionLimit + 1)
  {
    LatestReplaced(n.task.runs, r);
    LatestActivity(n.task);
    LatestActivity(m.task);
    assert m.task.Latest() == r;
    StreakOfOpen(n.task.runs);
    hide EarlierFinished;
  }

  lemma StreakOfOpen(runs: seq<Run>)
    requires runs != [] && runs[|runs| - 1].IsOpen()
    ensures Streak(runs) == 0 && !runs[|runs| - 1].IsBad()
  {
  }

  lemma LatestActivity(t: Task)
    requires EarlierFinished(t) && t.runs != []
    ensures t.HasActiveRun() <==> t.Latest().IsActive()
  {
    if t.Latest().IsActive() { assert t.Latest() in t.runs; } else { FinishedRuns(t); }
  }

  // The steps that can raise the load, and by how much.
  predicate LoadBounded(p: Policy, n: Node, e: Event) {
    var allowed := Load(p, Next(n, e));
    || allowed <= Load(p, n)
    || (e.RequestRework? && allowed <= Load(p, n) + p.correctionLimit)
    || (Overdraws(p, n, e) && allowed <= Load(p, n) + p.correctionLimit + 1)
    || (e.RetryReady? && !Overdraws(p, n, e) && allowed <= p.retryLimit + p.correctionLimit)
  }

  lemma StepKeepsLoad(p: Policy, n: Node, e: Event)
    requires Enabled(p, n, e) && Serial(n, e) && Orderly(n)
    ensures LoadBounded(p, n, e)
  {
    hide Enabled, Next, Serial, Orderly, Load, Overdraws;
    match e
    case SaveRun(_) => SaveKeepsLoad(p, n, e);
    case Settle(_, _, _, _, _) => UpdateKeepsLoad(p, n, e);
    case Revalidate(_, _, _, _) => UpdateKeepsLoad(p, n, e);
    case RecoverOrphan => OrphanKeepsLoad(p, n, e);
    case _ => StatusKeepsLoad(p, n, e);
  }

  lemma UpdateKeepsLoad(p: Policy, n: Node, e: Event)
    requires IsUpdate(e) && Enabled(p, n, e) && Serial(n, e) && Orderly(n)
    ensures LoadBounded(p, n, e)
  {
    var t, m := n.task, Next(n, e);
    assert m.task == t.WithLatest(Written(t.Latest(), e)) && n.claimants == m.claimants == 0;
    if FindsItsRun(n, e) {
      assert t.Latest().IsOpen() && (e.Settle? ==> t.Latest().IsActive());
      LatestKeepsLoad(p, n, m, Written(t.Latest(), e));
    } else {
      RevivedKeepsLoad(p, n, m, Written(t.Latest(), e));
    }
    hide RowsCertified, EarlierFinished, Load, Enabled;
  }

  // A collection that overlaps an orphan recovery of its run takes one failed attempt
  // back.
  lemma RevivedKeepsLoad(p: Policy, n: Node, m: Node, r: Run)
    requires n.task.runs != [] && n.task.Latest().status == RunFailed && EarlierFinished(n.task)
    requires n.claimants == 0 && m.claimants == 0
    requires m.task == n.task.WithLatest(r)
    ensures Load(p, m) <= Load(p, n)
         || (InFlight(n.task.status) && Load(p, m) <= Load(p, n) + p.correctionLimit + 1)
  {
    LatestReplaced(n.task.runs, r);
    LatestActivity(n.task);
    LatestActivity(m.task);
    StreakOfLatest(n.task.runs);
    StreakOfLatest(m.task.runs);
    LatestCounted(n.task.runs);
    LatestCounted(m.task.runs);
    assert m.task.Latest() == r;
    hide EarlierFinished, BadCount, Streak, RequiredPassed;
  }

  lemma LatestCounted(runs: seq<Run>)
    requires runs != []
    ensures BadCount(runs) == BadCount(Earlier(runs)) + if runs[|runs| - 1].IsBad() then 1 else 0
  {
  }

  lemma OrphanKeepsLoad(p: Policy, n: Node, e: Event)
    requires e.RecoverOrphan? && Enabled(p, n, e) && Orderly(n)
    ensures Load(p, Next(n, e)) <= Load(p, n)
  {
    hide RowsCertified;
    LatestKeepsLoad(p, n, Next(n, e), n.task.Latest().(status := RunFailed));
  }

  // Steps that leave the runs alone move only what the task's status allows.
  lemma StatusKeepsLoad(p: Policy, n: Node, e: Event)
    requires Enabled(p, n, e) && Serial(n, e) && Orderly(n)
    requires !e.SaveRun? && !IsUpdate(e) && !e.RecoverOrphan?
    ensures LoadBounded(p, n, e)
  {
    hide Enabled, Next, Serial, Orderly, Load, Overdraws;
    match e
    case RequestRework(_, _) => ReworkLoad(p, n, e);
    case RetryReady(_) => ReadyAllowance(p, n, e);
    case RetryPublication(_) => ReentryAllowance(p, n, e);
    case Override(_) => ReentryAllowance(p, n, e);
    case Validate => ReentryAllowance(p, n, e);
    case _ => QuietStep(p, n, e);
  }

  lemma StreakOfLatest(runs: seq<Run>)
    requires runs != []
    ensures Streak(runs) == if runs[|runs| - 1].Outcome() == GatesFailed
                            then 1 + Streak(Earlier(runs)) else 0
  {
  }

  lemma ReworkLoad(p: Policy, n: Node, e: Event)
    requires e.RequestRework? && Enabled(p, n, e) && Serial(n, e) && Orderly(n)
    ensures LoadBounded(p, n, e)
  {
    var m := Next(n, e);
    assert m.task.runs == n.task.runs && m.task.status == ChangesRequested && m.claimants == n.claimants;
    LatestActivity(n.task);
    LatestActivity(m.task);
    StreakOfLatest(n.task.runs);
    hide Enabled, Next, RowsCertified, EarlierFinished, BadCount, Streak, Overdraws;
  }

  lemma ReadyAllowance(p: Policy, n: Node, e: Event)
    requires e.RetryReady? && Enabled(p, n, e) && Orderly(n)
    ensures LoadBounded(p, n, e)
  {
    var m := Next(n, e);
    assert m.task.runs == n.task.runs && m.task.status == Ready && n.task.status == Blocked;
    assert m.claimants == n.claimants;
    SameRunsSameActivity(n.task, m.task);
    hide Enabled, Next, RowsCertified, EarlierFinished, BadCount, Streak;
  }

  lemma ReentryAllowance(p: Policy, n: Node, e: Event)
    requires (e.RetryPublication? || e.Override? || e.Validate?) && Enabled(p, n, e) && Orderly(n)
    ensures LoadBounded(p, n, e)
  {
    var m := Next(n, e);
    assert m.task.runs == n.task.runs && m.task.status == Validating && m.claimants == n.claimants;
    assert n.task.status == Blocked || (n.task.status == Running && !e.RetryPublication?);
    hide Enabled, Next, RowsCertified, EarlierFinished, Load, HoldsCertified;
    ReentryLoad(p, n, m);
  }

  // BLOCKED or RUNNING to VALIDATING.
  lemma ReentryLoad(p: Policy, n: Node, m: Node)
    requires n.task.status in {Blocked, Running} && m.task.status == Validating
    requires m.task.runs == n.task.runs && m.claimants == n.claimants
    requires n.task.status == Running ==> n.claimants == 0
    ensures Load(p, m) <= Load(p, n) + p.correctionLimit + 1
    ensures n.task.status == Running || HoldsCertified(n) ==> Load(p, m) <= Load(p, n)
  {
    if n.task.runs != [] { StreakOfLatest(n.task.runs); }
    hide BadCount, Streak, RequiredPassed;
  }

  // The moves that put no task to work.
  predicate Quiet(p: Policy, n: Node, m: Node) {
    var s, u := n.task.status, m.task.status;
    && m.task.runs == n.task.runs
    && (|| (m.claimants == n.claimants && (u == s || (Waiting(s) && Waiting(u))))
        || (n.claimants == 0 && m.claimants == 1 && s == Ready && u == Claimed && !n.task.HasActiveRun())
        || (n.claimants == 1 && m.claimants == 0 && u == s)
        || (n.claimants == m.claimants == 0 && s == Claimed && u == Running)
        || (n.claimants == m.claimants && s == PrOpen && u == WaitingHuman)
        || (n.claimants == m.claimants && s == Validating && u == Ready && n.task.runs != []
            && n.task.Latest().Outcome() == GatesFailed && Streak(n.task.runs) <= p.correctionLimit)
        || (n.claimants == m.claimants && s == Validating && u == PrOpen && n.task.runs != []
            && n.task.Latest().IsBound())
        || (n.claimants == m.claimants && u in {Blocked, TaskStatus.Failed, Cancelled, Done}))
  }

  lemma QuietMove(p: Policy, n: Node, e: Event)
    requires Enabled(p, n, e) && Serial(n, e) && Orderly(n)
    requires !e.SaveRun? && !IsUpdate(e) && !e.RecoverOrphan? && !e.RequestRework?
    requires !e.RetryReady? && !e.RetryPublication? && !e.Override? && !e.Validate?
    ensures Quiet(p, n, Next(n, e))
  {
    if e.OpenPr? {
      RowsRunCertified(n.task, |n.task.runs| - 1);
      assert n.task.Latest().IsBound();
    }
    hide RowsCertified, EarlierFinished, BadCount, Streak, RequiredPassed, NonBlank, IsPublicationRetry;
  }

  lemma QuietStep(p: Policy, n: Node, e: Event)
    requires Enabled(p, n, e) && Serial(n, e) && Orderly(n)
    requires !e.SaveRun? && !IsUpdate(e) && !e.RecoverOrphan? && !e.RequestRework?
    requires !e.RetryReady? && !e.RetryPublication? && !e.Override? && !e.Validate?
    ensures Load(p, Next(n, e)) <= Load(p, n)
  {
    QuietMove(p, n, e);
    hide Enabled, Next, Serial, Load, Quiet, RowsCertified;
    QuietLoad(p, n, Next(n, e));
  }

  lemma QuietLoad(p: Policy, n: Node, m: Node)
    requires Quiet(p, n, m) && EarlierFinished(n.task)
    requires n.claimants > 0 ==> !n.task.HasActiveRun() && n.task.status != Running
    ensures Load(p, m) <= Load(p, n)
  {
    SameRunsSameActivity(n.task, m.task);
    if n.task.runs != [] {
      StreakOfLatest(n.task.runs);
      LatestActivity(n.task);
    }
    hide EarlierFinished, BadCount, Streak, RequiredPassed;
  }

  lemma StepKeepsBudget(p: Policy, n: Node, e: Event, overdrawn: nat)
    requires Enabled(p, n, e) && Serial(n, e) && Orderly(n)
    requires WithinBudget(p, n, overdrawn)
    ensures WithinBudget(p, Next(n, e), overdrawn + if Overdraws(p, n, e) then 1 else 0)
  {
    BudgetGrows(p, |n.task.reworks|, overdrawn);
    StepKeepsLoad(p, n, e);
    assert |Next(n, e).task.reworks| == |n.task.reworks| + if e.RequestRework? then 1 else 0;
    hide Enabled, Next, Serial, Orderly, Load, Overdraws, Budget;
  }

  // The main bound. Over every history of a fresh task with one session, with crashes
  // at any write, automatic corrections, and retries, overrides and recoveries by
  // operators at any moment, the failed attempts never exceed R + L + k*L + j*(L+1),
  // for k review requests and j overdrawn steps.
  lemma {:induction false} FailuresBounded(p: Policy, n: Node, events: seq<Event>, overdrawn: nat)
    requires p.Valid() && Orderly(n) && WithinBudget(p, n, overdrawn)
    requires Legal(p, n, events) && SerialHistory(n, events)
    ensures Orderly(After(n, events))
    ensures WithinBudget(p, After(n, events), overdrawn + Overdrawn(p, n, events))
    ensures BadCount(After(n, events).task.runs)
         <= Budget(p, |After(n, events).task.reworks|, overdrawn + Overdrawn(p, n, events))
    decreases |events|
  {
    hide Enabled, Next, Serial, Orderly, WithinBudget, Overdraws, Budget;
    if events == [] {
      BudgetCovers(p, n, overdrawn);
    } else {
      var more := if Overdraws(p, n, events[0]) then 1 else 0;
      StepKeepsOrderly(p, n, events[0]);
      StepKeepsBudget(p, n, events[0], overdrawn);
      FailuresBounded(p, Next(n, events[0]), events[1..], overdrawn + more);
    }
  }

  lemma BudgetCovers(p: Policy, n: Node, overdrawn: nat)
    requires WithinBudget(p, n, overdrawn)
    ensures BadCount(n.task.runs) <= Budget(p, |n.task.reworks|, overdrawn)
  {
    AllowanceNonNegative(p, n);
  }

  lemma AllowanceNonNegative(p: Policy, n: Node)
    ensures Allowance(p, n) >= 0
  {
  }

  // No task re-enters work beside a claim in progress, a refresh re-enters it only for
  // a certified run, none is requeued while its run is validated again, and none is put
  // to work otherwise while a run of it that was written off is still collected.
  predicate Clear(n: Node, e: Event) {
    && (Reenters(n, e) ==> n.claimants == 0)
    && (Reenters(n, e) && e.Validate? ==> n.task.runs != [] && n.task.Latest().IsBound())
    && (e.Revalidate? ==> !Waiting(n.task.status))
    && (e.Settle? && InFlight(n.task.status) ==> FindsItsRun(n, e))
  }

  predicate ClearHistory(n: Node, events: seq<Event>)
    decreases |events|
  {
    events == [] || (Clear(n, events[0]) && ClearHistory(Next(n, events[0]), events[1..]))
  }

  lemma FreshNeverOverdrawsStep(p: Policy, n: Node, e: Event)
    requires Enabled(p, n, e) && FreshDecision(n, e) && Clear(n, e) && Orderly(n)
    ensures !Overdraws(p, n, e)
  {
    match e
    case RetryReady(seen) =>
      assert seen.runs == n.task.runs && seen.HasActiveRun() == n.task.HasActiveRun();
    case Override(_) =>
      assert n.task.runs[|n.task.runs| - 1].revision.Some?;
      assert n.task.Latest().IsBound();
    case _ =>
  }

  // Fresh decisions beside no claim never overdraw: the retry limit was checked on this
  // history, and what is published or overridden is certified.
  lemma {:induction false} FreshNeverOverdraws(p: Policy, n: Node, events: seq<Event>)
    requires Legal(p, n, events) && SerialHistory(n, events) && Orderly(n)
    requires FreshHistory(n, events) && ClearHistory(n, events)
    ensures Overdrawn(p, n, events) == 0
    decreases |events|
  {
    hide Enabled, Next, Serial, FreshDecision, Clear, Overdraws;
    if events != [] {
      FreshNeverOverdrawsStep(p, n, events[0]);
      StepKeepsOrderly(p, n, events[0]);
      hide Orderly;
      FreshNeverOverdraws(p, Next(n, events[0]), events[1..]);
    }
  }

  // With such decisions the bound is R + L + k*L.
  lemma FreshFailuresBounded(p: Policy, t: Task, events: seq<Event>)
    requires p.Valid() && Fresh(t)
    requires Legal(p, Node(t, 0, 0), events) && SerialHistory(Node(t, 0, 0), events)
    requires FreshHistory(Node(t, 0, 0), events) && ClearHistory(Node(t, 0, 0), events)
    ensures BadCount(After(Node(t, 0, 0), events).task.runs)
         <= p.retryLimit + p.correctionLimit
            + |After(Node(t, 0, 0), events).task.reworks| * p.correctionLimit
  {
    var n := Node(t, 0, 0);
    FreshIsOrderly(p, t);
    FreshNeverOverdraws(p, n, events);
    FailuresBounded(p, n, events, 0);
  }

  lemma FreshIsOrderly(p: Policy, t: Task)
    requires p.Valid() && Fresh(t)
    ensures Orderly(Node(t, 0, 0)) && WithinBudget(p, Node(t, 0, 0), 0)
  {
  }

  // Taking turns is more than enough.
  lemma {:induction false} CalmIsSerialAndClear(n: Node, events: seq<Event>)
    requires CalmHistory(n, events)
    ensures SerialHistory(n, events) && ClearHistory(n, events)
    decreases |events|
  {
    hide Next, Serial;
    if events != [] { CalmIsSerialAndClear(Next(n, events[0]), events[1..]); }
  }
}
