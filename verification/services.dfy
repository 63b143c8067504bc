// The services that move one task (src/factory/orchestration/transitions.py,
// dispatch.py, retry.py, runtime.py). Every method performs its writes one
// transaction at a time, may die before any of them (`writes` is how many it
// survives), and hands back the protocol steps that its writes were.
module Services {
  import opened Lifecycle
  import opened Models
  import opened Protocol
  import opened World
  import opened Store

  datatype ServiceError =
    | Unknown
    | NotReady
    | Conflict
    | ContextFailed
    | NoWorkspace
    | AgentFailed(runId: nat)
    | RetryRefused
    | Died

  // What a dispatch meets outside the store: whether the context pack builds, the
  // checkout it gets (None when it cannot be prepared), what the engine produced
  // (None when it raised), and the fresh id of the run that records a failure.
  datatype Outside = Outside(
    contextBuilds: bool,
    checkout: Option<Workspace>,
    produced: Option<Run>,
    failedId: nat,
    writes: nat)

  // TaskLifecycleService.transition: the normal graph, then the compare-and-swap.
  // Asking for the status a task already has is a no-op, unless a source is named.
  method Transition(store: TaskStore, id: nat, target: TaskStatus, expectedFrom: Option<TaskStatus>)
    returns (r: Result<Task, StoreError>)
    requires store.Valid()
    modifies store
    ensures store.Valid()
    ensures r.Ok? <==>
              && id in old(store.tasks)
              && var t := old(store.tasks)[id];
                 if expectedFrom.None? && t.status == target then true
                 else (expectedFrom.Some? ==> expectedFrom.value == t.status)
                      && CanTransition(t.status, target)
                      && (target == Claimed ==>
                            |BusyTasks(old(store.tasks)) - {id}| < store.maxActiveClaims)
    ensures r.Ok? ==>
              && store.tasks == old(store.tasks)[id := r.value]
              && r.value == if expectedFrom.None? && old(store.tasks)[id].status == target
                            then old(store.tasks)[id] else old(store.tasks)[id].MovedTo(target)
    ensures r.Err? ==> store.tasks == old(store.tasks)
  {
    hide Consistent;
    if id !in store.tasks { return Err(UnknownTask); }
    var t := store.tasks[id];
    if expectedFrom.Some? && t.status != expectedFrom.value { return Err(StateChanged(t.status)); }
    if t.status == target && expectedFrom.None? {
      assert store.tasks == store.tasks[id := t];
      return Ok(t);
    }
    if !CanTransition(t.status, target) { return Err(InvalidTransition); }
    r := store.ApplyTransition(id, t.status, target);
  }

  // What a method of two writes leaves when its process survives `writes` of them.
  function CutOff(t: Task, first: Task, second: Task, writes: nat): Task {
    if writes == 0 then t else if writes == 1 then first else second
  }

  // Only the given task may differ.
  ghost predicate OnlyTask(before: map<nat, Task>, later: map<nat, Task>, id: nat) {
    id in before && id in later && later == before[id := later[id]]
  }

  class DispatchService {
    const store: TaskStore

    constructor (store: TaskStore)
      ensures this.store == store
    {
      this.store := store;
    }

    // A fresh attempt: READY, no active run, context, claim, checkout, run, RUNNING.
    method Dispatch(p: Policy, id: nat, o: Outside, ghost n: Node)
      returns (r: Result<Run, ServiceError>, ghost events: seq<Event>, ghost reached: Stage)
      requires store.Valid()
      requires id in store.tasks ==> n.task == store.tasks[id]
      modifies store
      ensures store.Valid()
      ensures id !in old(store.tasks) ==> r == Err(Unknown) && store.tasks == old(store.tasks)
      ensures id in old(store.tasks) ==>
                OnlyTask(old(store.tasks), store.tasks, id) && Realizes(p, n, events, store.tasks[id])
      ensures id in old(store.tasks) ==>
                store.tasks[id] ==
                if Dispatchable(n.task) && n.task.kind == Code && !o.contextBuilds
                then ContextMissing(n.task, o.writes) else Reached(n.task, reached)
      ensures Launched(n.task, reached, o.checkout)
      ensures !Dispatchable(n.task) ==> reached.Untouched? && r.Err?
      ensures id in old(store.tasks) && n.task.status == Ready
              && (forall q :: q in n.task.runs ==> q.status in {RunSucceeded, RunFailed, RunCancelled})
              && (n.task.kind == Code ==> o.contextBuilds) ==>
                Proceeds(old(store.tasks), store.maxActiveClaims, id, o, reached)
      ensures r.Ok? ==> id in store.tasks && reached == Started(r.value) && store.tasks[id] == Reached(n.task, reached)
      ensures r == Err(NotReady) || r == Err(Conflict) ==> reached in {Untouched, ClaimedOnly}
      ensures r.Err? && r.error.AgentFailed? ==>
                reached.Abandoned? && reached.run.id == r.error.runId && reached.run.status == RunFailed
    {
      hide Consistent, BusyTasks, Proceeds;
      events, reached := [], Untouched;
      if id !in store.tasks { return Err(Unknown), events, reached; }
      var t := store.tasks[id];
      assert store.tasks == store.tasks[id := t];
      if t.status != Ready { return Err(NotReady), events, reached; }
      if t.HasActiveRun() { return Err(Conflict), events, reached; }
      if t.kind == Code && !o.contextBuilds {
        events := BlockWithoutContext(p, id, o.writes, n);
        return Err(if o.writes < 2 then Died else ContextFailed), events, reached;
      }
      r, events, reached := ClaimAndRun(p, id, o, n);
    }

    // Another attempt on the reviewed or corrected checkout of the latest run: the
    // checkout is whatever the provisioner's repair of it returns.
    method DispatchRework(p: Policy, id: nat, o: Outside, ghost n: Node)
      returns (r: Result<Run, ServiceError>, ghost events: seq<Event>, ghost reached: Stage)
      requires store.Valid()
      requires id in store.tasks ==> n.task == store.tasks[id]
      modifies store
      ensures store.Valid()
      ensures id !in old(store.tasks) ==> r == Err(Unknown) && store.tasks == old(store.tasks)
      ensures id in old(store.tasks) ==>
                OnlyTask(old(store.tasks), store.tasks, id) && Realizes(p, n, events, store.tasks[id])
      ensures id in old(store.tasks) ==>
                store.tasks[id] ==
                if Continuable(n.task) && !o.contextBuilds
                then ContextMissing(n.task, o.writes) else Reached(n.task, reached)
      ensures Launched(n.task, reached, o.checkout)
      ensures !Continuable(n.task) ==> reached.Untouched? && r.Err?
      ensures id in old(store.tasks) && n.task.status == Ready && n.task.kind == Code && n.task.runs != []
              && n.task.runs[|n.task.runs| - 1].workspace.Some?
              && (forall q :: q in n.task.runs ==> q.status in {RunSucceeded, RunFailed, RunCancelled})
              && o.contextBuilds ==>
                Proceeds(old(store.tasks), store.maxActiveClaims, id, o, reached)
      ensures r.Ok? ==> id in store.tasks && reached == Started(r.value) && store.tasks[id] == Reached(n.task, reached)
    {
      hide Consistent, BusyTasks, Proceeds;
      events, reached := [], Untouched;
      if id !in store.tasks { return Err(Unknown), events, reached; }
      var t := store.tasks[id];
      assert store.tasks == store.tasks[id := t];
      if t.status != Ready || t.kind != Code { return Err(NotReady), events, reached; }
      if t.HasActiveRun() { return Err(Conflict), events, reached; }
      if t.runs == [] || t.Latest().workspace.None? || !t.Latest().IsTerminal() {
        return Err(NoWorkspace), events, reached;
      }
      if !o.contextBuilds {
        events := BlockWithoutContext(p, id, o.writes, n);
        return Err(if o.writes < 2 then Died else ContextFailed), events, reached;
      }
      r, events, reached := ClaimAndRun(p, id, o, n);
    }

    // READY -> BLOCKED, then the reason that a later retry recognises.
    method BlockWithoutContext(p: Policy, id: nat, writes: nat, ghost n: Node)
      returns (ghost events: seq<Event>)
      requires store.Valid() && id in store.tasks && store.tasks[id].status == Ready
      requires n.task == store.tasks[id]
      modifies store
      ensures store.Valid() && OnlyTask(old(store.tasks), store.tasks, id)
      ensures Realizes(p, n, events, store.tasks[id])
      ensures store.tasks[id] == ContextMissing(n.task, writes)
      ensures store.tasks[id] ==
              if writes == 0 then n.task
              else if writes == 1 then n.task.MovedTo(Blocked)
              else n.task.MovedTo(Blocked).(reason := Some(ContextUnavailable))
    {
      hide Consistent, BusyTasks;
      events := [];
      assert store.tasks == store.tasks[id := store.tasks[id]];
      if writes == 0 { return; }
      var blocked := Transition(store, id, Blocked, Some(Ready));
      Then(p, n, events, Leave(Blocked));
      events := events + [Leave(Blocked)];
      if writes == 1 { return; }
      var reasoned := store.Update(id, Blocked, Some(ContextUnavailable));
      Then(p, n, events, SetReason(Some(ContextUnavailable), Blocked));
      events := events + [SetReason(Some(ContextUnavailable), Blocked)];
    }

    // Claim, checkout, engine, run, RUNNING: or the failed run and BLOCKED.
    method ClaimAndRun(p: Policy, id: nat, o: Outside, ghost n: Node)
      returns (r: Result<Run, ServiceError>, ghost events: seq<Event>, ghost reached: Stage)
      requires store.Valid() && id in store.tasks && store.tasks[id].status == Ready
      requires n.task == store.tasks[id]
      modifies store
      ensures store.Valid() && OnlyTask(old(store.tasks), store.tasks, id)
      ensures Realizes(p, n, events, store.tasks[id])
      ensures store.tasks[id] == Reached(n.task, reached) && Launched(n.task, reached, o.checkout)
      ensures Proceeds(old(store.tasks), store.maxActiveClaims, id, o, reached)
      ensures r.Ok? <==> reached.Started?
      ensures r.Ok? ==> reached == Started(r.value)
      ensures r == Err(Conflict) ==> reached in {Untouched, ClaimedOnly}
      ensures r.Err? ==> r.error != NotReady
      ensures r.Err? && r.error.AgentFailed? ==>
                reached.Abandoned? && reached.run.id == r.error.runId && reached.run.status == RunFailed
    {
      hide Consistent, BusyTasks, Realizes, Proceeds;
      r, reached := ClaimAndRunStages(id, o, n.task);
      events := Trace(reached);
      StageRealizes(p, n, reached);
    }

    method ClaimAndRunStages(id: nat, o: Outside, ghost t: Task)
      returns (r: Result<Run, ServiceError>, ghost reached: Stage)
      requires store.Valid() && id in store.tasks && store.tasks[id].status == Ready
      requires t == store.tasks[id]
      modifies store
      ensures store.Valid() && OnlyTask(old(store.tasks), store.tasks, id)
      ensures store.tasks[id] == Reached(t, reached)
      ensures Launched(t, reached, o.checkout)
      ensures Proceeds(old(store.tasks), store.maxActiveClaims, id, o, reached)
      ensures r.Ok? <==> reached.Started?
      ensures r.Ok? ==> r.value == reached.run
      ensures r == Err(Conflict) ==> reached in {Untouched, ClaimedOnly}
      ensures r.Err? ==> r.error != NotReady
      ensures r.Err? && r.error.AgentFailed? ==>
                reached.Abandoned? && reached.run.id == r.error.runId && reached.run.status == RunFailed
    {
      hide Consistent, BusyTasks, CanStoreRun, Storable;
      ClaimKeepsStorable(store.tasks, id, t.MovedTo(Claimed), RunOf(o));
      reached := Untouched;
      assert store.tasks == store.tasks[id := store.tasks[id]];
      if o.writes == 0 { return Err(Died), reached; }
      var claimed := Transition(store, id, Claimed, None);
      if claimed.Err? { return Err(Conflict), reached; }
      reached := ClaimedOnly;
      if o.checkout.None? { return Err(NoWorkspace), reached; }
      if o.writes == 1 { return Err(Died), reached; }
      var run := if o.produced.None? then Run(o.failedId, RunFailed, o.checkout, [], None)
                 else Run(o.produced.value.id, o.produced.value.status, o.checkout,
                          o.produced.value.gates, None);
      ghost var now := store.tasks;
      var saved := store.SaveRun(id, run);
      if saved.Err? { return Err(Conflict), reached; }
      StoredIsStorable(now, id, run, t);
      assert store.tasks[id].runs == t.runs + [run];
      reached := Saved(run);
      if o.writes == 2 { return Err(Died), reached; }
      if o.produced.None? {
        var blocked := Transition(store, id, Blocked, Some(Claimed));
        reached := Abandoned(run);
        return Err(AgentFailed(run.id)), reached;
      }
      var advanced := Transition(store, id, Running, None);
      reached := Started(run);
      return Ok(run), reached;
    }
  }

  // The run that a dispatch saves: what the engine produced, in the checkout it was
  // given, or the record of its failure.
  function RunOf(o: Outside): Run {
    match o.produced
    case None => Run(o.failedId, RunFailed, o.checkout, [], None)
    case Some(run) => Run(run.id, run.status, o.checkout, run.gates, None)
  }

  // How far a dispatch gets, by what it finds: nowhere while the claim slots are taken;
  // to the claim without a checkout or with a run that storage refuses; and otherwise to
  // RUNNING with the produced run, or to BLOCKED with the failed one.
  ghost predicate Proceeds(tasks: map<nat, Task>, slots: nat, id: nat, o: Outside, reached: Stage) {
    var claims := o.writes >= 1 && |BusyTasks(tasks) - {id}| < slots;
    var saves := claims && o.writes >= 2 && o.checkout.Some? && CanStoreRun(tasks, id, RunOf(o));
    && (reached.Untouched? <==> !claims)
    && (reached.ClaimedOnly? <==> claims && !saves)
    && (saves ==> !reached.Untouched? && !reached.ClaimedOnly? && reached.run == RunOf(o))
    && (reached.Saved? <==> saves && o.writes == 2)
    && (reached.Abandoned? <==> saves && o.writes >= 3 && o.produced.None?)
    && (reached.Started? <==> saves && o.writes >= 3 && o.produced.Some?)
  }

  lemma ClaimKeepsStorable(tasks: map<nat, Task>, id: nat, t: Task, run: Run)
    requires id in tasks && t.runs == tasks[id].runs && t.repo == tasks[id].repo
    ensures CanStoreRun(tasks[id := t], id, run) <==> CanStoreRun(tasks, id, run)
  {
    var later := tasks[id := t];
    assert forall other :: other in tasks && other != id ==> later[other] == tasks[other];
    assert t.HasActiveRun() == tasks[id].HasActiveRun();
    assert RunStored(later, run.id) <==> RunStored(tasks, run.id) by {
      if RunStored(later, run.id) {
        var k :| k in later && exists r :: r in later[k].runs && r.id == run.id;
        assert exists r :: r in tasks[k].runs && r.id == run.id;
      }
      if RunStored(tasks, run.id) {
        var k :| k in tasks && exists r :: r in tasks[k].runs && r.id == run.id;
        assert exists r :: r in later[k].runs && r.id == run.id;
      }
    }
    if run.workspace.Some? {
      assert WorkspaceTaken(later, id, run.workspace.value.id) <==> WorkspaceTaken(tasks, id, run.workspace.value.id);
    }
    hide RunStored, WorkspaceTaken, Task.HasActiveRun;
  }

  // How far a dispatch got.
  datatype Stage =
    | Untouched | ClaimedOnly | Saved(run: Run) | Abandoned(run: Run) | Started(run: Run)

  function Reached(t: Task, s: Stage): Task {
    match s
    case Untouched => t
    case ClaimedOnly => t.MovedTo(Claimed)
    case Saved(run) => WithRunAdded(t.MovedTo(Claimed), run)
    case Abandoned(run) => WithRunAdded(t.MovedTo(Claimed), run).MovedTo(Blocked)
    case Started(run) => WithRunAdded(t.MovedTo(Claimed), run).MovedTo(Running)
  }

  // The same field by field: CLAIMED until the engine has answered, then RUNNING, or
  // BLOCKED with the record of the failure; the run is stored under the claim.
  lemma ReachedByFacts(t: Task, s: Stage)
    ensures
      var u := Reached(t, s);
      && u == t.(status := u.status, runs := u.runs, log := u.log)
      && u.status == (if s.Untouched? then t.status
                      else if s.Abandoned? then Blocked
                      else if s.Started? then Running
                      else Claimed)
      && u.runs == (if s.Untouched? || s.ClaimedOnly? then t.runs else t.runs + [s.run])
      && u.log == t.log + (if s.Untouched? then []
                           else if s.Abandoned? then [Edge(t.status, Claimed), Edge(Claimed, Blocked)]
                           else if s.Started? then [Edge(t.status, Claimed), Edge(Claimed, Running)]
                           else [Edge(t.status, Claimed)])
  {
  }

  function WithRunAdded(t: Task, run: Run): Task { t.(runs := t.runs + [run]) }

  function Trace(s: Stage): seq<Event> {
    match s
    case Untouched => []
    case ClaimedOnly => [Claim, LoseClaimant]
    case Saved(run) => [Claim, SaveRun(run), LoseStarter]
    case Abandoned(run) => [Claim, SaveRun(run), Leave(Blocked), LoseStarter]
    case Started(run) => [Claim, SaveRun(run), Advance]
  }

  predicate Storable(t: Task, run: Run) {
    && run.revision.None?
    && (forall q :: q in t.runs ==> q.id != run.id)
    && (run.IsActive() ==> !t.HasActiveRun())
  }

  lemma StoredIsStorable(tasks: map<nat, Task>, id: nat, run: Run, t: Task)
    requires CanStoreRun(tasks, id, run) && run.revision.None?
    requires tasks[id] == t.MovedTo(Claimed)
    ensures Storable(t, run)
  {
    assert tasks[id].runs == t.runs;
  }

  // A task with a review request continues on the checkout of its latest run.
  predicate InPlace(t: Task, checkout: Option<Workspace>) {
    t.reworks != [] && t.runs != [] ==> checkout == t.Latest().workspace
  }

  // What a dispatch has checked by the time it has saved a run.
  predicate Launched(t: Task, s: Stage, checkout: Option<Workspace>) {
    s.Saved? || s.Abandoned? || s.Started? ==>
      Storable(t, s.run) && s.run.workspace == checkout && checkout.Some?
  }

  predicate Dispatchable(t: Task) { t.status == Ready && !t.HasActiveRun() }

  predicate Continuable(t: Task) {
    && Dispatchable(t)
    && t.kind == Code
    && t.runs != []
    && t.Latest().workspace.Some?
    && t.Latest().IsTerminal()
  }

  function ContextMissing(t: Task, writes: nat): Task {
    CutOff(t, t.MovedTo(Blocked), t.MovedTo(Blocked).(reason := Some(ContextUnavailable)), writes)
  }

  // Every stage of a dispatch is a history of protocol steps.
  lemma StageRealizes(p: Policy, n: Node, s: Stage)
    requires n.task.status == Ready
    requires s.Saved? || s.Abandoned? || s.Started? ==> Storable(n.task, s.run)
    ensures Realizes(p, n, Trace(s), Reached(n.task, s))
  {
    var claimed := n.(task := n.task.MovedTo(Claimed), claimants := n.claimants + 1);
    if s.ClaimedOnly? {
      TwoSteps(p, n, Claim, LoseClaimant);
    } else if s.Saved? || s.Abandoned? || s.Started? {
      assert claimed.task.HasActiveRun() == n.task.HasActiveRun();
      TwoSteps(p, n, Claim, SaveRun(s.run));
      if s.Saved? { Then(p, n, [Claim, SaveRun(s.run)], LoseStarter); }
      if s.Started? { Then(p, n, [Claim, SaveRun(s.run)], Advance); }
      if s.Abandoned? {
        var events := [Claim, SaveRun(s.run)];
        TwoMore(p, n, events, Leave(Blocked), LoseStarter);
        assert events + [Leave(Blocked), LoseStarter] == Trace(s);
      }
    }
  }

  lemma TwoMore(p: Policy, n: Node, events: seq<Event>, first: Event, second: Event)
    requires Legal(p, n, events)
    requires Enabled(p, After(n, events), first)
    requires Enabled(p, Next(After(n, events), first), second)
    ensures Legal(p, n, events + [first, second])
    ensures After(n, events + [first, second]) == Next(Next(After(n, events), first), second)
  {
    hide Enabled, Next;
    Then(p, n, events, first);
    Then(p, n, events + [first], second);
    assert events + [first] + [second] == events + [first, second];
  }

  lemma TwoSteps(p: Policy, n: Node, first: Event, second: Event)
    requires Enabled(p, n, first) && Enabled(p, Next(n, first), second)
    ensures Legal(p, n, [first, second])
    ensures After(n, [first, second]) == Next(Next(n, first), second)
  {
    hide Enabled, Next;
    TwoMore(p, n, [], first, second);
    assert [] + [first, second] == [first, second];
  }

  // The task a retry leaves when its process survives `writes` writes.
  function Retried(p: Policy, t: Task, backoffPending: bool, writes: nat): Task {
    match RetryTarget(p, t, backoffPending)
    case None => t
    case Some(target) =>
      if t.status == Claimed
      then CutOff(t, t.MovedTo(Blocked), t.MovedTo(Blocked).MovedTo(target), writes)
      else CutOff(t, t.MovedTo(target), t.MovedTo(target), writes)
  }

  // -- which tasks a retry accepts, by stored facts --------------------------------------

  // The runs that count against the limit, by their places in the history.
  function FailedPlaces(runs: seq<Run>): set<nat> {
    set i: nat | i < |runs|
                 && (runs[i].status == RunFailed
                     || (runs[i].status == RunSucceeded
                         && exists g :: g in runs[i].gates && g.required && g.status != GatePassed))
  }

  lemma {:induction false} FailuresCounted(runs: seq<Run>)
    ensures BadCount(runs) == |FailedPlaces(runs)|
    decreases |runs|
  {
    if runs == [] {
      assert FailedPlaces(runs) == {};
    } else {
      var last := |runs| - 1;
      FailuresCounted(runs[..last]);
      OnePlaceMore(runs);
      hide FailedPlaces;
    }
  }

  lemma OnePlaceMore(runs: seq<Run>)
    requires runs != []
    ensures
      var last := |runs| - 1;
      && last !in FailedPlaces(runs[..last])
      && FailedPlaces(runs) == FailedPlaces(runs[..last]) + if runs[last].IsBad() then {last} else {}
  {
    var last := |runs| - 1;
    assert runs[last].IsBad() <==> last in FailedPlaces(runs);
    forall i: nat | i < last
      ensures i in FailedPlaces(runs) <==> i in FailedPlaces(runs[..last])
    {
      assert runs[..last][i] == runs[i];
    }
    hide Run.IsBad;
  }

  // BLOCKED under a reason that names exactly the latest run and its checkout, a green
  // and certified run of the task's own repository.
  predicate NamesPublication(t: Task) {
    && t.status == Blocked
    && t.runs != []
    && var r := t.runs[|t.runs| - 1];
       && r.status == RunSucceeded
       && (forall g :: g in r.gates && g.required ==> g.status == GatePassed)
       && r.revision.Some?
       && (exists i :: 0 <= i < |r.revision.value| && !IsSpace(r.revision.value[i]))
       && r.workspace.Some? && r.workspace.value.repo == t.repo
       && t.reason == Some(PublicationFailed(r.id, r.workspace.value.id))
  }

  predicate Retryable(p: Policy, t: Task, backoffPending: bool) {
    && t.status in {Blocked, Claimed}
    && (forall r :: r in t.runs ==> r.status in {RunSucceeded, RunFailed, RunCancelled})
    && |FailedPlaces(t.runs)| < p.retryLimit
    && if t.runs == [] then t.status == Blocked
       else
         var r := t.runs[|t.runs| - 1];
         && (r.status == RunFailed ==> !backoffPending)
         && (|| r.status == RunFailed
             || (t.status == Claimed && t.reworks != [])
             || (t.status == Blocked && r.status == RunSucceeded
                 && exists g :: g in r.gates && g.required && g.status != GatePassed)
             || NamesPublication(t))
  }

  lemma RetryByFacts(p: Policy, t: Task, backoffPending: bool)
    ensures RetryTarget(p, t, backoffPending).Some? <==> Retryable(p, t, backoffPending)
    ensures RetryTarget(p, t, backoffPending).Some? ==>
              RetryTarget(p, t, backoffPending).value == if NamesPublication(t) then Validating else Ready
  {
    FailuresCounted(t.runs);
    assert NamesPublication(t) <==> IsPublicationRetry(t);
    if t.runs != [] { assert t.runs[|t.runs| - 1] in t.runs; }
    hide BadCount, FailedPlaces, NamesPublication, IsPublicationRetry;
  }

  class RetryService {
    const store: TaskStore
    const policy: Policy

    constructor (store: TaskStore, policy: Policy)
      ensures this.store == store && this.policy == policy
    {
      this.store := store;
      this.policy := policy;
    }

    // Accepted is a BLOCKED or CLAIMED task without an active run, with fewer failed
    // attempts than the limit, no backoff pending for a failed latest run, and a latest
    // run that something can be done about: none at all, a failed one, one that failed
    // its gates while the task is BLOCKED, the very run that a publication failed for, or
    // a finished one under a claim for a review.
    // A refusal writes nothing. An accepted retry leaves READY, or VALIDATING for
    // exactly the blocked publication; a CLAIMED task passes through BLOCKED, and
    // a crash between the two writes leaves it there.
    method Retry(id: nat, backoffPending: bool, writes: nat, ghost n: Node)
      returns (r: Result<Task, ServiceError>, ghost events: seq<Event>)
      requires store.Valid()
      requires id in store.tasks ==> n.task == store.tasks[id]
      modifies store
      ensures store.Valid()
      ensures id !in old(store.tasks) ==> r == Err(Unknown) && store.tasks == old(store.tasks)
      ensures id in old(store.tasks) ==>
                && OnlyTask(old(store.tasks), store.tasks, id)
                && Realizes(policy, n, events, store.tasks[id])
                && store.tasks[id] == Retried(policy, n.task, backoffPending, writes)
      ensures id in old(store.tasks) ==>
                (r != Err(RetryRefused) <==> Retryable(policy, n.task, backoffPending))
      ensures id in old(store.tasks) && r.Ok? ==>
                && r.value == store.tasks[id]
                && store.tasks[id].status == (if NamesPublication(n.task) then Validating else Ready)
                && store.tasks[id] == n.task.(status := store.tasks[id].status, log := store.tasks[id].log)
                && store.tasks[id].log == n.task.log + (
                     if n.task.status == Claimed then [Edge(Claimed, Blocked), Edge(Blocked, Ready)]
                     else [Edge(Blocked, store.tasks[id].status)])
      ensures id in old(store.tasks) && r == Err(Died) ==>
                store.tasks[id] == if writes == 0 then n.task else n.task.MovedTo(Blocked)
      ensures id in old(store.tasks) ==>
                r == if RetryTarget(policy, n.task, backoffPending).None? then Err(RetryRefused)
                     else if writes >= 2 || (writes == 1 && n.task.status == Blocked) then Ok(store.tasks[id])
                     else Err(Died)
    {
      hide Consistent, BusyTasks, Enabled, Next, Retryable, NamesPublication;
      events := [];
      if id !in store.tasks { return Err(Unknown), events; }
      var t := store.tasks[id];
      assert store.tasks == store.tasks[id := t];
      RetryByFacts(policy, t, backoffPending);
      if t.status !in {Blocked, Claimed} { return Err(RetryRefused), events; }
      if t.HasActiveRun() { return Err(RetryRefused), events; }
      if ClassifyRetry(t) == NonRecoverable { return Err(RetryRefused), events; }
      var retryable := CountFailures(t.runs);
      if retryable >= policy.retryLimit { return Err(RetryRefused), events; }
      if t.runs != [] && t.Latest().status == RunFailed && backoffPending {
        return Err(RetryRefused), events;
      }
      if t.status == Claimed
         && (t.runs == []
             || (t.Latest().status != RunFailed && !(t.reworks != [] && t.Latest().IsTerminal())))
      {
        return Err(RetryRefused), events;
      }
      if writes == 0 { return Err(Died), events; }
      var left := writes;
      if t.status == Claimed {
        var released := Transition(store, id, Blocked, Some(Claimed));
        events := [RetryRelease(t)];
        RetrySteps(policy, n, t, backoffPending);
        left := left - 1;
        if left == 0 { return Err(Died), events; }
      }
      var target := if IsPublicationRetry(t) then Validating else Ready;
      RetrySteps(policy, n, t, backoffPending);
      var moved := Transition(store, id, target, Some(Blocked));
      if t.status == Claimed {
        events := [RetryRelease(t), RetryReady(t)];
      } else {
        events := [if target == Validating then RetryPublication(t) else RetryReady(t)];
      }
      return Ok(store.tasks[id]), events;
    }
  }

  // Both writes of a retry are protocol steps decided on what it read.
  lemma RetrySteps(p: Policy, n: Node, t: Task, backoffPending: bool)
    requires n.task == t && RetryTarget(p, t, backoffPending).Some?
    ensures t.status == Claimed ==>
              && Realizes(p, n, [RetryRelease(t)], t.MovedTo(Blocked))
              && Realizes(p, n, [RetryRelease(t), RetryReady(t)], t.MovedTo(Blocked).MovedTo(Ready))
    ensures t.status == Blocked && IsPublicationRetry(t) ==>
              Realizes(p, n, [RetryPublication(t)], t.MovedTo(Validating))
    ensures t.status == Blocked && !IsPublicationRetry(t) ==>
              Realizes(p, n, [RetryReady(t)], t.MovedTo(Ready))
  {
    if t.status == Claimed {
      Then(p, n, [], RetryRelease(t));
      TwoSteps(p, n, RetryRelease(t), RetryReady(t));
    } else if IsPublicationRetry(t) {
      Then(p, n, [], RetryPublication(t));
    } else {
      Then(p, n, [], RetryReady(t));
    }
  }

  // After a crash between the two writes the released task can be retried exactly when
  // its latest run failed or failed its gates, or when its old reason happens to name
  // this very run as a blocked publication. A claim for a review that is released after
  // a green run, or a cancelled one, stays BLOCKED for good.
  lemma ReleasedIsRetryable(p: Policy, t: Task, backoffPending: bool)
    requires t.status == Claimed && RetryTarget(p, t, backoffPending).Some?
    ensures Retried(p, t, backoffPending, 1) == t.MovedTo(Blocked) && t.runs != []
    ensures
      RetryTarget(p, t.MovedTo(Blocked), backoffPending) ==
      if t.Latest().status == RunFailed || t.Latest().Outcome() == GatesFailed then Some(Ready)
      else if IsPublicationRetry(t.MovedTo(Blocked)) then Some(Validating)
      else None
  {
    var u := t.MovedTo(Blocked);
    assert u.HasActiveRun() == t.HasActiveRun();
    assert u.runs == t.runs && u.Latest() == t.Latest();
  }

  // The failed attempts of a history, counted in order.
  method CountFailures(runs: seq<Run>) returns (count: nat)
    ensures count == BadCount(runs)
  {
    count := 0;
    for i := 0 to |runs|
      invariant count == BadCount(runs[..i])
    {
      assert Earlier(runs[..i + 1]) == runs[..i];
      if runs[i].status == RunFailed || (runs[i].IsTerminal() && runs[i].Outcome() == GatesFailed) {
        count := count + 1;
      }
    }
    assert runs[..|runs|] == runs;
  }

  // FactoryRuntime._gate_failure_streak: from the newest run backwards.
  method GateFailureStreak(runs: seq<Run>) returns (streak: nat)
    ensures streak == Streak(runs)
    ensures streak <= |runs|
    ensures forall i :: |runs| - streak <= i < |runs| ==> runs[i].Outcome() == GatesFailed
    ensures streak < |runs| ==> runs[|runs| - 1 - streak].Outcome() != GatesFailed
  {
    streak := 0;
    assert runs[..|runs|] == runs;
    while streak < |runs| && runs[|runs| - 1 - streak].Outcome() == GatesFailed
      invariant streak <= |runs|
      invariant forall i :: |runs| - streak <= i < |runs| ==> runs[i].Outcome() == GatesFailed
      invariant Streak(runs) == streak + Streak(runs[..|runs| - streak])
    {
      assert Earlier(runs[..|runs| - streak]) == runs[..|runs| - streak - 1];
      streak := streak + 1;
    }
    assert runs[..|runs|] == runs;
  }

  // The gate-failure branch of one runtime pass over a validated CODE task: back to
  // READY for another correction while the streak is within the limit, otherwise
  // BLOCKED with a reason.
  method CorrectOrBlock(store: TaskStore, p: Policy, id: nat, writes: nat, ghost n: Node)
    returns (ghost events: seq<Event>)
    requires store.Valid() && id in store.tasks && n.task == store.tasks[id]
    requires n.task.kind == Code && n.task.runs != []
    modifies store
    ensures store.Valid() && OnlyTask(old(store.tasks), store.tasks, id)
    ensures Realizes(p, n, events, store.tasks[id])
    ensures store.tasks[id] ==
            if n.task.status == Validating && n.task.Latest().Outcome() == GatesFailed
            then Corrected(p, n.task, writes) else n.task
    ensures
      var t, u, runs := n.task, store.tasks[id], n.task.runs;
      var acts := t.status == Validating && FailedGates(runs[|runs| - 1]) && writes >= 1;
      var beyond := |runs| > p.correctionLimit
                    && forall i :: |runs| - 1 - p.correctionLimit <= i < |runs| ==> FailedGates(runs[i]);
      && (!acts ==> u == t)
      && (acts && !beyond ==> u == t.MovedTo(Ready))
      && (acts && beyond && writes == 1 ==> u == t.MovedTo(Blocked))
      && (acts && beyond && writes >= 2 ==>
            u == t.MovedTo(Blocked).(reason := Some(OtherReason("quality correction limit reached"))))
  {
    hide Consistent, BusyTasks, Enabled, Next, FailedGates;
    FailedGatesIsOutcome(n.task.runs[|n.task.runs| - 1]);
    BeyondLimit(n.task.runs, p.correctionLimit);
    events := [];
    var t := store.tasks[id];
    assert store.tasks == store.tasks[id := t];
    if t.Latest().Outcome() != GatesFailed || t.status != Validating || writes == 0 { return; }
    var streak := GateFailureStreak(t.runs);
    CorrectionSteps(p, n);
    if streak > p.correctionLimit {
      var blocked := Transition(store, id, Blocked, None);
      events := [Leave(Blocked)];
      if writes == 1 { return; }
      var updated := store.Update(id, Blocked, LimitReached());
      events := [Leave(Blocked), SetReason(LimitReached(), Blocked)];
    } else {
      var moved := Transition(store, id, Ready, None);
      events := [Requeue(t)];
    }
  }

  // A run whose agent succeeded and one of whose required gates did not pass.
  predicate FailedGates(r: Run) {
    r.status == RunSucceeded && exists g :: g in r.gates && g.required && g.status != GatePassed
  }

  lemma FailedGatesIsOutcome(r: Run)
    ensures FailedGates(r) <==> r.Outcome() == GatesFailed
  {
  }

  // The streak exceeds a limit when that many runs and one more, counted from the end,
  // have all failed their gates.
  lemma {:induction false} BeyondLimit(runs: seq<Run>, limit: nat)
    ensures Streak(runs) > limit <==>
            |runs| > limit && forall i :: |runs| - 1 - limit <= i < |runs| ==> FailedGates(runs[i])
    decreases |runs|
  {
    if runs != [] {
      var last := |runs| - 1;
      var earlier := Earlier(runs);
      FailedGatesIsOutcome(runs[last]);
      assert forall i :: 0 <= i < last ==> earlier[i] == runs[i];
      if limit > 0 { BeyondLimit(earlier, limit - 1); }
      hide FailedGates, Run.Outcome;
    }
  }

  // READY again while the streak of failed gates is within the limit, else BLOCKED.
  function Corrected(p: Policy, t: Task, writes: nat): Task {
    if Streak(t.runs) > p.correctionLimit
    then CutOff(t, t.MovedTo(Blocked), t.MovedTo(Blocked).(reason := LimitReached()), writes)
    else CutOff(t, t.MovedTo(Ready), t.MovedTo(Ready), writes)
  }

  function LimitReached(): Option<Reason> { Some(OtherReason("quality correction limit reached")) }

  lemma CorrectionSteps(p: Policy, n: Node)
    requires n.task.kind == Code && n.task.status == Validating && n.task.runs != []
    requires n.task.Latest().Outcome() == GatesFailed
    ensures Realizes(p, n, [Leave(Blocked)], n.task.MovedTo(Blocked))
    ensures Realizes(p, n, [Leave(Blocked), SetReason(LimitReached(), Blocked)],
                     n.task.MovedTo(Blocked).(reason := LimitReached()))
    ensures Streak(n.task.runs) <= p.correctionLimit ==> Realizes(p, n, [Requeue(n.task)], n.task.MovedTo(Ready))
  {
    Then(p, n, [], Leave(Blocked));
    TwoSteps(p, n, Leave(Blocked), SetReason(LimitReached(), Blocked));
    if Streak(n.task.runs) <= p.correctionLimit { Then(p, n, [], Requeue(n.task)); }
  }

  // -- which dispatch a READY task gets -----------------------------------------------

  // The run whose failed gates the next attempt is to correct: the latest one, or the
  // one before when the latest failed in the same checkout.
  function GateSource(t: Task): Option<Run> {
    if t.runs == [] then None
    else if t.Latest().status == RunFailed && |t.runs| > 1
            && t.runs[|t.runs| - 2].workspace == t.Latest().workspace
    then Some(t.runs[|t.runs| - 2])
    else Some(t.Latest())
  }

  predicate CorrectsGates(t: Task) {
    GateSource(t).Some? && GateSource(t).value.Outcome() == GatesFailed
  }

  predicate ResumesTimeout(t: Task) {
    t.runs != [] && t.Latest().status == RunFailed && t.reason == Some(TimeoutRecovery(t.Latest().id))
  }

  // A reviewed, gate-corrected or timed-out attempt continues where it was.
  predicate Continues(t: Task) {
    t.runs != [] && (ResumesTimeout(t) || t.reworks != [] || CorrectsGates(t))
  }

  // The same by stored facts: there is a run, and a review request, a latest run that
  // failed its gates, a latest run that failed in the checkout of one that did, or an
  // authorised recovery of the latest run's timeout.
  predicate ContinuesByFacts(t: Task) {
    t.runs != []
    && (|| t.reworks != []
        || AwaitsCorrection(t)
        || (t.runs[|t.runs| - 1].status == RunFailed
            && t.reason == Some(TimeoutRecovery(t.runs[|t.runs| - 1].id))))
  }

  predicate AwaitsCorrection(t: Task)
    requires t.runs != []
  {
    var r := t.runs[|t.runs| - 1];
    || (r.status == RunSucceeded && exists g :: g in r.gates && g.required && g.status != GatePassed)
    || (r.status == RunFailed && |t.runs| > 1
        && var q := t.runs[|t.runs| - 2];
           q.workspace == r.workspace && q.status == RunSucceeded
           && exists g :: g in q.gates && g.required && g.status != GatePassed)
  }

  // Not now: the backoff of a correction is pending, or the engine cannot resume.
  predicate Declined(t: Task, backoffPending: bool, codex: bool) {
    t.runs != []
    && (|| (backoffPending && AwaitsCorrection(t))
        || (!codex && (t.reworks != []
                       || (t.runs[|t.runs| - 1].status == RunFailed
                           && t.reason == Some(TimeoutRecovery(t.runs[|t.runs| - 1].id))))))
  }

  // A dispatch goes ahead: not declined, no active run, the context builds, and an
  // attempt that continues has a checkout to continue in.
  predicate Attempted(t: Task, backoffPending: bool, codex: bool, o: Outside) {
    && !Declined(t, backoffPending, codex)
    && (forall q :: q in t.runs ==> q.status in {RunSucceeded, RunFailed, RunCancelled})
    && o.contextBuilds
    && (ContinuesByFacts(t) ==> t.runs[|t.runs| - 1].workspace.Some?)
  }

  lemma ReadyByFacts(t: Task, backoffPending: bool, codex: bool)
    ensures Continues(t) <==> ContinuesByFacts(t)
    ensures Declined(t, backoffPending, codex) <==>
              || (CorrectsGates(t) && backoffPending)
              || (!codex && (ResumesTimeout(t) || (t.runs != [] && t.reworks != [])))
    ensures forall checkout :: Attempted(t, backoffPending, codex, checkout) ==>
              && (forall q :: q in t.runs ==> q.status in {RunSucceeded, RunFailed, RunCancelled})
              && checkout.contextBuilds && !Declined(t, backoffPending, codex)
              && (Continues(t) ==> t.runs != [] && t.runs[|t.runs| - 1].workspace.Some?)
  {
    assert forall q: Run ::
        q.Outcome() == GatesFailed <==>
        q.status == RunSucceeded && exists g :: g in q.gates && g.required && g.status != GatePassed;
    hide Run.Outcome;
  }

  // FactoryRuntime._run_once for a READY code task: `anew` is what a new checkout
  // meets, `repaired` what the latest run's checkout meets.
  method RunReady(dispatch: DispatchService, p: Policy, id: nat, backoffPending: bool, codex: bool,
                  anew: Outside, repaired: Outside, ghost n: Node)
    returns (r: Result<Run, ServiceError>, ghost events: seq<Event>, ghost reached: Stage)
    requires dispatch.store.Valid() && id in dispatch.store.tasks && n.task == dispatch.store.tasks[id]
    requires n.task.kind == Code && n.task.status == Ready
    modifies dispatch.store
    ensures dispatch.store.Valid() && OnlyTask(old(dispatch.store.tasks), dispatch.store.tasks, id)
    ensures Realizes(p, n, events, dispatch.store.tasks[id])
    ensures dispatch.store.tasks[id] == Reached(n.task, reached)
         || (exists w :: dispatch.store.tasks[id] == ContextMissing(n.task, w))
    ensures Launched(n.task, reached, if Continues(n.task) then repaired.checkout else anew.checkout)
    ensures r.Ok? ==> dispatch.store.tasks[id] == Reached(n.task, reached) && reached == Started(r.value)
    ensures r.Ok? ==> r.value.workspace == if Continues(n.task) then repaired.checkout else anew.checkout
    ensures reached.Saved? || reached.Abandoned? || reached.Started? ==>
              && reached.run.workspace == (if ContinuesByFacts(n.task) then repaired.checkout else anew.checkout)
              && (n.task.runs != [] && repaired.checkout == n.task.runs[|n.task.runs| - 1].workspace ==>
                    InPlace(n.task, reached.run.workspace))
    ensures var o := if ContinuesByFacts(n.task) then repaired else anew;
            Attempted(n.task, backoffPending, codex, o) ==>
              Proceeds(old(dispatch.store.tasks), dispatch.store.maxActiveClaims, id, o, reached)
    ensures Declined(n.task, backoffPending, codex) ==>
              dispatch.store.tasks[id] == n.task && reached.Untouched?
    ensures CorrectsGates(n.task) && backoffPending ==> dispatch.store.tasks[id] == n.task
    ensures Continues(n.task) && !codex && (ResumesTimeout(n.task) || n.task.reworks != []) ==>
              dispatch.store.tasks[id] == n.task
  {
    hide Consistent, BusyTasks, Realizes, Proceeds, ContinuesByFacts, Attempted, Declined;
    ReadyByFacts(n.task, backoffPending, codex);
    var t := dispatch.store.tasks[id];
    assert dispatch.store.tasks == dispatch.store.tasks[id := t];
    NothingDone(p, n);
    events, reached := [], Untouched;
    if CorrectsGates(t) && backoffPending { return Err(NotReady), events, reached; }
    if ResumesTimeout(t) {
      if !codex { return Err(NotReady), events, reached; }
      r, events, reached := dispatch.DispatchRework(p, id, repaired, n);
    } else if t.runs != [] && (t.reworks != [] || CorrectsGates(t)) {
      if t.reworks != [] && !codex { return Err(NotReady), events, reached; }
      r, events, reached := dispatch.DispatchRework(p, id, repaired, n);
    } else {
      r, events, reached := dispatch.Dispatch(p, id, anew, n);
    }
  }

  lemma NothingDone(p: Policy, n: Node)
    ensures Realizes(p, n, [], n.task)
  {
  }

  // -- a publication that failed ---------------------------------------------------------

  // FactoryRuntime._block_failed_publication: the reason names the exact run and
  // workspace whose publication is to be resumed.
  method BlockFailedPublication(store: TaskStore, p: Policy, id: nat, writes: nat, ghost n: Node)
    returns (ghost events: seq<Event>)
    requires store.Valid() && id in store.tasks && n.task == store.tasks[id]
    requires n.task.runs != []
    modifies store
    ensures store.Valid() && OnlyTask(old(store.tasks), store.tasks, id)
    ensures Realizes(p, n, events, store.tasks[id])
    ensures store.tasks[id] ==
            if PublicationPending(n.task)
            then CutOff(n.task, n.task.MovedTo(Blocked), BlockedPublication(n.task), writes) else n.task
    ensures
      var t, u := n.task, store.tasks[id];
      var r := t.runs[|t.runs| - 1];
      var acts := && writes >= 1 && t.status == Validating
                  && r.workspace.Some? && r.status == RunSucceeded
                  && (forall g :: g in r.gates && g.required ==> g.status == GatePassed)
                  && (forall q :: q in t.rows ==> q.runId != r.id);
      && (!acts ==> u == t)
      && (acts && writes == 1 ==> u == t.MovedTo(Blocked))
      && (acts && writes >= 2 ==>
            u == t.MovedTo(Blocked).(reason := Some(PublicationFailed(r.id, r.workspace.value.id))))
  {
    hide Consistent, BusyTasks, Enabled, Next;
    var t := store.tasks[id];
    assert store.tasks == store.tasks[id := t];
    NothingDone(p, n);
    events := [];
    if !PublicationPending(t) || writes == 0 { return; }
    BlockSteps(p, n);
    var blocked := Transition(store, id, Blocked, None);
    events := [Leave(Blocked)];
    if writes == 1 { return; }
    var reason := PublicationFailed(t.Latest().id, t.Latest().workspace.value.id);
    var updated := store.Update(id, Blocked, Some(reason));
    events := [Leave(Blocked), SetReason(Some(reason), Blocked)];
  }

  predicate PublicationPending(t: Task)
    requires t.runs != []
  {
    && t.status == Validating
    && t.Latest().workspace.Some?
    && t.Latest().Outcome() == ReadyForNextPhase
    && !t.HasRowFor(t.Latest().id)
  }

  function BlockedPublication(t: Task): Task
    requires t.runs != [] && t.Latest().workspace.Some?
  {
    t.MovedTo(Blocked).(reason := Some(PublicationFailed(t.Latest().id, t.Latest().workspace.value.id)))
  }

  lemma BlockSteps(p: Policy, n: Node)
    requires n.task.runs != [] && PublicationPending(n.task)
    ensures Realizes(p, n, [Leave(Blocked)], n.task.MovedTo(Blocked))
    ensures var reason := Some(PublicationFailed(n.task.Latest().id, n.task.Latest().workspace.value.id));
            Realizes(p, n, [Leave(Blocked), SetReason(reason, Blocked)], BlockedPublication(n.task))
  {
    var reason := Some(PublicationFailed(n.task.Latest().id, n.task.Latest().workspace.value.id));
    Then(p, n, [], Leave(Blocked));
    TwoSteps(p, n, Leave(Blocked), SetReason(reason, Blocked));
  }

  // A retry of what that method has blocked resumes exactly this publication, on the
  // same run and revision, just when the run is certified for the task's repository
  // and the retry limit has room; otherwise it is refused, never dispatched afresh.
  lemma BlockedPublicationResumes(p: Policy, t: Task, backoffPending: bool)
    requires t.runs != [] && PublicationPending(t) && !t.HasActiveRun()
    ensures
      RetryTarget(p, BlockedPublication(t), backoffPending) ==
      if BadCount(t.runs) < p.retryLimit && NonBlank(t.Latest().revision)
         && t.Latest().workspace.value.repo == t.repo
      then Some(Validating) else None
  {
    var u := BlockedPublication(t);
    assert u.runs == t.runs && u.Latest() == t.Latest();
    assert u.HasActiveRun() == t.HasActiveRun();
  }
}
