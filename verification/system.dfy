// The whole of one driving session on a task: any sequence of service calls, each of
// them cut at any write, mixed with any human decision. What a call leaves is said by
// the functions that the postconditions of the methods in Services, Tracking,
// Publication and Operators equate with the stored task.
module System {
  import opened Lifecycle
  import opened Models
  import opened Protocol
  import opened TransitionLog
  import opened Published
  import opened BoundedFailure
  import opened Services
  import opened Tracking
  import opened Publication

  datatype Config = Config(policy: Policy, setup: Setup, base: string)

  // `writes` is how many writes the process survives.
  datatype ServiceCall =
    | Promoted
    | Resumed
    | Dispatching(stage: Stage)
    | Retrying(backoffPending: bool, writes: nat)
    | Collecting(status: Option<RunStatus>, env: Env, writes: nat)
    | Refreshing(env: Env, writes: nat)
    | Correcting(writes: nat)
    | Publishing(call: Call)
    | Blocking(reason: Option<Reason>, writes: nat) // no context, security review, failed publication, ...
    | Reworking(feedback: string)
    | Overriding
    | Recovering(marker: Reason)
    | WritingOff
    | Ending(target: TaskStatus)
    | Resolving
    | Closing(index: nat)

  // What the service has checked, and nothing else. A saved run is in place because
  // Services.RunReady dispatches a reviewed task in the repaired checkout of its latest
  // run, and the repair returns that checkout.
  predicate Possible(c: Config, h: Hub, call: ServiceCall) {
    var t := h.node.task;
    match call
    case Promoted => t.status == Discovered
    case Resumed => t.status == ChangesRequested
    case Dispatching(s) =>
      && Dispatchable(t)
      && (s.Saved? || s.Abandoned? || s.Started? ==>
            Launched(t, s, s.run.workspace) && InPlace(t, s.run.workspace))
    case Retrying(_, _) => true
    case Collecting(_, _, _) => t.runs != [] && t.Latest().IsActive() && InProgress(t.status)
    case Refreshing(_, _) => t.runs != [] && t.Latest().IsTerminal() && InProgress(t.status)
    case Correcting(_) =>
      t.status == Validating && t.runs != [] && t.Latest().Outcome() == GatesFailed
    case Publishing(_) => true
    case Blocking(_, _) => CanTransition(t.status, Blocked)
    case Reworking(_) => CanRequestRework(t)
    case Overriding => CanOverride(t)
    case Recovering(marker) =>
      CanRecoverTerminal(t, marker) && FailedCount(t.runs) < c.policy.retryLimit
    case WritingOff => CanRecoverOrphan(t)
    case Ending(target) => target in {Failed, Cancelled, Done} && CanTransition(t.status, target)
    case Resolving => t.status in {Failed, Cancelled}
    case Closing(i) =>
      i < |h.forge.prs| && FindRow(t.rows, h.forge.prs[i].repo, h.forge.prs[i].head).Some?
  }

  function TaskAfter(c: Config, h: Hub, call: ServiceCall): Task
    requires Possible(c, h, call)
  {
    var t := h.node.task;
    match call
    case Promoted => t.MovedTo(Ready)
    case Resumed => t.MovedTo(Ready)
    case Dispatching(s) => Reached(t, s)
    case Retrying(backoff, w) => Retried(c.policy, t, backoff, w)
    case Collecting(status, env, w) => CollectedCut(t, status, c.setup, env, w)
    case Refreshing(env, w) => RefreshedCut(t, c.setup, env, w)
    case Correcting(w) => Corrected(c.policy, t, w)
    case Publishing(pub) => Attempt(c.base, Site(t, h.forge), pub).task
    case Blocking(reason, w) =>
      CutOff(t, t.MovedTo(Blocked), t.MovedTo(Blocked).(reason := reason), w)
    case Reworking(feedback) =>
      t.MovedTo(ChangesRequested).(reworks := t.reworks + [Rework(t.Latest().id, feedback)])
    case Overriding => t.MovedTo(Validating)
    case Recovering(marker) => t.MovedTo(Blocked).(reason := Some(marker))
    case WritingOff =>
      t.MovedTo(Blocked).WithLatest(t.Latest().(status := RunFailed))
       .(reason := Some(OrphanRecovery(t.Latest().id)))
    case Ending(target) => t.MovedTo(target)
    case Resolving => t.MovedTo(Done)
    case Closing(_) => t
  }

  function HubAfter(c: Config, h: Hub, call: ServiceCall): Hub
    requires Possible(c, h, call)
  {
    var forge :=
      match call
      case Publishing(pub) => Attempt(c.base, Site(h.node.task, h.forge), pub).forge
      case Closing(i) => h.forge.(prs := h.forge.prs[i := h.forge.prs[i].(open := false)])
      case _ => h.forge;
    Hub(h.node.(task := TaskAfter(c, h, call)), forge)
  }

  predicate Runs(c: Config, h: Hub, calls: seq<ServiceCall>)
    decreases |calls|
  {
    calls == [] || (Possible(c, h, calls[0]) && Runs(c, HubAfter(c, h, calls[0]), calls[1..]))
  }

  function AfterCalls(c: Config, h: Hub, calls: seq<ServiceCall>): Hub
    requires Runs(c, h, calls)
    decreases |calls|
  {
    if calls == [] then h else AfterCalls(c, HubAfter(c, h, calls[0]), calls[1..])
  }

  // -- every call is a session history --------------------------------------------

  lemma TwoEvents(p: Policy, n: Node, e: Event, f: Event)
    requires Enabled(p, n, e) && Serial(n, e) && Alone(n, e) && FreshDecision(n, e)
    requires Enabled(p, Next(n, e), f) && Serial(Next(n, e), f)
    requires Alone(Next(n, e), f) && FreshDecision(Next(n, e), f)
    ensures Session(p, n, [e] + [f], Next(Next(n, e), f))
  {
    hide Enabled, Next, Serial, Alone, FreshDecision, Session;
    OneEvent(p, n, e);
    OneEvent(p, Next(n, e), f);
    JoinSessions(p, n, [e], Next(n, e), [f], Next(Next(n, e), f));
  }

  lemma DispatchSession(p: Policy, n: Node, s: Stage) returns (events: seq<Event>)
    requires Dispatchable(n.task) && n.claimants == 0 && n.starters == 0
    requires s.Saved? || s.Abandoned? || s.Started? ==>
               Launched(n.task, s, s.run.workspace) && InPlace(n.task, s.run.workspace)
    ensures Session(p, n, events, n.(task := Reached(n.task, s)))
  {
    if s.Untouched? {
      NoEvents(p, n);
      events := [];
    } else if s.ClaimedOnly? {
      TwoEvents(p, n, Claim, LoseClaimant);
      events := [Claim] + [LoseClaimant];
    } else {
      var mid := Node(WithRunAdded(n.task.MovedTo(Claimed), s.run), n.claimants, n.starters + 1);
      SaveSession(p, n, s.run, mid);
      events := [Claim] + [SaveRun(s.run)];
      var more := StarterSession(p, mid, s);
      JoinSessions(p, n, events, mid, more, n.(task := Reached(n.task, s)));
      events := events + more;
    }
  }

  lemma SaveSession(p: Policy, n: Node, run: Run, mid: Node)
    requires Dispatchable(n.task) && n.claimants == 0 && n.starters == 0
    requires Storable(n.task, run) && InPlace(n.task, run.workspace)
    requires mid == Node(WithRunAdded(n.task.MovedTo(Claimed), run), n.claimants, n.starters + 1)
    ensures Session(p, n, [Claim] + [SaveRun(run)], mid)
  {
    assert Next(n, Claim).task.HasActiveRun() == n.task.HasActiveRun();
    TwoEvents(p, n, Claim, SaveRun(run));
  }

  lemma StarterSession(p: Policy, n: Node, s: Stage) returns (events: seq<Event>)
    requires n.starters > 0 && n.task.status == Claimed && (s.Saved? || s.Abandoned? || s.Started?)
    ensures Session(p, n, events, Node(
              if s.Saved? then n.task else if s.Abandoned? then n.task.MovedTo(Blocked)
              else n.task.MovedTo(Running), n.claimants, n.starters - 1))
  {
    if s.Saved? {
      OneEvent(p, n, LoseStarter);
      events := [LoseStarter];
    } else if s.Abandoned? {
      TwoEvents(p, n, Leave(Blocked), LoseStarter);
      events := [Leave(Blocked)] + [LoseStarter];
    } else {
      OneEvent(p, n, Advance);
      events := [Advance];
    }
  }

  lemma RetrySession(p: Policy, n: Node, backoffPending: bool, writes: nat) returns (events: seq<Event>)
    requires n.claimants == 0 && n.starters == 0
    ensures Session(p, n, events, n.(task := Retried(p, n.task, backoffPending, writes)))
  {
    var t := n.task;
    if RetryTarget(p, t, backoffPending).None? || writes == 0 {
      NoEvents(p, n);
      events := [];
    } else if t.status == Claimed {
      assert t.MovedTo(Blocked).HasActiveRun() == t.HasActiveRun();
      if writes == 1 {
        OneEvent(p, n, RetryRelease(t));
        events := [RetryRelease(t)];
      } else {
        TwoEvents(p, n, RetryRelease(t), RetryReady(t));
        events := [RetryRelease(t)] + [RetryReady(t)];
      }
    } else if IsPublicationRetry(t) {
      OneEvent(p, n, RetryPublication(t));
      events := [RetryPublication(t)];
    } else {
      OneEvent(p, n, RetryReady(t));
      events := [RetryReady(t)];
    }
  }

  lemma DriveSession(p: Policy, n: Node) returns (events: seq<Event>)
    requires n.task.runs != [] && InProgress(n.task.status)
    ensures Session(p, n, events, n.(task := Driven(n.task)))
  {
    events := DriveSteps(n.task);
    if events == [] { NoEvents(p, n); } else { OneEvent(p, n, events[0]); }
  }

  lemma StoredSession(p: Policy, n: Node, e: Event, writes: nat) returns (events: seq<Event>)
    requires Enabled(p, n, e) && Serial(n, e) && Alone(n, e) && FreshDecision(n, e)
    requires Next(n, e) == n.(task := Next(n, e).task)
    requires Next(n, e).task.runs != [] && InProgress(Next(n, e).task.status)
    ensures Session(p, n, events,
                    n.(task := CutOff(n.task, Next(n, e).task, Driven(Next(n, e).task), writes)))
  {
    hide Enabled, Next, Serial, Alone, FreshDecision, Driven, Session;
    NoEvents(p, n);
    events := [];
    if writes >= 1 {
      OneEvent(p, n, e);
      events := [e];
      if writes >= 2 {
        var more := DriveSession(p, Next(n, e));
        JoinSessions(p, n, [e], Next(n, e), more, n.(task := Driven(Next(n, e).task)));
        events := events + more;
      }
    }
  }

  lemma CollectSession(c: Config, n: Node, status: Option<RunStatus>, env: Env, writes: nat)
    returns (events: seq<Event>)
    requires n.task.runs != [] && n.task.Latest().IsActive() && InProgress(n.task.status)
    requires RevisionsCertified(n.task) && EarlierFinished(n.task) && n.claimants == 0
    ensures Session(c.policy, n, events, n.(task := CollectedCut(n.task, status, c.setup, env, writes)))
  {
    var t := n.task;
    assert t.runs[|t.runs| - 1].revision.None?;
    NoEvents(c.policy, n);
    events := [];
    if status.Some? && Collected(t, status.value, c.setup, env).Some? {
      UncertifiedIsRed(t, t.Latest().(status := status.value), c.setup.specs, env);
      var stored := Collected(t, status.value, c.setup, env).value;
      var r := stored.Latest();
      var e := Settle(|t.runs| - 1, t.Latest(), status.value, r.gates, r.revision);
      assert Enabled(c.policy, n, e) && Next(n, e) == n.(task := stored);
      events := StoredSession(c.policy, n, e, writes);
    }
  }

  lemma RefreshSession(c: Config, n: Node, env: Env, writes: nat) returns (events: seq<Event>)
    requires n.task.kind == Code && n.task.runs != [] && n.task.Latest().IsTerminal()
    requires InProgress(n.task.status) && n.claimants == 0
    ensures Session(c.policy, n, events, n.(task := RefreshedCut(n.task, c.setup, env, writes)))
  {
    var t := n.task;
    NoEvents(c.policy, n);
    events := [];
    if !Evaluates(t, c.setup) {
      if writes > 0 { events := DriveSession(c.policy, n); }
    } else {
      var v := ValidateRevision(t, t.Latest(), c.setup.specs, env);
      if v.Verdict? {
        UncertifiedIsRed(t, t.Latest(), c.setup.specs, env);
        var e := Revalidate(|t.runs| - 1, t, v.gates, v.revision);
        assert Enabled(c.policy, n, e) && Next(n, e) == n.(task := WithVerdict(t, v));
        events := StoredSession(c.policy, n, e, writes);
      }
    }
  }

  lemma LeaveSession(p: Policy, n: Node, reason: Option<Reason>, writes: nat) returns (events: seq<Event>)
    requires CanTransition(n.task.status, Blocked)
    ensures Session(p, n, events,
              n.(task := CutOff(n.task, n.task.MovedTo(Blocked), n.task.MovedTo(Blocked).(reason := reason), writes)))
  {
    NoEvents(p, n);
    events := [];
    if writes == 1 {
      OneEvent(p, n, Leave(Blocked));
      events := [Leave(Blocked)];
    } else if writes >= 2 {
      TwoEvents(p, n, Leave(Blocked), SetReason(reason, Blocked));
      events := [Leave(Blocked)] + [SetReason(reason, Blocked)];
    }
  }

  lemma CorrectSession(p: Policy, n: Node, writes: nat) returns (events: seq<Event>)
    requires n.task.kind == Code && n.task.status == Validating && n.task.runs != []
    requires n.task.Latest().Outcome() == GatesFailed
    ensures Session(p, n, events, n.(task := Corrected(p, n.task, writes)))
  {
    if Streak(n.task.runs) > p.correctionLimit {
      events := LeaveSession(p, n, LimitReached(), writes);
    } else {
      NoEvents(p, n);
      events := [];
      if writes > 0 {
        OneEvent(p, n, Requeue(n.task));
        events := [Requeue(n.task)];
      }
    }
  }

  lemma {:induction false} PublishSession(p: Policy, base: string, n: Node, f: Forge, c: Call, k: nat)
    returns (events: seq<Event>)
    requires n.task.kind == Code
    ensures Session(p, n, events, n.(task := Cut(base, Site(n.task, f), Plan(base, Site(n.task, f), c), k).task))
    decreases k
  {
    hide Plan, Perform, Enabled, Next, Serial, Alone, FreshDecision, Session;
    NoEvents(p, n);
    events := [];
    var s := Site(n.task, f);
    if k > 0 && Plan(base, s, c) != [] {
      var w := Plan(base, s, c)[0];
      var later := Perform(base, s, w);
      AfterFirstWrite(base, s, c);
      WriteIsStep(p, base, n, f, c);
      WriteKeepsKind(base, s, w);
      PublicationStepsSerial(p, base, n, f, c);
      var first := StepsOf(base, w);
      if first != [] {
        OneEvent(p, n, first[0]);
      }
      var mid := n.(task := later.task);
      var rest := PublishSession(p, base, mid, later.forge, c, k - 1);
      var last := n.(task := Cut(base, s, Plan(base, s, c), k).task);
      JoinSessions(p, n, first, mid, rest, last);
      events := first + rest;
    }
  }

  lemma PublicationStepsSerial(p: Policy, base: string, n: Node, f: Forge, c: Call)
    requires n.task.kind == Code && Plan(base, Site(n.task, f), c) != []
    ensures
      var steps := StepsOf(base, Plan(base, Site(n.task, f), c)[0]);
      && |steps| <= 1
      && (steps != [] ==> Serial(n, steps[0]) && Alone(n, steps[0]) && FreshDecision(n, steps[0]))
  {
    NextIsJustified(base, Site(n.task, f), c);
    hide Plan, Justified, StepsOf, Serial, Alone, FreshDecision;
    JustifiedIsSerial(p, base, n, f, Plan(base, Site(n.task, f), c)[0]);
  }

  lemma JustifiedIsSerial(p: Policy, base: string, n: Node, f: Forge, w: Write)
    requires n.task.kind == Code && Justified(base, Site(n.task, f), w)
    ensures
      var steps := StepsOf(base, w);
      && |steps| <= 1
      && (steps != [] ==> Serial(n, steps[0]) && Alone(n, steps[0]) && FreshDecision(n, steps[0]))
  {
    if w.StoreRow? {
      StoringIsStep(p, base, n, f, w.number, w.sha);
    } else if w.MoveTo? && w.target == PrOpen {
      assert n.task.rows[RowFor(n.task.rows, n.task.Latest().id).value] in n.task.rows;
    }
    hide Justified, FindRow, FindOpen;
  }

  function StepOf(t: Task, call: ServiceCall): Option<Event> {
    match call
    case Promoted => Some(Promote)
    case Resumed => Some(Resume)
    case Reworking(feedback) => if t.runs == [] then None else Some(RequestRework(t.Latest().id, feedback))
    case Overriding => Some(Override(t))
    case Recovering(marker) => Some(RecoverTerminal(marker))
    case WritingOff => Some(RecoverOrphan)
    case Ending(target) => Some(Leave(target))
    case Resolving => Some(ResolveTerminal)
    case _ => None
  }

  lemma StepEnabled(c: Config, h: Hub, call: ServiceCall)
    requires Possible(c, h, call) && StepOf(h.node.task, call).Some?
    requires h.node.claimants == 0 && h.node.starters == 0
    requires RevisionsCertified(h.node.task) && EarlierFinished(h.node.task)
    ensures
      var e := StepOf(h.node.task, call).value;
      Enabled(c.policy, h.node, e) && Serial(h.node, e) && Alone(h.node, e) && FreshDecision(h.node, e)
  {
    if call.Overriding? {
      assert h.node.task.runs[|h.node.task.runs| - 1].revision.Some?;
      FinishedRuns(h.node.task);
    }
  }

  lemma StepTaken(c: Config, h: Hub, call: ServiceCall)
    requires Possible(c, h, call) && StepOf(h.node.task, call).Some?
    ensures Next(h.node, StepOf(h.node.task, call).value) == HubAfter(c, h, call).node
  {
    hide Attempt, Reached, Driven, RefreshedCut, Retried, CollectedCut, Corrected, Perform;
  }

  lemma OperatorSession(c: Config, h: Hub, call: ServiceCall) returns (events: seq<Event>)
    requires Possible(c, h, call) && (StepOf(h.node.task, call).Some? || call.Closing?)
    requires h.node.claimants == 0 && h.node.starters == 0
    requires RevisionsCertified(h.node.task) && EarlierFinished(h.node.task)
    ensures Session(c.policy, h.node, events, HubAfter(c, h, call).node)
  {
    hide Session, Enabled, Serial, Alone, FreshDecision, Next;
    if call.Closing? {
      NoEvents(c.policy, h.node);
      events := [];
    } else {
      hide HubAfter;
      StepEnabled(c, h, call);
      StepTaken(c, h, call);
      OneEvent(c.policy, h.node, StepOf(h.node.task, call).value);
      events := [StepOf(h.node.task, call).value];
    }
  }

  lemma CallSession(c: Config, h: Hub, call: ServiceCall) returns (events: seq<Event>)
    requires Possible(c, h, call) && h.node.task.kind == Code
    requires h.node.claimants == 0 && h.node.starters == 0
    requires RevisionsCertified(h.node.task) && EarlierFinished(h.node.task)
    ensures Session(c.policy, h.node, events, HubAfter(c, h, call).node)
  {
    hide Session, Reached, Driven, RefreshedCut, CollectedCut, Corrected, Retried;
    var n := h.node;
    match call
    case Dispatching(s) => events := DispatchSession(c.policy, n, s);
    case Retrying(b, w) => events := RetrySession(c.policy, n, b, w);
    case Collecting(status, env, w) => events := CollectSession(c, n, status, env, w);
    case Refreshing(env, w) => events := RefreshSession(c, n, env, w);
    case Correcting(w) => events := CorrectSession(c.policy, n, w);
    case Publishing(pub) => events := PublishSession(c.policy, c.base, n, h.forge, pub, pub.writes);
    case Blocking(reason, w) => events := LeaveSession(c.policy, n, reason, w);
    case _ => events := OperatorSession(c, h, call);
  }

  // -- what holds after any number of calls ------------------------------------------

  ghost predicate Sound(c: Config, h: Hub) {
    && h.node.claimants == 0 && h.node.starters == 0 && h.node.task.kind == Code
    && Inv(h.node)
    && WithinBudget(c.policy, h.node, 0)
    && OneRow(h.node)
    && LogReplays(h.node.task)
    && OnePerBranch(h.node.task.rows, h.forge.prs)
  }

  lemma {:induction false} SessionKeepsKind(n: Node, events: seq<Event>)
    ensures After(n, events).task.kind == n.task.kind
    decreases |events|
  {
    if events != [] {
      KindKept(n, events[0]);
      hide Next;
      SessionKeepsKind(Next(n, events[0]), events[1..]);
    }
  }

  lemma {:induction false} CalmNeverMisstates(n: Node, events: seq<Event>)
    requires CalmHistory(n, events)
    ensures !Misstated(n, events)
    decreases |events|
  {
    hide Next, Serial;
    if events != [] { CalmNeverMisstates(Next(n, events[0]), events[1..]); }
  }

  lemma KindKept(n: Node, e: Event)
    ensures Next(n, e).task.kind == n.task.kind
  {
  }

  lemma SessionKeepsSound(c: Config, h: Hub, events: seq<Event>, later: Node)
    requires c.policy.Valid() && Sound(c, h) && Session(c.policy, h.node, events, later)
    ensures Inv(later) && WithinBudget(c.policy, later, 0) && OneRow(later)
    ensures LogReplays(later.task) && later.task.kind == Code
    ensures SameRow(h.node.task, later.task)
  {
    var n, p := h.node, c.policy;
    hide Enabled, Next, Serial, Alone, Clear, Inv, Orderly, WithinBudget, OneRow, LogReplays, OnePerBranch, SameRow;
    PublishedHistory(p, n, events);
    InvIsOrderly(n);
    CalmIsSerialAndClear(n, events);
    FreshNeverOverdraws(p, n, events);
    FailuresBounded(p, n, events, 0);
    OneRowHistory(p, n, events);
    SessionKeepsKind(n, events);
    CalmNeverMisstates(n, events);
    HistoryReplays(p, n, events);
  }

  lemma CallKeepsSound(c: Config, h: Hub, call: ServiceCall)
    requires c.policy.Valid() && Sound(c, h) && Possible(c, h, call)
    ensures Sound(c, HubAfter(c, h, call))
    ensures ForgeGrows(h.forge, HubAfter(c, h, call).forge)
    ensures SameRow(h.node.task, HubAfter(c, h, call).node.task)
  {
    var later := HubAfter(c, h, call);
    assert RevisionsCertified(h.node.task) && EarlierFinished(h.node.task);
    var events := CallSession(c, h, call);
    SessionKeepsSound(c, h, events, later.node);
    assert later.node.claimants == 0 && later.node.starters == 0;
    CallKeepsForge(c, h, call);
    hide HubAfter, Inv, WithinBudget, OneRow, LogReplays, OnePerBranch;
  }

  lemma CallKeepsForge(c: Config, h: Hub, call: ServiceCall)
    requires Possible(c, h, call) && OnePerBranch(h.node.task.rows, h.forge.prs)
    ensures OnePerBranch(HubAfter(c, h, call).node.task.rows, HubAfter(c, h, call).forge.prs)
    ensures ForgeGrows(h.forge, HubAfter(c, h, call).forge)
  {
    hide OnePerBranch, ForgeGrows;
    if call.Publishing? {
      AttemptKeepsOnePerBranch(c.base, Site(h.node.task, h.forge), call.call, call.call.writes);
    } else {
      OtherCallsKeepRows(c, h, call);
      if call.Closing? {
        ClosingKeepsOnePerBranch(h.node.task.rows, h.forge.prs, call.index);
        ClosingGrows(h.forge, call.index);
      } else {
        ForgeSame(h.forge);
      }
    }
  }

  lemma ClosingGrows(f: Forge, i: nat)
    requires i < |f.prs|
    ensures ForgeGrows(f, f.(prs := f.prs[i := f.prs[i].(open := false)]))
  {
  }

  lemma OtherCallsKeepRows(c: Config, h: Hub, call: ServiceCall)
    requires Possible(c, h, call) && !call.Publishing?
    ensures TaskAfter(c, h, call).rows == h.node.task.rows
  {
    hide ValidateRevision, Evaluates, RetryTarget, DriveTarget, CanTransition, Streak, Possible;
  }

  // Over every run of a driving session, with crashes at any write, automatic gate
  // corrections, retries, reviews, operator recoveries and any answers of engine,
  // gates, workspace and provider, a fresh code task always satisfies all of: at most
  // R + L + k*L failed attempts for k review requests; a task under review has a
  // certified, green latest run that owns its row; one row at most, one provider pull
  // request per branch; and a log that replays to the stored status.
  lemma {:induction false} SessionTheorem(c: Config, h: Hub, calls: seq<ServiceCall>)
    requires c.policy.Valid() && Sound(c, h) && Runs(c, h, calls)
    ensures
      var later := AfterCalls(c, h, calls);
      var t := later.node.task;
      && Sound(c, later)
      && BadCount(t.runs) <= c.policy.retryLimit + c.policy.correctionLimit
                             + |t.reworks| * c.policy.correctionLimit
      && (UnderReview(t.status) ==> PublishedLatest(t))
      && |t.rows| <= 1 && OnePerBranch(t.rows, later.forge.prs)
      && ForgeGrows(h.forge, later.forge)
    decreases |calls|
  {
    hide Possible, HubAfter, ForgeGrows;
    if calls == [] {
      BudgetCovers(c.policy, h.node, 0);
      ForgeSame(h.forge);
    } else {
      CallKeepsSound(c, h, calls[0]);
      hide Sound;
      SessionTheorem(c, HubAfter(c, h, calls[0]), calls[1..]);
      ForgeChain(h.forge, HubAfter(c, h, calls[0]).forge, AfterCalls(c, h, calls).forge);
    }
  }

  // Intake starts there.
  lemma FreshIsSound(c: Config, t: Task, f: Forge)
    requires c.policy.Valid() && Fresh(t) && t.kind == Code && f.prs == []
    ensures Sound(c, Hub(Node(t, 0, 0), f))
  {
    FreshInv(t);
  }
}
