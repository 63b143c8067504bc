// The failure bound is exact, and what it counts beside review requests really does
// exceed the limit; a stale verdict really does unpublish a reviewed run.
module FailureExtremes {
  import opened Lifecycle
  import opened Models
  import opened Protocol
  import opened Published
  import opened BoundedFailure

  predicate Allowed(p: Policy, n: Node, e: Event) {
    Enabled(p, n, e) && Serial(n, e) && Alone(n, e) && FreshDecision(n, e)
  }

  lemma {:induction false} Extend(p: Policy, n: Node, events: seq<Event>, e: Event)
    requires Disciplined(p, n, events) && Allowed(p, After(n, events), e)
    ensures Disciplined(p, n, events + [e])
    ensures After(n, events + [e]) == Next(After(n, events), e)
    decreases |events|
  {
    if events == [] {
      assert events + [e] == [e] && [e][1..] == [];
    } else {
      assert (events + [e])[1..] == events[1..] + [e];
      Extend(p, Next(n, events[0]), events[1..], e);
    }
  }

  // One step from a known node to a known node.
  predicate Takes(p: Policy, n: Node, e: Event, m: Node) {
    Allowed(p, n, e) && Next(n, e) == m
  }

  lemma Step(p: Policy, n: Node, events: seq<Event>, e: Event, m: Node) returns (more: seq<Event>)
    requires Disciplined(p, n, events) && Takes(p, After(n, events), e, m)
    ensures more == events + [e]
    ensures Disciplined(p, n, more) && After(n, more) == m
  {
    hide Allowed, Next;
    Extend(p, n, events, e);
    more := events + [e];
  }

  function Claiming(n: Node): Node { n.(task := n.task.MovedTo(Claimed), claimants := n.claimants + 1) }

  function Saving(n: Node, r: Run): Node
    requires n.claimants > 0
  {
    Node(n.task.(runs := n.task.runs + [r]), n.claimants - 1, n.starters + 1)
  }

  lemma TakesClaim(p: Policy, n: Node)
    requires n.task.status == Ready && Idle(n)
    ensures Takes(p, n, Claim, Claiming(n))
  {
  }

  lemma TakesSave(p: Policy, n: Node, r: Run)
    requires CanSaveRun(n, r)
    requires n.task.reworks != [] && n.task.runs != [] ==> r.workspace == n.task.Latest().workspace
    ensures Takes(p, n, SaveRun(r), Saving(n, r))
  {
  }

  lemma TakesAdvance(p: Policy, n: Node)
    requires n.starters > 0 && n.task.status == Claimed
    ensures Takes(p, n, Advance, n.(task := n.task.MovedTo(Running), starters := n.starters - 1))
  {
  }

  lemma TakesLoss(p: Policy, n: Node)
    requires n.starters > 0
    ensures Takes(p, n, LoseStarter, n.(starters := n.starters - 1))
  {
  }

  lemma TakesBlock(p: Policy, n: Node)
    requires CanTransition(n.task.status, Blocked)
    ensures Takes(p, n, Leave(Blocked), n.(task := n.task.MovedTo(Blocked)))
  {
  }

  lemma TakesRetry(p: Policy, n: Node)
    requires Idle(n) && RetryTarget(p, n.task, false) == Some(Ready) && n.task.status == Blocked
    ensures Takes(p, n, RetryReady(n.task), n.(task := n.task.MovedTo(Ready)))
  {
  }

  lemma TakesSettle(p: Policy, n: Node, gates: seq<Gate>, revision: Option<string>, done: Run)
    requires n.claimants == 0 && n.task.runs != [] && n.task.Latest().IsActive()
    requires revision.Some? ==> RequiredPassed(gates)
    requires done == n.task.Latest().(status := RunSucceeded, gates := gates, revision := revision)
    ensures Takes(p, n, Settle(|n.task.runs| - 1, n.task.Latest(), RunSucceeded, gates, revision),
                  n.(task := n.task.WithLatest(done)))
  {
  }

  lemma TakesValidate(p: Policy, n: Node)
    requires n.task.status == Running && n.task.runs != []
    ensures Takes(p, n, Validate, n.(task := n.task.MovedTo(Validating)))
  {
  }

  lemma TakesRequeue(p: Policy, n: Node)
    requires CanRequeue(p, n.task)
    ensures Takes(p, n, Requeue(n.task), n.(task := n.task.MovedTo(Ready)))
  {
  }

  lemma TakesPublication(p: Policy, n: Node, base: string, number: nat, commit: string)
    requires CanBindRow(n.task, base)
    ensures
      var bound := n.(task := n.task.(rows := BoundRows(n.task, base, number, commit)));
      var open := bound.(task := bound.task.MovedTo(PrOpen));
      && Takes(p, n, BindRow(base, number, commit), bound)
      && Takes(p, bound, OpenPr, open)
      && Takes(p, open, HandOff, open.(task := open.task.MovedTo(WaitingHuman)))
  {
    BoundRowOwned(n.task, base, number, commit);
  }

  lemma TakesReview(p: Policy, n: Node, feedback: string)
    requires CanRequestRework(n.task)
    ensures
      var asked := n.(task := n.task.MovedTo(ChangesRequested)
                        .(reworks := n.task.reworks + [Rework(n.task.Latest().id, feedback)]));
      && Takes(p, n, RequestRework(n.task.Latest().id, feedback), asked)
      && Takes(p, asked, Resume, asked.(task := asked.task.MovedTo(Ready)))
  {
  }

  // Every attempt below works on one checkout of the task's repository.
  function Checkout(repo: string): Workspace { Workspace(0, repo, "factory/checkout") }

  // A task READY for its next attempt, with nothing in flight.
  predicate ReadyAt(n: Node, repo: string, bad: nat, streak: nat, reworks: nat) {
    var t := n.task;
    && n.claimants == 0 && n.starters == 0
    && t.kind == Code && t.repo == repo && t.status == Ready
    && (forall r :: r in t.runs ==>
          r.IsTerminal() && r.id < |t.runs| && r.workspace == Some(Checkout(repo)))
    && BadCount(t.runs) == bad && Streak(t.runs) == streak && |t.reworks| == reworks
    && |t.rows| <= 1
    && (t.rows != [] ==>
          && t.rows[0].repo == repo && t.rows[0].head == Checkout(repo).branch
          && t.rows[0].base == "main"
          && exists r :: r in t.runs && r.id == t.rows[0].runId)
    && (forall q :: q in t.reworks ==> q.reviewedRun < |t.runs|)
  }

  function NewRun(n: Node, repo: string, status: RunStatus): Run {
    Run(|n.task.runs|, status, Some(Checkout(repo)), [], None)
  }

  predicate Dispatchable(n: Node, r: Run) {
    && n.claimants == 0 && n.starters == 0 && n.task.status == Ready
    && !n.task.HasActiveRun() && r.revision.None?
    && (forall q :: q in n.task.runs ==> q.id != r.id)
    && (n.task.reworks != [] && n.task.runs != [] ==> r.workspace == n.task.Latest().workspace)
  }

  // Claimed, with the run saved.
  lemma Save(p: Policy, n: Node, events: seq<Event>, r: Run) returns (more: seq<Event>)
    requires Disciplined(p, n, events) && Dispatchable(After(n, events), r)
    ensures Disciplined(p, n, more)
    ensures After(n, more) == Saving(Claiming(After(n, events)), r)
  {
    var m := After(n, events);
    assert m.task.MovedTo(Claimed).HasActiveRun() == m.task.HasActiveRun();
    TakesClaim(p, m);
    TakesSave(p, Claiming(m), r);
    hide Takes, Disciplined;
    more := Step(p, n, events, Claim, Claiming(m));
    more := Step(p, n, more, SaveRun(r), Saving(Claiming(m), r));
  }

  // A dispatch whose engine cannot start, up to BLOCKED.
  lemma Fail(p: Policy, n: Node, events: seq<Event>, r: Run)
    returns (more: seq<Event>)
    requires Disciplined(p, n, events) && Dispatchable(After(n, events), r) && r.status == RunFailed
    ensures Disciplined(p, n, more)
    ensures var m, k := After(n, events), After(n, more);
            && k.claimants == 0 && k.starters == 0
            && k.task == m.task.(status := Blocked, runs := m.task.runs + [r], log := k.task.log)
  {
    var m := After(n, events);
    var saved := Saving(Claiming(m), r);
    var blocked := saved.(task := saved.task.MovedTo(Blocked));
    TakesBlock(p, saved);
    TakesLoss(p, blocked);
    hide Takes, Disciplined, Dispatchable;
    more := Save(p, n, events, r);
    more := Step(p, n, more, Leave(Blocked), blocked);
    more := Step(p, n, more, LoseStarter, blocked.(starters := 0));
  }

  // The failed dispatch, and the operator's retry.
  lemma FailAndRetry(p: Policy, n: Node, events: seq<Event>, repo: string, bad: nat)
    returns (more: seq<Event>)
    requires Disciplined(p, n, events) && ReadyAt(After(n, events), repo, bad, 0, 0)
    requires After(n, events).task.rows == [] && bad + 1 < p.retryLimit
    ensures Disciplined(p, n, more) && ReadyAt(After(n, more), repo, bad + 1, 0, 0)
    ensures After(n, more).task.rows == []
  {
    hide Enabled, Next, Serial, Alone, FreshDecision, Takes, Disciplined;
    var m := After(n, events);
    var r := NewRun(m, repo, RunFailed);
    AllTerminal(m.task);
    more := Fail(p, n, events, r);
    Counted(m.task.runs, r);
    hide BadCount, Streak;
    var seen := After(n, more);
    assert seen.task.runs == m.task.runs + [r] && seen.task.Latest() == r;
    AllTerminal(seen.task);
    TakesRetry(p, seen);
    more := Step(p, n, more, RetryReady(seen.task), seen.(task := seen.task.MovedTo(Ready)));
  }

  // Claimed, saved as an active run and moved to RUNNING.
  lemma Dispatch(p: Policy, n: Node, events: seq<Event>, r: Run)
    returns (more: seq<Event>)
    requires Disciplined(p, n, events) && Dispatchable(After(n, events), r)
    ensures Disciplined(p, n, more)
    ensures var m, k := After(n, events), After(n, more);
            && k.claimants == 0 && k.starters == 0
            && k.task == m.task.(status := Running, runs := m.task.runs + [r], log := k.task.log)
  {
    var m := After(n, events);
    var saved := Saving(Claiming(m), r);
    TakesAdvance(p, saved);
    hide Takes, Disciplined, Dispatchable;
    more := Save(p, n, events, r);
    more := Step(p, n, more, Advance, saved.(task := saved.task.MovedTo(Running), starters := 0));
  }

  lemma AllTerminal(t: Task)
    requires forall r :: r in t.runs ==> r.IsTerminal()
    ensures !t.HasActiveRun()
  {
  }

  // One attempt whose agent succeeds, up to VALIDATING.
  lemma Attempt(p: Policy, n: Node, events: seq<Event>, repo: string, bad: nat, streak: nat,
                reworks: nat, gates: seq<Gate>, revision: Option<string>)
    returns (more: seq<Event>, done: Run)
    requires Disciplined(p, n, events) && ReadyAt(After(n, events), repo, bad, streak, reworks)
    requires revision.Some? ==> RequiredPassed(gates)
    ensures done == NewRun(After(n, events), repo, RunSucceeded).(gates := gates, revision := revision)
    ensures Disciplined(p, n, more)
    ensures var m, k := After(n, events), After(n, more);
            && k.claimants == 0 && k.starters == 0
            && k.task == m.task.(status := Validating, runs := m.task.runs + [done],
                                 log := k.task.log)
  {
    var m := After(n, events);
    var r := NewRun(m, repo, RunRunning);
    done := r.(status := RunSucceeded, gates := gates, revision := revision);
    AllTerminal(m.task);
    hide Enabled, Next, Serial, Alone, FreshDecision, Takes, Disciplined, BadCount, Streak;
    more := Dispatch(p, n, events, r);
    var running := After(n, more);
    var settled := running.(task := running.task.WithLatest(done));
    TakesSettle(p, running, gates, revision, done);
    more := Step(p, n, more, Settle(|m.task.runs|, r, RunSucceeded, gates, revision), settled);
    assert settled.task.runs == m.task.runs + [done];
    TakesValidate(p, settled);
    more := Step(p, n, more, Validate, settled.(task := settled.task.MovedTo(Validating)));
  }

  const RED: seq<Gate> := [Gate("tests", GateFailed, "exit_code=1", true)]

  lemma RedBlocks()
    ensures !RequiredPassed(RED)
  {
    assert RED[0] in RED;
  }

  // A gate failure, automatically sent back while the streak allows it.
  lemma CorrectOnce(p: Policy, n: Node, events: seq<Event>, repo: string, bad: nat, streak: nat,
                    reworks: nat)
    returns (more: seq<Event>)
    requires Disciplined(p, n, events) && ReadyAt(After(n, events), repo, bad, streak, reworks)
    requires streak < p.correctionLimit
    ensures Disciplined(p, n, more) && ReadyAt(After(n, more), repo, bad + 1, streak + 1, reworks)
  {
    hide Enabled, Next, Serial, Alone, FreshDecision, Takes, Disciplined;
    var m := After(n, events);
    var done;
    more, done := Attempt(p, n, events, repo, bad, streak, reworks, RED, None);
    RedBlocks();
    Counted(m.task.runs, done);
    hide BadCount, Streak;
    var k := After(n, more);
    assert k.task.Latest() == done;
    TakesRequeue(p, k);
    more := Step(p, n, more, Requeue(k.task), k.(task := k.task.MovedTo(Ready)));
    KeptRowOwner(m.task, After(n, more).task, done);
  }

  lemma {:induction false} Corrections(p: Policy, n: Node, events: seq<Event>, repo: string,
                                       bad: nat, reworks: nat, count: nat)
    returns (more: seq<Event>)
    requires Disciplined(p, n, events) && ReadyAt(After(n, events), repo, bad, 0, reworks)
    requires count <= p.correctionLimit
    ensures Disciplined(p, n, more) && ReadyAt(After(n, more), repo, bad + count, count, reworks)
    decreases count
  {
    hide Disciplined, ReadyAt;
    if count == 0 {
      more := events;
    } else {
      more := Corrections(p, n, events, repo, bad, reworks, count - 1);
      more := CorrectOnce(p, n, more, repo, bad + count - 1, count - 1, reworks);
    }
  }

  lemma KeptRowOwner(before: Task, later: Task, done: Run)
    requires later.runs == before.runs + [done] && later.rows == before.rows && |before.rows| <= 1
    requires before.rows != [] ==> exists r :: r in before.runs && r.id == before.rows[0].runId
    ensures later.rows != [] ==> exists r :: r in later.runs && r.id == later.rows[0].runId
  {
    if before.rows != [] {
      var r :| r in before.runs && r.id == before.rows[0].runId;
      assert r in later.runs;
    }
  }

  // Published: the row is stored and the task handed to a human.
  lemma Publish(p: Policy, n: Node, events: seq<Event>)
    returns (more: seq<Event>)
    requires Disciplined(p, n, events) && CanBindRow(After(n, events).task, "main")
    ensures Disciplined(p, n, more)
    ensures var m, k := After(n, events), After(n, more);
            && k.claimants == m.claimants && k.starters == m.starters
            && k.task == m.task.(status := WaitingHuman, log := k.task.log,
                                 rows := BoundRows(m.task, "main", 1, "commit"))
  {
    hide Enabled, Next, Serial, Alone, FreshDecision, Takes, Disciplined, BoundRows;
    var m := After(n, events);
    TakesPublication(p, m, "main", 1, "commit");
    var bound := m.(task := m.task.(rows := BoundRows(m.task, "main", 1, "commit")));
    var open := bound.(task := bound.task.MovedTo(PrOpen));
    more := Step(p, n, events, BindRow("main", 1, "commit"), bound);
    more := Step(p, n, more, OpenPr, open);
    more := Step(p, n, more, HandOff, open.(task := open.task.MovedTo(WaitingHuman)));
  }

  // A certified attempt, published, reviewed and sent back for rework.
  lemma PublishAndRework(p: Policy, n: Node, events: seq<Event>, repo: string, bad: nat,
                         streak: nat, reworks: nat)
    returns (more: seq<Event>)
    requires Disciplined(p, n, events) && ReadyAt(After(n, events), repo, bad, streak, reworks)
    ensures Disciplined(p, n, more) && ReadyAt(After(n, more), repo, bad, 0, reworks + 1)
  {
    var m := After(n, events);
    var done;
    more, done := Attempt(p, n, events, repo, bad, streak, reworks, [], Some("tree"));
    Counted(m.task.runs, done);
    var t := After(n, more).task;
    Bindable(m.task, t, done, repo);
    more := Publish(p, n, more);
    more := Review(p, n, more);
    BoundOnce(t, done, repo);
    ReadyAgain(m, After(n, more), repo, bad, streak, reworks, done);
  }

  // A human asks for changes and the task becomes READY again.
  lemma Review(p: Policy, n: Node, events: seq<Event>)
    returns (more: seq<Event>)
    requires Disciplined(p, n, events) && CanRequestRework(After(n, events).task)
    ensures Disciplined(p, n, more)
    ensures var m, k := After(n, events), After(n, more);
            && k.claimants == m.claimants && k.starters == m.starters
            && k.task == m.task.(status := Ready, log := k.task.log,
                                 reworks := m.task.reworks + [Rework(m.task.Latest().id, "again")])
  {
    hide Enabled, Next, Serial, Alone, FreshDecision, Takes, Disciplined;
    var m := After(n, events);
    TakesReview(p, m, "again");
    var asked := m.(task := m.task.MovedTo(ChangesRequested)
                      .(reworks := m.task.reworks + [Rework(m.task.Latest().id, "again")]));
    more := Step(p, n, events, RequestRework(m.task.Latest().id, "again"), asked);
    more := Step(p, n, more, Resume, asked.(task := asked.task.MovedTo(Ready)));
  }

  lemma ReadyAgain(m: Node, k: Node, repo: string, bad: nat, streak: nat, reworks: nat, done: Run)
    requires ReadyAt(m, repo, bad, streak, reworks)
    requires k.claimants == 0 && k.starters == 0
    requires k.task.kind == Code && k.task.repo == repo && k.task.status == Ready
    requires k.task.runs == m.task.runs + [done]
    requires done == NewRun(m, repo, RunSucceeded).(revision := Some("tree"))
    requires k.task.reworks == m.task.reworks + [Rework(done.id, "again")]
    requires |k.task.rows| == 1 && k.task.rows[0].repo == repo
    requires k.task.rows[0].head == Checkout(repo).branch && k.task.rows[0].base == "main"
    requires k.task.rows[0].runId == done.id
    ensures ReadyAt(k, repo, bad, 0, reworks + 1)
  {
    Counted(m.task.runs, done);
    assert k.task.runs[|m.task.runs|] == done && done in k.task.runs;
  }

  lemma Bindable(before: Task, t: Task, done: Run, repo: string)
    requires t.kind == Code && t.repo == repo && t.status == Validating
    requires t.runs == before.runs + [done] && t.rows == before.rows && |t.rows| <= 1
    requires done == Run(|before.runs|, RunSucceeded, Some(Checkout(repo)), [], Some("tree"))
    requires forall r :: r in before.runs ==> r.id < |before.runs|
    requires t.rows != [] ==>
               && t.rows[0].repo == repo && t.rows[0].head == Checkout(repo).branch
               && t.rows[0].base == "main"
               && exists r :: r in before.runs && r.id == t.rows[0].runId
    ensures CanBindRow(t, "main")
  {
    assert t.Latest() == done && Earlier(t.runs) == before.runs;
    assert done.revision.value[0] == 't' && !IsSpace('t');
    forall q | q in t.rows
      ensures q.runId != done.id
    {
      assert q == t.rows[0];
    }
  }

  lemma BoundOnce(t: Task, done: Run, repo: string)
    requires t.runs != [] && t.Latest() == done && done.workspace == Some(Checkout(repo))
    requires |t.rows| <= 1
    requires t.rows != [] ==>
               t.rows[0].repo == repo && t.rows[0].head == Checkout(repo).branch
               && t.rows[0].base == "main"
    ensures var rows := BoundRows(t, "main", 1, "commit");
            |rows| == 1 && rows[0].repo == repo && rows[0].head == Checkout(repo).branch
            && rows[0].base == "main" && rows[0].runId == done.id
    ensures done in t.runs
  {
    if t.rows != [] { assert t.rows[0] in t.rows; }
  }

  lemma {:induction false} Failures(p: Policy, n: Node, repo: string, count: nat)
    returns (events: seq<Event>)
    requires ReadyAt(n, repo, 0, 0, 0) && n.task.rows == [] && count < p.retryLimit
    ensures Disciplined(p, n, events) && ReadyAt(After(n, events), repo, count, 0, 0)
    ensures After(n, events).task.rows == []
    decreases count
  {
    if count == 0 {
      events := [];
    } else {
      events := Failures(p, n, repo, count - 1);
      events := FailAndRetry(p, n, events, repo, count - 1);
    }
  }

  lemma {:induction false} ReviewCycles(p: Policy, n: Node, start: seq<Event>, repo: string,
                                        bad: nat, count: nat)
    returns (events: seq<Event>)
    requires Disciplined(p, n, start) && ReadyAt(After(n, start), repo, bad, 0, 0)
    ensures Disciplined(p, n, events)
    ensures ReadyAt(After(n, events), repo, bad + count * p.correctionLimit, 0, count)
    decreases count
  {
    if count == 0 {
      events := start;
    } else {
      events := ReviewCycles(p, n, start, repo, bad, count - 1);
      var so := bad + (count - 1) * p.correctionLimit;
      events := Corrections(p, n, events, repo, so, count - 1, p.correctionLimit);
      events := PublishAndRework(p, n, events, repo, so + p.correctionLimit, p.correctionLimit,
                                 count - 1);
      assert so + p.correctionLimit == bad + count * p.correctionLimit;
    }
  }

  // R + L + k*L is attained for every policy and every number of review
  // requests, by a history without any crash, race or stale decision.
  lemma BoundAttained(p: Policy, t: Task, reworks: nat)
    requires p.Valid() && Fresh(t) && t.kind == Code && t.status == Ready
    ensures exists events ::
              && Disciplined(p, Node(t, 0, 0), events)
              && |After(Node(t, 0, 0), events).task.reworks| == reworks
              && BadCount(After(Node(t, 0, 0), events).task.runs)
                 == p.retryLimit + p.correctionLimit + reworks * p.correctionLimit
  {
    var n := Node(t, 0, 0);
    var R, L := p.retryLimit, p.correctionLimit;
    var events := Failures(p, n, t.repo, R - 1);
    events := ReviewCycles(p, n, events, t.repo, R - 1, reworks);
    var bad := R - 1 + reworks * L;
    events := Corrections(p, n, events, t.repo, bad, reworks, L);
    var m := After(n, events);
    RedBlocks();
    var done;
    events, done := Attempt(p, n, events, t.repo, bad + L, L, reworks, RED, None);
    Counted(m.task.runs, done);
  }

  // -- what breaks it --------------------------------------------------------

  // Histories of one session: with its operators in turns but on old facts, or on
  // fresh facts but beside a dispatch.
  predicate Chain(p: Policy, n: Node, events: seq<Event>, stale: bool) {
    && Legal(p, n, events)
    && (if stale then CalmHistory(n, events) else SerialHistory(n, events) && FreshHistory(n, events))
  }

  predicate Links(p: Policy, n: Node, e: Event, m: Node, stale: bool) {
    && Enabled(p, n, e) && Serial(n, e) && Next(n, e) == m
    && (if stale then Alone(n, e) else FreshDecision(n, e))
  }

  lemma {:induction false} ExtendChain(p: Policy, n: Node, events: seq<Event>, e: Event, m: Node,
                                       stale: bool)
    requires Chain(p, n, events, stale) && Links(p, After(n, events), e, m, stale)
    ensures Chain(p, n, events + [e], stale)
    ensures After(n, events + [e]) == m
    decreases |events|
  {
    hide Enabled, Next, Serial, Alone, FreshDecision;
    if events == [] {
      assert events + [e] == [e] && [e][1..] == [];
      var none := NoChain(p, Next(n, e), stale);
      assert none == [];
    } else {
      assert (events + [e])[1..] == events[1..] + [e];
      ExtendChain(p, Next(n, events[0]), events[1..], e, m, stale);
    }
  }

  lemma Link(p: Policy, n: Node, events: seq<Event>, e: Event, m: Node, stale: bool)
    returns (more: seq<Event>)
    requires Chain(p, n, events, stale) && Links(p, After(n, events), e, m, stale)
    ensures more == events + [e]
    ensures Chain(p, n, more, stale) && After(n, more) == m
  {
    hide Chain, Links;
    ExtendChain(p, n, events, e, m, stale);
    more := events + [e];
  }

  lemma NoChain(p: Policy, n: Node, stale: bool) returns (none: seq<Event>)
    ensures none == [] && Chain(p, n, none, stale) && After(n, none) == n
  {
    none := [];
  }

  // A READY task with finished runs only, and the next run, which fails at once.
  predicate Failing(t: Task, r: Run) {
    && t.status == Ready && t.reworks == []
    && r.status == RunFailed && r.revision.None?
    && forall q :: q in t.runs ==> q.IsTerminal() && q.id != r.id
  }

  function Failed(t: Task, r: Run): Task {
    t.MovedTo(Claimed).(runs := t.runs + [r]).MovedTo(Blocked)
  }

  lemma FailingLinks(p: Policy, t: Task, r: Run, stale: bool)
    requires Failing(t, r)
    ensures
      var claimed := t.MovedTo(Claimed);
      var saved := claimed.(runs := t.runs + [r]);
      && Links(p, Node(t, 0, 0), Claim, Node(claimed, 1, 0), stale)
      && Links(p, Node(claimed, 1, 0), SaveRun(r), Node(saved, 0, 1), stale)
      && Links(p, Node(saved, 0, 1), Leave(Blocked), Node(Failed(t, r), 0, 1), stale)
      && Links(p, Node(Failed(t, r), 0, 1), LoseStarter, Node(Failed(t, r), 0, 0), stale)
  {
  }

  // A dispatch that fails and leaves the task BLOCKED.
  lemma FailedDispatch(p: Policy, n: Node, events: seq<Event>, t: Task, r: Run, stale: bool)
    returns (more: seq<Event>)
    requires Chain(p, n, events, stale) && After(n, events) == Node(t, 0, 0) && Failing(t, r)
    ensures Chain(p, n, more, stale) && After(n, more) == Node(Failed(t, r), 0, 0)
  {
    FailingLinks(p, t, r, stale);
    hide Chain, Links, Failing;
    var claimed := t.MovedTo(Claimed);
    var saved := claimed.(runs := t.runs + [r]);
    more := Link(p, n, events, Claim, Node(claimed, 1, 0), stale);
    more := Link(p, n, more, SaveRun(r), Node(saved, 0, 1), stale);
    more := Link(p, n, more, Leave(Blocked), Node(Failed(t, r), 0, 1), stale);
    more := Link(p, n, more, LoseStarter, Node(Failed(t, r), 0, 0), stale);
  }

  // A retry decided on `seen` commits while the task is BLOCKED and idle.
  lemma RetryLinks(p: Policy, t: Task, seen: Task, stale: bool)
    requires t.status == Blocked && !t.HasActiveRun() && (stale || seen == t)
    requires RetryTarget(p, seen, false) == Some(Ready)
    ensures Links(p, Node(t, 0, 0), RetryReady(seen), Node(t.MovedTo(Ready), 0, 0), stale)
  {
    hide BadCount, RetryTarget;
  }

  function FailedRun(id: nat): Run { Run(id, RunFailed, None, [], None) }

  lemma ThreeFailures()
    ensures BadCount([FailedRun(0)]) == 1
    ensures BadCount([FailedRun(0), FailedRun(1), FailedRun(2)]) == 3
  {
    Counted([], FailedRun(0));
    Counted([FailedRun(0)], FailedRun(1));
    Counted([FailedRun(0), FailedRun(1)], FailedRun(2));
    assert [] + [FailedRun(0)] == [FailedRun(0)];
    assert [FailedRun(0)] + [FailedRun(1)] == [FailedRun(0), FailedRun(1)];
    assert [FailedRun(0), FailedRun(1)] + [FailedRun(2)] == [FailedRun(0), FailedRun(1), FailedRun(2)];
  }

  // One failed attempt leaves room for another under a limit of two.
  lemma FailedOnce(t: Task)
    requires t.runs == [FailedRun(0)] && t.status in {Claimed, Blocked}
    ensures RetryTarget(Policy(2, 0), t, false) == Some(Ready) && !t.HasActiveRun()
  {
    ThreeFailures();
  }

  lemma FirstFailure(p: Policy, t: Task, stale: bool) returns (events: seq<Event>)
    requires Fresh(t) && t.status == Ready && p == Policy(2, 0)
    ensures Chain(p, Node(t, 0, 0), events, stale)
    ensures After(Node(t, 0, 0), events) == Node(Failed(t, FailedRun(0)).MovedTo(Ready), 0, 0)
  {
    var n, failed := Node(t, 0, 0), Failed(t, FailedRun(0));
    assert failed.runs == [FailedRun(0)];
    FailedOnce(failed);
    RetryLinks(p, failed, failed, stale);
    hide Chain, Links;
    events := NoChain(p, n, stale);
    events := FailedDispatch(p, n, events, t, FailedRun(0), stale);
    events := Link(p, n, events, RetryReady(failed), Node(failed.MovedTo(Ready), 0, 0), stale);
  }

  // Two operators read the same failed history of a task BLOCKED with one
  // attempt left. The first retry is dispatched and fails; the second then
  // commits on what it read, because its compare-and-swap sees BLOCKED again.
  // With R = 2, L = 0 and no review request the task ends with three failed
  // attempts, one over R + L.
  lemma StaleRetryExceedsLimit(t: Task)
    requires Fresh(t) && t.kind == Code && t.status == Ready
    ensures exists events ::
              && Legal(Policy(2, 0), Node(t, 0, 0), events) && CalmHistory(Node(t, 0, 0), events)
              && After(Node(t, 0, 0), events).task.reworks == []
              && BadCount(After(Node(t, 0, 0), events).task.runs) == 3
  {
    var events := StaleRetry(t);
    ThirdFailure(SecondFailure(t).MovedTo(Ready));
    hide Legal, CalmHistory, After, BadCount;
  }

  function SecondFailure(t: Task): Task {
    Failed(Failed(t, FailedRun(0)).MovedTo(Ready), FailedRun(1))
  }

  lemma ThirdFailure(t: Task)
    requires t.runs == [FailedRun(0), FailedRun(1)]
    ensures BadCount(Failed(t, FailedRun(2)).runs) == 3
  {
    ThreeFailures();
    assert Failed(t, FailedRun(2)).runs == [FailedRun(0), FailedRun(1), FailedRun(2)];
  }

  lemma StaleRetry(t: Task) returns (events: seq<Event>)
    requires Fresh(t) && t.kind == Code && t.status == Ready
    ensures Chain(Policy(2, 0), Node(t, 0, 0), events, true)
    ensures After(Node(t, 0, 0), events)
            == Node(Failed(SecondFailure(t).MovedTo(Ready), FailedRun(2)), 0, 0)
  {
    var p, n, seen, second := Policy(2, 0), Node(t, 0, 0), Failed(t, FailedRun(0)), SecondFailure(t);
    FailedOnce(seen);
    RetryLinks(p, second, seen, true);
    assert Failing(seen.MovedTo(Ready), FailedRun(1));
    assert Failing(second.MovedTo(Ready), FailedRun(2));
    hide Chain, Links, Legal, After, Failing;
    events := FirstFailure(p, t, true);
    events := FailedDispatch(p, n, events, seen.MovedTo(Ready), FailedRun(1), true);
    hide Failed, SecondFailure;
    events := Link(p, n, events, RetryReady(seen), Node(second.MovedTo(Ready), 0, 0), true);
    events := FailedDispatch(p, n, events, second.MovedTo(Ready), FailedRun(2), true);
  }

  // The second attempt is claimed; the operator retries the task, which is CLAIMED
  // without an active run, through BLOCKED to READY; and the dispatcher saves its run.
  lemma RetryBesideClaim(p: Policy, n: Node, events: seq<Event>, t: Task, r: Run)
    returns (more: seq<Event>)
    requires Chain(p, n, events, false) && After(n, events) == Node(t, 0, 0)
    requires Failing(t, r) && t.runs == [FailedRun(0)] && p == Policy(2, 0)
    ensures Chain(p, n, more, false) && After(n, more) == Node(Overtaken(t, r), 0, 0)
  {
    var claimed := t.MovedTo(Claimed);
    var released := claimed.MovedTo(Blocked);
    var ready := released.MovedTo(Ready);
    BesideClaimLinks(p, t, r);
    hide Chain, Links, Legal, After, Failing;
    more := Link(p, n, events, Claim, Node(claimed, 1, 0), false);
    more := Link(p, n, more, RetryRelease(claimed), Node(released, 1, 0), false);
    more := Link(p, n, more, RetryReady(released), Node(ready, 1, 0), false);
    more := Link(p, n, more, SaveRun(r), Node(Overtaken(t, r), 0, 1), false);
    more := Link(p, n, more, LoseStarter, Node(Overtaken(t, r), 0, 0), false);
  }

  function Overtaken(t: Task, r: Run): Task {
    t.MovedTo(Claimed).MovedTo(Blocked).MovedTo(Ready).(runs := t.runs + [r])
  }

  lemma BesideClaimLinks(p: Policy, t: Task, r: Run)
    requires Failing(t, r) && t.runs == [FailedRun(0)] && p == Policy(2, 0)
    ensures
      var claimed := t.MovedTo(Claimed);
      var released := claimed.MovedTo(Blocked);
      var ready := released.MovedTo(Ready);
      && Links(p, Node(t, 0, 0), Claim, Node(claimed, 1, 0), false)
      && Links(p, Node(claimed, 1, 0), RetryRelease(claimed), Node(released, 1, 0), false)
      && Links(p, Node(released, 1, 0), RetryReady(released), Node(ready, 1, 0), false)
      && Links(p, Node(ready, 1, 0), SaveRun(r), Node(Overtaken(t, r), 0, 1), false)
      && Links(p, Node(Overtaken(t, r), 0, 1), LoseStarter, Node(Overtaken(t, r), 0, 0), false)
  {
    FailedOnce(t.MovedTo(Claimed));
    FailedOnce(t.MovedTo(Claimed).MovedTo(Blocked));
    hide RetryTarget, BadCount;
  }

  // One session, and an operator who retries what he sees: a task that is CLAIMED
  // because the session is about to save its second run. The retry sends it back to
  // READY, and the run is saved all the same. With R = 2, L = 0, no review request
  // and no stale decision the task ends with three failed attempts.
  lemma RetryBesideClaimExceedsLimit(t: Task)
    requires Fresh(t) && t.kind == Code && t.status == Ready
    ensures exists events ::
              && Legal(Policy(2, 0), Node(t, 0, 0), events)
              && SerialHistory(Node(t, 0, 0), events) && FreshHistory(Node(t, 0, 0), events)
              && After(Node(t, 0, 0), events).task.reworks == []
              && BadCount(After(Node(t, 0, 0), events).task.runs) == 3
  {
    var p, n := Policy(2, 0), Node(t, 0, 0);
    var again := Failed(t, FailedRun(0)).MovedTo(Ready);
    var overtaken := Overtaken(again, FailedRun(1));
    assert again.runs == [FailedRun(0)];
    assert Failing(again, FailedRun(1)) && Failing(overtaken, FailedRun(2));
    ThirdFailure(overtaken);
    hide Links, Legal, After, Failing, BadCount, SerialHistory, FreshHistory;
    var events := FirstFailure(p, t, false);
    events := RetryBesideClaim(p, n, events, again, FailedRun(1));
    events := FailedDispatch(p, n, events, overtaken, FailedRun(2), false);
  }

  // -- a stale verdict --------------------------------------------------------

  // Two sessions collect the same run. One stores a certified verdict and publishes
  // the run; the other then stores what it has found, failed gates, over it. The task
  // waits for a human whose pull request names a run with red gates and no revision.
  lemma StaleVerdictUnpublishes(p: Policy, t: Task)
    requires p.Valid() && Fresh(t) && t.kind == Code && t.status == Ready
    ensures exists events: seq<Event>, verdict: Event ::
              var n := After(Node(t, 0, 0), events);
              && Disciplined(p, Node(t, 0, 0), events)
              && n.task.status == WaitingHuman && PublishedLatest(n.task)
              && verdict.Settle? && Enabled(p, n, verdict)
              && Next(n, verdict).task.status == WaitingHuman
              && Next(n, verdict).task.rows == n.task.rows
              && Next(n, verdict).task.runs != []
              && Next(n, verdict).task.Latest().Outcome() == GatesFailed
              && Next(n, verdict).task.Latest().revision.None?
  {
    var n := Node(t, 0, 0);
    NoEvents(p, n);
    var events, done := Attempt(p, n, [], t.repo, 0, 0, 0, [], Some("tree"));
    var validated := After(n, events).task;
    Bindable(t, validated, done, t.repo);
    events := Publish(p, n, events);
    FreshInv(t);
    PublishedHistory(p, n, events);
    var m := After(n, events);
    var read := NewRun(n, t.repo, RunRunning);
    StaleVerdict(p, m, read);
    var verdict := Settle(0, read, RunSucceeded, RED, None);
    hide Disciplined, Enabled, Next, PublishedLatest;
  }

  lemma StaleVerdict(p: Policy, n: Node, read: Run)
    requires |n.task.runs| == 1 && read.IsActive()
    requires read.id == n.task.Latest().id && read.workspace == n.task.Latest().workspace
    ensures
      var verdict := Settle(0, read, RunSucceeded, RED, None);
      var later := Next(n, verdict).task;
      && Enabled(p, n, verdict)
      && later.status == n.task.status && later.rows == n.task.rows && later.runs != []
      && later.Latest().Outcome() == GatesFailed && later.Latest().revision.None?
  {
    RedBlocks();
  }
}
