// Many tasks, many processes: the guards that look across tasks.
module World {
  import opened Lifecycle
  import opened Models
  import opened Protocol
  import opened TransitionLog

  type Tasks = map<nat, Node>

  // One committed step anywhere in the store. A claim carries the claim capacity
  // of the repository instance that issues it.
  datatype Act =
    | Intake(id: nat, task: Task)
    | Do(id: nat, event: Event, cap: nat)

  predicate IsBusy(n: Node) { BusyStatus(n.task.status) || n.task.HasActiveRun() }

  function Busy(w: Tasks): set<nat> { set id | id in w && IsBusy(w[id]) }

  predicate UsesWorkspace(t: Task, ws: nat) {
    exists r :: r in t.runs && r.workspace.Some? && r.workspace.value.id == ws
  }

  predicate WorkspaceFree(w: Tasks, id: nat, r: Run) {
    r.workspace.Some? ==>
      forall other :: other in w && other != id ==> !UsesWorkspace(w[other].task, r.workspace.value.id)
  }

  predicate BranchFree(w: Tasks, id: nat, repo: string, head: string) {
    forall other :: other in w && other != id ==>
      forall q :: q in w[other].task.rows ==> !(q.repo == repo && q.head == head)
  }

  // The guards of one transaction that read beyond its own task: the claim
  // capacity, the owner of a workspace, the unique head branch of a pull request
  // row, and "no active run anywhere" of a terminal recovery.
  predicate CrossGuard(w: Tasks, id: nat, e: Event, cap: nat) {
    match e
    case Claim => |Busy(w) - {id}| < cap
    case SaveRun(r) => WorkspaceFree(w, id, r)
    case BindRow(_, _, _) =>
      id in w && w[id].task.runs != [] && w[id].task.Latest().workspace.Some?
      && BranchFree(w, id, w[id].task.Latest().workspace.value.repo,
                    w[id].task.Latest().workspace.value.branch)
    case RecoverTerminal(_) => forall other :: other in w ==> !w[other].task.HasActiveRun()
    case _ => true
  }

  predicate CanDo(p: Policy, w: Tasks, a: Act) {
    match a
    case Intake(id, t) => id !in w && Fresh(t)
    case Do(id, e, cap) => id in w && Enabled(p, w[id], e) && CrossGuard(w, id, e, cap)
  }

  function Apply(w: Tasks, a: Act): Tasks {
    match a
    case Intake(id, t) => w[id := Node(t, 0, 0)]
    case Do(id, e, _) => if id in w then w[id := Next(w[id], e)] else w
  }

  predicate Lawful(p: Policy, w: Tasks, acts: seq<Act>)
    decreases |acts|
  {
    acts == [] || (CanDo(p, w, acts[0]) && Lawful(p, Apply(w, acts[0]), acts[1..]))
  }

  function Outcome(w: Tasks, acts: seq<Act>): Tasks
    decreases |acts|
  {
    if acts == [] then w else Outcome(Apply(w, acts[0]), acts[1..])
  }

  // -- every task runs the task protocol ------------------------------------

  function EventsOf(acts: seq<Act>, id: nat): seq<Event> {
    if acts == [] then []
    else if acts[0].Do? && acts[0].id == id then [acts[0].event] + EventsOf(acts[1..], id)
    else EventsOf(acts[1..], id)
  }

  // Whatever the other tasks do in between, each task goes through a legal
  // history of its own, so every theorem about task histories holds here.
  lemma {:induction false} TaskHistory(p: Policy, w: Tasks, acts: seq<Act>, id: nat)
    requires Lawful(p, w, acts) && id in w
    ensures id in Outcome(w, acts)
    ensures Legal(p, w[id], EventsOf(acts, id))
    ensures Outcome(w, acts)[id] == After(w[id], EventsOf(acts, id))
    decreases |acts|
  {
    if acts != [] {
      TaskHistory(p, Apply(w, acts[0]), acts[1..], id);
      if acts[0].Do? && acts[0].id == id {
        assert EventsOf(acts, id)[1..] == EventsOf(acts[1..], id);
      }
    }
  }

  // -- isolation -------------------------------------------------------------

  ghost predicate OneActive(t: Task) {
    forall i, j :: 0 <= i < j < |t.runs| ==> t.runs[i].IsTerminal() || t.runs[j].IsTerminal()
  }

  // Runs saved, plus dispatchers about to save one, against committed claims.
  predicate RunsClaimed(n: Node) {
    |n.task.runs| + n.claimants <= Entries(n.task.log, Claimed)
  }

  lemma StepOneActive(p: Policy, n: Node, e: Event)
    requires Enabled(p, n, e) && OneActive(n.task)
    ensures OneActive(Next(n, e).task)
  {
    RunsAfterStep(p, n, e);
    if e.SaveRun? {
      assert forall i :: 0 <= i < |n.task.runs| ==> n.task.runs[i] in n.task.runs;
      assert e.run.IsActive() ==> !n.task.HasActiveRun();
    }
    hide Enabled, Next;
  }

  lemma StepRunsClaimed(p: Policy, n: Node, e: Event)
    requires Enabled(p, n, e) && RunsClaimed(n)
    ensures RunsClaimed(Next(n, e))
  {
    LogOfStep(p, n, e);
    EntriesAppend(n.task.log, Edge(n.task.status, Next(n, e).task.status), Claimed);
    assert |Next(n, e).task.runs| + Next(n, e).claimants
        <= |n.task.runs| + n.claimants + if e.Claim? then 1 else 0;
  }

  // Under any interleaving of dispatchers, retries and crashes, serial or not: a
  // task has at most one active run and never more runs than recorded claims.
  lemma {:induction false} DispatchRace(p: Policy, n: Node, events: seq<Event>)
    requires Legal(p, n, events) && OneActive(n.task) && RunsClaimed(n)
    ensures OneActive(After(n, events).task)
    ensures RunsClaimed(After(n, events))
    ensures |After(n, events).task.runs| <= Entries(After(n, events).task.log, Claimed)
    decreases |events|
  {
    if events != [] {
      StepOneActive(p, n, events[0]);
      StepRunsClaimed(p, n, events[0]);
      DispatchRace(p, Next(n, events[0]), events[1..]);
    }
  }

  // No workspace is shared between two tasks, no head branch between the pull
  // request rows of two tasks, and no task has two active runs; so a workspace
  // never has two active runs.
  ghost predicate Isolated(w: Tasks) {
    && (forall id :: id in w ==> OneActive(w[id].task))
    && (forall id, other :: id in w && other in w && id != other ==>
          Apart(w[id].task, w[other].task))
  }

  ghost predicate Apart(t: Task, u: Task) {
    && (forall ws :: UsesWorkspace(t, ws) ==> !UsesWorkspace(u, ws))
    && (forall q, s :: q in t.rows && s in u.rows ==> !(q.repo == s.repo && q.head == s.head))
  }

  // A step reuses the workspaces its task already has, or takes a new run's.
  lemma WorkspacesOfStep(p: Policy, n: Node, e: Event, ws: nat)
    requires Enabled(p, n, e) && UsesWorkspace(Next(n, e).task, ws)
    ensures UsesWorkspace(n.task, ws)
         || (e.SaveRun? && e.run.workspace.Some? && e.run.workspace.value.id == ws)
  {
    RunIdentity(p, n, e);
    hide Enabled, Next;
    var u := Next(n, e).task;
    var r :| r in u.runs && r.workspace.Some? && r.workspace.value.id == ws;
    var i :| 0 <= i < |u.runs| && u.runs[i] == r;
    if i < |n.task.runs| { assert n.task.runs[i].workspace == r.workspace; }
  }

  lemma RowsOfStep(p: Policy, n: Node, e: Event, q: PrRow)
    requires Enabled(p, n, e) && q in Next(n, e).task.rows
    ensures (exists s :: s in n.task.rows && s.repo == q.repo && s.head == q.head)
         || (e.BindRow? && q.repo == n.task.Latest().workspace.value.repo
             && q.head == n.task.Latest().workspace.value.branch)
  {
    RowsAfterStep(p, n, e);
    var t := n.task;
    if e.BindRow? {
      assert t.runs != [] && t.Latest().workspace.Some?;
    }
    hide Enabled, Next;
    var rows := Next(n, e).task.rows;
    var i :| 0 <= i < |rows| && rows[i] == q;
    if i < |n.task.rows| { assert n.task.rows[i] in n.task.rows; }
  }

  lemma StaysApart(p: Policy, w: Tasks, a: Act, other: nat)
    requires a.Do? && CanDo(p, w, a) && other in w && other != a.id
    requires Apart(w[a.id].task, w[other].task)
    ensures Apart(Next(w[a.id], a.event).task, w[other].task)
  {
    var n, m, u := w[a.id], Next(w[a.id], a.event), w[other].task;
    forall ws | UsesWorkspace(m.task, ws)
      ensures !UsesWorkspace(u, ws)
    {
      WorkspacesOfStep(p, n, a.event, ws);
    }
    forall q, s | q in m.task.rows && s in u.rows
      ensures !(q.repo == s.repo && q.head == s.head)
    {
      RowsOfStep(p, n, a.event, q);
    }
  }

  lemma ActKeepsIsolation(p: Policy, w: Tasks, a: Act)
    requires CanDo(p, w, a) && Isolated(w)
    ensures Isolated(Apply(w, a))
  {
    var v := Apply(w, a);
    if a.Do? { StepOneActive(p, w[a.id], a.event); }
    forall id, other | id in v && other in v && id != other
      ensures Apart(v[id].task, v[other].task)
    {
      if a.Do? && id == a.id { StaysApart(p, w, a, other); }
      if a.Do? && other == a.id { StaysApart(p, w, a, id); }
    }
  }

  lemma {:induction false} IsolationHistory(p: Policy, w: Tasks, acts: seq<Act>)
    requires Lawful(p, w, acts) && Isolated(w)
    ensures Isolated(Outcome(w, acts))
    decreases |acts|
  {
    if acts != [] {
      ActKeepsIsolation(p, w, acts[0]);
      IsolationHistory(p, Apply(w, acts[0]), acts[1..]);
    }
  }

  // -- work in progress -------------------------------------------------------

  // The ways a task becomes busy without passing the claim guard: BLOCKED -> VALIDATING,
  // by a publication retry, a security override or the refresh of a blocked task; a
  // dispatcher that saves an active run for a task that has left CLAIMED in the
  // meantime; and an update, decided on an old read, that makes a finished run active.
  predicate Unguarded(w: Tasks, a: Act) {
    a.Do? && a.id in w && EntersUnguarded(w[a.id], a.event)
  }

  predicate EntersUnguarded(n: Node, e: Event) {
    || (n.task.status == Blocked && (e.RetryPublication? || e.Override? || e.Validate?))
    || (!IsBusy(n) && e.SaveRun? && e.run.IsActive())
    || (!IsBusy(n) && e.Settle? && !Finished(e.status))
  }

  function UnguardedCount(w: Tasks, acts: seq<Act>): nat
    decreases |acts|
  {
    if acts == [] then 0
    else (if Unguarded(w, acts[0]) then 1 else 0)
         + UnguardedCount(Apply(w, acts[0]), acts[1..])
  }

  predicate CapsWithin(acts: seq<Act>, limit: nat) {
    forall a :: a in acts && a.Do? ==> a.cap <= limit
  }

  // A task that was idle before a step and is busy after it entered by a claim
  // or unguarded.
  lemma EntersBusy(p: Policy, n: Node, e: Event)
    requires Enabled(p, n, e) && !IsBusy(n) && IsBusy(Next(n, e))
    ensures e.Claim? || EntersUnguarded(n, e)
  {
    if BusyStatus(Next(n, e).task.status) {
      EntersBusyStatus(p, n, e);
    } else {
      GainsActiveRun(p, n, e);
    }
    hide Enabled, Next;
  }

  lemma EntersBusyStatus(p: Policy, n: Node, e: Event)
    requires Enabled(p, n, e) && !BusyStatus(n.task.status) && BusyStatus(Next(n, e).task.status)
    ensures e.Claim? || EntersUnguarded(n, e)
  {
  }

  lemma GainsActiveRun(p: Policy, n: Node, e: Event)
    requires Enabled(p, n, e) && !n.task.HasActiveRun() && Next(n, e).task.HasActiveRun()
    ensures e.SaveRun? || (e.Settle? && !Finished(e.status))
    ensures e.SaveRun? ==> e.run.IsActive()
  {
    var t, u := n.task, Next(n, e).task;
    RunsAfterStep(p, n, e);
    hide Enabled, Next;
    var r :| r in u.runs && r.IsActive();
    var i :| 0 <= i < |u.runs| && u.runs[i] == r;
    if i < |t.runs| { assert t.runs[i] in t.runs; }
  }

  lemma BusyElsewhere(w: Tasks, a: Act, id: nat)
    requires id != a.id
    ensures id in Busy(Apply(w, a)) <==> id in Busy(w)
  {
  }

  lemma BusyStep(p: Policy, w: Tasks, a: Act, limit: nat, extra: nat)
    requires CanDo(p, w, a) && (a.Do? ==> a.cap <= limit)
    requires |Busy(w)| <= limit + extra
    ensures |Busy(Apply(w, a))| <= limit + extra + if Unguarded(w, a) then 1 else 0
  {
    var before, later := Busy(w), Busy(Apply(w, a));
    forall id | id in later && id != a.id
      ensures id in before
    {
      BusyElsewhere(w, a, id);
    }
    if a.id in before || a.id !in later {
      Smaller(later, before);
    } else {
      ActEntersBusy(p, w, a);
      assert later <= (before - {a.id}) + {a.id};
      Smaller(later, (before - {a.id}) + {a.id});
      Smaller(before - {a.id}, before);
    }
  }

  lemma ActEntersBusy(p: Policy, w: Tasks, a: Act)
    requires CanDo(p, w, a) && a.id !in Busy(w) && a.id in Busy(Apply(w, a))
    ensures a.Do? && (a.event.Claim? || Unguarded(w, a))
  {
    if a.Do? { EntersBusy(p, w[a.id], a.event); }
  }

  lemma Smaller(a: set<nat>, b: set<nat>)
    requires a <= b
    ensures |a| <= |b|
  {
    assert b == a + (b - a);
  }

  // Over every interleaving, with claim capacities of at most `limit`: the tasks
  // that are busy or hold an active run never outnumber `limit` by more than the
  // unguarded entries.
  lemma {:induction false} WorkInProgressBounded(p: Policy, w: Tasks, acts: seq<Act>, limit: nat,
                                                 extra: nat)
    requires Lawful(p, w, acts) && CapsWithin(acts, limit) && |Busy(w)| <= limit + extra
    ensures |Busy(Outcome(w, acts))| <= limit + extra + UnguardedCount(w, acts)
    decreases |acts|
  {
    if acts != [] {
      var more := if Unguarded(w, acts[0]) then 1 else 0;
      assert acts[0] in acts;
      assert forall a :: a in acts[1..] ==> a in acts;
      BusyStep(p, w, acts[0], limit, extra);
      WorkInProgressBounded(p, Apply(w, acts[0]), acts[1..], limit, extra + more);
    }
  }

  lemma {:induction false} LawfulAppend(p: Policy, w: Tasks, acts: seq<Act>, a: Act)
    requires Lawful(p, w, acts) && CanDo(p, Outcome(w, acts), a)
    ensures Lawful(p, w, acts + [a])
    ensures Outcome(w, acts + [a]) == Apply(Outcome(w, acts), a)
    ensures UnguardedCount(w, acts + [a]) ==
            UnguardedCount(w, acts) + if Unguarded(Outcome(w, acts), a) then 1 else 0
    decreases |acts|
  {
    if acts == [] {
      assert acts + [a] == [a] && [a][1..] == [];
    } else {
      assert (acts + [a])[1..] == acts[1..] + [a];
      LawfulAppend(p, Apply(w, acts[0]), acts[1..], a);
    }
  }

  // The claim guard alone does not bound work in progress: a task blocked while
  // its dispatcher is between claim and save frees its slot, another task is
  // claimed, and then the first dispatcher saves its run. Two tasks are busy at
  // capacity one, although no blocked task went back to VALIDATING.
  lemma LateSaveExceedsCapacity(p: Policy, first: Task, second: Task)
    requires Fresh(first) && Fresh(second) && first.status == Ready && second.status == Ready
    ensures exists acts: seq<Act> ::
              && Lawful(p, Pair(Node(first, 0, 0), Node(second, 0, 0)), acts)
              && CapsWithin(acts, 1)
              && (forall a :: a in acts && a.Do? ==>
                    !a.event.RetryPublication? && !a.event.Override? && !a.event.Validate? && !a.event.Settle?)
              && |Busy(Outcome(Pair(Node(first, 0, 0), Node(second, 0, 0)), acts))| == 2
  {
    var n0, n1 := Node(first, 0, 0), Node(second, 0, 0);
    var run := Run(7, RunRunning, None, [], None);
    LateSaver(p, n0, run);
    LateSaver(p, n1, run);
    var acts := LateSavePair(p, n0, n1, run);
    assert |Busy(Outcome(Pair(n0, n1), acts))| == 2;
  }

  // The four steps on a pair of tasks, both idle and claimable.
  lemma LateSavePair(p: Policy, n0: Node, n1: Node, run: Run) returns (acts: seq<Act>)
    requires LateSaves(p, n0, run) && LateSaves(p, n1, run)
    ensures acts == [Do(0, Claim, 1), Do(0, Leave(Blocked), 1), Do(1, Claim, 1), Do(0, SaveRun(run), 1)]
    ensures Lawful(p, Pair(n0, n1), acts)
    ensures Busy(Outcome(Pair(n0, n1), acts)) == {0, 1}
  {
    var a0, a1 := Do(0, Claim, 1), Do(0, Leave(Blocked), 1);
    var a2, a3 := Do(1, Claim, 1), Do(0, SaveRun(run), 1);
    var c0 := Next(n0, Claim);
    var b0 := Next(c0, Leave(Blocked));
    var c1 := Next(n1, Claim);
    BusyPair(n0, n1);
    BusyPair(b0, n1);
    OnFirst(p, n0, n1, Claim);
    OnFirst(p, c0, n1, Leave(Blocked));
    OnSecond(p, b0, n1, Claim);
    OnFirst(p, b0, c1, SaveRun(run));
    var s0 := Next(b0, SaveRun(run));
    BusyPair(s0, c1);
    FourActs(p, Pair(n0, n1), Pair(c0, n1), Pair(b0, n1), Pair(b0, c1), Pair(s0, c1),
             a0, a1, a2, a3);
    acts := [a0, a1, a2, a3];
  }

  lemma OnFirst(p: Policy, a: Node, b: Node, e: Event)
    requires Enabled(p, a, e) && (e.Claim? ==> !IsBusy(b)) && !e.BindRow? && !e.RecoverTerminal?
    requires e.SaveRun? ==> e.run.workspace.None?
    ensures CanDo(p, Pair(a, b), Do(0, e, 1))
    ensures Apply(Pair(a, b), Do(0, e, 1)) == Pair(Next(a, e), b)
  {
    BusyPair(a, b);
  }

  lemma OnSecond(p: Policy, a: Node, b: Node, e: Event)
    requires e.Claim? && Enabled(p, b, e) && !IsBusy(a)
    ensures CanDo(p, Pair(a, b), Do(1, e, 1))
    ensures Apply(Pair(a, b), Do(1, e, 1)) == Pair(a, Next(b, e))
  {
    BusyPair(a, b);
  }

  // Claimed, blocked under its dispatcher, and then saved all the same.
  ghost predicate LateSaves(p: Policy, n: Node, r: Run) {
    var c := Next(n, Claim);
    var b := Next(c, Leave(Blocked));
    && r.workspace.None?
    && !IsBusy(n) && Enabled(p, n, Claim) && IsBusy(c)
    && Enabled(p, c, Leave(Blocked))
    && !IsBusy(b) && Enabled(p, b, SaveRun(r))
    && IsBusy(Next(b, SaveRun(r)))
  }

  lemma FourActs(p: Policy, w0: Tasks, w1: Tasks, w2: Tasks, w3: Tasks, w4: Tasks,
                 a0: Act, a1: Act, a2: Act, a3: Act)
    requires CanDo(p, w0, a0) && Apply(w0, a0) == w1
    requires CanDo(p, w1, a1) && Apply(w1, a1) == w2
    requires CanDo(p, w2, a2) && Apply(w2, a2) == w3
    requires CanDo(p, w3, a3) && Apply(w3, a3) == w4
    ensures Lawful(p, w0, [a0, a1, a2, a3])
    ensures Outcome(w0, [a0, a1, a2, a3]) == w4
  {
    LawfulAppend(p, w0, [], a0);
    LawfulAppend(p, w0, [] + [a0], a1);
    LawfulAppend(p, w0, [] + [a0] + [a1], a2);
    LawfulAppend(p, w0, [] + [a0] + [a1] + [a2], a3);
    assert [] + [a0] + [a1] + [a2] + [a3] == [a0, a1, a2, a3];
  }

  function Pair(a: Node, b: Node): Tasks { map[0 := a, 1 := b] }

  lemma BusyPair(a: Node, b: Node)
    ensures Busy(Pair(a, b)) - {0} == if IsBusy(b) then {1} else {}
    ensures Busy(Pair(a, b)) - {1} == if IsBusy(a) then {0} else {}
    ensures IsBusy(a) && IsBusy(b) ==> Busy(Pair(a, b)) == {0, 1}
  {
  }

  lemma LateSaver(p: Policy, n: Node, r: Run)
    requires Fresh(n.task) && n.task.status == Ready && n.claimants == 0
    requires r.IsActive() && r.revision.None? && r.workspace.None?
    ensures LateSaves(p, n, r)
  {
    assert r in Next(Next(Next(n, Claim), Leave(Blocked)), SaveRun(r)).task.runs;
  }
}
