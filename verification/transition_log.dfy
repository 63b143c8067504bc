// The transitions table replays to the stored status, edge by edge.
module TransitionLog {
  import opened Lifecycle
  import opened Models
  import opened Protocol

  // Follow the history from a status; None when two entries do not join up or an
  // entry is neither an edge of the graph in use nor an audited exception.
  // `stored` selects the graph of the storage adapter, which has three edges more.
  function Replay(stored: bool, from: TaskStatus, log: seq<Edge>): Option<TaskStatus>
    decreases |log|
  {
    if log == [] then Some(from)
    else if log[0].source != from || !Admits(stored, log[0]) then None
    else Replay(stored, log[0].target, log[1..])
  }

  predicate Admits(stored: bool, e: Edge) {
    || (if stored then CanPersist(e.source, e.target) else CanTransition(e.source, e.target))
    || ExceptionalEdge(e.source, e.target)
  }

  lemma {:induction false} ReplayAppend(stored: bool, from: TaskStatus, log: seq<Edge>, e: Edge)
    ensures Replay(stored, from, log + [e]) ==
            (if Replay(stored, from, log) == Some(e.source) && Admits(stored, e)
             then Some(e.target) else None)
    decreases |log|
  {
    if log == [] {
      assert log + [e] == [e];
      assert [e][1..] == [];
    } else {
      assert (log + [e])[1..] == log[1..] + [e];
      ReplayAppend(stored, log[0].target, log[1..], e);
    }
  }

  // The persistence-only edges are deliberately not admitted: no service uses them.
  predicate LogReplays(t: Task) {
    Replay(false, t.initial, t.log) == Some(t.status)
  }

  // An update of the task row that writes back a status the task has left.
  predicate Misstates(n: Node, e: Event) { e.SetReason? && e.held != n.task.status }

  // One step writes the history row that joins the old status to the new one, along
  // an edge in use, or neither row nor status; an update of the row writes no history.
  lemma LogOfStep(p: Policy, n: Node, e: Event)
    requires Enabled(p, n, e)
    ensures
      var t, u := n.task, Next(n, e).task;
      && u.initial == t.initial
      && (|| (u.log == t.log && (u.status == t.status || Misstates(n, e)))
          || (u.log == t.log + [Edge(t.status, u.status)] && Admits(false, Edge(t.status, u.status))))
    ensures e.Claim? ==> Next(n, e).task.log == n.task.log + [Edge(Ready, Claimed)]
  {
  }

  // One step writes at most one history row, the row that joins the old status to the
  // new one, and the log replays to the new status unless an old status was written
  // back.
  lemma StepReplays(p: Policy, n: Node, e: Event)
    requires Enabled(p, n, e) && LogReplays(n.task)
    ensures LogReplays(Next(n, e).task) <==> !Misstates(n, e)
    ensures Next(n, e).task.initial == n.task.initial
    ensures n.task.log <= Next(n, e).task.log
    ensures n.task.status == Done && !Misstates(n, e) ==>
              Next(n, e).task.status == Done && Next(n, e).task.log == n.task.log
  {
    LogOfStep(p, n, e);
    MisstatedStatus(n, e);
    ReplayAppend(false, n.task.initial, n.task.log, Edge(n.task.status, Next(n, e).task.status));
    hide Enabled, Next, Replay;
  }

  lemma MisstatedStatus(n: Node, e: Event)
    ensures Misstates(n, e) ==> Next(n, e).task.status != n.task.status && Next(n, e).task.log == n.task.log
  {
  }

  predicate Misstated(n: Node, events: seq<Event>)
    decreases |events|
  {
    events != [] && (Misstates(n, events[0]) || Misstated(Next(n, events[0]), events[1..]))
  }

  predicate AlwaysReplays(n: Node, events: seq<Event>)
    decreases |events|
  {
    events == []
    || (LogReplays(Next(n, events[0]).task) && AlwaysReplays(Next(n, events[0]), events[1..]))
  }

  // Over every history, under any interleaving and any crash: the log replays to the
  // stored status at every state exactly as long as no update of the task row writes
  // back a status the task has left.
  lemma {:induction false} HistoryReplays(p: Policy, n: Node, events: seq<Event>)
    requires Legal(p, n, events) && LogReplays(n.task)
    ensures AlwaysReplays(n, events) <==> !Misstated(n, events)
    ensures AlwaysReplays(n, events) ==> LogReplays(After(n, events).task)
    decreases |events|
  {
    hide Enabled, Next, Misstates, LogReplays;
    if events != [] {
      StepReplays(p, n, events[0]);
      if !Misstates(n, events[0]) { HistoryReplays(p, Next(n, events[0]), events[1..]); }
    }
  }

  // As long as none does, DONE is absorbing.
  lemma {:induction false} DoneIsFinal(p: Policy, n: Node, events: seq<Event>)
    requires Legal(p, n, events) && LogReplays(n.task) && n.task.status == Done
    requires !Misstated(n, events)
    ensures After(n, events).task.status == Done && After(n, events).task.log == n.task.log
    decreases |events|
  {
    hide Enabled, Next, Misstates, LogReplays;
    if events != [] {
      StepReplays(p, n, events[0]);
      DoneIsFinal(p, Next(n, events[0]), events[1..]);
    }
  }

  // A DONE task leaves DONE by exactly one kind of step.
  lemma DoneLeftExactly(p: Policy, n: Node, e: Event)
    requires Enabled(p, n, e) && n.task.status == Done
    ensures Next(n, e).task.status != Done <==> Misstates(n, e)
  {
    LogOfStep(p, n, e);
    MisstatedStatus(n, e);
    hide Enabled, Next, Misstates;
  }

  // A task is cancelled and its reason is about to be recorded; another process resolves
  // it to DONE on the provider's evidence; the reason is then written with the row as it
  // was. The task is CANCELLED after it was DONE.
  lemma LateReasonLeavesDone(p: Policy, t: Task, reason: Option<Reason>)
    requires CanTransition(t.status, Cancelled)
    ensures
      var late := SetReason(reason, Cancelled);
      && Legal(p, Node(t, 0, 0), [Leave(Cancelled), ResolveTerminal, late])
      && Next(Next(Node(t, 0, 0), Leave(Cancelled)), ResolveTerminal).task.status == Done
      && After(Node(t, 0, 0), [Leave(Cancelled), ResolveTerminal, late]).task.status == Cancelled
  {
    var n, late := Node(t, 0, 0), SetReason(reason, Cancelled);
    ResolvedThenRewritten(p, t, reason);
    hide Enabled, Next;
    ThreeSteps(p, n, Leave(Cancelled), ResolveTerminal, late);
  }

  lemma ResolvedThenRewritten(p: Policy, t: Task, reason: Option<Reason>)
    requires CanTransition(t.status, Cancelled)
    ensures
      var cancelled := t.MovedTo(Cancelled);
      var done := cancelled.MovedTo(Done);
      var late := SetReason(reason, Cancelled);
      && Enabled(p, Node(t, 0, 0), Leave(Cancelled))
      && Next(Node(t, 0, 0), Leave(Cancelled)) == Node(cancelled, 0, 0)
      && Enabled(p, Node(cancelled, 0, 0), ResolveTerminal)
      && Next(Node(cancelled, 0, 0), ResolveTerminal) == Node(done, 0, 0)
      && Enabled(p, Node(done, 0, 0), late)
      && Next(Node(done, 0, 0), late) == Node(done.(reason := reason, status := Cancelled), 0, 0)
  {
    var done := t.MovedTo(Cancelled).MovedTo(Done);
    assert done.log[|t.log|] == Edge(t.status, Cancelled) && done.log[|t.log|] in done.log;
  }

  // Old entries are never altered.
  lemma {:induction false} LogOnlyGrows(p: Policy, n: Node, events: seq<Event>)
    requires Legal(p, n, events)
    ensures n.task.log <= After(n, events).task.log
    decreases |events|
  {
    hide Enabled, Next;
    if events != [] {
      LogOfStep(p, n, events[0]);
      LogOnlyGrows(p, Next(n, events[0]), events[1..]);
    }
  }

  // A dispatch that cannot build its context blocks the task and is about to record
  // the reason; an operator retries the task at once; the reason is then written with
  // the whole row as it was when the task was blocked. The stored status is BLOCKED
  // again, and the history says READY.
  lemma LateReasonBreaksLog(p: Policy, t: Task)
    requires p.Valid() && Fresh(t) && t.status == Ready
    ensures
      var released := t.MovedTo(Blocked);
      var events := [Leave(Blocked), RetryReady(released), SetReason(Some(ContextUnavailable), Blocked)];
      var later := After(Node(t, 0, 0), events).task;
      && Legal(p, Node(t, 0, 0), events)
      && later.status == Blocked
      && Replay(false, later.initial, later.log) == Some(Ready)
  {
    var n, released := Node(t, 0, 0), t.MovedTo(Blocked);
    var reason := SetReason(Some(ContextUnavailable), Blocked);
    var ready := released.MovedTo(Ready);
    LateReasonSteps(p, t);
    hide Enabled, Next;
    ThreeSteps(p, n, Leave(Blocked), RetryReady(released), reason);
    ReplayAppend(false, t.initial, [], Edge(Ready, Blocked));
    ReplayAppend(false, t.initial, [] + [Edge(Ready, Blocked)], Edge(Blocked, Ready));
  }

  lemma LateReasonSteps(p: Policy, t: Task)
    requires p.Valid() && Fresh(t) && t.status == Ready
    ensures
      var released := t.MovedTo(Blocked);
      var ready := released.MovedTo(Ready);
      var reason := SetReason(Some(ContextUnavailable), Blocked);
      && Enabled(p, Node(t, 0, 0), Leave(Blocked))
      && Next(Node(t, 0, 0), Leave(Blocked)) == Node(released, 0, 0)
      && Enabled(p, Node(released, 0, 0), RetryReady(released))
      && Next(Node(released, 0, 0), RetryReady(released)) == Node(ready, 0, 0)
      && Enabled(p, Node(ready, 0, 0), reason)
      && Next(Node(ready, 0, 0), reason)
         == Node(ready.(reason := Some(ContextUnavailable), status := Blocked), 0, 0)
  {
    var ready := t.MovedTo(Blocked).MovedTo(Ready);
    assert ready.log[0] == Edge(Ready, Blocked) && ready.log[0] in ready.log;
  }

  // Entries into a status; with Claimed, the committed claims of a task.
  function Entries(log: seq<Edge>, target: TaskStatus): nat {
    if log == [] then 0
    else Entries(log[..|log| - 1], target) + if log[|log| - 1].target == target then 1 else 0
  }

  lemma EntriesAppend(log: seq<Edge>, e: Edge, target: TaskStatus)
    ensures Entries(log + [e], target) ==
            Entries(log, target) + if e.target == target then 1 else 0
  {
    assert (log + [e])[..|log|] == log;
  }
}
