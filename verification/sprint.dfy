// An authorized sprint: an ordered list of work items and a position in it
// (src/factory/orchestration/sprint.py, infrastructure/persistence/sprint_sqlite.py).
module Sprint {
  import opened Lifecycle
  import opened Models
  import B = Backlog

  datatype SprintState = Active | Stopped | Withdrawn | Complete // ACTIVE, PAUSED, CANCELLED, COMPLETE

  datatype Step = Step(item: B.Item, dependencies: seq<string>)

  datatype Row = Row(state: SprintState, position: nat)

  datatype MoveEvent =
    | WorkItemSelected | SprintPaused | SprintResumed | SprintCancelled
    | SprintAdvanced | SprintCompleted

  // SqliteSprintRepository.move: each event's own source state, target state and
  // position, checked against the row that its SELECT has returned.
  function Move(row: Row, state: SprintState, position: nat, event: MoveEvent): Option<Row> {
    var valid :=
      match event
      case WorkItemSelected => row.state == Active && state == Active && position == row.position
      case SprintPaused => row.state == Active && state == Stopped && position == row.position
      case SprintResumed => row.state == Stopped && state == Active && position == row.position
      case SprintCancelled =>
        row.state in {Active, Stopped} && state == Withdrawn && position == row.position
      case SprintAdvanced => row.state == Active && state == Active && position == row.position + 1
      case SprintCompleted => row.state == Active && state == Complete && position == row.position + 1;
    if valid then Some(Row(state, position)) else None
  }

  // The same as a list: from where to where, by how many steps, under which event.
  lemma MovesListed(row: Row, state: SprintState, position: nat, event: MoveEvent)
    ensures Move(row, state, position, event).Some? <==>
              (row.state, state, position - row.position, event) in {
                (Active, Active, 0, WorkItemSelected), (Active, Active, 1, SprintAdvanced),
                (Active, Complete, 1, SprintCompleted), (Active, Stopped, 0, SprintPaused),
                (Active, Withdrawn, 0, SprintCancelled), (Stopped, Withdrawn, 0, SprintCancelled),
                (Stopped, Active, 0, SprintResumed)}
    ensures Move(row, state, position, event).Some? ==>
              Move(row, state, position, event).value == Row(state, position)
  {
  }

  // What the other tables say: issue links, the task made from each issue, and the
  // tasks with a durable delivery record.
  datatype Facts = Facts(
    links: B.Links,
    tasks: map<(string, int), (nat, TaskStatus)>,
    delivered: set<nat>)

  function TaskFor(f: Facts, item: B.Item): Option<(nat, TaskStatus)> {
    if item.Key() in f.links && f.links[item.Key()].state.Materialized? then
      var at := (f.links[item.Key()].repo, f.links[item.Key()].state.issue.number);
      if at in f.tasks then Some(f.tasks[at]) else None
    else None
  }

  predicate Linked(f: Facts, item: B.Item) {
    item.Key() in f.links && f.links[item.Key()].state.Materialized?
  }

  // An immutable issue link to a DONE task, with its delivery record where such
  // records are configured.
  predicate StepDone(f: Facts, item: B.Item, feedback: bool) {
    var t := TaskFor(f, item);
    t.Some? && t.value.1 == Done && (feedback ==> t.value.0 in f.delivered)
  }

  predicate TaskDone(f: Facts, item: B.Item) {
    TaskFor(f, item).Some? && TaskFor(f, item).value.1 == Done
  }

  // Links are written once and delivery records are append-only (modules Backlog and
  // Audit), and a task made from an issue stays that task. Its status may be anything:
  // DONE is left again when an update of the task row writes an old status back
  // (TransitionLog.DoneLeftExactly), and never otherwise.
  ghost predicate Follows(before: Facts, later: Facts) {
    && B.Advanced(before.links, later.links)
    && before.delivered <= later.delivered
    && (forall at :: at in before.tasks ==>
          at in later.tasks && later.tasks[at].0 == before.tasks[at].0)
  }

  lemma FollowsChain(a: Facts, b: Facts, c: Facts)
    requires Follows(a, b) && Follows(b, c)
    ensures Follows(a, c)
  {
  }

  // All that a finished step can lose is the DONE of its task.
  lemma OnlyDoneIsLost(before: Facts, later: Facts, item: B.Item, feedback: bool)
    requires Follows(before, later) && StepDone(before, item, feedback)
    ensures StepDone(later, item, feedback) <==> TaskDone(later, item)
  {
  }

  // -- any number of callers ---------------------------------------------------------

  // Every write to the sprint row. `move` reads the row before its write transaction
  // begins and then updates it by its id alone, so that the row it checks may be any
  // earlier one. An advance was decided by a caller that has seen the step before the
  // new position done, in the tables as they were at some earlier time.
  datatype Act =
    | Change(later: Facts)
    | Commit(read: Row, state: SprintState, position: nat, event: MoveEvent, seen: Facts)

  // The stored row and tables, with every row and every state of the tables there ever
  // was.
  datatype Board = Board(row: Row, facts: Facts, past: set<Row>, known: set<Facts>)

  predicate Advances(event: MoveEvent) { event in {SprintAdvanced, SprintCompleted} }

  ghost predicate CanAct(steps: seq<Step>, feedback: bool, b: Board, a: Act) {
    match a
    case Change(later) => Follows(b.facts, later)
    case Commit(read, state, position, event, seen) =>
      && read in b.past
      && Move(read, state, position, event).Some?
      && (Advances(event) ==>
            && 0 < position <= |steps|
            && (event == SprintCompleted <==> position == |steps|)
            && seen in b.known
            && StepDone(seen, steps[position - 1].item, feedback))
  }

  function Acted(b: Board, a: Act): Board {
    match a
    case Change(later) => b.(facts := later, known := b.known + {later})
    case Commit(_, state, position, _, _) =>
      b.(row := Row(state, position), past := b.past + {Row(state, position)})
  }

  ghost predicate Lawful(steps: seq<Step>, feedback: bool, b: Board, acts: seq<Act>)
    decreases |acts|
  {
    acts == []
    || (CanAct(steps, feedback, b, acts[0]) && Lawful(steps, feedback, Acted(b, acts[0]), acts[1..]))
  }

  function AllActed(b: Board, acts: seq<Act>): Board
    decreases |acts|
  {
    if acts == [] then b else AllActed(Acted(b, acts[0]), acts[1..])
  }

  // -- what every reachable row keeps ---------------------------------------------------

  predicate InBounds(steps: seq<Step>, r: Row) {
    r.position <= |steps| && (r.state == Complete <==> r.position == |steps|)
  }

  // Some earlier state of the tables showed the step done.
  ghost predicate WasDone(feedback: bool, known: set<Facts>, item: B.Item) {
    exists f :: f in known && StepDone(f, item, feedback)
  }

  ghost predicate PrefixWasDone(steps: seq<Step>, feedback: bool, known: set<Facts>, position: nat) {
    position <= |steps| && forall i :: 0 <= i < position ==> WasDone(feedback, known, steps[i].item)
  }

  ghost predicate Inv(steps: seq<Step>, feedback: bool, b: Board) {
    && b.row in b.past && b.facts in b.known
    && (forall f :: f in b.known ==> Follows(f, b.facts))
    && (forall r :: r in b.past ==>
          InBounds(steps, r) && PrefixWasDone(steps, feedback, b.known, r.position))
  }

  lemma ChangeKeepsInv(steps: seq<Step>, feedback: bool, b: Board, later: Facts)
    requires Follows(b.facts, later) && Inv(steps, feedback, b)
    ensures Inv(steps, feedback, Acted(b, Change(later)))
  {
    var known := b.known + {later};
    SameFacts(later);
    forall f | f in b.known
      ensures Follows(f, later)
    {
      FollowsChain(f, b.facts, later);
    }
    forall r, i | r in b.past && 0 <= i < r.position
      ensures WasDone(feedback, known, steps[i].item)
    {
      assert WasDone(feedback, b.known, steps[i].item);
    }
  }

  lemma CommitKeepsInv(steps: seq<Step>, feedback: bool, b: Board, a: Act)
    requires a.Commit? && CanAct(steps, feedback, b, a) && Inv(steps, feedback, b)
    ensures Inv(steps, feedback, Acted(b, a))
  {
    hide Follows, StepDone;
    assert InBounds(steps, a.read) && PrefixWasDone(steps, feedback, b.known, a.read.position);
    if Advances(a.event) { assert WasDone(feedback, b.known, steps[a.position - 1].item); }
    assert PrefixWasDone(steps, feedback, b.known, a.position);
  }

  lemma ActKeepsInv(steps: seq<Step>, feedback: bool, b: Board, a: Act)
    requires CanAct(steps, feedback, b, a) && Inv(steps, feedback, b)
    ensures Inv(steps, feedback, Acted(b, a))
  {
    hide Inv, Follows;
    match a
    case Change(later) => ChangeKeepsInv(steps, feedback, b, later);
    case Commit(_, _, _, _, _) => CommitKeepsInv(steps, feedback, b, a);
  }

  // In every reachable state, under any interleaving of callers that have read the row
  // or the tables long ago: the position stays within the steps, the sprint is COMPLETE
  // exactly when it equals the number of steps, and every step before it was seen with
  // an immutable link to a DONE, delivered task. Today it lacks nothing but, perhaps,
  // that DONE.
  lemma {:induction false} PrefixHistory(steps: seq<Step>, feedback: bool, b: Board, acts: seq<Act>)
    requires Lawful(steps, feedback, b, acts) && Inv(steps, feedback, b)
    ensures Inv(steps, feedback, AllActed(b, acts))
    ensures
      var later := AllActed(b, acts);
      && InBounds(steps, later.row)
      && forall i :: 0 <= i < later.row.position ==>
           (StepDone(later.facts, steps[i].item, feedback) <==> TaskDone(later.facts, steps[i].item))
    decreases |acts|
  {
    hide CanAct, Acted, InBounds, Follows;
    if acts == [] {
      PassedLacksOnlyDone(steps, feedback, b, b.row.position);
    } else {
      ActKeepsInv(steps, feedback, b, acts[0]);
      PrefixHistory(steps, feedback, Acted(b, acts[0]), acts[1..]);
    }
  }

  lemma PassedLacksOnlyDone(steps: seq<Step>, feedback: bool, b: Board, position: nat)
    requires Inv(steps, feedback, b) && PrefixWasDone(steps, feedback, b.known, position)
    ensures forall i :: 0 <= i < position ==>
              (StepDone(b.facts, steps[i].item, feedback) <==> TaskDone(b.facts, steps[i].item))
  {
    forall i | 0 <= i < position
      ensures StepDone(b.facts, steps[i].item, feedback) <==> TaskDone(b.facts, steps[i].item)
    {
      assert WasDone(feedback, b.known, steps[i].item);
      var f :| f in b.known && StepDone(f, steps[i].item, feedback);
      OnlyDoneIsLost(f, b.facts, steps[i].item, feedback);
    }
  }

  // -- when every passed step is done --------------------------------------------------

  predicate PrefixDone(steps: seq<Step>, feedback: bool, f: Facts, position: nat) {
    position <= |steps| && forall i :: 0 <= i < position ==> StepDone(f, steps[i].item, feedback)
  }

  // A change that takes the DONE of a preceding step back; and a move past a step whose
  // DONE has been taken back since its caller has looked.
  predicate Unfinishes(steps: seq<Step>, b: Board, a: Act) {
    match a
    case Change(later) =>
      exists i :: 0 <= i < b.row.position && i < |steps|
                  && TaskDone(b.facts, steps[i].item) && !TaskDone(later, steps[i].item)
    case Commit(_, _, position, _, _) =>
      exists i :: b.row.position <= i < position && i < |steps| && !TaskDone(b.facts, steps[i].item)
  }

  lemma StepKeepsPrefix(steps: seq<Step>, feedback: bool, b: Board, a: Act)
    requires CanAct(steps, feedback, b, a) && Inv(steps, feedback, b)
    requires PrefixDone(steps, feedback, b.facts, b.row.position)
    ensures PrefixDone(steps, feedback, Acted(b, a).facts, Acted(b, a).row.position)
            <==> !Unfinishes(steps, b, a)
  {
    ActKeepsInv(steps, feedback, b, a);
    var later := Acted(b, a);
    hide Inv, CanAct, Follows;
    RowWasDone(steps, feedback, later);
    PassedLacksOnlyDone(steps, feedback, later, later.row.position);
    assert forall i :: 0 <= i < b.row.position ==> TaskDone(b.facts, steps[i].item);
    if a.Commit? {
      assert forall i :: 0 <= i < a.position && i < b.row.position ==> TaskDone(b.facts, steps[i].item);
    }
    hide TaskDone, StepDone;
  }

  lemma RowWasDone(steps: seq<Step>, feedback: bool, b: Board)
    requires Inv(steps, feedback, b)
    ensures PrefixWasDone(steps, feedback, b.known, b.row.position)
  {
    hide Follows, PrefixWasDone;
  }

  predicate PrefixStaysDone(steps: seq<Step>, feedback: bool, b: Board, acts: seq<Act>)
    decreases |acts|
  {
    acts == []
    || (PrefixDone(steps, feedback, Acted(b, acts[0]).facts, Acted(b, acts[0]).row.position)
        && PrefixStaysDone(steps, feedback, Acted(b, acts[0]), acts[1..]))
  }

  predicate Unfinished(steps: seq<Step>, b: Board, acts: seq<Act>)
    decreases |acts|
  {
    acts != [] && (Unfinishes(steps, b, acts[0]) || Unfinished(steps, Acted(b, acts[0]), acts[1..]))
  }

  // Over every interleaving: at every state every step before the position has an
  // immutable link to a DONE, delivered task, exactly as long as no change takes the
  // DONE of a preceding step back and no move passes a step that has lost it.
  lemma {:induction false} PrefixExactly(steps: seq<Step>, feedback: bool, b: Board, acts: seq<Act>)
    requires Lawful(steps, feedback, b, acts) && Inv(steps, feedback, b)
    requires PrefixDone(steps, feedback, b.facts, b.row.position)
    ensures PrefixStaysDone(steps, feedback, b, acts) <==> !Unfinished(steps, b, acts)
    ensures PrefixStaysDone(steps, feedback, b, acts) ==>
              PrefixDone(steps, feedback, AllActed(b, acts).facts, AllActed(b, acts).row.position)
    decreases |acts|
  {
    hide CanAct, Acted, Inv, PrefixDone, Unfinishes;
    if acts != [] {
      StepKeepsPrefix(steps, feedback, b, acts[0]);
      ActKeepsInv(steps, feedback, b, acts[0]);
      if !Unfinishes(steps, b, acts[0]) {
        PrefixExactly(steps, feedback, Acted(b, acts[0]), acts[1..]);
      }
    }
  }

  // No task of the sprint leaves DONE, so that whatever was done still is.
  predicate KeepsDone(steps: seq<Step>, b: Board, a: Act) {
    a.Change? ==>
      forall i :: 0 <= i < |steps| && TaskDone(b.facts, steps[i].item) ==> TaskDone(a.later, steps[i].item)
  }

  predicate KeepsAllDone(steps: seq<Step>, b: Board, acts: seq<Act>)
    decreases |acts|
  {
    acts == [] || (KeepsDone(steps, b, acts[0]) && KeepsAllDone(steps, Acted(b, acts[0]), acts[1..]))
  }

  ghost predicate StillDone(steps: seq<Step>, b: Board) {
    forall f, i :: f in b.known && 0 <= i < |steps| && TaskDone(f, steps[i].item) ==>
      TaskDone(b.facts, steps[i].item)
  }

  lemma ActKeepsStillDone(steps: seq<Step>, feedback: bool, b: Board, a: Act)
    requires CanAct(steps, feedback, b, a) && KeepsDone(steps, b, a) && StillDone(steps, b)
    ensures StillDone(steps, Acted(b, a))
  {
    hide TaskDone, Follows;
  }

  lemma NothingPassedUndone(steps: seq<Step>, feedback: bool, b: Board, a: Act)
    requires CanAct(steps, feedback, b, a) && KeepsDone(steps, b, a)
    requires Inv(steps, feedback, b) && StillDone(steps, b)
    ensures !Unfinishes(steps, b, a)
  {
    if a.Commit? {
      CommitKeepsInv(steps, feedback, b, a);
      RowWasDone(steps, feedback, Acted(b, a));
      forall i | 0 <= i < a.position && i < |steps|
        ensures TaskDone(b.facts, steps[i].item)
      {
        assert WasDone(feedback, b.known, steps[i].item);
        var f :| f in b.known && StepDone(f, steps[i].item, feedback);
        assert TaskDone(f, steps[i].item);
      }
    }
    hide Inv, Follows, CanAct, TaskDone;
  }

  // While no task of the sprint leaves DONE, old reads of row and tables cannot break
  // the prefix.
  lemma {:induction false} DoneTasksKeepPrefix(steps: seq<Step>, feedback: bool, b: Board, acts: seq<Act>)
    requires Lawful(steps, feedback, b, acts) && KeepsAllDone(steps, b, acts)
    requires Inv(steps, feedback, b) && StillDone(steps, b)
    ensures !Unfinished(steps, b, acts)
    decreases |acts|
  {
    hide CanAct, Acted, Inv, StillDone, KeepsDone, Unfinishes;
    if acts != [] {
      NothingPassedUndone(steps, feedback, b, acts[0]);
      ActKeepsInv(steps, feedback, b, acts[0]);
      ActKeepsStillDone(steps, feedback, b, acts[0]);
      DoneTasksKeepPrefix(steps, feedback, Acted(b, acts[0]), acts[1..]);
    }
  }

  // The same tables, with one task's status written back.
  function WithStatus(f: Facts, item: B.Item, s: TaskStatus): Facts
    requires TaskFor(f, item).Some?
  {
    var at := (f.links[item.Key()].repo, f.links[item.Key()].state.issue.number);
    f.(tasks := f.tasks[at := (f.tasks[at].0, s)])
  }

  // The first step's task is DONE and the sprint advances; then a late update of the
  // task's row writes CANCELLED back. The sprint has passed a step that is not done.
  lemma LateUpdateUnfinishes(steps: seq<Step>, feedback: bool, b: Board)
    requires steps != [] && Inv(steps, feedback, b) && b.row == Row(Active, 0)
    requires StepDone(b.facts, steps[0].item, feedback)
    ensures
      var event := if |steps| == 1 then SprintCompleted else SprintAdvanced;
      var state := if |steps| == 1 then Complete else Active;
      var advance := Commit(b.row, state, 1, event, b.facts);
      var late := Change(WithStatus(b.facts, steps[0].item, TaskStatus.Cancelled));
      && Lawful(steps, feedback, b, [advance, late])
      && AllActed(b, [advance, late]).row == Row(state, 1)
      && Linked(AllActed(b, [advance, late]).facts, steps[0].item)
      && !StepDone(AllActed(b, [advance, late]).facts, steps[0].item, feedback)
  {
    var event := if |steps| == 1 then SprintCompleted else SprintAdvanced;
    var state := if |steps| == 1 then Complete else Active;
    var advance := Commit(b.row, state, 1, event, b.facts);
    var late := Change(WithStatus(b.facts, steps[0].item, TaskStatus.Cancelled));
    assert Follows(b.facts, late.later);
    TwoActs(steps, feedback, b, advance, late);
  }

  // -- does it only go forward? ----------------------------------------------------------

  predicate Final(s: SprintState) { s in {Complete, Withdrawn} }

  // COMPLETE and CANCELLED are final, and the position never goes back.
  predicate Forward(before: Row, later: Row) {
    before.position <= later.position && (Final(before.state) ==> later == before)
  }

  // A move that read a row from before the last advance: one that keeps the position
  // and read a lower one, or one that advances from two or more below; or a move that
  // ends a final row which its own read did not show.
  predicate Rewinds(b: Board, a: Act) {
    a.Commit?
    && (|| (if Advances(a.event) then a.read.position + 1 < b.row.position
            else a.read.position < b.row.position)
        || (Final(b.row.state) && Row(a.state, a.position) != b.row))
  }

  lemma StepForward(steps: seq<Step>, feedback: bool, b: Board, a: Act)
    requires CanAct(steps, feedback, b, a)
    ensures Forward(b.row, Acted(b, a).row) <==> !Rewinds(b, a)
  {
  }

  predicate StaysForward(b: Board, acts: seq<Act>)
    decreases |acts|
  {
    acts == [] || (Forward(b.row, Acted(b, acts[0]).row) && StaysForward(Acted(b, acts[0]), acts[1..]))
  }

  predicate Rewound(b: Board, acts: seq<Act>)
    decreases |acts|
  {
    acts != [] && (Rewinds(b, acts[0]) || Rewound(Acted(b, acts[0]), acts[1..]))
  }

  // Over every interleaving: the position never goes back and a finished sprint stays
  // as it is, exactly as long as no committed move read a row from before the last
  // advance, or from before the sprint was finished.
  lemma {:induction false} ForwardExactly(steps: seq<Step>, feedback: bool, b: Board, acts: seq<Act>)
    requires Lawful(steps, feedback, b, acts)
    ensures StaysForward(b, acts) <==> !Rewound(b, acts)
    ensures StaysForward(b, acts) ==> b.row.position <= AllActed(b, acts).row.position
    ensures StaysForward(b, acts) && Final(b.row.state) ==> AllActed(b, acts).row == b.row
    decreases |acts|
  {
    if acts != [] {
      StepForward(steps, feedback, b, acts[0]);
      ForwardExactly(steps, feedback, Acted(b, acts[0]), acts[1..]);
    }
  }

  predicate FindsItsRow(b: Board, a: Act) { a.Commit? ==> a.read == b.row }

  predicate FindsItsRows(b: Board, acts: seq<Act>)
    decreases |acts|
  {
    acts == [] || (FindsItsRow(b, acts[0]) && FindsItsRows(Acted(b, acts[0]), acts[1..]))
  }

  // Moves that find the row they have read, as under one write transaction, never do.
  lemma {:induction false} FoundNeverRewinds(steps: seq<Step>, feedback: bool, b: Board, acts: seq<Act>)
    requires Lawful(steps, feedback, b, acts) && FindsItsRows(b, acts)
    ensures !Rewound(b, acts)
    decreases |acts|
  {
    if acts != [] { FoundNeverRewinds(steps, feedback, Acted(b, acts[0]), acts[1..]); }
  }

  // A pause reads ACTIVE at position 0; the driver advances; the pause then commits.
  // The sprint is PAUSED at position 0 again, also where the advance had completed it.
  lemma LatePauseRewinds(steps: seq<Step>, feedback: bool, b: Board)
    requires steps != [] && Inv(steps, feedback, b) && b.row == Row(Active, 0)
    requires StepDone(b.facts, steps[0].item, feedback)
    ensures
      var event := if |steps| == 1 then SprintCompleted else SprintAdvanced;
      var state := if |steps| == 1 then Complete else Active;
      var advance := Commit(b.row, state, 1, event, b.facts);
      var pause := Commit(b.row, Stopped, 0, SprintPaused, b.facts);
      && Lawful(steps, feedback, b, [advance, pause])
      && Acted(b, advance).row == Row(state, 1)
      && AllActed(b, [advance, pause]).row == Row(Stopped, 0)
  {
    var event := if |steps| == 1 then SprintCompleted else SprintAdvanced;
    var state := if |steps| == 1 then Complete else Active;
    var advance := Commit(b.row, state, 1, event, b.facts);
    var pause := Commit(b.row, Stopped, 0, SprintPaused, b.facts);
    TwoActs(steps, feedback, b, advance, pause);
  }

  lemma TwoActs(steps: seq<Step>, feedback: bool, b: Board, first: Act, second: Act)
    requires CanAct(steps, feedback, b, first) && CanAct(steps, feedback, Acted(b, first), second)
    ensures Lawful(steps, feedback, b, [first, second])
    ensures AllActed(b, [first, second]) == Acted(Acted(b, first), second)
  {
    hide CanAct, Acted;
    ActsAppend(steps, feedback, b, [], first);
    ActsAppend(steps, feedback, b, [] + [first], second);
    assert [] + [first] + [second] == [first, second];
  }

  // A selection that read ACTIVE commits after a cancellation: the sprint runs again.
  lemma LateSelectRevives(steps: seq<Step>, feedback: bool, b: Board)
    requires Inv(steps, feedback, b) && b.row.state == Active
    ensures
      var cancel := Commit(b.row, Withdrawn, b.row.position, SprintCancelled, b.facts);
      var select := Commit(b.row, Active, b.row.position, WorkItemSelected, b.facts);
      && Lawful(steps, feedback, b, [cancel, select])
      && Acted(b, cancel).row.state == Withdrawn
      && AllActed(b, [cancel, select]).row == b.row
  {
    var cancel := Commit(b.row, Withdrawn, b.row.position, SprintCancelled, b.facts);
    var select := Commit(b.row, Active, b.row.position, WorkItemSelected, b.facts);
    TwoActs(steps, feedback, b, cancel, select);
  }

  lemma SameFacts(f: Facts)
    ensures Follows(f, f)
  {
  }

  lemma {:induction false} ActsAppend(steps: seq<Step>, feedback: bool, b: Board, acts: seq<Act>, a: Act)
    requires Lawful(steps, feedback, b, acts)
    requires CanAct(steps, feedback, AllActed(b, acts), a)
    ensures Lawful(steps, feedback, b, acts + [a])
    ensures AllActed(b, acts + [a]) == Acted(AllActed(b, acts), a)
    decreases |acts|
  {
    hide CanAct, Acted;
    if acts == [] {
      assert acts + [a] == [a] && [a][1..] == [];
    } else {
      assert (acts + [a])[1..] == acts[1..] + [a];
      ActsAppend(steps, feedback, Acted(b, acts[0]), acts[1..], a);
    }
  }

  // -- dependencies ------------------------------------------------------------------

  function Name(item: B.Item): string { item.provider + ":" + item.externalId }

  // The latest preceding step of a name, as a dictionary built in order keeps it.
  function Named(steps: seq<Step>, position: nat, name: string): (r: Option<nat>)
    requires position <= |steps|
    ensures r.Some? ==> r.value < position && Name(steps[r.value].item) == name
    ensures r.None? ==> forall i :: 0 <= i < position ==> Name(steps[i].item) != name
  {
    if position == 0 then None
    else if Name(steps[position - 1].item) == name then Some(position - 1)
    else Named(steps, position - 1, name)
  }

  predicate Satisfied(f: Facts, steps: seq<Step>, position: nat, name: string)
    requires position <= |steps|
  {
    var i := Named(steps, position, name);
    i.Some? && StepDone(f, steps[i.value].item, false)
  }

  // DependencyResolver.complete, one dependency after the other.
  method DependenciesComplete(f: Facts, steps: seq<Step>, position: nat) returns (complete: bool)
    requires position < |steps|
    ensures complete <==>
              && steps[position].item.ready
              && forall d :: d in steps[position].dependencies ==> Satisfied(f, steps, position, d)
    ensures complete <==> Free(f, steps, position, steps[position].item)
  {
    forall d
      ensures Satisfied(f, steps, position, d) <==> DependencyDone(f, steps, position, d)
    {
      SatisfiedByFacts(f, steps, position, d);
    }
    if !steps[position].item.ready { return false; }
    var names := steps[position].dependencies;
    for i := 0 to |names|
      invariant forall j :: 0 <= j < i ==> Satisfied(f, steps, position, names[j])
    {
      var at := Named(steps, position, names[i]);
      if at.None? {
        assert names[i] in names;
        return false;
      }
      var t := TaskFor(f, steps[at.value].item);
      if t.None? || t.value.1 != Done {
        assert names[i] in names;
        return false;
      }
    }
    return true;
  }

  // -- what decides a step, in the stored tables -----------------------------------------

  // The task made from the item's issue has this status.
  ghost predicate TaskIs(f: Facts, item: B.Item, s: TaskStatus) {
    && item.Key() in f.links && f.links[item.Key()].state.Materialized?
    && var at := (f.links[item.Key()].repo, f.links[item.Key()].state.issue.number);
       at in f.tasks && f.tasks[at].1 == s
  }

  // That task has a durable delivery record.
  ghost predicate Recorded(f: Facts, item: B.Item) {
    && item.Key() in f.links && f.links[item.Key()].state.Materialized?
    && var at := (f.links[item.Key()].repo, f.links[item.Key()].state.issue.number);
       at in f.tasks && f.tasks[at].0 in f.delivered
  }

  // The last step of this name before the position has a DONE task.
  ghost predicate DependencyDone(f: Facts, steps: seq<Step>, position: nat, name: string)
    requires position <= |steps|
  {
    exists i :: 0 <= i < position && Name(steps[i].item) == name && TaskIs(f, steps[i].item, Done)
                && forall j :: i < j < position ==> Name(steps[j].item) != name
  }

  ghost predicate NeedsHuman(f: Facts, item: B.Item) {
    || TaskIs(f, item, WaitingHuman) || TaskIs(f, item, Blocked)
    || TaskIs(f, item, Failed) || TaskIs(f, item, TaskStatus.Cancelled)
  }

  // The provider must be asked for the item before anything can be done with it.
  ghost predicate MustRead(f: Facts, item: B.Item) { !TaskIs(f, item, Done) && !NeedsHuman(f, item) }

  // The item is as authorized, is ready, and waits for nothing.
  ghost predicate Free(f: Facts, steps: seq<Step>, position: nat, item: B.Item)
    requires position < |steps|
  {
    && item == steps[position].item && steps[position].item.ready
    && forall d :: d in steps[position].dependencies ==> DependencyDone(f, steps, position, d)
  }

  // Everything that stops the sprint at a position.
  ghost predicate MustStop(f: Facts, steps: seq<Step>, position: nat, feedback: bool,
                           source: map<string, B.Item>)
    requires position < |steps|
  {
    var item := steps[position].item;
    || (TaskIs(f, item, Done) && feedback && !Recorded(f, item))
    || NeedsHuman(f, item)
    || (MustRead(f, item) && item.externalId in source
        && !Free(f, steps, position, source[item.externalId]))
  }

  // How the work on the step at a position ends, and with which tables.
  ghost predicate EndsAt(f: Facts, after: Facts, steps: seq<Step>, position: nat, feedback: bool,
                         source: map<string, B.Item>, r: Preparation, state: SprintState, later: Facts)
    requires position < |steps|
  {
    var item := steps[position].item;
    var unread := MustRead(f, item) && item.externalId !in source;
    var stop := MustStop(f, steps, position, feedback, source);
    && state == (if stop then Stopped else Active)
    && (r == ReadFailed <==> unread)
    && (r == Selected <==>
          && !stop && !unread
          && item.Key() in later.links && later.links[item.Key()].state.Materialized?)
    && later == if stop || unread || (item.Key() in f.links && f.links[item.Key()].state.Materialized?)
                then f else after
  }

  lemma StepDoneByFacts(f: Facts, item: B.Item, feedback: bool)
    ensures StepDone(f, item, feedback) <==> TaskIs(f, item, Done) && (feedback ==> Recorded(f, item))
  {
  }

  lemma {:induction false} LastNamed(steps: seq<Step>, position: nat, name: string, i: nat)
    requires i < position <= |steps| && Name(steps[i].item) == name
    requires forall j :: i < j < position ==> Name(steps[j].item) != name
    ensures Named(steps, position, name) == Some(i)
  {
    if i < position - 1 { LastNamed(steps, position - 1, name, i); }
  }

  lemma {:induction false} NamedIsLast(steps: seq<Step>, position: nat, name: string)
    requires position <= |steps| && Named(steps, position, name).Some?
    ensures forall j :: Named(steps, position, name).value < j < position ==> Name(steps[j].item) != name
  {
    if Name(steps[position - 1].item) != name { NamedIsLast(steps, position - 1, name); }
  }

  lemma SatisfiedByFacts(f: Facts, steps: seq<Step>, position: nat, name: string)
    requires position <= |steps|
    ensures Satisfied(f, steps, position, name) <==> DependencyDone(f, steps, position, name)
  {
    if Satisfied(f, steps, position, name) {
      var i := Named(steps, position, name).value;
      NamedIsLast(steps, position, name);
      StepDoneByFacts(f, steps[i].item, false);
    }
    if DependencyDone(f, steps, position, name) {
      var i :| 0 <= i < position && Name(steps[i].item) == name && TaskIs(f, steps[i].item, Done)
               && forall j :: i < j < position ==> Name(steps[j].item) != name;
      LastNamed(steps, position, name, i);
      StepDoneByFacts(f, steps[i].item, false);
    }
  }

  // -- preparing the next step ---------------------------------------------------------

  predicate Halts(s: TaskStatus) { s in {WaitingHuman, Blocked, Failed, TaskStatus.Cancelled} }

  // The step is selected; nothing to do now; or a provider read has failed.
  datatype Preparation = Selected | Waiting | ReadFailed

  // A sprint as one caller finds it.
  function Found(row: Row, facts: Facts): Board { Board(row, facts, {row}, {facts}) }

  // What a caller's own moves have made of it, when nobody else moves it meanwhile.
  ghost predicate MovedTo(steps: seq<Step>, feedback: bool, start: Board, acts: seq<Act>, row: Row,
                          facts: Facts)
  {
    && Lawful(steps, feedback, start, acts)
    && AllActed(start, acts).row == row && AllActed(start, acts).facts == facts
    && Inv(steps, feedback, AllActed(start, acts))
    && start.row.position <= row.position
  }

  // One more move on the row as it is stored.
  lemma OneMove(steps: seq<Step>, feedback: bool, start: Board, acts: seq<Act>, row: Row, facts: Facts,
                state: SprintState, position: nat, event: MoveEvent)
    returns (later: seq<Act>)
    requires MovedTo(steps, feedback, start, acts, row, facts) && Move(row, state, position, event).Some?
    requires Advances(event) ==>
               && 0 < position <= |steps| && (event == SprintCompleted <==> position == |steps|)
               && StepDone(facts, steps[position - 1].item, feedback)
    ensures MovedTo(steps, feedback, start, later, Row(state, position), facts)
  {
    var a := Commit(row, state, position, event, facts);
    assert facts in AllActed(start, acts).known && row in AllActed(start, acts).past;
    assert CanAct(steps, feedback, AllActed(start, acts), a);
    ActsAppend(steps, feedback, start, acts, a);
    ActKeepsInv(steps, feedback, AllActed(start, acts), a);
    hide CanAct, Lawful, AllActed, Inv;
    later := acts + [a];
  }

  lemma OneChange(steps: seq<Step>, feedback: bool, start: Board, acts: seq<Act>, row: Row, facts: Facts,
                  after: Facts)
    returns (later: seq<Act>)
    requires MovedTo(steps, feedback, start, acts, row, facts) && Follows(facts, after)
    ensures MovedTo(steps, feedback, start, later, row, after)
  {
    assert CanAct(steps, feedback, AllActed(start, acts), Change(after));
    ActsAppend(steps, feedback, start, acts, Change(after));
    ActKeepsInv(steps, feedback, AllActed(start, acts), Change(after));
    hide CanAct, Lawful, AllActed, Inv;
    later := acts + [Change(after)];
  }

  lemma MovedInBounds(steps: seq<Step>, feedback: bool, start: Board, acts: seq<Act>, row: Row, facts: Facts)
    requires MovedTo(steps, feedback, start, acts, row, facts)
    ensures InBounds(steps, row)
  {
    hide Lawful, AllActed, InBounds;
  }

  lemma NotMoved(steps: seq<Step>, feedback: bool, start: Board)
    requires Inv(steps, feedback, start)
    ensures MovedTo(steps, feedback, start, [], start.row, start.facts)
  {
  }

  class SprintService {
    const steps: seq<Step>
    const feedback: bool
    var row: Row
    var facts: Facts

    constructor (steps: seq<Step>, feedback: bool, facts: Facts)
      requires steps != []
      ensures this.steps == steps && this.feedback == feedback && this.facts == facts
      ensures row == Row(Active, 0) && Inv(steps, feedback, Found(row, facts))
    {
      this.steps, this.feedback, this.facts := steps, feedback, facts;
      row := Row(Active, 0);
    }

    // SprintService.prepare_for_project. `source` is the provider's present item for
    // each id that can be read, and `after` what the tables say once the materializer has
    // run; `start` is the sprint with its history.
    method Prepare(source: map<string, B.Item>, after: Facts, ghost start: Board)
      returns (r: Preparation, ghost acts: seq<Act>)
      requires Inv(steps, feedback, start) && start.row == row && start.facts == facts
      requires Follows(facts, after)
      modifies this`row, this`facts
      ensures MovedTo(steps, feedback, start, acts, row, facts)
      ensures InBounds(steps, row) && old(row).position <= row.position
      ensures old(row).state != Active ==> r == Waiting && row == old(row) && facts == old(facts)
      ensures forall i :: old(row).position <= i < row.position ==>
                && TaskIs(old(facts), steps[i].item, Done)
                && (feedback ==> Recorded(old(facts), steps[i].item))
      ensures old(row).state == Active && row.position == |steps| ==>
                row.state == Complete && r == Waiting && facts == old(facts)
      ensures old(row).state == Active && row.position < |steps| ==>
                && !(TaskIs(old(facts), steps[row.position].item, Done)
                     && (feedback ==> Recorded(old(facts), steps[row.position].item)))
                && EndsAt(old(facts), after, steps, row.position, feedback, source, r, row.state, facts)
      ensures r == Selected ==>
                && row.state == Active && row.position < |steps|
                && !TaskIs(old(facts), steps[row.position].item, WaitingHuman)
                && !TaskIs(old(facts), steps[row.position].item, Blocked)
                && !TaskIs(old(facts), steps[row.position].item, Failed)
                && !TaskIs(old(facts), steps[row.position].item, TaskStatus.Cancelled)
                && steps[row.position].item.externalId in source
                && source[steps[row.position].item.externalId] == steps[row.position].item
                && steps[row.position].item.ready
                && (forall d :: d in steps[row.position].dependencies ==>
                      DependencyDone(old(facts), steps, row.position, d))
    {
      hide MovedTo, Inv, Linked;
      acts := [];
      NotMoved(steps, feedback, start);
      MovedInBounds(steps, feedback, start, acts, row, facts);
      if row.state != Active { return Waiting, acts; }
      var position := row.position;
      while position < |steps|
        invariant position == row.position && row.state in {Active, Complete} && facts == old(facts)
        invariant row.state == Complete <==> position == |steps|
        invariant MovedTo(steps, feedback, start, acts, row, facts) && start.row.position <= position
        invariant InBounds(steps, row)
        invariant forall i :: start.row.position <= i < position ==>
                    && TaskIs(facts, steps[i].item, Done)
                    && (feedback ==> Recorded(facts, steps[i].item))
        decreases |steps| - position
      {
        var item := steps[position].item;
        var task := TaskFor(facts, item);
        StepDoneByFacts(facts, item, feedback);
        StepDoneByFacts(facts, item, false);
        if task.Some? && task.value.1 == Done {
          if feedback && task.value.0 !in facts.delivered {
            acts := MoveHere(Stopped, position, SprintPaused, start, acts);
            return Waiting, acts;
          }
          position := position + 1;
          if position == |steps| {
            acts := MoveHere(Complete, position, SprintCompleted, start, acts);
          } else {
            acts := MoveHere(Active, position, SprintAdvanced, start, acts);
          }
        } else {
          r, acts := PrepareHere(source, after, start, acts);
          return r, acts;
        }
      }
      return Waiting, acts;
    }

    // The repository's move, by a caller that has just read the row.
    method MoveHere(state: SprintState, position: nat, event: MoveEvent, ghost start: Board,
                    ghost acts: seq<Act>)
      returns (ghost later: seq<Act>)
      requires MovedTo(steps, feedback, start, acts, row, facts)
      requires Move(row, state, position, event).Some?
      requires Advances(event) ==>
                 && 0 < position <= |steps| && (event == SprintCompleted <==> position == |steps|)
                 && StepDone(facts, steps[position - 1].item, feedback)
      modifies this`row
      ensures row == Row(state, position)
      ensures MovedTo(steps, feedback, start, later, row, facts) && InBounds(steps, row)
    {
      hide MovedTo, Inv;
      later := OneMove(steps, feedback, start, acts, row, facts, state, position, event);
      row := Row(state, position);
      MovedInBounds(steps, feedback, start, later, row, facts);
    }

    // The step at the position is not done: stop for a human, a changed snapshot or an
    // open dependency; otherwise see that it has an issue and select it.
    method PrepareHere(source: map<string, B.Item>, after: Facts, ghost start: Board, ghost acts: seq<Act>)
      returns (r: Preparation, ghost later: seq<Act>)
      requires row.state == Active && row.position < |steps|
      requires !TaskIs(facts, steps[row.position].item, Done)
      requires MovedTo(steps, feedback, start, acts, row, facts) && InBounds(steps, row)
      requires Follows(facts, after)
      modifies this`row, this`facts
      ensures MovedTo(steps, feedback, start, later, row, facts) && InBounds(steps, row)
      ensures row.position == old(row).position && (r == ReadFailed ==> row == old(row))
      ensures EndsAt(old(facts), after, steps, row.position, feedback, source, r, row.state, facts)
    {
      hide MovedTo, Inv;
      var item := steps[row.position].item;
      var task := TaskFor(facts, item);
      later := acts;
      if task.Some? && Halts(task.value.1) {
        later := MoveHere(Stopped, row.position, SprintPaused, start, later);
        return Waiting, later;
      }
      if item.externalId !in source { return ReadFailed, later; }
      if source[item.externalId] != item {
        later := MoveHere(Stopped, row.position, SprintPaused, start, later);
        return Waiting, later;
      }
      var complete := DependenciesComplete(facts, steps, row.position);
      if !complete {
        later := MoveHere(Stopped, row.position, SprintPaused, start, later);
        return Waiting, later;
      }
      if !Linked(facts, item) {
        later := OneChange(steps, feedback, start, later, row, facts, after);
        facts := after;
      }
      if Linked(facts, item) {
        later := MoveHere(Active, row.position, WorkItemSelected, start, later);
        return Selected, later;
      }
      return Waiting, later;
    }
  }
}
