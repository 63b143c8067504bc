// The file-marker protocol between one Codex worker and any number of cancellers
// (src/factory/integrations/codex/worker.py run, adapter.py cancel). Every file
// operation is one step; the processes interleave freely between them.
module Cancellation {
  import opened Models

  datatype WorkerAt =
    | Starting      // before the first look at the marker
    | Prepared      // before the second look, just ahead of the child process
    | Running       // the child runs, its output is drained
    | Checking      // before the final look at the marker
    | Deciding      // the final look is done
    | Publishing    // before the result file replaces its temporary
    | Clearing      // the result exists, the marker is not removed yet
    | Finished

  datatype CancellerAt =
    | Looking       // before it checks for a result
    | Marking       // before it creates the marker exclusively
    | Rechecking    // it has created the marker
    | Removing      // it has seen a result after all
    | Left

  // `status` is the worker's local verdict. `early` records that some canceller has
  // created the marker before the worker's final look, `marked` that one ever has.
  datatype Dir = Dir(
    result: Option<RunStatus>,
    marker: bool,
    worker: WorkerAt,
    status: RunStatus,
    cancellers: map<nat, CancellerAt>,
    early: bool,
    marked: bool)

  const FRESH := Dir(None, false, Starting, RunFailed, map[], false, false)

  // `good` is whether the child exited with 0 in time, within its output bound
  // where that matters, and left a valid message.
  datatype Step =
    | FirstLook
    | SecondLook
    | Drained(saw: bool)
    | FinalLook
    | Decide(good: bool)
    | Raise
    | Publish
    | Clear
    | Arrive(id: nat)
    | Look(id: nat)
    | Mark(id: nat)
    | Recheck(id: nat)
    | Remove(id: nat)

  predicate BeforeFinalLook(w: WorkerAt) { w in {Starting, Prepared, Running, Checking} }

  predicate At(d: Dir, id: nat, c: CancellerAt) { id in d.cancellers && d.cancellers[id] == c }

  predicate CanStep(d: Dir, s: Step) {
    match s
    case FirstLook => d.worker == Starting
    case SecondLook => d.worker == Prepared
    case Drained(saw) => d.worker == Running && (saw ==> d.marker)
    case FinalLook => d.worker == Checking
    case Decide(_) => d.worker == Deciding
    case Raise => BeforeFinalLook(d.worker) || d.worker == Deciding
    case Publish => d.worker == Publishing
    case Clear => d.worker == Clearing
    case Arrive(id) => id !in d.cancellers
    case Look(id) => At(d, id, Looking)
    case Mark(id) => At(d, id, Marking)
    case Recheck(id) => At(d, id, Rechecking)
    case Remove(id) => At(d, id, Removing)
  }

  function Stepped(d: Dir, s: Step): Dir {
    match s
    case FirstLook =>
      if d.marker then d.(worker := Publishing, status := RunCancelled) else d.(worker := Prepared)
    case SecondLook =>
      if d.marker then d.(worker := Checking, status := RunCancelled) else d.(worker := Running)
    case Drained(saw) =>
      if saw then d.(worker := Checking, status := RunCancelled) else d.(worker := Checking)
    case FinalLook =>
      if d.marker then d.(worker := Deciding, status := RunCancelled) else d.(worker := Deciding)
    case Decide(good) =>
      if d.status != RunCancelled && good then d.(worker := Publishing, status := RunSucceeded)
      else d.(worker := Publishing)
    case Raise => d.(worker := Publishing)
    case Publish => d.(worker := Clearing, result := Some(d.status))
    case Clear => d.(worker := Finished, marker := false)
    case Arrive(id) => d.(cancellers := d.cancellers[id := Looking])
    case Look(id) => d.(cancellers := d.cancellers[id := if d.result.Some? then Left else Marking])
    case Mark(id) =>
      if d.marker then d.(cancellers := d.cancellers[id := Left])
      else d.(cancellers := d.cancellers[id := Rechecking], marker := true, marked := true,
              early := d.early || BeforeFinalLook(d.worker))
    case Recheck(id) =>
      d.(cancellers := d.cancellers[id := if d.result.Some? then Removing else Left])
    case Remove(id) => d.(cancellers := d.cancellers[id := Left], marker := false)
  }

  predicate LegalSteps(d: Dir, steps: seq<Step>)
    decreases |steps|
  {
    steps == [] || (CanStep(d, steps[0]) && LegalSteps(Stepped(d, steps[0]), steps[1..]))
  }

  function AfterSteps(d: Dir, steps: seq<Step>): Dir
    decreases |steps|
  {
    if steps == [] then d else AfterSteps(Stepped(d, steps[0]), steps[1..])
  }

  // A marker left behind after the worker has cleared up is still owned by a
  // canceller that will see the result.
  ghost predicate Owned(d: Dir) {
    exists id :: id in d.cancellers && d.cancellers[id] in {Rechecking, Removing}
  }

  ghost predicate Inv(d: Dir) {
    && (d.result.Some? <==> d.worker in {Clearing, Finished})
    && (d.worker == Finished && d.marker ==> Owned(d))
    && (d.result.None? ==> forall id :: id in d.cancellers ==> d.cancellers[id] != Removing)
    && (d.early ==>
          && (BeforeFinalLook(d.worker) ==> d.marker)
          && (d.worker == Deciding ==> d.status == RunCancelled)
          && d.status != RunSucceeded
          && d.result != Some(RunSucceeded))
    && (BeforeFinalLook(d.worker) || d.worker == Deciding ==> d.status in {RunFailed, RunCancelled})
    && (d.status in {RunFailed, RunCancelled, RunSucceeded})
    && (d.result.Some? ==> d.result == Some(d.status))
    && (d.status == RunCancelled || d.marker ==> d.marked)
    && (d.status == RunCancelled || (d.marker && BeforeFinalLook(d.worker)) ==> d.early)
  }

  lemma StepKeepsInv(d: Dir, s: Step)
    requires CanStep(d, s) && Inv(d)
    ensures Inv(Stepped(d, s))
    ensures d.early ==> Stepped(d, s).early
    ensures d.result.Some? ==> Stepped(d, s).result == d.result
  {
    var later := Stepped(d, s);
    if later.worker == Finished && later.marker {
      match s
      case Mark(id) =>
        if !d.marker {
          assert later.cancellers[id] == Rechecking;
        } else {
          StillOwned(d, later, id);
        }
      case Look(id) => StillOwned(d, later, id);
      case Arrive(id) => StillOwned(d, later, id);
      case Recheck(id) => assert later.cancellers[id] == Removing;
      case _ =>
    }
  }

  lemma StillOwned(d: Dir, later: Dir, id: nat)
    requires id in later.cancellers
    requires Owned(d) && later.cancellers == d.cancellers[id := later.cancellers[id]]
    requires id in d.cancellers ==> d.cancellers[id] !in {Rechecking, Removing}
    ensures Owned(later)
  {
    var other :| other in d.cancellers && d.cancellers[other] in {Rechecking, Removing};
    assert later.cancellers[other] in {Rechecking, Removing};
  }

  predicate AllFinished(d: Dir) {
    d.worker == Finished && forall id :: id in d.cancellers ==> d.cancellers[id] == Left
  }

  lemma {:induction false} StepsKeepInv(d: Dir, steps: seq<Step>)
    requires LegalSteps(d, steps) && Inv(d)
    ensures Inv(AfterSteps(d, steps))
    ensures d.early ==> AfterSteps(d, steps).early
    ensures d.result.Some? ==> AfterSteps(d, steps).result == d.result
    decreases |steps|
  {
    if steps != [] {
      StepKeepsInv(d, steps[0]);
      StepsKeepInv(Stepped(d, steps[0]), steps[1..]);
    }
  }

  // Over every interleaving of the worker and any number of cancellers: once all
  // have finished the result exists and no marker remains; a run is reported as
  // cancelled only if some canceller asked for it before the worker's final look; and a
  // marker created before that look never lets the run succeed.
  lemma CancelProtocol(steps: seq<Step>)
    requires LegalSteps(FRESH, steps)
    ensures
      var d := AfterSteps(FRESH, steps);
      && (AllFinished(d) ==> d.result.Some? && !d.marker)
      && (d.result == Some(RunCancelled) ==> d.marked && d.early)
      && (d.early ==> d.result != Some(RunSucceeded))
  {
    StepsKeepInv(FRESH, steps);
  }

  // The moment matters: a marker created after that look can lose to a success, and
  // even then it is gone in the end.
  lemma LateMarkerCanLose()
    ensures exists steps ::
              && LegalSteps(FRESH, steps)
              && AllFinished(AfterSteps(FRESH, steps))
              && AfterSteps(FRESH, steps).marked && !AfterSteps(FRESH, steps).early
              && AfterSteps(FRESH, steps).result == Some(RunSucceeded)
  {
    var arrival := [Arrive(0), Look(0), Mark(0), Recheck(0)];
    var steps := [FirstLook, SecondLook, Drained(false), FinalLook] + arrival + [Decide(true), Publish, Clear];
    var d := Dir(None, false, Deciding, RunFailed, map[], false, false);
    var marked := d.(cancellers := map[0 := Left], marker := true, marked := true);
    hide LegalSteps, AfterSteps;
    Walk(FRESH, [FirstLook, SecondLook, Drained(false), FinalLook], d);
    WalkArrival(d, arrival, marked);
    var last := marked.(worker := Finished, status := RunSucceeded, result := Some(RunSucceeded), marker := false);
    WalkDecision(marked, [Decide(true), Publish, Clear], last);
    Join(FRESH, [FirstLook, SecondLook, Drained(false), FinalLook], arrival);
    Join(FRESH, [FirstLook, SecondLook, Drained(false), FinalLook] + arrival, [Decide(true), Publish, Clear]);
  }

  lemma Walk(d: Dir, steps: seq<Step>, last: Dir)
    requires d == FRESH && steps == [FirstLook, SecondLook, Drained(false), FinalLook]
    requires last == d.(worker := Deciding)
    ensures LegalSteps(d, steps) && AfterSteps(d, steps) == last
  {
    assert steps[1..] == [SecondLook, Drained(false), FinalLook];
    assert steps[1..][1..] == [Drained(false), FinalLook];
    assert steps[1..][1..][1..] == [FinalLook] && [FinalLook][1..] == [];
    var d1, d2, d3 := d.(worker := Prepared), d.(worker := Running), d.(worker := Checking);
    assert LegalSteps(d3, [FinalLook]) && AfterSteps(d3, [FinalLook]) == last;
    assert LegalSteps(d2, steps[1..][1..]) && AfterSteps(d2, steps[1..][1..]) == last;
    assert LegalSteps(d1, steps[1..]) && AfterSteps(d1, steps[1..]) == last;
  }

  lemma WalkArrival(d: Dir, steps: seq<Step>, last: Dir)
    requires d.worker == Deciding && d.result.None? && !d.marker && d.cancellers == map[] && !d.early
    requires steps == [Arrive(0), Look(0), Mark(0), Recheck(0)]
    requires last == d.(cancellers := map[0 := Left], marker := true, marked := true)
    ensures LegalSteps(d, steps) && AfterSteps(d, steps) == last
  {
    assert steps[1..] == [Look(0), Mark(0), Recheck(0)];
    assert steps[1..][1..] == [Mark(0), Recheck(0)];
    assert steps[1..][1..][1..] == [Recheck(0)] && [Recheck(0)][1..] == [];
    var d1, d2 := d.(cancellers := map[0 := Looking]), d.(cancellers := map[0 := Marking]);
    var d3 := last.(cancellers := map[0 := Rechecking]);
    assert Stepped(d, Arrive(0)) == d1 && Stepped(d1, Look(0)) == d2 && Stepped(d2, Mark(0)) == d3;
    assert Stepped(d3, Recheck(0)) == last;
    assert CanStep(d, Arrive(0)) && CanStep(d1, Look(0)) && CanStep(d2, Mark(0)) && CanStep(d3, Recheck(0));
    hide Stepped, CanStep;
    assert LegalSteps(d3, [Recheck(0)]) && AfterSteps(d3, [Recheck(0)]) == last;
    assert LegalSteps(d2, steps[1..][1..]) && AfterSteps(d2, steps[1..][1..]) == last;
    assert LegalSteps(d1, steps[1..]) && AfterSteps(d1, steps[1..]) == last;
  }

  lemma WalkDecision(d: Dir, steps: seq<Step>, last: Dir)
    requires d.worker == Deciding && d.result.None? && d.status == RunFailed
    requires steps == [Decide(true), Publish, Clear]
    requires last == d.(worker := Finished, status := RunSucceeded, result := Some(RunSucceeded), marker := false)
    ensures LegalSteps(d, steps) && AfterSteps(d, steps) == last
  {
    assert steps[1..] == [Publish, Clear];
    assert steps[1..][1..] == [Clear] && [Clear][1..] == [];
    var d1 := d.(worker := Publishing, status := RunSucceeded);
    var d2 := d1.(worker := Clearing, result := Some(RunSucceeded));
    assert LegalSteps(d2, [Clear]) && AfterSteps(d2, [Clear]) == last;
    assert LegalSteps(d1, steps[1..]) && AfterSteps(d1, steps[1..]) == last;
  }

  lemma {:induction false} Join(d: Dir, first: seq<Step>, second: seq<Step>)
    requires LegalSteps(d, first) && LegalSteps(AfterSteps(d, first), second)
    ensures LegalSteps(d, first + second)
    ensures AfterSteps(d, first + second) == AfterSteps(AfterSteps(d, first), second)
    decreases |first|
  {
    hide CanStep, Stepped;
    if first == [] {
      assert first + second == second;
    } else {
      assert (first + second)[1..] == first[1..] + second;
      Join(Stepped(d, first[0]), first[1..], second);
    }
  }

  // -- the two programs --------------------------------------------------------------

  ghost predicate Reached(start: Dir, steps: seq<Step>, d: Dir) {
    LegalSteps(start, steps) && AfterSteps(start, steps) == d
  }

  lemma OneFurther(start: Dir, steps: seq<Step>, d: Dir, s: Step)
    requires Reached(start, steps, d) && CanStep(d, s)
    ensures Reached(start, steps + [s], Stepped(d, s))
  {
    hide CanStep, Stepped;
    assert [s][1..] == [];
    Join(start, steps, [s]);
  }

  datatype Process = Worker | Canceller(id: nat)

  function Actor(s: Step): Process {
    match s
    case Arrive(id) => Canceller(id)
    case Look(id) => Canceller(id)
    case Mark(id) => Canceller(id)
    case Recheck(id) => Canceller(id)
    case Remove(id) => Canceller(id)
    case _ => Worker
  }

  // What only a process itself changes.
  predicate OwnKept(me: Process, before: Dir, later: Dir) {
    match me
    case Worker =>
      && later.worker == before.worker && later.status == before.status && later.result == before.result
      && (!BeforeFinalLook(before.worker) ==> later.early == before.early)
    case Canceller(id) =>
      && (id in before.cancellers <==> id in later.cancellers)
      && (id in before.cancellers ==> later.cancellers[id] == before.cancellers[id])
  }

  lemma OthersKeepOwn(me: Process, d: Dir, s: Step)
    requires CanStep(d, s) && Actor(s) != me
    ensures OwnKept(me, d, Stepped(d, s))
  {
  }

  // The operations of a canceller, one after the other.
  lemma CancellerAdvances(d: Dir, id: nat)
    ensures id !in d.cancellers ==> CanStep(d, Arrive(id)) && At(Stepped(d, Arrive(id)), id, Looking)
    ensures At(d, id, Looking) ==>
              CanStep(d, Look(id)) && (At(Stepped(d, Look(id)), id, Left) || At(Stepped(d, Look(id)), id, Marking))
    ensures At(d, id, Marking) ==>
              CanStep(d, Mark(id)) && (At(Stepped(d, Mark(id)), id, Left) || At(Stepped(d, Mark(id)), id, Rechecking))
    ensures At(d, id, Rechecking) ==>
              CanStep(d, Recheck(id))
              && (At(Stepped(d, Recheck(id)), id, Left) || At(Stepped(d, Recheck(id)), id, Removing))
    ensures At(d, id, Removing) ==> CanStep(d, Remove(id)) && At(Stepped(d, Remove(id)), id, Left)
  {
  }

  // The state directory of one run, as its processes find it. Each method is one
  // process; before each of its file operations the others do whatever they can of
  // the moves they are given, and the steps of all of them are handed back.
  class StateDir {
    var dir: Dir

    constructor ()
      ensures dir == FRESH
    {
      dir := FRESH;
    }

    method Do(s: Step, ghost start: Dir, ghost steps: seq<Step>) returns (ghost later: seq<Step>)
      requires Reached(start, steps, dir) && CanStep(dir, s)
      modifies this
      ensures dir == Stepped(old(dir), s) && Reached(start, later, dir)
    {
      hide Reached;
      OneFurther(start, steps, dir, s);
      dir := Stepped(dir, s);
      later := steps + [s];
    }

    method Others(me: Process, moves: seq<Step>, ghost start: Dir, ghost steps: seq<Step>)
      returns (ghost later: seq<Step>)
      requires Reached(start, steps, dir)
      modifies this
      ensures Reached(start, later, dir) && OwnKept(me, old(dir), dir)
    {
      hide Reached, CanStep, Stepped;
      later := steps;
      for i := 0 to |moves|
        invariant Reached(start, later, dir) && OwnKept(me, old(dir), dir)
      {
        if Actor(moves[i]) != me && CanStep(dir, moves[i]) {
          OthersKeepOwn(me, dir, moves[i]);
          later := Do(moves[i], start, later);
        }
      }
    }

    // worker.run. `raisesAt` is before which of its first five operations an exception
    // strikes, if it is one of them, `sees` whether the drain loop
    // looks at the marker while it is there, and `good` whether the child ended well.
    method Work(others: seq<seq<Step>>, raisesAt: Option<nat>, sees: bool, good: bool, ghost start: Dir,
                ghost steps: seq<Step>)
      returns (ghost later: seq<Step>)
      requires |others| == 7 && Reached(start, steps, dir)
      requires dir.worker == Starting && dir.status == RunFailed
      modifies this
      ensures Reached(start, later, dir) && dir.worker == Finished && dir.result.Some? && !dir.marker
      ensures dir.result.value in {RunSucceeded, RunFailed, RunCancelled}
      ensures dir.result == Some(RunSucceeded) ==> (raisesAt.None? || raisesAt.value >= 5) && good
      ensures raisesAt == Some(0) ==> dir.result == Some(RunFailed)
      ensures start == FRESH && dir.early ==> dir.result != Some(RunSucceeded)
      ensures start == FRESH && (raisesAt.None? || raisesAt.value >= 5) ==>
                dir.result == Some(if dir.early then RunCancelled else if good then RunSucceeded else RunFailed)
      ensures start == FRESH && dir.result == Some(RunCancelled) ==> dir.early
    {
      hide Reached, Inv;
      later := Others(Worker, others[0], start, steps);
      if raisesAt == Some(0) {
        later := Do(Raise, start, later);
      } else {
        later := Do(FirstLook, start, later);
        VerdictIsEarly(start, later, dir);
        if dir.worker == Prepared {
          later := Others(Worker, others[1], start, later);
          if raisesAt == Some(1) {
            later := Do(Raise, start, later);
          } else {
            later := RunChild(others, raisesAt, sees, good, start, later);
          }
        }
      }
      later := Conclude(others, start, later);
      VerdictIsEarly(start, later, dir);
    }

    // The result, and only then the marker.
    method Conclude(others: seq<seq<Step>>, ghost start: Dir, ghost steps: seq<Step>)
      returns (ghost later: seq<Step>)
      requires |others| == 7 && Reached(start, steps, dir) && dir.worker == Publishing
      modifies this
      ensures Reached(start, later, dir) && dir.worker == Finished && !dir.marker
      ensures dir.result == Some(old(dir).status) && dir.early == old(dir).early
    {
      hide Reached;
      later := Others(Worker, others[5], start, steps);
      later := Do(Publish, start, later);
      later := Others(Worker, others[6], start, later);
      later := Do(Clear, start, later);
    }

    // The second look and the child process.
    method RunChild(others: seq<seq<Step>>, raisesAt: Option<nat>, sees: bool, good: bool, ghost start: Dir,
                    ghost steps: seq<Step>)
      returns (ghost later: seq<Step>)
      requires |others| == 7 && Reached(start, steps, dir)
      requires dir.worker == Prepared && dir.status == RunFailed
      modifies this
      ensures Reached(start, later, dir) && dir.worker == Publishing
      ensures dir.status in {RunSucceeded, RunFailed, RunCancelled}
      ensures dir.status == RunSucceeded ==> raisesAt !in {Some(2), Some(3), Some(4)} && good
      ensures start == FRESH && raisesAt !in {Some(2), Some(3), Some(4)} ==>
                dir.status == if dir.early then RunCancelled else if good then RunSucceeded else RunFailed
    {
      hide Reached;
      later := Do(SecondLook, start, steps);
      if dir.worker == Running {
        later := Others(Worker, others[2], start, later);
        if raisesAt == Some(2) {
          later := Do(Raise, start, later);
          return;
        }
        later := Do(Drained(sees && dir.marker), start, later);
      }
      later := EndRun(others, raisesAt, good, start, later);
    }

    // The final look and the verdict.
    method EndRun(others: seq<seq<Step>>, raisesAt: Option<nat>, good: bool, ghost start: Dir,
                  ghost steps: seq<Step>)
      returns (ghost later: seq<Step>)
      requires |others| == 7 && Reached(start, steps, dir)
      requires dir.worker == Checking && dir.status in {RunFailed, RunCancelled}
      modifies this
      ensures Reached(start, later, dir) && dir.worker == Publishing
      ensures dir.status in {RunSucceeded, RunFailed, RunCancelled}
      ensures dir.status == RunSucceeded ==> raisesAt !in {Some(3), Some(4)} && good
      ensures old(dir).status == RunCancelled ==> dir.status == RunCancelled
      ensures start == FRESH && raisesAt !in {Some(3), Some(4)} ==>
                dir.status == if dir.early then RunCancelled else if good then RunSucceeded else RunFailed
    {
      hide Reached, Inv;
      later := Others(Worker, others[3], start, steps);
      if raisesAt == Some(3) {
        later := Do(Raise, start, later);
        return;
      }
      later := Do(FinalLook, start, later);
      later := Others(Worker, others[4], start, later);
      if raisesAt == Some(4) {
        later := Do(Raise, start, later);
        return;
      }
      VerdictIsEarly(start, later, dir);
      later := Do(Decide(good), start, later);
    }

    // CodexAdapter.cancel.
    method Cancel(id: nat, others: seq<seq<Step>>, ghost start: Dir, ghost steps: seq<Step>)
      returns (ghost later: seq<Step>)
      requires |others| == 4 && Reached(start, steps, dir) && id !in dir.cancellers
      modifies this
      ensures Reached(start, later, dir) && At(dir, id, Left)
    {
      hide Reached, CanStep, Stepped;
      CancellerAdvances(dir, id);
      later := Do(Arrive(id), start, steps);
      later := Others(Canceller(id), others[0], start, later);
      CancellerAdvances(dir, id);
      later := Do(Look(id), start, later);
      if At(dir, id, Left) { return; }
      later := Others(Canceller(id), others[1], start, later);
      CancellerAdvances(dir, id);
      later := Do(Mark(id), start, later);
      if At(dir, id, Left) { return; }
      later := Others(Canceller(id), others[2], start, later);
      CancellerAdvances(dir, id);
      later := Do(Recheck(id), start, later);
      if At(dir, id, Left) { return; }
      later := Others(Canceller(id), others[3], start, later);
      CancellerAdvances(dir, id);
      later := Do(Remove(id), start, later);
    }
  }

  // The worker's verdict and the markers made before its final look.
  lemma VerdictIsEarly(start: Dir, steps: seq<Step>, d: Dir)
    requires Reached(start, steps, d)
    ensures start == FRESH ==>
              && (d.status == RunCancelled ==> d.early)
              && (d.early ==> d.status != RunSucceeded && d.result != Some(RunSucceeded))
              && (d.worker == Deciding ==> (d.early <==> d.status == RunCancelled))
              && (d.result.Some? ==> d.result == Some(d.status))
  {
    if start == FRESH { StepsKeepInv(FRESH, steps); }
  }
}
