// The reconciliation pass (src/factory/orchestration/reconciliation.py): refresh
// finished runs whose task has not caught up, never start anything.
module Reconciliation {
  import opened Lifecycle
  import opened Models
  import opened Published
  import opened Services
  import opened Store
  import opened Tracking

  datatype Finding = Skipped | MissingRun | ActiveMismatch | Refreshable

  function Classify(t: Task): Finding {
    if t.status == Ready then (if t.HasActiveRun() then ActiveMismatch else Skipped)
    else if !InProgress(t.status) then Skipped
    else if t.runs == [] then MissingRun
    else if !t.Latest().IsTerminal() then (if t.status != Running then ActiveMismatch else Skipped)
    else Refreshable
  }

  // The same by what is stored.
  lemma ClassifiedByFacts(t: Task)
    ensures Classify(t) == MissingRun <==>
              t.status in {Claimed, Running, Validating, PrOpen} && t.runs == []
    ensures Classify(t) == ActiveMismatch <==>
              || (t.status == Ready
                  && exists r :: r in t.runs && r.status !in {RunSucceeded, RunFailed, RunCancelled})
              || (t.status in {Claimed, Validating, PrOpen} && t.runs != []
                  && t.runs[|t.runs| - 1].status !in {RunSucceeded, RunFailed, RunCancelled})
    ensures Classify(t) == Refreshable <==>
              && t.status in {Claimed, Running, Validating, PrOpen} && t.runs != []
              && t.runs[|t.runs| - 1].status in {RunSucceeded, RunFailed, RunCancelled}
  {
  }

  // A task after the pass has looked at it.
  function Reconciled(t: Task, setup: Setup, env: Env): Task {
    if Classify(t) == Refreshable then Refreshed(t, setup, env) else t
  }

  // Listed tasks with the given finding, and listed tasks whose status moved.
  function Found(tasks: map<nat, Task>, ids: seq<nat>, f: Finding): nat {
    if ids == [] then 0
    else
      var id := ids[|ids| - 1];
      Found(tasks, ids[..|ids| - 1], f) + if id in tasks && Classify(tasks[id]) == f then 1 else 0
  }

  predicate StatusMoved(before: map<nat, Task>, later: map<nat, Task>, id: nat) {
    id in before && id in later && later[id].status != before[id].status
  }

  function Repaired(before: map<nat, Task>, later: map<nat, Task>, ids: seq<nat>): nat {
    if ids == [] then 0
    else Repaired(before, later, ids[..|ids| - 1])
         + if StatusMoved(before, later, ids[|ids| - 1]) then 1 else 0
  }

  lemma {:induction false} RepairedBefore(before: map<nat, Task>, a: map<nat, Task>, b: map<nat, Task>,
                                          ids: seq<nat>)
    requires forall id :: id in ids ==> StatusMoved(before, a, id) == StatusMoved(before, b, id)
    ensures Repaired(before, a, ids) == Repaired(before, b, ids)
    decreases |ids|
  {
    if ids != [] {
      assert ids[|ids| - 1] in ids;
      RepairedBefore(before, a, b, ids[..|ids| - 1]);
    }
  }

  // The stored tasks in listing order, each once.
  ghost predicate Listing(tasks: map<nat, Task>, ids: seq<nat>) {
    && (forall id :: id in ids ==> id in tasks && EarlierFinished(tasks[id]))
    && (forall i, j :: 0 <= i < j < |ids| ==> ids[i] != ids[j])
  }

  // The first k listed tasks have been reconciled, and nothing else has changed.
  ghost predicate Swept(before: map<nat, Task>, later: map<nat, Task>, ids: seq<nat>, setup: Setup,
                        envs: seq<Env>, k: nat)
    requires k <= |ids| == |envs|
  {
    && later.Keys == before.Keys
    && (forall i :: 0 <= i < k ==>
          ids[i] in before && later[ids[i]] == Reconciled(before[ids[i]], setup, envs[i]))
    && (forall id :: id in before && id !in ids[..k] ==> later[id] == before[id])
  }

  lemma SweptOneMore(before: map<nat, Task>, was: map<nat, Task>, later: map<nat, Task>, ids: seq<nat>,
                     setup: Setup, envs: seq<Env>, k: nat)
    requires k < |ids| == |envs| && Swept(before, was, ids, setup, envs, k) && Listing(before, ids)
    requires OnlyTask(was, later, ids[k])
    requires ids[k] in before && later[ids[k]] == Reconciled(before[ids[k]], setup, envs[k])
    ensures Swept(before, later, ids, setup, envs, k + 1)
  {
    hide Reconciled;
    assert ids[..k + 1] == ids[..k] + [ids[k]];
    assert forall i :: 0 <= i < k ==> ids[i] != ids[k];
  }

  // One pass over the listing. A refresh that raises ends it: `done` tasks have
  // been looked at by then.
  method Reconcile(tracking: RunTrackingService, ids: seq<nat>, envs: seq<Env>)
    returns (repaired: nat, missing: nat, mismatch: nat, done: nat)
    requires tracking.store.Valid() && |envs| == |ids| && Listing(tracking.store.tasks, ids)
    modifies tracking.store
    ensures tracking.store.Valid() && done <= |ids|
    ensures Swept(old(tracking.store.tasks), tracking.store.tasks, ids, tracking.setup, envs, done)
    ensures missing == Found(old(tracking.store.tasks), ids[..done], MissingRun)
    ensures mismatch == Found(old(tracking.store.tasks), ids[..done], ActiveMismatch)
    ensures repaired == Repaired(old(tracking.store.tasks), tracking.store.tasks, ids[..done])
    ensures done < |ids| ==>
              ids[done] in old(tracking.store.tasks)
              && !Passable(old(tracking.store.tasks)[ids[done]], tracking.setup, envs[done])
  {
    hide Consistent, Classify, Reconciled, Passable, Swept, Listing, Found, Repaired;
    var store := tracking.store;
    ghost var before := store.tasks;
    NothingSwept(before, ids, tracking.setup, envs);
    repaired, missing, mismatch, done := 0, 0, 0, 0;
    while done < |ids|
      invariant done <= |ids| && store.Valid()
      invariant Swept(before, store.tasks, ids, tracking.setup, envs, done)
      invariant missing == Found(before, ids[..done], MissingRun)
      invariant mismatch == Found(before, ids[..done], ActiveMismatch)
      invariant repaired == Repaired(before, store.tasks, ids[..done])
    {
      var id := ids[done];
      ghost var was := store.tasks;
      NextUnswept(before, was, ids, tracking.setup, envs, done);
      var finding, moved := Visit(tracking, id, envs[done]);
      if finding.None? { return; }
      missing := if finding.value == MissingRun then missing + 1 else missing;
      mismatch := if finding.value == ActiveMismatch then mismatch + 1 else mismatch;
      repaired := if moved then repaired + 1 else repaired;
      CountedMore(before, was, store.tasks, ids, done);
      SweptOneMore(before, was, store.tasks, ids, tracking.setup, envs, done);
      done := done + 1;
    }
  }

  lemma NothingSwept(tasks: map<nat, Task>, ids: seq<nat>, setup: Setup, envs: seq<Env>)
    requires |envs| == |ids|
    ensures Swept(tasks, tasks, ids, setup, envs, 0)
    ensures forall f :: Found(tasks, ids[..0], f) == 0
    ensures Repaired(tasks, tasks, ids[..0]) == 0
  {
  }

  // The next listed task is stored, and still as it was.
  lemma NextUnswept(before: map<nat, Task>, was: map<nat, Task>, ids: seq<nat>, setup: Setup,
                    envs: seq<Env>, k: nat)
    requires k < |ids| == |envs| && Listing(before, ids) && Swept(before, was, ids, setup, envs, k)
    ensures ids[k] in before && ids[k] in was && was[ids[k]] == before[ids[k]]
    ensures EarlierFinished(was[ids[k]])
  {
    assert ids[k] in ids && ids[k] !in ids[..k];
  }

  lemma CountedMore(before: map<nat, Task>, was: map<nat, Task>, later: map<nat, Task>, ids: seq<nat>, k: nat)
    requires k < |ids| && Listing(before, ids) && ids[k] in before && ids[k] in was
    requires was[ids[k]] == before[ids[k]] && OnlyTask(was, later, ids[k])
    ensures forall f :: Found(before, ids[..k + 1], f) ==
                        Found(before, ids[..k], f) + if Classify(before[ids[k]]) == f then 1 else 0
    ensures Repaired(before, later, ids[..k + 1]) ==
            Repaired(before, was, ids[..k]) + if StatusMoved(was, later, ids[k]) then 1 else 0
  {
    assert ids[..k + 1][..k] == ids[..k];
    forall id | id in ids[..k]
      ensures StatusMoved(before, was, id) == StatusMoved(before, later, id)
    {
      assert id != ids[k];
    }
    RepairedBefore(before, was, later, ids[..k]);
  }

  // One task; None when its refresh raises, which changes nothing.
  method Visit(tracking: RunTrackingService, id: nat, env: Env)
    returns (finding: Option<Finding>, moved: bool)
    requires tracking.store.Valid() && id in tracking.store.tasks
    requires EarlierFinished(tracking.store.tasks[id])
    modifies tracking.store
    ensures tracking.store.Valid() && OnlyTask(old(tracking.store.tasks), tracking.store.tasks, id)
    ensures finding.None? <==> !Passable(old(tracking.store.tasks)[id], tracking.setup, env)
    ensures finding.None? ==> tracking.store.tasks == old(tracking.store.tasks)
    ensures finding.Some? ==>
              && finding.value == Classify(old(tracking.store.tasks)[id])
              && tracking.store.tasks[id] == Reconciled(old(tracking.store.tasks)[id], tracking.setup, env)
    ensures moved <==> StatusMoved(old(tracking.store.tasks), tracking.store.tasks, id)
  {
    hide Consistent, EarlierFinished, Refreshed, ValidateRevision;
    var t := tracking.store.tasks[id];
    assert tracking.store.tasks == tracking.store.tasks[id := t];
    if !Passable(t, tracking.setup, env) { return None, false; }
    if Classify(t) == Refreshable {
      NotCut(t, tracking.setup, env);
      tracking.Refresh(id, t.Latest().id, None, env, 2);
    }
    return Some(Classify(t)), tracking.store.tasks[id].status != t.status;
  }

  predicate Passable(t: Task, setup: Setup, env: Env) {
    Classify(t) == Refreshable && Evaluates(t, setup) ==> Completes(t, setup, env)
  }

  // A second pass moves no task that the first has looked at, whatever the gates
  // and the workspace answer it.
  lemma SecondPassRepairsNothing(t: Task, setup: Setup, first: Env, second: Env)
    requires Passable(t, setup, first)
    ensures Reconciled(Reconciled(t, setup, first), setup, second).status
            == Reconciled(t, setup, first).status
  {
    hide ValidateRevision;
    if Classify(t) == Refreshable {
      var u := Refreshed(t, setup, first);
      if Evaluates(t, setup) {
        var v := WithVerdict(t, ValidateRevision(t, t.Latest(), setup.specs, first));
        assert v.Latest().status == t.Latest().status;
        DrivenOnce(v);
        assert DriveTarget(u) == DriveTarget(v);
      } else {
        DrivenOnce(t);
        assert u.Latest() == t.Latest();
      }
      if Classify(u) == Refreshable && Evaluates(u, setup) && Completes(u, setup, second) {
        var w := WithVerdict(u, ValidateRevision(u, u.Latest(), setup.specs, second));
        assert w.Latest().status == u.Latest().status == RunSucceeded;
      }
    }
  }
}
