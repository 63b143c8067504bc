// What a task waiting for a human guarantees about its latest run.
module Published {
  import opened Lifecycle
  import opened Models
  import opened Protocol

  // One session drives a task at a time (src/factory/orchestration/watch.py:8-12,
  // and each pool candidate is started at most once): a claim is committed only while
  // no dispatch of the task is in flight; an update of a run is an update of the latest
  // one, which nobody but an orphan recovery has touched since the session read it; and
  // requeue, publication and review find the runs and rows that they have read. A
  // command that dispatches, refreshes, reconciles or publishes the same task beside the
  // session is a second session. Retries, overrides, recoveries, delivery and closure
  // sync act at any moment, on old facts or new, also beside a live dispatch; processes
  // die anywhere.
  predicate Serial(n: Node, e: Event) {
    match e
    case Claim => Idle(n)
    case Settle(i, read, _, _, _) =>
      n.claimants == 0 && i + 1 == |n.task.runs|
      && (n.task.runs[i] == read || WrittenOff(n.task.runs[i], read))
    case Revalidate(i, _, _, _) =>
      n.claimants == 0 && i + 1 == |n.task.runs| && FindsItsRun(n, e)
    case Requeue(seen) => seen.runs == n.task.runs
    case BindRow(base, _, _) => CanBindRow(n.task, base)
    case OpenPr => Publishes(n.task)
    case RequestRework(reviewed, _) => CanRequestRework(n.task) && reviewed == n.task.Latest().id
    case _ => true
  }

  // What publication has checked before it hands a task off.
  predicate Publishes(t: Task) {
    && t.runs != []
    && t.Latest().Outcome() == ReadyForNextPhase
    && t.Latest().workspace.Some?
    && t.HasRowFor(t.Latest().id)
  }

  // What an orphan recovery has made of a run since it was read.
  predicate WrittenOff(stored: Run, read: Run) {
    read.status == RunRunning && stored == read.(status := RunFailed)
  }

  predicate Idle(n: Node) {
    n.claimants == 0 && n.starters == 0 && !n.task.HasActiveRun()
  }

  // An update finds the run that its caller has read.
  predicate FindsItsRun(n: Node, e: Event) {
    match e
    case Settle(i, read, _, _, _) => i < |n.task.runs| && n.task.runs[i] == read
    case Revalidate(i, read, _, _) =>
      i < |n.task.runs| && read.runs != [] && n.task.runs[i] == read.Latest()
    case _ => true
  }

  predicate SerialHistory(n: Node, events: seq<Event>)
    decreases |events|
  {
    events == [] || (Serial(n, events[0]) && SerialHistory(Next(n, events[0]), events[1..]))
  }

  // The ways out of BLOCKED into work.
  predicate Reenters(n: Node, e: Event) {
    n.task.status == Blocked && (e.RetryReady? || e.RetryPublication? || e.Override? || e.Validate?)
  }

  predicate Waiting(s: TaskStatus) { s in {Discovered, Ready, ChangesRequested} }

  // Operators and the session take turns: a task re-enters work only while no dispatch
  // is in flight, by a refresh only for a certified run; it is not requeued while its
  // run is being validated again, its run is not written off while it is collected, and
  // its row is not rewritten with a status it has left.
  predicate Alone(n: Node, e: Event) {
    && (Reenters(n, e) ==> Idle(n))
    && (Reenters(n, e) && e.Validate? ==> n.task.runs != [] && n.task.Latest().IsBound())
    && (e.Revalidate? ==> !Waiting(n.task.status))
    && FindsItsRun(n, e)
    && (e.SetReason? ==> e.held == n.task.status)
  }

  predicate CalmHistory(n: Node, events: seq<Event>)
    decreases |events|
  {
    events == []
    || (Serial(n, events[0]) && Alone(n, events[0]) && CalmHistory(Next(n, events[0]), events[1..]))
  }

  // -- certified revisions ------------------------------------------------

  // A bound revision certifies a successful run whose required gates are green.
  ghost predicate RevisionsCertified(t: Task) {
    forall i :: 0 <= i < |t.runs| && t.runs[i].revision.Some? ==>
      t.runs[i].status == RunSucceeded && RequiredPassed(t.runs[i].gates)
  }

  ghost predicate KeepsBoundRuns(before: Task, later: Task) {
    |before.runs| <= |later.runs|
    && forall i :: 0 <= i < |before.runs| && before.runs[i].revision.Some? ==>
         later.runs[i] == before.runs[i]
  }

  // An update whose caller has read an older run than the stored one, which is
  // certified by now, and who has come to another verdict.
  predicate Overwrites(n: Node, e: Event) {
    IsUpdate(e) && e.index < |n.task.runs| && !FindsItsRun(n, e)
    && n.task.runs[e.index].revision.Some?
    && Written(n.task.runs[e.index], e) != n.task.runs[e.index]
  }

  lemma StepKeepsBoundRuns(p: Policy, n: Node, e: Event)
    requires Enabled(p, n, e) && RevisionsCertified(n.task)
    ensures RevisionsCertified(Next(n, e).task)
    ensures KeepsBoundRuns(n.task, Next(n, e).task) <==> !Overwrites(n, e)
  {
    RunsAfterStep(p, n, e);
    if IsUpdate(e) && FindsItsRun(n, e) { FoundIsUncertified(p, n, e); }
    hide Enabled, Next;
    var before, later := n.task.runs, Next(n, e).task.runs;
    if Overwrites(n, e) { assert later[e.index] != before[e.index]; }
  }

  // Every caller of an update has read a run without a certified revision.
  lemma FoundIsUncertified(p: Policy, n: Node, e: Event)
    requires IsUpdate(e) && Enabled(p, n, e) && FindsItsRun(n, e) && RevisionsCertified(n.task)
    ensures n.task.runs[e.index].revision.None?
  {
  }

  predicate Overwritten(n: Node, events: seq<Event>)
    decreases |events|
  {
    events != [] && (Overwrites(n, events[0]) || Overwritten(Next(n, events[0]), events[1..]))
  }

  // Every step of a history leaves the certified runs of its state as they are.
  ghost predicate BoundRunsFixed(n: Node, events: seq<Event>)
    decreases |events|
  {
    events == []
    || (KeepsBoundRuns(n.task, Next(n, events[0]).task) && BoundRunsFixed(Next(n, events[0]), events[1..]))
  }

  // Under every interleaving a stored revision certifies a successful run with green
  // required gates. Certified runs stay what they are exactly as long as no update with
  // another verdict is decided on a read from before the certificate; storage does not
  // prevent that.
  lemma {:induction false} BoundRunsFixedExactly(p: Policy, n: Node, events: seq<Event>)
    requires Legal(p, n, events) && RevisionsCertified(n.task)
    ensures RevisionsCertified(After(n, events).task)
    ensures BoundRunsFixed(n, events) <==> !Overwritten(n, events)
    ensures BoundRunsFixed(n, events) ==> KeepsBoundRuns(n.task, After(n, events).task)
    decreases |events|
  {
    hide Enabled, Next, Overwrites;
    if events != [] {
      StepKeepsBoundRuns(p, n, events[0]);
      hide RevisionsCertified;
      BoundRunsFixedExactly(p, Next(n, events[0]), events[1..]);
    }
  }

  predicate FindsItsRuns(n: Node, events: seq<Event>)
    decreases |events|
  {
    events == [] || (FindsItsRun(n, events[0]) && FindsItsRuns(Next(n, events[0]), events[1..]))
  }

  lemma NothingOverwritten(n: Node, e: Event)
    requires FindsItsRun(n, e)
    ensures !Overwrites(n, e)
  {
  }

  // It is enough that every update finds the run it has read.
  lemma {:induction false} FoundRunsStayFixed(p: Policy, n: Node, events: seq<Event>)
    requires Legal(p, n, events) && FindsItsRuns(n, events) && RevisionsCertified(n.task)
    ensures !Overwritten(n, events)
    decreases |events|
  {
    hide Enabled, Next, Overwrites, FindsItsRun;
    if events != [] {
      StepKeepsBoundRuns(p, n, events[0]);
      NothingOverwritten(n, events[0]);
      hide RevisionsCertified;
      FoundRunsStayFixed(p, Next(n, events[0]), events[1..]);
    }
  }

  // -- every row names a certified run -------------------------------------

  ghost predicate DistinctIds(runs: seq<Run>) {
    forall i, j :: 0 <= i < j < |runs| ==> runs[i].id != runs[j].id
  }

  ghost predicate RowsCertified(t: Task) {
    && RevisionsCertified(t)
    && DistinctIds(t.runs)
    && (forall q :: q in t.rows ==> CertifiedRun(t.runs, q.runId))
  }

  ghost predicate CertifiedRun(runs: seq<Run>, runId: nat) {
    exists i :: 0 <= i < |runs| && runs[i].id == runId && NonBlank(runs[i].revision)
  }

  // An update decided on an older read that brings no revision to a run that a row names
  // by now, or a row stored for a run that has none.
  predicate Uncertifies(n: Node, e: Event) {
    || (IsUpdate(e) && e.index < |n.task.runs| && !FindsItsRun(n, e)
        && n.task.HasRowFor(n.task.runs[e.index].id)
        && !NonBlank(Written(n.task.runs[e.index], e).revision))
    || (e.BindRow? && n.task.runs != [] && !NonBlank(n.task.Latest().revision))
  }

  lemma StepKeepsRowsCertified(p: Policy, n: Node, e: Event)
    requires Enabled(p, n, e) && RowsCertified(n.task)
    ensures RowsCertified(Next(n, e).task) <==> !Uncertifies(n, e)
  {
    StepKeepsBoundRuns(p, n, e);
    RunIdentity(p, n, e);
    RowsAfterStep(p, n, e);
    IdsStayDistinct(p, n, e);
    if e.BindRow? {
      BoundRowsCertified(p, n, e);
    } else {
      RunsAfterStep(p, n, e);
      hide Enabled, Next;
      OldRowsCertified(p, n, e);
    }
  }

  lemma IdsStayDistinct(p: Policy, n: Node, e: Event)
    requires Enabled(p, n, e) && DistinctIds(n.task.runs)
    ensures DistinctIds(Next(n, e).task.runs)
  {
    RunIdentity(p, n, e);
    if e.SaveRun? {
      assert forall i :: 0 <= i < |n.task.runs| ==> n.task.runs[i] in n.task.runs;
    }
  }

  lemma OldRowsCertified(p: Policy, n: Node, e: Event)
    requires Enabled(p, n, e) && !e.BindRow? && RowsCertified(n.task)
    ensures (forall q :: q in n.task.rows ==> CertifiedRun(Next(n, e).task.runs, q.runId))
            <==> !Uncertifies(n, e)
  {
    var t, later := n.task, Next(n, e).task.runs;
    RunsAfterStep(p, n, e);
    RunIdentity(p, n, e);
    IdsStayDistinct(p, n, e);
    if IsUpdate(e) && FindsItsRun(n, e) { FoundIsUncertified(p, n, e); }
    hide Enabled, Next;
    if Uncertifies(n, e) {
      var q :| q in t.rows && q.runId == t.runs[e.index].id;
      assert !CertifiedRun(later, q.runId) by {
        assert later[e.index].id == q.runId;
      }
    } else {
      forall q | q in t.rows
        ensures CertifiedRun(later, q.runId)
      {
        var i :| 0 <= i < |t.runs| && t.runs[i].id == q.runId && NonBlank(t.runs[i].revision);
        assert t.HasRowFor(t.runs[i].id);
        assert later[i].id == q.runId && NonBlank(later[i].revision);
      }
    }
  }

  lemma BoundRowsCertified(p: Policy, n: Node, e: Event)
    requires e.BindRow? && Enabled(p, n, e) && RowsCertified(n.task)
    ensures (forall q :: q in Next(n, e).task.rows ==> CertifiedRun(n.task.runs, q.runId))
            <==> !Uncertifies(n, e)
  {
    var t := n.task;
    var last := |t.runs| - 1;
    RowsAfterStep(p, n, e);
    assert CanStoreRow(t);
    BoundRowOwned(t, e.base, e.number, e.commit);
    hide Enabled, Next;
    if Uncertifies(n, e) {
      var q :| q in BoundRows(t, e.base, e.number, e.commit) && q.runId == t.runs[last].id;
      assert !CertifiedRun(t.runs, q.runId);
    } else {
      forall q | q in BoundRows(t, e.base, e.number, e.commit)
        ensures CertifiedRun(t.runs, q.runId)
      {
        if q !in t.rows {
          BoundRunId(t, e.base, e.number, e.commit, q);
          assert t.runs[last].id == q.runId;
        }
      }
    }
  }

  lemma BoundRunId(t: Task, base: string, number: nat, commit: string, q: PrRow)
    requires t.runs != [] && t.Latest().workspace.Some?
    requires q in BoundRows(t, base, number, commit) && q !in t.rows
    ensures q.runId == t.Latest().id
  {
    var rows := BoundRows(t, base, number, commit);
    var i :| 0 <= i < |rows| && rows[i] == q;
    if i < |t.rows| { assert t.rows[i] in t.rows; }
  }

  predicate Uncertified(n: Node, events: seq<Event>)
    decreases |events|
  {
    events != [] && (Uncertifies(n, events[0]) || Uncertified(Next(n, events[0]), events[1..]))
  }

  ghost predicate RowsStayCertified(n: Node, events: seq<Event>)
    decreases |events|
  {
    events == []
    || (RowsCertified(Next(n, events[0]).task) && RowsStayCertified(Next(n, events[0]), events[1..]))
  }

  // Under every interleaving: at every state each stored row names a run with a
  // nonblank certified revision, exactly as long as no row is stored for a run without
  // one and no committed update takes it away again.
  lemma {:induction false} RowsCertifiedExactly(p: Policy, n: Node, events: seq<Event>)
    requires Legal(p, n, events) && RowsCertified(n.task)
    ensures RowsStayCertified(n, events) <==> !Uncertified(n, events)
    ensures RowsStayCertified(n, events) ==> RowsCertified(After(n, events).task)
    decreases |events|
  {
    hide Enabled, Next, Uncertifies, RowsCertified;
    if events != [] {
      StepKeepsRowsCertified(p, n, events[0]);
      if !Uncertifies(n, events[0]) {
        RowsCertifiedExactly(p, Next(n, events[0]), events[1..]);
      }
    }
  }

  // -- the published state -------------------------------------------------

  predicate UnderReview(s: TaskStatus) { s in {PrOpen, WaitingHuman, ChangesRequested} }

  predicate PublishedLatest(t: Task) {
    t.runs != [] && t.Latest().IsPublishable() && t.HasRowFor(t.Latest().id)
  }

  predicate ReviewedIsPublished(t: Task) { UnderReview(t.status) ==> PublishedLatest(t) }

  // The three steps that leave a task under review without a published latest run: a
  // run saved for it, an update of the latest run decided on an older read that brings
  // no certificate, and
  // the handoff of a task whose latest run is not, or no more, published.
  predicate Unpublishes(n: Node, e: Event) {
    var t := n.task;
    || (UnderReview(t.status) && e.SaveRun?)
    || (UnderReview(t.status) && IsUpdate(e) && e.index + 1 == |t.runs| && !FindsItsRun(n, e)
        && !Written(t.runs[e.index], e).IsPublishable())
    || (e.OpenPr? && !PublishedLatest(t))
  }

  lemma StepKeepsReviewed(p: Policy, n: Node, e: Event)
    requires Enabled(p, n, e) && ReviewedIsPublished(n.task)
    ensures ReviewedIsPublished(Next(n, e).task) <==> !Unpublishes(n, e)
  {
    var t, u := n.task, Next(n, e).task;
    if e.SaveRun? || IsUpdate(e) {
      RunsAfterStep(p, n, e);
      RunIdentity(p, n, e);
      assert u.status == t.status && u.rows == t.rows;
      hide Enabled, Next;
    } else if e.OpenPr? {
      assert u.runs == t.runs && u.rows == t.rows;
    } else {
      OtherStepsReviewed(p, n, e);
    }
  }

  lemma OtherStepsReviewed(p: Policy, n: Node, e: Event)
    requires Enabled(p, n, e) && ReviewedIsPublished(n.task)
    requires !e.SaveRun? && !IsUpdate(e) && !e.OpenPr?
    ensures ReviewedIsPublished(Next(n, e).task)
  {
    var t, u := n.task, Next(n, e).task;
    assert UnderReview(u.status) ==> UnderReview(t.status) && u.runs == t.runs && u.rows == t.rows;
  }

  predicate Unpublished(n: Node, events: seq<Event>)
    decreases |events|
  {
    events != [] && (Unpublishes(n, events[0]) || Unpublished(Next(n, events[0]), events[1..]))
  }

  predicate StaysPublished(n: Node, events: seq<Event>)
    decreases |events|
  {
    events == []
    || (ReviewedIsPublished(Next(n, events[0]).task) && StaysPublished(Next(n, events[0]), events[1..]))
  }

  // Under every interleaving: at every state under review the latest run is green,
  // certified and owns a stored row, exactly as long as none of those three steps is
  // committed.
  lemma {:induction false} PublishedExactly(p: Policy, n: Node, events: seq<Event>)
    requires Legal(p, n, events) && ReviewedIsPublished(n.task)
    ensures StaysPublished(n, events) <==> !Unpublished(n, events)
    ensures StaysPublished(n, events) ==> ReviewedIsPublished(After(n, events).task)
    decreases |events|
  {
    hide Enabled, Next, Unpublishes, ReviewedIsPublished;
    if events != [] {
      StepKeepsReviewed(p, n, events[0]);
      if !Unpublishes(n, events[0]) {
        PublishedExactly(p, Next(n, events[0]), events[1..]);
      }
    }
  }

  // -- one session and its operators, in turns ----------------------------------

  predicate EarlierFinished(t: Task) {
    forall i :: 0 <= i < |t.runs| - 1 ==> t.runs[i].IsTerminal()
  }

  ghost predicate Inv(n: Node) {
    var t := n.task;
    && n.claimants + n.starters <= 1
    && (n.claimants + n.starters == 1 ==> t.status in {Claimed, Blocked, Cancelled, Done})
    && (n.claimants == 1 || Waiting(t.status) ==> !t.HasActiveRun())
    && EarlierFinished(t)
    && RowsCertified(t)
    && (t.status == Discovered ==> t.runs == [] && t.rows == [] && t.reworks == [])
    && (t.reworks != [] ==> t.runs != [])
    && ReviewedIsPublished(t)
  }

  lemma FreshInv(t: Task)
    requires Fresh(t)
    ensures Inv(Node(t, 0, 0))
  {
  }

  lemma FinishedRuns(t: Task)
    requires EarlierFinished(t) && (t.runs != [] ==> t.Latest().IsTerminal())
    ensures !t.HasActiveRun()
  {
    forall r | r in t.runs
      ensures r.IsTerminal()
    {
      var i :| 0 <= i < |t.runs| && t.runs[i] == r;
    }
  }

  lemma SameRunsSameActivity(t: Task, u: Task)
    requires t.runs == u.runs
    ensures t.HasActiveRun() == u.HasActiveRun()
  {
  }

  lemma BoundRowOwned(t: Task, base: string, number: nat, commit: string)
    requires t.runs != [] && t.Latest().workspace.Some?
    ensures t.(rows := BoundRows(t, base, number, commit)).HasRowFor(t.Latest().id)
  {
    var ws := t.Latest().workspace.value;
    var rows := BoundRows(t, base, number, commit);
    match FindRow(t.rows, ws.repo, ws.branch)
    case Some(i) => assert rows[i].runId == t.Latest().id && rows[i] in rows;
    case None => assert rows[|t.rows|] in rows;
  }

  lemma RowsRunCertified(t: Task, i: nat)
    requires RowsCertified(t) && i < |t.runs|
    ensures t.HasRowFor(t.runs[i].id) ==> NonBlank(t.runs[i].revision) && t.runs[i].status == RunSucceeded
  {
    if t.HasRowFor(t.runs[i].id) {
      var q :| q in t.rows && q.runId == t.runs[i].id;
      var j :| 0 <= j < |t.runs| && t.runs[j].id == q.runId && NonBlank(t.runs[j].revision);
      assert i == j;
    }
  }

  lemma SerialStaysCertified(p: Policy, n: Node, e: Event)
    requires Enabled(p, n, e) && Serial(n, e) && RowsCertified(n.task)
    ensures !Uncertifies(n, e)
  {
    if IsUpdate(e) { RowsRunCertified(n.task, e.index); }
  }

  lemma NothingUnpublished(p: Policy, n: Node, e: Event)
    requires Enabled(p, n, e) && Serial(n, e) && FindsItsRun(n, e) && Inv(n)
    ensures !Unpublishes(n, e)
  {
    var t := n.task;
    if e.OpenPr? { RowsRunCertified(t, |t.runs| - 1); }
    if e.Settle? { assert t.runs[e.index] in t.runs; }
    hide RowsCertified;
  }

  lemma StepKeepsInv(p: Policy, n: Node, e: Event)
    requires Enabled(p, n, e) && Serial(n, e) && Alone(n, e) && Inv(n)
    ensures Inv(Next(n, e))
  {
    assert RowsCertified(n.task) && ReviewedIsPublished(n.task);
    SerialStaysCertified(p, n, e);
    StepKeepsRowsCertified(p, n, e);
    NothingUnpublished(p, n, e);
    StepKeepsReviewed(p, n, e);
    StepKeepsOrder(p, n, e);
    hide Enabled, Next, Serial, Alone, RowsCertified, ReviewedIsPublished;
  }

  // The rest of the invariant: who is at work, and which runs can be active.
  lemma StepKeepsOrder(p: Policy, n: Node, e: Event)
    requires Enabled(p, n, e) && Serial(n, e) && Alone(n, e) && Inv(n)
    ensures
      var m := Next(n, e);
      && m.claimants + m.starters <= 1
      && (m.claimants + m.starters == 1 ==> m.task.status in {Claimed, Blocked, Cancelled, Done})
      && (m.claimants == 1 || Waiting(m.task.status) ==> !m.task.HasActiveRun())
      && EarlierFinished(m.task)
      && (m.task.status == Discovered ==> m.task.runs == [] && m.task.rows == [] && m.task.reworks == [])
      && (m.task.reworks != [] ==> m.task.runs != [])
  {
    hide RowsCertified, ReviewedIsPublished;
    if e.SaveRun? || IsUpdate(e) || e.RecoverOrphan? { RunStepKeepsOrder(p, n, e); }
    else { StatusStepKeepsOrder(p, n, e); }
  }

  lemma RunStepKeepsOrder(p: Policy, n: Node, e: Event)
    requires Enabled(p, n, e) && Serial(n, e) && FindsItsRun(n, e) && Inv(n)
    requires e.SaveRun? || IsUpdate(e) || e.RecoverOrphan?
    ensures
      var m := Next(n, e);
      && m.claimants + m.starters <= 1
      && (m.claimants + m.starters == 1 ==> m.task.status in {Claimed, Blocked, Cancelled, Done})
      && (m.claimants == 1 || Waiting(m.task.status) ==> !m.task.HasActiveRun())
      && EarlierFinished(m.task)
      && (m.task.status == Discovered ==> m.task.runs == [] && m.task.rows == [] && m.task.reworks == [])
      && (m.task.reworks != [] ==> m.task.runs != [])
  {
    hide RowsCertified, ReviewedIsPublished;
    var m := Next(n, e);
    assert forall i :: 0 <= i < |n.task.runs| ==> n.task.runs[i] in n.task.runs;
    assert EarlierFinished(m.task);
    if m.claimants == 1 || Waiting(m.task.status) { FinishedRuns(m.task); }
  }

  lemma StatusStepKeepsOrder(p: Policy, n: Node, e: Event)
    requires Enabled(p, n, e) && Serial(n, e) && Alone(n, e) && Inv(n)
    requires !e.SaveRun? && !IsUpdate(e) && !e.RecoverOrphan?
    ensures
      var m := Next(n, e);
      && m.claimants + m.starters <= 1
      && (m.claimants + m.starters == 1 ==> m.task.status in {Claimed, Blocked, Cancelled, Done})
      && (m.claimants == 1 || Waiting(m.task.status) ==> !m.task.HasActiveRun())
      && EarlierFinished(m.task)
      && (m.task.status == Discovered ==> m.task.runs == [] && m.task.rows == [] && m.task.reworks == [])
      && (m.task.reworks != [] ==> m.task.runs != [])
  {
    var m := Next(n, e);
    hide RowsCertified, ReviewedIsPublished, RequiredPassed, NonBlank, BoundRows, IsPublicationRetry;
    SameRunsSameActivity(n.task, m.task);
    if e.Requeue? || e.RequestRework? {
      assert n.task.runs != [] && n.task.Latest().IsTerminal();
      FinishedRuns(m.task);
    }
  }

  // In every reachable state of such a history, crashes at any write included: a task
  // at PR_OPEN, WAITING_HUMAN or CHANGES_REQUESTED has a latest run that succeeded, has
  // all required gates green, carries a nonblank certified revision and owns a stored
  // pull request row.
  lemma {:induction false} PublishedHistory(p: Policy, n: Node, events: seq<Event>)
    requires Inv(n) && Legal(p, n, events) && CalmHistory(n, events)
    ensures Inv(After(n, events))
    ensures UnderReview(After(n, events).task.status) ==> PublishedLatest(After(n, events).task)
    decreases |events|
  {
    hide Enabled, Next, Serial, Alone;
    if events == [] {
    } else {
      StepKeepsInv(p, n, events[0]);
      hide Inv;
      PublishedHistory(p, Next(n, events[0]), events[1..]);
    }
  }

  // -- one pull request row, one number ------------------------------------

  // A decision commits on the facts it was made on: a retry or an override sees the
  // stored task, where its own first write, CLAIMED -> BLOCKED, is the only change a
  // retry may have seen since; and a reworked task's run is in the checkout of the
  // latest run, which its dispatch looked up before it claimed the task.
  predicate FreshDecision(n: Node, e: Event) {
    match e
    case RetryRelease(seen) => seen == n.task
    case RetryReady(seen) => seen.(status := n.task.status, log := n.task.log) == n.task
    case RetryPublication(seen) => seen == n.task
    case Override(seen) => seen == n.task
    case SaveRun(r) =>
      n.task.reworks != [] && n.task.runs != [] ==> r.workspace == n.task.Latest().workspace
    case _ => true
  }

  predicate FreshHistory(n: Node, events: seq<Event>)
    decreases |events|
  {
    events == [] || (FreshDecision(n, events[0]) && FreshHistory(Next(n, events[0]), events[1..]))
  }

  // The one row belongs to the branch every later run works on; without a
  // review request the run it was stored for is still the latest one.
  ghost predicate OneRow(n: Node) {
    var t := n.task;
    && |t.rows| <= 1
    && (t.rows != [] ==>
          && t.runs != []
          && t.Latest().workspace.Some?
          && t.Latest().workspace.value.repo == t.rows[0].repo
          && t.Latest().workspace.value.branch == t.rows[0].head
          && (t.reworks == [] ==>
                && n.claimants == 0
                && t.status in {Validating, PrOpen, WaitingHuman, Blocked, Failed, Cancelled, Done}
                && t.Latest().IsPublishable()
                && t.Latest().id == t.rows[0].runId))
  }

  predicate SameRow(before: Task, later: Task) {
    before.rows != [] ==>
      |later.rows| == 1
      && later.rows[0].number == before.rows[0].number
      && later.rows[0].repo == before.rows[0].repo
      && later.rows[0].head == before.rows[0].head
      && later.rows[0].base == before.rows[0].base
  }

  lemma StepKeepsOneRow(p: Policy, n: Node, e: Event)
    requires Enabled(p, n, e) && Serial(n, e) && Alone(n, e) && FreshDecision(n, e)
    requires Inv(n) && OneRow(n)
    ensures OneRow(Next(n, e))
    ensures SameRow(n.task, Next(n, e).task)
  {
    hide Enabled, Next, Serial, Alone, FreshDecision, Inv, OneRow, SameRow;
    if e.BindRow? { RowBoundOnce(p, n, e); }
    else if e.SaveRun? || IsUpdate(e) || e.RecoverOrphan? { RunStepKeepsOneRow(p, n, e); }
    else { StatusStepKeepsOneRow(p, n, e); }
  }

  lemma RunStepKeepsOneRow(p: Policy, n: Node, e: Event)
    requires Enabled(p, n, e) && Serial(n, e) && Alone(n, e) && FreshDecision(n, e)
    requires e.SaveRun? || IsUpdate(e) || e.RecoverOrphan?
    requires Inv(n) && OneRow(n)
    ensures OneRow(Next(n, e))
    ensures SameRow(n.task, Next(n, e).task)
  {
    hide RowsCertified, ReviewedIsPublished;
  }

  lemma StatusStepKeepsOneRow(p: Policy, n: Node, e: Event)
    requires Enabled(p, n, e) && Serial(n, e) && Alone(n, e) && FreshDecision(n, e)
    requires !e.BindRow? && !e.SaveRun? && !IsUpdate(e) && !e.RecoverOrphan?
    requires Inv(n) && OneRow(n)
    ensures OneRow(Next(n, e))
    ensures SameRow(n.task, Next(n, e).task)
  {
    hide RowsCertified, ReviewedIsPublished;
  }

  lemma RowBoundOnce(p: Policy, n: Node, e: Event)
    requires e.BindRow? && Enabled(p, n, e) && Serial(n, e) && Inv(n) && OneRow(n)
    ensures OneRow(Next(n, e))
    ensures SameRow(n.task, Next(n, e).task)
  {
    if n.task.rows != [] { assert n.task.rows[0] in n.task.rows; }
  }

  // A task never owns two pull request rows, and the row it owns keeps its
  // number, repository, head and base through any number of review cycles; only
  // the run and commit it points at move.
  lemma {:induction false} OneRowHistory(p: Policy, n: Node, events: seq<Event>)
    requires Inv(n) && OneRow(n)
    requires Legal(p, n, events) && CalmHistory(n, events) && FreshHistory(n, events)
    ensures OneRow(After(n, events))
    ensures SameRow(n.task, After(n, events).task)
    decreases |events|
  {
    if events != [] {
      StepKeepsInv(p, n, events[0]);
      StepKeepsOneRow(p, n, events[0]);
      OneRowHistory(p, Next(n, events[0]), events[1..]);
    }
  }

  // -- what one driving session does -----------------------------------------

  // A legal history of one session and its operators in turns, decided on fresh facts.
  predicate Disciplined(p: Policy, n: Node, events: seq<Event>) {
    Legal(p, n, events) && CalmHistory(n, events) && FreshHistory(n, events)
  }

  predicate Session(p: Policy, n: Node, events: seq<Event>, later: Node) {
    Disciplined(p, n, events) && After(n, events) == later
  }

  lemma NoEvents(p: Policy, n: Node)
    ensures Session(p, n, [], n)
  {
  }

  lemma OneEvent(p: Policy, n: Node, e: Event)
    requires Enabled(p, n, e) && Serial(n, e) && Alone(n, e) && FreshDecision(n, e)
    ensures Session(p, n, [e], Next(n, e))
  {
    hide Enabled, Next, Serial, Alone, FreshDecision;
    assert [e][1..] == [];
    NoEvents(p, Next(n, e));
  }

  lemma {:induction false} JoinSessions(p: Policy, n: Node, first: seq<Event>, mid: Node,
                                        second: seq<Event>, later: Node)
    requires Session(p, n, first, mid) && Session(p, mid, second, later)
    ensures Session(p, n, first + second, later)
    decreases |first|
  {
    hide Enabled, Next, Serial, Alone, FreshDecision;
    if first == [] {
      assert first + second == second;
    } else {
      assert (first + second)[1..] == first[1..] + second;
      JoinSessions(p, Next(n, first[0]), first[1..], mid, second, later);
    }
  }
}
