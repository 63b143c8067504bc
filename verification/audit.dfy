// The append-only audit log (src/factory/infrastructure/persistence/schema.py
// _audit_insert and its triggers, security.py, feedback_sqlite.py, sqlite_base.py).
module Audit {
  import opened Models

  // What is to be recorded: everything of an event but its numbers.
  datatype Fact = Fact(key: string, name: string, trace: string, kind: string, id: string)

  datatype Event = Event(fact: Fact, number: nat, version: nat)

  // The two series an event is numbered in: its trace and its aggregate.
  datatype Series = Trace(id: string) | Aggregate(kind: string, id: string)

  predicate In(f: Fact, s: Series) {
    match s
    case Trace(id) => f.trace == id
    case Aggregate(kind, id) => f.kind == kind && f.id == id
  }

  function NumberIn(e: Event, s: Series): nat {
    if s.Trace? then e.number else e.version
  }

  function Count(log: seq<Event>, s: Series): nat {
    if log == [] then 0
    else Count(log[..|log| - 1], s) + if In(log[|log| - 1].fact, s) then 1 else 0
  }

  predicate HasKey(log: seq<Event>, key: string) { exists e :: e in log && e.fact.key == key }

  function TraceOf(f: Fact): Series { Trace(f.trace) }

  function AggregateOf(f: Fact): Series { Aggregate(f.kind, f.id) }

  // count(*) + 1 in either series.
  function Numbered(log: seq<Event>, f: Fact): Event {
    Event(f, Count(log, TraceOf(f)) + 1, Count(log, AggregateOf(f)) + 1)
  }

  // Every event carries, in either of its series, one more than the events before
  // it, and a key of its own.
  predicate Gapless(log: seq<Event>) {
    log == []
    || (var before, e := log[..|log| - 1], log[|log| - 1];
        Gapless(before) && e == Numbered(before, e.fact) && !HasKey(before, e.fact.key))
  }

  lemma CountNothing()
    ensures forall s :: Count([], s) == 0
  {
  }

  lemma CountMore(log: seq<Event>, e: Event, s: Series)
    ensures Count(log + [e], s) == Count(log, s) + if In(e.fact, s) then 1 else 0
  {
    assert (log + [e])[..|log|] == log;
  }

  lemma {:induction false} CountGrows(log: seq<Event>, k: nat, s: Series)
    requires k <= |log|
    ensures Count(log[..k], s) <= Count(log, s)
    decreases |log|
  {
    if k == |log| {
      assert log[..k] == log;
    } else {
      assert log[..|log| - 1][..k] == log[..k];
      CountGrows(log[..|log| - 1], k, s);
    }
  }

  // -- what gapless means ---------------------------------------------------------------

  // In any series, numbers strictly increase in insertion order and stay within the
  // series' length, so the unique index on a trace's numbers never refuses a writer.
  lemma NumbersIncrease(log: seq<Event>, s: Series, i: nat, j: nat)
    requires Gapless(log) && i < j < |log| && In(log[i].fact, s) && In(log[j].fact, s)
    ensures 1 <= NumberIn(log[i], s) < NumberIn(log[j], s) <= Count(log, s)
  {
    GaplessAt(log, i);
    GaplessAt(log, j);
    hide Gapless, Count;
    SeriesOf(log[i].fact, s);
    SeriesOf(log[j].fact, s);
    CountAt(log, i, s);
    CountAt(log, j, s);
    assert log[..j][..i + 1] == log[..i + 1];
    CountGrows(log[..j], i + 1, s);
    CountGrows(log, j + 1, s);
  }

  lemma SeriesOf(f: Fact, s: Series)
    requires In(f, s)
    ensures s == TraceOf(f) || s == AggregateOf(f)
    ensures s.Trace? <==> s == TraceOf(f)
  {
  }

  lemma CountAt(log: seq<Event>, i: nat, s: Series)
    requires i < |log|
    ensures Count(log[..i + 1], s) == Count(log[..i], s) + if In(log[i].fact, s) then 1 else 0
  {
    assert log[..i + 1][..i] == log[..i];
  }

  // Each number from 1 to the length of the series occurs.
  lemma {:induction false} EveryNumberOccurs(log: seq<Event>, s: Series, k: nat) returns (i: nat)
    requires Gapless(log) && 1 <= k <= Count(log, s)
    ensures i < |log| && In(log[i].fact, s) && NumberIn(log[i], s) == k
    decreases |log|
  {
    var last := |log| - 1;
    if In(log[last].fact, s) && k == Count(log, s) {
      SeriesOf(log[last].fact, s);
      return last;
    }
    i := EveryNumberOccurs(log[..last], s, k);
  }

  lemma {:induction false} GaplessAt(log: seq<Event>, i: nat)
    requires Gapless(log) && i < |log|
    ensures log[i] == Numbered(log[..i], log[i].fact)
    decreases |log|
  {
    var last := |log| - 1;
    if i < last {
      GaplessAt(log[..last], i);
      assert log[..last][..i] == log[..i];
    }
  }

  // -- the writers -----------------------------------------------------------------------

  // A trigger's plain insert: a duplicate key aborts its whole transaction.
  function Inserted(log: seq<Event>, f: Fact): Option<seq<Event>> {
    if HasKey(log, f.key) then None else Some(log + [Numbered(log, f)])
  }

  // INSERT OR IGNORE, and the check-then-insert of the security trace.
  function AppendedOnce(log: seq<Event>, f: Fact): seq<Event> {
    if HasKey(log, f.key) then log else log + [Numbered(log, f)]
  }

  // The aggregate's owner: a task's own aggregate, a run's task, the task of a pull
  // request's run, a sprint's own trace. A run never changes its task.
  type Owner = (string, string) -> string

  predicate OwnedFact(owner: Owner, f: Fact) { owner(f.kind, f.id) == f.trace }

  predicate Owned(owner: Owner, log: seq<Event>) { forall e :: e in log ==> OwnedFact(owner, e.fact) }

  datatype Op =
    | Insert(fact: Fact)
    | InsertOrIgnore(fact: Fact)
    | AppendIfAbsent(fact: Fact)
    | Backfill(task: string, facts: seq<Fact>)

  // Backfill applies to a task without any event yet.
  predicate CanApply(owner: Owner, log: seq<Event>, op: Op) {
    match op
    case Insert(f) => OwnedFact(owner, f)
    case InsertOrIgnore(f) => OwnedFact(owner, f)
    case AppendIfAbsent(f) => OwnedFact(owner, f)
    case Backfill(task, facts) =>
      && (forall e :: e in log ==> e.fact.trace != task)
      && (forall f :: f in facts ==> f.trace == task && OwnedFact(owner, f))
  }

  // The backfill's own numbering, from 1 in both series, whatever the log holds.
  function Backfilled(facts: seq<Fact>): seq<Event> {
    if facts == [] then []
    else
      var earlier := Backfilled(facts[..|facts| - 1]);
      earlier + [Numbered(earlier, facts[|facts| - 1])]
  }

  lemma {:induction false} BackfilledInOrder(facts: seq<Fact>)
    ensures |Backfilled(facts)| == |facts|
    ensures forall i :: 0 <= i < |facts| ==> Backfilled(facts)[i].fact == facts[i]
    decreases |facts|
  {
    if facts != [] { BackfilledInOrder(facts[..|facts| - 1]); }
  }

  predicate DistinctKeys(log: seq<Event>, facts: seq<Fact>) {
    && (forall f :: f in facts ==> !HasKey(log, f.key))
    && (forall i, j :: 0 <= i < j < |facts| ==> facts[i].key != facts[j].key)
  }

  // One transaction; an aborted one leaves the log alone.
  function Applied(log: seq<Event>, op: Op): seq<Event> {
    match op
    case Insert(f) => (match Inserted(log, f) case Some(later) => later case None => log)
    case InsertOrIgnore(f) => AppendedOnce(log, f)
    case AppendIfAbsent(f) => AppendedOnce(log, f)
    case Backfill(task, facts) => if DistinctKeys(log, facts) then log + Backfilled(facts) else log
  }

  lemma AppendKeepsGapless(log: seq<Event>, f: Fact)
    requires Gapless(log) && !HasKey(log, f.key)
    ensures Gapless(log + [Numbered(log, f)])
  {
    assert (log + [Numbered(log, f)])[..|log|] == log;
  }

  lemma OutsideCounts(log: seq<Event>, s: Series)
    requires forall e :: e in log ==> !In(e.fact, s)
    ensures Count(log, s) == 0
    decreases |log|
  {
    if log != [] {
      assert log[|log| - 1] in log;
      OutsideCounts(log[..|log| - 1], s);
    }
  }

  // The trace of a task, and the aggregates it owns.
  predicate Local(owner: Owner, task: string, s: Series) {
    s == Trace(task) || (s.Aggregate? && owner(s.kind, s.id) == task)
  }

  // A task without events has none in any aggregate it owns either, so numbering its
  // history from 1 is what counting the whole log would have given.
  lemma {:induction false} BackfillCounts(owner: Owner, log: seq<Event>, task: string, facts: seq<Fact>,
                                          s: Series)
    requires Owned(owner, log) && CanApply(owner, log, Backfill(task, facts)) && Local(owner, task, s)
    ensures Count(log + Backfilled(facts), s) == Count(Backfilled(facts), s)
    decreases |facts|
  {
    if facts == [] {
      OutsideCounts(log, s);
      assert log + Backfilled(facts) == log;
    } else {
      var f := facts[|facts| - 1];
      var earlier := Backfilled(facts[..|facts| - 1]);
      var row := Numbered(earlier, f);
      BackfillCounts(owner, log, task, facts[..|facts| - 1], s);
      assert log + Backfilled(facts) == (log + earlier) + [row];
      hide Count;
      CountMore(log + earlier, row, s);
      CountMore(earlier, row, s);
    }
  }

  lemma BackfillIsNumbering(owner: Owner, log: seq<Event>, task: string, before: seq<Fact>, f: Fact)
    requires Owned(owner, log) && CanApply(owner, log, Backfill(task, before))
    requires f.trace == task && OwnedFact(owner, f)
    ensures
      log + Backfilled(before + [f]) ==
      (log + Backfilled(before)) + [Numbered(log + Backfilled(before), f)]
  {
    hide Count, Owned, CanApply;
    BackfillCounts(owner, log, task, before, TraceOf(f));
    BackfillCounts(owner, log, task, before, AggregateOf(f));
    assert (before + [f])[..|before|] == before;
    assert Backfilled(before + [f]) == Backfilled(before) + [Numbered(Backfilled(before), f)];
  }

  lemma {:induction false} BackfillKeepsGapless(owner: Owner, log: seq<Event>, task: string, facts: seq<Fact>)
    requires Gapless(log) && Owned(owner, log) && CanApply(owner, log, Backfill(task, facts))
    requires DistinctKeys(log, facts)
    ensures Gapless(log + Backfilled(facts)) && Owned(owner, log + Backfilled(facts))
    ensures forall e :: e in Backfilled(facts) ==> e.fact in facts
    decreases |facts|
  {
    if facts == [] {
      assert log + Backfilled(facts) == log;
    } else {
      var before, f := facts[..|facts| - 1], facts[|facts| - 1];
      assert f in facts;
      BackfillKeepsGapless(owner, log, task, before);
      BackfillIsNumbering(owner, log, task, before, f);
      assert facts == before + [f];
      hide Count, Numbered, Gapless;
      var so := log + Backfilled(before);
      forall e | e in so
        ensures e.fact.key != f.key
      {
        if e in log {
          assert !HasKey(log, f.key);
        } else {
          var i :| 0 <= i < |before| && before[i] == e.fact;
          assert facts[i] == e.fact;
        }
      }
      AppendKeepsGapless(so, f);
    }
  }

  lemma ApplyKeepsGapless(owner: Owner, log: seq<Event>, op: Op)
    requires Gapless(log) && Owned(owner, log) && CanApply(owner, log, op)
    ensures Gapless(Applied(log, op)) && Owned(owner, Applied(log, op))
    ensures log <= Applied(log, op)
  {
    match op
    case Insert(f) => if !HasKey(log, f.key) { AppendKeepsGapless(log, f); }
    case InsertOrIgnore(f) => if !HasKey(log, f.key) { AppendKeepsGapless(log, f); }
    case AppendIfAbsent(f) => if !HasKey(log, f.key) { AppendKeepsGapless(log, f); }
    case Backfill(task, facts) =>
      if DistinctKeys(log, facts) { BackfillKeepsGapless(owner, log, task, facts); }
  }

  ghost predicate Lawful(owner: Owner, log: seq<Event>, ops: seq<Op>)
    decreases |ops|
  {
    ops == [] || (CanApply(owner, log, ops[0]) && Lawful(owner, Applied(log, ops[0]), ops[1..]))
  }

  function AllApplied(log: seq<Event>, ops: seq<Op>): seq<Event>
    decreases |ops|
  {
    if ops == [] then log else AllApplied(Applied(log, ops[0]), ops[1..])
  }

  // Under any mix of trigger inserts, ignored duplicates, guarded appends, aborted
  // transactions and legacy backfills: event numbers of every trace and versions of
  // every aggregate stay gapless from 1 in insertion order, and entries once written
  // never change.
  lemma {:induction false} GaplessHistory(owner: Owner, log: seq<Event>, ops: seq<Op>)
    requires Gapless(log) && Owned(owner, log) && Lawful(owner, log, ops)
    ensures Gapless(AllApplied(log, ops)) && Owned(owner, AllApplied(log, ops))
    ensures log <= AllApplied(log, ops)
    decreases |ops|
  {
    if ops != [] {
      ApplyKeepsGapless(owner, log, ops[0]);
      GaplessHistory(owner, Applied(log, ops[0]), ops[1..]);
    }
  }

  // The versions dictionary holds the number of events so far of each aggregate.
  ghost predicate Tallied(rows: seq<Event>, versions: map<(string, string), nat>) {
    forall kind, id ::
      Count(rows, Aggregate(kind, id)) == if (kind, id) in versions then versions[(kind, id)] else 0
  }

  lemma Tally(rows: seq<Event>, versions: map<(string, string), nat>, f: Fact, i: nat)
    requires Count(rows, TraceOf(f)) == i && Tallied(rows, versions)
    ensures
      var identity := (f.kind, f.id);
      var version := (if identity in versions then versions[identity] else 0) + 1;
      var row := Event(f, i + 1, version);
      && row == Numbered(rows, f)
      && Count(rows + [row], TraceOf(f)) == i + 1
      && Tallied(rows + [row], versions[identity := version])
  {
    hide Count;
    var version := (if (f.kind, f.id) in versions then versions[(f.kind, f.id)] else 0) + 1;
    assert Count(rows, AggregateOf(f)) + 1 == version;
    var row := Event(f, i + 1, version);
    CountMore(rows, row, TraceOf(f));
    forall kind, id
      ensures Count(rows + [row], Aggregate(kind, id)) ==
              Count(rows, Aggregate(kind, id)) + if kind == f.kind && id == f.id then 1 else 0
    {
      CountMore(rows, row, Aggregate(kind, id));
    }
  }

  // -- the same writers on the stored table ---------------------------------------------

  class AuditLog {
    var events: seq<Event>

    constructor ()
      ensures events == [] && Gapless(events)
    {
      events := [];
    }

    // SELECT count(*) + 1.
    method CountIn(s: Series) returns (n: nat)
      ensures n == Count(events, s)
    {
      n := 0;
      for i := 0 to |events|
        invariant n == Count(events[..i], s)
      {
        CountAt(events, i, s);
        if In(events[i].fact, s) { n := n + 1; }
      }
      assert events[..|events|] == events;
    }

    // SqliteSecurityReview._append: the key is looked up first, inside the transaction.
    method AppendIfAbsent(f: Fact) returns (appended: bool)
      requires Gapless(events)
      modifies this
      ensures Gapless(events)
      ensures appended <==> !HasKey(old(events), f.key)
      ensures events == Applied(old(events), Op.AppendIfAbsent(f))
      ensures appended <==> forall e :: e in old(events) ==> e.fact.key != f.key
      ensures !appended ==> events == old(events)
      ensures appended ==>
                && |events| == |old(events)| + 1 && events[..|old(events)|] == old(events)
                && events[|old(events)|].fact == f
    {
      hide Gapless, Count;
      if HasKey(events, f.key) { return false; }
      var number := CountIn(TraceOf(f));
      var version := CountIn(AggregateOf(f));
      AppendKeepsGapless(events, f);
      events := events + [Event(f, number + 1, version + 1)];
      return true;
    }

    // SqliteRepository._backfill_audit for one legacy task: positions in the sorted
    // facts are the trace numbers, a dictionary keeps the versions.
    method BackfillTask(task: string, facts: seq<Fact>, ghost owner: Owner) returns (ok: bool)
      requires Gapless(events) && Owned(owner, events)
      requires CanApply(owner, events, Backfill(task, facts))
      modifies this
      ensures Gapless(events) && Owned(owner, events)
      ensures ok <==> DistinctKeys(old(events), facts)
      ensures events == Applied(old(events), Backfill(task, facts))
      ensures !ok ==> events == old(events)
      ensures ok ==>
                && |events| == |old(events)| + |facts| && events[..|old(events)|] == old(events)
                && forall i :: 0 <= i < |facts| ==> events[|old(events)| + i].fact == facts[i]
    {
      hide Gapless, Count, Owned, DistinctKeys, HasKey;
      assert forall f :: f in facts ==> f.trace == task;
      hide CanApply, Tallied, Numbered;
      if !DistinctKeys(events, facts) { return false; }
      BackfillKeepsGapless(owner, events, task, facts);
      var rows: seq<Event> := [];
      var versions: map<(string, string), nat> := map[];
      assert Count(rows, Trace(task)) == 0 && Tallied(rows, versions) by { CountNothing(); }
      for i := 0 to |facts|
        invariant events == old(events) && rows == Backfilled(facts[..i])
        invariant Count(rows, Trace(task)) == i && Tallied(rows, versions)
      {
        var f := facts[i];
        assert f in facts && facts[..i + 1][..i] == facts[..i];
        var identity := (f.kind, f.id);
        var version := (if identity in versions then versions[identity] else 0) + 1;
        Tally(rows, versions, f, i);
        versions := versions[identity := version];
        rows := rows + [Event(f, i + 1, version)];
      }
      assert facts[..|facts|] == facts;
      BackfilledInOrder(facts);
      events := events + rows;
      return true;
    }
  }
}
