// One pass of the worker pool (src/factory/orchestration/worker_pool.py run_pass).
module Pool {

  // A candidate task and its place in the listing, which tells repeated ids apart.
  datatype Slot = Slot(place: nat, task: string)

  datatype Session = Session(slot: Slot, raised: bool)

  function Slots(candidates: seq<string>): (r: seq<Slot>)
    ensures |r| == |candidates|
    ensures forall i :: 0 <= i < |r| ==> r[i] == Slot(i, candidates[i])
  {
    seq(|candidates|, i requires 0 <= i < |candidates| => Slot(i, candidates[i]))
  }

  function Reported(sessions: seq<Session>): seq<Slot> {
    seq(|sessions|, i requires 0 <= i < |sessions| => sessions[i].slot)
  }

  // Reported, in flight and not started make up the candidates, each once.
  ghost predicate Conserved(candidates: seq<string>, sessions: seq<Session>, active: seq<Slot>, next: nat) {
    && next <= |candidates|
    && multiset(Reported(sessions)) + multiset(active) + multiset(Slots(candidates)[next..])
       == multiset(Slots(candidates))
  }

  lemma {:induction false} OnceEach(slots: seq<Slot>, x: Slot)
    requires forall i, j :: 0 <= i < j < |slots| ==> slots[i] != slots[j]
    ensures multiset(slots)[x] <= 1
    decreases |slots|
  {
    if slots != [] {
      var last := |slots| - 1;
      assert slots == slots[..last] + [slots[last]];
      OnceEach(slots[..last], x);
    }
  }

  // Whatever is conserved is started at most once and reported at most once.
  lemma StartedOnce(candidates: seq<string>, sessions: seq<Session>, active: seq<Slot>, next: nat, x: Slot)
    requires Conserved(candidates, sessions, active, next)
    ensures multiset(Reported(sessions))[x] + multiset(active)[x] <= 1
    ensures multiset(Reported(sessions))[x] + multiset(active)[x] == 1
            ==> x in Slots(candidates) && x !in Slots(candidates)[next..]
  {
    var all, rest := Slots(candidates), Slots(candidates)[next..];
    OnceEach(all, x);
    assert multiset(all)[x] == multiset(Reported(sessions))[x] + multiset(active)[x] + multiset(rest)[x];
    assert x in rest <==> multiset(rest)[x] > 0;
    assert x in all <==> multiset(all)[x] > 0;
  }

  lemma StartNext(candidates: seq<string>, sessions: seq<Session>, active: seq<Slot>, next: nat)
    requires Conserved(candidates, sessions, active, next) && next < |candidates|
    ensures Conserved(candidates, sessions, active + [Slot(next, candidates[next])], next + 1)
  {
    var all := Slots(candidates);
    assert all[next..] == [all[next]] + all[next + 1..];
  }

  lemma ReportOne(candidates: seq<string>, sessions: seq<Session>, active: seq<Slot>, next: nat, j: nat,
                  raised: bool)
    requires Conserved(candidates, sessions, active, next) && j < |active|
    ensures Conserved(candidates, sessions + [Session(active[j], raised)],
                      active[..j] + active[j + 1..], next)
  {
    assert active == active[..j] + [active[j]] + active[j + 1..];
    assert Reported(sessions + [Session(active[j], raised)]) == Reported(sessions) + [active[j]];
  }

  // No two sessions in flight are of the same place.
  lemma PlacesDiffer(candidates: seq<string>, sessions: seq<Session>, active: seq<Slot>, next: nat, j: nat, k: nat)
    requires Conserved(candidates, sessions, active, next) && j < k < |active|
    ensures active[j].place != active[k].place
  {
    var x, y := active[k], active[j];
    assert multiset(active)[x] > 0 && multiset(active)[y] > 0;
    StartedOnce(candidates, sessions, active, next, x);
    StartedOnce(candidates, sessions, active, next, y);
    TwiceIsTwo(active, j, k);
  }

  lemma TwiceIsTwo(active: seq<Slot>, j: nat, k: nat)
    requires j < k < |active|
    ensures active[j] == active[k] ==> multiset(active)[active[k]] >= 2
  {
    assert active == active[..k] + [active[k]] + active[k + 1..];
    assert active[..k][j] == active[j];
    assert multiset(active[..k])[active[j]] >= 1;
  }

  lemma OthersElsewhere(candidates: seq<string>, sessions: seq<Session>, active: seq<Slot>, next: nat, j: nat)
    requires Conserved(candidates, sessions, active, next) && j < |active|
    ensures forall s :: s in active[..j] + active[j + 1..] ==> s in active && s.place != active[j].place
  {
    hide Conserved;
    forall k | 0 <= k < |active| && k != j
      ensures active[k].place != active[j].place
    {
      if k < j { PlacesDiffer(candidates, sessions, active, next, k, j); }
      else { PlacesDiffer(candidates, sessions, active, next, j, k); }
    }
  }

  method Position(active: seq<Slot>, place: nat) returns (j: nat)
    ensures j <= |active| && (j < |active| ==> active[j].place == place)
    ensures j == |active| ==> forall s :: s in active ==> s.place != place
  {
    j := 0;
    while j < |active| && active[j].place != place
      invariant j <= |active| && forall s :: s in active[..j] ==> s.place != place
    {
      j := j + 1;
    }
  }

  // One question to should_stop after a wait: which one it was, and how many sessions
  // were in flight then.
  datatype Look = Look(question: nat, inFlight: nat)

  // Each candidate was started on a "no" of its own, one question after the other.
  ghost predicate StartedOnNo(stop: nat -> bool, starts: seq<nat>, asked: nat) {
    && (forall i :: 0 <= i < |starts| ==> 0 < starts[i] < asked && !stop(starts[i]))
    && forall i, j :: 0 <= i < j < |starts| ==> starts[i] < starts[j]
  }

  // One look after each of the waits so far; a wait that nothing has ended leaves
  // something in flight.
  ghost predicate LookedAfter(waits: seq<seq<nat>>, looks: seq<Look>, asked: nat) {
    && |looks| <= |waits|
    && (forall i :: 0 <= i < |looks| ==> looks[i].question < asked && (waits[i] == [] ==> looks[i].inFlight > 0))
    && forall i, j :: 0 <= i < j < |looks| ==> looks[i].question < looks[j].question
  }

  // A look that was told to stop while something was in flight.
  ghost predicate ToldToStop(stop: nat -> bool, looks: seq<Look>) {
    exists i :: 0 <= i < |looks| && stop(looks[i].question) && looks[i].inFlight > 0
  }

  lemma OneLook(stop: nat -> bool, looks: seq<Look>, look: Look)
    ensures ToldToStop(stop, looks + [look]) <==>
            ToldToStop(stop, looks) || (stop(look.question) && look.inFlight > 0)
  {
    if ToldToStop(stop, looks) {
      var i :| 0 <= i < |looks| && stop(looks[i].question) && looks[i].inFlight > 0;
      assert (looks + [look])[i] == looks[i];
    }
    assert (looks + [look])[|looks|] == look;
  }

  // `stop(i)` is the i-th answer of should_stop, `waits` what each wait returns (the
  // candidates whose sessions are done, none on a timeout), `raises` which sessions
  // end in an exception. The pass runs until nothing is in flight or the given waits
  // are used up; `drained` says which. It cancels what is in flight exactly when one of
  // the looks after a wait says so, and once at most.
  method RunPass(candidates: seq<string>, maxConcurrency: nat, prepared: bool,
                 stop: nat -> bool, waits: seq<seq<nat>>, raises: set<nat>)
    returns (sessions: seq<Session>, active: seq<Slot>, next: nat, drained: bool, cancellations: nat,
             ghost starts: seq<nat>, ghost looks: seq<Look>)
    requires 1 <= maxConcurrency <= 2
    ensures Conserved(candidates, sessions, active, next)
    ensures |active| <= maxConcurrency
    ensures forall s :: s in sessions ==> (s.raised <==> s.slot.place in raises)
    ensures drained ==> active == []
    ensures !drained ==> active != [] && |looks| == |waits|
    ensures cancellations == if ToldToStop(stop, looks) then 1 else 0
    ensures exists asked :: LookedAfter(waits, looks, asked) && StartedOnNo(stop, starts, asked)
    ensures |starts| == next
    ensures stop(0) || !prepared ==> next == 0 && looks == []
    ensures drained && prepared && (forall i :: !stop(i)) ==>
              next == |candidates| && cancellations == 0
              && multiset(Reported(sessions)) == multiset(Slots(candidates))
  {
    hide ToldToStop, LookedAfter, StartedOnNo, Conserved;
    sessions, active, next, drained, cancellations := [], [], 0, true, 0;
    starts, looks := [], [];
    var asked := 1;
    NothingAsked(stop, waits);
    NothingStarted(candidates);
    if !stop(0) && prepared {
      drained := false;
      var round := 0;
      var requested := false;
      while true
        invariant Conserved(candidates, sessions, active, next) && |active| <= maxConcurrency
        invariant forall s :: s in sessions ==> (s.raised <==> s.slot.place in raises)
        invariant |looks| == round <= |waits| && !drained
        invariant LookedAfter(waits, looks, asked) && StartedOnNo(stop, starts, asked) && |starts| == next
        invariant asked > 0 && next <= |candidates|
        invariant cancellations == if requested then 1 else 0
        invariant requested <==> ToldToStop(stop, looks)
        decreases |waits| - round
      {
        next, active, asked, starts :=
          StartSessions(candidates, sessions, active, next, maxConcurrency, stop, asked, waits, looks, starts);
        if active == [] {
          drained := true;
          break;
        }
        if round == |waits| { break; }
        var done := waits[round];
        round := round + 1;
        if done == [] {
          looks := AskedAgain(stop, waits, looks, starts, asked, |active|);
          asked := asked + 1;
          if stop(asked - 1) && !requested {
            cancellations := cancellations + 1;
            requested := true;
          }
          continue;
        }
        sessions, active := ReportSessions(candidates, sessions, active, next, done, raises);
        looks := AskedAgain(stop, waits, looks, starts, asked, |active|);
        asked := asked + 1;
        if stop(asked - 1) && active != [] && !requested {
          cancellations := cancellations + 1;
          requested := true;
        }
      }
    }
    NoStopNoCancel(stop, looks);
    if active == [] && next == |candidates| { AllReported(candidates, sessions); }
  }

  lemma NothingStarted(candidates: seq<string>)
    ensures Conserved(candidates, [], [], 0)
  {
    assert Slots(candidates)[0..] == Slots(candidates) && Reported([]) == [];
  }

  lemma AllReported(candidates: seq<string>, sessions: seq<Session>)
    requires Conserved(candidates, sessions, [], |candidates|)
    ensures multiset(Reported(sessions)) == multiset(Slots(candidates))
  {
    assert Slots(candidates)[|candidates|..] == [];
  }

  lemma NothingAsked(stop: nat -> bool, waits: seq<seq<nat>>)
    ensures LookedAfter(waits, [], 1) && StartedOnNo(stop, [], 1) && !ToldToStop(stop, [])
  {
  }

  lemma NoStopNoCancel(stop: nat -> bool, looks: seq<Look>)
    ensures (forall i :: !stop(i)) ==> !ToldToStop(stop, looks)
  {
  }

  // The question before a start, answered with no or not.
  lemma AskedToStart(stop: nat -> bool, waits: seq<seq<nat>>, looks: seq<Look>, starts: seq<nat>, asked: nat)
    requires LookedAfter(waits, looks, asked) && StartedOnNo(stop, starts, asked) && asked > 0
    ensures LookedAfter(waits, looks, asked + 1) && StartedOnNo(stop, starts, asked + 1)
    ensures !stop(asked) ==> StartedOnNo(stop, starts + [asked], asked + 1)
  {
  }

  // The look after a wait is the next question.
  lemma AskedAgain(stop: nat -> bool, waits: seq<seq<nat>>, looks: seq<Look>, starts: seq<nat>, asked: nat,
                   inFlight: nat)
    returns (later: seq<Look>)
    requires LookedAfter(waits, looks, asked) && StartedOnNo(stop, starts, asked) && |looks| < |waits|
    requires waits[|looks|] == [] ==> inFlight > 0
    ensures LookedAfter(waits, later, asked + 1) && StartedOnNo(stop, starts, asked + 1)
    ensures |later| == |looks| + 1
    ensures ToldToStop(stop, later) <==> ToldToStop(stop, looks) || (stop(asked) && inFlight > 0)
  {
    later := looks + [Look(asked, inFlight)];
    OneLook(stop, looks, Look(asked, inFlight));
  }

  // Fill the free slots from the candidates, unless asked to stop.
  method StartSessions(candidates: seq<string>, sessions: seq<Session>, active: seq<Slot>, next: nat,
                       maxConcurrency: nat, stop: nat -> bool, asked: nat,
                       ghost waits: seq<seq<nat>>, ghost looks: seq<Look>, ghost starts: seq<nat>)
    returns (next': nat, active': seq<Slot>, asked': nat, ghost starts': seq<nat>)
    requires Conserved(candidates, sessions, active, next) && |active| <= maxConcurrency
    requires LookedAfter(waits, looks, asked) && StartedOnNo(stop, starts, asked) && |starts| == next && asked > 0
    requires next <= |candidates|
    ensures Conserved(candidates, sessions, active', next') && |active'| <= maxConcurrency
    ensures active <= active'
    ensures next' == |candidates| || |active'| == maxConcurrency || (asked < asked' && stop(asked' - 1))
    ensures LookedAfter(waits, looks, asked') && StartedOnNo(stop, starts', asked') && |starts'| == next'
    ensures asked <= asked' && next' <= |candidates|
  {
    hide LookedAfter, StartedOnNo, Conserved;
    next', active', asked', starts' := next, active, asked, starts;
    while |active'| < maxConcurrency
      invariant Conserved(candidates, sessions, active', next') && |active'| <= maxConcurrency
      invariant active <= active' && asked <= asked' && next' <= |candidates|
      invariant LookedAfter(waits, looks, asked') && StartedOnNo(stop, starts', asked') && |starts'| == next'
      decreases |candidates| - next', maxConcurrency - |active'|
    {
      AskedToStart(stop, waits, looks, starts', asked');
      asked' := asked' + 1;
      if stop(asked' - 1) { return; }
      if next' == |candidates| { return; }
      StartNext(candidates, sessions, active', next');
      active' := active' + [Slot(next', candidates[next'])];
      next', starts' := next' + 1, starts' + [asked' - 1];
    }
  }

  // Take each finished session out of the active ones and report it.
  method ReportSessions(candidates: seq<string>, sessions: seq<Session>, active: seq<Slot>, next: nat,
                        done: seq<nat>, raises: set<nat>)
    returns (sessions': seq<Session>, active': seq<Slot>)
    requires Conserved(candidates, sessions, active, next)
    requires forall s :: s in sessions ==> (s.raised <==> s.slot.place in raises)
    ensures Conserved(candidates, sessions', active', next) && |active'| <= |active|
    ensures forall s :: s in sessions' ==> (s.raised <==> s.slot.place in raises)
    ensures sessions <= sessions'
    ensures forall s :: s in active' ==> s in active && s.place !in done
    ensures forall s :: s in sessions'[|sessions|..] ==> s.slot in active && s.slot.place in done
  {
    hide Conserved;
    sessions', active' := sessions, active;
    for i := 0 to |done|
      invariant Conserved(candidates, sessions', active', next) && |active'| <= |active|
      invariant forall s :: s in sessions' ==> (s.raised <==> s.slot.place in raises)
      invariant sessions <= sessions'
      invariant forall s :: s in active' ==> s in active && s.place !in done[..i]
      invariant forall s :: s in sessions'[|sessions|..] ==> s.slot in active && s.slot.place in done
    {
      var j := Position(active', done[i]);
      if j < |active'| {
        OthersElsewhere(candidates, sessions', active', next, j);
        ReportOne(candidates, sessions', active', next, j, done[i] in raises);
        sessions' := sessions' + [Session(active'[j], done[i] in raises)];
        active' := active'[..j] + active'[j + 1..];
      }
    }
  }
}
