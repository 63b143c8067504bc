// Materializing backlog items as issues, at most once each, against a remote that
// may or may not have carried out a request that failed
// (src/factory/orchestration/backlog.py, infrastructure/persistence/backlog_sqlite.py).
module Backlog {
  import opened Models

  type Key = (string, string)

  datatype Item = Item(
    provider: string, externalId: string, repo: string, project: string,
    eligible: bool, ready: bool)
  {
    function Key(): Key { (provider, externalId) }
  }

  datatype Issue = Issue(repo: string, number: int, url: string)

  datatype LinkState = Reserved | Posting | Materialized(issue: Issue)

  datatype Link = Link(repo: string, project: string, state: LinkState) {
    predicate Of(item: Item) { repo == item.repo && project == item.project }
  }

  type Links = map<Key, Link>

  // -- the link table -------------------------------------------------------------

  // INSERT OR IGNORE; a row of another repository or project is refused.
  function Reserving(links: Links, item: Item): Option<Links> {
    var later := if item.Key() in links then links
                 else links[item.Key() := Link(item.repo, item.project, Reserved)];
    if later[item.Key()].Of(item) then Some(later) else None
  }

  // The compare-and-swap that one writer wins.
  function Writing(links: Links, item: Item): Option<Links> {
    var k := item.Key();
    if k in links && links[k].Of(item) && links[k].state == Reserved
    then Some(links[k := links[k].(state := Posting)]) else None
  }

  // No other item is linked to this issue number of this repository.
  predicate Unlinked(links: Links, k: Key, issue: Issue) {
    forall other :: other in links && other != k && links[other].state.Materialized?
                    && links[other].repo == issue.repo ==>
      links[other].state.issue.number != issue.number
  }

  // Write once; completing again with the very same issue is accepted.
  function Completing(links: Links, item: Item, issue: Issue): Option<Links> {
    var k := item.Key();
    if issue.repo != item.repo || issue.number <= 0 || k !in links || !links[k].Of(item) then None
    else if links[k].state.Materialized? then
      if links[k].state.issue.number == issue.number && links[k].state.issue.url == issue.url
      then Some(links) else None
    else if !Unlinked(links, k, issue) then None
    else Some(links[k := links[k].(state := Materialized(issue))])
  }

  // States only move forward, and nothing else of a link ever changes.
  predicate Advanced(before: Links, later: Links) {
    forall k :: k in before ==>
      && k in later
      && later[k].repo == before[k].repo && later[k].project == before[k].project
      && (before[k].state.Materialized? ==> later[k] == before[k])
      && (before[k].state.Posting? ==> later[k].state != Reserved)
  }

  // -- any number of reconcilers ----------------------------------------------------

  // The link table, every issue the remote has made and for which item, every create
  // request ever sent, and the writers that have won BeginWrite and not sent yet.
  datatype Board = Board(
    links: Links,
    made: seq<(Key, Issue)>,
    sent: multiset<Key>,
    poised: multiset<Key>)

  // One durable or remote step of some reconciler. A create request may make an
  // issue or not, whether or not its answer arrives; a lookup yields only issues
  // that were made for the item looked up.
  datatype Step =
    | DoReserve(item: Item)
    | DoBeginWrite(item: Item)
    | DoCreate(key: Key, result: Option<Issue>)
    | Die(key: Key)
    | DoComplete(item: Item, issue: Issue)

  predicate CanStep(b: Board, s: Step) {
    match s
    case DoReserve(item) => Reserving(b.links, item).Some?
    case DoBeginWrite(item) => Writing(b.links, item).Some?
    case DoCreate(k, _) => k in b.poised
    case Die(k) => k in b.poised
    case DoComplete(item, issue) =>
      (item.Key(), issue) in b.made && Completing(b.links, item, issue).Some?
  }

  function Stepped(b: Board, s: Step): Board {
    match s
    case DoReserve(item) =>
      (match Reserving(b.links, item) case Some(l) => b.(links := l) case None => b)
    case DoBeginWrite(item) =>
      (match Writing(b.links, item)
       case Some(l) => b.(links := l, poised := b.poised + multiset{item.Key()})
       case None => b)
    case DoCreate(k, result) =>
      b.(poised := b.poised - multiset{k}, sent := b.sent + multiset{k},
         made := if result.Some? then b.made + [(k, result.value)] else b.made)
    case Die(k) => b.(poised := b.poised - multiset{k})
    case DoComplete(item, issue) =>
      (match Completing(b.links, item, issue) case Some(l) => b.(links := l) case None => b)
  }

  predicate LegalSteps(b: Board, steps: seq<Step>)
    decreases |steps|
  {
    steps == [] || (CanStep(b, steps[0]) && LegalSteps(Stepped(b, steps[0]), steps[1..]))
  }

  function AfterSteps(b: Board, steps: seq<Step>): Board
    decreases |steps|
  {
    if steps == [] then b else AfterSteps(Stepped(b, steps[0]), steps[1..])
  }

  // Whoever has won the write, or sent it, holds the item for good.
  ghost predicate OneWriter(links: Links, sent: multiset<Key>, poised: multiset<Key>) {
    && (forall k :: sent[k] + poised[k] <= 1)
    && (forall k :: k in sent || k in poised ==> k in links && links[k].state != Reserved)
  }

  ghost predicate OnePerItem(made: seq<(Key, Issue)>, sent: multiset<Key>) {
    && (forall i, j :: 0 <= i < j < |made| ==> made[i].0 != made[j].0)
    && (forall i :: 0 <= i < |made| ==> made[i].0 in sent)
  }

  ghost predicate LinksMade(links: Links, made: seq<(Key, Issue)>) {
    forall k :: k in links && links[k].state.Materialized? ==> (k, links[k].state.issue) in made
  }

  ghost predicate Exclusive(b: Board) {
    OneWriter(b.links, b.sent, b.poised) && OnePerItem(b.made, b.sent) && LinksMade(b.links, b.made)
  }

  lemma StepKeepsExclusive(b: Board, s: Step)
    requires CanStep(b, s) && Exclusive(b)
    ensures Exclusive(Stepped(b, s))
    ensures Advanced(b.links, Stepped(b, s).links)
    ensures b.made <= Stepped(b, s).made && b.sent <= Stepped(b, s).sent
  {
    hide OneWriter, OnePerItem, LinksMade, Advanced, Reserving, Writing, Completing;
    match s
    case DoReserve(item) => LinkReserved(b, item);
    case DoBeginWrite(item) => LinkPosting(b, item);
    case DoCreate(k, result) =>
      NothingLinked(b.links);
      SentOnce(b, k, result);
    case Die(k) =>
      NothingLinked(b.links);
      GivenUp(b, k);
    case DoComplete(item, issue) =>
      LinkCompleted(b.links, item, issue, b.made);
      StillHeld(b, item, issue);
  }

  lemma NothingLinked(links: Links)
    ensures Advanced(links, links)
  {
  }

  lemma GivenUp(b: Board, k: Key)
    requires k in b.poised && OneWriter(b.links, b.sent, b.poised)
    ensures OneWriter(b.links, b.sent, b.poised - multiset{k})
  {
  }

  lemma LinkReserved(b: Board, item: Item)
    requires Reserving(b.links, item).Some?
    requires OneWriter(b.links, b.sent, b.poised) && LinksMade(b.links, b.made)
    ensures OneWriter(Reserving(b.links, item).value, b.sent, b.poised)
    ensures LinksMade(Reserving(b.links, item).value, b.made)
    ensures Advanced(b.links, Reserving(b.links, item).value)
  {
  }

  // Only one writer ever finds the link RESERVED.
  lemma LinkPosting(b: Board, item: Item)
    requires Writing(b.links, item).Some?
    requires OneWriter(b.links, b.sent, b.poised) && LinksMade(b.links, b.made)
    ensures OneWriter(Writing(b.links, item).value, b.sent, b.poised + multiset{item.Key()})
    ensures LinksMade(Writing(b.links, item).value, b.made)
    ensures Advanced(b.links, Writing(b.links, item).value)
  {
    assert item.Key() !in b.sent && item.Key() !in b.poised;
  }

  lemma StillHeld(b: Board, item: Item, issue: Issue)
    requires Completing(b.links, item, issue).Some? && OneWriter(b.links, b.sent, b.poised)
    ensures OneWriter(Completing(b.links, item, issue).value, b.sent, b.poised)
  {
  }

  lemma SentOnce(b: Board, k: Key, result: Option<Issue>)
    requires k in b.poised && OneWriter(b.links, b.sent, b.poised) && OnePerItem(b.made, b.sent)
    requires LinksMade(b.links, b.made)
    ensures
      var later := Stepped(b, DoCreate(k, result));
      && OneWriter(later.links, later.sent, later.poised)
      && OnePerItem(later.made, later.sent)
      && LinksMade(later.links, later.made)
  {
    assert b.poised[k] == 1 && b.sent[k] == 0;
    forall i | 0 <= i < |b.made|
      ensures b.made[i].0 != k
    {
      assert b.made[i].0 in b.sent;
    }
    if result.Some? { MadeOneMore(b.links, b.made, (k, result.value)); }
  }

  lemma MadeOneMore(links: Links, made: seq<(Key, Issue)>, more: (Key, Issue))
    requires LinksMade(links, made)
    ensures LinksMade(links, made + [more])
  {
  }

  lemma LinkCompleted(links: Links, item: Item, issue: Issue, made: seq<(Key, Issue)>)
    requires Completing(links, item, issue).Some? && LinksMade(links, made)
    requires (item.Key(), issue) in made
    ensures LinksMade(Completing(links, item, issue).value, made)
    ensures Advanced(links, Completing(links, item, issue).value)
  {
    var later := Completing(links, item, issue).value;
    forall m | m in later && later[m].state.Materialized?
      ensures (m, later[m].state.issue) in made
    {
      if m != item.Key() || later == links { assert (m, links[m].state.issue) in made; }
    }
  }

  // Over every interleaving of any number of reconcilers, crashes and ambiguous
  // failures: at most one create request is ever sent for an item, so the remote
  // makes at most one issue for it; links only move forward and never change once
  // materialized; and a materialized link holds the one issue made for its item.
  lemma {:induction false} ExactlyOnce(b: Board, steps: seq<Step>)
    requires LegalSteps(b, steps) && Exclusive(b)
    ensures Exclusive(AfterSteps(b, steps))
    ensures Advanced(b.links, AfterSteps(b, steps).links)
    ensures forall k :: AfterSteps(b, steps).sent[k] <= 1
    ensures forall i :: 0 <= i < |b.made| && b.made[i].0 in AfterSteps(b, steps).links
                        && AfterSteps(b, steps).links[b.made[i].0].state.Materialized? ==>
              AfterSteps(b, steps).links[b.made[i].0].state.issue == b.made[i].1
    ensures b.made <= AfterSteps(b, steps).made
    decreases |steps|
  {
    var later := AfterSteps(b, steps);
    if steps != [] {
      StepKeepsExclusive(b, steps[0]);
      ExactlyOnce(Stepped(b, steps[0]), steps[1..]);
      assert Stepped(b, steps[0]).made <= later.made;
    }
    forall i | 0 <= i < |b.made| && b.made[i].0 in later.links
               && later.links[b.made[i].0].state.Materialized?
      ensures later.links[b.made[i].0].state.issue == b.made[i].1
    {
      MadeOnce(later, i);
    }
    forall k
      ensures later.sent[k] <= 1
    {
      assert later.sent[k] + later.poised[k] <= 1;
    }
  }

  lemma MadeOnce(b: Board, i: nat)
    requires Exclusive(b) && i < |b.made|
    requires b.made[i].0 in b.links && b.links[b.made[i].0].state.Materialized?
    ensures b.links[b.made[i].0].state.issue == b.made[i].1
  {
    var k := b.made[i].0;
    var j :| 0 <= j < |b.made| && b.made[j] == (k, b.links[k].state.issue);
    assert i == j;
  }

  // A pass that finds the issue which a lost answer had made links exactly it: the
  // completion is accepted unless another item already holds that issue number.
  lemma LookupRecovers(b: Board, item: Item, issue: Issue)
    requires Exclusive(b) && (item.Key(), issue) in b.made
    requires issue.repo == item.repo && issue.number > 0
    requires item.Key() in b.links && b.links[item.Key()].Of(item)
    requires Unlinked(b.links, item.Key(), issue)
    ensures CanStep(b, DoComplete(item, issue))
    ensures Stepped(b, DoComplete(item, issue)).links[item.Key()].state == Materialized(issue)
  {
    var i :| 0 <= i < |b.made| && b.made[i] == (item.Key(), issue);
    if b.links[item.Key()].state.Materialized? { MadeOnce(b, i); }
  }

  // -- an item in the stored facts -----------------------------------------------------

  ghost predicate Owned(links: Links, item: Item) {
    item.Key() in links ==>
      links[item.Key()].repo == item.repo && links[item.Key()].project == item.project
  }

  // The issue is of the item's repository and no other item of it holds its number.
  ghost predicate Linkable(links: Links, item: Item, issue: Issue) {
    && issue.repo == item.repo && issue.number > 0
    && forall k :: k in links && k != item.Key() && links[k].repo == item.repo
                   && links[k].state.Materialized? ==>
         links[k].state.issue.number != issue.number
  }

  lemma OwnLinkIsFree(links: Links, item: Item, own: Link, issue: Issue)
    ensures Linkable(links[item.Key() := own], item, issue) <==> Linkable(links, item, issue)
  {
    var later := links[item.Key() := own];
    assert forall k :: k != item.Key() ==> (k in later <==> k in links) && (k in links ==> later[k] == links[k]);
  }

  ghost predicate HasIssue(links: Links, item: Item) {
    item.Key() in links && links[item.Key()].state.Materialized?
  }

  // Nothing has settled the item yet: it may be worked on, no issue is linked or found,
  // and it could be read again.
  ghost predicate Unsettled(links: Links, item: Item, m: Meets) {
    && item.eligible && item.ready && Owned(links, item) && !HasIssue(links, item)
    && m.found.None? && m.current.Some?
  }

  ghost predicate Unchanged(item: Item, m: Meets)
    requires m.current.Some?
  {
    m.current.value == item && item.eligible && item.ready
  }

  // The one case in which a create request leaves the process.
  ghost predicate Sends(links: Links, item: Item, m: Meets) {
    && Unsettled(links, item, m) && Unchanged(item, m)
    && (item.Key() in links ==> links[item.Key()].state == Reserved)
  }

  // Each outcome in the facts before the item was looked at.
  ghost predicate OutcomeByFacts(links: Links, item: Item, m: Meets, outcome: Outcome) {
    && (outcome == Created <==> Sends(links, item, m) && m.answers && m.makes.Some?
                                && Linkable(links, item, m.makes.value))
    && (outcome == Existing <==>
          && item.eligible && item.ready && Owned(links, item)
          && (HasIssue(links, item) || (m.found.Some? && Linkable(links, item, m.found.value))))
    && (outcome == Ineligible <==>
          !item.eligible || !item.ready || (Unsettled(links, item, m) && !Unchanged(item, m)))
    && (outcome == Uncertain <==>
          && Unsettled(links, item, m) && Unchanged(item, m)
          && item.Key() in links && links[item.Key()].state == Posting)
  }

  // And what becomes of its link.
  ghost predicate LinkByFacts(links: Links, item: Item, m: Meets, outcome: Outcome, later: Links) {
    if !item.eligible || !item.ready || !Owned(links, item) || HasIssue(links, item) then later == links
    else
      later == links[item.Key() := Link(item.repo, item.project,
        if outcome == Created && m.makes.Some? then Materialized(m.makes.value)
        else if outcome == Existing && m.found.Some? then Materialized(m.found.value)
        else if Sends(links, item, m) then Posting
        else if item.Key() in links then links[item.Key()].state
        else Reserved)]
  }

  // -- one reconciler ---------------------------------------------------------------

  class LinkTable {
    var links: Links

    method Reserve(item: Item) returns (ok: bool)
      modifies this
      ensures ok <==> Reserving(old(links), item).Some?
      ensures ok <==> Owned(old(links), item)
      ensures links == if item.Key() in old(links) then old(links)
                       else old(links)[item.Key() := Link(item.repo, item.project, Reserved)]
      ensures links == if ok then Reserving(old(links), item).value else old(links)
    {
      var k := item.Key();
      if k !in links {
        links := links[k := Link(item.repo, item.project, Reserved)];
        return true;
      }
      return links[k].Of(item);
    }

    method BeginWrite(item: Item) returns (won: bool)
      modifies this
      ensures won <==> Writing(old(links), item).Some?
      ensures won <==>
                item.Key() in old(links) && old(links)[item.Key()] == Link(item.repo, item.project, Reserved)
      ensures links == if won then old(links)[item.Key() := Link(item.repo, item.project, Posting)]
                       else old(links)
      ensures links == if won then Writing(old(links), item).value else old(links)
    {
      var k := item.Key();
      if k !in links || !links[k].Of(item) || links[k].state != Reserved { return false; }
      links := links[k := links[k].(state := Posting)];
      return true;
    }

    method Complete(item: Item, issue: Issue) returns (ok: bool)
      modifies this
      ensures ok <==> Completing(old(links), item, issue).Some?
      ensures ok <==>
                && item.Key() in old(links) && Owned(old(links), item)
                && (if old(links)[item.Key()].state.Materialized?
                    then && issue.repo == item.repo && issue.number > 0
                         && old(links)[item.Key()].state.issue.number == issue.number
                         && old(links)[item.Key()].state.issue.url == issue.url
                    else Linkable(old(links), item, issue))
      ensures links == if ok && !old(links)[item.Key()].state.Materialized?
                       then old(links)[item.Key() := Link(item.repo, item.project, Materialized(issue))]
                       else old(links)
      ensures links == if ok then Completing(old(links), item, issue).value else old(links)
    {
      var k := item.Key();
      if issue.repo != item.repo || issue.number <= 0 { return false; }
      if k !in links || !links[k].Of(item) { return false; }
      if links[k].state.Materialized? {
        return links[k].state.issue.number == issue.number && links[k].state.issue.url == issue.url;
      }
      if !Unlinked(links, k, issue) { return false; }
      links := links[k := links[k].(state := Materialized(issue))];
      return true;
    }
  }

  // What one item meets outside the link table: the issue a lookup finds, the item
  // re-read just before the write (None when the read fails), and whether the create
  // makes an issue and whether its answer arrives.
  datatype Meets = Meets(
    found: Option<Issue>, current: Option<Item>, makes: Option<Issue>, answers: bool)

  datatype Summary = Summary(examined: nat, created: nat, existing: nat, ineligible: nat, uncertain: nat)

  predicate StillEligible(candidate: Item, current: Item) {
    current.Key() == candidate.Key() && current.repo == candidate.repo
    && current.project == candidate.project && current.eligible && current.ready
  }

  // The finder yields an issue made for the item, the create makes what it answers.
  predicate Truthful(made: seq<(Key, Issue)>, item: Item, m: Meets) {
    && (m.found.Some? ==> (item.Key(), m.found.value) in made)
    && (m.answers ==> m.makes.Some?)
  }

  datatype Outcome = Created | Existing | Ineligible | Uncertain | Failed

  lemma NoSteps(b: Board)
    ensures LegalSteps(b, []) && AfterSteps(b, []) == b
  {
  }

  lemma {:induction false} StepsAppend(b: Board, steps: seq<Step>, s: Step)
    requires LegalSteps(b, steps) && CanStep(AfterSteps(b, steps), s)
    ensures LegalSteps(b, steps + [s])
    ensures AfterSteps(b, steps + [s]) == Stepped(AfterSteps(b, steps), s)
    decreases |steps|
  {
    if steps == [] {
      assert steps + [s] == [s] && [s][1..] == [];
    } else {
      assert (steps + [s])[1..] == steps[1..] + [s];
      StepsAppend(Stepped(b, steps[0]), steps[1..], s);
    }
  }

  // One item of a pass. Every write it makes is a step of the protocol above, taken
  // from whatever board the other reconcilers have left; a process that dies between
  // winning the write and sending it gives that up.
  method ReconcileItem(table: LinkTable, candidate: Item, m: Meets, ghost b: Board)
    returns (outcome: Outcome, ghost steps: seq<Step>)
    requires table.links == b.links && Truthful(b.made, candidate, m)
    modifies table
    ensures LegalSteps(b, steps)
    ensures AfterSteps(b, steps).links == table.links
    ensures AfterSteps(b, steps).poised == b.poised
    ensures OutcomeByFacts(b.links, candidate, m, outcome)
    ensures LinkByFacts(b.links, candidate, m, outcome, table.links)
    ensures AfterSteps(b, steps).sent ==
            b.sent + if Sends(b.links, candidate, m) then multiset{candidate.Key()} else multiset{}
    ensures AfterSteps(b, steps).made ==
            b.made + if Sends(b.links, candidate, m) && m.makes.Some? then [(candidate.Key(), m.makes.value)] else []
    ensures outcome == Created ==>
              && AfterSteps(b, steps).sent == b.sent + multiset{candidate.Key()}
              && candidate.Key() in table.links && table.links[candidate.Key()].state.Materialized?
              && Some(table.links[candidate.Key()].state.issue) == m.makes
    ensures outcome == Existing ==>
              candidate.Key() in table.links && table.links[candidate.Key()].state.Materialized?
    ensures outcome in {Existing, Ineligible, Uncertain} ==>
              AfterSteps(b, steps).sent == b.sent && AfterSteps(b, steps).made == b.made
  {
    hide Reserving, Writing, Completing, LegalSteps, AfterSteps, Linkable;
    steps := [];
    assert LegalSteps(b, steps) && AfterSteps(b, steps) == b by { NoSteps(b); }
    if !candidate.eligible || !candidate.ready { return Ineligible, steps; }
    var reserved := table.Reserve(candidate);
    if !reserved { return Failed, steps; }
    StepsAppend(b, steps, DoReserve(candidate));
    steps := steps + [DoReserve(candidate)];
    var k := candidate.Key();
    if k in table.links && table.links[k].state.Materialized? { return Existing, steps; }
    ReservationSettlesNothing(b.links, table.links, candidate, m);
    hide OutcomeByFacts, LinkByFacts, Sends;
    outcome, steps := FindOrCreate(table, candidate, m, b, steps);
    WhatWasSent(b.links, candidate, m, outcome, table.links);
  }

  lemma WhatWasSent(links: Links, item: Item, m: Meets, outcome: Outcome, later: Links)
    requires OutcomeByFacts(links, item, m, outcome) && LinkByFacts(links, item, m, outcome, later)
    ensures outcome == Created ==>
              && Sends(links, item, m) && HasIssue(later, item)
              && Some(later[item.Key()].state.issue) == m.makes
    ensures outcome == Existing ==> HasIssue(later, item)
    ensures Sends(links, item, m) ==> outcome in {Created, Failed}
  {
  }

  // A reservation of its own does not change what an item will meet.
  lemma ReservationSettlesNothing(links: Links, reserved: Links, item: Item, m: Meets)
    requires Owned(links, item) && !HasIssue(links, item)
    requires reserved == if item.Key() in links then links
                         else links[item.Key() := Link(item.repo, item.project, Reserved)]
    ensures Sends(reserved, item, m) <==> Sends(links, item, m)
    ensures forall o :: OutcomeByFacts(reserved, item, m, o) <==> OutcomeByFacts(links, item, m, o)
    ensures forall o, later ::
              item.eligible && item.ready && LinkByFacts(reserved, item, m, o, later)
              ==> LinkByFacts(links, item, m, o, later)
  {
    hide Linkable;
    var reservation := Link(item.repo, item.project, Reserved);
    if m.found.Some? { OwnLinkIsFree(links, item, reservation, m.found.value); }
    if m.makes.Some? { OwnLinkIsFree(links, item, reservation, m.makes.value); }
  }

  // The item is reserved and has no issue: look for one, read the item again, create.
  method FindOrCreate(table: LinkTable, candidate: Item, m: Meets, ghost b: Board, ghost steps: seq<Step>)
    returns (outcome: Outcome, ghost later: seq<Step>)
    requires LegalSteps(b, steps) && AfterSteps(b, steps).links == table.links
    requires Truthful(AfterSteps(b, steps).made, candidate, m)
    requires candidate.eligible && candidate.ready
    requires candidate.Key() in table.links && Owned(table.links, candidate)
    requires !HasIssue(table.links, candidate)
    modifies table
    ensures LegalSteps(b, later)
    ensures
      var was := AfterSteps(b, steps);
      var sends := Sends(old(table.links), candidate, m);
      AfterSteps(b, later) == Board(
        table.links,
        was.made + (if sends && m.makes.Some? then [(candidate.Key(), m.makes.value)] else []),
        was.sent + (if sends then multiset{candidate.Key()} else multiset{}),
        was.poised)
    ensures OutcomeByFacts(old(table.links), candidate, m, outcome)
    ensures LinkByFacts(old(table.links), candidate, m, outcome, table.links)
  {
    hide Reserving, Writing, Completing, LegalSteps, AfterSteps, Linkable;
    later := steps;
    if m.found.Some? {
      var linked := table.Complete(candidate, m.found.value);
      if !linked { return Failed, later; }
      StepsAppend(b, later, DoComplete(candidate, m.found.value));
      later := later + [DoComplete(candidate, m.found.value)];
      return Existing, later;
    }
    if m.current.None? { return Failed, later; }
    if !StillEligible(candidate, m.current.value) { return Ineligible, later; }
    outcome, later := CreateOnce(table, candidate, m, b, later);
  }

  // The last part: win the write, send the one create request, link its answer.
  method CreateOnce(table: LinkTable, candidate: Item, m: Meets, ghost b: Board, ghost steps: seq<Step>)
    returns (outcome: Outcome, ghost later: seq<Step>)
    requires LegalSteps(b, steps) && AfterSteps(b, steps).links == table.links
    requires m.answers ==> m.makes.Some?
    requires candidate.Key() in table.links && Owned(table.links, candidate)
    requires !HasIssue(table.links, candidate)
    modifies table
    ensures LegalSteps(b, later)
    ensures
      var was := AfterSteps(b, steps);
      var sends := old(table.links)[candidate.Key()].state == Reserved;
      && AfterSteps(b, later) == Board(
           table.links,
           was.made + (if sends && m.makes.Some? then [(candidate.Key(), m.makes.value)] else []),
           was.sent + (if sends then multiset{candidate.Key()} else multiset{}),
           was.poised)
      && (outcome == Uncertain <==> !sends)
      && (outcome == Created <==>
            sends && m.answers && Linkable(old(table.links), candidate, m.makes.value))
      && outcome in {Created, Uncertain, Failed}
      && table.links == old(table.links)[candidate.Key() := Link(candidate.repo, candidate.project,
                          if outcome == Created then Materialized(m.makes.value) else Posting)]
  {
    hide Reserving, Writing, Completing, Linkable, LegalSteps, AfterSteps;
    later := steps;
    var k := candidate.Key();
    if m.makes.Some? {
      OwnLinkIsFree(table.links, candidate, Link(candidate.repo, candidate.project, Posting), m.makes.value);
    }
    ghost var was := table.links;
    var won := table.BeginWrite(candidate);
    if !won { return Uncertain, later; }
    StepsAppend(b, later, DoBeginWrite(candidate));
    later := later + [DoBeginWrite(candidate)];
    StepsAppend(b, later, DoCreate(k, m.makes));
    later := later + [DoCreate(k, m.makes)];
    if !m.answers { return Failed, later; }
    var linked := table.Complete(candidate, m.makes.value);
    if !linked { return Failed, later; }
    StepsAppend(b, later, DoComplete(candidate, m.makes.value));
    later := later + [DoComplete(candidate, m.makes.value)];
    return Created, later;
  }

  predicate AllTruthful(made: seq<(Key, Issue)>, items: seq<Item>, meets: seq<Meets>) {
    |meets| == |items| && forall i :: 0 <= i < |items| ==> Truthful(made, items[i], meets[i])
  }

  // Whatever was sent since was for one of the items that may be worked on.
  ghost predicate SentForEligible(before: multiset<Key>, later: multiset<Key>, items: seq<Item>) {
    forall k :: k in later && before[k] < later[k] ==>
      exists i :: 0 <= i < |items| && items[i].Key() == k && items[i].eligible && items[i].ready
  }

  lemma SentForOneMore(before: multiset<Key>, now: multiset<Key>, later: multiset<Key>, items: seq<Item>, i: nat,
                       links: Links, m: Meets)
    requires i < |items| && SentForEligible(before, now, items)
    requires later == now + if Sends(links, items[i], m) then multiset{items[i].Key()} else multiset{}
    ensures SentForEligible(before, later, items)
  {
    forall k | k in later && before[k] < later[k]
      ensures exists j :: 0 <= j < |items| && items[j].Key() == k && items[j].eligible && items[j].ready
    {
      if before[k] < now[k] { assert k in now; }
      else { assert items[i].Key() == k && items[i].eligible && items[i].ready; }
    }
  }

  // The outcome of each item so far, in the links as the pass found them for it.
  ghost predicate MetInTurn(items: seq<Item>, meets: seq<Meets>, seen: seq<Links>, outcomes: seq<Outcome>) {
    && |seen| == |outcomes| <= |items| && |outcomes| <= |meets|
    && forall i :: 0 <= i < |outcomes| ==> OutcomeByFacts(seen[i], items[i], meets[i], outcomes[i])
  }

  ghost predicate CountsOf(s: Summary, outcomes: seq<Outcome>) {
    && s.examined == |outcomes|
    && s.created == multiset(outcomes)[Created] && s.existing == multiset(outcomes)[Existing]
    && s.ineligible == multiset(outcomes)[Ineligible] && s.uncertain == multiset(outcomes)[Uncertain]
    && s.created + s.existing + s.ineligible + s.uncertain == s.examined
  }

  // A whole pass; None when some read or write raised, which ends it. Every item has its
  // outcome in the links as it found them, the counters count these, and as many create
  // requests were sent as issues were created.
  method Reconcile(table: LinkTable, items: seq<Item>, meets: seq<Meets>, ghost b: Board)
    returns (summary: Option<Summary>, ghost steps: seq<Step>,
             ghost seen: seq<Links>, ghost outcomes: seq<Outcome>)
    requires table.links == b.links && AllTruthful(b.made, items, meets)
    modifies table
    ensures LegalSteps(b, steps)
    ensures AfterSteps(b, steps).links == table.links && AfterSteps(b, steps).poised == b.poised
    ensures SentForEligible(b.sent, AfterSteps(b, steps).sent, items)
    ensures MetInTurn(items, meets, seen, outcomes)
    ensures summary.None? <==> Failed in outcomes
    ensures summary.Some? ==>
              && |outcomes| == |items| && CountsOf(summary.value, outcomes)
              && |AfterSteps(b, steps).sent| == |b.sent| + summary.value.created
  {
    hide MetInTurn, CountsOf, OutcomeByFacts, LinkByFacts, SentForEligible, Sends, LegalSteps, AfterSteps;
    NothingMet(b, items, meets);
    steps, seen, outcomes := [], [], [];
    var s := Summary(0, 0, 0, 0, 0);
    for i := 0 to |items|
      invariant LegalSteps(b, steps)
      invariant AfterSteps(b, steps).links == table.links && AfterSteps(b, steps).poised == b.poised
      invariant b.made <= AfterSteps(b, steps).made
      invariant SentForEligible(b.sent, AfterSteps(b, steps).sent, items)
      invariant |outcomes| == i && Failed !in outcomes && MetInTurn(items, meets, seen, outcomes)
      invariant CountsOf(s, outcomes) && |AfterSteps(b, steps).sent| == |b.sent| + s.created
    {
      ghost var now := AfterSteps(b, steps);
      var outcome, more := ReconcileItem(table, items[i], meets[i], now);
      WhatWasSent(now.links, items[i], meets[i], outcome, table.links);
      MadeGrows(now, more);
      SentForOneMore(b.sent, now.sent, AfterSteps(now, more).sent, items, i, now.links, meets[i]);
      JoinSteps(b, steps, more);
      OneMoreMet(items, meets, seen, outcomes, now.links, outcome);
      steps, seen, outcomes := steps + more, seen + [now.links], outcomes + [outcome];
      if outcome == Failed { return None, steps, seen, outcomes; }
      s := Count(s, outcome, outcomes[..i]);
      assert outcomes == outcomes[..i] + [outcome];
    }
    summary := Some(s);
  }

  // One item more, under its outcome.
  method Count(s: Summary, o: Outcome, ghost before: seq<Outcome>) returns (later: Summary)
    requires CountsOf(s, before) && o != Failed
    ensures CountsOf(later, before + [o])
    ensures later.created == s.created + if o == Created then 1 else 0
  {
    assert multiset(before + [o]) == multiset(before) + multiset{o};
    later := s.(examined := s.examined + 1);
    match o {
      case Created => later := later.(created := s.created + 1);
      case Existing => later := later.(existing := s.existing + 1);
      case Ineligible => later := later.(ineligible := s.ineligible + 1);
      case Uncertain => later := later.(uncertain := s.uncertain + 1);
      case Failed => assert false;
    }
  }

  lemma NothingMet(b: Board, items: seq<Item>, meets: seq<Meets>)
    ensures MetInTurn(items, meets, [], []) && CountsOf(Summary(0, 0, 0, 0, 0), [])
    ensures LegalSteps(b, []) && AfterSteps(b, []) == b && SentForEligible(b.sent, b.sent, items)
  {
  }

  lemma OneMoreMet(items: seq<Item>, meets: seq<Meets>, seen: seq<Links>, outcomes: seq<Outcome>,
                   links: Links, o: Outcome)
    requires MetInTurn(items, meets, seen, outcomes) && |outcomes| < |items| == |meets|
    requires OutcomeByFacts(links, items[|outcomes|], meets[|outcomes|], o)
    ensures MetInTurn(items, meets, seen + [links], outcomes + [o])
  {
    hide OutcomeByFacts;
  }

  lemma {:induction false} JoinSteps(b: Board, first: seq<Step>, second: seq<Step>)
    requires LegalSteps(b, first) && LegalSteps(AfterSteps(b, first), second)
    ensures LegalSteps(b, first + second)
    ensures AfterSteps(b, first + second) == AfterSteps(AfterSteps(b, first), second)
    decreases |first|
  {
    if first == [] {
      assert first + second == second;
    } else {
      assert (first + second)[1..] == first[1..] + second;
      JoinSteps(Stepped(b, first[0]), first[1..], second);
    }
  }

  lemma StepMakesMore(b: Board, s: Step)
    ensures b.made <= Stepped(b, s).made
  {
    hide Reserving, Writing, Completing;
  }

  lemma {:induction false} MadeGrows(b: Board, steps: seq<Step>)
    ensures b.made <= AfterSteps(b, steps).made
    decreases |steps|
  {
    if steps != [] {
      StepMakesMore(b, steps[0]);
      hide Stepped;
      MadeGrows(Stepped(b, steps[0]), steps[1..]);
    }
  }
}
