// Publishing a validated run (src/factory/orchestration/publication.py): commit,
// push, open a pull request, store its row, hand off to a human. The process may
// die after any of these writes.
module Publication {
  import opened Lifecycle
  import opened Models
  import opened Protocol
  import opened Published

  // A pull request at the provider.
  datatype ProviderPr = ProviderPr(repo: string, head: string, base: string, number: nat, open: bool)

  // The factory's commit of each run, the commit each remote branch points at, and
  // every pull request ever opened.
  datatype Forge = Forge(
    commits: map<nat, string>,
    pushed: map<(string, string), string>,
    prs: seq<ProviderPr>)

  datatype Site = Site(task: Task, forge: Forge)

  // What one call meets: the security review, whether another task's row holds the
  // run's branch, the commit git would make (None when it refuses), the number the
  // provider would assign, and the writes the process survives.
  datatype Call = Call(
    reviewPasses: bool,
    foreignBranch: bool,
    commit: Option<string>,
    number: nat,
    writes: nat)

  datatype Write =
    | Commit(sha: string)
    | Push(sha: string)
    | OpenRemote(number: nat)
    | StoreRow(number: nat, sha: string)
    | MoveTo(target: TaskStatus)

  // An open provider pull request for exactly this head and base.
  function FindOpen(prs: seq<ProviderPr>, repo: string, head: string, base: string): (r: Option<nat>)
    ensures r.Some? ==> r.value < |prs| && Opens(prs[r.value], repo, head, base)
    ensures r.None? <==> forall q :: q in prs ==> !Opens(q, repo, head, base)
  {
    if prs == [] then None
    else if Opens(prs[|prs| - 1], repo, head, base) then Some(|prs| - 1)
    else
      assert prs == prs[..|prs| - 1] + [prs[|prs| - 1]];
      FindOpen(prs[..|prs| - 1], repo, head, base)
  }

  predicate Opens(q: ProviderPr, repo: string, head: string, base: string) {
    q.open && q.repo == repo && q.head == head && q.base == base
  }

  // The row stored for a run, unique by uq_pull_requests_run.
  function RowFor(rows: seq<PrRow>, runId: nat): (r: Option<nat>)
    ensures r.Some? ==> r.value < |rows| && rows[r.value].runId == runId
    ensures r.None? <==> forall q :: q in rows ==> q.runId != runId
  {
    if rows == [] then None
    else if rows[|rows| - 1].runId == runId then Some(|rows| - 1)
    else
      assert rows == rows[..|rows| - 1] + [rows[|rows| - 1]];
      RowFor(rows[..|rows| - 1], runId)
  }

  // -- the writes of one whole call --------------------------------------------

  // The sha that publishing the latest run yields: its commit is made once.
  function Sha(s: Site, c: Call): Option<string>
    requires s.task.runs != []
  {
    var id := s.task.Latest().id;
    if id in s.forge.commits then Some(s.forge.commits[id]) else c.commit
  }

  function Committing(s: Site, sha: string, rest: seq<Write>): seq<Write>
    requires s.task.runs != []
  {
    if s.task.Latest().id in s.forge.commits then rest else [Commit(sha)] + rest
  }

  // Pushing a branch that already points at the commit changes nothing.
  function Pushing(s: Site, sha: string, rest: seq<Write>): seq<Write>
    requires s.task.runs != [] && s.task.Latest().workspace.Some?
  {
    var ws := s.task.Latest().workspace.value;
    if (ws.repo, ws.branch) in s.forge.pushed && s.forge.pushed[(ws.repo, ws.branch)] == sha
    then rest else [Push(sha)] + rest
  }

  // PublicationService._reconcile: only the publication edges, only forward.
  function Reconciling(status: TaskStatus): seq<Write> {
    if status == Validating then [MoveTo(PrOpen), MoveTo(WaitingHuman)]
    else if status == PrOpen then [MoveTo(WaitingHuman)]
    else []
  }

  // The row belongs to an earlier run of this task, published into the same base.
  predicate IsRework(t: Task, base: string, i: nat)
    requires i < |t.rows|
  {
    t.rows[i].base == base && exists r :: r in Earlier(t.runs) && r.id == t.rows[i].runId
  }

  // The earlier run worked in the same checkout, which record_revision insists on.
  predicate SameCheckout(t: Task, i: nat)
    requires i < |t.rows| && t.runs != []
  {
    exists r :: r in t.runs && r.id == t.rows[i].runId && r.workspace == t.Latest().workspace
  }

  function Plan(base: string, s: Site, c: Call): seq<Write> {
    var t := s.task;
    if !PublishGuard(t, base) then []
    else if t.status != WaitingHuman && !c.reviewPasses then []
    else
      var ws := t.Latest().workspace.value;
      match RowFor(t.rows, t.Latest().id)
      case Some(i) =>
        if t.rows[i].repo == ws.repo && t.rows[i].head == ws.branch && t.rows[i].base == base
        then Reconciling(t.status) else []
      case None =>
        if c.foreignBranch then []
        else
          match FindRow(t.rows, ws.repo, ws.branch)
          case Some(i) =>
            if !IsRework(t, base, i) then []
            else if t.status == Validating then PlanRework(base, s, c, i)
            else Reconciling(t.status)
          case None => if t.status == Validating then PlanCreate(base, s, c) else []
  }

  function PlanRework(base: string, s: Site, c: Call, i: nat): seq<Write>
    requires PublishGuard(s.task, base) && i < |s.task.rows|
  {
    var t := s.task;
    var ws := t.Latest().workspace.value;
    match FindOpen(s.forge.prs, ws.repo, ws.branch, base)
    case None => []
    case Some(j) =>
      if !NonBlank(t.Latest().revision) || Sha(s, c).None? then []
      else if s.forge.prs[j].number != t.rows[i].number then []
      else
        var sha := Sha(s, c).value;
        Committing(s, sha, Pushing(s, sha,
          if SameCheckout(t, i) && NonBlank(Some(sha))
          then [StoreRow(t.rows[i].number, sha)] + Reconciling(Validating) else []))
  }

  function PlanCreate(base: string, s: Site, c: Call): seq<Write>
    requires PublishGuard(s.task, base)
  {
    var t := s.task;
    var ws := t.Latest().workspace.value;
    if !NonBlank(t.Latest().revision) || Sha(s, c).None? then []
    else
      var sha := Sha(s, c).value;
      Committing(s, sha, Pushing(s, sha,
        match FindOpen(s.forge.prs, ws.repo, ws.branch, base)
        case Some(j) => [StoreRow(s.forge.prs[j].number, sha)] + Reconciling(Validating)
        case None => [OpenRemote(c.number), StoreRow(c.number, sha)] + Reconciling(Validating)))
  }

  function Perform(base: string, s: Site, w: Write): Site {
    var t := s.task;
    if t.runs == [] || t.Latest().workspace.None? then s
    else
      var ws := t.Latest().workspace.value;
      match w
      case Commit(sha) => s.(forge := s.forge.(commits := s.forge.commits[t.Latest().id := sha]))
      case Push(sha) => s.(forge := s.forge.(pushed := s.forge.pushed[(ws.repo, ws.branch) := sha]))
      case OpenRemote(number) =>
        s.(forge := s.forge.(prs := s.forge.prs + [ProviderPr(ws.repo, ws.branch, base, number, true)]))
      case StoreRow(number, sha) => s.(task := t.(rows := BoundRows(t, base, number, sha)))
      case MoveTo(target) => s.(task := t.MovedTo(target))
  }

  // The first k writes of a list.
  function Cut(base: string, s: Site, writes: seq<Write>, k: nat): Site
    decreases k
  {
    if writes == [] || k == 0 then s
    else Cut(base, Perform(base, s, writes[0]), writes[1..], k - 1)
  }

  // One call, cut where its process dies.
  function Attempt(base: string, s: Site, c: Call): Site {
    Cut(base, s, Plan(base, s, c), c.writes)
  }

  // The same call without any cut.
  function Whole(base: string, s: Site, c: Call): Site {
    Cut(base, s, Plan(base, s, c), |Plan(base, s, c)|)
  }

  // -- a cut call is resumed exactly -------------------------------------------

  lemma OpenedIsFound(prs: seq<ProviderPr>, q: ProviderPr, repo: string, head: string, base: string)
    requires Opens(q, repo, head, base)
    ensures FindOpen(prs + [q], repo, head, base) == Some(|prs|)
  {
    assert (prs + [q])[..|prs|] == prs;
  }

  lemma FoundByRun(rows: seq<PrRow>, i: nat, runId: nat)
    requires i < |rows| && rows[i].runId == runId
    requires forall j :: 0 <= j < |rows| && j != i ==> rows[j].runId != runId
    ensures RowFor(rows, runId) == Some(i)
  {
    assert rows[i] in rows;
  }

  // After its first write, a call has exactly the rest of the writes left to do.
  lemma AfterFirstWrite(base: string, s: Site, c: Call)
    requires Plan(base, s, c) != []
    ensures Plan(base, Perform(base, s, Plan(base, s, c)[0]), c) == Plan(base, s, c)[1..]
  {
    var t, w := s.task, Plan(base, s, c)[0];
    match w
    case StoreRow(number, sha) => StoredIsFound(base, s, number, sha); AfterStoreRow(base, s, c);
    case MoveTo(_) => AfterMove(base, s, c);
    case _ => AfterRemoteWrite(base, s, c);
  }

  // Writes outside the store leave the branch taken and the run's facts alone.
  lemma AfterRemoteWrite(base: string, s: Site, c: Call)
    requires Plan(base, s, c) != []
    requires !Plan(base, s, c)[0].StoreRow? && !Plan(base, s, c)[0].MoveTo?
    ensures Plan(base, Perform(base, s, Plan(base, s, c)[0]), c) == Plan(base, s, c)[1..]
  {
    var ws := s.task.Latest().workspace.value;
    if FindRow(s.task.rows, ws.repo, ws.branch).None? {
      assert Plan(base, s, c) == PlanCreate(base, s, c);
      hide FindRow, RowFor, PublishGuard, Reconciling;
      AfterRemoteCreate(base, s, c);
    } else {
      var i := FindRow(s.task.rows, ws.repo, ws.branch).value;
      assert Plan(base, s, c) == PlanRework(base, s, c, i);
      hide FindRow, RowFor, PublishGuard, Reconciling;
      AfterRemoteRework(base, s, c, i);
    }
  }

  lemma AfterRemoteRework(base: string, s: Site, c: Call, i: nat)
    requires PublishGuard(s.task, base) && i < |s.task.rows| && PlanRework(base, s, c, i) != []
    requires PlanRework(base, s, c, i)[0].Commit? || PlanRework(base, s, c, i)[0].Push?
    ensures
      var later := Perform(base, s, PlanRework(base, s, c, i)[0]);
      && later.task == s.task
      && PlanRework(base, later, c, i) == PlanRework(base, s, c, i)[1..]
  {
    hide Reconciling, NonBlank, FindOpen;
  }

  lemma AfterRemoteCreate(base: string, s: Site, c: Call)
    requires PublishGuard(s.task, base) && PlanCreate(base, s, c) != []
    requires !PlanCreate(base, s, c)[0].StoreRow?
    ensures PublishGuard(Perform(base, s, PlanCreate(base, s, c)[0]).task, base)
    ensures PlanCreate(base, Perform(base, s, PlanCreate(base, s, c)[0]), c) == PlanCreate(base, s, c)[1..]
  {
    var ws := s.task.Latest().workspace.value;
    var later := Perform(base, s, PlanCreate(base, s, c)[0]);
    assert PublishGuard(later.task, base);
    hide Reconciling, NonBlank;
    match PlanCreate(base, s, c)[0]
    case OpenRemote(number) =>
      OpenedIsFound(s.forge.prs, ProviderPr(ws.repo, ws.branch, base, number, true),
                    ws.repo, ws.branch, base);
    case Commit(sha) => hide FindOpen;
    case Push(sha) => hide FindOpen;
    case _ =>
  }

  lemma AfterStoreRow(base: string, s: Site, c: Call)
    requires Plan(base, s, c) != [] && Plan(base, s, c)[0].StoreRow?
    ensures Plan(base, Perform(base, s, Plan(base, s, c)[0]), c) == Plan(base, s, c)[1..]
  {
    StoreRowIsNext(base, s, c);
    var t, w := s.task, Plan(base, s, c)[0];
    StoredIsFound(base, s, w.number, w.sha);
    var later := Perform(base, s, w);
    assert later.task.runs == t.runs && later.task.repo == t.repo && later.task.status == t.status;
    hide FindRow, RowFor, BoundRows, PlanCreate, PlanRework, Perform;
    assert PublishGuard(later.task, base) && later.task.Latest() == t.Latest();
  }

  lemma StoreRowIsNext(base: string, s: Site, c: Call)
    requires Plan(base, s, c) != [] && Plan(base, s, c)[0].StoreRow?
    ensures PublishGuard(s.task, base) && c.reviewPasses && s.task.status == Validating
    ensures RowFor(s.task.rows, s.task.Latest().id).None?
    ensures Plan(base, s, c)[1..] == Reconciling(Validating)
    ensures var ws := s.task.Latest().workspace.value;
            FindRow(s.task.rows, ws.repo, ws.branch).Some? ==>
              s.task.rows[FindRow(s.task.rows, ws.repo, ws.branch).value].base == base
  {
  }

  lemma AfterMove(base: string, s: Site, c: Call)
    requires Plan(base, s, c) != [] && Plan(base, s, c)[0].MoveTo?
    ensures Plan(base, Perform(base, s, Plan(base, s, c)[0]), c) == Plan(base, s, c)[1..]
  {
    assert Plan(base, s, c) == Reconciling(s.task.status);
  }

  lemma StoredIsFound(base: string, s: Site, number: nat, sha: string)
    requires PublishGuard(s.task, base) && RowFor(s.task.rows, s.task.Latest().id).None?
    requires var ws := s.task.Latest().workspace.value;
             FindRow(s.task.rows, ws.repo, ws.branch).Some? ==>
               s.task.rows[FindRow(s.task.rows, ws.repo, ws.branch).value].base == base
    ensures
      var t := s.task;
      var ws := t.Latest().workspace.value;
      var rows := BoundRows(t, base, number, sha);
      var r := RowFor(rows, t.Latest().id);
      r.Some? && rows[r.value].repo == ws.repo && rows[r.value].head == ws.branch
      && rows[r.value].base == base
  {
    var t := s.task;
    var ws := t.Latest().workspace.value;
    var rows := BoundRows(t, base, number, sha);
    assert forall j :: 0 <= j < |t.rows| ==> t.rows[j] in t.rows;
    match FindRow(t.rows, ws.repo, ws.branch)
    case Some(i) => FoundByRun(rows, i, t.Latest().id);
    case None => FoundByRun(rows, |t.rows|, t.Latest().id);
  }

  lemma {:induction false} AfterCut(base: string, s: Site, c: Call, k: nat)
    requires k <= |Plan(base, s, c)|
    ensures Plan(base, Cut(base, s, Plan(base, s, c), k), c) == Plan(base, s, c)[k..]
    ensures Whole(base, Cut(base, s, Plan(base, s, c), k), c) == Whole(base, s, c)
    decreases k
  {
    hide Plan, Perform;
    if k > 0 {
      AfterFirstWrite(base, s, c);
      AfterCut(base, Perform(base, s, Plan(base, s, c)[0]), c, k - 1);
    }
  }

  function Attempts(base: string, s: Site, c: Call, deaths: seq<nat>): Site
    decreases |deaths|
  {
    if deaths == [] then s
    else Attempts(base, Attempt(base, s, c.(writes := deaths[0])), c, deaths[1..])
  }

  // Whatever the number of calls that died, and wherever each of them died, one
  // more whole call leaves exactly what a single whole call would have left: same
  // commit, same remote branch, same pull request, same row, same history.
  lemma {:induction false} CrashesLeaveNoTrace(base: string, s: Site, c: Call, deaths: seq<nat>)
    ensures Whole(base, Attempts(base, s, c, deaths), c) == Whole(base, s, c)
    decreases |deaths|
  {
    hide Plan, Perform;
    if deaths != [] {
      var plan := Plan(base, s, c);
      SamePlan(base, s, c, deaths[0]);
      CutShort(base, s, plan, deaths[0]);
      AfterCut(base, s, c, if deaths[0] < |plan| then deaths[0] else |plan|);
      CrashesLeaveNoTrace(base, Attempt(base, s, c.(writes := deaths[0])), c, deaths[1..]);
    }
  }

  lemma SamePlan(base: string, s: Site, c: Call, writes: nat)
    ensures Plan(base, s, c.(writes := writes)) == Plan(base, s, c)
  {
  }

  lemma {:induction false} CutShort(base: string, s: Site, writes: seq<Write>, k: nat)
    ensures Cut(base, s, writes, k) == Cut(base, s, writes, if k < |writes| then k else |writes|)
    decreases k
  {
    hide Perform;
    if k > 0 && writes != [] {
      CutShort(base, Perform(base, s, writes[0]), writes[1..], k - 1);
    }
  }

  // A whole call has nothing left to do a second time.
  lemma PublishedOnce(base: string, s: Site, c: Call)
    ensures Plan(base, Whole(base, s, c), c) == []
    ensures Whole(base, Whole(base, s, c), c) == Whole(base, s, c)
  {
    AfterCut(base, s, c, |Plan(base, s, c)|);
  }

  // -- which calls write at all, and what they write next -------------------------

  // Everything that makes a call leave task and forge alone, by stored facts: the run is
  // not there, not successful or has red gates; it has no checkout, one of another
  // repository or one on a protected branch; the security review has not passed and the
  // task is not handed off yet; the run's row disagrees with its checkout; the branch is
  // another task's, or its row was published into another base or belongs to no earlier
  // run; there is no row and the task is not VALIDATING; and, where there is something
  // to publish, no certified revision, no commit, or not the branch's own open pull
  // request.
  predicate Refuses(base: string, s: Site, c: Call) {
    var t := s.task;
    || t.runs == []
    || var r := t.runs[|t.runs| - 1];
       || r.status != RunSucceeded
       || (exists g :: g in r.gates && g.required && g.status != GatePassed)
       || r.workspace.None?
       || r.workspace.value.repo != t.repo
       || r.workspace.value.branch in {"main", "master", base}
       || (t.status != WaitingHuman && !c.reviewPasses)
       || var ws := r.workspace.value;
          var own, branch := RowFor(t.rows, r.id), FindRow(t.rows, ws.repo, ws.branch);
          if own.Some? then
            var q := t.rows[own.value];
            q.repo != ws.repo || q.head != ws.branch || q.base != base
          else if c.foreignBranch then true
          else if branch.None? then t.status != Validating || NothingToPublish(s, c, r)
          else
            var q := t.rows[branch.value];
            || q.base != base
            || (forall i :: 0 <= i < |t.runs| - 1 ==> t.runs[i].id != q.runId)
            || (t.status == Validating
                && (NothingToPublish(s, c, r)
                    || var open := FindOpen(s.forge.prs, ws.repo, ws.branch, base);
                       open.None? || s.forge.prs[open.value].number != q.number))
  }

  // No certified revision, or neither a commit of the run nor a way to make one.
  predicate NothingToPublish(s: Site, c: Call, r: Run) {
    || r.revision.None?
    || (forall i :: 0 <= i < |r.revision.value| ==> IsSpace(r.revision.value[i]))
    || (r.id !in s.forge.commits && c.commit.None?)
  }

  // The one write that is missing next, when nothing is refused.
  function NextSite(base: string, s: Site, c: Call): Site
    requires !Refuses(base, s, c)
  {
    var t, f := s.task, s.forge;
    var r := t.runs[|t.runs| - 1];
    var ws := r.workspace.value;
    var own, branch := RowFor(t.rows, r.id), FindRow(t.rows, ws.repo, ws.branch);
    if own.Some? || t.status != Validating then
      if t.status == Validating then s.(task := t.MovedTo(PrOpen))
      else if t.status == PrOpen then s.(task := t.MovedTo(WaitingHuman))
      else s
    else if r.id !in f.commits then
      s.(forge := f.(commits := f.commits[r.id := c.commit.value]))
    else
      var sha, at := f.commits[r.id], (ws.repo, ws.branch);
      if at !in f.pushed || f.pushed[at] != sha then s.(forge := f.(pushed := f.pushed[at := sha]))
      else if branch.Some? then
        var q := t.rows[branch.value];
        if NonBlank(Some(sha))
           && exists d :: d in t.runs && d.id == q.runId && d.workspace == r.workspace
        then s.(task := t.(rows := t.rows[branch.value := q.(runId := r.id, commit := sha)]))
        else s
      else
        match FindOpen(f.prs, ws.repo, ws.branch, base)
        case None =>
          s.(forge := f.(prs := f.prs + [ProviderPr(ws.repo, ws.branch, base, c.number, true)]))
        case Some(j) =>
          s.(task := t.(rows := t.rows + [PrRow(r.id, ws.repo, ws.branch, base, f.prs[j].number, sha)]))
  }

  lemma GuardByFacts(t: Task, base: string)
    ensures PublishGuard(t, base) <==>
              && t.runs != []
              && var r := t.runs[|t.runs| - 1];
                 && r.status == RunSucceeded
                 && !(exists g :: g in r.gates && g.required && g.status != GatePassed)
                 && r.workspace.Some?
                 && r.workspace.value.repo == t.repo
                 && r.workspace.value.branch !in {"main", "master", base}
  {
  }

  lemma ReworkByFacts(t: Task, base: string, i: nat)
    requires t.runs != [] && i < |t.rows|
    ensures IsRework(t, base, i) <==>
              t.rows[i].base == base
              && !(forall k :: 0 <= k < |t.runs| - 1 ==> t.runs[k].id != t.rows[i].runId)
  {
    if exists r :: r in Earlier(t.runs) && r.id == t.rows[i].runId {
      var r :| r in Earlier(t.runs) && r.id == t.rows[i].runId;
      var k :| 0 <= k < |t.runs| - 1 && t.runs[k] == r;
    } else {
      forall k | 0 <= k < |t.runs| - 1
        ensures t.runs[k].id != t.rows[i].runId
      {
        assert Earlier(t.runs)[k] in Earlier(t.runs);
      }
    }
  }

  // What a call plans first is the next missing write, and nothing when it is refused.
  predicate PlansNext(base: string, s: Site, c: Call) {
    if Refuses(base, s, c) then Plan(base, s, c) == []
    else NextSite(base, s, c) == if Plan(base, s, c) == [] then s else Perform(base, s, Plan(base, s, c)[0])
  }

  lemma EveryCallPlansNext(base: string, s: Site, c: Call)
    ensures PlansNext(base, s, c)
  {
    GuardByFacts(s.task, base);
    hide RequiredPassed;
    if PublishGuard(s.task, base) {
      var t, ws := s.task, s.task.Latest().workspace.value;
      var branch := FindRow(t.rows, ws.repo, ws.branch);
      if branch.Some? { ReworkByFacts(t, base, branch.value); }
      if RowFor(t.rows, t.Latest().id).None? && t.status == Validating {
        hide PlansNext;
        if branch.Some? { ReworkPlansNext(base, s, c); } else { CreationPlansNext(base, s, c); }
      } else {
        hide PlansNext;
        MovingPlansNext(base, s, c);
      }
    }
  }

  lemma MovingPlansNext(base: string, s: Site, c: Call)
    requires PublishGuard(s.task, base)
    requires s.task.status != Validating || RowFor(s.task.rows, s.task.Latest().id).Some?
    ensures PlansNext(base, s, c)
  {
    GuardByFacts(s.task, base);
    var t, ws := s.task, s.task.Latest().workspace.value;
    var branch := FindRow(t.rows, ws.repo, ws.branch);
    if branch.Some? { ReworkByFacts(t, base, branch.value); }
    hide FindRow, FindOpen, RowFor, IsRework, PublishGuard, RequiredPassed, PlanCreate, PlanRework, BoundRows;
  }

  lemma CreationPlansNext(base: string, s: Site, c: Call)
    requires PublishGuard(s.task, base) && s.task.status == Validating
    requires RowFor(s.task.rows, s.task.Latest().id).None?
    requires FindRow(s.task.rows, s.task.Latest().workspace.value.repo,
                     s.task.Latest().workspace.value.branch).None?
    ensures PlansNext(base, s, c)
  {
    GuardByFacts(s.task, base);
    hide FindRow, FindOpen, RowFor, IsRework, PublishGuard, RequiredPassed, PlanRework;
  }

  lemma ReworkPlansNext(base: string, s: Site, c: Call)
    requires PublishGuard(s.task, base) && s.task.status == Validating
    requires RowFor(s.task.rows, s.task.Latest().id).None?
    requires FindRow(s.task.rows, s.task.Latest().workspace.value.repo,
                     s.task.Latest().workspace.value.branch).Some?
    ensures PlansNext(base, s, c)
  {
    GuardByFacts(s.task, base);
    var ws := s.task.Latest().workspace.value;
    var i := FindRow(s.task.rows, ws.repo, ws.branch).value;
    ReworkByFacts(s.task, base, i);
    hide FindRow, FindOpen, RowFor, IsRework, PublishGuard, RequiredPassed, PlanCreate;
    if c.reviewPasses && !c.foreignBranch && IsRework(s.task, base, i) {
      assert Plan(base, s, c) == PlanRework(base, s, c, i);
      hide Plan;
      ReworkWritesNext(base, s, c, i);
    } else {
      assert Plan(base, s, c) == [] && Refuses(base, s, c);
    }
  }

  lemma ReworkWritesNext(base: string, s: Site, c: Call, i: nat)
    requires PublishGuard(s.task, base) && s.task.status == Validating && i < |s.task.rows|
    requires RowFor(s.task.rows, s.task.Latest().id).None?
    requires FindRow(s.task.rows, s.task.Latest().workspace.value.repo,
                     s.task.Latest().workspace.value.branch) == Some(i)
    requires c.reviewPasses && !c.foreignBranch && IsRework(s.task, base, i)
    ensures
      var plan := PlanRework(base, s, c, i);
      if Refuses(base, s, c) then plan == []
      else NextSite(base, s, c) == if plan == [] then s else Perform(base, s, plan[0])
  {
    GuardByFacts(s.task, base);
    ReworkByFacts(s.task, base, i);
    hide FindOpen, RowFor, IsRework, PublishGuard, RequiredPassed;
  }

  // A refused call leaves task and forge exactly as they were, however many writes its
  // process could make; any other call makes the next missing write, and none it does
  // not have to.
  lemma CallByFacts(base: string, s: Site, c: Call)
    ensures Refuses(base, s, c) || c.writes == 0 ==> Attempt(base, s, c) == s
    ensures !Refuses(base, s, c) && c.writes == 1 ==> Attempt(base, s, c) == NextSite(base, s, c)
  {
    EveryCallPlansNext(base, s, c);
    hide Plan, NextSite, Refuses, Perform;
  }

  // A call that survives more writes is that many calls of one write.
  lemma CallIsSingleWrites(base: string, s: Site, c: Call)
    requires c.writes > 0
    ensures Attempt(base, s, c) ==
            Attempt(base, Attempt(base, s, c.(writes := 1)), c.(writes := c.writes - 1))
  {
    SamePlan(base, s, c, 1);
    var mid := Attempt(base, s, c.(writes := 1));
    SamePlan(base, mid, c, c.writes - 1);
    if Plan(base, s, c) != [] { AfterFirstWrite(base, s, c); }
    hide Plan, Perform;
  }

  // -- dead calls with answers of their own ----------------------------------------

  // The latest run's publication is complete but for the task's status: its row
  // carries its commit, the branch is at that commit, and the open pull request of the
  // branch has the row's number.
  predicate Carried(base: string, s: Site) {
    var t := s.task;
    && PublishGuard(t, base)
    && var r, ws := t.Latest(), t.Latest().workspace.value;
       var own, open := RowFor(t.rows, r.id), FindOpen(s.forge.prs, ws.repo, ws.branch, base);
       && own.Some? && open.Some?
       && t.rows[own.value].repo == ws.repo && t.rows[own.value].head == ws.branch
       && t.rows[own.value].base == base
       && t.rows[own.value].number == s.forge.prs[open.value].number
       && r.id in s.forge.commits && t.rows[own.value].commit == s.forge.commits[r.id]
       && (ws.repo, ws.branch) in s.forge.pushed
       && s.forge.pushed[(ws.repo, ws.branch)] == s.forge.commits[r.id]
  }

  // A validated run that has no row yet: its branch has none either, or the row of an
  // earlier review on the same checkout, whose pull request is the open one.
  predicate Unstored(base: string, s: Site) {
    var t := s.task;
    && t.status == Validating
    && PublishGuard(t, base)
    && RowFor(t.rows, t.Latest().id).None?
    && var ws := t.Latest().workspace.value;
       var open := FindOpen(s.forge.prs, ws.repo, ws.branch, base);
       match FindRow(t.rows, ws.repo, ws.branch)
       case None => true
       case Some(i) =>
         && IsRework(t, base, i) && SameCheckout(t, i)
         && open.Some? && s.forge.prs[open.value].number == t.rows[i].number
  }

  // Somewhere in the publication of a certified run.
  predicate Underway(base: string, s: Site) {
    var t := s.task;
    && PublishGuard(t, base)
    && NonBlank(t.Latest().revision)
    && (t.Latest().id in s.forge.commits ==> NonBlank(Some(s.forge.commits[t.Latest().id])))
    && (Unstored(base, s) || (t.status in {Validating, PrOpen, WaitingHuman} && Carried(base, s)))
  }

  // The name git gives a commit is not blank.
  predicate Names(c: Call) { c.commit.Some? ==> NonBlank(c.commit) }

  lemma WriteKeepsUnderway(base: string, s: Site, c: Call)
    requires Underway(base, s) && Names(c) && Plan(base, s, c) != []
    ensures Underway(base, Perform(base, s, Plan(base, s, c)[0]))
  {
    if Unstored(base, s) {
      UnstoredPlan(base, s, c);
      hide Plan, Carried, Unstored, Due, Perform;
      UnstoredWrite(base, s, Plan(base, s, c)[0]);
    } else {
      CarriedPlan(base, s, c);
      hide Plan, FindOpen, FindRow, RowFor, NonBlank;
    }
  }

  // What the first write of a call can be before the row is stored.
  predicate Due(base: string, s: Site, w: Write)
    requires s.task.runs != [] && s.task.Latest().workspace.Some?
  {
    var id, ws := s.task.Latest().id, s.task.Latest().workspace.value;
    var open := FindOpen(s.forge.prs, ws.repo, ws.branch, base);
    var found := FindRow(s.task.rows, ws.repo, ws.branch);
    match w
    case Commit(sha) => NonBlank(Some(sha))
    case Push(_) => true
    case OpenRemote(_) => found.None?
    case StoreRow(number, sha) =>
      && id in s.forge.commits && sha == s.forge.commits[id]
      && (ws.repo, ws.branch) in s.forge.pushed && s.forge.pushed[(ws.repo, ws.branch)] == sha
      && open.Some? && s.forge.prs[open.value].number == number
      && (found.Some? ==> s.task.rows[found.value].number == number)
    case MoveTo(_) => false
  }

  lemma UnstoredPlan(base: string, s: Site, c: Call)
    requires Unstored(base, s) && Names(c) && Plan(base, s, c) != []
    ensures Due(base, s, Plan(base, s, c)[0])
  {
  }

  lemma UnstoredWrite(base: string, s: Site, w: Write)
    requires Underway(base, s) && Unstored(base, s) && Due(base, s, w)
    ensures Underway(base, Perform(base, s, w))
  {
    match w
    case StoreRow(number, sha) =>
      StoredIsCarried(base, s, number, sha);
      hide Carried, FindOpen, FindRow, RowFor, BoundRows;
    case OpenRemote(number) =>
      var ws := s.task.Latest().workspace.value;
      hide Carried, FindRow, RowFor, NonBlank;
    case _ => hide Carried, FindOpen, FindRow, RowFor;
  }

  lemma CarriedPlan(base: string, s: Site, c: Call)
    requires Carried(base, s)
    ensures Plan(base, s, c) == Reconciling(s.task.status) || Plan(base, s, c) == []
    ensures s.task.status == WaitingHuman || c.reviewPasses ==> Plan(base, s, c) == Reconciling(s.task.status)
  {
  }

  lemma StoredIsCarried(base: string, s: Site, number: nat, sha: string)
    requires Unstored(base, s) && Due(base, s, StoreRow(number, sha))
    ensures Carried(base, Perform(base, s, StoreRow(number, sha)))
  {
    var t := s.task;
    var ws := t.Latest().workspace.value;
    var rows := BoundRows(t, base, number, sha);
    assert forall j :: 0 <= j < |t.rows| ==> t.rows[j] in t.rows;
    match FindRow(t.rows, ws.repo, ws.branch)
    case Some(i) => FoundByRun(rows, i, t.Latest().id);
    case None => FoundByRun(rows, |t.rows|, t.Latest().id);
  }

  lemma {:induction false} CutKeepsUnderway(base: string, s: Site, c: Call, k: nat)
    requires Underway(base, s) && Names(c)
    ensures Underway(base, Cut(base, s, Plan(base, s, c), k))
    decreases k
  {
    hide Plan, Perform, Underway;
    if k > 0 && Plan(base, s, c) != [] {
      AfterFirstWrite(base, s, c);
      WriteKeepsUnderway(base, s, c);
      CutKeepsUnderway(base, Perform(base, s, Plan(base, s, c)[0]), c, k - 1);
    }
  }

  // Calls one after the other, each with its own answers and its own death.
  function Called(base: string, s: Site, calls: seq<Call>): Site
    decreases |calls|
  {
    if calls == [] then s else Called(base, Attempt(base, s, calls[0]), calls[1..])
  }

  lemma {:induction false} CallsKeepUnderway(base: string, s: Site, calls: seq<Call>)
    requires Underway(base, s) && forall c :: c in calls ==> Names(c)
    ensures Underway(base, Called(base, s, calls))
    decreases |calls|
  {
    hide Plan, Perform, Underway, Names;
    if calls != [] {
      assert calls[0] in calls;
      CutKeepsUnderway(base, s, calls[0], calls[0].writes);
      CallsKeepUnderway(base, Attempt(base, s, calls[0]), calls[1..]);
    }
  }

  lemma NothingLeft(base: string, s: Site, c: Call)
    requires Underway(base, s) && Plan(base, s, c) == []
    requires c.reviewPasses && !c.foreignBranch && c.commit.Some? && Names(c)
    ensures s.task.status == WaitingHuman && Carried(base, s)
  {
    if !Unstored(base, s) { CarriedPlan(base, s, c); }
  }

  // Whatever the calls before it answered and wherever each of them died, the first
  // whole call that nothing refuses ends with the task handed to a human, and with one
  // row, commit, remote branch and open pull request that agree.
  lemma EndsHandedOff(base: string, s: Site, calls: seq<Call>, c: Call)
    requires Underway(base, s) && forall d :: d in calls ==> Names(d)
    requires c.reviewPasses && !c.foreignBranch && c.commit.Some? && Names(c)
    ensures
      var later := Whole(base, Called(base, s, calls), c);
      later.task.status == WaitingHuman && Carried(base, later)
  {
    hide Plan, Perform, Underway, Names, Carried;
    var mid := Called(base, s, calls);
    CallsKeepUnderway(base, s, calls);
    CutKeepsUnderway(base, mid, c, |Plan(base, mid, c)|);
    PublishedOnce(base, mid, c);
    NothingLeft(base, Whole(base, mid, c), c);
  }

  // -- what a whole call leaves ---------------------------------------------------

  function Forged(s: Site, sha: string): Site
    requires s.task.runs != [] && s.task.Latest().workspace.Some?
  {
    var ws := s.task.Latest().workspace.value;
    s.(forge := s.forge.(commits := s.forge.commits[s.task.Latest().id := sha],
                         pushed := s.forge.pushed[(ws.repo, ws.branch) := sha]))
  }

  lemma ForgedFirst(base: string, s: Site, c: Call, rest: seq<Write>)
    requires s.task.runs != [] && s.task.Latest().workspace.Some? && Sha(s, c).Some?
    ensures
      var sha := Sha(s, c).value;
      var writes := Committing(s, sha, Pushing(s, sha, rest));
      Cut(base, s, writes, |writes|) == Cut(base, Forged(s, sha), rest, |rest|)
  {
    var sha := Sha(s, c).value;
    var ws := s.task.Latest().workspace.value;
    var writes := Committing(s, sha, Pushing(s, sha, rest));
    var pushes := Pushing(s, sha, rest);
    var committed := s.(forge := s.forge.(commits := s.forge.commits[s.task.Latest().id := sha]));
    assert s.task.Latest().id in s.forge.commits ==> committed == s;
    assert Cut(base, s, writes, |writes|) == Cut(base, committed, pushes, |pushes|);
    if pushes == rest {
      assert committed.forge.pushed == committed.forge.pushed[(ws.repo, ws.branch) := sha];
    } else {
      assert pushes[1..] == rest;
    }
  }

  // The row stored, and the task handed to a human.
  function HandedOff(base: string, t: Task, number: nat, sha: string): Task
    requires t.runs != [] && t.Latest().workspace.Some?
  {
    t.(rows := BoundRows(t, base, number, sha)).MovedTo(PrOpen).MovedTo(WaitingHuman)
  }

  lemma StoredAndHandedOff(base: string, s: Site, number: nat, sha: string)
    requires s.task.runs != [] && s.task.Latest().workspace.Some?
    ensures Cut(base, s, [StoreRow(number, sha)] + Reconciling(Validating), 3)
            == s.(task := HandedOff(base, s.task, number, sha))
  {
    var writes := [StoreRow(number, sha)] + Reconciling(Validating);
    assert writes[1..] == [MoveTo(PrOpen), MoveTo(WaitingHuman)];
    assert writes[1..][1..] == [MoveTo(WaitingHuman)];
    var stored := Perform(base, s, writes[0]);
    var withPr := Perform(base, stored, MoveTo(PrOpen));
    hide BoundRows;
    assert Cut(base, s, writes, 3) == Cut(base, stored, writes[1..], 2);
    assert Cut(base, stored, writes[1..], 2) == Cut(base, withPr, [MoveTo(WaitingHuman)], 1);
    assert Cut(base, withPr, [MoveTo(WaitingHuman)], 1)
        == Cut(base, Perform(base, withPr, MoveTo(WaitingHuman)), [], 0);
  }

  // The first publication of a branch: one commit, the branch at that commit, one
  // open pull request, one row naming it, and two history rows.
  lemma WholeCallCreates(base: string, s: Site, c: Call)
    requires var t := s.task;
             && t.status == Validating && PublishGuard(t, base) && c.reviewPasses && !c.foreignBranch
             && NonBlank(t.Latest().revision) && Sha(s, c).Some?
             && RowFor(t.rows, t.Latest().id).None?
             && FindRow(t.rows, t.Latest().workspace.value.repo,
                        t.Latest().workspace.value.branch).None?
    ensures
      var ws, sha := s.task.Latest().workspace.value, Sha(s, c).value;
      var found := FindOpen(s.forge.prs, ws.repo, ws.branch, base);
      var number := if found.Some? then s.forge.prs[found.value].number else c.number;
      Whole(base, s, c) == Site(
        HandedOff(base, s.task, number, sha),
        Forged(s, sha).forge.(
          prs := if found.Some? then s.forge.prs
                 else s.forge.prs + [ProviderPr(ws.repo, ws.branch, base, number, true)]))
  {
    var ws, sha := s.task.Latest().workspace.value, Sha(s, c).value;
    var found := FindOpen(s.forge.prs, ws.repo, ws.branch, base);
    assert Plan(base, s, c) == PlanCreate(base, s, c);
    hide Plan, PublishGuard, FindRow, RowFor, BoundRows;
    if found.Some? {
      var rest := [StoreRow(s.forge.prs[found.value].number, sha)] + Reconciling(Validating);
      ForgedFirst(base, s, c, rest);
      StoredAndHandedOff(base, Forged(s, sha), s.forge.prs[found.value].number, sha);
    } else {
      var rest := [StoreRow(c.number, sha)] + Reconciling(Validating);
      var opening := [OpenRemote(c.number), StoreRow(c.number, sha)] + Reconciling(Validating);
      ForgedFirst(base, s, c, opening);
      assert opening[1..] == rest;
      var withPr := Perform(base, Forged(s, sha), OpenRemote(c.number));
      assert Cut(base, Forged(s, sha), opening, |opening|) == Cut(base, withPr, rest, 3);
      StoredAndHandedOff(base, withPr, c.number, sha);
    }
  }

  // A rework publishes into the open pull request of the earlier review: no new
  // one is opened, the number stays, and the row moves to the new run and commit.
  lemma WholeCallReworks(base: string, s: Site, c: Call, i: nat, j: nat)
    requires var t := s.task;
             && t.status == Validating && PublishGuard(t, base) && c.reviewPasses && !c.foreignBranch
             && NonBlank(t.Latest().revision) && Sha(s, c).Some? && NonBlank(Sha(s, c))
             && RowFor(t.rows, t.Latest().id).None?
             && var ws := t.Latest().workspace.value;
                && FindRow(t.rows, ws.repo, ws.branch) == Some(i)
                && IsRework(t, base, i) && SameCheckout(t, i)
                && FindOpen(s.forge.prs, ws.repo, ws.branch, base) == Some(j)
                && s.forge.prs[j].number == t.rows[i].number
    ensures
      var sha := Sha(s, c).value;
      && Whole(base, s, c) == Site(HandedOff(base, s.task, s.task.rows[i].number, sha), Forged(s, sha).forge)
      && Whole(base, s, c).task.rows
         == s.task.rows[i := s.task.rows[i].(runId := s.task.Latest().id, commit := sha)]
      && Whole(base, s, c).forge.prs == s.forge.prs
  {
    var sha, number := Sha(s, c).value, s.task.rows[i].number;
    assert Plan(base, s, c) == PlanRework(base, s, c, i);
    hide Plan, PublishGuard, RowFor;
    var rest := [StoreRow(number, sha)] + Reconciling(Validating);
    ForgedFirst(base, s, c, rest);
    StoredAndHandedOff(base, Forged(s, sha), number, sha);
  }

  // -- any number of calls, reviews, retries and crashes ----------------------------

  // The task with the dispatchers at work on it, and everything outside the store.
  datatype Hub = Hub(node: Node, forge: Forge)

  datatype Move =
    | Publish(call: Call)
    | Other(event: Event)
    | CloseRemote(index: nat)

  // Between two calls anything may happen to the task except the three steps that
  // only publication takes; a pull request stays open until its row is stored.
  predicate CanMove(p: Policy, h: Hub, m: Move) {
    match m
    case Publish(_) => h.node.task.kind == Code
    case Other(e) => Enabled(p, h.node, e) && !e.BindRow? && !e.OpenPr? && !e.HandOff?
    case CloseRemote(i) =>
      i < |h.forge.prs|
      && FindRow(h.node.task.rows, h.forge.prs[i].repo, h.forge.prs[i].head).Some?
  }

  function Moved(base: string, h: Hub, m: Move): Hub {
    match m
    case Publish(c) =>
      var s := Attempt(base, Site(h.node.task, h.forge), c);
      Hub(h.node.(task := s.task), s.forge)
    case Other(e) => Hub(Next(h.node, e), h.forge)
    case CloseRemote(i) =>
      if i < |h.forge.prs|
      then h.(forge := h.forge.(prs := h.forge.prs[i := h.forge.prs[i].(open := false)]))
      else h
  }

  predicate LawfulMoves(p: Policy, base: string, h: Hub, moves: seq<Move>)
    decreases |moves|
  {
    moves == []
    || (CanMove(p, h, moves[0]) && LawfulMoves(p, base, Moved(base, h, moves[0]), moves[1..]))
  }

  function AllMoved(base: string, h: Hub, moves: seq<Move>): Hub
    decreases |moves|
  {
    if moves == [] then h else AllMoved(base, Moved(base, h, moves[0]), moves[1..])
  }

  predicate SameKey(a: ProviderPr, b: ProviderPr) {
    a.repo == b.repo && a.head == b.head && a.base == b.base
  }

  // At most one pull request was ever opened for a repository, head and base; one
  // that is not open any more has its row stored; and every row names a provider
  // pull request of the same number.
  ghost predicate OnePerBranch(rows: seq<PrRow>, prs: seq<ProviderPr>) {
    && (forall i, j :: 0 <= i < j < |prs| ==> !SameKey(prs[i], prs[j]))
    && (forall i :: 0 <= i < |prs| ==> prs[i].open || FindRow(rows, prs[i].repo, prs[i].head).Some?)
    && (forall q :: q in rows ==> exists i :: 0 <= i < |prs| && NamedBy(prs[i], q))
  }

  predicate NamedBy(r: ProviderPr, q: PrRow) {
    r.repo == q.repo && r.head == q.head && r.base == q.base && r.number == q.number
  }

  // Commits are made once per run, and pull requests keep their place and number.
  ghost predicate ForgeGrows(before: Forge, later: Forge) {
    && (forall id :: id in before.commits ==> id in later.commits && later.commits[id] == before.commits[id])
    && |before.prs| <= |later.prs|
    && (forall i :: 0 <= i < |before.prs| ==>
          SameKey(later.prs[i], before.prs[i]) && later.prs[i].number == before.prs[i].number)
  }

  // What holds when a call is about to perform its next write.
  predicate Justified(base: string, s: Site, w: Write) {
    var t := s.task;
    && PublishGuard(t, base)
    && var ws := t.Latest().workspace.value;
       var found := FindRow(t.rows, ws.repo, ws.branch);
       var open := FindOpen(s.forge.prs, ws.repo, ws.branch, base);
       match w
       case Commit(_) => t.Latest().id !in s.forge.commits
       case Push(_) => true
       case OpenRemote(_) => found.None? && open.None?
       case StoreRow(number, _) =>
         && t.status == Validating
         && NonBlank(t.Latest().revision)
         && RowFor(t.rows, t.Latest().id).None?
         && open.Some? && s.forge.prs[open.value].number == number
         && (found.Some? ==> IsRework(t, base, found.value) && t.rows[found.value].number == number)
       case MoveTo(target) =>
         || (t.status == PrOpen && target == WaitingHuman)
         || (t.status == Validating && target == PrOpen && RowFor(t.rows, t.Latest().id).Some?)
  }

  lemma NextIsJustified(base: string, s: Site, c: Call)
    requires Plan(base, s, c) != []
    ensures Justified(base, s, Plan(base, s, c)[0])
  {
  }

  lemma WriteKeepsOnePerBranch(base: string, s: Site, c: Call)
    requires Plan(base, s, c) != [] && OnePerBranch(s.task.rows, s.forge.prs)
    ensures
      var later := Perform(base, s, Plan(base, s, c)[0]);
      OnePerBranch(later.task.rows, later.forge.prs) && ForgeGrows(s.forge, later.forge)
  {
    NextIsJustified(base, s, c);
    hide Plan, Justified, OnePerBranch, ForgeGrows, Perform;
    JustifiedKeepsOnePerBranch(base, s, Plan(base, s, c)[0]);
  }

  lemma JustifiedKeepsOnePerBranch(base: string, s: Site, w: Write)
    requires Justified(base, s, w) && OnePerBranch(s.task.rows, s.forge.prs)
    ensures
      var later := Perform(base, s, w);
      OnePerBranch(later.task.rows, later.forge.prs) && ForgeGrows(s.forge, later.forge)
  {
    hide FindRow, FindOpen;
    match w
    case OpenRemote(number) =>
      var ws := s.task.Latest().workspace.value;
      OpeningKeepsOnePerBranch(s.task.rows, s.forge.prs, ProviderPr(ws.repo, ws.branch, base, number, true));
    case StoreRow(number, sha) => RowKeepsOnePerBranch(base, s, number, sha);
    case _ =>
  }

  lemma OpeningKeepsOnePerBranch(rows: seq<PrRow>, prs: seq<ProviderPr>, q: ProviderPr)
    requires OnePerBranch(rows, prs) && q.open
    requires FindRow(rows, q.repo, q.head).None? && FindOpen(prs, q.repo, q.head, q.base).None?
    ensures OnePerBranch(rows, prs + [q])
  {
    forall i | 0 <= i < |prs|
      ensures !SameKey(prs[i], q)
    {
      assert prs[i] in prs;
    }
    forall row | row in rows
      ensures exists i :: 0 <= i < |prs + [q]| && NamedBy((prs + [q])[i], row)
    {
      var i :| 0 <= i < |prs| && NamedBy(prs[i], row);
      assert NamedBy((prs + [q])[i], row);
    }
  }

  lemma RowKeepsOnePerBranch(base: string, s: Site, number: nat, sha: string)
    requires Justified(base, s, StoreRow(number, sha)) && OnePerBranch(s.task.rows, s.forge.prs)
    ensures OnePerBranch(BoundRows(s.task, base, number, sha), s.forge.prs)
  {
    var t := s.task;
    var ws := t.Latest().workspace.value;
    var rows := BoundRows(t, base, number, sha);
    var found := FindRow(t.rows, ws.repo, ws.branch);
    var open := FindOpen(s.forge.prs, ws.repo, ws.branch, base);
    var k := if found.Some? then found.value else |t.rows|;
    assert rows[k].repo == ws.repo && rows[k].head == ws.branch && rows[k].base == base;
    assert rows[k].number == number;
    hide BoundRows, FindRow, FindOpen;
    forall q | q in rows
      ensures exists i :: 0 <= i < |s.forge.prs| && NamedBy(s.forge.prs[i], q)
    {
      if q !in t.rows { assert NamedBy(s.forge.prs[open.value], rows[k]); }
    }
    forall i | 0 <= i < |s.forge.prs| && !s.forge.prs[i].open
      ensures FindRow(rows, s.forge.prs[i].repo, s.forge.prs[i].head).Some?
    {
      var at := FindRow(t.rows, s.forge.prs[i].repo, s.forge.prs[i].head).value;
      assert rows[at] in rows && rows[at].repo == t.rows[at].repo && rows[at].head == t.rows[at].head;
    }
  }

  lemma {:induction false} AttemptKeepsOnePerBranch(base: string, s: Site, c: Call, k: nat)
    requires OnePerBranch(s.task.rows, s.forge.prs)
    ensures
      var later := Cut(base, s, Plan(base, s, c), k);
      OnePerBranch(later.task.rows, later.forge.prs) && ForgeGrows(s.forge, later.forge)
    decreases k
  {
    hide Plan, Perform, OnePerBranch;
    if k > 0 && Plan(base, s, c) != [] {
      AfterFirstWrite(base, s, c);
      WriteKeepsOnePerBranch(base, s, c);
      AttemptKeepsOnePerBranch(base, Perform(base, s, Plan(base, s, c)[0]), c, k - 1);
    }
  }

  // -- every write on the task is a protocol step -------------------------------

  function StepsOf(base: string, w: Write): seq<Event> {
    match w
    case StoreRow(number, sha) => [BindRow(base, number, sha)]
    case MoveTo(target) => if target == PrOpen then [OpenPr] else [HandOff]
    case _ => []
  }

  lemma WriteIsStep(p: Policy, base: string, n: Node, f: Forge, c: Call)
    requires n.task.kind == Code && Plan(base, Site(n.task, f), c) != []
    ensures
      var w := Plan(base, Site(n.task, f), c)[0];
      var later := Perform(base, Site(n.task, f), w).task;
      && (StepsOf(base, w) == [] ==> later == n.task)
      && (StepsOf(base, w) != [] ==>
            Enabled(p, n, StepsOf(base, w)[0]) && Next(n, StepsOf(base, w)[0]) == n.(task := later))
  {
    NextIsJustified(base, Site(n.task, f), c);
    match Plan(base, Site(n.task, f), c)[0]
    case StoreRow(number, sha) => hide Plan; StoringIsStep(p, base, n, f, number, sha);
    case MoveTo(target) =>
      hide Plan;
      if target == PrOpen { assert n.task.rows[RowFor(n.task.rows, n.task.Latest().id).value] in n.task.rows; }
    case _ =>
  }

  lemma StoringIsStep(p: Policy, base: string, n: Node, f: Forge, number: nat, sha: string)
    requires n.task.kind == Code && Justified(base, Site(n.task, f), StoreRow(number, sha))
    ensures Enabled(p, n, BindRow(base, number, sha)) && CanBindRow(n.task, base)
  {
    assert forall q :: q in n.task.rows ==> q.runId != n.task.Latest().id;
  }

  lemma {:induction false} AttemptIsHistory(p: Policy, base: string, n: Node, f: Forge, c: Call, k: nat)
    returns (events: seq<Event>)
    requires n.task.kind == Code
    ensures
      Realizes(p, n, events, Cut(base, Site(n.task, f), Plan(base, Site(n.task, f), c), k).task)
    decreases k
  {
    hide Plan, Perform, Enabled, Next;
    events := [];
    var s := Site(n.task, f);
    if k > 0 && Plan(base, s, c) != [] {
      var w := Plan(base, s, c)[0];
      var later := Perform(base, s, w);
      AfterFirstWrite(base, s, c);
      WriteIsStep(p, base, n, f, c);
      WriteKeepsKind(base, s, w);
      var first := StepsOf(base, w);
      if first != [] {
        assert [first[0]][1..] == [];
      }
      var rest := AttemptIsHistory(p, base, n.(task := later.task), later.forge, c, k - 1);
      LegalAppend(p, n, first, rest);
      events := first + rest;
    }
  }

  lemma WriteKeepsKind(base: string, s: Site, w: Write)
    ensures Perform(base, s, w).task.kind == s.task.kind
  {
  }

  // Over every sequence of publish calls, each cut after any write and meeting any
  // answers, mixed with any other steps of the task: at most one pull request is
  // ever opened per repository, head and base, every stored row carries the number
  // of such a pull request, no run is committed twice, and the task has gone
  // through a legal protocol history.
  lemma {:induction false} PublicationHistory(p: Policy, base: string, h: Hub, moves: seq<Move>)
    returns (events: seq<Event>)
    requires LawfulMoves(p, base, h, moves)
    requires OnePerBranch(h.node.task.rows, h.forge.prs)
    ensures
      var later := AllMoved(base, h, moves);
      && OnePerBranch(later.node.task.rows, later.forge.prs)
      && ForgeGrows(h.forge, later.forge)
      && Legal(p, h.node, events) && After(h.node, events) == later.node
    decreases |moves|
  {
    hide OnePerBranch, ForgeGrows, Enabled, Next;
    events := [];
    if moves == [] {
      ForgeSame(h.forge);
    } else {
      var mid := Moved(base, h, moves[0]);
      var first := MoveKeepsAll(p, base, h, moves[0]);
      var rest := PublicationHistory(p, base, mid, moves[1..]);
      LegalAppend(p, h.node, first, rest);
      ForgeChain(h.forge, mid.forge, AllMoved(base, h, moves).forge);
      events := first + rest;
    }
  }

  lemma ForgeSame(f: Forge)
    ensures ForgeGrows(f, f)
  {
  }

  lemma ForgeChain(a: Forge, b: Forge, c: Forge)
    requires ForgeGrows(a, b) && ForgeGrows(b, c)
    ensures ForgeGrows(a, c)
  {
  }

  lemma MoveKeepsAll(p: Policy, base: string, h: Hub, m: Move) returns (events: seq<Event>)
    requires CanMove(p, h, m)
    requires OnePerBranch(h.node.task.rows, h.forge.prs)
    ensures
      var later := Moved(base, h, m);
      && OnePerBranch(later.node.task.rows, later.forge.prs)
      && ForgeGrows(h.forge, later.forge)
      && Legal(p, h.node, events) && After(h.node, events) == later.node
  {
    match m
    case Publish(c) =>
      hide OnePerBranch, ForgeGrows, Enabled, Next, Plan, Perform;
      AttemptKeepsOnePerBranch(base, Site(h.node.task, h.forge), c, c.writes);
      events := AttemptIsHistory(p, base, h.node, h.forge, c, c.writes);
    case Other(e) =>
      RowsAfterStep(p, h.node, e);
      events := [e];
      assert [e][1..] == [];
      hide Enabled, Next;
    case CloseRemote(i) =>
      events := [];
      ClosingKeepsOnePerBranch(h.node.task.rows, h.forge.prs, i);
  }

  lemma ClosingKeepsOnePerBranch(rows: seq<PrRow>, prs: seq<ProviderPr>, i: nat)
    requires i < |prs| && OnePerBranch(rows, prs) && FindRow(rows, prs[i].repo, prs[i].head).Some?
    ensures OnePerBranch(rows, prs[i := prs[i].(open := false)])
  {
    var later := prs[i := prs[i].(open := false)];
    forall q | q in rows
      ensures exists j :: 0 <= j < |later| && NamedBy(later[j], q)
    {
      var j :| 0 <= j < |prs| && NamedBy(prs[j], q);
      assert NamedBy(later[j], q);
    }
  }

  // -- the service itself --------------------------------------------------------

  lemma OneMore(base: string, s: Site, w: Write, rest: seq<Write>, left: nat)
    ensures Cut(base, s, [w] + rest, left) ==
            if left == 0 then s else Cut(base, Perform(base, s, w), rest, left - 1)
  {
    assert ([w] + rest)[1..] == rest;
  }

  class PublicationService {
    const base: string
    var task: Task
    var forge: Forge

    constructor (base: string, task: Task, forge: Forge)
      ensures this.base == base && this.task == task && this.forge == forge
    {
      this.base := base;
      this.task := task;
      this.forge := forge;
    }

    // One durable or external write, unless the process is dead by then.
    method Do(w: Write, left: nat, ghost rest: seq<Write>) returns (alive: bool, remaining: nat)
      requires task.runs != [] && task.Latest().workspace.Some?
      modifies this`task, this`forge
      ensures alive <==> left > 0
      ensures alive ==> remaining == left - 1
      ensures alive ==> Site(task, forge) == Perform(base, Site(old(task), old(forge)), w)
      ensures Cut(base, Site(old(task), old(forge)), [w] + rest, left) ==
              if alive then Cut(base, Site(task, forge), rest, remaining) else Site(task, forge)
    {
      OneMore(base, Site(task, forge), w, rest, left);
      if left == 0 { return false, 0; }
      var ws := task.Latest().workspace.value;
      match w {
        case Commit(sha) => forge := forge.(commits := forge.commits[task.Latest().id := sha]);
        case Push(sha) => forge := forge.(pushed := forge.pushed[(ws.repo, ws.branch) := sha]);
        case OpenRemote(number) =>
          forge := forge.(prs := forge.prs + [ProviderPr(ws.repo, ws.branch, base, number, true)]);
        case StoreRow(number, sha) => task := task.(rows := BoundRows(task, base, number, sha));
        case MoveTo(target) => task := task.MovedTo(target);
      }
      return true, left - 1;
    }

    // The publisher port: reuse or make the run's commit, then bring the branch to it.
    method PublishBranch(c: Call, sha: string, left: nat, ghost rest: seq<Write>)
      returns (alive: bool, remaining: nat)
      requires task.runs != [] && task.Latest().workspace.Some?
      requires Sha(Site(task, forge), c) == Some(sha)
      modifies this`forge
      ensures alive ==> Site(task, forge) == Forged(Site(old(task), old(forge)), sha)
      ensures
        var s := Site(old(task), old(forge));
        Cut(base, s, Committing(s, sha, Pushing(s, sha, rest)), left) ==
        if alive then Cut(base, Site(task, forge), rest, remaining) else Site(task, forge)
    {
      hide Cut, Perform;
      ghost var s := Site(task, forge);
      ghost var pushes := Pushing(s, sha, rest);
      var id := task.Latest().id;
      var ws := task.Latest().workspace.value;
      remaining := left;
      if id !in forge.commits {
        OneMore(base, s, Commit(sha), pushes, remaining);
        if remaining == 0 { return false, 0; }
        Committed(base, s, sha);
        forge := forge.(commits := forge.commits[id := sha]);
        remaining := remaining - 1;
      } else {
        assert forge.commits[id := sha] == forge.commits;
      }
      if !((ws.repo, ws.branch) in forge.pushed && forge.pushed[(ws.repo, ws.branch)] == sha) {
        OneMore(base, Site(task, forge), Push(sha), rest, remaining);
        if remaining == 0 { return false, 0; }
        Pushed(base, Site(task, forge), sha);
        forge := forge.(pushed := forge.pushed[(ws.repo, ws.branch) := sha]);
        remaining := remaining - 1;
      } else {
        assert forge.pushed[(ws.repo, ws.branch) := sha] == forge.pushed;
      }
      return true, remaining;
    }

    // Forward along the publication edges only; a task already handed off stays.
    method Reconcile(left: nat)
      requires task.runs != [] && task.Latest().workspace.Some?
      modifies this`task
      ensures Site(task, forge)
              == Cut(base, Site(old(task), old(forge)), Reconciling(old(task).status), left)
    {
      var remaining := left;
      if task.status == Validating {
        OneMore(base, Site(task, forge), MoveTo(PrOpen), [MoveTo(WaitingHuman)], remaining);
        if remaining == 0 { return; }
        task := task.MovedTo(PrOpen);
        remaining := remaining - 1;
      }
      if task.status == PrOpen {
        OneMore(base, Site(task, forge), MoveTo(WaitingHuman), [], remaining);
        if remaining == 0 { return; }
        task := task.MovedTo(WaitingHuman);
      }
    }

    // PublicationService.publish of the task's latest run.
    method Publish(c: Call)
      modifies this`task, this`forge
      ensures Site(task, forge) == Attempt(base, Site(old(task), old(forge)), c)
      ensures Refuses(base, Site(old(task), old(forge)), c) ==>
                task == old(task) && forge == old(forge)
      ensures !Refuses(base, Site(old(task), old(forge)), c) && c.writes == 1 ==>
                Site(task, forge) == NextSite(base, Site(old(task), old(forge)), c)
    {
      hide Cut, Perform, BoundRows, Refuses, NextSite;
      CallByFacts(base, Site(task, forge), c);
      if !PublishGuard(task, base) { CutNothing(base, Site(task, forge), c.writes); return; }
      if task.status != WaitingHuman && !c.reviewPasses {
        CutNothing(base, Site(task, forge), c.writes);
        return;
      }
      var run := task.Latest();
      var ws := run.workspace.value;
      var own := RowFor(task.rows, run.id);
      if own.Some? {
        var row := task.rows[own.value];
        if row.repo == ws.repo && row.head == ws.branch && row.base == base {
          Reconcile(c.writes);
        } else {
          CutNothing(base, Site(task, forge), c.writes);
        }
        return;
      }
      if c.foreignBranch { CutNothing(base, Site(task, forge), c.writes); return; }
      var prior := FindRow(task.rows, ws.repo, ws.branch);
      if prior.Some? {
        if !IsRework(task, base, prior.value) {
          CutNothing(base, Site(task, forge), c.writes);
        } else if task.status == Validating {
          Rework(c, prior.value);
        } else {
          Reconcile(c.writes);
        }
      } else if task.status != Validating {
        CutNothing(base, Site(task, forge), c.writes);
      } else {
        Create(c);
      }
    }

    method Rework(c: Call, i: nat)
      requires PublishGuard(task, base) && task.status == Validating && i < |task.rows|
      requires RowFor(task.rows, task.Latest().id).None?
      requires FindRow(task.rows, task.Latest().workspace.value.repo,
                       task.Latest().workspace.value.branch) == Some(i)
      modifies this`task, this`forge
      ensures Site(task, forge) ==
              Cut(base, Site(old(task), old(forge)),
                  PlanRework(base, Site(old(task), old(forge)), c, i), c.writes)
    {
      hide Cut, Perform, BoundRows, Committing, Pushing;
      var run := task.Latest();
      var ws := run.workspace.value;
      var sha := Sha(Site(task, forge), c);
      var found := FindOpen(forge.prs, ws.repo, ws.branch, base);
      if found.None? || !NonBlank(run.revision) || sha.None?
         || forge.prs[found.value].number != task.rows[i].number
      {
        CutNothing(base, Site(task, forge), c.writes);
        return;
      }
      var records := SameCheckout(task, i) && NonBlank(Some(sha.value));
      var number := task.rows[i].number;
      ghost var rest :=
        if records then [StoreRow(number, sha.value)] + Reconciling(Validating) else [];
      var alive, left := PublishBranch(c, sha.value, c.writes, rest);
      if !alive { return; }
      if !records { CutNothing(base, Site(task, forge), left); return; }
      alive, left := Do(StoreRow(number, sha.value), left, Reconciling(Validating));
      if !alive { return; }
      Unmoved(base, number, sha.value);
      Reconcile(left);
    }

    method Create(c: Call)
      requires PublishGuard(task, base) && task.status == Validating
      modifies this`task, this`forge
      ensures Site(task, forge) ==
              Cut(base, Site(old(task), old(forge)),
                  PlanCreate(base, Site(old(task), old(forge)), c), c.writes)
    {
      hide Cut, Perform, BoundRows, Committing, Pushing;
      var run := task.Latest();
      var ws := run.workspace.value;
      var sha := Sha(Site(task, forge), c);
      if !NonBlank(run.revision) || sha.None? {
        CutNothing(base, Site(task, forge), c.writes);
        return;
      }
      var found := FindOpen(forge.prs, ws.repo, ws.branch, base);
      var number := if found.Some? then forge.prs[found.value].number else c.number;
      ghost var rest := [StoreRow(number, sha.value)] + Reconciling(Validating);
      ghost var opening := if found.Some? then rest else [OpenRemote(number)] + rest;
      assert [OpenRemote(number)] + rest
          == [OpenRemote(number), StoreRow(number, sha.value)] + Reconciling(Validating);
      var alive, left := PublishBranch(c, sha.value, c.writes, opening);
      if !alive { return; }
      if found.None? {
        Unmoved(base, number, sha.value);
        alive, left := Do(OpenRemote(number), left, rest);
        if !alive { return; }
      }
      Unmoved(base, number, sha.value);
      alive, left := Do(StoreRow(number, sha.value), left, Reconciling(Validating));
      if !alive { return; }
      Reconcile(left);
    }
  }

  lemma Committed(base: string, s: Site, sha: string)
    requires s.task.runs != [] && s.task.Latest().workspace.Some?
    ensures Perform(base, s, Commit(sha))
            == s.(forge := s.forge.(commits := s.forge.commits[s.task.Latest().id := sha]))
  {
  }

  lemma Pushed(base: string, s: Site, sha: string)
    requires s.task.runs != [] && s.task.Latest().workspace.Some?
    ensures var ws := s.task.Latest().workspace.value;
            Perform(base, s, Push(sha))
            == s.(forge := s.forge.(pushed := s.forge.pushed[(ws.repo, ws.branch) := sha]))
  {
  }

  lemma CutNothing(base: string, s: Site, k: nat)
    ensures Cut(base, s, [], k) == s
  {
  }

  // Opening a pull request or storing a row leaves runs and status alone.
  lemma Unmoved(base: string, number: nat, sha: string)
    ensures forall s: Site ::
              && Perform(base, s, OpenRemote(number)).task == s.task
              && Perform(base, s, StoreRow(number, sha)).task.runs == s.task.runs
              && Perform(base, s, StoreRow(number, sha)).task.status == s.task.status
  {
  }
}
