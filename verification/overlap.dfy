// Publication calls that overlap: every write of a call is decided on a task and a
// provider state that it has read at some earlier moment, and lands on what is there by
// then (src/factory/orchestration/publication.py, persistence/pr_sqlite.py).
module Overlap {
  import opened Lifecycle
  import opened Models
  import opened Protocol
  import opened Publication

  // The task and the forge, with everything that either of them has ever been.
  datatype Scene = Scene(node: Node, forge: Forge, tasks: set<Task>, forges: set<Forge>)

  datatype Move =
    | Write(task: Task, forge: Forge, call: Call)
    | Elsewhere(event: Event)
    | Close(index: nat)

  // The next write of a call that has read `t` and `f`.
  function NextWrite(base: string, t: Task, f: Forge, c: Call): Write
    requires Plan(base, Site(t, f), c) != []
  {
    Plan(base, Site(t, f), c)[0]
  }

  // What a write decided on `t` does to the present site. A run is committed once; the
  // provider refuses a second open pull request for a head and base; a first row needs
  // its run and branch free, and an old row is moved only if it still names the run it
  // was read with; a status moves by compare-and-swap.
  function Landed(base: string, s: Site, t: Task, w: Publication.Write): Site
    requires t.runs != [] && t.Latest().workspace.Some?
  {
    var r, ws := t.Latest(), t.Latest().workspace.value;
    match w
    case Commit(sha) =>
      if r.id in s.forge.commits then s
      else s.(forge := s.forge.(commits := s.forge.commits[r.id := sha]))
    case Push(sha) => s.(forge := s.forge.(pushed := s.forge.pushed[(ws.repo, ws.branch) := sha]))
    case OpenRemote(number) =>
      if FindOpen(s.forge.prs, ws.repo, ws.branch, base).Some? then s
      else s.(forge := s.forge.(prs := s.forge.prs + [ProviderPr(ws.repo, ws.branch, base, number, true)]))
    case StoreRow(number, sha) => s.(task := s.task.(rows := RowsLanded(base, s.task.rows, t, number, sha)))
    case MoveTo(target) => if s.task.status == t.status then s.(task := s.task.MovedTo(target)) else s
  }

  function RowsLanded(base: string, rows: seq<PrRow>, t: Task, number: nat, sha: string): seq<PrRow>
    requires t.runs != [] && t.Latest().workspace.Some?
  {
    var r, ws := t.Latest(), t.Latest().workspace.value;
    if RowFor(rows, r.id).Some? then rows
    else
      match FindRow(t.rows, ws.repo, ws.branch)
      case None =>
        if FindRow(rows, ws.repo, ws.branch).Some? then rows
        else rows + [PrRow(r.id, ws.repo, ws.branch, base, number, sha)]
      case Some(i) =>
        if i < |rows| && rows[i].runId == t.rows[i].runId
        then rows[i := rows[i].(runId := r.id, commit := sha)] else rows
  }

  // A call that finds what it has read performs its planned write.
  lemma FoundLandsAsPlanned(base: string, s: Site, c: Call)
    requires Plan(base, s, c) != []
    ensures Landed(base, s, s.task, Plan(base, s, c)[0]) == Perform(base, s, Plan(base, s, c)[0])
  {
    NextIsJustified(base, s, c);
    hide Plan;
  }

  predicate CanMove(p: Policy, base: string, x: Scene, m: Move) {
    match m
    case Write(t, f, c) => t in x.tasks && f in x.forges && Plan(base, Site(t, f), c) != []
    case Elsewhere(e) => Enabled(p, x.node, e) && !e.BindRow?
    case Close(i) =>
      i < |x.forge.prs| && FindRow(x.node.task.rows, x.forge.prs[i].repo, x.forge.prs[i].head).Some?
  }

  function Noted(x: Scene, node: Node, forge: Forge): Scene {
    Scene(node, forge, x.tasks + {node.task}, x.forges + {forge})
  }

  lemma PlannedRun(base: string, s: Site, c: Call)
    requires Plan(base, s, c) != []
    ensures PublishGuard(s.task, base)
  {
  }

  function Moved(base: string, x: Scene, m: Move): Scene {
    match m
    case Write(t, f, c) =>
      if Plan(base, Site(t, f), c) == [] then x
      else
        PlannedRun(base, Site(t, f), c);
        var s := Landed(base, Site(x.node.task, x.forge), t, NextWrite(base, t, f, c));
        Noted(x, x.node.(task := s.task), s.forge)
    case Elsewhere(e) => Noted(x, Next(x.node, e), x.forge)
    case Close(i) =>
      if i < |x.forge.prs|
      then Noted(x, x.node, x.forge.(prs := x.forge.prs[i := x.forge.prs[i].(open := false)]))
      else x
  }

  predicate LawfulMoves(p: Policy, base: string, x: Scene, moves: seq<Move>)
    decreases |moves|
  {
    moves == []
    || (CanMove(p, base, x, moves[0]) && LawfulMoves(p, base, Moved(base, x, moves[0]), moves[1..]))
  }

  function AllMoved(base: string, x: Scene, moves: seq<Move>): Scene
    decreases |moves|
  {
    if moves == [] then x else AllMoved(base, Moved(base, x, moves[0]), moves[1..])
  }

  // -- what was read stays recognisable ---------------------------------------------

  // Rows keep their place, number and branches.
  predicate RowsKept(before: seq<PrRow>, later: seq<PrRow>) {
    |before| <= |later|
    && forall i :: 0 <= i < |before| ==>
         && later[i].repo == before[i].repo && later[i].head == before[i].head
         && later[i].base == before[i].base && later[i].number == before[i].number
  }

  ghost predicate Remembered(x: Scene) {
    && x.node.task in x.tasks && x.forge in x.forges
    && (forall t :: t in x.tasks ==> RowsKept(t.rows, x.node.task.rows))
    && (forall f :: f in x.forges ==> ForgeGrows(f, x.forge))
  }

  lemma BoundRowsKept(base: string, rows: seq<PrRow>, t: Task, number: nat, sha: string)
    requires t.runs != [] && t.Latest().workspace.Some?
    ensures RowsKept(rows, RowsLanded(base, rows, t, number, sha))
  {
  }

  lemma LandedKeeps(base: string, s: Site, t: Task, w: Publication.Write)
    requires t.runs != [] && t.Latest().workspace.Some?
    ensures RowsKept(s.task.rows, Landed(base, s, t, w).task.rows)
    ensures ForgeGrows(s.forge, Landed(base, s, t, w).forge)
  {
    if w.StoreRow? { BoundRowsKept(base, s.task.rows, t, w.number, w.sha); }
    hide RowsLanded, FindOpen;
  }

  lemma MoveKeeps(p: Policy, base: string, x: Scene, m: Move)
    requires CanMove(p, base, x, m)
    ensures RowsKept(x.node.task.rows, Moved(base, x, m).node.task.rows)
    ensures ForgeGrows(x.forge, Moved(base, x, m).forge)
  {
    match m
    case Write(t, f, c) =>
      PlannedRun(base, Site(t, f), c);
      LandedKeeps(base, Site(x.node.task, x.forge), t, NextWrite(base, t, f, c));
      hide Plan, Landed, RowsKept, ForgeGrows;
    case Elsewhere(e) =>
      RowsAfterStep(p, x.node, e);
      hide Enabled, Next;
    case Close(_) =>
  }

  lemma NotedRemembers(x: Scene, node: Node, forge: Forge)
    requires Remembered(x) && RowsKept(x.node.task.rows, node.task.rows) && ForgeGrows(x.forge, forge)
    ensures Remembered(Noted(x, node, forge))
  {
    ForgeSame(forge);
    forall f | f in x.forges
      ensures ForgeGrows(f, forge)
    {
      ForgeChain(f, x.forge, forge);
    }
    hide ForgeGrows;
  }

  lemma MoveRemembers(p: Policy, base: string, x: Scene, m: Move)
    requires CanMove(p, base, x, m) && Remembered(x)
    ensures Remembered(Moved(base, x, m))
  {
    MoveKeeps(p, base, x, m);
    var later := Moved(base, x, m);
    NotedRemembers(x, later.node, later.forge);
    assert later == x || later == Noted(x, later.node, later.forge) by {
      hide Plan, Landed, Next, Remembered, ForgeGrows;
    }
    hide Moved, CanMove, ForgeGrows, RowsKept;
  }

  // -- one pull request per branch ------------------------------------------------------

  // A call that looked while its branch had no pull request opens one after the
  // branch's pull request has been opened and closed.
  predicate Reopens(base: string, x: Scene, m: Move) {
    m.Write? && Plan(base, Site(m.task, m.forge), m.call) != []
    && NextWrite(base, m.task, m.forge, m.call).OpenRemote?
    && m.task.runs != [] && m.task.Latest().workspace.Some?
    && var ws := m.task.Latest().workspace.value;
       && FindOpen(x.forge.prs, ws.repo, ws.branch, base).None?
       && exists q :: q in x.forge.prs && q.repo == ws.repo && q.head == ws.branch && q.base == base
  }

  ghost predicate OnePerBranchHere(x: Scene) { OnePerBranch(x.node.task.rows, x.forge.prs) }

  lemma MoveKeepsOnePerBranch(p: Policy, base: string, x: Scene, m: Move)
    requires CanMove(p, base, x, m) && Remembered(x) && OnePerBranchHere(x)
    ensures OnePerBranchHere(Moved(base, x, m)) <==> !Reopens(base, x, m)
  {
    match m
    case Write(t, f, c) =>
      NextIsJustified(base, Site(t, f), c);
      assert Reopens(base, x, m) ==> NextWrite(base, t, f, c).OpenRemote?;
      hide Plan;
      WriteLands(base, x, t, f, c);
    case Elsewhere(e) =>
      RowsAfterStep(p, x.node, e);
      hide Enabled, Next, OnePerBranch;
    case Close(i) => ClosingKeepsOnePerBranch(x.node.task.rows, x.forge.prs, i);
  }

  lemma WriteLands(base: string, x: Scene, t: Task, f: Forge, c: Call)
    requires t in x.tasks && f in x.forges && Plan(base, Site(t, f), c) != []
    requires Justified(base, Site(t, f), NextWrite(base, t, f, c))
    requires Remembered(x) && OnePerBranchHere(x)
    ensures
      var later := Landed(base, Site(x.node.task, x.forge), t, NextWrite(base, t, f, c));
      OnePerBranch(later.task.rows, later.forge.prs) <==> !Reopens(base, x, Write(t, f, c))
  {
    var s, w := Site(x.node.task, x.forge), NextWrite(base, t, f, c);
    hide Plan;
    match w
    case OpenRemote(number) => OpeningLands(base, x, t, f, c, number);
    case StoreRow(number, sha) => StoringLands(base, x, t, f, number, sha);
    case _ =>
  }

  lemma OpeningLands(base: string, x: Scene, t: Task, f: Forge, c: Call, number: nat)
    requires Plan(base, Site(t, f), c) != [] && NextWrite(base, t, f, c) == OpenRemote(number)
    requires PublishGuard(t, base) && OnePerBranchHere(x)
    ensures
      var later := Landed(base, Site(x.node.task, x.forge), t, OpenRemote(number));
      OnePerBranch(later.task.rows, later.forge.prs) <==> !Reopens(base, x, Write(t, f, c))
  {
    hide Plan, FindRow;
    var ws, prs := t.Latest().workspace.value, x.forge.prs;
    var q := ProviderPr(ws.repo, ws.branch, base, number, true);
    if FindOpen(prs, ws.repo, ws.branch, base).None? {
      if Reopens(base, x, Write(t, f, c)) {
        var r :| r in prs && r.repo == ws.repo && r.head == ws.branch && r.base == base;
        var i :| 0 <= i < |prs| && prs[i] == r;
        assert SameKey((prs + [q])[i], (prs + [q])[|prs|]);
      } else {
        NewKeyKeeps(x.node.task.rows, prs, q);
      }
    }
  }

  lemma NewKeyKeeps(rows: seq<PrRow>, prs: seq<ProviderPr>, q: ProviderPr)
    requires OnePerBranch(rows, prs) && q.open
    requires forall r :: r in prs ==> !(r.repo == q.repo && r.head == q.head && r.base == q.base)
    ensures OnePerBranch(rows, prs + [q])
  {
    hide FindRow;
    forall i | 0 <= i < |prs|
      ensures !SameKey(prs[i], q)
    {
      assert prs[i] in prs;
    }
    forall row | row in rows
      ensures exists i :: 0 <= i < |prs + [q]| && NamedBy((prs + [q])[i], row)
    {
      var i :| 0 <= i < |prs| && NamedBy(prs[i], row);
      assert NamedBy((prs + [q])[i], row);
    }
  }

  lemma StoringLands(base: string, x: Scene, t: Task, f: Forge, number: nat, sha: string)
    requires t in x.tasks && f in x.forges && Remembered(x) && OnePerBranchHere(x)
    requires Justified(base, Site(t, f), StoreRow(number, sha))
    ensures OnePerBranch(RowsLanded(base, x.node.task.rows, t, number, sha), x.forge.prs)
  {
    var rows, prs, ws := x.node.task.rows, x.forge.prs, t.Latest().workspace.value;
    var later := RowsLanded(base, rows, t, number, sha);
    var j := FindOpen(f.prs, ws.repo, ws.branch, base).value;
    BoundRowsKept(base, rows, t, number, sha);
    assert RowsKept(t.rows, rows) && ForgeGrows(f, x.forge);
    assert |later| <= |rows| + 1;
    assert |later| > |rows| ==> NamedBy(prs[j], later[|rows|]);
    hide RowsLanded, Remembered, ForgeGrows, Justified, FindOpen;
    KeptRowsNamed(rows, later, prs, j);
  }

  // Rows that keep their identity stay named; a new one is named by one of the pull
  // requests.
  lemma KeptRowsNamed(rows: seq<PrRow>, later: seq<PrRow>, prs: seq<ProviderPr>, j: nat)
    requires OnePerBranch(rows, prs) && RowsKept(rows, later) && |later| <= |rows| + 1 && j < |prs|
    requires |later| > |rows| ==> NamedBy(prs[j], later[|rows|])
    ensures OnePerBranch(later, prs)
  {
    forall q | q in later
      ensures exists i :: 0 <= i < |prs| && NamedBy(prs[i], q)
    {
      var k :| 0 <= k < |later| && later[k] == q;
      if k < |rows| {
        assert rows[k] in rows;
        var i :| 0 <= i < |prs| && NamedBy(prs[i], rows[k]);
        assert NamedBy(prs[i], q);
      }
    }
    forall i | 0 <= i < |prs| && !prs[i].open
      ensures FindRow(later, prs[i].repo, prs[i].head).Some?
    {
      var at := FindRow(rows, prs[i].repo, prs[i].head).value;
      assert later[at] in later && later[at].repo == rows[at].repo && later[at].head == rows[at].head;
    }
  }

  ghost predicate StaysOnePerBranch(base: string, x: Scene, moves: seq<Move>)
    decreases |moves|
  {
    moves == []
    || (OnePerBranchHere(Moved(base, x, moves[0])) && StaysOnePerBranch(base, Moved(base, x, moves[0]), moves[1..]))
  }

  predicate Reopened(base: string, x: Scene, moves: seq<Move>)
    decreases |moves|
  {
    moves != [] && (Reopens(base, x, moves[0]) || Reopened(base, Moved(base, x, moves[0]), moves[1..]))
  }

  // Over any calls that overlap between any of their writes, with reads as old as they
  // may be, mixed with any other steps of the task: at every state at most one pull
  // request was ever opened per repository, head and base, and every row names one,
  // exactly as long as no call opens a pull request for a branch whose own has been
  // opened and closed since the call has looked.
  lemma {:induction false} OverlapExactly(p: Policy, base: string, x: Scene, moves: seq<Move>)
    requires LawfulMoves(p, base, x, moves) && Remembered(x) && OnePerBranchHere(x)
    ensures StaysOnePerBranch(base, x, moves) <==> !Reopened(base, x, moves)
    ensures StaysOnePerBranch(base, x, moves) ==> OnePerBranchHere(AllMoved(base, x, moves))
    decreases |moves|
  {
    hide CanMove, Moved, Remembered, OnePerBranchHere, Reopens;
    if moves != [] {
      MoveKeepsOnePerBranch(p, base, x, moves[0]);
      MoveRemembers(p, base, x, moves[0]);
      if !Reopens(base, x, moves[0]) { OverlapExactly(p, base, Moved(base, x, moves[0]), moves[1..]); }
    }
  }

  // -- whatever the calls have read ------------------------------------------------------

  // No two rows share a run or a branch.
  ghost predicate DistinctRows(rows: seq<PrRow>) {
    forall i, j :: 0 <= i < j < |rows| ==>
      rows[i].runId != rows[j].runId && !(rows[i].repo == rows[j].repo && rows[i].head == rows[j].head)
  }

  lemma LandedRowsDistinct(base: string, rows: seq<PrRow>, t: Task, number: nat, sha: string)
    requires t.runs != [] && t.Latest().workspace.Some? && DistinctRows(rows)
    ensures DistinctRows(RowsLanded(base, rows, t, number, sha))
  {
    assert forall i :: 0 <= i < |rows| ==> rows[i] in rows;
  }

  lemma MoveKeepsDistinct(p: Policy, base: string, x: Scene, m: Move)
    requires CanMove(p, base, x, m) && DistinctRows(x.node.task.rows)
    ensures DistinctRows(Moved(base, x, m).node.task.rows)
  {
    match m
    case Write(t, f, c) =>
      PlannedRun(base, Site(t, f), c);
      var w := NextWrite(base, t, f, c);
      if w.StoreRow? { LandedRowsDistinct(base, x.node.task.rows, t, w.number, w.sha); }
      hide Plan, RowsLanded, FindOpen, DistinctRows;
    case Elsewhere(e) =>
      RowsAfterStep(p, x.node, e);
      hide Enabled, Next, DistinctRows;
    case Close(_) =>
  }

  // Over any such calls: no two rows share a run or a branch, rows keep number and
  // branches, runs are committed once, and pull requests keep place and number.
  lemma {:induction false} OverlapKeepsRecords(p: Policy, base: string, x: Scene, moves: seq<Move>)
    requires LawfulMoves(p, base, x, moves) && DistinctRows(x.node.task.rows)
    ensures DistinctRows(AllMoved(base, x, moves).node.task.rows)
    ensures RowsKept(x.node.task.rows, AllMoved(base, x, moves).node.task.rows)
    ensures ForgeGrows(x.forge, AllMoved(base, x, moves).forge)
    decreases |moves|
  {
    if moves == [] {
      ForgeSame(x.forge);
    } else {
      MoveKeeps(p, base, x, moves[0]);
      MoveKeepsDistinct(p, base, x, moves[0]);
      var mid := Moved(base, x, moves[0]);
      hide CanMove, Moved, ForgeGrows, DistinctRows;
      OverlapKeepsRecords(p, base, mid, moves[1..]);
      ForgeChain(x.forge, mid.forge, AllMoved(base, x, moves).forge);
    }
  }

  // -- a late call -------------------------------------------------------------------------

  // A validated run that is committed and pushed, on a branch without any pull request.
  predicate ReadyToOpen(base: string, t: Task, f: Forge) {
    && t.status == Validating && t.rows == [] && f.prs == []
    && PublishGuard(t, base) && NonBlank(t.Latest().revision)
    && t.Latest().id in f.commits
    && var ws := t.Latest().workspace.value;
       (ws.repo, ws.branch) in f.pushed && f.pushed[(ws.repo, ws.branch)] == f.commits[t.Latest().id]
  }

  function Opened(base: string, t: Task, number: nat): ProviderPr
    requires t.runs != [] && t.Latest().workspace.Some?
  {
    ProviderPr(t.Latest().workspace.value.repo, t.Latest().workspace.value.branch, base, number, true)
  }

  lemma OpeningPlans(base: string, t: Task, f: Forge, c: Call)
    requires ReadyToOpen(base, t, f) && c.reviewPasses && !c.foreignBranch
    ensures
      var pr := Opened(base, t, c.number);
      var g := f.(prs := [pr]);
      && Plan(base, Site(t, f), c) != [] && NextWrite(base, t, f, c) == OpenRemote(c.number)
      && Plan(base, Site(t, g), c) != []
      && NextWrite(base, t, g, c) == StoreRow(c.number, f.commits[t.Latest().id])
  {
    var pr := Opened(base, t, c.number);
    OpenedIsFound([], pr, pr.repo, pr.head, base);
    assert [] + [pr] == [pr];
  }

  // Two calls look while the branch has no pull request. The first opens one and stores
  // its row, the pull request is closed, and the second opens another.
  lemma LateCallReopens(p: Policy, base: string, t: Task, f: Forge, c: Call, d: Call)
    requires ReadyToOpen(base, t, f)
    requires c.reviewPasses && !c.foreignBranch && d.reviewPasses && !d.foreignBranch
    ensures
      var x := Scene(Node(t, 0, 0), f, {t}, {f});
      var g := f.(prs := [Opened(base, t, c.number)]);
      var moves := [Write(t, f, c), Write(t, g, c), Close(0), Write(t, f, d)];
      && LawfulMoves(p, base, x, moves)
      && AllMoved(base, x, moves).forge.prs
         == [Opened(base, t, c.number).(open := false), Opened(base, t, d.number)]
  {
    var pr, later := Opened(base, t, c.number), Opened(base, t, d.number);
    var sha, r := f.commits[t.Latest().id], t.Latest();
    var g, h := f.(prs := [pr]), f.(prs := [pr.(open := false)]);
    var u := t.(rows := [PrRow(r.id, pr.repo, pr.head, base, c.number, sha)]);
    var x := Scene(Node(t, 0, 0), f, {t}, {f});
    var x1 := Noted(x, Node(t, 0, 0), g);
    var x2 := Noted(x1, Node(u, 0, 0), g);
    var x3 := Noted(x2, Node(u, 0, 0), h);
    var x4 := Noted(x3, Node(u, 0, 0), h.(prs := h.prs + [later]));
    OpeningPlans(base, t, f, c);
    OpeningPlans(base, t, f, d);
    hide Plan, PublishGuard, NonBlank, NextWrite;
    assert f.prs + [pr] == [pr] && g.prs[0 := pr.(open := false)] == h.prs;
    assert t.rows + [u.rows[0]] == u.rows;
    assert Moved(base, x, Write(t, f, c)) == x1;
    assert Moved(base, x1, Write(t, g, c)) == x2;
    assert CanMove(p, base, x2, Close(0)) && Moved(base, x2, Close(0)) == x3;
    assert Moved(base, x3, Write(t, f, d)) == x4;
    assert CanMove(p, base, x, Write(t, f, c)) && CanMove(p, base, x1, Write(t, g, c));
    assert CanMove(p, base, x3, Write(t, f, d));
    hide CanMove, Moved;
    FourMoves(p, base, x, Write(t, f, c), Write(t, g, c), Close(0), Write(t, f, d));
  }

  lemma FourMoves(p: Policy, base: string, x: Scene, a: Move, b: Move, c: Move, d: Move)
    requires CanMove(p, base, x, a) && CanMove(p, base, Moved(base, x, a), b)
    requires CanMove(p, base, Moved(base, Moved(base, x, a), b), c)
    requires CanMove(p, base, Moved(base, Moved(base, Moved(base, x, a), b), c), d)
    ensures LawfulMoves(p, base, x, [a, b, c, d])
    ensures AllMoved(base, x, [a, b, c, d])
            == Moved(base, Moved(base, Moved(base, Moved(base, x, a), b), c), d)
  {
    hide CanMove, Moved;
    var x1 := Moved(base, x, a);
    var x2 := Moved(base, x1, b);
    var x3 := Moved(base, x2, c);
    assert [a, b, c, d][1..] == [b, c, d] && [b, c, d][1..] == [c, d];
    assert [c, d][1..] == [d] && [d][1..] == [];
    assert LawfulMoves(p, base, x3, [d]) && AllMoved(base, x3, [d]) == Moved(base, x3, d);
    assert LawfulMoves(p, base, x2, [c, d]) && AllMoved(base, x2, [c, d]) == AllMoved(base, x3, [d]);
    assert LawfulMoves(p, base, x1, [b, c, d]) && AllMoved(base, x1, [b, c, d]) == AllMoved(base, x2, [c, d]);
  }
}
