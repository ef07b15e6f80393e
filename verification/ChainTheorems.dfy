/** What the list guarantees in every run. */
module ChainTheorems {
  import opened Base
  import opened Chain
  import opened ChainOrder
  import opened ChainSafety
  import opened ChainSteps
  import opened ChainInv

  lemma {:induction false} RunInv(states: seq<State>, actions: seq<Action>, n: nat)
    requires Run(states, actions) && n < |states|
    ensures Inv(states[n])
  {
    hide Inv, Can, Do;
    if n == 0 {
      InvInitial();
    } else {
      RunInv(states, actions, n - 1);
      InvDo(states[n - 1], actions[n - 1]);
    }
  }

  // ---------------------------------------------------------------- no lost entry

  /** Each cell on the path is linked to the next. */
  ghost predicate Path(cells: Cells, path: seq<Id>) {
    && path != [] && (forall i :: 0 <= i < |path| ==> path[i] in cells)
    && forall i :: 0 <= i < |path| - 1 ==> cells[path[i]].link.to == Some(path[i + 1])
  }

  /** The entry follows the cell in the same list. */
  ghost predicate Follows(cells: Cells, c: Id, x: Id) {
    c in cells && x in cells && cells[c].rank < cells[x].rank && Open(cells, cells[c].rank, cells[x].rank)
  }

  /** The link of a cell in front of an entry that is not deleted leads to the entry, or to a cell in
      front of it. */
  lemma LinkTowards(cells: Cells, c: Id, x: Id) returns (m: Id)
    requires CellsOk(cells) && Follows(cells, c, x) && !Deleted(cells, x)
    ensures cells[c].link.to == Some(m) && m in cells && cells[c].rank < cells[m].rank
    ensures m == x || Follows(cells, m, x)
  {
    LinkOf(cells, c);
    var to := cells[c].link.to;
    assert to.Some? && cells[to.value].rank == cells[x].rank ==> to.value == x;
    assert to.Some?;
    m := to.value;
    OpenPart(cells, cells[c].rank, cells[m].rank, cells[x].rank);
    hide Distinct, Rooted, CellsOk;
  }

  lemma OpenPart(cells: Cells, a: real, b: real, c: real)
    requires Open(cells, a, c) && a < b
    ensures Open(cells, b, c)
  {}

  lemma Ascends(cells: Cells, c: Id, m: Id, rest: seq<Id>)
    requires Path(cells, rest) && rest[0] == m && c in cells && cells[c].link.to == Some(m)
    requires cells[c].rank < cells[m].rank
    requires forall i, j :: 0 <= i < j < |rest| ==> RankLess(cells, rest[i], rest[j])
    ensures Path(cells, [c] + rest)
    ensures forall i, j :: 0 <= i < j < |[c] + rest| ==> RankLess(cells, ([c] + rest)[i], ([c] + rest)[j])
  {
    var path := [c] + rest;
    assert forall i :: 1 <= i < |path| ==> path[i] == rest[i - 1];
    forall i, j | 0 <= i < j < |path|
      ensures RankLess(cells, path[i], path[j])
    {
      if i > 0 {
        assert RankLess(cells, rest[i - 1], rest[j - 1]);
      } else if j > 1 {
        assert RankLess(cells, rest[0], rest[j - 1]);
      }
    }
    forall i | 0 <= i < |path| - 1
      ensures cells[path[i]].link.to == Some(path[i + 1])
    {
      if i > 0 { assert cells[rest[i - 1]].link.to == Some(rest[i - 1 + 1]); }
    }
  }

  /** No lost entry: in every reachable state, an entry that is not deleted can be reached along the
      links from every cell in front of it in its list, by cells that only ever go forward in the
      order of the list. */
  lemma {:induction false} NoLostEntry(cells: Cells, c: Id, x: Id) returns (path: seq<Id>)
    requires CellsOk(cells) && Follows(cells, c, x) && !Deleted(cells, x)
    ensures Path(cells, path) && path[0] == c && path[|path| - 1] == x && |path| >= 2
    ensures forall i, j :: 0 <= i < j < |path| ==> RankLess(cells, path[i], path[j])
    decreases |Between(cells, c, x)|
  {
    hide *;
    var m := LinkTowards(cells, c, x);
    FollowsIs(cells, c, x);
    if m == x {
      path := [c, x];
      TwoCells(cells, c, x);
    } else {
      FollowsIs(cells, m, x);
      Closer(cells, c, m, x);
      var rest := NoLostEntry(cells, m, x);
      path := [c] + rest;
      Ascends(cells, c, m, rest);
    }
  }

  lemma FollowsIs(cells: Cells, c: Id, x: Id)
    requires Follows(cells, c, x)
    ensures c in cells && x in cells && cells[c].rank < cells[x].rank
  {}

  lemma TwoCells(cells: Cells, c: Id, x: Id)
    requires c in cells && x in cells && cells[c].link.to == Some(x) && cells[c].rank < cells[x].rank
    ensures Path(cells, [c, x]) && forall i, j :: 0 <= i < j < |[c, x]| ==> RankLess(cells, [c, x][i], [c, x][j])
  {}

  function Between(cells: Cells, c: Id, x: Id): set<Id> {
    set y | y in cells && c in cells && x in cells && cells[c].rank < cells[y].rank < cells[x].rank
  }

  lemma Closer(cells: Cells, c: Id, m: Id, x: Id)
    requires c in cells && m in cells && x in cells && cells[c].rank < cells[m].rank < cells[x].rank
    ensures |Between(cells, m, x)| < |Between(cells, c, x)|
  {
    assert m in Between(cells, c, x) && m !in Between(cells, m, x);
    Smaller(Between(cells, m, x), Between(cells, c, x));
  }

  /** In every run. */
  lemma NeverLost(states: seq<State>, actions: seq<Action>, n: nat, r: Id, x: Id) returns (path: seq<Id>)
    requires Run(states, actions) && n < |states| && Follows(states[n].cells, r, x) && !Deleted(states[n].cells, x)
    ensures Path(states[n].cells, path) && path[0] == r && path[|path| - 1] == x
    ensures forall i, j :: 0 <= i < j < |path| ==> RankLess(states[n].cells, path[i], path[j])
  {
    RunInv(states, actions, n);
    hide Run, DeadOk, OpsOk, OrderOk, CellsOk, Follows, Deleted;
    path := NoLostEntry(states[n].cells, r, x);
  }

  /** The abstract list consists of exactly the roots and the entries that are not deleted, in the order
      in which the links visit them. */
  lemma AbstractList(states: seq<State>, actions: seq<Action>, n: nat, x: Id)
    requires Run(states, actions) && n < |states|
    ensures var s := states[n];
      && (x in s.order <==> x in s.cells && !Deleted(s.cells, x))
      && forall i, j :: 0 <= i < j < |s.order| ==> RankLess(s.cells, s.order[i], s.order[j])
  {
    RunInv(states, actions, n);
    hide Run, DeadOk, OpsOk, CellsOk, Deleted;
  }

  // ---------------------------------------------------------------- what a step may change

  /** What may happen to a cell that stays: it keeps its place, and deletion is final. */
  ghost predicate Persists(c: Cells, d: Cells, x: Id) {
    x in c && x in d ==> d[x].rank == c[x].rank && d[x].root == c[x].root && (Deleted(c, x) ==> Deleted(d, x))
  }

  lemma WalkCells(cells: Cells, dead: set<Id>, goal: Goal, rest: seq<Frame>, top: Frame, x: Id)
    requires OpOk(cells, dead, Walk(goal, rest + [top])) && top.head in cells
    requires top.stage.Looking? && top.stage.next.to.Some? ==> top.stage.next.to.value in cells
    ensures var d := WalkOn(cells, dead, goal, rest, top).cells;
      Persists(cells, d, x) && d.Keys == cells.Keys && (x in cells ==> d[x].link.tag == cells[x].link.tag)
  {
    hide OpOk, WalkOn;
    WalkRelinks(cells, dead, goal, rest, top);
    var d := WalkOn(cells, dead, goal, rest, top).cells;
    if d != cells { RelinkEvolves(cells, d, top.head, Ptr(top.stage.valid.to, top.seen.tag)); }
    hide Span, Entry, Relinks, Evolves;
  }

  lemma WalkPersists(s: State, k: nat, x: Id)
    requires Inv(s) && Can(s, WalkStep(k))
    ensures var t := Do(s, WalkStep(k));
      && Persists(s.cells, t.cells, x) && t.cells.Keys == s.cells.Keys && t.order == s.order
      && (x in s.cells ==> t.cells[x].link.tag == s.cells[x].link.tag)
  {
    var frames := s.ops[k].frames;
    TopSplit(frames);
    hide Inv, OpOk, WalkOn, Persists;
    OpIn(s, k);
    WalkCells(s.cells, s.dead, s.ops[k].goal, frames[..|frames| - 1], frames[|frames| - 1], x);
  }

  lemma OthersPersist(s: State, a: Action, x: Id)
    requires Can(s, a) && !a.WalkStep? && (a.TryInsert? ==> s.ops[a.k].seen.tag != Second)
    ensures Persists(s.cells, Do(s, a).cells, x)
  {
    hide Behind, Last, AddBehind, Remove, Held, Refs;
  }

  lemma TagsOf(s: State, k: nat)
    requires Inv(s) && k < |s.ops| && s.ops[k].InsertTry?
    ensures s.ops[k].seen.tag != Second && s.ops[k].tag != Second
  {
    OpIn(s, k);
    hide Inv;
  }

  lemma StepPersists(s: State, a: Action, x: Id)
    requires Inv(s) && Can(s, a)
    ensures Persists(s.cells, Do(s, a).cells, x)
  {
    hide Inv, Persists, Do;
    if a.WalkStep? {
      WalkPersists(s, a.k, x);
    } else {
      if a.TryInsert? { TagsOf(s, a.k); }
      OthersPersist(s, a, x);
    }
  }

  /** An entry keeps its place for as long as it exists, and once deleted stays deleted. */
  lemma {:induction false} DeletionIsFinal(states: seq<State>, actions: seq<Action>, m: nat, n: nat, x: Id)
    requires Run(states, actions) && m <= n < |states| && forall i :: m <= i <= n ==> x in states[i].cells
    ensures states[n].cells[x].rank == states[m].cells[x].rank && states[n].cells[x].root == states[m].cells[x].root
    ensures Deleted(states[m].cells, x) ==> Deleted(states[n].cells, x)
  {
    hide Inv, Can, Do, Deleted;
    if m < n {
      DeletionIsFinal(states, actions, m, n - 1, x);
      RunInv(states, actions, n - 1);
      StepPersists(states[n - 1], actions[n - 1], x);
    }
  }

  /** Does this action delete entry `x`? */
  ghost predicate Deletes(s: State, a: Action, x: Id)
    requires Can(s, a)
  {
    x in s.cells && !Deleted(s.cells, x) && Deleted(Do(s, a).cells, x)
  }

  /** An entry is deleted at most once: whoever tries again is told so. */
  lemma DeletedOnce(states: seq<State>, actions: seq<Action>, m: nat, n: nat, x: Id)
    requires Run(states, actions) && m < n < |actions| && forall i :: m <= i <= n ==> x in states[i].cells
    requires Can(states[m], actions[m]) && Can(states[n], actions[n])
    ensures Deletes(states[m], actions[m], x) ==> !Deletes(states[n], actions[n], x)
  {
    DeletionIsFinal(states, actions, m + 1, n, x);
    assert states[m + 1] == Do(states[m], actions[m]);
    hide Can, Do, Deleted;
  }

  /** Only `delete_self` deletes; it takes exactly one entry out of the abstract list.  Traversals and
      clean-ups never change the abstract list, nor any tag but those of roots, which have none. */
  lemma OnlyDeleteDeletes(s: State, a: Action, x: Id)
    requires Inv(s) && Can(s, a) && Deletes(s, a, x)
    ensures (a == Delete(x) || (a.PopDelete? && s.ops[a.k].entry == x)) && Do(s, a).order == Remove(s.order, x)
  {
    if a.WalkStep? {
      WalkPersists(s, a.k, x);
      hide Do, Inv;
    } else {
      hide Inv, Do, Deletes;
      if a.TryInsert? { TagsOf(s, a.k); }
      DeletesBy(s, a, x);
    }
  }

  lemma DeletesBy(s: State, a: Action, x: Id)
    requires Can(s, a) && Deletes(s, a, x) && !a.WalkStep? && (a.TryInsert? ==> s.ops[a.k].tag != Second)
    ensures (a == Delete(x) || (a.PopDelete? && s.ops[a.k].entry == x)) && Do(s, a).order == Remove(s.order, x)
  {
    hide Behind, Last, AddBehind, Remove, Held, Refs;
  }

  /** Unlinking keeps the mark of the head. */
  lemma MarkIsKept(states: seq<State>, actions: seq<Action>, n: nat, x: Id)
    requires Run(states, actions) && n < |actions| && actions[n].WalkStep? && x in states[n].cells
    ensures x in states[n + 1].cells && states[n + 1].cells[x].link.tag == states[n].cells[x].link.tag
    ensures states[n + 1].order == states[n].order
  {
    RunInv(states, actions, n);
    hide Inv, Can, Do;
    WalkPersists(states[n], actions[n].k, x);
  }

  // ---------------------------------------------------------------- insertion

  /** An insertion takes effect directly behind its head: whatever entry it saw there is its successor,
      also if no handle to that entry could be had any more, for then it does not take effect. */
  lemma InsertionIsBehind(states: seq<State>, actions: seq<Action>, n: nat)
    requires Run(states, actions) && n < |actions| && actions[n].TryInsert?
    ensures var s, t, q := states[n], states[n + 1], actions[n].q; var op := s.ops[actions[n].k];
      && op.head in s.cells
      && (q in t.cells <==> s.cells[op.head].link == op.seen && !actions[n].flaky)
      && (q in t.cells ==>
            t.cells[op.head].link == Ptr(Some(q), op.tag) && t.cells[q].link == Ptr(s.cells[op.head].link.to, Plain)
            && t.order == AddBehind(s.order, op.head, q) && op.head in s.order)
  {
    RunInv(states, actions, n);
    assert Can(states[n], actions[n]) && states[n + 1] == Do(states[n], actions[n]);
    hide Run, Inv;
    InsertsBehind(states[n], actions[n].k, actions[n].q, actions[n].rank, actions[n].flaky);
  }

  lemma InsertsBehind(s: State, k: nat, q: Id, rank: real, flaky: bool)
    requires Inv(s) && Can(s, TryInsert(k, q, rank, flaky))
    ensures var t := Do(s, TryInsert(k, q, rank, flaky)); var op := s.ops[k];
      && op.head in s.cells
      && (q in t.cells <==> s.cells[op.head].link == op.seen && !flaky)
      && (q in t.cells ==>
            t.cells[op.head].link == Ptr(Some(q), op.tag) && t.cells[q].link == Ptr(s.cells[op.head].link.to, Plain)
            && t.order == AddBehind(s.order, op.head, q) && op.head in s.order)
  {
    if s.cells[s.ops[k].head].link == s.ops[k].seen {
      InsertLinks(s, k);
      InOrder(s, s.ops[k].head);
    }
    hide Inv, AddBehind;
  }

  /** An insertion behind a cell without successor comes last in its list: everything that follows in
      the abstract list belongs to another root. */
  lemma NullIsLast(s: State, c: Id, x: Id)
    requires Inv(s) && c in s.cells && s.cells[c].link.to == None && Follows(s.cells, c, x)
    ensures Deleted(s.cells, x)
  {
    LinkOf(s.cells, c);
    hide CellsOk, DeadOk, OpsOk, OrderOk;
  }

  /** What a root is linked to comes first in its list. */
  lemma RootIsFirst(s: State, r: Id, e: Id, x: Id)
    requires Inv(s) && r in s.cells && s.cells[r].link.to == Some(e) && e in s.cells && Follows(s.cells, r, x)
    requires s.cells[x].rank < s.cells[e].rank
    ensures Deleted(s.cells, x)
  {
    LinkOf(s.cells, r);
    hide CellsOk, DeadOk, OpsOk, OrderOk;
  }
}
