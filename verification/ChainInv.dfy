/** The invariant of the list machine, kept by every action. */
module ChainInv {
  import opened Base
  import opened Chain
  import opened ChainOrder
  import opened ChainSafety
  import opened ChainSteps

  /** An entry without a strong reference is deleted, and nothing links to it. */
  ghost predicate DeadOk(cells: Cells, dead: set<Id>) {
    forall x :: x in dead ==> Deleted(cells, x) && forall c :: c in cells ==> cells[c].link.to != Some(x)
  }

  /** The abstract list: the cells that are not deleted, by rank. */
  ghost predicate OrderOk(cells: Cells, order: seq<Id>) {
    && (forall x :: x in order <==> x in cells && !Deleted(cells, x))
    && (forall i, j :: 0 <= i < j < |order| ==> RankLess(cells, order[i], order[j]))
  }

  predicate RankLess(cells: Cells, x: Id, y: Id) { x in cells && y in cells && cells[x].rank < cells[y].rank }

  ghost predicate OpsOk(s: State) { forall k :: 0 <= k < |s.ops| ==> OpOk(s.cells, s.dead, s.ops[k]) }

  ghost predicate Inv(s: State) {
    CellsOk(s.cells) && DeadOk(s.cells, s.dead) && OpsOk(s) && OrderOk(s.cells, s.order)
  }

  // ---------------------------------------------------------------- operations

  /** What an operation refers to is there. */
  lemma OpHas(cells: Cells, dead: set<Id>, op: Op)
    requires OpOk(cells, dead, op)
    ensures Has(cells, Refs(op))
  {
    match op
    case Walk(goal, frames) =>
      forall x | x in Refs(op)
        ensures x in cells
      {
        if x !in GoalRefs(goal) {
          var f :| f in frames && x in FrameRefs(f);
          var i :| 0 <= i < |frames| && frames[i] == f;
          assert FrameAt(cells, goal, frames, i);
          FrameHas(cells, f);
        }
      }
    case _ => hide Span;
  }

  lemma FrameHas(cells: Cells, f: Frame)
    requires FrameOk(cells, f)
    ensures Has(cells, FrameRefs(f))
  {
    hide Span;
  }

  lemma HasMore(c: Cells, d: Cells, refs: set<Id>)
    requires Has(c, refs) && c.Keys <= d.Keys
    ensures Has(d, refs)
  {}

  lemma OpAt(s: State, k: nat)
    requires OpsOk(s) && k < |s.ops|
    ensures OpOk(s.cells, s.dead, s.ops[k])
  {
    hide OpOk;
  }

  lemma HeldIsAlive(cells: Cells, dead: set<Id>, op: Op)
    requires OpOk(cells, dead, op)
    ensures Held(op).Some? ==> Held(op).value in cells && Held(op).value !in dead
  {
    hide Span, FramesOk, GoalOk, Held;
  }

  /** Operations that take no step. */
  lemma OpKept(s: State, d: Cells, h: Option<Id>, q: Option<Id>, k: nat)
    requires Inv(s) && k < |s.ops| && Evolves(s.cells, d, h, q) && s.cells.Keys <= d.Keys
    ensures OpOk(d, s.dead, s.ops[k])
  {
    DistinctOf(s.cells);
    OpAt(s, k);
    hide CellsOk, DeadOk, OpsOk, OrderOk, OpOk, Evolves, Held, Refs, Distinct;
    OpHas(s.cells, s.dead, s.ops[k]);
    HasMore(s.cells, d, Refs(s.ops[k]));
    HeldIsAlive(s.cells, s.dead, s.ops[k]);
    OpStays(s.cells, s.dead, d, s.dead, h, q, s.ops[k]);
  }

  /** A step of operation `k`, which may change cells. */
  lemma InvStep(s: State, t: State, k: nat, h: Option<Id>, q: Option<Id>)
    requires Inv(s) && Evolves(s.cells, t.cells, h, q) && s.cells.Keys <= t.cells.Keys && t.dead == s.dead
    requires CellsOk(t.cells) && DeadOk(t.cells, t.dead) && OrderOk(t.cells, t.order)
    requires k < |s.ops| == |t.ops| && t.ops == s.ops[k := t.ops[k]] && OpOk(t.cells, t.dead, t.ops[k])
    ensures Inv(t)
  {
    hide CellsOk, DeadOk, OrderOk, OpOk, Evolves;
    forall l | 0 <= l < |t.ops|
      ensures OpOk(t.cells, t.dead, t.ops[l])
    {
      if l != k { OpKept(s, t.cells, h, q, l); }
    }
  }

  /** A change of cells that is no step of an operation. */
  lemma InvChange(s: State, t: State, h: Option<Id>, q: Option<Id>)
    requires Inv(s) && Evolves(s.cells, t.cells, h, q) && s.cells.Keys <= t.cells.Keys && t.dead == s.dead
    requires t.ops == s.ops
    requires CellsOk(t.cells) && DeadOk(t.cells, t.dead) && OrderOk(t.cells, t.order)
    ensures Inv(t)
  {
    hide CellsOk, DeadOk, OrderOk, OpOk, Evolves;
    forall l | 0 <= l < |t.ops|
      ensures OpOk(t.cells, t.dead, t.ops[l])
    {
      OpKept(s, t.cells, h, q, l);
    }
  }

  lemma InvStart(s: State, op: Op)
    requires Inv(s) && OpOk(s.cells, s.dead, op)
    ensures Inv(Start(s, op))
  {
    hide CellsOk, DeadOk, OrderOk, OpOk;
  }

  // ---------------------------------------------------------------- the abstract list

  lemma OrderSame(c: Cells, d: Cells, order: seq<Id>)
    requires OrderOk(c, order) && (forall x :: x in c && x in d ==> d[x].rank == c[x].rank)
    requires forall x :: (x in c && !Deleted(c, x)) <==> (x in d && !Deleted(d, x))
    ensures OrderOk(d, order)
  {
    hide Deleted;
    forall i, j | 0 <= i < j < |order|
      ensures RankLess(d, order[i], order[j])
    {
      assert RankLess(c, order[i], order[j]);
      assert order[i] in order && order[j] in order;
    }
  }

  lemma Removed(order: seq<Id>, x: Id, i: nat)
    requires i < |order| && order[i] == x && Position(order, x) == i
    requires forall a, b :: 0 <= a < b < |order| ==> order[a] != order[b]
    ensures var r := Remove(order, x);
      && |r| == |order| - 1 && (forall j :: 0 <= j < |r| ==> r[j] == order[if j < i then j else j + 1])
      && (forall y :: y in r <==> y in order && y != x)
  {
    var r := Remove(order, x);
    forall y | y in order && y != x
      ensures y in r
    {
      var j :| 0 <= j < |order| && order[j] == y;
      assert r[if j < i then j else j - 1] == y;
    }
  }

  /** Deleting an entry takes it out of the abstract list. */
  lemma OrderRemove(c: Cells, d: Cells, order: seq<Id>, x: Id)
    requires OrderOk(c, order) && x in order && (forall y :: y in c && y in d ==> d[y].rank == c[y].rank)
    requires forall y :: (y in c && !Deleted(c, y) && y != x) <==> (y in d && !Deleted(d, y))
    ensures OrderOk(d, Remove(order, x))
  {
    hide *;
    var i, r := Position(order, x), Remove(order, x);
    OrderOf(c, order);
    forall a, b | 0 <= a < b < |order|
      ensures order[a] != order[b]
    {
      LessApart(c, order[a], order[b]);
    }
    Removed(order, x, i);
    forall a, b | 0 <= a < b < |r|
      ensures RankLess(d, r[a], r[b])
    {
      var a', b' := if a < i then a else a + 1, if b < i then b else b + 1;
      assert r[a] == order[a'] && r[b] == order[b'] && r[a] in r && r[b] in r;
      LessStays(c, d, r[a], r[b]);
    }
    OrderIs(d, r);
  }

  lemma OrderOf(c: Cells, order: seq<Id>)
    requires OrderOk(c, order)
    ensures forall x :: x in order <==> x in c && !Deleted(c, x)
    ensures forall i, j :: 0 <= i < j < |order| ==> RankLess(c, order[i], order[j])
  {
    hide Deleted, RankLess;
  }

  lemma OrderIs(c: Cells, order: seq<Id>)
    requires forall x :: x in order <==> x in c && !Deleted(c, x)
    requires forall i, j :: 0 <= i < j < |order| ==> RankLess(c, order[i], order[j])
    ensures OrderOk(c, order)
  {
    hide Deleted, RankLess;
  }

  lemma LessApart(c: Cells, x: Id, y: Id)
    requires RankLess(c, x, y)
    ensures x != y
  {}

  lemma LessStays(c: Cells, d: Cells, x: Id, y: Id)
    requires RankLess(c, x, y) && x in d && y in d && d[x].rank == c[x].rank && d[y].rank == c[y].rank
    ensures RankLess(d, x, y)
  {}

  lemma Added(order: seq<Id>, h: Id, q: Id, i: nat)
    requires h in order && i == Position(order, h)
    ensures var r := AddBehind(order, h, q);
      && |r| == |order| + 1
      && (forall j :: 0 <= j < |r| ==> r[j] == if j <= i then order[j] else if j == i + 1 then q else order[j - 1])
      && (forall y :: y in r <==> y in order || y == q)
  {
    var r := AddBehind(order, h, q);
    assert r == order[..i + 1] + [q] + order[i + 1..];
    forall y | y in order
      ensures y in r
    {
      var j :| 0 <= j < |order| && order[j] == y;
      assert r[if j <= i then j else j + 1] == y;
    }
    assert r[i + 1] == q;
  }

  lemma AddedAt(order: seq<Id>, h: Id, q: Id, j: nat)
    requires h in order && j <= |order|
    ensures var r, i := AddBehind(order, h, q), Position(order, h);
      |r| == |order| + 1 && r[j] == if j <= i then order[j] else if j == i + 1 then q else order[j - 1]
  {
    hide Position;
  }

  /** A new cell behind `h` joins the abstract list right behind `h`. */
  lemma OrderInsert(c: Cells, d: Cells, order: seq<Id>, h: Id, q: Id)
    requires OrderOk(c, order) && h in order && Evolves(c, d, Some(h), Some(q)) && d.Keys == c.Keys + {q}
    requires !Deleted(d, q)
    requires forall y :: y in c ==> (Deleted(d, y) <==> Deleted(c, y))
    ensures OrderOk(d, AddBehind(order, h, q))
  {
    hide *;
    var i, r := Position(order, h), AddBehind(order, h, q);
    OrderOf(c, order);
    Added(order, h, q, i);
    forall y: Id
      ensures y in r <==> y in d && !Deleted(d, y)
    {
      DeletedIn(c, y);
      DeletedIn(d, y);
    }
    forall a, b | 0 <= a < b < |r|
      ensures RankLess(d, r[a], r[b])
    {
      OrderPair(c, d, order, h, q, a, b);
      AddedAt(order, h, q, a);
      AddedAt(order, h, q, b);
    }
    OrderIs(d, r);
  }

  lemma DeletedIn(cells: Cells, x: Id)
    ensures Deleted(cells, x) ==> x in cells
  {}

  lemma OrderPair(c: Cells, d: Cells, order: seq<Id>, h: Id, q: Id, a: nat, b: nat)
    requires OrderOk(c, order) && h in order && Evolves(c, d, Some(h), Some(q)) && d.Keys == c.Keys + {q}
    requires a < b <= |order|
    ensures var i := Position(order, h);
      var x := if a <= i then order[a] else if a == i + 1 then q else order[a - 1];
      var y := if b <= i then order[b] else if b == i + 1 then q else order[b - 1];
      RankLess(d, x, y)
  {
    hide Deleted;
    var i := Position(order, h);
    if a != i + 1 && b != i + 1 {
      var j, l := if a <= i then a else a - 1, if b <= i then b else b - 1;
      assert RankLess(c, order[j], order[l]);
    } else if b == i + 1 {
      assert order[a] in order;
      if a < i { assert RankLess(c, order[a], order[i]); }
    } else {
      assert RankLess(c, order[i], order[b - 1]);
      assert order[b - 1] in order;
    }
  }

  /** A new root joins it at the end. */
  lemma OrderAppend(c: Cells, d: Cells, order: seq<Id>, r: Id)
    requires OrderOk(c, order) && Evolves(c, d, None, Some(r)) && d.Keys == c.Keys + {r} && !Deleted(d, r)
    requires forall y :: y in c ==> (Deleted(d, y) <==> Deleted(c, y))
    ensures OrderOk(d, order + [r])
  {
    hide Deleted;
    forall a, b | 0 <= a < b < |order + [r]|
      ensures RankLess(d, (order + [r])[a], (order + [r])[b])
    {
      assert order[a] in order;
      if b < |order| { assert RankLess(c, order[a], order[b]); }
    }
  }

  // ---------------------------------------------------------------- dead entries

  lemma DeadStays(c: Cells, d: Cells, dead: set<Id>)
    requires DeadOk(c, dead) && (forall x :: x in dead && Deleted(c, x) ==> Deleted(d, x))
    requires forall y, x :: y in d && x in dead && d[y].link.to == Some(x) ==> y in c && c[y].link.to == Some(x)
    ensures DeadOk(d, dead)
  {
    hide Deleted;
  }

  lemma RelinkDead(c: Cells, d: Cells, dead: set<Id>, x: Id, link: Ptr)
    requires DeadOk(c, dead) && Relinks(c, d, x, link) && x in c
    requires link.to.Some? && link.to.value in dead ==> link.to == c[x].link.to
    ensures DeadOk(d, dead)
  {
    RelinkEvolves(c, d, x, link);
    hide Relinks;
    DeadStays(c, d, dead);
  }

  lemma InsertDead(c: Cells, d: Cells, dead: set<Id>, h: Id, q: Id, cell: Cell, link: Ptr)
    requires DeadOk(c, dead) && Inserts(c, d, h, q, cell, link) && h in c
    ensures DeadOk(d, dead)
  {
    InsertEvolves(c, d, h, q, cell, link);
    InsertLink(c, d, h, q, cell, link);
    hide Inserts;
    DeadStays(c, d, dead);
  }

  lemma InsertLink(c: Cells, d: Cells, h: Id, q: Id, cell: Cell, link: Ptr)
    requires Inserts(c, d, h, q, cell, link)
    ensures cell.link.to == c[h].link.to && q !in c && (link.to == None || link.to == Some(q)) && !Deleted(d, q)
    ensures forall y :: y in c ==> (Deleted(d, y) <==> Deleted(c, y))
  {
    hide Behind;
  }

  /** The cell directly in front of `x` in the order of all cells. */
  lemma Predecessor(cells: Cells, x: Id) returns (p: Id)
    requires Rooted(cells) && x in cells && !cells[x].root
    ensures p in cells && cells[p].rank < cells[x].rank
    ensures forall y :: y in cells ==> !(cells[p].rank < cells[y].rank < cells[x].rank)
  {
    var r :| RootBelow(cells, x, r);
    p := Highest(cells, x, r, set y | y in cells && cells[r].rank < cells[y].rank < cells[x].rank);
  }

  lemma {:induction false} Highest(cells: Cells, x: Id, p: Id, above: set<Id>) returns (r: Id)
    requires x in cells && p in cells && cells[p].rank < cells[x].rank
    requires above == set y | y in cells && cells[p].rank < cells[y].rank < cells[x].rank
    ensures r in cells && cells[r].rank < cells[x].rank
    ensures forall y :: y in cells ==> !(cells[r].rank < cells[y].rank < cells[x].rank)
    decreases |above|
  {
    if above == {} {
      r := p;
      forall y | y in cells
        ensures !(cells[r].rank < cells[y].rank < cells[x].rank)
      {
        assert y !in above;
      }
    } else {
      var z :| z in above;
      var fewer := set y | y in cells && cells[z].rank < cells[y].rank < cells[x].rank;
      assert fewer < above by { assert z !in fewer; }
      Smaller(fewer, above);
      r := Highest(cells, x, z, fewer);
    }
  }

  lemma {:induction false} Smaller(a: set<Id>, b: set<Id>)
    requires a < b
    ensures |a| < |b|
  {
    var x :| x in b && x !in a;
    Subset(a, b - {x});
  }

  lemma {:induction false} Subset(a: set<Id>, b: set<Id>)
    requires a <= b
    ensures |a| <= |b|
    decreases |a|
  {
    if a != {} {
      var x :| x in a;
      Subset(a - {x}, b - {x});
    }
  }

  /** Each entry that is not deleted is linked from the cell in front of it. */
  lemma LiveIsLinked(cells: Cells, x: Id) returns (p: Id)
    requires CellsOk(cells) && x in cells && !cells[x].root && !Deleted(cells, x)
    ensures p in cells && cells[p].rank < cells[x].rank && cells[p].link.to == Some(x)
  {
    p := Predecessor(cells, x);
    LinkOf(cells, p);
    var to := cells[p].link.to;
    assert Open(cells, cells[p].rank, cells[x].rank);
    assert to.Some? && cells[to.value].rank == cells[x].rank ==> to.value == x;
  }

  lemma DieDead(cells: Cells, dead: set<Id>, x: Id)
    requires CellsOk(cells) && DeadOk(cells, dead) && x in cells && !cells[x].root
    requires forall c :: c in cells ==> cells[c].link.to != Some(x)
    ensures DeadOk(cells, dead + {x})
  {
    if !Deleted(cells, x) {
      var p := LiveIsLinked(cells, x);
      assert false;
    }
    hide CellsOk, Deleted;
  }

  // ---------------------------------------------------------------- every action keeps the invariant

  lemma InvRelink(s: State, d: Cells, k: nat, op: Op, x: Id, link: Ptr)
    requires Inv(s) && Relinks(s.cells, d, x, link) && x in s.cells && link.tag == s.cells[x].link.tag
    requires Entry(s.cells, link.to) && Span(s.cells, s.cells[x].link.to, link.to)
    requires (link.to.Some? ==> link.to.value !in s.dead) && k < |s.ops| && OpOk(s.cells, s.dead, op)
    ensures Inv(s.(cells := d, ops := s.ops[k := op]))
  {
    RelinkTags(s.cells, d, x, link);
    RelinkEvolves(s.cells, d, x, link);
    hide CellsOk, DeadOk, OpsOk, OrderOk, Relinks, Entry, Span, Evolves, OpOk;
    RelinkCells(s.cells, d, x, link);
    RelinkDead(s.cells, d, s.dead, x, link);
    OrderSame(s.cells, d, s.order);
    OpMoves(s, d, op);
    InvStep(s, s.(cells := d, ops := s.ops[k := op]), k, None, None);
  }

  lemma RelinkTags(c: Cells, d: Cells, x: Id, link: Ptr)
    requires Relinks(c, d, x, link) && x in c && link.tag == c[x].link.tag
    ensures forall y :: Deleted(d, y) <==> Deleted(c, y)
  {}

  /** What an operation knows before a change of cells it knows afterwards. */
  lemma OpMoves(s: State, d: Cells, op: Op)
    requires Inv(s) && Evolves(s.cells, d, None, None) && s.cells.Keys <= d.Keys && OpOk(s.cells, s.dead, op)
    ensures OpOk(d, s.dead, op)
  {
    DistinctOf(s.cells);
    hide CellsOk, DeadOk, OpsOk, OrderOk, OpOk, Evolves, Held, Refs, Distinct;
    OpHas(s.cells, s.dead, op);
    HasMore(s.cells, d, Refs(op));
    HeldIsAlive(s.cells, s.dead, op);
    OpStays(s.cells, s.dead, d, s.dead, None, None, op);
  }

  /** Marking, unmarking, and deleting a root that is a list head. */
  lemma InvRetag(s: State, t: State, x: Id, tag: Tag)
    requires Inv(s) && x in s.cells && t == Retag(s, x, tag) && !Deleted(s.cells, x)
    requires s.cells[x].root || tag != Second
    ensures Inv(t)
  {
    var link := s.cells[x].link.(tag := tag);
    assert Relinks(s.cells, t.cells, x, link);
    RelinkEvolves(s.cells, t.cells, x, link);
    assert forall y :: Deleted(t.cells, y) <==> Deleted(s.cells, y);
    LinkOf(s.cells, x);
    hide CellsOk, DeadOk, OpsOk, OrderOk, Relinks, Entry, Evolves, OpOk, LinkOk, Distinct, Rooted;
    RelinkCells(s.cells, t.cells, x, link);
    RelinkDead(s.cells, t.cells, s.dead, x, link);
    OrderSame(s.cells, t.cells, s.order);
    InvChange(s, t, None, None);
  }

  /** Deletion. */
  lemma InvDelete(s: State, x: Id)
    requires Inv(s) && x in s.cells
    ensures Inv(DoDelete(s, x))
  {
    var t := DoDelete(s, x);
    if s.cells[x].link.tag == Second {
    } else if s.cells[x].root {
      hide Inv;
      InvRetag(s, t, x, Second);
    } else {
      var link := s.cells[x].link.(tag := Second);
      assert Relinks(s.cells, t.cells, x, link);
      RelinkEvolves(s.cells, t.cells, x, link);
      assert forall y :: (y in s.cells && !Deleted(s.cells, y) && y != x) <==> (y in t.cells && !Deleted(t.cells, y));
      LinkOf(s.cells, x);
      assert x in s.order;
      hide CellsOk, DeadOk, OpsOk, OrderOk, Relinks, Entry, Evolves, OpOk, LinkOk, Distinct, Rooted;
      RelinkCells(s.cells, t.cells, x, link);
      RelinkDead(s.cells, t.cells, s.dead, x, link);
      OrderRemove(s.cells, t.cells, s.order, x);
      InvChange(s, t, None, None);
    }
  }

  lemma InOrder(s: State, x: Id)
    requires Inv(s) && x in s.cells && !Deleted(s.cells, x)
    ensures x in s.order
  {
    hide CellsOk, DeadOk, OpsOk;
  }

  lemma InvInserts(s: State, t: State, h: Id, q: Id, cell: Cell, link: Ptr)
    requires Inv(s) && h in s.cells && Inserts(s.cells, t.cells, h, q, cell, link)
    requires t == s.(cells := t.cells, order := AddBehind(s.order, h, q))
    ensures Inv(t)
  {
    InsertEvolves(s.cells, t.cells, h, q, cell, link);
    InsertLink(s.cells, t.cells, h, q, cell, link);
    assert !Deleted(s.cells, h);
    InOrder(s, h);
    hide CellsOk, DeadOk, OpsOk, OrderOk, Inserts, Evolves, OpOk, AddBehind, Deleted;
    InsertCells(s.cells, t.cells, h, q, cell, link);
    InsertDead(s.cells, t.cells, s.dead, h, q, cell, link);
    OrderInsert(s.cells, t.cells, s.order, h, q);
    InvChange(s, t, Some(h), Some(q));
  }

  lemma RootTags(c: Cells, d: Cells, r: Id, rank: real, dead: set<Id>)
    requires r !in c && d == c[r := Cell(NULL, rank, true)] && DeadOk(c, dead)
    ensures !Deleted(d, r) && (forall y :: y in c ==> (Deleted(d, y) <==> Deleted(c, y))) && DeadOk(d, dead)
  {
    DeadStays(c, d, dead);
  }

  lemma InvNewRoot(s: State, r: Id, rank: real)
    requires Inv(s) && r !in s.cells && Last(s.cells, rank)
    ensures Inv(s.(cells := s.cells[r := Cell(NULL, rank, true)], order := s.order + [r]))
  {
    var d := s.cells[r := Cell(NULL, rank, true)];
    hide CellsOk, DeadOk, OpsOk, OrderOk, Evolves, OpOk, Last, Deleted;
    RootCells(s.cells, d, r, rank);
    RootTags(s.cells, d, r, rank, s.dead);
    OrderAppend(s.cells, d, s.order, r);
    InvChange(s, s.(cells := d, order := s.order + [r]), None, Some(r));
  }

  lemma InvSplit(s: State, r: Id, new_: Id, rank: real)
    requires Inv(s) && r in s.cells && s.cells[r].root && new_ !in s.cells && Behind(s.cells, r, rank)
    ensures Inv(s.(cells := Relink(s.cells, r, NULL)[new_ := Cell(Ptr(s.cells[r].link.to, Plain), rank, true)],
                   order := AddBehind(s.order, r, new_)))
  {
    var cell := Cell(Ptr(s.cells[r].link.to, Plain), rank, true);
    var d := Relink(s.cells, r, NULL)[new_ := cell];
    assert Inserts(s.cells, d, r, new_, cell, NULL);
    hide Inv, Inserts;
    InvInserts(s, s.(cells := d, order := AddBehind(s.order, r, new_)), r, new_, cell, NULL);
  }

  /** An insertion whose compare-exchange succeeds has the successor it expected: had that been dead
      already, nothing would link to it, and the compare-exchange would have failed. */
  lemma InsertLinks(s: State, k: nat)
    requires Inv(s) && k < |s.ops| && s.ops[k].InsertTry? && s.ops[k].head in s.cells
    requires s.cells[s.ops[k].head].link == s.ops[k].seen
    ensures s.ops[k].held == s.ops[k].seen.to && s.ops[k].seen.tag != Second && s.ops[k].tag != Second
  {
    OpAt(s, k);
    hide CellsOk, OpsOk, OrderOk;
  }

  lemma InsertOk(s: State, k: nat, q: Id, rank: real) returns (d: Cells)
    requires Inv(s) && k < |s.ops| && s.ops[k].InsertTry? && q !in s.cells && Behind(s.cells, s.ops[k].head, rank)
    requires s.ops[k].head in s.cells && s.cells[s.ops[k].head].link == s.ops[k].seen
    ensures var InsertTry(head, seen, tag, held) := s.ops[k];
      && d == Relink(s.cells, head, Ptr(Some(q), tag))[q := Cell(Ptr(held, Plain), rank, false)]
      && Inserts(s.cells, d, head, q, Cell(Ptr(held, Plain), rank, false), Ptr(Some(q), tag))
  {
    InsertLinks(s, k);
    hide Inv, Behind;
    var InsertTry(head, seen, tag, held) := s.ops[k];
    d := Relink(s.cells, head, Ptr(Some(q), tag))[q := Cell(Ptr(held, Plain), rank, false)];
  }

  lemma InvInsert(s: State, k: nat, q: Id, rank: real)
    requires Inv(s) && k < |s.ops| && s.ops[k].InsertTry? && q !in s.cells && Behind(s.cells, s.ops[k].head, rank)
    requires s.ops[k].head in s.cells && s.cells[s.ops[k].head].link == s.ops[k].seen
    ensures var InsertTry(head, seen, tag, held) := s.ops[k];
      Inv(At(s, k, Done).(cells := Relink(s.cells, head, Ptr(Some(q), tag))[q := Cell(Ptr(held, Plain), rank, false)],
                          order := AddBehind(s.order, head, q)))
  {
    var InsertTry(head, seen, tag, held) := s.ops[k];
    var d := InsertOk(s, k, q, rank);
    var u := s.(cells := d, order := AddBehind(s.order, head, q));
    hide Inv, Inserts, Behind, AddBehind, OpOk, Relink;
    InvInserts(s, u, head, q, Cell(Ptr(held, Plain), rank, false), Ptr(Some(q), tag));
    InvDone(u, k);
  }

  lemma InvDone(s: State, k: nat)
    requires Inv(s) && k < |s.ops|
    ensures Inv(At(s, k, Done))
  {
    hide CellsOk, DeadOk, OrderOk;
  }

  lemma OpIn(s: State, k: nat)
    requires Inv(s) && k < |s.ops|
    ensures OpOk(s.cells, s.dead, s.ops[k])
  {
    hide CellsOk, DeadOk, OrderOk, OpOk;
  }

  lemma Parts(s: State)
    requires Inv(s)
    ensures CellsOk(s.cells) && DeadOk(s.cells, s.dead) && OrderOk(s.cells, s.order) && Distinct(s.cells)
  {
    hide Linked, Distinct, Rooted, DeadOk, OrderOk, OpsOk;
  }

  lemma ShareOk(cells: Cells, dead: set<Id>, head: Id, seen: Ptr, tag: Tag)
    requires OpOk(cells, dead, Insert(head, seen, tag))
    ensures
      OpOk(cells, dead, InsertTry(head, seen, tag, if seen.to.Some? && seen.to.value in dead then None else seen.to))
  {}

  /** The shared handle to the successor is taken, or cannot be taken any more. */
  lemma InvShare(s: State, k: nat, head: Id, seen: Ptr, tag: Tag)
    requires Inv(s) && k < |s.ops| && s.ops[k] == Insert(head, seen, tag)
    ensures
      Inv(At(s, k, InsertTry(head, seen, tag, if seen.to.Some? && seen.to.value in s.dead then None else seen.to)))
  {
    hide *;
    OpIn(s, k);
    ShareOk(s.cells, s.dead, head, seen, tag);
    InvOpAt(s, k, InsertTry(head, seen, tag, if seen.to.Some? && seen.to.value in s.dead then None else seen.to));
  }

  lemma TopSplit(frames: seq<Frame>)
    requires frames != []
    ensures frames[..|frames| - 1] + [frames[|frames| - 1]] == frames
  {}

  lemma WalkParts(cells: Cells, dead: set<Id>, goal: Goal, rest: seq<Frame>, top: Frame)
    requires OpOk(cells, dead, Walk(goal, rest + [top]))
    ensures GoalOk(cells, goal) && FramesOk(cells, goal, rest + [top])
    ensures top.stage.Holding? && top.stage.valid.to.Some? ==> top.stage.valid.to.value !in dead
  {
    assert Held(Walk(goal, rest + [top])) == if top.stage.Holding? then top.stage.valid.to else None;
    hide FramesOk, GoalOk, Held;
  }

  lemma HoldingKnows(cells: Cells, top: Frame)
    requires FrameOk(cells, top) && top.stage.Holding?
    ensures Entry(cells, top.stage.valid.to) && Span(cells, top.seen.to, top.stage.valid.to)
  {
    hide Span, Entry;
  }

  lemma SameTagRelinks(cells: Cells, x: Id, link: Ptr)
    requires x in cells && link.tag == cells[x].link.tag
    ensures Relinks(cells, Relink(cells, x, link), x, link)
  {}

  /** A traversal changes at most the link of the innermost head, keeping its tag, and then only to skip
      deleted entries. */
  lemma WalkRelinks(cells: Cells, dead: set<Id>, goal: Goal, rest: seq<Frame>, top: Frame)
    requires OpOk(cells, dead, Walk(goal, rest + [top])) && top.head in cells
    requires top.stage.Looking? && top.stage.next.to.Some? ==> top.stage.next.to.value in cells
    ensures var r := WalkOn(cells, dead, goal, rest, top);
      r.cells == cells ||
        (top.stage.Holding? && cells[top.head].link == top.seen
         && var link := Ptr(top.stage.valid.to, top.seen.tag);
            Relinks(cells, r.cells, top.head, link) && link.tag == cells[top.head].link.tag && Entry(cells, link.to)
            && Span(cells, cells[top.head].link.to, link.to) && (link.to.Some? ==> link.to.value !in dead))
  {
    if top.stage.Holding? && cells[top.head].link == top.seen {
      WalkParts(cells, dead, goal, rest, top);
      FrameOf(cells, goal, rest, top);
      HoldingKnows(cells, top);
      SameTagRelinks(cells, top.head, Ptr(top.stage.valid.to, top.seen.tag));
    }
    hide OpOk, GoalOk, FramesOk, FrameOk, Span, Entry, Relinks, Return, Relink;
  }

  lemma InvWalk(s: State, k: nat, goal: Goal, rest: seq<Frame>, top: Frame)
    requires Inv(s) && k < |s.ops| && s.ops[k] == Walk(goal, rest + [top]) && !top.stage.Calling?
    requires top.head in s.cells
    requires top.stage.Looking? && top.stage.next.to.Some? ==> top.stage.next.to.value in s.cells
    ensures var r := WalkOn(s.cells, s.dead, goal, rest, top); Inv(At(s, k, r.op).(cells := r.cells))
  {
    var r := WalkOn(s.cells, s.dead, goal, rest, top);
    hide *;
    OpIn(s, k);
    Parts(s);
    WalkParts(s.cells, s.dead, goal, rest, top);
    WalkKnows(s.cells, s.dead, goal, rest, top);
    WalkRelinks(s.cells, s.dead, goal, rest, top);
    if r.cells == s.cells {
      InvOpAt(s, k, r.op);
    } else {
      InvRelink(s, r.cells, k, r.op, top.head, Ptr(top.stage.valid.to, top.seen.tag));
    }
    AtIs(s, k, r.op, r.cells);
  }

  lemma AtIs(s: State, k: nat, op: Op, cells: Cells)
    requires k < |s.ops|
    ensures At(s, k, op).(cells := cells) == s.(cells := cells, ops := s.ops[k := op])
    ensures At(s, k, op) == At(s, k, op).(cells := s.cells)
  {}

  lemma InvOpAt(s: State, k: nat, op: Op)
    requires Inv(s) && k < |s.ops| && OpOk(s.cells, s.dead, op)
    ensures Inv(At(s, k, op))
  {
    hide CellsOk, DeadOk, OrderOk, OpOk;
  }

  lemma WalkedOk(cells: Cells, dead: set<Id>, root: Id, gone: Id, valid: Ptr)
    requires OpOk(cells, dead, Walked(ForRoot(root, gone), valid)) && DeadOk(cells, dead)
    ensures valid.to.Some? && valid.to.value in dead ==>
      OpOk(cells, dead, Walk(ForRoot(root, gone), [NewFrame(valid.to.value, DEPTH)]))
    ensures !(valid.to.Some? && valid.to.value in dead) ==> OpOk(cells, dead, Swing(root, gone, valid.to))
  {
    hide Span;
    if valid.to.Some? && valid.to.value in dead {
      Restarts(cells, dead, ForRoot(root, gone), valid.to.value);
    }
    hide FramesOk;
  }

  /** `next_shared` takes a handle to what the traversal found, or traverses on from there. */
  lemma InvShareWalked(s: State, k: nat, root: Id, gone: Id, valid: Ptr)
    requires Inv(s) && k < |s.ops| && s.ops[k] == Walked(ForRoot(root, gone), valid)
    ensures Inv(At(s, k, if valid.to.Some? && valid.to.value in s.dead
                         then Walk(ForRoot(root, gone), [NewFrame(valid.to.value, DEPTH)])
                         else Swing(root, gone, valid.to)))
  {
    hide *;
    OpIn(s, k);
    Parts(s);
    WalkedOk(s.cells, s.dead, root, gone, valid);
    if valid.to.Some? && valid.to.value in s.dead {
      InvOpAt(s, k, Walk(ForRoot(root, gone), [NewFrame(valid.to.value, DEPTH)]));
    } else {
      InvOpAt(s, k, Swing(root, gone, valid.to));
    }
  }

  /** A traversal may start at a deleted entry up to which everything is known to be deleted. */
  lemma Restarts(cells: Cells, dead: set<Id>, goal: Goal, x: Id)
    requires GoalOk(cells, goal) && x in cells
    requires goal.ForRoot? ==> Deleted(cells, x) && Span(cells, Some(goal.gone), Some(x))
    ensures OpOk(cells, dead, Walk(goal, [NewFrame(x, DEPTH)]))
  {
    hide Span, GoalOk;
    assert FrameAt(cells, goal, [NewFrame(x, DEPTH)], 0);
  }

  lemma SwingKnows(cells: Cells, dead: set<Id>, root: Id, gone: Id, held: Option<Id>)
    requires OpOk(cells, dead, Swing(root, gone, held))
    ensures Entry(cells, held) && Span(cells, Some(gone), held) && (held.Some? ==> held.value !in dead)
    ensures OpOk(cells, dead, Done)
  {
    hide Span;
  }

  /** The clean-up of a root. */
  lemma InvTrySwing(s: State, k: nat, root: Id, gone: Id, held: Option<Id>)
    requires Inv(s) && k < |s.ops| && s.ops[k] == Swing(root, gone, held) && root in s.cells
    requires s.cells[root].link == Ptr(Some(gone), Plain)
    ensures Inv(At(s, k, Done).(cells := Relink(s.cells, root, Ptr(held, Plain))))
  {
    hide *;
    OpIn(s, k);
    SwingKnows(s.cells, s.dead, root, gone, held);
    SameTagRelinks(s.cells, root, Ptr(held, Plain));
    InvRelink(s, Relink(s.cells, root, Ptr(held, Plain)), k, Done, root, Ptr(held, Plain));
    AtIs(s, k, Done, Relink(s.cells, root, Ptr(held, Plain)));
  }

  lemma InvOf(s: State)
    requires CellsOk(s.cells) && DeadOk(s.cells, s.dead) && OrderOk(s.cells, s.order)
    requires forall k :: 0 <= k < |s.ops| ==> OpOk(s.cells, s.dead, s.ops[k])
    ensures Inv(s)
  {
    hide CellsOk, DeadOk, OrderOk, OpOk;
  }

  /** An operation that does not hold `x` does not mind its death. */
  lemma OpSurvives(s: State, x: Id, k: nat)
    requires Inv(s) && k < |s.ops| && Held(s.ops[k]) != Some(x)
    ensures OpOk(s.cells, s.dead + {x}, s.ops[k])
  {
    hide *;
    OpIn(s, k);
    Parts(s);
    EvolvesSelf(s.cells);
    OpHas(s.cells, s.dead, s.ops[k]);
    HeldIsAlive(s.cells, s.dead, s.ops[k]);
    OpStays(s.cells, s.dead, s.cells, s.dead + {x}, None, None, s.ops[k]);
  }

  /** An entry dies only after it has been deleted. */
  lemma InvDie(s: State, x: Id)
    requires Inv(s) && Can(s, Die(x))
    ensures Inv(s.(dead := s.dead + {x}))
  {
    hide CellsOk, DeadOk, OrderOk, OpsOk, OpOk, Held;
    DieDead(s.cells, s.dead, x);
    forall k | 0 <= k < |s.ops|
      ensures OpOk(s.cells, s.dead + {x}, s.ops[k])
    {
      OpSurvives(s, x, k);
    }
    InvOf(s.(dead := s.dead + {x}));
  }

  lemma EvolvesSelf(cells: Cells)
    ensures Evolves(cells, cells, None, None)
  {}

  /** An operation that does not refer to `x` does not mind its memory being freed. */
  lemma OpOutlives(s: State, x: Id, k: nat)
    requires Inv(s) && k < |s.ops| && x !in Refs(s.ops[k]) && Evolves(s.cells, s.cells - {x}, None, None)
    ensures OpOk(s.cells - {x}, s.dead - {x}, s.ops[k])
  {
    hide *;
    OpIn(s, k);
    Parts(s);
    OpHas(s.cells, s.dead, s.ops[k]);
    HasFewer(s.cells, x, Refs(s.ops[k]));
    HeldIsAlive(s.cells, s.dead, s.ops[k]);
    HeldIsRef(s.ops[k]);
    OpStays(s.cells, s.dead, s.cells - {x}, s.dead - {x}, None, None, s.ops[k]);
  }

  lemma DeadAt(cells: Cells, dead: set<Id>, x: Id)
    requires DeadOk(cells, dead) && x in dead
    ensures Deleted(cells, x) && x in cells && !cells[x].root && forall c :: c in cells ==> cells[c].link.to != Some(x)
  {}

  lemma RanksKept(c: Cells, x: Id)
    ensures forall y :: y in c && y in c - {x} ==> (c - {x})[y].rank == c[y].rank
  {}

  /** The memory of an entry is freed. */
  lemma InvDestroy(s: State, x: Id)
    requires Inv(s) && Can(s, Destroy(x))
    ensures Inv(s.(cells := s.cells - {x}, dead := s.dead - {x}))
  {
    var t := s.(cells := s.cells - {x}, dead := s.dead - {x});
    hide CellsOk, DeadOk, OrderOk, OpsOk, OpOk, Refs, Evolves, Deleted;
    DeadAt(s.cells, s.dead, x);
    DestroyCells(s.cells, t.cells, x);
    DestroyDead(s.cells, s.dead, x);
    DestroyTags(s.cells, x);
    RanksKept(s.cells, x);
    OrderSame(s.cells, t.cells, s.order);
    forall k | 0 <= k < |s.ops|
      ensures OpOk(t.cells, t.dead, t.ops[k])
    {
      OpOutlives(s, x, k);
    }
    InvOf(t);
  }

  lemma HasFewer(cells: Cells, x: Id, refs: set<Id>)
    requires Has(cells, refs) && x !in refs
    ensures Has(cells - {x}, refs)
  {}

  lemma HeldIsRef(op: Op)
    ensures Held(op).Some? ==> Held(op).value in Refs(op)
  {
    match op
    case Walk(goal, frames) =>
      if Held(op).Some? {
        var f := frames[|frames| - 1];
        assert f in frames && Held(op).value in FrameRefs(f);
      }
    case _ =>
  }

  lemma DestroyDead(c: Cells, dead: set<Id>, x: Id)
    requires DeadOk(c, dead)
    ensures DeadOk(c - {x}, dead - {x})
  {}

  lemma DestroyTags(c: Cells, x: Id)
    requires Deleted(c, x)
    ensures forall y :: (y in c && !Deleted(c, y)) <==> (y in c - {x} && !Deleted(c - {x}, y))
  {}

  lemma InvPop(s: State, k: nat)
    requires Inv(s) && k < |s.ops| && s.ops[k].Pop? && s.ops[k].entry in s.cells
    ensures Inv(At(DoDelete(s, s.ops[k].entry), k, Done))
  {
    hide Inv;
    InvDelete(s, s.ops[k].entry);
    InvDone(DoDelete(s, s.ops[k].entry), k);
  }

  lemma InvStarts(s: State, a: Action)
    requires Inv(s) && Can(s, a) && (a.StartInsert? || a.StartWalk? || a.StartCleanup? || a.StartPop?)
    ensures Inv(Do(s, a))
  {
    hide CellsOk, DeadOk, OpsOk, OrderOk, FramesOk, OpOk;
    match a
    case StartInsert(head, seen, tag) =>
      InsertStarts(s.cells, s.dead, head, seen, tag);
      InvStart(s, Insert(head, seen, tag));
    case StartWalk(head) =>
      Restarts(s.cells, s.dead, ForUser, head);
      InvStart(s, Walk(ForUser, [NewFrame(head, DEPTH)]));
    case StartCleanup(root, gone) =>
      Restarts(s.cells, s.dead, ForRoot(root, gone), gone);
      InvStart(s, Walk(ForRoot(root, gone), [NewFrame(gone, DEPTH)]));
    case StartPop(root) =>
      PopStarts(s.cells, s.dead, root);
      InvStart(s, Pop(root, s.cells[root].link.to.value));
  }

  lemma InsertStarts(cells: Cells, dead: set<Id>, head: Id, seen: Ptr, tag: Tag)
    requires head in cells && Chain.Known(cells, seen.to) && seen.tag != Second && tag != Second
    ensures OpOk(cells, dead, Insert(head, seen, tag))
  {}

  lemma PopStarts(cells: Cells, dead: set<Id>, root: Id)
    requires CellsOk(cells) && root in cells && cells[root].link.to.Some?
    ensures OpOk(cells, dead, Pop(root, cells[root].link.to.value))
  {
    hide *;
    LinkOf(cells, root);
    KnownEntry(cells, cells[root].link.to);
    PopIs(cells, dead, root, cells[root].link.to.value);
  }

  lemma PopIs(cells: Cells, dead: set<Id>, root: Id, e: Id)
    requires root in cells && e in cells
    ensures OpOk(cells, dead, Pop(root, e))
  {}

  lemma InvTags(s: State, a: Action)
    requires Inv(s) && Can(s, a) && (a.Mark? || a.Unmark?)
    ensures Inv(Do(s, a))
  {
    hide Inv;
    if a.Mark? {
      if s.cells[a.x].link.tag == Plain { InvRetag(s, Retag(s, a.x, First), a.x, First); }
    } else {
      if s.cells[a.x].link.tag == First { InvRetag(s, Retag(s, a.x, Plain), a.x, Plain); }
    }
  }

  lemma InvOperates(s: State, a: Action)
    requires Inv(s) && Can(s, a)
    requires a.Share? || a.TryInsert? || a.WalkStep? || a.ShareWalked? || a.TrySwing? || a.PopDelete?
    ensures Inv(Do(s, a))
  {
    hide Inv, AddBehind, WalkOn, DoDelete, NewFrame;
    match a
    case Share(k) => InvShare(s, k, s.ops[k].head, s.ops[k].seen, s.ops[k].tag);
    case TryInsert(k, q, rank, flaky) =>
      if s.cells[s.ops[k].head].link == s.ops[k].seen && !flaky { InvInsert(s, k, q, rank); } else { InvDone(s, k); }
    case WalkStep(k) =>
      var frames := s.ops[k].frames;
      TopSplit(frames);
      InvWalk(s, k, s.ops[k].goal, frames[..|frames| - 1], frames[|frames| - 1]);
    case ShareWalked(k) =>
      if s.ops[k].goal.ForRoot? {
        InvShareWalked(s, k, s.ops[k].goal.root, s.ops[k].goal.gone, s.ops[k].valid);
      } else {
        InvDone(s, k);
      }
    case TrySwing(k) =>
      if s.cells[s.ops[k].root].link == Ptr(Some(s.ops[k].gone), Plain) {
        InvTrySwing(s, k, s.ops[k].root, s.ops[k].gone, s.ops[k].held);
      } else {
        InvDone(s, k);
      }
    case PopDelete(k) => InvPop(s, k);
  }

  lemma InvDo(s: State, a: Action)
    requires Inv(s) && Can(s, a)
    ensures Inv(Do(s, a))
  {
    hide Inv, Last, Behind, AddBehind, DoDelete, WalkOn;
    match a
    case NewRoot(r, rank) => InvNewRoot(s, r, rank);
    case Split(r, new_, rank) => InvSplit(s, r, new_, rank);
    case Delete(x) => InvDelete(s, x);
    case Die(x) => InvDie(s, x);
    case Destroy(x) => InvDestroy(s, x);
    case _ =>
      hide Do, Can;
      if a.Mark? || a.Unmark? { InvTags(s, a); }
      else if a.StartInsert? || a.StartWalk? || a.StartCleanup? || a.StartPop? { InvStarts(s, a); }
      else { InvOperates(s, a); }
  }

  lemma InvInitial()
    ensures Inv(INITIAL)
  {}
}
