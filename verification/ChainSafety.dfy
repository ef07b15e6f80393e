/** Every way in which the list machine changes a link, adds a cell or removes one keeps the links in
    order. */
module ChainSafety {
  import opened Base
  import opened Chain
  import opened ChainOrder

  // ---------------------------------------------------------------- changing cells

  lemma LinkOf(cells: Cells, c: Id)
    requires CellsOk(cells) && c in cells
    ensures LinkOk(cells, c) && Distinct(cells) && Rooted(cells) && Entry(cells, cells[c].link.to)
  {
    hide Gap, Distinct, Rooted;
  }

  lemma CellsOkOf(cells: Cells)
    requires (forall c :: c in cells ==> LinkOk(cells, c)) && Distinct(cells) && Rooted(cells)
    ensures CellsOk(cells)
  {
    hide LinkOk, Distinct, Rooted;
  }

  /** Only `x` gets another link or tag, and is not undeleted. */
  ghost predicate Relinks(c: Cells, d: Cells, x: Id, link: Ptr) {
    x in c && d == Relink(c, x, link) && (Deleted(c, x) ==> link.tag == Second)
  }

  lemma RelinkEvolves(c: Cells, d: Cells, x: Id, link: Ptr)
    requires Relinks(c, d, x, link)
    ensures Evolves(c, d, None, None) && x in d && d[x].link == link && d[x].rank == c[x].rank && d.Keys == c.Keys
    ensures forall y :: y in c && y != x ==> d[y] == c[y]
    ensures forall y :: y in c ==> d[y].root == c[y].root && d[y].rank == c[y].rank
  {}

  lemma LinkIs(cells: Cells, x: Id)
    requires x in cells && Gap(cells, cells[x].rank, cells[x].link.to) && Entry(cells, cells[x].link.to)
    requires cells[x].link.to.Some? ==> cells[x].rank < cells[cells[x].link.to.value].rank
    ensures LinkOk(cells, x)
  {
    hide Gap;
  }

  lemma EntryStays(c: Cells, d: Cells, o: Option<Id>)
    requires Entry(c, o) && d.Keys == c.Keys && forall y :: y in c ==> d[y].root == c[y].root
    ensures Entry(d, o)
  {}

  /** Gives `x` a link over deleted entries, or another tag. */
  lemma RelinkCells(c: Cells, d: Cells, x: Id, link: Ptr)
    requires CellsOk(c) && Relinks(c, d, x, link) && x in c && Span(c, c[x].link.to, link.to) && Entry(c, link.to)
    ensures CellsOk(d) && Evolves(c, d, None, None)
  {
    RelinkEvolves(c, d, x, link);
    KnownEntry(c, link.to);
    hide *;
    LinkOf(c, x);
    LinkOver(c, x, link.to);
    GapStays(c, d, None, None, x, link.to);
    EntryStays(c, d, link.to);
    LinkIs(d, x);
    DistinctStays(c, d, None, None);
    RootedStays(c, d, None, None);
    forall y | y in d
      ensures LinkOk(d, y)
    {
      if y != x {
        LinkOf(c, y);
        KnownEntry(c, c[y].link.to);
        LinkStays(c, d, None, None, y);
      }
    }
    CellsOkOf(d);
  }

  lemma KnownEntry(cells: Cells, o: Option<Id>)
    requires Entry(cells, o)
    ensures o.Some? ==> o.value in cells && !cells[o.value].root
  {}

  /** Puts `q` behind `h`, linked to what `h` was linked to; `h` is then linked to `q`, or, if `q` is a
      root, to nothing. */
  ghost predicate Inserts(c: Cells, d: Cells, h: Id, q: Id, cell: Cell, link: Ptr) {
    && h in c && !Deleted(c, h) && q !in c && Behind(c, h, cell.rank)
    && cell.link == Ptr(c[h].link.to, Plain) && link.tag != Second && link.to == (if cell.root then None else Some(q))
    && d == Relink(c, h, link)[q := cell]
  }

  lemma InsertEvolves(c: Cells, d: Cells, h: Id, q: Id, cell: Cell, link: Ptr)
    requires Inserts(c, d, h, q, cell, link)
    ensures Evolves(c, d, Some(h), Some(q)) && d.Keys == c.Keys + {q} && d[q] == cell
    ensures d[h].link == link && d[h].rank == c[h].rank && d[h].root == c[h].root
    ensures forall y :: y in c && y != h ==> d[y] == c[y]
  {
    hide Behind;
  }

  /** Directly behind `h` there is nothing but the new cell. */
  lemma InsertHead(c: Cells, d: Cells, h: Id, q: Id, cell: Cell, link: Ptr)
    requires Inserts(c, d, h, q, cell, link)
    ensures LinkOk(d, h)
  {
    InsertEvolves(c, d, h, q, cell, link);
    if cell.root {
      forall x | x in d && d[h].rank < d[x].rank
        ensures !Open(d, d[h].rank, d[x].rank)
      {
        assert d[q].root;
      }
    }
    hide Evolves;
  }

  /** The new cell takes over what `h` was linked to. */
  lemma InsertCell(c: Cells, d: Cells, h: Id, q: Id, cell: Cell, link: Ptr)
    requires Inserts(c, d, h, q, cell, link) && LinkOk(c, h)
    ensures LinkOk(d, q)
  {
    InsertEvolves(c, d, h, q, cell, link);
    var to := c[h].link.to;
    forall x | x in d && d[q].rank < d[x].rank
      && if to.Some? then d[x].rank < d[to.value].rank else Open(d, d[q].rank, d[x].rank)
      ensures Deleted(d, x)
    {
      if to.None? { OpenFrom(c, d, h, q, d[x].rank); }
      assert Deleted(c, x);
    }
    hide Evolves, Open;
  }

  /** There is no root between `h` and the new cell. */
  lemma OpenFrom(c: Cells, d: Cells, h: Id, q: Id, b: real)
    requires Evolves(c, d, Some(h), Some(q)) && Open(d, d[q].rank, b)
    ensures Open(c, c[h].rank, b)
  {
    hide Deleted;
  }

  lemma InsertCells(c: Cells, d: Cells, h: Id, q: Id, cell: Cell, link: Ptr)
    requires CellsOk(c) && Inserts(c, d, h, q, cell, link) && h in c
    ensures CellsOk(d) && Evolves(c, d, Some(h), Some(q))
  {
    InsertEvolves(c, d, h, q, cell, link);
    hide *;
    LinkOf(c, h);
    InsertHead(c, d, h, q, cell, link);
    InsertCell(c, d, h, q, cell, link);
    DistinctStays(c, d, Some(h), Some(q));
    RootedStays(c, d, Some(h), Some(q));
    forall y | y in d
      ensures LinkOk(d, y)
    {
      if y != h && y != q {
        LinkOf(c, y);
        KnownEntry(c, c[y].link.to);
        LinkStays(c, d, Some(h), Some(q), y);
      }
    }
    CellsOkOf(d);
  }

  /** A new root comes last. */
  lemma RootCells(c: Cells, d: Cells, r: Id, rank: real)
    requires CellsOk(c) && r !in c && Last(c, rank) && d == c[r := Cell(NULL, rank, true)]
    ensures CellsOk(d) && Evolves(c, d, None, Some(r))
  {
    assert Evolves(c, d, None, Some(r)) by { hide CellsOk; }
    assert LinkOk(d, r) by { hide CellsOk, Evolves; }
    hide *;
    forall y | y in d
      ensures LinkOk(d, y)
    {
      if y != r {
        LinkOf(c, y);
        KnownEntry(c, c[y].link.to);
        LinkStays(c, d, None, Some(r), y);
      }
    }
    LastOk(c, d, r);
  }

  lemma LastOk(c: Cells, d: Cells, r: Id)
    requires CellsOk(c) && Evolves(c, d, None, Some(r)) && r in d && d[r].root
    requires forall y :: y in d ==> LinkOk(d, y)
    ensures CellsOk(d)
  {
    hide LinkOk, Distinct, Rooted, Evolves;
    DistinctStays(c, d, None, Some(r));
    RootedStays(c, d, None, Some(r));
  }

  /** An entry to which no link leads disappears. */
  lemma DestroyCells(c: Cells, d: Cells, x: Id)
    requires CellsOk(c) && x in c && !c[x].root && d == c - {x} && forall y :: y in c ==> c[y].link.to != Some(x)
    ensures CellsOk(d) && Evolves(c, d, None, None)
  {
    assert Evolves(c, d, None, None) by { hide CellsOk; }
    hide *;
    forall y | y in d
      ensures LinkOk(d, y)
    {
      LinkOf(c, y);
      KnownEntry(c, c[y].link.to);
      LinkStays(c, d, None, None, y);
    }
    DestroyOk(c, d);
  }

  lemma DestroyOk(c: Cells, d: Cells)
    requires CellsOk(c) && Evolves(c, d, None, None) && forall y :: y in d ==> LinkOk(d, y)
    ensures CellsOk(d)
  {
    hide LinkOk, Distinct, Rooted, Evolves;
    DistinctStays(c, d, None, None);
    RootedStays(c, d, None, None);
  }
}
