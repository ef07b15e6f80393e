/** Invariants of the list: links never skip an entry that is not deleted, and what a traversal has
    learnt stays true whatever others do. */
module ChainOrder {
  import opened Base
  import opened Chain

  // ---------------------------------------------------------------- positions

  /** No root lies behind `a`, up to `b`. */
  ghost predicate Open(cells: Cells, a: real, b: real) {
    forall r :: r in cells && cells[r].root ==> !(a < cells[r].rank <= b)
  }

  /** Behind `a`, every cell in front of `to` is deleted; if `to` is null, every cell in front of the
      next root. */
  ghost predicate Gap(cells: Cells, a: real, to: Option<Id>) {
    match to
    case Some(m) => m in cells && forall x :: x in cells && a < cells[x].rank < cells[m].rank ==> Deleted(cells, x)
    case None => forall x :: x in cells && a < cells[x].rank && Open(cells, a, cells[x].rank) ==> Deleted(cells, x)
  }

  /** A link leads forward, to no root, and skips only deleted entries. */
  ghost predicate LinkOk(cells: Cells, c: Id)
    requires c in cells
  {
    var to := cells[c].link.to;
    && (to.Some? ==> to.value in cells && !cells[to.value].root && cells[c].rank < cells[to.value].rank)
    && Gap(cells, cells[c].rank, to)
  }

  ghost predicate Linked(cells: Cells) { forall c :: c in cells ==> LinkOk(cells, c) }

  ghost predicate Distinct(cells: Cells) {
    forall x, y :: x in cells && y in cells && cells[x].rank == cells[y].rank ==> x == y
  }

  predicate RootBelow(cells: Cells, x: Id, r: Id)
    requires x in cells
  {
    r in cells && cells[r].root && cells[r].rank < cells[x].rank
  }

  /** Every entry lies behind some root. */
  ghost predicate Rooted(cells: Cells) {
    forall x :: x in cells && !cells[x].root ==> exists r :: RootBelow(cells, x, r)
  }

  ghost predicate CellsOk(cells: Cells) { Linked(cells) && Distinct(cells) && Rooted(cells) }

  /** From `x` on, everything in front of `to` is deleted. */
  ghost predicate Span(cells: Cells, x: Option<Id>, to: Option<Id>) {
    x == to || (x.Some? && Deleted(cells, x.value) && Gap(cells, cells[x.value].rank, to)
                && (to.Some? ==> to.value in cells && cells[x.value].rank < cells[to.value].rank))
  }

  lemma SpanTrans(cells: Cells, a: Option<Id>, b: Option<Id>, c: Option<Id>)
    requires Distinct(cells) && Span(cells, a, b) && Span(cells, b, c)
    ensures Span(cells, a, c)
  {
    if a != b && b != c {
      var ra, rb := cells[a.value].rank, cells[b.value].rank;
      if c.None? {
        forall x | x in cells && ra < cells[x].rank && Open(cells, ra, cells[x].rank)
          ensures Deleted(cells, x)
        {
          if cells[x].rank > rb { assert Open(cells, rb, cells[x].rank); }
        }
      }
    }
  }

  /** A deleted entry and its link. */
  lemma SpanLink(cells: Cells, n: Id)
    requires Deleted(cells, n) && LinkOk(cells, n)
    ensures Span(cells, Some(n), cells[n].link.to)
  {
    hide Gap;
  }

  /** Moving a link over deleted entries. */
  lemma LinkOver(cells: Cells, h: Id, to: Option<Id>)
    requires h in cells && LinkOk(cells, h) && Distinct(cells) && Span(cells, cells[h].link.to, to)
    requires to.Some? ==> to.value in cells
    ensures Gap(cells, cells[h].rank, to) && (to.Some? ==> cells[h].rank < cells[to.value].rank)
  {
    var a := cells[h].link.to;
    if a != to {
      var rh, ra := cells[h].rank, cells[a.value].rank;
      if to.None? {
        forall x | x in cells && rh < cells[x].rank && Open(cells, rh, cells[x].rank)
          ensures Deleted(cells, x)
        {
          if cells[x].rank > ra { assert Open(cells, ra, cells[x].rank); }
        }
      }
    }
  }

  // ---------------------------------------------------------------- how cells change

  /** From `c` to `d` cells keep their place, deletion is final, only entries disappear, and at most
      cell `q` is new: behind the cell `h`, which is not deleted, or last, as a root. */
  ghost predicate Evolves(c: Cells, d: Cells, h: Option<Id>, q: Option<Id>) {
    && (forall x :: x in c && x in d ==>
          d[x].rank == c[x].rank && d[x].root == c[x].root && (Deleted(c, x) ==> Deleted(d, x)))
    && (forall x :: x in c && x !in d ==> !c[x].root)
    && (forall x :: x in d && x !in c ==> q == Some(x))
    && (h.Some? ==> h.value in c && !Deleted(c, h.value))
    && (q.Some? ==>
          q.value !in c && q.value in d
          && if h.Some? then Behind(c, h.value, d[q.value].rank) else Last(c, d[q.value].rank) && d[q.value].root)
  }

  lemma OpenStays(c: Cells, d: Cells, h: Option<Id>, q: Option<Id>, a: real, b: real)
    requires Evolves(c, d, h, q) && Open(d, a, b)
    ensures Open(c, a, b)
  {
    hide Deleted, Behind, Last;
  }

  /** If there is no root up to the new cell, there was none up to the cell in front of it. */
  lemma OpenUpTo(c: Cells, d: Cells, h: Option<Id>, q: Id, a: real)
    requires Evolves(c, d, h, Some(q)) && h.Some? && a < c[h.value].rank
    ensures Open(d, a, d[q].rank) ==> Open(c, a, c[h.value].rank) && !c[h.value].root
  {
    if Open(d, a, d[q].rank) { OpenStays(c, d, h, Some(q), a, d[q].rank); }
  }

  /** A new cell is never put into a gap. */
  lemma NotInGap(c: Cells, d: Cells, h: Option<Id>, q: Id, u: Id, to: Option<Id>)
    requires Evolves(c, d, h, Some(q)) && Distinct(c) && u in c && Some(u) != h && Gap(c, c[u].rank, to)
    requires c[u].rank < d[q].rank && (to.Some? ==> to.value in d && d[q].rank < d[to.value].rank)
    ensures to.None? && !Open(d, c[u].rank, d[q].rank)
  {
    if h.Some? {
      assert c[u].rank < c[h.value].rank < d[q].rank;
      OpenUpTo(c, d, h, q, c[u].rank);
    }
  }

  /** Gaps stay gaps. */
  lemma GapStays(c: Cells, d: Cells, h: Option<Id>, q: Option<Id>, u: Id, to: Option<Id>)
    requires Evolves(c, d, h, q) && Distinct(c) && u in c && Some(u) != h && Gap(c, c[u].rank, to)
    requires to.Some? ==> to.value in d
    ensures Gap(d, c[u].rank, to)
  {
    var a := c[u].rank;
    forall x | x in d && a < d[x].rank && (if to.Some? then d[x].rank < d[to.value].rank else Open(d, a, d[x].rank))
      ensures Deleted(d, x)
    {
      if x in c {
        if to.None? { OpenStays(c, d, h, q, a, d[x].rank); }
      } else {
        NotInGap(c, d, h, x, u, to);
      }
    }
  }

  lemma SpanStays(c: Cells, d: Cells, h: Option<Id>, q: Option<Id>, x: Option<Id>, to: Option<Id>)
    requires Evolves(c, d, h, q) && Distinct(c) && Span(c, x, to)
    requires (x.Some? ==> x.value in d) && (to.Some? ==> to.value in d)
    ensures Span(d, x, to)
  {
    if x != to { GapStays(c, d, h, q, x.value, to); }
    hide Gap, Open, Behind, Last;
  }

  lemma LinkStays(c: Cells, d: Cells, h: Option<Id>, q: Option<Id>, x: Id)
    requires Evolves(c, d, h, q) && Distinct(c) && x in c && x in d && LinkOk(c, x) && Some(x) != h
    requires d[x].link.to == c[x].link.to && (c[x].link.to.Some? ==> c[x].link.to.value in d)
    ensures LinkOk(d, x)
  {
    GapStays(c, d, h, q, x, c[x].link.to);
    hide Gap, Open, Behind, Last;
  }

  lemma DistinctStays(c: Cells, d: Cells, h: Option<Id>, q: Option<Id>)
    requires Evolves(c, d, h, q) && Distinct(c)
    ensures Distinct(d)
  {
    hide Deleted;
  }

  lemma RootedStays(c: Cells, d: Cells, h: Option<Id>, q: Option<Id>)
    requires Evolves(c, d, h, q) && Rooted(c) && (q.Some? ==> d[q.value].root || h.Some?)
    ensures Rooted(d)
  {
    forall x | x in d && !d[x].root
      ensures exists r :: RootBelow(d, x, r)
    {
      if x in c {
        var r :| RootBelow(c, x, r);
        assert RootBelow(d, x, r);
      } else if c[h.value].root {
        assert RootBelow(d, x, h.value);
      } else {
        var r :| RootBelow(c, h.value, r);
        assert RootBelow(d, x, r);
      }
    }
  }

  // ---------------------------------------------------------------- what operations know

  /** A pointer to an entry that is there, or null. */
  predicate Entry(cells: Cells, o: Option<Id>) { o.Some? ==> o.value in cells && !cells[o.value].root }

  /** What an activation has learnt: everything from `seen` to its cursor is deleted; and if it has seen
      its own head deleted, nothing can have come in between head and `seen`. */
  ghost predicate FrameOk(cells: Cells, f: Frame) {
    && f.head in cells && Entry(cells, f.seen.to)
    && (match f.stage
        case Looking(next) => Entry(cells, next.to) && Span(cells, f.seen.to, next.to)
        case Found(valid) => Entry(cells, valid.to) && Span(cells, f.seen.to, valid.to)
        case Holding(valid) => Entry(cells, valid.to) && Span(cells, f.seen.to, valid.to)
        case _ => true)
    && (!f.stage.Loading? && f.seen.tag == Second && !cells[f.head].root ==> Span(cells, Some(f.head), f.seen.to))
  }

  /** The head of this activation is known to be deleted. */
  ghost predicate Certain(cells: Cells, f: Frame) {
    Deleted(cells, f.head) && (f.stage.Loading? || f.seen.tag == Second)
  }

  /** Activation `i`: all but the innermost wait for the next one, which began at a deleted entry. */
  ghost predicate FrameAt(cells: Cells, goal: Goal, frames: seq<Frame>, i: nat)
    requires i < |frames|
  {
    && FrameOk(cells, frames[i]) && (frames[i].stage.Calling? <==> i < |frames| - 1)
    && (i > 0 ==> Certain(cells, frames[i]) && Span(cells, frames[i - 1].seen.to, Some(frames[i].head)))
    && (i == 0 && goal.ForRoot? ==> Certain(cells, frames[0]) && Span(cells, Some(goal.gone), Some(frames[0].head)))
  }

  ghost predicate FramesOk(cells: Cells, goal: Goal, frames: seq<Frame>) {
    frames != [] && forall i :: 0 <= i < |frames| ==> FrameAt(cells, goal, frames, i)
  }

  ghost predicate GoalOk(cells: Cells, goal: Goal) {
    goal.ForRoot? ==> goal.root in cells && cells[goal.root].root && Deleted(cells, goal.gone)
  }

  ghost predicate OpOk(cells: Cells, dead: set<Id>, op: Op) {
    && (Held(op).Some? ==> Held(op).value in cells && Held(op).value !in dead)
    && match op
       case Insert(head, seen, tag) =>
         head in cells && Chain.Known(cells, seen.to) && seen.tag != Second && tag != Second
       case InsertTry(head, seen, tag, held) =>
         && head in cells && Chain.Known(cells, seen.to) && seen.tag != Second && tag != Second
         && (held == seen.to || (held.None? && seen.to.Some? && seen.to.value in dead))
       case Walk(goal, frames) => GoalOk(cells, goal) && FramesOk(cells, goal, frames)
       case Walked(goal, valid) =>
         GoalOk(cells, goal) && Entry(cells, valid.to) && (goal.ForRoot? ==> Span(cells, Some(goal.gone), valid.to))
       case Swing(root, gone, held) =>
         && root in cells && cells[root].root && Deleted(cells, gone)
         && Entry(cells, held) && Span(cells, Some(gone), held)
       case Pop(root, entry) => root in cells && entry in cells
       case Done => true
  }

  /** The cells an operation refers to are there. */
  predicate Has(cells: Cells, refs: set<Id>) { forall x :: x in refs ==> x in cells }

  lemma FrameStays(c: Cells, d: Cells, h: Option<Id>, q: Option<Id>, f: Frame)
    requires Evolves(c, d, h, q) && Distinct(c) && FrameOk(c, f) && Has(d, FrameRefs(f))
    ensures FrameOk(d, f)
  {
    assert f.head in FrameRefs(f) && (f.seen.to.Some? ==> f.seen.to.value in FrameRefs(f));
    match f.stage
    case Looking(next) =>
      assert next.to.Some? ==> next.to.value in FrameRefs(f);
      hide FrameRefs;
      SpanStays(c, d, h, q, f.seen.to, next.to);
      SureStays(c, d, h, q, f);
    case Found(valid) =>
      assert valid.to.Some? ==> valid.to.value in FrameRefs(f);
      hide FrameRefs;
      SpanStays(c, d, h, q, f.seen.to, valid.to);
      SureStays(c, d, h, q, f);
    case Holding(valid) =>
      assert valid.to.Some? ==> valid.to.value in FrameRefs(f);
      hide FrameRefs;
      SpanStays(c, d, h, q, f.seen.to, valid.to);
      SureStays(c, d, h, q, f);
    case Calling =>
      hide FrameRefs;
      SureStays(c, d, h, q, f);
    case Loading =>
  }

  lemma SureStays(c: Cells, d: Cells, h: Option<Id>, q: Option<Id>, f: Frame)
    requires Evolves(c, d, h, q) && Distinct(c) && f.head in c && f.head in d && Chain.Known(d, f.seen.to)
    requires f.seen.tag == Second && !c[f.head].root ==> Span(c, Some(f.head), f.seen.to)
    ensures f.seen.tag == Second && !d[f.head].root ==> Span(d, Some(f.head), f.seen.to)
  {
    if f.seen.tag == Second && !c[f.head].root { SpanStays(c, d, h, q, Some(f.head), f.seen.to); }
    hide Span, Open, Behind, Last;
  }

  lemma CertainStays(c: Cells, d: Cells, h: Option<Id>, q: Option<Id>, f: Frame)
    requires Evolves(c, d, h, q) && Certain(c, f) && f.head in d
    ensures Certain(d, f)
  {
    hide Behind, Last;
  }

  lemma FramesHave(cells: Cells, goal: Goal, frames: seq<Frame>, i: nat)
    requires Has(cells, Refs(Walk(goal, frames))) && i < |frames|
    ensures Has(cells, FrameRefs(frames[i])) && frames[i].head in cells && Chain.Known(cells, frames[i].seen.to)
    ensures goal.ForRoot? ==> goal.root in cells && goal.gone in cells
  {
    forall x | x in FrameRefs(frames[i])
      ensures x in cells
    {
      assert frames[i] in frames;
      assert x in Refs(Walk(goal, frames));
    }
    assert goal.ForRoot? ==> goal.root in Refs(Walk(goal, frames)) && goal.gone in Refs(Walk(goal, frames));
    assert frames[i].head in FrameRefs(frames[i]);
    assert frames[i].seen.to.Some? ==> frames[i].seen.to.value in FrameRefs(frames[i]);
  }

  lemma FrameAtStays(c: Cells, d: Cells, h: Option<Id>, q: Option<Id>, goal: Goal, frames: seq<Frame>, i: nat)
    requires Evolves(c, d, h, q) && Distinct(c) && i < |frames| && FrameAt(c, goal, frames, i)
    requires Has(d, Refs(Walk(goal, frames)))
    ensures FrameAt(d, goal, frames, i)
  {
    hide *;
    FrameAtIs(c, goal, frames, i);
    FrameAtIs(d, goal, frames, i);
    FramesHave(d, goal, frames, i);
    FrameStays(c, d, h, q, frames[i]);
    if i > 0 {
      FramesHave(d, goal, frames, i - 1);
      KnownIs(d, frames[i - 1].seen.to);
      KnownIs(d, Some(frames[i].head));
      CertainStays(c, d, h, q, frames[i]);
      SpanStays(c, d, h, q, frames[i - 1].seen.to, Some(frames[i].head));
    } else if goal.ForRoot? {
      KnownIs(d, Some(goal.gone));
      CertainStays(c, d, h, q, frames[0]);
      SpanStays(c, d, h, q, Some(goal.gone), Some(frames[0].head));
    }
  }

  lemma KnownIs(cells: Cells, o: Option<Id>)
    ensures Chain.Known(cells, o) <==> (o.Some? ==> o.value in cells)
  {}

  lemma FrameAtIs(cells: Cells, goal: Goal, frames: seq<Frame>, i: nat)
    requires i < |frames|
    ensures FrameAt(cells, goal, frames, i) <==>
      && FrameOk(cells, frames[i]) && (frames[i].stage.Calling? <==> i < |frames| - 1)
      && (i > 0 ==> Certain(cells, frames[i]) && Span(cells, frames[i - 1].seen.to, Some(frames[i].head)))
      && (i == 0 && goal.ForRoot? ==> Certain(cells, frames[0]) && Span(cells, Some(goal.gone), Some(frames[0].head)))
  {
    hide FrameOk, Certain, Span;
  }

  lemma FramesStay(c: Cells, d: Cells, h: Option<Id>, q: Option<Id>, goal: Goal, frames: seq<Frame>)
    requires Evolves(c, d, h, q) && Distinct(c) && FramesOk(c, goal, frames) && Has(d, Refs(Walk(goal, frames)))
    ensures FramesOk(d, goal, frames)
  {
    hide FrameAt, Evolves, Distinct, Has;
    forall i | 0 <= i < |frames|
      ensures FrameAt(d, goal, frames, i)
    {
      FrameAtStays(c, d, h, q, goal, frames, i);
    }
  }

  lemma GoalStays(c: Cells, d: Cells, h: Option<Id>, q: Option<Id>, goal: Goal)
    requires Evolves(c, d, h, q) && GoalOk(c, goal) && Has(d, GoalRefs(goal))
    ensures GoalOk(d, goal)
  {
    hide Behind, Last;
  }

  /** What an operation knows stays true when others act, as long as the cells it refers to are there,
      and those it holds do not die. */
  lemma OpStays(c: Cells, dead: set<Id>, d: Cells, dead': set<Id>, h: Option<Id>, q: Option<Id>, op: Op)
    requires Evolves(c, d, h, q) && Distinct(c) && OpOk(c, dead, op) && Has(d, Refs(op))
    requires forall x :: x in dead && x in Refs(op) ==> x in dead'
    requires Held(op).Some? ==> Held(op).value in d && Held(op).value !in dead'
    ensures OpOk(d, dead', op)
  {
    match op
    case Walk(goal, frames) =>
      assert Has(d, GoalRefs(goal)) by { assert GoalRefs(goal) <= Refs(op); }
      hide Evolves, Distinct, FramesOk, GoalOk, Refs, Span;
      FramesStay(c, d, h, q, goal, frames);
      GoalStays(c, d, h, q, goal);
    case Walked(goal, valid) =>
      assert Has(d, GoalRefs(goal)) by { assert GoalRefs(goal) <= Refs(op); }
      assert Chain.Known(d, valid.to) && (goal.ForRoot? ==> goal.gone in d);
      hide Evolves, Distinct, Span, GoalOk, Refs;
      GoalStays(c, d, h, q, goal);
      if goal.ForRoot? { SpanStays(c, d, h, q, Some(goal.gone), valid.to); }
    case Swing(root, gone, held) =>
      assert root in d && gone in d && Chain.Known(d, held);
      SpanStays(c, d, h, q, Some(gone), held);
      hide Behind, Last, Span;
    case Insert(head, seen, tag) => assert head in d && Chain.Known(d, seen.to); hide Evolves;
    case InsertTry(head, seen, tag, held) => assert head in d && Chain.Known(d, seen.to); hide Evolves;
    case Pop(root, entry) => hide Evolves;
    case Done =>
  }
}
