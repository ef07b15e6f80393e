/** Traversals, dead entries and the abstract list: the rest of the invariant of the list machine. */
module ChainSteps {
  import opened Base
  import opened Chain
  import opened ChainOrder
  import opened ChainSafety

  // ---------------------------------------------------------------- traversals

  lemma FrameOf(cells: Cells, goal: Goal, rest: seq<Frame>, top: Frame)
    requires FramesOk(cells, goal, rest + [top])
    ensures FrameOk(cells, top) && (rest != [] || goal.ForRoot? ==> Certain(cells, top))
    ensures rest != [] ==> FrameOk(cells, rest[|rest| - 1]) && Span(cells, rest[|rest| - 1].seen.to, Some(top.head))
    ensures rest == [] && goal.ForRoot? ==> Span(cells, Some(goal.gone), Some(top.head))
  {
    assert FrameAt(cells, goal, rest + [top], |rest|);
    if rest != [] { assert FrameAt(cells, goal, rest + [top], |rest| - 1); }
    hide FrameOk, Certain, Span;
  }

  /** The innermost activation goes on. */
  lemma Replaces(cells: Cells, goal: Goal, rest: seq<Frame>, top: Frame, next: Frame)
    requires FramesOk(cells, goal, rest + [top]) && next.head == top.head && FrameOk(cells, next)
    requires !next.stage.Calling?
    requires Certain(cells, top) ==> Certain(cells, next)
    ensures FramesOk(cells, goal, rest + [next])
  {
    var f, g := rest + [top], rest + [next];
    hide FrameOk, Certain, Span;
    forall i | 0 <= i < |g|
      ensures FrameAt(cells, goal, g, i)
    {
      assert FrameAt(cells, goal, f, i);
      assert i < |rest| ==> g[i] == f[i];
      assert 0 < i ==> g[i - 1] == f[i - 1];
    }
  }

  /** It calls itself on a deleted successor. */
  lemma Pushes(cells: Cells, goal: Goal, rest: seq<Frame>, top: Frame, next: Frame, callee: Frame)
    requires FramesOk(cells, goal, rest + [top]) && next.head == top.head && FrameOk(cells, next) && next.stage.Calling?
    requires Certain(cells, top) ==> Certain(cells, next)
    requires FrameOk(cells, callee) && Certain(cells, callee) && Span(cells, next.seen.to, Some(callee.head))
    requires !callee.stage.Calling?
    ensures FramesOk(cells, goal, rest + [next, callee])
  {
    var f, g := rest + [top], rest + [next, callee];
    hide FrameOk, Certain, Span;
    forall i | 0 <= i < |g|
      ensures FrameAt(cells, goal, g, i)
    {
      if i <= |rest| {
        assert FrameAt(cells, goal, f, i);
        assert i < |rest| ==> g[i] == f[i];
        assert 0 < i ==> g[i - 1] == f[i - 1];
      }
    }
  }

  /** It returns to its caller. */
  lemma Pops(cells: Cells, goal: Goal, rest: seq<Frame>, top: Frame, valid: Ptr)
    requires FramesOk(cells, goal, rest + [top]) && rest != []
    requires Entry(cells, valid.to) && Span(cells, rest[|rest| - 1].seen.to, valid.to)
    ensures FramesOk(cells, goal, rest[..|rest| - 1] + [rest[|rest| - 1].(stage := Found(valid))])
  {
    var n := |rest| - 1;
    var f, g := rest + [top], rest[..n] + [rest[n].(stage := Found(valid))];
    assert FrameAt(cells, goal, f, n);
    FrameFinds(cells, f[n], valid);
    hide Span, FrameOk, Certain;
    forall i | 0 <= i < |g|
      ensures FrameAt(cells, goal, g, i)
    {
      assert FrameAt(cells, goal, f, i);
      assert i < n ==> g[i] == f[i];
      assert 0 < i ==> g[i - 1] == f[i - 1];
    }
  }

  lemma FrameFinds(cells: Cells, f: Frame, valid: Ptr)
    requires FrameOk(cells, f) && f.stage.Calling? && Entry(cells, valid.to) && Span(cells, f.seen.to, valid.to)
    ensures var g := f.(stage := Found(valid)); FrameOk(cells, g) && (Certain(cells, f) ==> Certain(cells, g))
  {
    hide Span;
  }

  /** What the result of an activation means for its caller: all that lies between `from`, which leads
      to the head of the activation, and the result, is deleted. */
  lemma Learns(cells: Cells, from: Option<Id>, top: Frame, valid: Ptr)
    requires Distinct(cells) && FrameOk(cells, top) && Certain(cells, top)
    requires top.stage == Found(valid) || top.stage == Holding(valid)
    requires Span(cells, from, Some(top.head))
    ensures Span(cells, from, valid.to)
  {
    hide Span;
    SpanTrans(cells, Some(top.head), top.seen.to, valid.to);
    SpanTrans(cells, from, Some(top.head), valid.to);
  }

  lemma Returns(cells: Cells, dead: set<Id>, goal: Goal, rest: seq<Frame>, top: Frame, valid: Ptr)
    requires Distinct(cells) && GoalOk(cells, goal) && FramesOk(cells, goal, rest + [top])
    requires top.stage == Found(valid) || top.stage == Holding(valid)
    ensures OpOk(cells, dead, Return(goal, rest, valid))
  {
    hide *;
    FrameOf(cells, goal, rest, top);
    EntryFound(cells, top, valid);
    ReturnIs(goal, rest, valid);
    if rest != [] {
      var n := |rest| - 1;
      var caller := rest[n].(stage := Found(valid));
      Learns(cells, rest[n].seen.to, top, valid);
      Pops(cells, goal, rest, top, valid);
      assert (rest[..n] + [caller])[|rest[..n] + [caller]| - 1] == caller;
      WalkIs(cells, dead, goal, rest[..n] + [caller]);
    } else {
      if goal.ForRoot? { Learns(cells, Some(goal.gone), top, valid); }
      ResultIs(cells, dead, goal, valid);
    }
  }

  lemma EntryFound(cells: Cells, top: Frame, valid: Ptr)
    requires FrameOk(cells, top) && (top.stage == Found(valid) || top.stage == Holding(valid))
    ensures Entry(cells, valid.to)
  {
    hide Span, Entry;
  }

  lemma ReturnIs(goal: Goal, rest: seq<Frame>, valid: Ptr)
    ensures Return(goal, rest, valid) ==
      if rest == [] then Walked(goal, valid)
      else Walk(goal, rest[..|rest| - 1] + [rest[|rest| - 1].(stage := Found(valid))])
  {}

  lemma ResultIs(cells: Cells, dead: set<Id>, goal: Goal, valid: Ptr)
    requires GoalOk(cells, goal) && Entry(cells, valid.to) && (goal.ForRoot? ==> Span(cells, Some(goal.gone), valid.to))
    ensures OpOk(cells, dead, Walked(goal, valid))
  {
    hide GoalOk, Entry, Span;
  }

  /** Loading the head's link. */
  lemma Loads(cells: Cells, top: Frame, link: Ptr)
    requires CellsOk(cells) && top.head in cells && link == cells[top.head].link
    ensures FrameOk(cells, top.(seen := link, stage := Looking(link)))
    ensures Deleted(cells, top.head) ==> Certain(cells, top.(seen := link, stage := Looking(link)))
  {
    LinkOf(cells, top.head);
    if Deleted(cells, top.head) { SpanLink(cells, top.head); }
    hide CellsOk, LinkOk, Distinct, Rooted, Gap;
  }

  /** Moving the cursor over a deleted entry. */
  lemma Looks(cells: Cells, top: Frame, n: Id)
    requires CellsOk(cells) && FrameOk(cells, top) && top.stage.Looking? && top.stage.next.to == Some(n)
    requires Deleted(cells, n)
    ensures FrameOk(cells, top.(stage := Looking(cells[n].link)))
  {
    LinkOf(cells, n);
    SpanLink(cells, n);
    hide CellsOk, LinkOk, Rooted, Gap, Span;
    SpanTrans(cells, top.seen.to, Some(n), cells[n].link.to);
  }

  lemma Calls(cells: Cells, goal: Goal, rest: seq<Frame>, top: Frame, n: Id)
    requires FramesOk(cells, goal, rest + [top]) && top.stage.Looking? && top.stage.next.to == Some(n)
    requires Deleted(cells, n)
    requires top.depth > 0
    ensures FramesOk(cells, goal, rest + [top.(depth := 0, stage := Calling), NewFrame(n, top.depth - 1)])
  {
    FrameOf(cells, goal, rest, top);
    var next, callee := top.(depth := 0, stage := Calling), NewFrame(n, top.depth - 1);
    assert FrameOk(cells, next) && FrameOk(cells, callee) && Certain(cells, callee);
    assert Certain(cells, top) ==> Certain(cells, next);
    assert Span(cells, next.seen.to, Some(n));
    hide FramesOk, FrameOk, Span, Certain;
    Pushes(cells, goal, rest, top, next, callee);
  }

  /** `Found` and `Holding` only repeat what `Looking` knows. */
  lemma SameKnowledge(cells: Cells, top: Frame, next: Frame)
    requires FrameOk(cells, top) && next.head == top.head && next.seen == top.seen
    requires match next.stage
      case Loading => true
      case Found(valid) => top.stage.Looking? && top.stage.next.to == valid.to
      case Holding(valid) => top.stage == Found(valid)
      case _ => false
    ensures FrameOk(cells, next) && (Certain(cells, top) && !top.stage.Loading? ==> Certain(cells, next))
  {
    hide Span;
  }

  lemma WalkIs(cells: Cells, dead: set<Id>, goal: Goal, frames: seq<Frame>)
    requires GoalOk(cells, goal) && FramesOk(cells, goal, frames) && frames != []
    requires var stage := frames[|frames| - 1].stage;
      stage.Holding? && stage.valid.to.Some? ==> stage.valid.to.value in cells && stage.valid.to.value !in dead
    ensures OpOk(cells, dead, Walk(goal, frames))
  {
    hide GoalOk, FramesOk;
  }

  lemma Continues(cells: Cells, dead: set<Id>, goal: Goal, rest: seq<Frame>, top: Frame, next: Frame)
    requires GoalOk(cells, goal) && FramesOk(cells, goal, rest + [top]) && next.head == top.head && FrameOk(cells, next)
    requires !next.stage.Calling? && (Certain(cells, top) ==> Certain(cells, next))
    requires next.stage.Holding? && next.stage.valid.to.Some? ==>
      next.stage.valid.to.value in cells && next.stage.valid.to.value !in dead
    ensures OpOk(cells, dead, Walk(goal, rest + [next]))
  {
    hide *;
    Replaces(cells, goal, rest, top, next);
    assert (rest + [next])[|rest + [next]| - 1] == next;
    WalkIs(cells, dead, goal, rest + [next]);
  }

  lemma HeadOf(cells: Cells, top: Frame)
    requires FrameOk(cells, top)
    ensures top.head in cells && (top.stage.Looking? ==> Entry(cells, top.stage.next.to))
    ensures top.stage.Found? ==> Entry(cells, top.stage.valid.to)
  {
    hide Span, Entry;
  }

  lemma CertainIs(cells: Cells, f: Frame)
    ensures Certain(cells, f) <==> Deleted(cells, f.head) && (f.stage.Loading? || f.seen.tag == Second)
  {}

  /** The head's link is loaded, or loaded again after the compare-exchange has failed. */
  lemma AfterLoad(cells: Cells, dead: set<Id>, goal: Goal, rest: seq<Frame>, top: Frame, link: Ptr)
    requires CellsOk(cells) && GoalOk(cells, goal) && FramesOk(cells, goal, rest + [top])
    requires top.head in cells && link == cells[top.head].link
    ensures OpOk(cells, dead, Walk(goal, rest + [top.(seen := link, stage := Looking(link))]))
  {
    hide *;
    Loads(cells, top, link);
    CertainIs(cells, top);
    Continues(cells, dead, goal, rest, top, top.(seen := link, stage := Looking(link)));
  }

  /** The pointer to return is known, and its entry is held or must be looked for again. */
  lemma AfterFound(cells: Cells, dead: set<Id>, goal: Goal, rest: seq<Frame>, top: Frame, next: Frame)
    requires GoalOk(cells, goal) && FramesOk(cells, goal, rest + [top]) && next.head == top.head
    requires next.seen == top.seen
    requires match next.stage
      case Loading => true
      case Found(valid) => top.stage.Looking? && top.stage.next.to == valid.to
      case Holding(valid) => top.stage == Found(valid) && (valid.to.Some? ==> valid.to.value !in dead)
      case _ => false
    requires !top.stage.Loading?
    ensures OpOk(cells, dead, Walk(goal, rest + [next]))
  {
    hide *;
    FrameOf(cells, goal, rest, top);
    HeadOf(cells, top);
    SameKnowledge(cells, top, next);
    if next.stage.Holding? { KnownEntry(cells, next.stage.valid.to); }
    Continues(cells, dead, goal, rest, top, next);
  }

  lemma AfterLook(cells: Cells, dead: set<Id>, goal: Goal, rest: seq<Frame>, top: Frame, n: Id)
    requires CellsOk(cells) && GoalOk(cells, goal) && FramesOk(cells, goal, rest + [top])
    requires top.stage.Looking? && top.stage.next.to == Some(n) && Deleted(cells, n) && n in cells
    ensures OpOk(cells, dead, Walk(goal, rest + [top.(stage := Looking(cells[n].link))]))
  {
    hide *;
    FrameOf(cells, goal, rest, top);
    Looks(cells, top, n);
    CertainIs(cells, top);
    CertainIs(cells, top.(stage := Looking(cells[n].link)));
    Continues(cells, dead, goal, rest, top, top.(stage := Looking(cells[n].link)));
  }

  lemma AfterCall(cells: Cells, dead: set<Id>, goal: Goal, rest: seq<Frame>, top: Frame, n: Id)
    requires GoalOk(cells, goal) && FramesOk(cells, goal, rest + [top])
    requires top.stage.Looking? && top.stage.next.to == Some(n) && Deleted(cells, n) && top.depth > 0
    ensures OpOk(cells, dead, Walk(goal, rest + [top.(depth := 0, stage := Calling), NewFrame(n, top.depth - 1)]))
  {
    var frames := rest + [top.(depth := 0, stage := Calling), NewFrame(n, top.depth - 1)];
    assert frames[|frames| - 1] == NewFrame(n, top.depth - 1);
    assert NewFrame(n, top.depth - 1).stage == Loading;
    hide *;
    Calls(cells, goal, rest, top, n);
    WalkIs(cells, dead, goal, frames);
  }

  lemma IsDeleted(cells: Cells, n: Id)
    ensures n in cells && !cells[n].root ==> (Deleted(cells, n) <==> cells[n].link.tag == Second)
  {}

  lemma WalkLoading(cells: Cells, dead: set<Id>, goal: Goal, rest: seq<Frame>, top: Frame)
    requires CellsOk(cells) && GoalOk(cells, goal) && FramesOk(cells, goal, rest + [top]) && top.stage.Loading?
    requires top.head in cells && (top.stage.Looking? && top.stage.next.to.Some? ==> top.stage.next.to.value in cells)
    ensures OpOk(cells, dead, WalkOn(cells, dead, goal, rest, top).op)
  {
    FrameOf(cells, goal, rest, top);
    HeadOf(cells, top);
    DistinctOf(cells);
    hide CellsOk, GoalOk, FramesOk, FrameOk, Certain, OpOk, Span, Distinct, Return;
    AfterLoad(cells, dead, goal, rest, top, cells[top.head].link);
  }

  lemma WalkLooking(cells: Cells, dead: set<Id>, goal: Goal, rest: seq<Frame>, top: Frame)
    requires CellsOk(cells) && GoalOk(cells, goal) && FramesOk(cells, goal, rest + [top]) && top.stage.Looking?
    requires top.head in cells && (top.stage.Looking? && top.stage.next.to.Some? ==> top.stage.next.to.value in cells)
    ensures OpOk(cells, dead, WalkOn(cells, dead, goal, rest, top).op)
  {
    FrameOf(cells, goal, rest, top);
    HeadOf(cells, top);
    DistinctOf(cells);
    hide CellsOk, GoalOk, FramesOk, FrameOk, Certain, OpOk, Span, Distinct, Return;
    var next := top.stage.next;
    if next.to.None? {
      AfterFound(cells, dead, goal, rest, top, top.(depth := 0, stage := Found(NULL)));
    } else {
      var n := next.to.value;
      if cells[n].link.tag != Second {
        AfterFound(cells, dead, goal, rest, top, top.(depth := 0, stage := Found(next)));
      } else {
        IsDeleted(cells, n);
        if top.depth != 0 {
          AfterCall(cells, dead, goal, rest, top, n);
        } else {
          AfterLook(cells, dead, goal, rest, top, n);
        }
      }
    }
  }

  lemma WalkFound(cells: Cells, dead: set<Id>, goal: Goal, rest: seq<Frame>, top: Frame)
    requires CellsOk(cells) && GoalOk(cells, goal) && FramesOk(cells, goal, rest + [top]) && top.stage.Found?
    requires top.head in cells && (top.stage.Looking? && top.stage.next.to.Some? ==> top.stage.next.to.value in cells)
    ensures OpOk(cells, dead, WalkOn(cells, dead, goal, rest, top).op)
  {
    FrameOf(cells, goal, rest, top);
    HeadOf(cells, top);
    DistinctOf(cells);
    hide CellsOk, GoalOk, FramesOk, FrameOk, Certain, OpOk, Span, Distinct, Return;
    var valid := top.stage.valid;
    if Ptr(valid.to, top.seen.tag) == top.seen {
      Returns(cells, dead, goal, rest, top, valid);
    } else if valid.to.Some? && valid.to.value in dead {
      AfterFound(cells, dead, goal, rest, top, top.(stage := Loading));
    } else {
      AfterFound(cells, dead, goal, rest, top, top.(stage := Holding(valid)));
    }
  }

  lemma WalkHolding(cells: Cells, dead: set<Id>, goal: Goal, rest: seq<Frame>, top: Frame)
    requires CellsOk(cells) && GoalOk(cells, goal) && FramesOk(cells, goal, rest + [top]) && top.stage.Holding?
    requires top.head in cells && (top.stage.Looking? && top.stage.next.to.Some? ==> top.stage.next.to.value in cells)
    ensures OpOk(cells, dead, WalkOn(cells, dead, goal, rest, top).op)
  {
    FrameOf(cells, goal, rest, top);
    HeadOf(cells, top);
    DistinctOf(cells);
    hide CellsOk, GoalOk, FramesOk, FrameOk, Certain, OpOk, Span, Distinct, Return;
    if cells[top.head].link == top.seen {
      Returns(cells, dead, goal, rest, top, top.stage.valid);
    } else {
      AfterLoad(cells, dead, goal, rest, top, cells[top.head].link);
    }
  }

  /** What an activation knows after its next access. */
  lemma WalkKnows(cells: Cells, dead: set<Id>, goal: Goal, rest: seq<Frame>, top: Frame)
    requires CellsOk(cells) && GoalOk(cells, goal) && FramesOk(cells, goal, rest + [top]) && !top.stage.Calling?
    requires top.head in cells && (top.stage.Looking? && top.stage.next.to.Some? ==> top.stage.next.to.value in cells)
    ensures OpOk(cells, dead, WalkOn(cells, dead, goal, rest, top).op)
  {
    hide *;
    match top.stage
    case Loading => WalkLoading(cells, dead, goal, rest, top);
    case Looking(_) => WalkLooking(cells, dead, goal, rest, top);
    case Found(_) => WalkFound(cells, dead, goal, rest, top);
    case Holding(_) => WalkHolding(cells, dead, goal, rest, top);
  }

  lemma DistinctOf(cells: Cells)
    requires CellsOk(cells)
    ensures Distinct(cells)
  {}
}
