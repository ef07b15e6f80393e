/** An operation of the list that is left alone comes to its end, however deep in the deleted entries it is:
    a traversal answers the first entry behind its head that is not deleted, and a clean-up moves the root
    there. */
module ChainAlone {
  import opened Base
  import opened Chain
  import opened ChainOrder
  import opened ChainSafety
  import opened ChainSteps
  import opened ChainInv
  import opened ChainProgress
  import opened ChainTheorems
  import opened ChainAnswers

  /** The next access of an operation. */
  function Next(s: State, k: nat): Action
    requires k < |s.ops|
  {
    match s.ops[k]
    case Walk(_, _) => WalkStep(k)
    case Swing(_, _, _) => TrySwing(k)
    case Pop(_, _) => PopDelete(k)
    case Insert(_, _, _) => Share(k)
    case _ => ShareWalked(k)
  }

  /** The state after `n` accesses of operation `k` alone; a new entry is not linked here. */
  ghost function Alone(s: State, k: nat, n: nat): State
    decreases n
  {
    if n == 0 || k >= |s.ops| || !Can(s, Next(s, k)) then s else Alone(Do(s, Next(s, k)), k, n - 1)
  }

  lemma {:induction false} AloneAdds(s: State, k: nat, a: nat, b: nat)
    ensures Alone(s, k, a + b) == Alone(Alone(s, k, a), k, b)
    decreases a
  {
    hide Can, Do, Next;
    if a != 0 {
      if k < |s.ops| && Can(s, Next(s, k)) {
        AloneAdds(Do(s, Next(s, k)), k, a - 1, b);
        assert Alone(s, k, a + b) == Alone(Do(s, Next(s, k)), k, a + b - 1);
      } else {
        Stuck(s, k, b);
      }
    }
  }

  lemma Stuck(s: State, k: nat, b: nat)
    requires k >= |s.ops| || !Can(s, Next(s, k))
    ensures Alone(s, k, b) == s
  {
    hide Can, Do, Next;
  }

  lemma AloneOne(s: State, k: nat, a: Action)
    requires k < |s.ops| && Next(s, k) == a && Can(s, a)
    ensures Alone(s, k, 1) == Do(s, a)
  {
    hide Can, Do, Next;
    assert Alone(Do(s, a), k, 0) == Do(s, a);
  }

  // ---------------------------------------------------------------- what a traversal leaves as it was

  /** Cells keep their places and tags, and those in front of `a` also their links. */
  ghost predicate Kept(c: Cells, d: Cells, a: real) {
    && d.Keys == c.Keys
    && forall x :: x in c ==>
         && d[x].rank == c[x].rank && d[x].root == c[x].root && d[x].link.tag == c[x].link.tag
         && (c[x].rank < a ==> d[x] == c[x])
  }

  lemma KeptThen(c: Cells, d: Cells, e: Cells, a: real, b: real)
    requires Kept(c, d, a) && Kept(d, e, b) && b <= a
    ensures Kept(c, e, b)
  {}

  lemma KeptSelf(c: Cells, a: real)
    ensures Kept(c, c, a)
  {}

  lemma KeptRelinks(c: Cells, h: Id, link: Ptr)
    requires h in c && link.tag == c[h].link.tag
    ensures Kept(c, Relink(c, h, link), c[h].rank)
  {}

  lemma KeptCell(c: Cells, d: Cells, a: real, x: Id)
    requires Kept(c, d, a) && x in c
    ensures x in d && d[x].rank == c[x].rank && d[x].root == c[x].root && d[x].link.tag == c[x].link.tag
    ensures c[x].rank < a ==> d[x] == c[x]
  {}

  /** Null, or an entry that is not deleted. */
  predicate Alive(cells: Cells, o: Option<Id>) {
    o.Some? ==> o.value in cells && !cells[o.value].root && cells[o.value].link.tag != Second
  }

  lemma AliveStays(c: Cells, d: Cells, a: real, o: Option<Id>)
    requires Kept(c, d, a) && Alive(c, o)
    ensures Alive(d, o)
  {}

  lemma AliveIsNotDead(s: State, o: Option<Id>)
    requires Inv(s) && Alive(s.cells, o)
    ensures o.Some? ==> o.value !in s.dead
  {
    hide CellsOk, OpsOk, OrderOk;
  }

  /** The cells behind a place. */
  function Beyond(cells: Cells, a: real): set<Id> { set x | x in cells && cells[x].rank > a }

  lemma FewerBeyond(cells: Cells, x: Id, y: Id)
    requires x in cells && y in cells && cells[x].rank < cells[y].rank
    ensures |Beyond(cells, cells[y].rank)| + 1 <= |Beyond(cells, cells[x].rank)|
  {
    assert y in Beyond(cells, cells[x].rank) && y !in Beyond(cells, cells[y].rank);
    Smaller(Beyond(cells, cells[y].rank), Beyond(cells, cells[x].rank));
  }

  lemma AllBeyond(cells: Cells, x: Id)
    requires x in cells
    ensures |Beyond(cells, cells[x].rank)| + 1 <= |cells|
  {
    assert |cells| == |cells.Keys|;
    assert x in cells.Keys && x !in Beyond(cells, cells[x].rank);
    Smaller(Beyond(cells, cells[x].rank), cells.Keys);
  }

  function Ahead(cells: Cells, o: Option<Id>): nat {
    if o.Some? && o.value in cells then |Beyond(cells, cells[o.value].rank)| + 1 else 0
  }

  // ---------------------------------------------------------------- one access

  /** The state after an activation has gone on: nothing but the cells and this operation has changed. */
  predicate Goes(s: State, t: State, k: nat, op: Op) {
    k < |s.ops| && t.ops == s.ops[k := op] && t.dead == s.dead && t.order == s.order
  }

  lemma GoesThen(s: State, t: State, u: State, k: nat, op: Op, last: Op)
    requires Goes(s, t, k, op) && Goes(t, u, k, last)
    ensures Goes(s, u, k, last)
  {}

  lemma GoesOp(s: State, t: State, k: nat, op: Op)
    requires Goes(s, t, k, op)
    ensures k < |t.ops| == |s.ops| && t.ops[k] == op && t.dead == s.dead && t.order == s.order
  {}

  lemma Access(s: State, k: nat, goal: Goal, rest: seq<Frame>, top: Frame)
    requires Inv(s) && k < |s.ops| && s.ops[k] == Walk(goal, rest + [top])
    ensures top.head in s.cells && (top.stage.Looking? ==> Entry(s.cells, top.stage.next.to)) && !top.stage.Calling?
    ensures top.stage.Looking? && top.stage.next.to.Some? ==> top.stage.next.to.value in s.cells
    ensures var r := WalkOn(s.cells, s.dead, goal, rest, top);
      var t := Alone(s, k, 1);
      Inv(t) && Goes(s, t, k, r.op) && t.cells == r.cells
  {
    hide *;
    WalkCan(s, k);
    NextIs(s, k);
    AloneOne(s, k, WalkStep(k));
    InvDo(s, WalkStep(k));
    StepIs(s, k, goal, rest, top);
    OpIn(s, k);
    TopOk(s.cells, s.dead, goal, rest, top);
    HeadOf(s.cells, top);
    KnownEntry(s.cells, if top.stage.Looking? then top.stage.next.to else None) by { EntryOf(s.cells, top); }
  }

  lemma EntryOf(cells: Cells, top: Frame)
    requires top.stage.Looking? ==> Entry(cells, top.stage.next.to)
    ensures Entry(cells, if top.stage.Looking? then top.stage.next.to else None)
  {}

  lemma NextIs(s: State, k: nat)
    requires k < |s.ops|
    ensures s.ops[k].Walk? ==> Next(s, k) == WalkStep(k)
    ensures s.ops[k].Walked? ==> Next(s, k) == ShareWalked(k)
    ensures s.ops[k].Swing? ==> Next(s, k) == TrySwing(k)
  {}

  lemma StepIs(s: State, k: nat, goal: Goal, rest: seq<Frame>, top: Frame)
    requires Can(s, WalkStep(k)) && k < |s.ops| && s.ops[k] == Walk(goal, rest + [top])
    ensures top.head in s.cells && !top.stage.Calling?
    ensures top.stage.Looking? && top.stage.next.to.Some? ==> top.stage.next.to.value in s.cells
    ensures var r := WalkOn(s.cells, s.dead, goal, rest, top);
      Goes(s, Do(s, WalkStep(k)), k, r.op) && Do(s, WalkStep(k)).cells == r.cells
  {
    hide WalkOn;
    var frames := rest + [top];
    assert frames[..|frames| - 1] == rest && frames[|frames| - 1] == top;
  }

  // ---------------------------------------------------------------- the traversal

  /** An activation has come to its end: its head is linked to an entry that is not deleted, or to null. */
  ghost predicate Settles(s: State, t: State, k: nat, goal: Goal, rest: seq<Frame>, head: Id, valid: Ptr) {
    && Inv(t) && Goes(s, t, k, Return(goal, rest, valid)) && head in s.cells && head in t.cells
    && Kept(s.cells, t.cells, s.cells[head].rank) && t.cells[head].link.to == valid.to && Alive(t.cells, valid.to)
  }

  lemma SettlesIs(s: State, t: State, k: nat, goal: Goal, rest: seq<Frame>, head: Id, valid: Ptr)
    requires Inv(t) && Goes(s, t, k, Return(goal, rest, valid)) && head in s.cells && head in t.cells
    requires Kept(s.cells, t.cells, s.cells[head].rank) && t.cells[head].link.to == valid.to && Alive(t.cells, valid.to)
    ensures Settles(s, t, k, goal, rest, head, valid)
  {
    hide Inv, Goes, Kept, Alive, Return;
  }

  lemma SettlesOf(s: State, t: State, k: nat, goal: Goal, rest: seq<Frame>, head: Id, valid: Ptr)
    requires Settles(s, t, k, goal, rest, head, valid)
    ensures Inv(t) && Goes(s, t, k, Return(goal, rest, valid)) && head in s.cells && head in t.cells
    ensures Kept(s.cells, t.cells, s.cells[head].rank) && t.cells[head].link.to == valid.to && Alive(t.cells, valid.to)
  {
    hide Inv, Goes, Kept, Alive, Return;
  }

  /** An access that leaves all cells alone, and then the rest. */
  lemma SettlesLater(s: State, u: State, t: State, k: nat, goal: Goal, rest: seq<Frame>, op: Op, head: Id, valid: Ptr)
    requires Goes(s, u, k, op) && u.cells == s.cells && Settles(u, t, k, goal, rest, head, valid)
    ensures Settles(s, t, k, goal, rest, head, valid)
  {
    hide *;
    SettlesOf(u, t, k, goal, rest, head, valid);
    GoesThen(s, u, t, k, op, Return(goal, rest, valid));
    SettlesIs(s, t, k, goal, rest, head, valid);
  }

  /** A chosen entry is returned; the head is linked to it, if it was not. */
  lemma FoundAlone(s: State, k: nat, goal: Goal, rest: seq<Frame>, top: Frame, valid: Ptr) returns (n: nat)
    requires Inv(s) && k < |s.ops| && s.ops[k] == Walk(goal, rest + [top]) && top.stage == Found(valid)
    requires top.head in s.cells && s.cells[top.head].link == top.seen && Alive(s.cells, valid.to)
    ensures n <= 2 && Settles(s, Alone(s, k, n), k, goal, rest, top.head, valid)
  {
    hide *;
    Access(s, k, goal, rest, top);
    var u := Alone(s, k, 1);
    FoundIs(s.cells, s.dead, goal, rest, top, valid);
    AliveIsNotDead(s, valid.to);
    if Ptr(valid.to, top.seen.tag) == top.seen {
      n := 1;
      KeptSelf(s.cells, s.cells[top.head].rank);
      SettlesIs(s, u, k, goal, rest, top.head, valid);
    } else {
      n := 2;
      var next := top.(stage := Holding(valid));
      GoesOp(s, u, k, Walk(goal, rest + [next]));
      HeldAlone(u, k, goal, rest, next, valid);
      AloneAdds(s, k, 1, 1);
      SettlesLater(s, u, Alone(u, k, 1), k, goal, rest, Walk(goal, rest + [next]), top.head, valid);
    }
  }

  lemma FoundIs(cells: Cells, dead: set<Id>, goal: Goal, rest: seq<Frame>, top: Frame, valid: Ptr)
    requires top.head in cells && top.stage == Found(valid)
    ensures var r := WalkOn(cells, dead, goal, rest, top);
      && r.cells == cells
      && (Ptr(valid.to, top.seen.tag) == top.seen ==> r.op == Return(goal, rest, valid))
      && (Ptr(valid.to, top.seen.tag) != top.seen && (valid.to.Some? ==> valid.to.value !in dead) ==>
            r.op == Walk(goal, rest + [top.(stage := Holding(valid))]))
  {}

  lemma HeldAlone(s: State, k: nat, goal: Goal, rest: seq<Frame>, top: Frame, valid: Ptr)
    requires Inv(s) && k < |s.ops| && s.ops[k] == Walk(goal, rest + [top]) && top.stage == Holding(valid)
    requires top.head in s.cells && s.cells[top.head].link == top.seen && Alive(s.cells, valid.to)
    ensures Settles(s, Alone(s, k, 1), k, goal, rest, top.head, valid)
  {
    hide *;
    Access(s, k, goal, rest, top);
    HeldIs(s.cells, s.dead, goal, rest, top, valid);
    KeptRelinks(s.cells, top.head, Ptr(valid.to, top.seen.tag));
    RelinkGives(s.cells, top.head, Ptr(valid.to, top.seen.tag));
    AliveStays(s.cells, Alone(s, k, 1).cells, s.cells[top.head].rank, valid.to);
    SettlesIs(s, Alone(s, k, 1), k, goal, rest, top.head, valid);
  }

  lemma HeldIs(cells: Cells, dead: set<Id>, goal: Goal, rest: seq<Frame>, top: Frame, valid: Ptr)
    requires top.head in cells && top.stage == Holding(valid) && cells[top.head].link == top.seen
    ensures var r := WalkOn(cells, dead, goal, rest, top);
      r.cells == Relink(cells, top.head, Ptr(valid.to, top.seen.tag)) && r.op == Return(goal, rest, valid)
  {}

  /** The cursor goes on over deleted entries up to one that is not deleted. */
  lemma {:induction false} LookAlone(s: State, k: nat, goal: Goal, rest: seq<Frame>, top: Frame)
    returns (n: nat, valid: Ptr)
    requires Inv(s) && k < |s.ops| && s.ops[k] == Walk(goal, rest + [top]) && top.stage.Looking?
    requires top.head in s.cells && s.cells[top.head].link == top.seen
    requires top.depth == 0 || Alive(s.cells, top.stage.next.to)
    ensures n <= Ahead(s.cells, top.stage.next.to) + 3
    ensures Settles(s, Alone(s, k, n), k, goal, rest, top.head, valid)
    decreases Ahead(s.cells, top.stage.next.to)
  {
    hide *;
    Access(s, k, goal, rest, top);
    var u, next := Alone(s, k, 1), top.stage.next;
    LookIs(s.cells, s.dead, goal, rest, top);
    AliveIs(s.cells, next.to);
    if Alive(s.cells, next.to) {
      valid := if next.to.None? then Ptr(None, Plain) else next;
      var found := top.(depth := 0, stage := Found(valid));
      GoesOp(s, u, k, Walk(goal, rest + [found]));
      var m := FoundAlone(u, k, goal, rest, found, valid);
      n := 1 + m;
      AloneAdds(s, k, 1, m);
      SettlesLater(s, u, Alone(u, k, m), k, goal, rest, Walk(goal, rest + [found]), top.head, valid);
    } else {
      var x := next.to.value;
      var on := top.(stage := Looking(s.cells[x].link));
      GoesOp(s, u, k, Walk(goal, rest + [on]));
      CellsOkOfInv(s);
      FewerAhead(s.cells, x);
      var m: nat;
      m, valid := LookAlone(u, k, goal, rest, on);
      n := 1 + m;
      AloneAdds(s, k, 1, m);
      SettlesLater(s, u, Alone(u, k, m), k, goal, rest, Walk(goal, rest + [on]), top.head, valid);
    }
  }

  lemma AliveIs(cells: Cells, o: Option<Id>)
    requires Entry(cells, o)
    ensures Alive(cells, o) <==> (o.Some? ==> o.value in cells && cells[o.value].link.tag != Second)
    ensures o.Some? ==> o.value in cells
  {}

  lemma LookIs(cells: Cells, dead: set<Id>, goal: Goal, rest: seq<Frame>, top: Frame)
    requires top.head in cells && top.stage.Looking?
    requires top.stage.next.to.Some? ==> top.stage.next.to.value in cells
    ensures var r, next := WalkOn(cells, dead, goal, rest, top), top.stage.next;
      && r.cells == cells
      && (next.to.None? ==> r.op == Walk(goal, rest + [top.(depth := 0, stage := Found(Ptr(None, Plain)))]))
      && (next.to.Some? && cells[next.to.value].link.tag != Second ==>
            r.op == Walk(goal, rest + [top.(depth := 0, stage := Found(next))]))
      && (next.to.Some? && cells[next.to.value].link.tag == Second && top.depth == 0 ==>
            r.op == Walk(goal, rest + [top.(stage := Looking(cells[next.to.value].link))]))
      && (next.to.Some? && cells[next.to.value].link.tag == Second && top.depth != 0 ==>
            r.op == Walk(goal, rest + [top.(depth := 0, stage := Calling), NewFrame(next.to.value, top.depth - 1)]))
  {}

  /** A link leads forward. */
  lemma FewerAhead(cells: Cells, x: Id)
    requires CellsOk(cells) && x in cells
    ensures Ahead(cells, cells[x].link.to) < Ahead(cells, Some(x))
    ensures cells[x].link.to.Some? ==>
      cells[x].link.to.value in cells && cells[x].rank < cells[cells[x].link.to.value].rank
    ensures Ahead(cells, cells[x].link.to) <= |Beyond(cells, cells[x].rank)|
  {
    LinkOf(cells, x);
    hide Gap, Entry, Distinct, Rooted, Beyond, CellsOk;
    var to := cells[x].link.to;
    if to.Some? { FewerBeyond(cells, x, to.value); }
  }

  /** The activation for a deleted entry has returned to its caller, which goes on. */
  lemma CallerAlone(
    s: State, u: State, k: nat, goal: Goal, rest: seq<Frame>, caller: Frame, x: Id, found: Ptr) returns (n: nat)
    requires Settles(s, u, k, goal, rest + [caller], x, found) && caller.head in s.cells
    requires s.cells[caller.head].rank < s.cells[x].rank && s.cells[caller.head].link == caller.seen
    ensures n <= 2 && Settles(s, Alone(u, k, n), k, goal, rest, caller.head, found)
  {
    hide *;
    var frames := rest + [caller];
    SettlesOf(s, u, k, goal, frames, x, found);
    var top := caller.(stage := Found(found));
    ReturnIs(goal, frames, found);
    assert frames[..|frames| - 1] + [frames[|frames| - 1].(stage := Found(found))] == rest + [top];
    GoesOp(s, u, k, Walk(goal, rest + [top]));
    var a := s.cells[caller.head].rank;
    KeptCell(s.cells, u.cells, s.cells[x].rank, caller.head);
    n := FoundAlone(u, k, goal, rest, top, found);
    var t := Alone(u, k, n);
    SettlesOf(u, t, k, goal, rest, caller.head, found);
    KeptThen(s.cells, u.cells, t.cells, s.cells[x].rank, a);
    GoesThen(s, u, t, k, Walk(goal, rest + [top]), Return(goal, rest, found));
    SettlesIs(s, t, k, goal, rest, caller.head, found);
  }

  /** An activation that has just begun settles after at most four accesses for every cell from its head on,
      however often it calls itself. */
  lemma {:induction false} ActivationAlone(s: State, k: nat, goal: Goal, rest: seq<Frame>, top: Frame)
    returns (n: nat, valid: Ptr)
    requires Inv(s) && k < |s.ops| && s.ops[k] == Walk(goal, rest + [top]) && top.stage.Loading?
    ensures Settles(s, Alone(s, k, n), k, goal, rest, top.head, valid)
    ensures top.head in s.cells && n <= 4 * Ahead(s.cells, Some(top.head))
    decreases top.depth, 1
  {
    hide *;
    Access(s, k, goal, rest, top);
    CellsOkOfInv(s);
    var u, link := Alone(s, k, 1), s.cells[top.head].link;
    FewerAhead(s.cells, top.head);
    AheadIs(s.cells, top.head);
    var look := top.(seen := link, stage := Looking(link));
    LoadIs(s.cells, s.dead, goal, rest, top);
    GoesOp(s, u, k, Walk(goal, rest + [look]));
    Access(u, k, goal, rest, look);
    AliveIs(u.cells, link.to);
    var m: nat;
    if look.depth == 0 || Alive(u.cells, link.to) {
      m, valid := LookAlone(u, k, goal, rest, look);
    } else {
      m, valid := CallAlone(u, k, goal, rest, look);
    }
    n := 1 + m;
    AloneAdds(s, k, 1, m);
    SettlesLater(s, u, Alone(u, k, m), k, goal, rest, Walk(goal, rest + [look]), top.head, valid);
  }

  /** It calls itself on a deleted successor. */
  lemma {:induction false} CallAlone(s: State, k: nat, goal: Goal, rest: seq<Frame>, top: Frame)
    returns (n: nat, valid: Ptr)
    requires Inv(s) && k < |s.ops| && s.ops[k] == Walk(goal, rest + [top]) && top.stage == Looking(top.seen)
    requires top.head in s.cells && s.cells[top.head].link == top.seen
    requires top.depth > 0 && !Alive(s.cells, top.seen.to)
    ensures Settles(s, Alone(s, k, n), k, goal, rest, top.head, valid)
    ensures n <= 4 * Ahead(s.cells, top.seen.to) + 3
    decreases top.depth, 0
  {
    hide *;
    Access(s, k, goal, rest, top);
    CellsOkOfInv(s);
    var u := Alone(s, k, 1);
    AliveIs(s.cells, top.seen.to);
    var x := top.seen.to.value;
    LookIs(s.cells, s.dead, goal, rest, top);
    FewerAhead(s.cells, top.head);
    var caller, callee := top.(depth := 0, stage := Calling), Frame(x, top.depth - 1, Ptr(None, Plain), Loading);
    NewFrameIs(x, top.depth - 1);
    assert rest + [caller, callee] == rest + [caller] + [callee];
    GoesOp(s, u, k, Walk(goal, rest + [caller, callee]));
    var m: nat;
    m, valid := ActivationAlone(u, k, goal, rest + [caller], callee);
    var v := Alone(u, k, m);
    var l := CallerAlone(u, v, k, goal, rest, caller, x, valid);
    n := 1 + m + l;
    AloneAdds(u, k, m, l);
    AloneAdds(s, k, 1, m + l);
    SettlesLater(s, u, Alone(v, k, l), k, goal, rest, Walk(goal, rest + [caller, callee]), top.head, valid);
  }

  lemma NewFrameIs(x: Id, depth: nat)
    ensures NewFrame(x, depth) == Frame(x, depth, Ptr(None, Plain), Loading)
  {}

  lemma LoadIs(cells: Cells, dead: set<Id>, goal: Goal, rest: seq<Frame>, top: Frame)
    requires top.head in cells && top.stage.Loading?
    ensures var r, link := WalkOn(cells, dead, goal, rest, top), cells[top.head].link;
      r.cells == cells && r.op == Walk(goal, rest + [top.(seen := link, stage := Looking(link))])
  {}

  lemma AheadIs(cells: Cells, x: Id)
    requires x in cells
    ensures Ahead(cells, Some(x)) == |Beyond(cells, cells[x].rank)| + 1
  {
    hide Beyond;
  }

  // ---------------------------------------------------------------- what is left when it is done

  /** The head is linked to the first entry behind it that is not deleted, or to nothing, if there is none. */
  ghost predicate FirstAlive(cells: Cells, head: Id, to: Option<Id>) {
    LinkedFirst(cells, head, to) && (to.Some? ==> !Deleted(cells, to.value))
  }

  lemma SettlesFirst(s: State, t: State, k: nat, goal: Goal, rest: seq<Frame>, head: Id, valid: Ptr)
    requires Settles(s, t, k, goal, rest, head, valid)
    ensures FirstAlive(t.cells, head, valid.to)
  {
    SettlesOf(s, t, k, goal, rest, head, valid);
    hide Settles, Inv, Kept, Goes, LinkedFirst, Return;
    CellsOkOfInv(t);
    FirstBehind(t.cells, head, valid.to);
  }

  /** A traversal without interference answers the first entry behind its head that is not deleted, and links
      the head to it.  It changes no tag and not the abstract list, nor any link in front of its head, and it
      takes at most four accesses for every cell. */
  lemma WalkAlone(s: State, k: nat, goal: Goal, head: Id) returns (n: nat, valid: Ptr)
    requires Inv(s) && k < |s.ops| && s.ops[k] == Walk(goal, [NewFrame(head, DEPTH)])
    ensures var t := Alone(s, k, n);
      && n <= 4 * |s.cells| && head in s.cells && Inv(t) && Goes(s, t, k, Walked(goal, valid))
      && FirstAlive(t.cells, head, valid.to) && Kept(s.cells, t.cells, s.cells[head].rank)
  {
    hide *;
    NewFrameIs(head, DEPTH);
    var top := NewFrame(head, DEPTH);
    assert [] + [top] == [top];
    n, valid := ActivationAlone(s, k, goal, [], top);
    var t := Alone(s, k, n);
    AheadIs(s.cells, head);
    AllBeyond(s.cells, head);
    SettlesOf(s, t, k, goal, [], head, valid);
    ReturnIs(goal, [], valid);
    SettlesFirst(s, t, k, goal, [], head, valid);
  }

  lemma ShareIs(s: State, k: nat, root: Id, gone: Id, valid: Ptr)
    requires k < |s.ops| && s.ops[k] == Walked(ForRoot(root, gone), valid)
    requires valid.to.Some? ==> valid.to.value !in s.dead
    ensures Can(s, ShareWalked(k)) && Goes(s, Do(s, ShareWalked(k)), k, Swing(root, gone, valid.to))
    ensures Do(s, ShareWalked(k)).cells == s.cells
  {}

  lemma SwingIs(s: State, k: nat, root: Id, gone: Id, held: Option<Id>)
    requires k < |s.ops| && s.ops[k] == Swing(root, gone, held) && root in s.cells
    requires s.cells[root].link == Ptr(Some(gone), Plain)
    ensures Can(s, TrySwing(k)) && Goes(s, Do(s, TrySwing(k)), k, Done)
    ensures var d := Do(s, TrySwing(k)).cells;
      && Kept(s.cells, d, s.cells[root].rank) && root in d && d[root].link.to == held
      && (held.Some? && held.value in s.cells ==> d[held.value].root == s.cells[held.value].root
                                                  && d[held.value].link.tag == s.cells[held.value].link.tag)
  {}

  lemma OneMore(s: State, k: nat, a: Action)
    requires Inv(s) && k < |s.ops| && Next(s, k) == a && Can(s, a)
    ensures Alone(s, k, 1) == Do(s, a) && Inv(Do(s, a))
  {
    hide *;
    AloneOne(s, k, a);
    InvDo(s, a);
  }

  /** A clean-up without interference moves the root from the deleted entry to the first entry that is not
      deleted. */
  lemma CleanupAlone(s: State, k: nat, root: Id, gone: Id) returns (n: nat, held: Option<Id>)
    requires Inv(s) && k < |s.ops| && s.ops[k] == Walk(ForRoot(root, gone), [NewFrame(gone, DEPTH)])
    requires root in s.cells && s.cells[root].link == Ptr(Some(gone), Plain)
    ensures var t := Alone(s, k, n);
      && n <= 4 * |s.cells| + 2 && Inv(t) && Goes(s, t, k, Done)
      && FirstAlive(t.cells, root, held) && Kept(s.cells, t.cells, s.cells[root].rank)
  {
    hide *;
    var m, valid := WalkAlone(s, k, ForRoot(root, gone), gone);
    held := valid.to;
    n := m + 2;
    var t := Alone(s, k, m);
    CellsOkOfInv(s);
    FewerAhead(s.cells, root);
    KeptCell(s.cells, t.cells, s.cells[gone].rank, root);
    GoesOp(s, t, k, Walked(ForRoot(root, gone), valid));
    FirstIsAlive(t.cells, gone, held);
    AliveIsNotDead(t, held);
    ShareIs(t, k, root, gone, valid);
    NextIs(t, k);
    OneMore(t, k, ShareWalked(k));
    var u := Do(t, ShareWalked(k));
    GoesOp(t, u, k, Swing(root, gone, held));
    SwingIs(u, k, root, gone, held);
    NextIs(u, k);
    OneMore(u, k, TrySwing(k));
    var v := Do(u, TrySwing(k));
    AloneAdds(t, k, 1, 1);
    AloneAdds(s, k, m, 2);
    GoesThen(s, t, u, k, Walked(ForRoot(root, gone), valid), Swing(root, gone, held));
    GoesThen(s, u, v, k, Swing(root, gone, held), Done);
    KeptThen(s.cells, t.cells, v.cells, s.cells[gone].rank, s.cells[root].rank);
    AliveStays(u.cells, v.cells, s.cells[root].rank, held);
    CellsOkOfInv(v);
    FirstBehind(v.cells, root, held);
    FirstAliveIs(v.cells, root, held);
  }

  lemma FirstIsAlive(cells: Cells, head: Id, to: Option<Id>)
    requires FirstAlive(cells, head, to)
    ensures Alive(cells, to)
  {
    hide Gap;
  }

  lemma FirstAliveIs(cells: Cells, head: Id, to: Option<Id>)
    requires LinkedFirst(cells, head, to) && Alive(cells, to)
    ensures FirstAlive(cells, head, to)
  {
    hide LinkedFirst;
  }
}
