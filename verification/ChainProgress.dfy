/** No operation of the list is ever blocked by the model: every access that the code would make next is
    a step that can be taken. */
module ChainProgress {
  import opened Base
  import opened Chain
  import opened ChainOrder
  import opened ChainSafety
  import opened ChainSteps
  import opened ChainInv

  lemma {:induction false} RankAbove(cells: Cells, a: real, above: set<Id>, b: real) returns (rank: real)
    requires a < b
    requires above == set x | x in cells && a < cells[x].rank <= b
    ensures a < rank <= b && forall x :: x in cells ==> !(a < cells[x].rank <= rank)
    decreases |above|
  {
    if above == {} {
      rank := b;
      forall x | x in cells
        ensures !(a < cells[x].rank <= rank)
      {
        assert x !in above;
      }
    } else {
      var y :| y in above;
      var c := (a + cells[y].rank) / 2.0;
      var fewer := set x | x in cells && a < cells[x].rank <= c;
      assert fewer < above by { assert y !in fewer; }
      Smaller(fewer, above);
      rank := RankAbove(cells, a, fewer, c);
    }
  }

  /** There is always room behind a cell. */
  lemma RoomBehind(cells: Cells, h: Id) returns (rank: real)
    requires h in cells
    ensures Behind(cells, h, rank)
  {
    var a := cells[h].rank;
    rank := RankAbove(cells, a, (set x | x in cells && a < cells[x].rank <= a + 1.0), a + 1.0);
  }

  lemma {:induction false} Bound(keys: set<Id>) returns (q: Id)
    ensures forall x :: x in keys ==> x < q
  {
    if keys == {} {
      q := 0;
    } else {
      var x :| x in keys;
      var p := Bound(keys - {x});
      q := if x < p then p else x + 1;
      forall y | y in keys
        ensures y < q
      {
        if y != x { assert y in keys - {x}; }
      }
    }
  }

  lemma Fresh(cells: Cells) returns (q: Id)
    ensures q !in cells
  {
    q := Bound(cells.Keys);
    assert q !in cells.Keys;
  }

  /** The operation number an action belongs to. */
  predicate StepOf(a: Action, k: nat) {
    match a
    case Share(i) => i == k
    case TryInsert(i, _, _, _) => i == k
    case WalkStep(i) => i == k
    case ShareWalked(i) => i == k
    case TrySwing(i) => i == k
    case PopDelete(i) => i == k
    case _ => false
  }

  lemma FramesAre(cells: Cells, dead: set<Id>, goal: Goal, frames: seq<Frame>)
    requires OpOk(cells, dead, Walk(goal, frames))
    ensures frames != [] && FrameAt(cells, goal, frames, |frames| - 1)
  {
    hide FrameAt, GoalOk, Held;
  }

  lemma InnermostIs(cells: Cells, goal: Goal, frames: seq<Frame>)
    requires frames != [] && FrameAt(cells, goal, frames, |frames| - 1)
    ensures var top := frames[|frames| - 1]; FrameOk(cells, top) && !top.stage.Calling?
  {
    hide FrameOk, Certain, Span;
  }

  lemma Steps(s: State, k: nat)
    requires k < |s.ops| && s.ops[k].Walk? && s.ops[k].frames != [] && Steppable(s.cells, s.ops[k].frames)
    ensures Can(s, WalkStep(k))
  {
    hide Steppable;
  }

  lemma SteppableIs(cells: Cells, frames: seq<Frame>)
    requires frames != []
    requires var top := frames[|frames| - 1];
      top.head in cells && (top.stage.Looking? ==> Chain.Known(cells, top.stage.next.to)) && !top.stage.Calling?
    ensures Steppable(cells, frames)
  {}

  lemma WalkCan(s: State, k: nat)
    requires Inv(s) && k < |s.ops| && s.ops[k].Walk?
    ensures Can(s, WalkStep(k))
  {
    hide *;
    OpIn(s, k);
    var goal, frames := s.ops[k].goal, s.ops[k].frames;
    FramesAre(s.cells, s.dead, goal, frames);
    InnermostIs(s.cells, goal, frames);
    TopIs(s.cells, frames[|frames| - 1]);
    SteppableIs(s.cells, frames);
    Steps(s, k);
  }

  lemma TopIs(cells: Cells, f: Frame)
    requires FrameOk(cells, f)
    ensures f.head in cells && (f.stage.Looking? ==> Chain.Known(cells, f.stage.next.to))
  {
    hide Span;
  }

  lemma OpKnows(cells: Cells, dead: set<Id>, op: Op)
    requires OpOk(cells, dead, op)
    ensures op.InsertTry? ==> op.head in cells
    ensures op.Swing? ==> op.root in cells
    ensures op.Pop? ==> op.entry in cells
  {
    hide FramesOk, GoalOk, Span, Held;
  }

  lemma Inserts(s: State, k: nat, q: Id, rank: real)
    requires k < |s.ops| && s.ops[k].InsertTry? && q !in s.cells && Behind(s.cells, s.ops[k].head, rank)
    ensures Can(s, TryInsert(k, q, rank, false)) && StepOf(TryInsert(k, q, rank, false), k)
  {
    hide Behind;
  }

  lemma Simple(s: State, k: nat)
    requires k < |s.ops|
    ensures s.ops[k].Insert? ==> Can(s, Share(k)) && StepOf(Share(k), k)
    ensures s.ops[k].Walked? ==> Can(s, ShareWalked(k)) && StepOf(ShareWalked(k), k)
    ensures s.ops[k].Swing? && s.ops[k].root in s.cells ==> Can(s, TrySwing(k)) && StepOf(TrySwing(k), k)
    ensures s.ops[k].Pop? && s.ops[k].entry in s.cells ==> Can(s, PopDelete(k)) && StepOf(PopDelete(k), k)
    ensures StepOf(WalkStep(k), k)
  {}

  /** In every state that a run can reach, every operation that is not done can take its next step. */
  lemma NeverStuck(s: State, k: nat) returns (a: Action)
    requires Inv(s) && k < |s.ops| && !s.ops[k].Done?
    ensures StepOf(a, k) && Can(s, a)
  {
    hide *;
    OpIn(s, k);
    OpKnows(s.cells, s.dead, s.ops[k]);
    Simple(s, k);
    match s.ops[k]
    case Insert(_, _, _) => a := Share(k);
    case InsertTry(head, _, _, _) =>
      var q := Fresh(s.cells);
      var rank := RoomBehind(s.cells, head);
      a := TryInsert(k, q, rank, false);
      Inserts(s, k, q, rank);
    case Walk(_, _) =>
      a := WalkStep(k);
      WalkCan(s, k);
    case Walked(_, _) => a := ShareWalked(k);
    case Swing(_, _, _) => a := TrySwing(k);
    case Pop(_, _) => a := PopDelete(k);
  }
}
