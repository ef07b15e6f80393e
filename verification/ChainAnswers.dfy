/** What a traversal of the list may answer while others insert, delete and clean up: the cell that its
    head was linked to at some moment of the call, with nothing but deleted cells in between. */
module ChainAnswers {
  import opened Base
  import opened Chain
  import opened ChainOrder
  import opened ChainSafety
  import opened ChainSteps
  import opened ChainInv
  import opened ChainTheorems

  // ---------------------------------------------------------------- moments of a run

  /** In state `l` the entry is not deleted, and its memory is not freed from then on, up to state `i`. */
  ghost predicate AliveAt(states: seq<State>, l: nat, i: nat, x: Id) {
    && l <= i < |states| && x in states[l].cells && !states[l].cells[x].root && !Deleted(states[l].cells, x)
    && forall j :: l <= j <= i ==> x in states[j].cells
  }

  ghost predicate WasAlive(states: seq<State>, m: nat, i: nat, x: Id) {
    exists l: nat :: m <= l && AliveAt(states, l, i, x)
  }

  /** In state `m` the link of the head was `seen`, and what it leads to is not freed up to state `i`. */
  ghost predicate ReadAt(states: seq<State>, m: nat, i: nat, head: Id, seen: Ptr) {
    && m < i < |states| && head in states[m].cells && states[m].cells[head].link == seen
    && (seen.to.Some? ==> forall j :: m <= j <= i ==> seen.to.value in states[j].cells)
  }

  /** The head is linked to `to`, and all that lies in between is deleted. */
  ghost predicate LinkedFirst(cells: Cells, head: Id, to: Option<Id>) {
    && head in cells && cells[head].link.to == to && Entry(cells, to) && Gap(cells, cells[head].rank, to)
    && (to.Some? ==> cells[head].rank < cells[to.value].rank)
  }

  lemma AliveLonger(states: seq<State>, m: nat, i: nat, x: Id)
    requires WasAlive(states, m, i, x) && i + 1 < |states| && x in states[i + 1].cells
    ensures WasAlive(states, m, i + 1, x)
  {
    var l: nat :| m <= l && AliveAt(states, l, i, x);
    hide Deleted;
    assert AliveAt(states, l, i + 1, x);
  }

  lemma ReadLonger(states: seq<State>, m: nat, i: nat, head: Id, seen: Ptr)
    requires ReadAt(states, m, i, head, seen) && i + 1 < |states| && Chain.Known(states[i + 1].cells, seen.to)
    ensures ReadAt(states, m, i + 1, head, seen)
  {}

  lemma ReadNow(states: seq<State>, i: nat, head: Id, seen: Ptr)
    requires i + 1 < |states| && head in states[i].cells && states[i].cells[head].link == seen
    requires Chain.Known(states[i].cells, seen.to) && Chain.Known(states[i + 1].cells, seen.to)
    ensures ReadAt(states, i, i + 1, head, seen)
  {}

  lemma AliveNow(states: seq<State>, m: nat, i: nat, x: Id)
    requires m <= i && i + 1 < |states| && x in states[i].cells && !states[i].cells[x].root
    requires !Deleted(states[i].cells, x) && x in states[i + 1].cells
    ensures WasAlive(states, m, i + 1, x)
  {
    assert AliveAt(states, i, i + 1, x);
  }

  // ---------------------------------------------------------------- one access

  /** The activation has settled on entry `x`. */
  predicate Chosen(f: Frame, x: Id) { (f.stage.Found? || f.stage.Holding?) && f.stage.valid.to == Some(x) }

  ghost predicate AnyChosen(frames: seq<Frame>, x: Id) { exists j :: 0 <= j < |frames| && Chosen(frames[j], x) }

  /** An access settles only on what an activation had settled on, or on an entry just seen not deleted. */
  ghost predicate Chooses(cells: Cells, top: Frame, frames: seq<Frame>, next: seq<Frame>) {
    forall x :: AnyChosen(next, x) ==>
      AnyChosen(frames, x)
      || (top.stage.Looking? && top.stage.next.to == Some(x) && x in cells && cells[x].link.tag != Second)
  }

  /** The outermost activation keeps its head; it has read the head's link now, or keeps what it has read. */
  ghost predicate Outermost(cells: Cells, frames: seq<Frame>, next: seq<Frame>) {
    && frames != [] && next != [] && next[0].head == frames[0].head
    && ((next[0].seen == frames[0].seen && !frames[0].stage.Loading? && !next[0].stage.Loading?)
        || (|next| == 1 && next[0].stage.Loading?)
        || (|next| == 1 && next[0].stage.Looking? && next[0].head in cells && next[0].seen == cells[next[0].head].link))
  }

  lemma OneFrame(cells: Cells, rest: seq<Frame>, top: Frame, next: Frame)
    requires next.head == top.head
    requires forall x :: Chosen(next, x) ==>
      Chosen(top, x)
      || (top.stage.Looking? && top.stage.next.to == Some(x) && x in cells && cells[x].link.tag != Second)
    requires || (next.seen == top.seen && !top.stage.Loading?)
             || next.stage.Loading?
             || (next.stage.Looking? && next.head in cells && next.seen == cells[next.head].link)
    requires rest != [] ==> rest[0].stage.Calling?
    ensures Chooses(cells, top, rest + [top], rest + [next]) && Outermost(cells, rest + [top], rest + [next])
  {
    var f, g := rest + [top], rest + [next];
    forall x | AnyChosen(g, x)
      ensures AnyChosen(f, x)
        || (top.stage.Looking? && top.stage.next.to == Some(x) && x in cells && cells[x].link.tag != Second)
    {
      var j :| 0 <= j < |g| && Chosen(g[j], x);
      if j < |rest| { assert f[j] == g[j]; } else { assert f[|rest|] == top; }
    }
    assert rest != [] ==> f[0] == rest[0] == g[0];
  }

  lemma Recurs(cells: Cells, rest: seq<Frame>, top: Frame, next: Frame, callee: Frame)
    requires next.head == top.head && next.seen == top.seen && next.stage.Calling? && callee.stage.Loading?
    requires !top.stage.Loading? && (rest != [] ==> rest[0].stage.Calling?)
    ensures Chooses(cells, top, rest + [top], rest + [next, callee])
    ensures Outermost(cells, rest + [top], rest + [next, callee])
  {
    var f, g := rest + [top], rest + [next, callee];
    forall x | AnyChosen(g, x)
      ensures AnyChosen(f, x)
    {
      var j :| 0 <= j < |g| && Chosen(g[j], x);
      assert f[j] == g[j];
    }
    assert rest != [] ==> f[0] == rest[0] == g[0];
  }

  lemma ReturnsTo(cells: Cells, rest: seq<Frame>, top: Frame, valid: Ptr)
    requires top.stage == Found(valid) || top.stage == Holding(valid)
    requires rest != [] && forall j :: 0 <= j < |rest| ==> rest[j].stage.Calling?
    ensures var next := rest[..|rest| - 1] + [rest[|rest| - 1].(stage := Found(valid))];
      Chooses(cells, top, rest + [top], next) && Outermost(cells, rest + [top], next)
  {
    var f, g := rest + [top], rest[..|rest| - 1] + [rest[|rest| - 1].(stage := Found(valid))];
    forall x | AnyChosen(g, x)
      ensures AnyChosen(f, x)
    {
      var j :| 0 <= j < |g| && Chosen(g[j], x);
      assert f[|rest|] == top;
    }
    assert f[0] == rest[0];
  }

  /** What an access yields: the walk goes on as described, or it ends because the head is linked to the
      chosen entry: it was when its link was read, or it is now made to be. */
  ghost predicate Yields(cells: Cells, goal: Goal, rest: seq<Frame>, top: Frame, r: Outcome) {
    if r.op.Walk? then
      Chooses(cells, top, rest + [top], r.op.frames) && Outermost(cells, rest + [top], r.op.frames)
    else
      && rest == [] && r.op.Walked? && r.op.goal == goal
      && ((top.stage == Found(r.op.valid) && r.op.valid.to == top.seen.to && r.cells == cells)
          || (top.stage == Holding(r.op.valid) && top.head in cells && cells[top.head].link == top.seen
              && r.cells == Relink(cells, top.head, Ptr(r.op.valid.to, top.seen.tag))))
  }

  lemma AccessYields(cells: Cells, dead: set<Id>, goal: Goal, rest: seq<Frame>, top: Frame)
    requires top.head in cells && (top.stage.Looking? && top.stage.next.to.Some? ==> top.stage.next.to.value in cells)
    requires !top.stage.Calling? && forall j :: 0 <= j < |rest| ==> rest[j].stage.Calling?
    ensures Yields(cells, goal, rest, top, WalkOn(cells, dead, goal, rest, top))
  {
    hide Chooses, Outermost;
    match top.stage
    case Loading =>
      OneFrame(cells, rest, top, top.(seen := cells[top.head].link, stage := Looking(cells[top.head].link)));
    case Looking(next) =>
      if next.to.None? {
        OneFrame(cells, rest, top, top.(depth := 0, stage := Found(NULL)));
      } else {
        var n := next.to.value;
        if cells[n].link.tag != Second {
          OneFrame(cells, rest, top, top.(depth := 0, stage := Found(next)));
        } else if top.depth != 0 {
          Recurs(cells, rest, top, top.(depth := 0, stage := Calling), NewFrame(n, top.depth - 1));
        } else {
          OneFrame(cells, rest, top, top.(stage := Looking(cells[n].link)));
        }
      }
    case Found(valid) =>
      if Ptr(valid.to, top.seen.tag) == top.seen {
        if rest != [] { ReturnsTo(cells, rest, top, valid); }
      } else if valid.to.Some? && valid.to.value in dead {
        OneFrame(cells, rest, top, top.(stage := Loading));
      } else {
        OneFrame(cells, rest, top, top.(stage := Holding(valid)));
      }
    case Holding(valid) =>
      if cells[top.head].link == top.seen {
        if rest != [] { ReturnsTo(cells, rest, top, valid); }
      } else {
        OneFrame(cells, rest, top, top.(seen := cells[top.head].link, stage := Looking(cells[top.head].link)));
      }
  }

  // ---------------------------------------------------------------- the history of a walk

  ghost predicate ChosenAlive(states: seq<State>, m: nat, i: nat, frames: seq<Frame>) {
    forall x :: AnyChosen(frames, x) ==> WasAlive(states, m, i, x)
  }

  /** What a walk from `head` rests on: in state `m` its outermost activation has read the head's link, and
      whatever it has settled on since was not deleted then. */
  ghost predicate Rests(states: seq<State>, m: nat, i: nat, head: Id, frames: seq<Frame>) {
    && frames != [] && frames[0].head == head
    && (if frames[0].stage.Loading? then |frames| == 1 else ReadAt(states, m, i, head, frames[0].seen))
    && ChosenAlive(states, m, i, frames)
  }

  lemma RestsIs(states: seq<State>, m: nat, i: nat, head: Id, frames: seq<Frame>)
    requires frames != [] && frames[0].head == head && ChosenAlive(states, m, i, frames)
    requires if frames[0].stage.Loading? then |frames| == 1 else ReadAt(states, m, i, head, frames[0].seen)
    ensures Rests(states, m, i, head, frames)
  {
    hide ChosenAlive, ReadAt;
  }

  lemma RestsOf(states: seq<State>, m: nat, i: nat, head: Id, frames: seq<Frame>)
    requires Rests(states, m, i, head, frames)
    ensures frames != [] && frames[0].head == head && ChosenAlive(states, m, i, frames)
    ensures if frames[0].stage.Loading? then |frames| == 1 else ReadAt(states, m, i, head, frames[0].seen)
  {
    hide ChosenAlive, ReadAt;
  }

  /** What a walk has read and settled on is there. */
  lemma FramesThere(cells: Cells, goal: Goal, frames: seq<Frame>)
    requires Has(cells, Refs(Walk(goal, frames))) && frames != []
    ensures Chain.Known(cells, frames[0].seen.to) && forall x :: AnyChosen(frames, x) ==> x in cells
  {
    FramesHave(cells, goal, frames, 0);
    forall x | AnyChosen(frames, x)
      ensures x in cells
    {
      var j :| 0 <= j < |frames| && Chosen(frames[j], x);
      FramesHave(cells, goal, frames, j);
      assert x in FrameRefs(frames[j]);
    }
  }

  lemma WalkHas(s: State, k: nat)
    requires Inv(s) && k < |s.ops| && s.ops[k].Walk? && s.ops[k].frames != []
    ensures Chain.Known(s.cells, s.ops[k].frames[0].seen.to)
    ensures forall x :: AnyChosen(s.ops[k].frames, x) ==> x in s.cells
  {
    hide *;
    OpIn(s, k);
    OpHas(s.cells, s.dead, s.ops[k]);
    FramesThere(s.cells, s.ops[k].goal, s.ops[k].frames);
  }

  /** Others act. */
  lemma RestsLonger(states: seq<State>, m: nat, i: nat, head: Id, frames: seq<Frame>)
    requires Rests(states, m, i, head, frames) && i + 1 < |states| && frames != []
    requires Chain.Known(states[i + 1].cells, frames[0].seen.to)
    requires forall x :: AnyChosen(frames, x) ==> x in states[i + 1].cells
    ensures Rests(states, m, i + 1, head, frames)
  {
    RestsOf(states, m, i, head, frames);
    hide Rests, ReadAt, WasAlive, AnyChosen;
    if !frames[0].stage.Loading? { ReadLonger(states, m, i, head, frames[0].seen); }
    forall x | AnyChosen(frames, x)
      ensures WasAlive(states, m, i + 1, x)
    {
      AliveLonger(states, m, i, x);
    }
    RestsIs(states, m, i + 1, head, frames);
  }

  lemma NoneChosen(states: seq<State>, m: nat, i: nat, frames: seq<Frame>)
    requires |frames| == 1 && (frames[0].stage.Loading? || frames[0].stage.Looking?)
    ensures ChosenAlive(states, m, i, frames)
  {}

  /** An access that goes on with what the outermost activation has read. */
  lemma RestsStill(states: seq<State>, m: nat, i: nat, head: Id, rest: seq<Frame>, top: Frame, next: seq<Frame>)
    requires Rests(states, m, i, head, rest + [top]) && i + 1 < |states| && next != []
    requires Chooses(states[i].cells, top, rest + [top], next) && next[0].head == head
    requires next[0].seen == (rest + [top])[0].seen && !(rest + [top])[0].stage.Loading? && !next[0].stage.Loading?
    requires Chain.Known(states[i + 1].cells, next[0].seen.to)
    requires forall x :: AnyChosen(next, x) ==> x in states[i + 1].cells
    requires top.stage.Looking? ==> Entry(states[i].cells, top.stage.next.to)
    ensures Rests(states, m, i + 1, head, next)
  {
    RestsOf(states, m, i, head, rest + [top]);
    hide Rests, WasAlive, AnyChosen;
    ReadLonger(states, m, i, head, next[0].seen);
    forall x | AnyChosen(next, x)
      ensures WasAlive(states, m, i + 1, x)
    {
      if AnyChosen(rest + [top], x) { AliveLonger(states, m, i, x); } else { AliveNow(states, m, i, x); }
    }
    RestsIs(states, m, i + 1, head, next);
  }

  /** An access that reads the link of the outermost head. */
  lemma RestsAnew(states: seq<State>, i: nat, head: Id, next: seq<Frame>)
    requires i + 1 < |states| && |next| == 1 && next[0].stage.Looking? && next[0].head == head
    requires CellsOk(states[i].cells) && head in states[i].cells && next[0].seen == states[i].cells[head].link
    requires Chain.Known(states[i + 1].cells, next[0].seen.to)
    ensures Rests(states, i, i + 1, head, next)
  {
    hide *;
    LinkOf(states[i].cells, head);
    KnownEntry(states[i].cells, states[i].cells[head].link.to);
    KnownIs(states[i].cells, states[i].cells[head].link.to);
    NoneChosen(states, i, i + 1, next);
    ReadNow(states, i, head, next[0].seen);
    RestsIs(states, i, i + 1, head, next);
  }

  lemma OutermostOf(cells: Cells, frames: seq<Frame>, next: seq<Frame>)
    requires Outermost(cells, frames, next)
    ensures frames != [] && next != [] && next[0].head == frames[0].head
    ensures || (next[0].seen == frames[0].seen && !frames[0].stage.Loading? && !next[0].stage.Loading?)
            || (|next| == 1 && next[0].stage.Loading?)
            || (|next| == 1 && next[0].stage.Looking?
                && next[0].head in cells && next[0].seen == cells[next[0].head].link)
  {}

  /** An access of the walk that does not end it. */
  lemma RestsOn(states: seq<State>, m: nat, i: nat, head: Id, rest: seq<Frame>, top: Frame, next: seq<Frame>)
    returns (r: nat)
    requires Rests(states, m, i, head, rest + [top]) && i + 1 < |states| && next != [] && m <= i
    requires Chooses(states[i].cells, top, rest + [top], next) && Outermost(states[i].cells, rest + [top], next)
    requires Chain.Known(states[i + 1].cells, next[0].seen.to) && CellsOk(states[i].cells)
    requires forall x :: AnyChosen(next, x) ==> x in states[i + 1].cells
    requires top.stage.Looking? ==> Entry(states[i].cells, top.stage.next.to)
    ensures m <= r <= i && Rests(states, r, i + 1, head, next)
  {
    hide *;
    RestsOf(states, m, i, head, rest + [top]);
    OutermostOf(states[i].cells, rest + [top], next);
    r := m;
    if next[0].stage.Loading? && |next| == 1 {
      NoneChosen(states, m, i + 1, next);
      RestsIs(states, m, i + 1, head, next);
    } else if next[0].seen == (rest + [top])[0].seen && !(rest + [top])[0].stage.Loading? && !next[0].stage.Loading? {
      RestsStill(states, m, i, head, rest, top, next);
    } else {
      r := i;
      RestsAnew(states, i, head, next);
    }
  }

  // ---------------------------------------------------------------- along a run

  /** Only its own accesses change a walk. */
  lemma WalkOrOther(s: State, a: Action, k: nat)
    requires Can(s, a) && k < |s.ops| && s.ops[k].Walk?
    ensures k < |Do(s, a).ops| && (a != WalkStep(k) ==> Do(s, a).ops[k] == s.ops[k])
  {
    hide Behind, Last, AddBehind, Remove, Held, Refs, Steppable, WalkOn;
  }

  lemma WalkStepIs(s: State, k: nat)
    requires Can(s, WalkStep(k))
    ensures k < |s.ops| && s.ops[k].Walk? && s.ops[k].frames != []
    ensures var frames := s.ops[k].frames;
      var rest, top := frames[..|frames| - 1], frames[|frames| - 1];
      && top.head in s.cells && (top.stage.Looking? ==> Chain.Known(s.cells, top.stage.next.to)) && !top.stage.Calling?
      && rest + [top] == frames
      && var r := WalkOn(s.cells, s.dead, s.ops[k].goal, rest, top);
         Do(s, WalkStep(k)) == At(s, k, r.op).(cells := r.cells)
  {
    hide WalkOn;
    TopSplit(s.ops[k].frames);
  }

  /** All activations but the innermost wait, and its cursor is an entry. */
  lemma Waiting(cells: Cells, dead: set<Id>, goal: Goal, rest: seq<Frame>, top: Frame)
    requires OpOk(cells, dead, Walk(goal, rest + [top]))
    ensures forall j :: 0 <= j < |rest| ==> rest[j].stage.Calling?
    ensures top.stage.Looking? ==> Entry(cells, top.stage.next.to)
  {
    WalkParts(cells, dead, goal, rest, top);
    FrameOf(cells, goal, rest, top);
    HeadOf(cells, top);
    hide OpOk, FrameOk, Certain, Span, Entry, GoalOk;
    forall j | 0 <= j < |rest|
      ensures rest[j].stage.Calling?
    {
      assert FrameAt(cells, goal, rest + [top], j);
    }
  }

  lemma StepYields(s: State, k: nat)
    requires Inv(s) && Can(s, WalkStep(k))
    ensures k < |s.ops| && s.ops[k].Walk? && s.ops[k].frames != []
    ensures var frames := s.ops[k].frames;
      var rest, top := frames[..|frames| - 1], frames[|frames| - 1];
      && rest + [top] == frames
      && (top.stage.Looking? ==> Entry(s.cells, top.stage.next.to))
      && k < |Do(s, WalkStep(k)).ops|
      && Yields(s.cells, s.ops[k].goal, rest, top, Outcome(Do(s, WalkStep(k)).ops[k], Do(s, WalkStep(k)).cells))
  {
    hide *;
    WalkStepIs(s, k);
    var frames := s.ops[k].frames;
    var rest, top := frames[..|frames| - 1], frames[|frames| - 1];
    OpIn(s, k);
    Waiting(s.cells, s.dead, s.ops[k].goal, rest, top);
    if top.stage.Looking? { KnownIs(s.cells, top.stage.next.to); }
    AccessYields(s.cells, s.dead, s.ops[k].goal, rest, top);
    var r := WalkOn(s.cells, s.dead, s.ops[k].goal, rest, top);
    AtIs(s, k, r.op, r.cells);
  }

  lemma RunStep(states: seq<State>, actions: seq<Action>, i: nat)
    requires Run(states, actions) && i < |actions|
    ensures i + 1 < |states| && Can(states[i], actions[i]) && states[i + 1] == Do(states[i], actions[i])
  {
    hide Can, Do;
  }

  lemma YieldsOn(cells: Cells, goal: Goal, rest: seq<Frame>, top: Frame, r: Outcome)
    requires Yields(cells, goal, rest, top, r) && r.op.Walk?
    ensures Chooses(cells, top, rest + [top], r.op.frames) && Outermost(cells, rest + [top], r.op.frames)
  {
    hide Chooses, Outermost;
  }

  lemma CellsOkOfInv(s: State)
    requires Inv(s)
    ensures CellsOk(s.cells)
  {
    hide CellsOk, DeadOk, OpsOk, OrderOk;
  }

  lemma RestsAfter(states: seq<State>, actions: seq<Action>, m: nat, i: nat, k: nat, head: Id) returns (r: nat)
    requires Run(states, actions) && i + 1 < |states| && m <= i && k < |states[i].ops| && k < |states[i + 1].ops|
    requires states[i].ops[k].Walk? && Rests(states, m, i, head, states[i].ops[k].frames) && states[i + 1].ops[k].Walk?
    ensures m <= r <= i && Rests(states, r, i + 1, head, states[i + 1].ops[k].frames)
  {
    hide *;
    RunIs(states, actions);
    RunInv(states, actions, i);
    RunInv(states, actions, i + 1);
    RunStep(states, actions, i);
    WalkOrOther(states[i], actions[i], k);
    var frames, next := states[i].ops[k].frames, states[i + 1].ops[k].frames;
    RestsOf(states, m, i, head, frames);
    if actions[i] == WalkStep(k) {
      StepYields(states[i], k);
      var rest, top := frames[..|frames| - 1], frames[|frames| - 1];
      YieldsOn(states[i].cells, states[i].ops[k].goal, rest, top, Outcome(states[i + 1].ops[k], states[i + 1].cells));
      OutermostOf(states[i].cells, frames, next);
      WalkHas(states[i + 1], k);
      CellsOkOfInv(states[i]);
      r := RestsOn(states, m, i, head, rest, top, next);
    } else {
      r := m;
      WalkHas(states[i + 1], k);
      RestsLonger(states, m, i, head, frames);
    }
  }

  lemma RunIs(states: seq<State>, actions: seq<Action>)
    requires Run(states, actions)
    ensures |states| == |actions| + 1
  {
    hide Can, Do;
  }

  /** Operation `k` is one call of `next_ptr` for this head from state `p` up to state `i`. */
  ghost predicate OneWalk(states: seq<State>, p: nat, i: nat, k: nat, head: Id, depth: nat) {
    && p <= i < |states| && (forall j :: p <= j <= i ==> k < |states[j].ops| && states[j].ops[k].Walk?)
    && states[p].ops[k].frames == [NewFrame(head, depth)]
  }

  lemma {:induction false} History(
    states: seq<State>, actions: seq<Action>, p: nat, i: nat, k: nat, head: Id, depth: nat) returns (m: nat)
    requires Run(states, actions) && OneWalk(states, p, i, k, head, depth)
    ensures p <= m <= i && Rests(states, m, i, head, states[i].ops[k].frames)
    decreases i
  {
    hide Run, Rests;
    if i == p {
      m := p;
      Starts(states, p, head, depth);
    } else {
      m := History(states, actions, p, i - 1, k, head, depth);
      m := RestsAfter(states, actions, m, i - 1, k, head);
    }
  }

  lemma Starts(states: seq<State>, p: nat, head: Id, depth: nat)
    ensures Rests(states, p, p, head, [NewFrame(head, depth)])
  {
    NoneChosen(states, p, p, [NewFrame(head, depth)]);
    hide ReadAt, ChosenAlive;
  }

  // ---------------------------------------------------------------- the answer

  /** What the head is linked to, with all that is skipped deleted. */
  lemma FirstBehind(cells: Cells, head: Id, to: Option<Id>)
    requires CellsOk(cells) && head in cells && cells[head].link.to == to
    ensures LinkedFirst(cells, head, to)
  {
    LinkOf(cells, head);
    hide CellsOk, Gap, Entry, Distinct, Rooted;
    KnownEntry(cells, to);
  }

  /** An entry found not deleted was not deleted when the head's link led to it. */
  lemma AliveBefore(states: seq<State>, actions: seq<Action>, m: nat, i: nat, head: Id, seen: Ptr, x: Id)
    requires Run(states, actions) && ReadAt(states, m, i, head, seen) && seen.to == Some(x) && WasAlive(states, m, i, x)
    ensures AliveAt(states, m, i, x)
  {
    var l: nat :| m <= l && AliveAt(states, l, i, x);
    hide Run, Deleted;
    DeletionIsFinal(states, actions, m, l, x);
  }

  lemma AliveOneMore(states: seq<State>, l: nat, i: nat, x: Id)
    requires AliveAt(states, l, i, x) && i + 1 < |states| && x in states[i + 1].cells
    ensures AliveAt(states, l, i + 1, x)
  {
    hide Deleted;
  }

  lemma AliveSince(states: seq<State>, l: nat, p: nat, m: nat, i: nat, x: Id)
    requires p <= m
    ensures AliveAt(states, l, i, x) && m <= l ==> WasAlive(states, p, i, x)
    ensures WasAlive(states, m, i, x) ==> WasAlive(states, p, i, x)
  {
    hide AliveAt;
  }

  /** From what the head is linked to up to `to`, everything is deleted. */
  ghost predicate Skips(cells: Cells, head: Id, to: Option<Id>) {
    head in cells && Span(cells, cells[head].link.to, to)
  }

  /** The answer of a walk: in state `m`, during the call, the head was linked to it and every cell in between
      was deleted; and the entry was not deleted at some moment of the call: at that very moment, unless the
      last access was the one that linked the head to it. */
  ghost predicate Answers(states: seq<State>, p: nat, m: nat, n: nat, head: Id, to: Option<Id>) {
    && p <= m <= n < |states| && LinkedFirst(states[m].cells, head, to)
    && (to.Some? ==> WasAlive(states, p, n, to.value))
    && (m < n && to.Some? ==> AliveAt(states, m, n, to.value))
    && (m == n ==> p < n && Skips(states[n - 1].cells, head, to))
  }

  lemma AnswersIs(states: seq<State>, p: nat, m: nat, n: nat, head: Id, to: Option<Id>)
    requires p <= m <= n < |states| && LinkedFirst(states[m].cells, head, to)
    requires to.Some? ==> WasAlive(states, p, n, to.value)
    requires m < n && to.Some? ==> AliveAt(states, m, n, to.value)
    requires m == n ==> p < n && Skips(states[n - 1].cells, head, to)
    ensures Answers(states, p, m, n, head, to)
  {
    hide LinkedFirst, WasAlive, AliveAt, Skips;
  }

  /** The head was linked to the answer when its link was read. */
  lemma AnswersAsRead(states: seq<State>, actions: seq<Action>, p: nat, m: nat, n: nat, head: Id, top: Frame)
    requires Run(states, actions) && p <= m < n < |states| && top.stage.Found? && top.head == head
    requires Rests(states, m, n - 1, head, [top]) && states[n].cells == states[n - 1].cells
    requires top.stage.valid.to == top.seen.to
    ensures Answers(states, p, m, n, head, top.stage.valid.to)
  {
    var to := top.stage.valid.to;
    hide *;
    RestsOf(states, m, n - 1, head, [top]);
    ReadOf(states, m, n - 1, head, top.seen);
    RunIs(states, actions);
    RunInv(states, actions, m);
    CellsOkOfInv(states[m]);
    FirstBehind(states[m].cells, head, to);
    if to.Some? {
      ChosenOf(states, m, n - 1, top, to.value);
      AliveBefore(states, actions, m, n - 1, head, top.seen, to.value);
      AliveOneMore(states, m, n - 1, to.value);
      AliveSince(states, m, p, m, n, to.value);
    }
    AnswersIs(states, p, m, n, head, to);
  }

  lemma ReadOf(states: seq<State>, m: nat, i: nat, head: Id, seen: Ptr)
    requires ReadAt(states, m, i, head, seen)
    ensures m < i < |states| && head in states[m].cells && states[m].cells[head].link == seen
    ensures seen.to.Some? ==> seen.to.value in states[i].cells
  {}

  lemma ChosenOf(states: seq<State>, m: nat, i: nat, top: Frame, x: Id)
    requires ChosenAlive(states, m, i, [top]) && Chosen(top, x)
    ensures WasAlive(states, m, i, x)
  {
    hide WasAlive;
    assert Chosen([top][0], x);
  }

  /** The last access has linked the head to the answer. */
  lemma AnswersAsSet(states: seq<State>, actions: seq<Action>, p: nat, m: nat, n: nat, head: Id, top: Frame)
    requires Run(states, actions) && p <= m < n < |states| && top.stage.Holding? && top.head == head
    requires Rests(states, m, n - 1, head, [top]) && head in states[n - 1].cells
    requires states[n - 1].cells[head].link == top.seen
    requires states[n].cells == Relink(states[n - 1].cells, head, Ptr(top.stage.valid.to, top.seen.tag))
    requires FrameOk(states[n - 1].cells, top)
    ensures Answers(states, p, n, n, head, top.stage.valid.to)
  {
    var to := top.stage.valid.to;
    hide *;
    RestsOf(states, m, n - 1, head, [top]);
    RelinkGives(states[n - 1].cells, head, Ptr(to, top.seen.tag));
    RunIs(states, actions);
    RunInv(states, actions, n);
    CellsOkOfInv(states[n]);
    FirstBehind(states[n].cells, head, to);
    HoldingKnows(states[n - 1].cells, top);
    KnownEntry(states[n - 1].cells, to);
    SkipsIs(states[n - 1].cells, head, to);
    if to.Some? {
      ChosenOf(states, m, n - 1, top, to.value);
      AliveLonger(states, m, n - 1, to.value);
      AliveSince(states, n, p, m, n, to.value);
    }
    AnswersIs(states, p, n, n, head, to);
  }

  lemma RelinkGives(cells: Cells, x: Id, link: Ptr)
    requires x in cells
    ensures var d := Relink(cells, x, link); d.Keys == cells.Keys && x in d && d[x].link == link
  {}

  lemma SkipsIs(cells: Cells, head: Id, to: Option<Id>)
    requires head in cells && Span(cells, cells[head].link.to, to)
    ensures Skips(cells, head, to)
  {
    hide Span;
  }

  lemma YieldsEnd(cells: Cells, goal: Goal, rest: seq<Frame>, top: Frame, r: Outcome)
    requires Yields(cells, goal, rest, top, r) && !r.op.Walk?
    ensures rest == [] && r.op.Walked? && r.op.goal == goal
    ensures (top.stage == Found(r.op.valid) && r.op.valid.to == top.seen.to && r.cells == cells)
         || (top.stage == Holding(r.op.valid) && top.head in cells && cells[top.head].link == top.seen
             && r.cells == Relink(cells, top.head, Ptr(r.op.valid.to, top.seen.tag)))
  {}

  lemma OneWalkIs(states: seq<State>, p: nat, i: nat, k: nat, head: Id, depth: nat)
    requires OneWalk(states, p, i, k, head, depth)
    ensures p <= i < |states| && k < |states[i].ops| && states[i].ops[k].Walk?
  {}

  lemma TopOk(cells: Cells, dead: set<Id>, goal: Goal, rest: seq<Frame>, top: Frame)
    requires OpOk(cells, dead, Walk(goal, rest + [top]))
    ensures FrameOk(cells, top)
  {
    hide *;
    WalkParts(cells, dead, goal, rest, top);
    FrameOf(cells, goal, rest, top);
  }

  /** What `next_ptr` answers, whatever others do meanwhile. */
  lemma WalkAnswered(
    states: seq<State>, actions: seq<Action>, p: nat, n: nat, k: nat, head: Id, depth: nat) returns (m: nat)
    requires Run(states, actions) && p < n < |states| && OneWalk(states, p, n - 1, k, head, depth)
    requires k < |states[n].ops| && !states[n].ops[k].Walk?
    ensures states[n].ops[k].Walked? && states[n].ops[k].goal == states[n - 1].ops[k].goal
    ensures Answers(states, p, m, n, head, states[n].ops[k].valid.to)
  {
    hide *;
    m := History(states, actions, p, n - 1, k, head, depth);
    RunIs(states, actions);
    OneWalkIs(states, p, n - 1, k, head, depth);
    RunInv(states, actions, n - 1);
    RunStep(states, actions, n - 1);
    WalkOrOther(states[n - 1], actions[n - 1], k);
    StepYields(states[n - 1], k);
    OpIn(states[n - 1], k);
    var s, frames := states[n - 1], states[n - 1].ops[k].frames;
    var rest, top := frames[..|frames| - 1], frames[|frames| - 1];
    YieldsEnd(s.cells, s.ops[k].goal, rest, top, Outcome(states[n].ops[k], states[n].cells));
    TopOk(s.cells, s.dead, s.ops[k].goal, rest, top);
    assert frames == [top];
    RestsOf(states, m, n - 1, head, frames);
    LaterRead(states, m, n - 1, head, top);
    if top.stage.Found? {
      AnswersAsRead(states, actions, p, m, n, head, top);
    } else {
      AnswersAsSet(states, actions, p, m, n, head, top);
      m := n;
    }
  }

  lemma LaterRead(states: seq<State>, m: nat, i: nat, head: Id, top: Frame)
    requires Rests(states, m, i, head, [top]) && !top.stage.Loading?
    ensures m < i
  {}

  // ---------------------------------------------------------------- tags

  /** Is this the call of `delete_self` for `x`, from outside or by a pop? */
  predicate Asks(s: State, a: Action, x: Id) {
    a == Delete(x) || (a.PopDelete? && a.k < |s.ops| && s.ops[a.k].Pop? && s.ops[a.k].entry == x)
  }

  /** An entry that is not deleted is deleted by exactly the calls for it. */
  lemma DeletesExactly(s: State, a: Action, x: Id)
    requires Inv(s) && Can(s, a) && x in s.cells && !s.cells[x].root && !Deleted(s.cells, x)
    ensures Deletes(s, a, x) <==> Asks(s, a, x)
  {
    if a == Delete(x) || a.PopDelete? {
      hide Inv, Remove, Deletes;
      DeleteTakes(s, a, x);
    } else if Deletes(s, a, x) {
      hide Inv, Can, Do;
      OnlyDeleteDeletes(s, a, x);
    }
  }

  lemma DeleteTakes(s: State, a: Action, x: Id)
    requires Can(s, a) && (a == Delete(x) || a.PopDelete?) && x in s.cells && !s.cells[x].root && !Deleted(s.cells, x)
    ensures Deletes(s, a, x) <==> Asks(s, a, x)
  {
    hide Remove;
  }

  /** The mark that a step gives `x` or takes from it. */
  predicate Turns(s: State, a: Action, x: Id, tag: Tag) {
    || (a == Mark(x) && tag == First) || (a == Unmark(x) && tag == Plain)
    || (a.TryInsert? && a.k < |s.ops| && s.ops[a.k].InsertTry? && s.ops[a.k].head == x && s.ops[a.k].tag == tag
        && x in s.cells && s.cells[x].link == s.ops[a.k].seen && !a.flaky)
  }

  /** An entry that is not deleted gets a mark, or loses it, by exactly `mark` and `unmark` for it, and by an
      insertion behind it that asks for this. */
  lemma MarksExactly(s: State, a: Action, x: Id)
    requires Inv(s) && Can(s, a) && x in s.cells && !s.cells[x].root && s.cells[x].link.tag != Second
    ensures var d := Do(s, a).cells;
      x in d && d[x].link.tag != Second ==>
        && (s.cells[x].link.tag == Plain ==> (d[x].link.tag == First <==> Turns(s, a, x, First)))
        && (s.cells[x].link.tag == First ==> (d[x].link.tag == Plain <==> Turns(s, a, x, Plain)))
  {
    if a.WalkStep? {
      hide Inv, Do;
      WalkPersists(s, a.k, x);
    } else {
      hide Inv, Do, Turns;
      if a.TryInsert? { TagsOf(s, a.k); }
      TagTurns(s, a, x);
    }
  }

  lemma TagTurns(s: State, a: Action, x: Id)
    requires Can(s, a) && !a.WalkStep? && x in s.cells && !s.cells[x].root && s.cells[x].link.tag != Second
    ensures var d := Do(s, a).cells;
      x in d && d[x].link.tag != Second ==>
        && (s.cells[x].link.tag == Plain ==> (d[x].link.tag == First <==> Turns(s, a, x, First)))
        && (s.cells[x].link.tag == First ==> (d[x].link.tag == Plain <==> Turns(s, a, x, Plain)))
  {
    hide Behind, Last, AddBehind, Remove, Held, Refs;
  }

  // ---------------------------------------------------------------- recursion

  ghost predicate Shallow(op: Op) { op.Walk? ==> forall j :: 0 <= j < |op.frames| ==> j + op.frames[j].depth <= DEPTH }

  lemma AccessShallow(cells: Cells, dead: set<Id>, goal: Goal, rest: seq<Frame>, top: Frame)
    requires top.head in cells && (top.stage.Looking? && top.stage.next.to.Some? ==> top.stage.next.to.value in cells)
    requires Shallow(Walk(goal, rest + [top]))
    ensures Shallow(WalkOn(cells, dead, goal, rest, top).op)
  {
    var f, op := rest + [top], WalkOn(cells, dead, goal, rest, top).op;
    assert f[|rest|] == top;
    if op.Walk? {
      forall j | 0 <= j < |op.frames|
        ensures j + op.frames[j].depth <= DEPTH
      {
        if j < |rest| { assert f[j] == rest[j]; }
      }
    }
  }

  lemma OpsAfter(s: State, a: Action, l: nat)
    requires Can(s, a) && l < |Do(s, a).ops| && a != WalkStep(l)
    ensures || !Do(s, a).ops[l].Walk? || (l < |s.ops| && Do(s, a).ops[l] == s.ops[l])
            || (|Do(s, a).ops[l].frames| == 1 && Do(s, a).ops[l].frames[0].depth == DEPTH)
  {
    hide Behind, Last, AddBehind, Remove, Held, Refs, Steppable, WalkOn;
  }

  /** A call never has more than 65 activations of `next_ptr_recursive` in progress. */
  lemma {:induction false} StackBound(states: seq<State>, actions: seq<Action>, n: nat, k: nat)
    requires Run(states, actions) && n < |states| && k < |states[n].ops| && states[n].ops[k].Walk?
    ensures Shallow(states[n].ops[k]) && |states[n].ops[k].frames| <= DEPTH + 1
  {
    hide *;
    RunIs(states, actions);
    if n == 0 {
      NoOps(states, actions);
    } else {
      var s, a := states[n - 1], actions[n - 1];
      RunStep(states, actions, n - 1);
      if a == WalkStep(k) {
        WalkStepIs(s, k);
        StackBound(states, actions, n - 1, k);
        var frames := s.ops[k].frames;
        var rest, top := frames[..|frames| - 1], frames[|frames| - 1];
        if top.stage.Looking? { KnownIs(s.cells, top.stage.next.to); }
        AccessShallow(s.cells, s.dead, s.ops[k].goal, rest, top);
        var r := WalkOn(s.cells, s.dead, s.ops[k].goal, rest, top);
        AtIs(s, k, r.op, r.cells);
      } else {
        OpsAfter(s, a, k);
        if k < |s.ops| && states[n].ops[k] == s.ops[k] {
          StackBound(states, actions, n - 1, k);
        } else {
          FirstShallow(states[n].ops[k]);
        }
      }
      ShallowEnds(states[n].ops[k]);
    }
  }

  lemma NoOps(states: seq<State>, actions: seq<Action>)
    requires Run(states, actions)
    ensures states[0].ops == []
  {
    hide Can, Do;
  }

  lemma FirstShallow(op: Op)
    requires op.Walk? && |op.frames| == 1 && op.frames[0].depth == DEPTH
    ensures Shallow(op)
  {}

  lemma ShallowEnds(op: Op)
    requires Shallow(op) && op.Walk?
    ensures |op.frames| <= DEPTH + 1
  {
    if |op.frames| > 0 { assert |op.frames| - 1 + op.frames[|op.frames| - 1].depth <= DEPTH; }
  }
}
