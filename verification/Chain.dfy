/** The lock-free linked list (src/linked_list.rs) and the ways in which queue and stack work on it
    (src/queue.rs, src/stack.rs, src/atomic_shared.rs), as a transition system: any number of
    insertions, deletions, traversals and clean-ups, interleaved at every access to a link. */
module Chain {
  import opened Base

  type Id = nat

  /** The tag of an entry's own link: `First` is a mark, `Second` says that the entry is deleted. */
  datatype Tag = Plain | First | Second

  datatype Ptr = Ptr(to: Option<Id>, tag: Tag)

  const NULL: Ptr := Ptr(None, Plain)

  /** An entry, or a root: the `oldest` of a queue, the `newest` of a stack, the head of a list owned
      by the user.  `rank` is history: where the cell was put in the order of all cells. */
  datatype Cell = Cell(link: Ptr, rank: real, root: bool)

  type Cells = map<Id, Cell>

  const DEPTH: nat := 64

  /** One activation of `next_ptr_recursive`: `seen` is `head_next_ptr` with `head_tag`. */
  datatype Stage =
    | Loading
    | Looking(next: Ptr)
    | Calling
    | Found(valid: Ptr)
    | Holding(valid: Ptr)

  datatype Frame = Frame(head: Id, depth: nat, seen: Ptr, stage: Stage)

  /** Who called: somebody interested in the next entry, or the clean-up of a root that found `gone`
      deleted. */
  datatype Goal = ForUser | ForRoot(root: Id, gone: Id)

  /** An operation in flight:
      - `Insert`, `InsertTry`: a new entry is to be linked behind `head`, whose link was `seen`; it has
        been linked to `held`;
      - `Walk`, `Walked`: inside `next_ptr`, and its result;
      - `Swing`: a root is to be moved from the deleted `gone` to `held`;
      - `Pop`: an entry read from a root is to be deleted. */
  datatype Op =
    | Insert(head: Id, seen: Ptr, tag: Tag)
    | InsertTry(head: Id, seen: Ptr, tag: Tag, held: Option<Id>)
    | Walk(goal: Goal, frames: seq<Frame>)
    | Walked(goal: Goal, valid: Ptr)
    | Swing(root: Id, gone: Id, held: Option<Id>)
    | Pop(root: Id, entry: Id)
    | Done

  /** `dead` are the entries without a strong reference.  `order` is history: the abstract list, that
      is, all roots and all entries that are not deleted. */
  datatype State = State(cells: Cells, dead: set<Id>, ops: seq<Op>, order: seq<Id>)

  predicate Deleted(cells: Cells, x: Id) { x in cells && !cells[x].root && cells[x].link.tag == Second }

  function AsSet(o: Option<Id>): set<Id> { if o.Some? then {o.value} else {} }

  function StageRefs(stage: Stage): set<Id> {
    match stage
    case Looking(next) => AsSet(next.to)
    case Found(valid) => AsSet(valid.to)
    case Holding(valid) => AsSet(valid.to)
    case _ => {}
  }

  function FrameRefs(f: Frame): set<Id> { {f.head} + AsSet(f.seen.to) + StageRefs(f.stage) }

  function GoalRefs(goal: Goal): set<Id> { if goal.ForRoot? then {goal.root, goal.gone} else {} }

  /** The cells whose addresses an operation has; a guard keeps their memory from being freed. */
  function Refs(op: Op): set<Id> {
    match op
    case Insert(head, seen, _) => {head} + AsSet(seen.to)
    case InsertTry(head, seen, _, held) => {head} + AsSet(seen.to) + AsSet(held)
    case Walk(goal, frames) => GoalRefs(goal) + set f, x | f in frames && x in FrameRefs(f) :: x
    case Walked(goal, valid) => GoalRefs(goal) + AsSet(valid.to)
    case Swing(root, gone, held) => {root, gone} + AsSet(held)
    case Pop(root, entry) => {root, entry}
    case Done => {}
  }

  /** The entry an operation has a strong reference to. */
  function Held(op: Op): Option<Id> {
    match op
    case InsertTry(_, _, _, held) => held
    case Swing(_, _, held) => held
    case Walk(_, frames) =>
      if frames != [] && frames[|frames| - 1].stage.Holding? then frames[|frames| - 1].stage.valid.to else None
    case _ => None
  }

  // ---------------------------------------------------------------- positions

  /** A new cell with this rank comes immediately behind `h`. */
  ghost predicate Behind(cells: Cells, h: Id, rank: real) {
    h in cells && cells[h].rank < rank && forall x :: x in cells ==> !(cells[h].rank < cells[x].rank <= rank)
  }

  /** A new cell with this rank comes last. */
  ghost predicate Last(cells: Cells, rank: real) { forall x :: x in cells ==> cells[x].rank < rank }

  function Position(order: seq<Id>, x: Id): (i: nat)
    ensures i <= |order| && (i < |order| ==> order[i] == x)
    ensures x in order ==> i < |order|
  {
    if order == [] || order[0] == x then 0 else 1 + Position(order[1..], x)
  }

  function AddBehind(order: seq<Id>, h: Id, x: Id): seq<Id> {
    var i := Position(order, h);
    if i < |order| then order[..i + 1] + [x] + order[i + 1..] else order
  }

  function Remove(order: seq<Id>, x: Id): seq<Id> {
    var i := Position(order, x);
    if i < |order| then order[..i] + order[i + 1..] else order
  }

  // ---------------------------------------------------------------- traversal

  /** What a step of a traversal yields. */
  datatype Outcome = Outcome(op: Op, cells: Cells)

  function Return(goal: Goal, rest: seq<Frame>, valid: Ptr): Op {
    if rest == [] then Walked(goal, valid)
    else Walk(goal, rest[..|rest| - 1] + [rest[|rest| - 1].(stage := Found(valid))])
  }

  function NewFrame(head: Id, depth: nat): Frame { Frame(head, depth, NULL, Loading) }

  function Relink(cells: Cells, x: Id, link: Ptr): Cells
    requires x in cells
  {
    cells[x := cells[x].(link := link)]
  }

  /** One access of the innermost activation. */
  function WalkOn(cells: Cells, dead: set<Id>, goal: Goal, rest: seq<Frame>, top: Frame): Outcome
    requires top.head in cells && (top.stage.Looking? && top.stage.next.to.Some? ==> top.stage.next.to.value in cells)
  {
    match top.stage
    case Loading =>
      var link := cells[top.head].link;
      Outcome(Walk(goal, rest + [top.(seen := link, stage := Looking(link))]), cells)
    case Looking(next) =>
      if next.to.None? then Outcome(Walk(goal, rest + [top.(depth := 0, stage := Found(NULL))]), cells)
      else
        var n := next.to.value;
        var link := cells[n].link;
        if link.tag != Second then Outcome(Walk(goal, rest + [top.(depth := 0, stage := Found(next))]), cells)
        else if top.depth != 0 then
          Outcome(Walk(goal, rest + [top.(depth := 0, stage := Calling), NewFrame(n, top.depth - 1)]), cells)
        else Outcome(Walk(goal, rest + [top.(stage := Looking(link))]), cells)
    case Found(valid) =>
      if Ptr(valid.to, top.seen.tag) == top.seen then Outcome(Return(goal, rest, valid), cells)
      else if valid.to.Some? && valid.to.value in dead then Outcome(Walk(goal, rest + [top.(stage := Loading)]), cells)
      else Outcome(Walk(goal, rest + [top.(stage := Holding(valid))]), cells)
    case Holding(valid) =>
      if cells[top.head].link == top.seen then
        Outcome(Return(goal, rest, valid), Relink(cells, top.head, Ptr(valid.to, top.seen.tag)))
      else
        var link := cells[top.head].link;
        Outcome(Walk(goal, rest + [top.(seen := link, stage := Looking(link))]), cells)
    case Calling => Outcome(Walk(goal, rest + [top]), cells)
  }

  // ---------------------------------------------------------------- actions

  datatype Action =
    | NewRoot(r: Id, rank: real)
    | Split(r: Id, new_: Id, rank: real)
    | Mark(x: Id) | Unmark(x: Id) | Delete(x: Id)
    | StartInsert(head: Id, seen: Ptr, tag: Tag)
    | StartWalk(head: Id)
    | StartCleanup(root: Id, gone: Id)
    | StartPop(root: Id)
    | Share(k: nat)
    | TryInsert(k: nat, q: Id, rank: real, flaky: bool)
    | WalkStep(k: nat)
    | ShareWalked(k: nat)
    | TrySwing(k: nat)
    | PopDelete(k: nat)
    | Die(x: Id)
    | Destroy(x: Id)

  predicate Known(cells: Cells, o: Option<Id>) { o.Some? ==> o.value in cells }

  ghost predicate Can(s: State, a: Action) {
    match a
    case NewRoot(r, rank) => r !in s.cells && Last(s.cells, rank)
    // `pop_all`: the entries move to the root of a new stack.
    case Split(r, new_, rank) => r in s.cells && s.cells[r].root && new_ !in s.cells && Behind(s.cells, r, rank)
    case Mark(x) => x in s.cells
    case Unmark(x) => x in s.cells
    case Delete(x) => x in s.cells
    case StartInsert(head, seen, tag) =>
      head in s.cells && Known(s.cells, seen.to) && seen.tag != Second && tag != Second
    case StartWalk(head) => head in s.cells
    case StartCleanup(root, gone) => root in s.cells && s.cells[root].root && Deleted(s.cells, gone)
    case StartPop(root) => root in s.cells && s.cells[root].root && s.cells[root].link.to.Some?
    case Share(k) => k < |s.ops| && s.ops[k].Insert?
    case TryInsert(k, q, rank, _) =>
      k < |s.ops| && s.ops[k].InsertTry? && q !in s.cells && Behind(s.cells, s.ops[k].head, rank)
    case WalkStep(k) => k < |s.ops| && s.ops[k].Walk? && s.ops[k].frames != [] && Steppable(s.cells, s.ops[k].frames)
    case ShareWalked(k) => k < |s.ops| && s.ops[k].Walked?
    case TrySwing(k) => k < |s.ops| && s.ops[k].Swing? && s.ops[k].root in s.cells
    case PopDelete(k) => k < |s.ops| && s.ops[k].Pop? && s.ops[k].entry in s.cells
    // The last strong reference goes: no link and no operation has one.
    case Die(x) =>
      x in s.cells && !s.cells[x].root && x !in s.dead && (forall c :: c in s.cells ==> s.cells[c].link.to != Some(x))
      && forall k :: 0 <= k < |s.ops| ==> Held(s.ops[k]) != Some(x)
    // The reclaimer frees the memory once no guard protects it.
    case Destroy(x) => x in s.dead && forall k :: 0 <= k < |s.ops| ==> x !in Refs(s.ops[k])
  }

  predicate Steppable(cells: Cells, frames: seq<Frame>)
    requires frames != []
  {
    var top := frames[|frames| - 1];
    top.head in cells && (top.stage.Looking? ==> Known(cells, top.stage.next.to)) && !top.stage.Calling?
  }

  function At(s: State, k: nat, op: Op): State
    requires k < |s.ops|
  {
    s.(ops := s.ops[k := op])
  }

  function Start(s: State, op: Op): State { s.(ops := s.ops + [op]) }

  /** `update_tag_if`: the pointer stays. */
  function Retag(s: State, x: Id, tag: Tag): State
    requires x in s.cells
  {
    s.(cells := Relink(s.cells, x, s.cells[x].link.(tag := tag)))
  }

  /** `delete_self`: succeeds only if the entry is not deleted. */
  function DoDelete(s: State, x: Id): State
    requires x in s.cells
  {
    if s.cells[x].link.tag == Second then s
    else Retag(s, x, Second).(order := if s.cells[x].root then s.order else Remove(s.order, x))
  }

  ghost function Do(s: State, a: Action): State
    requires Can(s, a)
  {
    match a
    case NewRoot(r, rank) => s.(cells := s.cells[r := Cell(NULL, rank, true)], order := s.order + [r])
    case Split(r, new_, rank) =>
      s.(cells := Relink(s.cells, r, NULL)[new_ := Cell(Ptr(s.cells[r].link.to, Plain), rank, true)],
         order := AddBehind(s.order, r, new_))
    case Mark(x) => if s.cells[x].link.tag == Plain then Retag(s, x, First) else s
    case Unmark(x) => if s.cells[x].link.tag == First then Retag(s, x, Plain) else s
    case Delete(x) => DoDelete(s, x)
    case StartInsert(head, seen, tag) => Start(s, Insert(head, seen, tag))
    case StartWalk(head) => Start(s, Walk(ForUser, [NewFrame(head, DEPTH)]))
    case StartCleanup(root, gone) => Start(s, Walk(ForRoot(root, gone), [NewFrame(gone, DEPTH)]))
    case StartPop(root) => Start(s, Pop(root, s.cells[root].link.to.value))
    // `get_shared` on the old successor.
    case Share(k) =>
      var Insert(head, seen, tag) := s.ops[k];
      At(s, k, InsertTry(head, seen, tag, if seen.to.Some? && seen.to.value in s.dead then None else seen.to))
    case TryInsert(k, q, rank, flaky) =>
      var InsertTry(head, seen, tag, held) := s.ops[k];
      if s.cells[head].link == seen && !flaky then
        At(s, k, Done).(cells := Relink(s.cells, head, Ptr(Some(q), tag))[q := Cell(Ptr(held, Plain), rank, false)],
                        order := AddBehind(s.order, head, q))
      else At(s, k, Done)
    case WalkStep(k) =>
      var Walk(goal, frames) := s.ops[k];
      var r := WalkOn(s.cells, s.dead, goal, frames[..|frames| - 1], frames[|frames| - 1]);
      At(s, k, r.op).(cells := r.cells)
    case ShareWalked(k) =>
      (match s.ops[k]
       case Walked(ForRoot(root, gone), valid) =>
         if valid.to.Some? && valid.to.value in s.dead
         then At(s, k, Walk(ForRoot(root, gone), [NewFrame(valid.to.value, DEPTH)]))
         else At(s, k, Swing(root, gone, valid.to))
       case _ => At(s, k, Done))
    case TrySwing(k) =>
      var Swing(root, gone, held) := s.ops[k];
      if s.cells[root].link == Ptr(Some(gone), Plain)
      then At(s, k, Done).(cells := Relink(s.cells, root, Ptr(held, Plain)))
      else At(s, k, Done)
    case PopDelete(k) => At(DoDelete(s, s.ops[k].entry), k, Done)
    case Die(x) => s.(dead := s.dead + {x})
    case Destroy(x) => s.(cells := s.cells - {x}, dead := s.dead - {x})
  }

  const INITIAL: State := State(map[], {}, [], [])

  ghost predicate Run(states: seq<State>, actions: seq<Action>) {
    && |states| == |actions| + 1 && states[0] == INITIAL
    && forall n :: 0 <= n < |actions| ==> Can(states[n], actions[n]) && states[n + 1] == Do(states[n], actions[n])
  }
}
