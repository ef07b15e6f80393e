/** The queue (src/queue.rs) over all interleavings: first in, first out. */
module QueueRuns {
  import opened Base
  import opened Chain
  import opened ChainOrder
  import opened ChainSafety
  import opened ChainSteps
  import opened ChainInv
  import opened ChainTheorems

  /** What the queue does to its list: entries are linked behind a cell whose link is null, be it the
      last entry, wherever `newest` and the traversal led, or `oldest` itself; entries are deleted by
      poppers only. */
  predicate QueueAction(a: Action) {
    match a
    case NewRoot(_, _) => false
    case Split(_, _, _) => false
    case Mark(_) => false
    case Unmark(_) => false
    case Delete(_) => false
    case StartInsert(_, seen, tag) => seen == NULL && tag == Plain
    case _ => true
  }

  ghost predicate QueueRun(states: seq<State>, actions: seq<Action>, r: Id) {
    && Run(states, actions) && |actions| > 0 && actions[0].NewRoot? && actions[0].r == r
    && forall n :: 1 <= n < |actions| ==> QueueAction(actions[n])
  }

  // ---------------------------------------------------------------- the invariant of a queue

  ghost predicate OnlyRoot(cells: Cells, r: Id) {
    r in cells && cells[r].root && forall c :: c in cells && cells[c].root ==> c == r
  }

  /** An entry read from `oldest` is the oldest entry, or deleted. */
  ghost predicate PopOk(cells: Cells, order: seq<Id>, op: Op) {
    match op
    case Insert(_, seen, tag) => seen == NULL && tag == Plain
    case InsertTry(_, seen, tag, _) => seen == NULL && tag == Plain
    case Pop(_, e) => Deleted(cells, e) || (|order| >= 2 && order[1] == e)
    case _ => true
  }

  ghost predicate QueueOk(s: State, r: Id) {
    && OnlyRoot(s.cells, r) && s.order != [] && s.order[0] == r
    && forall k :: 0 <= k < |s.ops| ==> PopOk(s.cells, s.order, s.ops[k])
  }

  /** The entries in the queue, oldest first. */
  function Queue(s: State): seq<Id> { if s.order == [] then [] else s.order[1..] }

  /** There is one list only. */
  lemma AllFollow(cells: Cells, r: Id, c: Id, x: Id)
    requires OnlyRoot(cells, r) && Rooted(cells) && c in cells && x in cells && cells[c].rank < cells[x].rank
    ensures Follows(cells, c, x)
  {
    if c != r {
      var q :| RootBelow(cells, c, q);
      assert q == r;
    }
  }

  lemma NothingBehind(s: State, r: Id, h: Id, x: Id)
    requires Inv(s) && OnlyRoot(s.cells, r) && h in s.cells && s.cells[h].link.to == None && RankLess(s.cells, h, x)
    ensures Deleted(s.cells, x)
  {
    RootedOf(s.cells) by { Parts(s); }
    AllFollow(s.cells, r, h, x);
    hide Inv, OnlyRoot, Follows, Deleted;
    NullIsLast(s, h, x);
  }

  lemma RootedOf(cells: Cells)
    requires CellsOk(cells)
    ensures Rooted(cells)
  {}

  lemma InOrderIs(s: State, i: nat)
    requires Inv(s) && i < |s.order|
    ensures s.order[i] in s.cells && !Deleted(s.cells, s.order[i])
    ensures forall j :: i < j < |s.order| ==> RankLess(s.cells, s.order[i], s.order[j])
  {
    assert s.order[i] in s.order;
    hide CellsOk, DeadOk, OpsOk, Deleted;
  }

  /** A cell without successor is the last in the abstract list. */
  lemma NullEnds(s: State, r: Id, h: Id)
    requires Inv(s) && OnlyRoot(s.cells, r) && h in s.cells && s.cells[h].link.to == None && h in s.order
    ensures Position(s.order, h) == |s.order| - 1 && s.order[|s.order| - 1] == h
  {
    hide Inv, OnlyRoot, Deleted;
    var i := Position(s.order, h);
    InOrderIs(s, i);
    if i + 1 < |s.order| {
      InOrderIs(s, i + 1);
      NothingBehind(s, r, h, s.order[i + 1]);
      assert false;
    }
  }

  lemma NothingBetween(s: State, r: Id, e: Id, x: Id)
    requires Inv(s) && OnlyRoot(s.cells, r) && r in s.cells && s.cells[r].link.to == Some(e)
    requires RankLess(s.cells, r, x) && RankLess(s.cells, x, e)
    ensures Deleted(s.cells, x)
  {
    RootedOf(s.cells) by { Parts(s); }
    AllFollow(s.cells, r, r, x);
    hide Inv, OnlyRoot, Follows, Deleted;
    RootIsFirst(s, r, e, x);
  }

  /** What `oldest` points to is the oldest entry, or deleted. */
  lemma RootPoints(s: State, r: Id, e: Id)
    requires Inv(s) && OnlyRoot(s.cells, r) && r in s.cells && s.cells[r].link.to == Some(e)
    requires s.order != [] && s.order[0] == r
    ensures e in s.cells && e != r
    ensures Deleted(s.cells, e) || (|s.order| >= 2 && s.order[1] == e)
  {
    hide *;
    Parts(s);
    LinkOf(s.cells, r);
    KnownEntry(s.cells, s.cells[r].link.to);
    RootIs(s.cells, r);
    if !Deleted(s.cells, e) {
      InOrder(s, e);
      var j :| 0 <= j < |s.order| && s.order[j] == e;
      InOrderIs(s, 0);
      InOrderIs(s, 1);
      if j > 1 { NothingBetween(s, r, e, s.order[1]); }
    }
  }

  lemma RootIs(cells: Cells, r: Id)
    requires OnlyRoot(cells, r)
    ensures r in cells && cells[r].root
  {}

  // ---------------------------------------------------------------- every step

  /** Neither roots nor the abstract list nor what is deleted changes. */
  ghost predicate SameQueue(s: State, t: State) {
    && t.order == s.order
    && (forall c :: c in t.cells && t.cells[c].root ==> c in s.cells && s.cells[c].root)
    && (forall c :: c in s.cells && s.cells[c].root ==> c in t.cells && t.cells[c].root)
  }

  /** Entries that operations refer to stay deleted. */
  ghost predicate StillDeleted(s: State, t: State, op: Op) {
    op.Pop? ==> (Deleted(s.cells, op.entry) ==> Deleted(t.cells, op.entry))
  }

  lemma QueueKept(s: State, t: State, r: Id)
    requires QueueOk(s, r) && SameQueue(s, t) && |t.ops| >= |s.ops|
    requires forall k :: 0 <= k < |s.ops| ==>
      (t.ops[k] == s.ops[k] && StillDeleted(s, t, s.ops[k])) || PopOk(t.cells, t.order, t.ops[k])
    requires forall k :: |s.ops| <= k < |t.ops| ==> PopOk(t.cells, t.order, t.ops[k])
    ensures QueueOk(t, r)
  {
    hide Deleted;
    forall k | 0 <= k < |t.ops|
      ensures PopOk(t.cells, t.order, t.ops[k])
    {
      if k < |s.ops| { assert PopOk(s.cells, s.order, s.ops[k]); }
    }
  }

  lemma PopsStay(s: State, a: Action, k: nat)
    requires Inv(s) && Can(s, a) && k < |s.ops| && (s.ops[k].Pop? ==> s.ops[k].entry in Do(s, a).cells)
    ensures StillDeleted(s, Do(s, a), s.ops[k])
  {
    hide Inv, Do;
    if s.ops[k].Pop? { StepPersists(s, a, s.ops[k].entry); }
  }

  lemma QueueStarts(s: State, a: Action, r: Id)
    requires Inv(s) && QueueOk(s, r) && QueueAction(a) && Can(s, a)
    requires a.StartInsert? || a.StartWalk? || a.StartCleanup? || a.StartPop?
    ensures QueueOk(Do(s, a), r)
  {
    if a.StartPop? {
      assert a.root == r;
      RootPoints(s, r, s.cells[r].link.to.value);
    }
    hide Inv, Deleted, OnlyRoot, FrameAt;
  }

  /** Does this action link a new entry, or delete the oldest one? */
  predicate Pushes(s: State, a: Action) {
    a.TryInsert? && a.k < |s.ops| && s.ops[a.k].InsertTry? && s.ops[a.k].head in s.cells
    && s.cells[s.ops[a.k].head].link == s.ops[a.k].seen && !a.flaky
  }

  predicate Takes(s: State, a: Action) {
    && a.PopDelete? && a.k < |s.ops| && s.ops[a.k].Pop?
    && s.ops[a.k].entry in s.cells && !Deleted(s.cells, s.ops[a.k].entry)
  }

  lemma PopOkAt(s: State, r: Id, k: nat)
    requires QueueOk(s, r) && k < |s.ops|
    ensures PopOk(s.cells, s.order, s.ops[k])
  {
    hide PopOk, OnlyRoot;
  }

  /** A push comes last. */
  lemma PushIsLast(s: State, a: Action, r: Id)
    requires Inv(s) && QueueOk(s, r) && Can(s, a) && Pushes(s, a)
    ensures var h := s.ops[a.k].head;
      && s.cells[h].link.to == None && h in s.order && s.order[|s.order| - 1] == h
      && AddBehind(s.order, h, a.q) == s.order + [a.q]
  {
    var h := s.ops[a.k].head;
    InsertLinks(s, a.k);
    PopOkAt(s, r, a.k);
    hide Inv, OnlyRoot, QueueOk;
    InOrder(s, h);
    assert OnlyRoot(s.cells, r) by { RootOnly(s, r); }
    NullEnds(s, r, h);
    assert s.order[..|s.order|] == s.order;
    hide Position;
  }

  lemma RootOnly(s: State, r: Id)
    requires QueueOk(s, r)
    ensures OnlyRoot(s.cells, r) && s.order != [] && s.order[0] == r
  {
    hide OnlyRoot, PopOk;
  }

  lemma TakesFirst(s: State, a: Action)
    requires Takes(s, a) && PopOk(s.cells, s.order, s.ops[a.k])
    ensures |s.order| >= 2 && s.order[1] == s.ops[a.k].entry && s.ops[a.k].entry in s.cells
  {
    hide Deleted;
  }

  lemma TakesOf(s: State, a: Action)
    requires Takes(s, a)
    ensures a.PopDelete? && a.k < |s.ops| && s.ops[a.k].Pop?
  {
    hide Deleted;
  }

  lemma RemoveSecond(order: seq<Id>)
    requires |order| >= 2 && order[0] != order[1]
    ensures Remove(order, order[1]) == [order[0]] + order[2..]
  {
    assert Position(order, order[1]) == 1;
    assert order[..1] == [order[0]];
  }

  lemma RanksDiffer(cells: Cells, x: Id, y: Id)
    requires RankLess(cells, x, y)
    ensures x != y
  {}

  /** A pop takes the oldest entry. */
  lemma PopIsFirst(s: State, a: Action, r: Id)
    requires Inv(s) && QueueOk(s, r) && Can(s, a) && Takes(s, a)
    ensures a.PopDelete? && a.k < |s.ops| && s.ops[a.k].Pop?
    ensures |s.order| >= 2 && s.order[1] == s.ops[a.k].entry && s.ops[a.k].entry != s.order[0]
    ensures Remove(s.order, s.order[1]) == [s.order[0]] + s.order[2..]
  {
    hide *;
    TakesOf(s, a);
    PopOkAt(s, r, a.k);
    TakesFirst(s, a);
    InOrderIs(s, 0);
    RanksDiffer(s.cells, s.order[0], s.order[1]);
    RemoveSecond(s.order);
  }

  lemma QueuePush(s: State, a: Action, r: Id)
    requires Inv(s) && QueueOk(s, r) && Can(s, a) && Pushes(s, a)
    ensures Do(s, a).order == s.order + [a.q] && QueueOk(Do(s, a), r)
  {
    var t := Do(s, a);
    PushIsLast(s, a, r);
    RootOnly(s, r);
    PushShape(s, a, r);
    forall l | 0 <= l < |t.ops|
      ensures PopOk(t.cells, t.order, t.ops[l])
    {
      if l != a.k {
        PopOkAt(s, r, l);
        PushPop(s, a, l);
      }
    }
    hide Inv, Do, Can, PopOk, OnlyRoot;
  }

  lemma PushShape(s: State, a: Action, r: Id)
    requires Can(s, a) && Pushes(s, a) && OnlyRoot(s.cells, r)
    requires AddBehind(s.order, s.ops[a.k].head, a.q) == s.order + [a.q]
    ensures var t := Do(s, a);
      t.order == s.order + [a.q] && t.ops == s.ops[a.k := Done] && OnlyRoot(t.cells, r)
  {
    hide AddBehind, Behind;
  }

  lemma PushPop(s: State, a: Action, l: nat)
    requires Inv(s) && Can(s, a) && Pushes(s, a) && l < |s.ops| && l != a.k && PopOk(s.cells, s.order, s.ops[l])
    requires AddBehind(s.order, s.ops[a.k].head, a.q) == s.order + [a.q]
    ensures var t := Do(s, a); l < |t.ops| && PopOk(t.cells, t.order, t.ops[l])
  {
    if s.ops[l].Pop? && Deleted(s.cells, s.ops[l].entry) { StepPersists(s, a, s.ops[l].entry); PushKeys(s, a); }
    hide Inv, AddBehind, Behind, Deleted;
  }

  lemma PushKeys(s: State, a: Action)
    requires Can(s, a) && Pushes(s, a)
    ensures s.cells.Keys <= Do(s, a).cells.Keys
  {
    hide AddBehind, Behind;
  }

  lemma QueuePop(s: State, a: Action, r: Id)
    requires Inv(s) && QueueOk(s, r) && Can(s, a) && Takes(s, a)
    ensures Do(s, a).order == [s.order[0]] + s.order[2..] && |s.order| >= 2 && QueueOk(Do(s, a), r)
  {
    hide *;
    var t := Do(s, a);
    PopIsFirst(s, a, r);
    RootOnly(s, r);
    TakesIn(s, a);
    NotRoot(s, r, s.ops[a.k].entry);
    PopShape(s, a, r);
    forall l | 0 <= l < |t.ops|
      ensures PopOk(t.cells, t.order, t.ops[l])
    {
      if l != a.k {
        PopOkAt(s, r, l);
        OtherPops(s, t, s.ops[l]);
      } else {
        DoneOk(t.cells, t.order);
      }
    }
    QueueOkIs(t, r);
  }

  lemma TakesIn(s: State, a: Action)
    requires Takes(s, a)
    ensures s.ops[a.k].entry in s.cells
  {}

  lemma NotRoot(s: State, r: Id, e: Id)
    requires OnlyRoot(s.cells, r) && e in s.cells && e != r
    ensures !s.cells[e].root
  {}

  lemma DoneOk(cells: Cells, order: seq<Id>)
    ensures PopOk(cells, order, Done)
  {}

  lemma OtherPops(s: State, t: State, op: Op)
    requires PopOk(s.cells, s.order, op) && |s.order| >= 2 && Deleted(t.cells, s.order[1])
    requires forall x :: Deleted(s.cells, x) ==> Deleted(t.cells, x)
    ensures PopOk(t.cells, t.order, op)
  {
    hide Deleted;
  }

  lemma QueueOkIs(s: State, r: Id)
    requires OnlyRoot(s.cells, r) && s.order != [] && s.order[0] == r
    requires forall k :: 0 <= k < |s.ops| ==> PopOk(s.cells, s.order, s.ops[k])
    ensures QueueOk(s, r)
  {
    hide OnlyRoot, PopOk;
  }

  lemma PopShape(s: State, a: Action, r: Id)
    requires Can(s, a) && Takes(s, a) && OnlyRoot(s.cells, r) && !s.cells[s.ops[a.k].entry].root
    ensures var t := Do(s, a); var e := s.ops[a.k].entry;
      && t.order == Remove(s.order, e) && t.ops == s.ops[a.k := Done] && OnlyRoot(t.cells, r)
      && Deleted(t.cells, e) && forall x :: Deleted(s.cells, x) ==> Deleted(t.cells, x)
  {
    hide Remove;
  }

  /** All other steps leave the queue alone. */
  lemma QueueRest(s: State, a: Action, r: Id)
    requires Inv(s) && QueueOk(s, r) && QueueAction(a) && Can(s, a) && !Pushes(s, a) && !Takes(s, a)
    requires
      || a.Share? || a.TryInsert? || a.WalkStep? || a.ShareWalked?
      || a.TrySwing? || a.PopDelete? || a.Die? || a.Destroy?
    ensures QueueOk(Do(s, a), r) && Do(s, a).order == s.order
  {
    var t := Do(s, a);
    RestShape(s, a);
    hide Inv, Do, OnlyRoot, Can, QueueOk, SameQueue, StillDeleted;
    forall k | 0 <= k < |s.ops| && t.ops[k] == s.ops[k]
      ensures StillDeleted(s, t, s.ops[k])
    {
      EntryStays(s, a, k);
      PopsStay(s, a, k);
    }
    if a.Share? { PopOkAt(s, r, a.k); }
    QueueKept(s, t, r);
  }

  lemma PopEntry(s: State, k: nat)
    requires Inv(s) && k < |s.ops|
    ensures s.ops[k].Pop? ==> s.ops[k].entry in s.cells
  {
    OpIn(s, k);
    hide Inv, Held, FramesOk, GoalOk, Span, Entry;
  }

  lemma KeysStay(s: State, a: Action)
    requires Can(s, a) && (a.Share? || a.TryInsert? || a.ShareWalked? || a.TrySwing? || a.PopDelete? || a.Die?)
    ensures s.cells.Keys <= Do(s, a).cells.Keys
  {
    hide AddBehind, Behind, Held, Refs, Remove;
  }

  lemma KeysAfterDestroy(s: State, a: Action, k: nat)
    requires Can(s, a) && a.Destroy? && k < |s.ops|
    ensures s.ops[k].Pop? && s.ops[k].entry in s.cells ==> s.ops[k].entry in Do(s, a).cells
  {
    hide Deleted;
    assert a.x !in Refs(s.ops[k]);
  }

  lemma EntryStays(s: State, a: Action, k: nat)
    requires Inv(s) && Can(s, a) && k < |s.ops|
    requires
      || a.Share? || a.TryInsert? || a.WalkStep? || a.ShareWalked?
      || a.TrySwing? || a.PopDelete? || a.Die? || a.Destroy?
    ensures s.ops[k].Pop? ==> s.ops[k].entry in Do(s, a).cells
  {
    hide *;
    PopEntry(s, k);
    if a.WalkStep? {
      WalkPersists(s, a.k, 0);
    } else if a.Destroy? {
      KeysAfterDestroy(s, a, k);
    } else {
      KeysStay(s, a);
    }
  }

  lemma RestOps(s: State, a: Action)
    requires Can(s, a) && (a.Share? || a.TryInsert? || a.ShareWalked? || a.TrySwing? || a.PopDelete?)
    ensures var t := Do(s, a);
      && |t.ops| == |s.ops| && a.k < |s.ops| && t.ops == s.ops[a.k := t.ops[a.k]]
      && (t.ops[a.k].Walk? || t.ops[a.k].Swing? || t.ops[a.k].Done?
          || (a.Share? && t.ops[a.k].InsertTry?
              && t.ops[a.k].seen == s.ops[a.k].seen && t.ops[a.k].tag == s.ops[a.k].tag))
  {
    hide AddBehind, Behind, Held, Refs, Remove, Relink;
  }

  lemma RestRoots(s: State, a: Action)
    requires Can(s, a) && !Pushes(s, a) && !Takes(s, a)
    requires a.Share? || a.TryInsert? || a.ShareWalked? || a.TrySwing? || a.PopDelete?
    ensures SameQueue(s, Do(s, a))
  {
    hide AddBehind, Held, Refs, Remove;
  }

  lemma DieShape(s: State, a: Action)
    requires Can(s, a) && (a.Die? || (a.Destroy? && (a.x in s.cells ==> !s.cells[a.x].root)))
    ensures SameQueue(s, Do(s, a)) && Do(s, a).ops == s.ops
  {
    hide Held, Refs;
  }

  lemma DestroysEntry(s: State, a: Action)
    requires Inv(s) && Can(s, a) && a.Destroy?
    ensures a.x in s.cells ==> !s.cells[a.x].root
  {
    Parts(s);
    DeadAt(s.cells, s.dead, a.x);
    hide Inv, CellsOk, DeadOk, OrderOk;
  }

  /** What the other steps change. */
  lemma RestShape(s: State, a: Action)
    requires Inv(s) && Can(s, a) && !Pushes(s, a) && !Takes(s, a)
    requires
      || a.Share? || a.TryInsert? || a.WalkStep? || a.ShareWalked?
      || a.TrySwing? || a.PopDelete? || a.Die? || a.Destroy?
    ensures var t := Do(s, a);
      && SameQueue(s, t) && |t.ops| == |s.ops|
      && (if a.Die? || a.Destroy? then t.ops == s.ops
          else a.k < |s.ops| && t.ops == s.ops[a.k := t.ops[a.k]]
               && (t.ops[a.k].Walk? || t.ops[a.k].Walked? || t.ops[a.k].Swing? || t.ops[a.k].Done?
                   || (a.Share? && t.ops[a.k].InsertTry?
                       && t.ops[a.k].seen == s.ops[a.k].seen && t.ops[a.k].tag == s.ops[a.k].tag)))
  {
    hide Inv, Do, SameQueue, Pushes, Takes, Can;
    if a.WalkStep? {
      WalkShape(s, a.k);
    } else if a.Die? || a.Destroy? {
      if a.Destroy? { DestroysEntry(s, a); }
      DieShape(s, a);
    } else {
      RestOps(s, a);
      RestRoots(s, a);
    }
  }

  lemma WalkOps(s: State, k: nat)
    requires Can(s, WalkStep(k))
    ensures var t := Do(s, WalkStep(k));
      k < |s.ops| == |t.ops| && t.ops == s.ops[k := t.ops[k]] && (t.ops[k].Walk? || t.ops[k].Walked?)
  {
    hide Relink;
  }

  lemma WalkShape(s: State, k: nat)
    requires Inv(s) && Can(s, WalkStep(k))
    ensures var t := Do(s, WalkStep(k));
      SameQueue(s, t) && k < |s.ops| == |t.ops| && t.ops == s.ops[k := t.ops[k]] && (t.ops[k].Walk? || t.ops[k].Walked?)
  {
    WalkOps(s, k);
    hide Inv, Do, Can, Deleted;
    var t := Do(s, WalkStep(k));
    WalkPersists(s, k, 0);
    forall c | c in s.cells
      ensures t.cells[c].root == s.cells[c].root
    {
      WalkPersists(s, k, c);
    }
  }

  // ---------------------------------------------------------------- whole runs

  lemma QueueStep(s: State, a: Action, r: Id)
    requires Inv(s) && QueueOk(s, r) && QueueAction(a) && Can(s, a)
    ensures QueueOk(Do(s, a), r) && (Takes(s, a) ==> Queue(s) != [])
    ensures Queue(Do(s, a)) ==
      if Pushes(s, a) then Queue(s) + [a.q] else if Takes(s, a) then Queue(s)[1..] else Queue(s)
    ensures Takes(s, a) ==> Queue(s) != [] && Queue(s)[0] == s.ops[a.k].entry
  {
    RootOnly(s, r);
    hide Inv, Do, Can, QueueOk, OnlyRoot;
    if Pushes(s, a) {
      QueuePush(s, a, r);
      assert (s.order + [a.q])[1..] == s.order[1..] + [a.q];
    } else if Takes(s, a) {
      QueuePop(s, a, r);
      PopIsFirst(s, a, r);
      assert ([s.order[0]] + s.order[2..])[1..] == s.order[1..][1..];
    } else if a.StartInsert? || a.StartWalk? || a.StartCleanup? || a.StartPop? {
      QueueStarts(s, a, r);
      StartOrder(s, a);
    } else {
      QueueRest(s, a, r);
    }
  }

  lemma StartOrder(s: State, a: Action)
    requires Can(s, a) && (a.StartInsert? || a.StartWalk? || a.StartCleanup? || a.StartPop?)
    ensures Do(s, a).order == s.order
  {}

  lemma FirstStep(s: State, a: Action)
    requires s == INITIAL && Can(s, a) && a.NewRoot?
    ensures QueueOk(Do(s, a), a.r) && Queue(Do(s, a)) == []
  {}

  lemma {:induction false} RunQueue(states: seq<State>, actions: seq<Action>, r: Id, n: nat)
    requires QueueRun(states, actions, r) && 1 <= n < |states|
    ensures Inv(states[n]) && QueueOk(states[n], r)
  {
    hide Inv, Can, Do, QueueAction;
    RunInv(states, actions, n);
    if n == 1 {
      FirstStep(states[0], actions[0]);
    } else {
      RunQueue(states, actions, r, n - 1);
      QueueStep(states[n - 1], actions[n - 1], r);
    }
  }

  /** The entries pushed, and those popped, in the order in which that took effect. */
  function Pushed(states: seq<State>, actions: seq<Action>, n: nat): seq<Id>
    requires n <= |actions| < |states|
  {
    if n == 0 then []
    else Pushed(states, actions, n - 1) + if Pushes(states[n - 1], actions[n - 1]) then [actions[n - 1].q] else []
  }

  function Popped(states: seq<State>, actions: seq<Action>, n: nat): seq<Id>
    requires n <= |actions| < |states|
  {
    if n == 0 then []
    else
      Popped(states, actions, n - 1)
      + if Takes(states[n - 1], actions[n - 1]) then [states[n - 1].ops[actions[n - 1].k].entry] else []
  }

  /** First in, first out, over all interleavings: what was popped, followed by what is in the queue, is
      what was pushed, in the same order.  So the deleted entries are always a prefix of the append
      order, and pops succeed exactly in append order, however stale `newest` is. */
  lemma {:induction false} FirstInFirstOut(states: seq<State>, actions: seq<Action>, r: Id, n: nat)
    requires QueueRun(states, actions, r) && 1 <= n < |states|
    ensures Pushed(states, actions, n) == Popped(states, actions, n) + Queue(states[n])
  {
    hide Inv, Can, Do, QueueAction, Pushes, Takes;
    if n == 1 {
      FirstStep(states[0], actions[0]);
      FirstIsNeither(states[0], actions[0]);
      assert Pushed(states, actions, 0) == [] && Popped(states, actions, 0) == [];
    } else {
      FirstInFirstOut(states, actions, r, n - 1);
      RunQueue(states, actions, r, n - 1);
      var s, a := states[n - 1], actions[n - 1];
      QueueStep(s, a, r);
      NotBoth(s, a);
      hide Queue, QueueRun, QueueOk;
      if Takes(s, a) { assert Queue(s) == [Queue(s)[0]] + Queue(s)[1..]; }
    }
  }

  lemma FirstIsNeither(s: State, a: Action)
    requires a.NewRoot?
    ensures !Pushes(s, a) && !Takes(s, a)
  {}

  lemma NotBoth(s: State, a: Action)
    ensures !(Pushes(s, a) && Takes(s, a))
  {}

  /** `push_if` is atomic: when a push takes effect, the entry it was last judged by is the newest one
      in the queue, or, if it was judged by none, the queue is empty. */
  lemma ConditionalPush(states: seq<State>, actions: seq<Action>, r: Id, n: nat)
    requires QueueRun(states, actions, r) && 1 <= n < |actions| && Pushes(states[n], actions[n])
    ensures var q, judged := Queue(states[n]), states[n].ops[actions[n].k].head;
      if judged == r then q == [] else q != [] && q[|q| - 1] == judged
  {
    RunQueue(states, actions, r, n);
    assert Can(states[n], actions[n]);
    hide Inv, Can, Do, QueueRun, QueueOk, OnlyRoot, Pushes;
    PushIsLast(states[n], actions[n], r);
    RootOnly(states[n], r);
    NoRepeat(states[n]);
  }

  lemma NoRepeat(s: State)
    requires Inv(s)
    ensures forall i :: 0 < i < |s.order| ==> s.order[i] != s.order[0]
  {
    if s.order != [] { InOrderIs(s, 0); }
    hide Inv;
  }

  /** `oldest` never passes an entry: everything in front of what it points to is deleted, and when it
      is null, the queue is empty. */
  lemma OldestIsOldest(states: seq<State>, actions: seq<Action>, r: Id, n: nat)
    requires QueueRun(states, actions, r) && 1 <= n < |states|
    ensures r in states[n].cells
    ensures match states[n].cells[r].link.to
      case None => Queue(states[n]) == []
      case Some(e) => Deleted(states[n].cells, e) || (Queue(states[n]) != [] && Queue(states[n])[0] == e)
  {
    var s := states[n];
    RunQueue(states, actions, r, n);
    RootOnly(s, r);
    assert r in s.cells;
    hide Inv, QueueRun, QueueOk, OnlyRoot, Deleted;
    if s.cells[r].link.to == None {
      assert r in s.order;
      NullEnds(s, r, r);
    } else {
      RootPoints(s, r, s.cells[r].link.to.value);
    }
  }
}
