/** What each list contains, for any number of roots (stacks, queues, lists of the user), and how every
    step of any thread changes that (src/stack.rs, src/linked_list.rs). */
module ListRuns {
  import opened Base
  import opened Chain
  import opened ChainOrder
  import opened ChainSafety
  import opened ChainSteps
  import opened ChainInv
  import opened ChainTheorems
  import QueueRuns

  function After(order: seq<Id>, r: Id): seq<Id> {
    if order == [] then [] else if order[0] == r then order[1..] else After(order[1..], r)
  }

  function UpTo(order: seq<Id>, roots: set<Id>): seq<Id> {
    if order == [] || order[0] in roots then [] else [order[0]] + UpTo(order[1..], roots)
  }

  /** The part of the order that belongs to a root. */
  function Part(order: seq<Id>, roots: set<Id>, r: Id): seq<Id> { UpTo(After(order, r), roots) }

  function Roots(cells: Cells): set<Id> { set c | c in cells && cells[c].root }

  /** The contents of a list, first entry first. */
  function Entries(s: State, r: Id): seq<Id> { Part(s.order, Roots(s.cells), r) }

  predicate NoRepeats(order: seq<Id>) { forall i, j :: 0 <= i < j < |order| ==> order[i] != order[j] }

  // ---------------------------------------------------------------- sequences

  lemma Cons(x: Id, rest: seq<Id>)
    ensures ([x] + rest)[0] == x && ([x] + rest)[1..] == rest
  {}

  lemma UpToCons(x: Id, rest: seq<Id>, roots: set<Id>)
    ensures UpTo([x] + rest, roots) == if x in roots then [] else [x] + UpTo(rest, roots)
  {
    Cons(x, rest);
  }

  lemma AfterCons(x: Id, rest: seq<Id>, r: Id)
    ensures After([x] + rest, r) == if x == r then rest else After(rest, r)
  {
    Cons(x, rest);
  }

  lemma PositionCons(x: Id, rest: seq<Id>, h: Id)
    ensures Position([x] + rest, h) == if x == h then 0 else 1 + Position(rest, h)
  {
    Cons(x, rest);
  }

  lemma AddCons(x: Id, rest: seq<Id>, h: Id, q: Id)
    ensures AddBehind([x] + rest, h, q) == if x == h then [h] + ([q] + rest) else [x] + AddBehind(rest, h, q)
  {
    hide Position;
    PositionCons(x, rest, h);
    var all, i := [x] + rest, Position(rest, h);
    if x == h {
      assert all[..1] == [h] && all[1..] == rest;
    } else if i < |rest| {
      assert all[..i + 2] == [x] + rest[..i + 1];
      assert all[i + 2..] == rest[i + 1..];
      assert ([x] + rest[..i + 1]) + [q] + rest[i + 1..] == [x] + (rest[..i + 1] + [q] + rest[i + 1..]);
    }
  }

  lemma RemoveCons(x: Id, rest: seq<Id>, h: Id)
    ensures Remove([x] + rest, h) == if x == h then rest else [x] + Remove(rest, h)
  {
    hide Position;
    PositionCons(x, rest, h);
    var all, i := [x] + rest, Position(rest, h);
    if x == h {
      assert all[..0] == [] && all[1..] == rest;
    } else if i < |rest| {
      assert all[..i + 1] == [x] + rest[..i];
      assert all[i + 2..] == rest[i + 1..];
      assert ([x] + rest[..i]) + rest[i + 1..] == [x] + (rest[..i] + rest[i + 1..]);
    }
  }

  lemma Nils(roots: set<Id>, r: Id, h: Id, q: Id)
    ensures UpTo([], roots) == [] && After([], r) == [] && AddBehind([], h, q) == [] && Remove([], h) == []
  {}

  lemma {:induction false} UpToAdds(order: seq<Id>, roots: set<Id>, h: Id, q: Id)
    requires q !in roots
    ensures UpTo(AddBehind(order, h, q), roots) == AddBehind(UpTo(order, roots), h, q)
  {
    hide *;
    Nils(roots, h, h, q);
    if order != [] {
      var x, rest := order[0], order[1..];
      assert order == [x] + rest;
      UpToAdds(rest, roots, h, q);
      AddCons(x, rest, h, q);
      UpToCons(x, rest, roots);
      AddCons(x, UpTo(rest, roots), h, q);
      UpToCons(x, AddBehind(rest, h, q), roots);
      UpToCons(h, [q] + rest, roots);
      UpToCons(q, rest, roots);
    }
  }

  lemma {:induction false} UpToRemoves(order: seq<Id>, roots: set<Id>, x: Id)
    requires x !in roots
    ensures UpTo(Remove(order, x), roots) == Remove(UpTo(order, roots), x)
  {
    hide *;
    Nils(roots, x, x, x);
    if order != [] {
      var y, rest := order[0], order[1..];
      assert order == [y] + rest;
      UpToRemoves(rest, roots, x);
      RemoveCons(y, rest, x);
      UpToCons(y, rest, roots);
      RemoveCons(y, UpTo(rest, roots), x);
      UpToCons(y, Remove(rest, x), roots);
    }
  }

  lemma {:induction false} NotThere(order: seq<Id>, h: Id, q: Id)
    requires h !in order
    ensures AddBehind(order, h, q) == order && Remove(order, h) == order
  {
    if order != [] { NotThere(order[1..], h, q); }
  }

  lemma {:induction false} PartIn(order: seq<Id>, roots: set<Id>, r: Id)
    ensures forall x :: x in After(order, r) ==> x in order
    ensures forall x :: x in UpTo(order, roots) ==> x in order && x !in roots
  {
    if order != [] {
      PartIn(order[1..], roots, r);
      assert order == [order[0]] + order[1..];
    }
  }

  lemma RestNoRepeats(x: Id, rest: seq<Id>)
    requires NoRepeats([x] + rest)
    ensures NoRepeats(rest) && x !in rest
  {
    var all := [x] + rest;
    assert forall i :: 0 <= i < |rest| ==> rest[i] == all[i + 1] && all[i + 1] != all[0];
  }

  /** A new entry comes into the list its head belongs to, and into no other. */
  lemma {:induction false} PartAdds(order: seq<Id>, roots: set<Id>, r: Id, h: Id, q: Id)
    requires NoRepeats(order) && q !in roots && q != r && r in order
    ensures Part(AddBehind(order, h, q), roots, r)
         == if h == r then [q] + Part(order, roots, r) else AddBehind(Part(order, roots, r), h, q)
  {
    hide *;
    PartIs(order, roots, r);
    PartIs(AddBehind(order, h, q), roots, r);
    assert order != [];
    var x, rest := order[0], order[1..];
    assert order == [x] + rest;
    RestNoRepeats(x, rest);
    AddCons(x, rest, h, q);
    AfterCons(x, rest, r);
    AfterCons(x, AddBehind(rest, h, q), r);
    AfterCons(h, [q] + rest, r);
    AfterCons(q, rest, r);
    if x == r {
      UpToAdds(rest, roots, h, q);
      UpToCons(q, rest, roots);
    } else {
      PartIs(rest, roots, r);
      PartIs(AddBehind(rest, h, q), roots, r);
      PartAdds(rest, roots, r, h, q);
      if x == h {
        PartIn(rest, roots, r);
        PartIn(After(rest, r), roots, r);
        NotThere(Part(rest, roots, r), h, q);
      }
    }
  }

  lemma PartIs(order: seq<Id>, roots: set<Id>, r: Id)
    ensures Part(order, roots, r) == UpTo(After(order, r), roots)
  {}

  lemma {:induction false} PartRemoves(order: seq<Id>, roots: set<Id>, r: Id, x: Id)
    requires NoRepeats(order) && x !in roots && x != r && r in order
    ensures Part(Remove(order, x), roots, r) == Remove(Part(order, roots, r), x)
  {
    hide *;
    PartIs(order, roots, r);
    PartIs(Remove(order, x), roots, r);
    var y, rest := order[0], order[1..];
    assert order == [y] + rest;
    RestNoRepeats(y, rest);
    RemoveCons(y, rest, x);
    AfterCons(y, rest, r);
    AfterCons(y, Remove(rest, x), r);
    if y == r {
      UpToRemoves(rest, roots, x);
    } else {
      PartIs(rest, roots, r);
      PartIs(Remove(rest, x), roots, r);
      PartRemoves(rest, roots, r, x);
      if y == x {
        PartIn(rest, roots, r);
        PartIn(After(rest, r), roots, r);
        NotThere(Part(rest, roots, r), x, x);
      }
    }
  }

  lemma {:induction false} SameRoots(order: seq<Id>, roots: set<Id>, more: set<Id>, q: Id)
    requires q !in order && more == roots + {q}
    ensures UpTo(order, more) == UpTo(order, roots)
  {
    if order != [] { SameRoots(order[1..], roots, more, q); }
  }

  lemma {:induction false} UpToRoot(order: seq<Id>, roots: set<Id>, h: Id, q: Id)
    requires q in roots && h in roots && q !in order
    ensures UpTo(AddBehind(order, h, q), roots) == UpTo(order, roots)
  {
    hide *;
    Nils(roots, h, h, q);
    if order != [] {
      var x, rest := order[0], order[1..];
      assert order == [x] + rest;
      UpToRoot(rest, roots, h, q);
      AddCons(x, rest, h, q);
      UpToCons(x, rest, roots);
      UpToCons(x, AddBehind(rest, h, q), roots);
      UpToCons(h, [q] + rest, roots);
    }
  }

  /** A new root directly behind root `h` takes over its list. */
  lemma {:induction false} PartSplits(order: seq<Id>, roots: set<Id>, more: set<Id>, r: Id, h: Id, q: Id)
    requires q !in order && q !in roots && more == roots + {q} && h in roots && h in order && r in order && r != q
    ensures Part(AddBehind(order, h, q), more, q) == Part(order, roots, h)
    ensures Part(AddBehind(order, h, q), more, r) == if r == h then [] else Part(order, roots, r)
  {
    hide *;
    PartIs(order, roots, r);
    PartIs(order, roots, h);
    PartIs(AddBehind(order, h, q), more, r);
    PartIs(AddBehind(order, h, q), more, q);
    var x, rest := order[0], order[1..];
    assert order == [x] + rest;
    AddCons(x, rest, h, q);
    AfterCons(x, rest, r);
    AfterCons(x, rest, h);
    AfterCons(x, AddBehind(rest, h, q), r);
    AfterCons(x, AddBehind(rest, h, q), q);
    AfterCons(h, [q] + rest, r);
    AfterCons(h, [q] + rest, q);
    AfterCons(q, rest, r);
    AfterCons(q, rest, q);
    UpToCons(q, rest, more);
    SameRoots(rest, roots, more, q);
    if x == h {
      if x != r { SplitsOther(rest, roots, more, r, q); }
    } else if x == r {
      UpToRoot(rest, more, h, q);
      PartIs(rest, roots, h);
      PartIs(AddBehind(rest, h, q), more, q);
      PartIs(AddBehind(rest, h, q), more, h);
      PartSplits(rest, roots, more, h, h, q);
    } else {
      PartIs(rest, roots, r);
      PartIs(rest, roots, h);
      PartIs(AddBehind(rest, h, q), more, r);
      PartIs(AddBehind(rest, h, q), more, q);
      PartSplits(rest, roots, more, r, h, q);
    }
  }

  lemma SplitsOther(rest: seq<Id>, roots: set<Id>, more: set<Id>, r: Id, q: Id)
    requires q !in rest && more == roots + {q}
    ensures UpTo(After(rest, r), more) == UpTo(After(rest, r), roots)
  {
    PartIn(rest, roots, r);
    SameRoots(After(rest, r), roots, more, q);
  }

  /** A new root at the end has an empty list. */
  lemma {:induction false} UpToEnd(order: seq<Id>, roots: set<Id>, more: set<Id>, q: Id)
    requires q !in order && q !in roots && more == roots + {q}
    ensures UpTo(order + [q], more) == UpTo(order, roots)
  {
    hide *;
    Nils(roots, q, q, q);
    Nils(more, q, q, q);
    if order == [] {
      UpToCons(q, [], more);
      assert [] + [q] == [q] + [];
    } else {
      var x, rest := order[0], order[1..];
      assert order == [x] + rest && order + [q] == [x] + (rest + [q]);
      UpToEnd(rest, roots, more, q);
      UpToCons(x, rest, roots);
      UpToCons(x, rest + [q], more);
    }
  }

  lemma {:induction false} PartEnds(order: seq<Id>, roots: set<Id>, more: set<Id>, r: Id, q: Id)
    requires q !in order && q !in roots && more == roots + {q}
    ensures Part(order + [q], more, q) == []
    ensures r in order ==> Part(order + [q], more, r) == Part(order, roots, r)
  {
    hide *;
    PartIs(order + [q], more, q);
    PartIs(order + [q], more, r);
    PartIs(order, roots, r);
    Nils(more, q, q, q);
    if order == [] {
      AfterCons(q, [], q);
      assert [] + [q] == [q] + [];
    } else {
      var x, rest := order[0], order[1..];
      assert order == [x] + rest && order + [q] == [x] + (rest + [q]);
      PartEnds(rest, roots, more, r, q);
      PartIs(rest + [q], more, q);
      PartIs(rest + [q], more, r);
      PartIs(rest, roots, r);
      AfterCons(x, rest, r);
      AfterCons(x, rest + [q], r);
      AfterCons(x, rest + [q], q);
      UpToEnd(rest, roots, more, q);
    }
  }

  // ---------------------------------------------------------------- every step

  /** What a step makes of the list of a root: `pop_all` takes everything; an insertion behind the root
      comes first, one behind an entry directly behind that; a deletion takes out exactly one entry;
      nothing else changes any list. */
  ghost function Next(s: State, a: Action, r: Id): seq<Id>
    requires Can(s, a)
  {
    var list := Entries(s, r);
    match a
    case Split(old_, _, _) => if old_ == r then [] else list
    case TryInsert(k, q, _, _) =>
      if !QueueRuns.Pushes(s, a) then list
      else if s.ops[k].head == r then [q] + list
      else AddBehind(list, s.ops[k].head, q)
    case Delete(x) => Remove(list, x)
    case PopDelete(k) => Remove(list, s.ops[k].entry)
    case _ => list
  }

  lemma OrderFacts(s: State)
    requires Inv(s)
    ensures NoRepeats(s.order) && forall x :: x in s.order ==> x in s.cells && !Deleted(s.cells, x)
  {
    hide CellsOk, DeadOk, OpsOk, Deleted;
  }

  lemma RootIn(s: State, r: Id)
    requires Inv(s) && r in Roots(s.cells)
    ensures r in s.order && r in s.cells
  {
    InOrder(s, r) by { hide Inv; }
    hide Inv;
  }

  /** The list of a root has only entries that are not deleted. */
  lemma EntriesLive(s: State, r: Id, x: Id)
    requires Inv(s) && x in Entries(s, r)
    ensures x in s.order && x in s.cells && !Deleted(s.cells, x) && !s.cells[x].root
  {
    OrderFacts(s);
    hide Inv, Deleted;
    PartIn(s.order, Roots(s.cells), r);
    PartIn(After(s.order, r), Roots(s.cells), r);
  }

  lemma NewRootShape(s: State, a: Action)
    requires Can(s, a) && a.NewRoot?
    ensures var t := Do(s, a); t.order == s.order + [a.r] && Roots(t.cells) == Roots(s.cells) + {a.r} && a.r !in s.cells
  {}

  lemma SplitShape(s: State, a: Action)
    requires Can(s, a) && a.Split?
    ensures var t := Do(s, a);
      && t.order == AddBehind(s.order, a.r, a.new_) && Roots(t.cells) == Roots(s.cells) + {a.new_}
      && a.new_ !in s.cells && a.r in Roots(s.cells)
  {
    hide AddBehind, Behind;
  }

  lemma PushShape(s: State, a: Action)
    requires Can(s, a) && QueueRuns.Pushes(s, a)
    ensures var t := Do(s, a);
      && t.order == AddBehind(s.order, s.ops[a.k].head, a.q) && Roots(t.cells) == Roots(s.cells) && a.q !in s.cells
  {
    hide AddBehind, Behind;
  }

  predicate Pops(s: State, k: nat, x: Id) { k < |s.ops| && s.ops[k].Pop? && s.ops[k].entry == x }

  lemma DeleteShape(s: State, a: Action, x: Id)
    requires Can(s, a) && (a == Delete(x) || (a.PopDelete? && Pops(s, a.k, x)))
    ensures var t := Do(s, a);
      && t.order == (if x in s.cells && !s.cells[x].root && !Deleted(s.cells, x) then Remove(s.order, x) else s.order)
      && Roots(t.cells) == Roots(s.cells)
  {
    hide Remove;
  }

  lemma TagShape(s: State, a: Action)
    requires Can(s, a) && (a.Mark? || a.Unmark?)
    ensures Do(s, a).order == s.order && Roots(Do(s, a).cells) == Roots(s.cells)
  {}

  lemma StartShape(s: State, a: Action)
    requires Can(s, a) && (a.StartInsert? || a.StartWalk? || a.StartCleanup? || a.StartPop?)
    ensures Do(s, a).order == s.order && Do(s, a).cells == s.cells
  {}

  lemma SameShape(s: State, t: State)
    requires QueueRuns.SameQueue(s, t)
    ensures t.order == s.order && Roots(t.cells) == Roots(s.cells)
  {}

  lemma EntriesIs(s: State, r: Id)
    ensures Entries(s, r) == Part(s.order, Roots(s.cells), r)
  {}

  lemma RootsAre(cells: Cells)
    ensures forall x :: x in Roots(cells) <==> x in cells && cells[x].root
  {}

  lemma DeleteStep(s: State, a: Action, r: Id, x: Id)
    requires Inv(s) && Can(s, a) && r in Roots(s.cells) && (a == Delete(x) || (a.PopDelete? && Pops(s, a.k, x)))
    ensures r in Roots(Do(s, a).cells) && Entries(Do(s, a), r) == Remove(Entries(s, r), x)
  {
    hide *;
    EntriesIs(s, r);
    EntriesIs(Do(s, a), r);
    OrderFacts(s);
    RootIn(s, r);
    RootsAre(s.cells);
    DeleteShape(s, a, x);
    if x in s.cells && !s.cells[x].root && !Deleted(s.cells, x) {
      PartRemoves(s.order, Roots(s.cells), r, x);
    } else {
      if x in Entries(s, r) { EntriesLive(s, r, x); }
      NotThere(Entries(s, r), x, x);
    }
  }

  /** The concurrent lists refine sequences: in every reachable state every step of every thread changes
      the list of each root as specified, and no other way. */
  lemma ListStep(s: State, a: Action, r: Id)
    requires Inv(s) && Can(s, a) && r in Roots(s.cells)
    ensures r in Roots(Do(s, a).cells) && Entries(Do(s, a), r) == Next(s, a, r)
  {
    hide *;
    var t := Do(s, a);
    EntriesIs(s, r);
    EntriesIs(t, r);
    OrderFacts(s);
    RootIn(s, r);
    RootsAre(s.cells);
    NextIs(s, a, r);
    if a.NewRoot? {
      NewRootShape(s, a);
      PartEnds(s.order, Roots(s.cells), Roots(t.cells), r, a.r);
    } else if a.Split? {
      SplitShape(s, a);
      RootIn(s, a.r);
      PartSplits(s.order, Roots(s.cells), Roots(t.cells), r, a.r, a.new_);
    } else if a.Delete? {
      DeleteStep(s, a, r, a.x);
    } else if a.PopDelete? {
      DeleteStep(s, a, r, s.ops[a.k].entry);
    } else if QueueRuns.Pushes(s, a) {
      PushShape(s, a);
      PartAdds(s.order, Roots(s.cells), r, s.ops[a.k].head, a.q);
    } else if a.Mark? || a.Unmark? {
      TagShape(s, a);
    } else if a.StartInsert? || a.StartWalk? || a.StartCleanup? || a.StartPop? {
      StartShape(s, a);
    } else {
      NotTakes(s, a);
      QueueRuns.RestShape(s, a);
      SameShape(s, t);
    }
  }

  lemma NotTakes(s: State, a: Action)
    requires !a.PopDelete?
    ensures !QueueRuns.Takes(s, a)
  {}

  lemma NextIs(s: State, a: Action, r: Id)
    requires Can(s, a)
    ensures a.Split? ==> Next(s, a, r) == if a.r == r then [] else Entries(s, r)
    ensures a.Delete? ==> Next(s, a, r) == Remove(Entries(s, r), a.x)
    ensures a.PopDelete? ==>
      && a.k < |s.ops| && s.ops[a.k].Pop? && Pops(s, a.k, s.ops[a.k].entry)
      && Next(s, a, r) == Remove(Entries(s, r), s.ops[a.k].entry)
    ensures QueueRuns.Pushes(s, a) ==>
      && a.TryInsert? && a.k < |s.ops| && s.ops[a.k].InsertTry?
      && Next(s, a, r) ==
           if s.ops[a.k].head == r then [a.q] + Entries(s, r) else AddBehind(Entries(s, r), s.ops[a.k].head, a.q)
    ensures !a.Split? && !a.Delete? && !a.PopDelete? && !QueueRuns.Pushes(s, a) ==> Next(s, a, r) == Entries(s, r)
  {
    hide Entries, AddBehind, Remove, Behind, Held, Refs;
  }

  /** `pop_all`: the new root has exactly the list the old one had; a new root has none. */
  lemma RootStep(s: State, a: Action)
    requires Inv(s) && Can(s, a) && (a.Split? || a.NewRoot?)
    ensures a.Split? ==> a.new_ in Roots(Do(s, a).cells) && Entries(Do(s, a), a.new_) == Entries(s, a.r)
    ensures a.NewRoot? ==> a.r in Roots(Do(s, a).cells) && Entries(Do(s, a), a.r) == []
  {
    hide *;
    var t := Do(s, a);
    OrderFacts(s);
    RootsAre(s.cells);
    if a.Split? {
      EntriesIs(s, a.r);
      EntriesIs(t, a.new_);
      SplitShape(s, a);
      RootIn(s, a.r);
      PartSplits(s.order, Roots(s.cells), Roots(t.cells), a.r, a.r, a.new_);
    } else {
      EntriesIs(t, a.r);
      NewRootShape(s, a);
      PartEnds(s.order, Roots(s.cells), Roots(t.cells), a.r, a.r);
    }
  }

  // ---------------------------------------------------------------- lists and links

  lemma {:induction false} FoundIn(a: seq<Id>, roots: set<Id>, x: Id) returns (j: nat)
    requires x in UpTo(a, roots)
    ensures j < |a| && a[j] == x && forall m :: 0 <= m <= j ==> a[m] !in roots
  {
    if a[0] == x {
      j := 0;
    } else {
      assert UpTo(a, roots) == [a[0]] + UpTo(a[1..], roots);
      var i := FoundIn(a[1..], roots, x);
      j := i + 1;
      forall m | 0 <= m <= j
        ensures a[m] !in roots
      {
        if m > 0 { assert a[1..][m - 1] == a[m]; }
      }
    }
  }

  lemma {:induction false} UpToHas(a: seq<Id>, roots: set<Id>, j: nat)
    requires j < |a| && forall m :: 0 <= m <= j ==> a[m] !in roots
    ensures a[j] in UpTo(a, roots)
  {
    if j > 0 {
      assert forall m :: 0 <= m <= j - 1 ==> a[1..][m] == a[m + 1];
      UpToHas(a[1..], roots, j - 1);
    }
  }

  lemma {:induction false} AfterIs(order: seq<Id>, r: Id)
    requires r in order
    ensures Position(order, r) < |order| && order[Position(order, r)] == r
    ensures After(order, r) == order[Position(order, r) + 1..]
  {
    if order[0] != r {
      assert order == [order[0]] + order[1..];
      AfterIs(order[1..], r);
    }
  }

  lemma RanksAre(cells: Cells, x: Id, y: Id)
    requires RankLess(cells, x, y)
    ensures x in cells && y in cells && cells[x].rank < cells[y].rank
  {}

  lemma Sorted(s: State, i: nat, j: nat)
    requires Inv(s) && i < |s.order| && j < |s.order|
    ensures s.order[i] in s.cells && s.order[j] in s.cells
    ensures s.cells[s.order[i]].rank < s.cells[s.order[j]].rank <==> i < j
  {
    hide *;
    QueueRuns.InOrderIs(s, i);
    QueueRuns.InOrderIs(s, j);
    if i < j { RanksAre(s.cells, s.order[i], s.order[j]); }
    if j < i { RanksAre(s.cells, s.order[j], s.order[i]); }
  }

  /** The entries of a list are exactly the entries that follow its root and are not deleted. */
  lemma EntriesFollow(s: State, r: Id, x: Id)
    requires Inv(s) && r in Roots(s.cells) && x in Entries(s, r)
    ensures Follows(s.cells, r, x) && !Deleted(s.cells, x)
  {
    hide Inv, Deleted, UpTo, After, Position;
    EntriesLive(s, r, x);
    RootIn(s, r);
    AfterIs(s.order, r);
    var i := Position(s.order, r);
    var j := FoundIn(After(s.order, r), Roots(s.cells), x);
    Sorted(s, i, i + 1 + j);
    forall m | i < m <= i + 1 + j
      ensures s.order[m] !in Roots(s.cells)
    {
      assert s.order[i + 1..][m - i - 1] == s.order[m];
    }
    forall q | q in s.cells && s.cells[q].root
      ensures !(s.cells[r].rank < s.cells[q].rank <= s.cells[x].rank)
    {
      RootIn(s, q);
      AfterIs(s.order, q);
      var m := Position(s.order, q);
      Sorted(s, i, m);
      Sorted(s, i + 1 + j, m);
    }
  }

  lemma FollowersAreEntries(s: State, r: Id, x: Id)
    requires Inv(s) && r in Roots(s.cells) && Follows(s.cells, r, x) && !Deleted(s.cells, x)
    ensures x in Entries(s, r)
  {
    hide Inv, Deleted, UpTo, After, Position;
    RootIn(s, r);
    AfterIs(s.order, r);
    InOrder(s, x);
    AfterIs(s.order, x);
    var i, k := Position(s.order, r), Position(s.order, x);
    Sorted(s, i, k);
    var a := After(s.order, r);
    forall m | 0 <= m <= k - i - 1
      ensures a[m] !in Roots(s.cells)
    {
      Sorted(s, i, i + 1 + m);
      Sorted(s, k, i + 1 + m);
    }
    UpToHas(a, Roots(s.cells), k - i - 1);
  }

  /** No entry is in two lists. */
  lemma OneListOnly(s: State, r: Id, q: Id, x: Id)
    requires Inv(s) && r in Roots(s.cells) && q in Roots(s.cells) && x in Entries(s, r) && x in Entries(s, q)
    ensures r == q
  {
    hide Inv, Deleted, UpTo, After, Position, Entries;
    EntriesFollow(s, r, x);
    EntriesFollow(s, q, x);
    RootIn(s, r);
    RootIn(s, q);
    DistinctOf(s.cells) by { Parts(s); }
  }

  lemma {:induction false} HighestRoot(cells: Cells, x: Id, p: Id, above: set<Id>) returns (r: Id)
    requires Distinct(cells) && x in cells && !cells[x].root && RootBelow(cells, x, p)
    requires above == set y | y in cells && cells[y].root && cells[p].rank < cells[y].rank <= cells[x].rank
    ensures RootBelow(cells, x, r) && Open(cells, cells[r].rank, cells[x].rank)
    decreases |above|
  {
    if above == {} {
      r := p;
      forall y | y in cells && cells[y].root
        ensures !(cells[r].rank < cells[y].rank <= cells[x].rank)
      {
        assert y !in above;
      }
    } else {
      var z :| z in above;
      var fewer := set y | y in cells && cells[y].root && cells[z].rank < cells[y].rank <= cells[x].rank;
      assert fewer < above by { assert z !in fewer; }
      Smaller(fewer, above);
      r := HighestRoot(cells, x, z, fewer);
    }
  }

  /** Every entry that is not deleted is in a list. */
  lemma InSomeList(s: State, x: Id) returns (r: Id)
    requires Inv(s) && x in s.cells && !Deleted(s.cells, x) && !s.cells[x].root
    ensures r in Roots(s.cells) && x in Entries(s, r)
  {
    DistinctOf(s.cells) by { Parts(s); }
    QueueRuns.RootedOf(s.cells) by { Parts(s); }
    var p :| RootBelow(s.cells, x, p);
    r := HighestRoot(s.cells, x, p,
      set y | y in s.cells && s.cells[y].root && s.cells[p].rank < s.cells[y].rank <= s.cells[x].rank);
    hide Inv, Deleted, Entries, Distinct, Rooted;
    FollowersAreEntries(s, r, x);
  }

  /** In every run, every list is what its insertions, deletions and `pop_all`s have made of it. */
  lemma ListsInRuns(states: seq<State>, actions: seq<Action>, n: nat, r: Id)
    requires Run(states, actions) && n < |actions| && r in Roots(states[n].cells)
    ensures r in Roots(states[n + 1].cells) && Can(states[n], actions[n])
    ensures Entries(states[n + 1], r) == Next(states[n], actions[n], r)
  {
    RunInv(states, actions, n);
    assert Can(states[n], actions[n]) && states[n + 1] == Do(states[n], actions[n]);
    hide *;
    ListStep(states[n], actions[n], r);
  }

  /** In every run, every entry of a list is found by following the links from the root of the list. */
  lemma EntriesReachable(states: seq<State>, actions: seq<Action>, n: nat, r: Id, x: Id) returns (path: seq<Id>)
    requires Run(states, actions) && n < |states| && r in Roots(states[n].cells) && x in Entries(states[n], r)
    ensures Path(states[n].cells, path) && path[0] == r && path[|path| - 1] == x
  {
    hide *;
    RunInv(states, actions, n);
    EntriesFollow(states[n], r, x);
    path := NeverLost(states, actions, n, r, x);
  }
}
