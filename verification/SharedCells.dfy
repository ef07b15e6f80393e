/** Where ownership is: shared handles (src/shared.rs) and atomic cells that own one reference each
    (src/atomic_shared.rs), as a transition system with any number of instances, cells and threads. */
module SharedCells {
  import opened Base
  import CW = CountWord

  type InstId = nat
  type CellId = nat

  /** What a cell contains: a tagged pointer, and with it a strong reference. */
  datatype Pointer = Pointer(to: Option<InstId>, tag: nat)

  /** An instance: its count or link word, and how often a drop reported the last reference. */
  datatype Inst = Inst(word: nat, reported: nat)

  /** `get_shared`: about to load, about to add a reference to what was loaded, and its result. */
  datatype Get = Loading(cell: CellId) | Trying(cell: CellId, inst: InstId) | Got(result: Option<InstId>)

  type Insts = map<InstId, Inst>
  type Cells = map<CellId, Pointer>

  /** `handles` are the `Shared`s in the hands of all threads. */
  datatype State = State(insts: Insts, cells: Cells, handles: multiset<InstId>, gets: seq<Get>)

  datatype Action =
    | Create(o: InstId)
    | Clone(o: InstId)
    | Release(o: InstId)
    | Upgrade(o: InstId)
    | MakeCell(c: CellId, content: Option<InstId>)
    | DropCell(c: CellId)
    | Swap(c: CellId, with: Option<InstId>, tag: nat)
    | Exchange(c: CellId, seen: Pointer, with: Option<InstId>, tag: nat, flaky: bool)
    | Retag(c: CellId, tag: nat)
    | StartGet(c: CellId)
    | Load(k: nat)
    | Try(k: nat)
    | SetLink(o: InstId, word: nat)
    | Free(o: InstId)

  predicate Has(s: State, o: Option<InstId>) { o.Some? ==> o.value in s.handles }

  predicate Can(s: State, a: Action) {
    match a
    case Create(o) => o !in s.insts
    case Clone(o) => o in s.handles
    case Release(o) => o in s.handles
    // A pointer loaded under a guard: the memory is still there, the instance may be retired.
    case Upgrade(o) => o in s.insts
    case MakeCell(c, content) => c !in s.cells && Has(s, content)
    // Dropping a cell needs exclusive access.
    case DropCell(c) => c in s.cells && forall k :: 0 <= k < |s.gets| && !s.gets[k].Got? ==> s.gets[k].cell != c
    case Swap(c, with, _) => c in s.cells && Has(s, with)
    case Exchange(c, _, with, _, _) => c in s.cells && Has(s, with)
    case Retag(c, _) => c in s.cells
    case StartGet(c) => c in s.cells
    case Load(k) => k < |s.gets| && s.gets[k].Loading?
    case Try(k) => k < |s.gets| && s.gets[k].Trying?
    // The collector stores links in retired instances, and frees those that no guard protects.
    case SetLink(o, word) => o in s.insts && s.insts[o].reported > 0 && !CW.Odd(word) && word < CW.MODULUS
    case Free(o) =>
      && o in s.insts && s.insts[o].reported > 0
      && forall k :: 0 <= k < |s.gets| && s.gets[k].Trying? ==> s.gets[k].inst != o
  }

  function One(o: Option<InstId>): multiset<InstId> { if o.Some? then multiset{o.value} else multiset{} }

  function AddRef(insts: Insts, o: InstId): Insts {
    if o in insts then insts[o := insts[o].(word := CW.Plus2(insts[o].word))] else insts
  }

  /** `drop_ref`, and `pass_to_collector` if it reports the last reference. */
  function DropRef(insts: Insts, o: Option<InstId>): Insts {
    if o.None? || o.value !in insts then insts
    else
      var i := insts[o.value];
      insts[o.value := Inst(CW.Minus2(i.word), if i.word == 1 then i.reported + 1 else i.reported)]
  }

  /** The content of a cell is exchanged for a handle, or for nothing. */
  function Put(s: State, c: CellId, with: Option<InstId>, tag: nat): State
    requires c in s.cells
  {
    s.(cells := s.cells[c := Pointer(with, tag)], handles := s.handles - One(with) + One(s.cells[c].to))
  }

  function Do(s: State, a: Action): State
    requires Can(s, a)
  {
    match a
    case Create(o) => s.(insts := s.insts[o := Inst(1, 0)], handles := s.handles + multiset{o})
    case Clone(o) => s.(insts := AddRef(s.insts, o), handles := s.handles + multiset{o})
    case Release(o) => s.(insts := DropRef(s.insts, Some(o)), handles := s.handles - multiset{o})
    case Upgrade(o) =>
      if CW.Odd(s.insts[o].word) then s.(insts := AddRef(s.insts, o), handles := s.handles + multiset{o}) else s
    case MakeCell(c, content) => s.(cells := s.cells[c := Pointer(content, 0)], handles := s.handles - One(content))
    case DropCell(c) => s.(cells := s.cells - {c}, insts := DropRef(s.insts, s.cells[c].to))
    case Swap(c, with, tag) => Put(s, c, with, tag)
    case Exchange(c, seen, with, tag, flaky) => if s.cells[c] == seen && !flaky then Put(s, c, with, tag) else s
    case Retag(c, tag) => s.(cells := s.cells[c := s.cells[c].(tag := tag)])
    case StartGet(c) => s.(gets := s.gets + [Loading(c)])
    case Load(k) =>
      var c := s.gets[k].cell;
      s.(gets := s.gets[k := if c in s.cells && s.cells[c].to.Some? then Trying(c, s.cells[c].to.value) else Got(None)])
    case Try(k) =>
      var Trying(c, o) := s.gets[k];
      if o in s.insts && CW.Odd(s.insts[o].word) then
        s.(insts := AddRef(s.insts, o), handles := s.handles + multiset{o}, gets := s.gets[k := Got(Some(o))])
      else s.(gets := s.gets[k := Loading(c)])
    case SetLink(o, word) => s.(insts := s.insts[o := s.insts[o].(word := word)])
    case Free(o) => s.(insts := s.insts - {o})
  }

  const NOTHING: State := State(map[], map[], multiset{}, [])

  ghost predicate Run(states: seq<State>, actions: seq<Action>) {
    && |states| == |actions| + 1 && states[0] == NOTHING
    && forall n :: 0 <= n < |actions| ==> Can(states[n], actions[n]) && states[n + 1] == Do(states[n], actions[n])
  }

  // ---------------------------------------------------------------- counting references

  function Pointing(cells: Cells, o: InstId): set<CellId> { set c | c in cells && cells[c].to == Some(o) }

  /** The references to an instance: handles, and cells that own one. */
  function Refs(s: State, o: InstId): nat { s.handles[o] + |Pointing(s.cells, o)| }

  function Is(p: Option<InstId>, o: InstId): nat { if p == Some(o) then 1 else 0 }

  lemma PointingNew(cells: Cells, c: CellId, p: Pointer, o: InstId)
    requires c !in cells
    ensures |Pointing(cells[c := p], o)| == |Pointing(cells, o)| + Is(p.to, o)
  {
    var was := Pointing(cells, o);
    assert c !in was;
    assert Pointing(cells[c := p], o) == if p.to == Some(o) then was + {c} else was;
  }

  lemma PointingPut(cells: Cells, c: CellId, p: Pointer, o: InstId)
    ensures |Pointing(cells[c := p], o)| == |Pointing(cells - {c}, o)| + Is(p.to, o)
    ensures c in cells ==> |Pointing(cells, o)| == |Pointing(cells - {c}, o)| + Is(cells[c].to, o)
    ensures c !in cells ==> cells - {c} == cells
  {
    hide Pointing, Is;
    assert (cells - {c})[c := p] == cells[c := p];
    PointingNew(cells - {c}, c, p, o);
    if c in cells {
      assert (cells - {c})[c := cells[c]] == cells;
      PointingNew(cells - {c}, c, cells[c], o);
    }
  }

  /** How many references to an instance an action adds, and how many it takes away. */
  function Gained(s: State, a: Action, o: InstId): nat
    requires Can(s, a)
  {
    match a
    case Create(x) => Is(Some(x), o)
    case Clone(x) => Is(Some(x), o)
    case Upgrade(x) => if CW.Odd(s.insts[x].word) then Is(Some(x), o) else 0
    case Try(k) =>
      if s.gets[k].inst in s.insts && CW.Odd(s.insts[s.gets[k].inst].word) then Is(Some(s.gets[k].inst), o) else 0
    case _ => 0
  }

  function Lost(s: State, a: Action, o: InstId): nat
    requires Can(s, a)
  {
    match a
    case Release(x) => Is(Some(x), o)
    case DropCell(c) => Is(s.cells[c].to, o)
    case _ => 0
  }

  lemma PutRefs(s: State, c: CellId, with: Option<InstId>, tag: nat, o: InstId)
    requires c in s.cells && Has(s, with)
    ensures Refs(Put(s, c, with, tag), o) == Refs(s, o)
  {
    PointingPut(s.cells, c, Pointer(with, tag), o);
    hide Pointing;
  }

  lemma MakeRefs(s: State, c: CellId, content: Option<InstId>, o: InstId)
    requires c !in s.cells && Has(s, content)
    ensures Refs(s.(cells := s.cells[c := Pointer(content, 0)], handles := s.handles - One(content)), o) == Refs(s, o)
  {
    PointingPut(s.cells, c, Pointer(content, 0), o);
    hide Pointing;
  }

  lemma RetagRefs(s: State, c: CellId, tag: nat, o: InstId)
    requires c in s.cells
    ensures Refs(s.(cells := s.cells[c := s.cells[c].(tag := tag)]), o) == Refs(s, o)
  {
    PointingPut(s.cells, c, s.cells[c].(tag := tag), o);
    hide Pointing;
  }

  lemma DropRefs(s: State, c: CellId, insts: Insts, o: InstId)
    requires c in s.cells
    ensures Refs(s.(cells := s.cells - {c}, insts := insts), o) + Is(s.cells[c].to, o) == Refs(s, o)
  {
    PointingPut(s.cells, c, Pointer(None, 0), o);
    hide Pointing;
  }

  predicate MovesCells(a: Action) { a.MakeCell? || a.DropCell? || a.Swap? || a.Exchange? || a.Retag? }

  lemma CellsRest(s: State, a: Action, o: InstId)
    requires Can(s, a) && !MovesCells(a)
    ensures Do(s, a).cells == s.cells && Do(s, a).handles[o] + Lost(s, a, o) == s.handles[o] + Gained(s, a, o)
  {
    hide AddRef, DropRef;
  }

  lemma CellsMove(s: State, a: Action, o: InstId)
    requires Can(s, a) && MovesCells(a)
    ensures Refs(Do(s, a), o) + Lost(s, a, o) == Refs(s, o)
  {
    hide Pointing, Refs, Put, DropRef, One;
    match a
    case MakeCell(c, content) => MakeRefs(s, c, content, o);
    case DropCell(c) => DropRefs(s, c, DropRef(s.insts, s.cells[c].to), o);
    case Swap(c, with, tag) => PutRefs(s, c, with, tag, o);
    case Exchange(c, seen, with, tag, flaky) => PutRefs(s, c, with, tag, o);
    case Retag(c, tag) => RetagRefs(s, c, tag, o);
  }

  lemma RefsAre(s: State, o: InstId)
    ensures Refs(s, o) == s.handles[o] + |Pointing(s.cells, o)|
  {}

  lemma NoGain(s: State, a: Action, o: InstId)
    requires Can(s, a) && MovesCells(a)
    ensures Gained(s, a, o) == 0
  {}

  /** References are conserved: moving one in or out of a cell, and a compare-exchange that hands it
      back, add none and take none away. */
  lemma RefsConserved(s: State, a: Action, o: InstId)
    requires Can(s, a)
    ensures Refs(Do(s, a), o) + Lost(s, a, o) == Refs(s, o) + Gained(s, a, o)
  {
    hide *;
    if MovesCells(a) {
      CellsMove(s, a, o);
      NoGain(s, a, o);
    } else {
      CellsRest(s, a, o);
      RefsAre(s, o);
      RefsAre(Do(s, a), o);
    }
  }

  // ---------------------------------------------------------------- the invariant

  /** As long as an instance is referenced its word counts the references, and no drop has reported the
      last one; afterwards exactly one has, and the word is even. */
  predicate Counted(i: Inst, refs: nat) {
    && i.word < CW.MODULUS
    && if refs > 0 then i.word == 2 * refs - 1 && i.reported == 0 else !CW.Odd(i.word) && i.reported == 1
  }

  ghost predicate Exact(s: State) { forall o :: o in s.insts ==> Counted(s.insts[o], Refs(s, o)) }

  /** Nothing refers to an instance or a cell that is gone. */
  ghost predicate Present(s: State) {
    && (forall o :: o !in s.insts ==> Refs(s, o) == 0)
    && (forall k :: 0 <= k < |s.gets| && s.gets[k].Trying? ==> s.gets[k].inst in s.insts)
    && (forall k :: 0 <= k < |s.gets| && !s.gets[k].Got? ==> s.gets[k].cell in s.cells)
  }

  ghost predicate Inv(s: State) { Exact(s) && Present(s) }

  /** No instance has more references than its word can count. */
  ghost predicate Countable(s: State) { forall o :: Refs(s, o) <= CW.MOST }

  /** What an action does to one instance that stays. */
  function Touched(s: State, a: Action, o: InstId): Inst
    requires Can(s, a) && o in s.insts
  {
    var i := s.insts[o];
    if Gained(s, a, o) > 0 then i.(word := CW.Plus2(i.word))
    else if Lost(s, a, o) > 0 then Inst(CW.Minus2(i.word), if i.word == 1 then i.reported + 1 else i.reported)
    else if a.SetLink? && a.o == o then i.(word := a.word)
    else i
  }

  lemma InstsKeys(s: State, a: Action, o: InstId)
    requires Can(s, a)
    ensures o in Do(s, a).insts <==> (o in s.insts && a != Free(o)) || a == Create(o)
    ensures a == Create(o) ==> Do(s, a).insts[o] == Inst(1, 0) && o !in s.insts
  {
    hide One;
  }

  lemma InstsGain(s: State, a: Action, o: InstId)
    requires Can(s, a) && o in s.insts && (a.Clone? || a.Upgrade? || a.Try?)
    ensures o in Do(s, a).insts && Do(s, a).insts[o] == Touched(s, a, o)
  {
    hide CW.Plus2, CW.Minus2, CW.Odd, DropRef, Put, One;
  }

  lemma InstsLose(s: State, a: Action, o: InstId)
    requires Can(s, a) && o in s.insts && (a.Release? || a.DropCell?)
    ensures o in Do(s, a).insts && Do(s, a).insts[o] == Touched(s, a, o)
  {
    hide CW.Plus2, CW.Minus2, CW.Odd, AddRef, Put, One;
  }

  lemma InstsRest(s: State, a: Action, o: InstId)
    requires Can(s, a) && o in s.insts && o in Do(s, a).insts
    requires !(a.Clone? || a.Upgrade? || a.Try? || a.Release? || a.DropCell?)
    ensures Do(s, a).insts[o] == Touched(s, a, o)
  {
    hide CW.Plus2, CW.Minus2, CW.Odd, AddRef, DropRef, One;
  }

  lemma InstsDo(s: State, a: Action, o: InstId)
    requires Can(s, a)
    ensures o in Do(s, a).insts <==> (o in s.insts && a != Free(o)) || a == Create(o)
    ensures o in s.insts && o in Do(s, a).insts ==> Do(s, a).insts[o] == Touched(s, a, o)
    ensures a == Create(o) ==> Do(s, a).insts[o] == Inst(1, 0) && o !in s.insts
  {
    hide *;
    InstsKeys(s, a, o);
    if o in s.insts && o in Do(s, a).insts {
      if a.Clone? || a.Upgrade? || a.Try? {
        InstsGain(s, a, o);
      } else if a.Release? || a.DropCell? {
        InstsLose(s, a, o);
      } else {
        InstsRest(s, a, o);
      }
    }
  }

  lemma CountedNext(i: Inst, refs: nat, gained: nat, lost: nat, next: nat)
    requires Counted(i, refs) && next + lost == refs + gained <= CW.MOST + lost && gained <= 1 && lost <= refs
    requires gained > 0 ==> refs > 0 && lost == 0
    requires lost <= 1
    ensures Counted(if gained > 0 then i.(word := CW.Plus2(i.word))
                    else if lost > 0 then Inst(CW.Minus2(i.word), if i.word == 1 then i.reported + 1 else i.reported)
                    else i, next)
  {}

  lemma InHandles(s: State, o: InstId)
    ensures o in s.handles ==> Refs(s, o) > 0
  {}

  lemma InCell(s: State, c: CellId)
    requires c in s.cells && s.cells[c].to.Some?
    ensures Refs(s, s.cells[c].to.value) > 0
  {
    assert c in Pointing(s.cells, s.cells[c].to.value);
  }

  /** A reference is only ever gained where there is one already. */
  lemma GainNeeds(s: State, a: Action, o: InstId)
    requires Can(s, a) && a != Create(o) && (o in s.insts ==> Counted(s.insts[o], Refs(s, o)))
    requires a.Try? ==> s.gets[a.k].inst in s.insts
    ensures Gained(s, a, o) <= 1 && Lost(s, a, o) <= 1 && (Gained(s, a, o) > 0 ==> Refs(s, o) > 0 && Lost(s, a, o) == 0)
  {
    InHandles(s, o);
    hide Refs;
  }

  lemma SetsLink(s: State, a: Action, o: InstId)
    requires Can(s, a) && a.SetLink? && o in s.insts && Counted(s.insts[o], Refs(s, o))
    ensures Counted(Touched(s, a, o), Refs(s, o)) && Gained(s, a, o) == 0 == Lost(s, a, o)
  {
    hide Refs;
  }

  lemma TouchedIs(s: State, a: Action, o: InstId)
    requires Can(s, a) && o in s.insts && !a.SetLink?
    ensures var i := s.insts[o];
      Touched(s, a, o) ==
        if Gained(s, a, o) > 0 then i.(word := CW.Plus2(i.word))
        else if Lost(s, a, o) > 0 then Inst(CW.Minus2(i.word), if i.word == 1 then i.reported + 1 else i.reported)
        else i
  {
    hide Gained, Lost, CW.Plus2, CW.Minus2;
  }

  lemma CountedDo(s: State, a: Action, o: InstId)
    requires Can(s, a) && o in s.insts && a != Create(o) && Counted(s.insts[o], Refs(s, o))
    requires Refs(Do(s, a), o) <= CW.MOST
    requires a.Try? ==> s.gets[a.k].inst in s.insts
    ensures Counted(Touched(s, a, o), Refs(Do(s, a), o))
  {
    hide *;
    RefsConserved(s, a, o);
    if a.SetLink? {
      SetsLink(s, a, o);
    } else {
      GainNeeds(s, a, o);
      TouchedIs(s, a, o);
      CountedNext(s.insts[o], Refs(s, o), Gained(s, a, o), Lost(s, a, o), Refs(Do(s, a), o));
    }
  }

  lemma PresentTry(s: State, a: Action)
    requires Present(s) && Can(s, a)
    ensures a.Try? ==> a.k < |s.gets| && s.gets[a.k].Trying? && s.gets[a.k].inst in s.insts
  {
    hide Refs;
  }

  lemma ExactDo(s: State, a: Action)
    requires Inv(s) && Can(s, a) && Countable(Do(s, a))
    ensures Exact(Do(s, a))
  {
    hide Can, Do, Counted, Refs, Present, Touched, Gained, Lost;
    PresentTry(s, a);
    var t := Do(s, a);
    forall o | o in t.insts
      ensures Counted(t.insts[o], Refs(t, o))
    {
      InstsDo(s, a, o);
      if a == Create(o) {
        Created(s, o);
      } else {
        CountedDo(s, a, o);
      }
    }
  }

  lemma Created(s: State, o: InstId)
    requires Present(s) && Can(s, Create(o))
    ensures Counted(Do(s, Create(o)).insts[o], Refs(Do(s, Create(o)), o))
  {
    RefsConserved(s, Create(o), o);
    assert Refs(s, o) == 0;
    assert Do(s, Create(o)).insts[o] == Inst(1, 0);
    hide Refs;
  }

  lemma FreeOnly(s: State, a: Action, o: InstId)
    requires Inv(s) && Can(s, a) && a == Free(o)
    ensures Refs(s, o) == 0 && Gained(s, a, o) == 0 && Lost(s, a, o) == 0
  {
    hide Refs, Present;
  }

  lemma AbsentDo(s: State, a: Action, o: InstId)
    requires Inv(s) && Can(s, a) && o !in Do(s, a).insts
    ensures Refs(Do(s, a), o) == 0
  {
    hide *;
    InstsDo(s, a, o);
    RefsConserved(s, a, o);
    if a == Free(o) {
      FreeOnly(s, a, o);
    } else {
      InvIs(s);
      PresentTry(s, a);
      GainNeeds(s, a, o);
    }
  }

  lemma InvIs(s: State)
    requires Inv(s)
    ensures Present(s) && (forall o :: o in s.insts ==> Counted(s.insts[o], Refs(s, o)))
    ensures forall o :: o !in s.insts ==> Refs(s, o) == 0
  {
    hide Counted, Refs;
  }

  lemma GetsDo(s: State, a: Action, k: nat)
    requires Inv(s) && Can(s, a) && k < |Do(s, a).gets|
    ensures var t := Do(s, a);
      && (t.gets[k].Trying? ==> t.gets[k].inst in t.insts)
      && (!t.gets[k].Got? ==> t.gets[k].cell in t.cells)
  {
    if a.Load? && s.gets[a.k].cell in s.cells && s.cells[s.gets[a.k].cell].to.Some? { InCell(s, s.gets[a.k].cell); }
    hide Refs, Counted, Put, AddRef, DropRef, One;
    var t := Do(s, a);
    InstsStay(s, a);
  }

  lemma InstsStay(s: State, a: Action)
    requires Can(s, a)
    ensures forall o :: o in s.insts && a != Free(o) ==> o in Do(s, a).insts
    ensures forall c :: c in s.cells && a != DropCell(c) ==> c in Do(s, a).cells
  {
    hide One;
  }

  lemma PresentDo(s: State, a: Action)
    requires Inv(s) && Can(s, a)
    ensures Present(Do(s, a))
  {
    hide *;
    var t := Do(s, a);
    forall o | o !in t.insts
      ensures Refs(t, o) == 0
    {
      AbsentDo(s, a, o);
    }
    forall k | 0 <= k < |t.gets|
      ensures (t.gets[k].Trying? ==> t.gets[k].inst in t.insts) && (!t.gets[k].Got? ==> t.gets[k].cell in t.cells)
    {
      GetsDo(s, a, k);
    }
    PresentFrom(t);
  }

  lemma PresentFrom(s: State)
    requires forall o :: o !in s.insts ==> Refs(s, o) == 0
    requires forall k :: 0 <= k < |s.gets| ==>
      (s.gets[k].Trying? ==> s.gets[k].inst in s.insts) && (!s.gets[k].Got? ==> s.gets[k].cell in s.cells)
    ensures Present(s)
  {
    hide Refs;
  }

  /** Every action keeps the invariant, as long as no instance has more references than can be counted. */
  lemma InvDo(s: State, a: Action)
    requires Inv(s) && Can(s, a) && Countable(Do(s, a))
    ensures Inv(Do(s, a))
  {
    ExactDo(s, a);
    PresentDo(s, a);
    hide Exact, Present, Can, Do;
  }

  lemma ExactCounts(s: State)
    requires Exact(s) && Present(s)
    ensures Countable(s)
  {
    hide Refs;
    forall o: InstId
      ensures Refs(s, o) <= CW.MOST
    {
      if o in s.insts { assert Counted(s.insts[o], Refs(s, o)); }
    }
  }

  // ---------------------------------------------------------------- runs

  lemma InvNothing()
    ensures Inv(NOTHING)
  {}

  lemma {:induction false} RunInv(states: seq<State>, actions: seq<Action>, n: nat)
    requires Run(states, actions) && n < |states| && forall m :: 0 <= m <= n ==> Countable(states[m])
    ensures Inv(states[n])
  {
    hide Inv, Can, Do, Countable;
    if n == 0 {
      InvNothing();
    } else {
      RunInv(states, actions, n - 1);
      assert states[n - 1 + 1] == Do(states[n - 1], actions[n - 1]) && Countable(states[n]);
      InvDo(states[n - 1], actions[n - 1]);
    }
  }

  lemma {:induction false} RunCounts(states: seq<State>, actions: seq<Action>, n: nat)
    requires Run(states, actions) && n < |states| && forall m :: 0 <= m <= n ==> Exact(states[m])
    ensures Inv(states[n]) && Countable(states[n])
  {
    hide Can, Do, Countable, Exact, Present;
    if n == 0 {
      InvNothing();
    } else {
      RunCounts(states, actions, n - 1);
      PresentDo(states[n - 1], actions[n - 1]);
    }
    ExactCounts(states[n]);
  }

  /** In every run, the word of every instance is twice the number of handles and cells that refer to it
      minus one as long as there are any, and even afterwards, exactly one drop having reported the last
      reference: if and only if there are never more than 2^63 references to one instance. */
  lemma WordsCountReferences(states: seq<State>, actions: seq<Action>)
    requires Run(states, actions)
    ensures (forall n :: 0 <= n < |states| ==> Exact(states[n])) <==>
      (forall n :: 0 <= n < |states| ==> Countable(states[n]))
  {
    hide Exact, Countable, Run, Present;
    if forall n :: 0 <= n < |states| ==> Exact(states[n]) {
      forall n | 0 <= n < |states|
        ensures Countable(states[n])
      {
        RunCounts(states, actions, n);
      }
    } else if forall n :: 0 <= n < |states| ==> Countable(states[n]) {
      forall n | 0 <= n < |states|
        ensures Exact(states[n])
      {
        RunInv(states, actions, n);
      }
    }
  }

  /** Runs in which no count overflows. */
  ghost predicate Sound(states: seq<State>, actions: seq<Action>) {
    Run(states, actions) && forall n :: 0 <= n < |states| ==> Countable(states[n])
  }

  lemma SoundInv(states: seq<State>, actions: seq<Action>, n: nat)
    requires Sound(states, actions) && n < |states|
    ensures Inv(states[n]) && |states| == |actions| + 1
    ensures n < |actions| ==> Can(states[n], actions[n]) && states[n + 1] == Do(states[n], actions[n])
  {
    RunInv(states, actions, n);
    hide Inv, Can, Do, Countable;
  }

  /** Nothing refers to an instance that is retired or freed: what a handle or a cell refers to is there,
      and no drop has reported its last reference. */
  lemma NothingDangles(states: seq<State>, actions: seq<Action>, n: nat, o: InstId)
    requires Sound(states, actions) && n < |states|
    requires o in states[n].handles || exists c :: c in states[n].cells && states[n].cells[c].to == Some(o)
    ensures o in states[n].insts && states[n].insts[o].reported == 0 && CW.Odd(states[n].insts[o].word)
  {
    SoundInv(states, actions, n);
    InHandles(states[n], o);
    if c :| c in states[n].cells && states[n].cells[c].to == Some(o) { InCell(states[n], c); }
    InvIs(states[n]);
    hide Refs, Inv, Sound;
  }

  /** Exactly one drop reports the last reference, and that when none is left. */
  lemma ReportedOnce(states: seq<State>, actions: seq<Action>, n: nat, o: InstId)
    requires Sound(states, actions) && n < |states| && o in states[n].insts
    ensures states[n].insts[o].reported == if Refs(states[n], o) > 0 then 0 else 1
    ensures CW.Odd(states[n].insts[o].word) <==> Refs(states[n], o) > 0
  {
    SoundInv(states, actions, n);
    InvIs(states[n]);
    hide Refs, Inv, Sound;
  }

  /** What is retired stays so: no handle and no cell refers to it ever again. */
  lemma {:induction false} RetiredForGood(states: seq<State>, actions: seq<Action>, m: nat, n: nat, o: InstId)
    requires Sound(states, actions) && m <= n < |states| && forall i :: m <= i <= n ==> o in states[i].insts
    requires states[m].insts[o].reported > 0
    ensures states[n].insts[o].reported == 1 && Refs(states[n], o) == 0
  {
    hide Sound, Inv, Refs, Can, Do, Counted;
    if m < n {
      RetiredForGood(states, actions, m, n - 1, o);
      SoundInv(states, actions, n - 1);
      StaysRetired(states[n - 1], actions[n - 1], o);
    }
    ReportedOnce(states, actions, n, o);
  }

  lemma StaysRetired(s: State, a: Action, o: InstId)
    requires Inv(s) && Can(s, a) && o in s.insts && Refs(s, o) == 0
    ensures Refs(Do(s, a), o) == 0
  {
    hide *;
    InvIs(s);
    RefsConserved(s, a, o);
    PresentTry(s, a);
    NotCreated(s, a, o);
    GainNeeds(s, a, o);
  }

  lemma NotCreated(s: State, a: Action, o: InstId)
    requires Can(s, a) && o in s.insts
    ensures a != Create(o)
  {}

  // ---------------------------------------------------------------- where ownership moves

  /** `swap`, `compare_exchange` and `update_tag_if` change no count and no word. */
  lemma MovesKeep(s: State, a: Action, o: InstId)
    requires Can(s, a) && (a.Swap? || a.Exchange? || a.Retag? || a.MakeCell?)
    ensures Refs(Do(s, a), o) == Refs(s, o) && Do(s, a).insts == s.insts
  {
    hide *;
    RefsConserved(s, a, o);
    KeepsInsts(s, a, o);
  }

  lemma KeepsInsts(s: State, a: Action, o: InstId)
    requires Can(s, a) && (a.Swap? || a.Exchange? || a.Retag? || a.MakeCell?)
    ensures Do(s, a).insts == s.insts && Gained(s, a, o) == 0 == Lost(s, a, o)
  {}

  /** A compare-exchange that succeeds trades the handle for what the cell contained; one that fails
      hands it back and changes nothing. */
  lemma ExchangeTrades(s: State, c: CellId, seen: Pointer, with: Option<InstId>, tag: nat, flaky: bool)
    requires Can(s, Exchange(c, seen, with, tag, flaky))
    ensures var t := Do(s, Exchange(c, seen, with, tag, flaky));
      if s.cells[c] == seen && !flaky
      then t.cells == s.cells[c := Pointer(with, tag)] && t.handles + One(with) == s.handles + One(seen.to)
      else t == s
  {
    Traded(s.handles, with, s.cells[c].to);
    hide One;
  }

  lemma Traded(handles: multiset<InstId>, given: Option<InstId>, taken: Option<InstId>)
    requires given.Some? ==> given.value in handles
    ensures (handles - One(given) + One(taken)) + One(given) == handles + One(taken)
  {}

  /** A swap trades the handle for what the cell contained, whatever that was. */
  lemma SwapTrades(s: State, c: CellId, with: Option<InstId>, tag: nat)
    requires Can(s, Swap(c, with, tag))
    ensures var t := Do(s, Swap(c, with, tag));
      && t.cells == s.cells[c := Pointer(with, tag)] && t.handles + One(with) == s.handles + One(s.cells[c].to)
      && t.insts == s.insts && t.gets == s.gets
  {
    Traded(s.handles, with, s.cells[c].to);
    hide One;
  }

  /** `update_tag_if`, when it succeeds, sets the tag and nothing else. */
  lemma RetagSets(s: State, c: CellId, tag: nat)
    requires Can(s, Retag(c, tag))
    ensures var t := Do(s, Retag(c, tag));
      && t.cells.Keys == s.cells.Keys && t.cells[c].to == s.cells[c].to && t.cells[c].tag == tag
      && (forall d :: d in s.cells && d != c ==> t.cells[d] == s.cells[d])
      && t.handles == s.handles && t.insts == s.insts && t.gets == s.gets
  {}

  /** A new cell takes over its handle; a dropped one leaves the other cells and all handles alone. */
  lemma CellsComeAndGo(s: State, c: CellId, content: Option<InstId>)
    ensures Can(s, MakeCell(c, content)) ==>
      var t := Do(s, MakeCell(c, content));
      t.cells == s.cells[c := Pointer(content, 0)] && t.handles + One(content) == s.handles
    ensures Can(s, DropCell(c)) ==>
      var t := Do(s, DropCell(c));
      && t.handles == s.handles && c !in t.cells && t.cells.Keys + {c} == s.cells.Keys
      && forall d :: d in t.cells ==> t.cells[d] == s.cells[d]
  {
    if Can(s, MakeCell(c, content)) { Traded(s.handles, content, None); }
  }

  /** Creating and cloning yield one handle, releasing takes one away; the cells stay as they are. */
  lemma HandlesComeAndGo(s: State, o: InstId)
    ensures Can(s, Create(o)) ==>
      var t := Do(s, Create(o)); t.handles == s.handles + multiset{o} && t.cells == s.cells && o in t.insts
    ensures Can(s, Clone(o)) ==>
      var t := Do(s, Clone(o)); t.handles == s.handles + multiset{o} && t.cells == s.cells
    ensures Can(s, Release(o)) ==>
      var t := Do(s, Release(o)); t.handles + multiset{o} == s.handles && t.cells == s.cells
  {
    if Can(s, Release(o)) { assert s.handles - multiset{o} + multiset{o} == s.handles; }
  }

  /** A pointer can be made a handle exactly as long as there is a reference. */
  lemma UpgradeObtains(states: seq<State>, actions: seq<Action>, n: nat, o: InstId)
    requires Sound(states, actions) && n < |actions| && actions[n] == Upgrade(o)
    ensures var s, t := states[n], states[n + 1];
      && o in s.insts && t.cells == s.cells
      && t.handles == if Refs(s, o) > 0 then s.handles + multiset{o} else s.handles
  {
    var s := states[n];
    SoundInv(states, actions, n);
    UpgradeCan(s, actions[n], o);
    InvIs(s);
    hide Sound, Inv, Refs;
  }

  lemma UpgradeCan(s: State, a: Action, o: InstId)
    requires a == Upgrade(o) && Can(s, a)
    ensures o in s.insts
  {}

  /** `get_shared` finds nothing exactly if the cell contains nothing when it is loaded. */
  lemma LoadFinds(states: seq<State>, actions: seq<Action>, n: nat, k: nat)
    requires Sound(states, actions) && n < |actions| && actions[n] == Load(k)
    ensures var s, g := states[n], states[n + 1].gets; var c := s.gets[k].cell;
      && k < |s.gets| == |g| && c in s.cells
      && g[k] == match s.cells[c].to case None => Got(None) case Some(o) => Trying(c, o)
  {
    SoundInv(states, actions, n);
    hide Sound, Exact, Refs;
  }

  /** It obtains a handle exactly if the instance it has loaded is still referenced, and therefore
      neither retired nor freed; otherwise it loads again. */
  lemma TryObtains(states: seq<State>, actions: seq<Action>, n: nat, k: nat)
    requires Sound(states, actions) && n < |actions| && actions[n] == Try(k)
    ensures var s, t := states[n], states[n + 1];
      && k < |s.gets| == |t.gets| && s.gets[k].Trying?
      && var o := s.gets[k].inst;
         && o in s.insts && o in t.insts
         && (if Refs(s, o) > 0
             then t.gets[k] == Got(Some(o)) && t.handles == s.handles + multiset{o} && t.insts[o].reported == 0
             else t.gets[k] == Loading(s.gets[k].cell) && t.handles == s.handles)
  {
    var s := states[n];
    SoundInv(states, actions, n);
    PresentTry(s, actions[n]);
    InvIs(s);
    hide Sound, Inv, Refs;
  }
}
