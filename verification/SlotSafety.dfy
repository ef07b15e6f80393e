/** The slot protocol keeps every value in exactly one place: invariant and proofs. */
module SlotSafety {
  import opened Base
  import opened Bits
  import opened SlotProtocol

  // ---------------------------------------------------------------- the invariant

  /** Operation `op` has claimed slot `i`. */
  predicate Owns<T>(op: Op<T>, i: nat) {
    match op
    case PushWrite(_, _, j) => i == j
    case PushPublish(_, j) => i == j
    case PushRollback(j) => i == j
    case PushUndo(_, j) => i == j
    case PopRead(j) => i == j
    case PopClear(_, j) => i == j
    case DrainFold(claim, _, _) => i < |claim| && claim[i]
    case DrainClear(claim, _) => i < |claim| && claim[i]
    case _ => false
  }

  /** Claimed slots are instantiated if they are being emptied, and not if they are being filled. */
  predicate TakesOut<T>(op: Op<T>) { op.PopRead? || op.PopClear? || op.DrainFold? || op.DrainClear? }

  /** The claimed slot `i` contains a value. */
  predicate Holds<T>(op: Op<T>, i: nat) {
    op.PushPublish? || op.PushRollback? || op.PopRead? || (op.DrainFold? && i >= op.at)
  }

  /** The value an operation has in its hands. */
  function Hand<T(==)>(op: Op<T>): multiset<T> {
    match op
    case PushLoad(val, _) => multiset{val}
    case PushClaim(val, _, _) => multiset{val}
    case PushWrite(val, _, _) => multiset{val}
    case PushUndo(val, _) => multiset{val}
    case PopClear(val, _) => multiset{val}
    case _ => multiset{}
  }

  function InFlight<T(==)>(ops: seq<Op<T>>): multiset<T> {
    if ops == [] then multiset{} else InFlight(ops[..|ops| - 1]) + Hand(ops[|ops| - 1])
  }

  /** One slot: an owned one belongs to the operation that claimed it, the others hold a value
      exactly when they are instantiated. */
  ghost predicate SlotOk<T>(s: State<T>, i: nat)
    requires Formed(s) && i < s.len
  {
    match s.owner[i]
    case None => !Own(s.word, i) && s.slots[i].Some? == Inst(s.word, s.len, i)
    case Some(k) =>
      && Own(s.word, i) && k < |s.ops| && Owns(s.ops[k], i)
      && Inst(s.word, s.len, i) == TakesOut(s.ops[k]) && s.slots[i].Some? == Holds(s.ops[k], i)
  }

  ghost predicate SlotsOk<T>(s: State<T>)
    requires Formed(s)
  {
    forall i :: 0 <= i < s.len ==> SlotOk(s, i)
  }

  /** No operation has claimed a slot that another one owns. */
  ghost predicate OwnersOk<T>(s: State<T>)
    requires Formed(s)
  {
    forall k, i :: 0 <= k < |s.ops| && 0 <= i < s.len && Owns(s.ops[k], i) ==> s.owner[i] == Some(k)
  }

  ghost predicate Conserved<T>(s: State<T>) {
    s.pushed == s.returned + s.lost + Stored(s.slots) + InFlight(s.ops)
  }

  ghost predicate Inv<T>(s: State<T>) { Formed(s) && SlotsOk(s) && OwnersOk(s) && Conserved(s) }

  // ---------------------------------------------------------------- sums

  lemma SumSwap<T>(a: multiset<T>, last: multiset<T>, c: multiset<T>, b: multiset<T>, d: multiset<T>)
    requires a + c == b + d
    ensures (a + last) + c == (b + last) + d
  {
    assert (a + last) + c == (a + c) + last;
  }

  lemma {:induction false} StoredUpdate<T>(slots: seq<Option<T>>, i: nat, slot: Option<T>)
    requires i < |slots|
    ensures Stored(slots[i := slot]) + Contents(slots[i]) == Stored(slots) + Contents(slot)
  {
    var n := |slots| - 1;
    if i < n {
      StoredUpdate(slots[..n], i, slot);
      assert slots[i := slot][..n] == slots[..n][i := slot];
      SumSwap(Stored(slots[..n][i := slot]), Contents(slots[n]), Contents(slots[i]),
        Stored(slots[..n]), Contents(slot));
    } else {
      assert slots[i := slot][..n] == slots[..n];
    }
  }

  lemma {:induction false} InFlightUpdate<T>(ops: seq<Op<T>>, k: nat, op: Op<T>)
    requires k < |ops|
    ensures InFlight(ops[k := op]) + Hand(ops[k]) == InFlight(ops) + Hand(op)
  {
    var n := |ops| - 1;
    if k < n {
      InFlightUpdate(ops[..n], k, op);
      assert ops[k := op][..n] == ops[..n][k := op];
      SumSwap(InFlight(ops[..n][k := op]), Hand(ops[n]), Hand(ops[k]), InFlight(ops[..n]), Hand(op));
    } else {
      assert ops[k := op][..n] == ops[..n];
      hide Hand;
    }
  }

  lemma {:induction false} StoredForsaken<T>(slots: seq<Option<T>>, claim: Bitmap, at: nat)
    requires |slots| == |claim|
    ensures Stored(Forsaken(slots, claim, at)) <= Stored(slots)
  {
    if slots != [] {
      var n := |slots| - 1;
      StoredForsaken(slots[..n], claim[..n], at);
      assert Forsaken(slots, claim, at)[..n] == Forsaken(slots[..n], claim[..n], at);
      var last := Forsaken(slots, claim, at)[n];
      assert Contents(last) <= Contents(slots[n]);
      hide Forsaken, Contents;
    }
  }

  lemma {:induction false} StoredNone<T>(slots: seq<Option<T>>)
    requires forall i :: 0 <= i < |slots| ==> slots[i].None?
    ensures Stored(slots) == multiset{}
  {
    if slots != [] { StoredNone(slots[..|slots| - 1]); }
  }

  // ---------------------------------------------------------------- one step

  /** What a step of operation `k` may do to slot `i`: nothing, unless it claims, works on or gives
      up that slot. */
  ghost predicate SlotMoves<T>(s: State<T>, t: State<T>, k: nat, i: nat)
    requires Formed(s) && Formed(t) && t.len == s.len && i < s.len && k < |s.ops| == |t.ops|
  {
    var before, after := Owns(s.ops[k], i), Owns(t.ops[k], i);
    if after then
      && (before || !Own(s.word, i))
      && Own(t.word, i) && t.owner[i] == Some(k) && Inst(t.word, t.len, i) == Inst(s.word, s.len, i)
      && Inst(t.word, t.len, i) == TakesOut(t.ops[k]) && t.slots[i].Some? == Holds(t.ops[k], i)
    else if before then
      && !Own(t.word, i) && t.owner[i] == None && t.slots[i].Some? == Inst(t.word, t.len, i)
      && (Inst(s.word, s.len, i) ==> !Inst(t.word, t.len, i))
    else
      && Own(t.word, i) == Own(s.word, i) && Inst(t.word, t.len, i) == Inst(s.word, s.len, i)
      && t.owner[i] == s.owner[i] && t.slots[i] == s.slots[i]
  }

  /** No value appears or disappears. */
  ghost predicate Balanced<T>(s: State<T>, t: State<T>, k: nat)
    requires k < |s.ops| == |t.ops|
  {
    && t.pushed == s.pushed
    && t.returned + t.lost + Stored(t.slots) + Hand(t.ops[k])
       == s.returned + s.lost + Stored(s.slots) + Hand(s.ops[k])
  }

  ghost predicate Moves<T>(s: State<T>, t: State<T>, k: nat)
    requires Formed(s) && k < |s.ops|
  {
    && Formed(t) && t.len == s.len && |t.ops| == |s.ops| && t.ops == s.ops[k := t.ops[k]]
    && (forall i :: 0 <= i < s.len ==> SlotMoves(s, t, k, i))
    && Balanced(s, t, k)
  }

  lemma MovesSlot<T>(s: State<T>, t: State<T>, k: nat, i: nat)
    requires Formed(s) && Formed(t) && t.len == s.len && i < s.len && k < |s.ops| == |t.ops|
    requires SlotOk(s, i) && SlotMoves(s, t, k, i) && t.ops == s.ops[k := t.ops[k]]
    requires Owns(s.ops[k], i) ==> s.owner[i] == Some(k)
    ensures SlotOk(t, i)
  {
    hide Owns, TakesOut, Holds;
  }

  lemma MovesOwners<T>(s: State<T>, t: State<T>, k: nat)
    requires Formed(s) && SlotsOk(s) && OwnersOk(s) && k < |s.ops| && Moves(s, t, k)
    ensures OwnersOk(t)
  {
    forall l, i | 0 <= l < |t.ops| && 0 <= i < t.len && Owns(t.ops[l], i)
      ensures t.owner[i] == Some(l)
    {
      assert SlotMoves(s, t, k, i) && SlotOk(s, i);
    }
  }

  lemma MovesBalance<T>(s: State<T>, t: State<T>, k: nat)
    requires Conserved(s) && k < |s.ops| && |t.ops| == |s.ops| && t.ops == s.ops[k := t.ops[k]] && Balanced(s, t, k)
    ensures Conserved(t)
  {
    InFlightUpdate(s.ops, k, t.ops[k]);
    hide Stored, InFlight, Hand;
    BalanceSum(s.returned + s.lost + Stored(s.slots), t.returned + t.lost + Stored(t.slots),
               InFlight(s.ops), InFlight(t.ops), Hand(s.ops[k]), Hand(t.ops[k]));
  }

  lemma BalanceSum<T>(a: multiset<T>, b: multiset<T>, f: multiset<T>, g: multiset<T>, h: multiset<T>, i: multiset<T>)
    requires b + i == a + h && g + h == f + i
    ensures b + g == a + f
  {
    forall x: T
      ensures (b + g)[x] == (a + f)[x]
    {
      assert (b + i)[x] == (a + h)[x] && (g + h)[x] == (f + i)[x];
    }
  }

  lemma MovesKeep<T>(s: State<T>, t: State<T>, k: nat)
    requires Inv(s) && k < |s.ops| && Moves(s, t, k)
    ensures Inv(t)
  {
    MovesOwners(s, t, k);
    MovesBalance(s, t, k);
    forall i | 0 <= i < t.len
      ensures SlotOk(t, i)
    {
      MovesSlot(s, t, k, i);
    }
    hide SlotOk, Conserved, OwnersOk;
  }

  /** What the invariant says about operation `k` and its slot `i`. */
  lemma OwnedBy<T>(s: State<T>, k: nat, i: nat)
    requires Inv(s) && k < |s.ops| && i < s.len && Owns(s.ops[k], i)
    ensures s.owner[i] == Some(k) && Own(s.word, i) && Inst(s.word, s.len, i) == TakesOut(s.ops[k])
    ensures s.slots[i].Some? == Holds(s.ops[k], i)
  {
    assert SlotOk(s, i);
  }

  lemma FormedStep<T>(s: State<T>, t: State<T>, k: nat)
    requires Formed(s) && k < |s.ops| && t.len == s.len && |t.word| == WORD && |t.slots| == t.len && |t.owner| == t.len
    requires |t.ops| == |s.ops| && t.ops == s.ops[k := t.ops[k]] && OpFormed(t.ops[k], t.len)
    requires forall j :: 2 * s.len <= j < WORD ==> !t.word[j]
    ensures Formed(t)
  {
    hide OpFormed;
  }

  /** The step only changes what the operation has read or holds. */
  lemma MovesQuiet<T>(s: State<T>, t: State<T>, k: nat)
    requires Inv(s) && k < |s.ops| && t == s.(ops := t.ops, returned := t.returned)
    requires |t.ops| == |s.ops| && t.ops == s.ops[k := t.ops[k]] && OpFormed(t.ops[k], t.len)
    requires forall i :: 0 <= i < s.len ==> !Owns(s.ops[k], i) && !Owns(t.ops[k], i)
    requires t.returned + Hand(t.ops[k]) == s.returned + Hand(s.ops[k])
    ensures Moves(s, t, k)
  {
    FormedStep(s, t, k);
    QuietBalance(s.returned, t.returned, s.lost, Stored(s.slots), Hand(s.ops[k]), Hand(t.ops[k]));
    hide Hand, Stored, OpFormed, Inv;
  }

  lemma QuietBalance<T>(
      r: multiset<T>, r': multiset<T>, l: multiset<T>, d: multiset<T>, h: multiset<T>, h': multiset<T>)
    requires r' + h' == r + h
    ensures r' + l + d + h' == r + l + d + h
  {
    assert r' + l + d + h' == (r' + h') + l + d && r + l + d + h == (r + h) + l + d;
  }

  /** The step claims the unowned slot `i`. */
  lemma MovesClaim<T>(s: State<T>, t: State<T>, k: nat, i: nat)
    requires Inv(s) && k < |s.ops| && i < s.len
    requires t == s.(ops := t.ops, word := s.word[i := true], owner := s.owner[i := Some(k)])
    requires |t.ops| == |s.ops| && t.ops == s.ops[k := t.ops[k]] && OpFormed(t.ops[k], t.len)
    requires forall j :: 0 <= j < s.len ==> !Owns(s.ops[k], j) && (Owns(t.ops[k], j) <==> j == i)
    requires !Own(s.word, i) && Inst(s.word, s.len, i) == TakesOut(t.ops[k]) && s.slots[i].Some? == Holds(t.ops[k], i)
    requires Hand(t.ops[k]) == Hand(s.ops[k])
    ensures Moves(s, t, k)
  {
    FormedStep(s, t, k);
    hide Hand, Stored, OpFormed, Inv, Owns, TakesOut, Holds, SlotMoves;
    forall j | 0 <= j < s.len
      ensures SlotMoves(s, t, k, j)
    {
      ClaimSlot(s, t, k, i, j);
    }
  }

  lemma ClaimSlot<T>(s: State<T>, t: State<T>, k: nat, i: nat, j: nat)
    requires Formed(s) && Formed(t) && t.len == s.len && j < s.len && i < s.len && k < |s.ops| == |t.ops|
    requires t.word == s.word[i := true] && t.owner == s.owner[i := Some(k)] && t.slots == s.slots
    requires !Owns(s.ops[k], j) && (Owns(t.ops[k], j) <==> j == i)
    requires !Own(s.word, i) && Inst(s.word, s.len, i) == TakesOut(t.ops[k]) && s.slots[i].Some? == Holds(t.ops[k], i)
    ensures SlotMoves(s, t, k, j)
  {
    hide Owns, TakesOut, Holds, OpFormed;
  }

  /** The step works on the contents of its slot `i`. */
  lemma MovesWork<T>(s: State<T>, t: State<T>, k: nat, i: nat)
    requires Inv(s) && k < |s.ops| && i < s.len
    requires |t.slots| == s.len && t == s.(ops := t.ops, slots := s.slots[i := t.slots[i]], returned := t.returned)
    requires |t.ops| == |s.ops| && t.ops == s.ops[k := t.ops[k]] && OpFormed(t.ops[k], t.len)
    requires forall j :: 0 <= j < s.len ==> Owns(s.ops[k], j) == Owns(t.ops[k], j)
    requires forall j :: 0 <= j < s.len && Owns(s.ops[k], j) && j != i ==> Holds(s.ops[k], j) == Holds(t.ops[k], j)
    requires Owns(s.ops[k], i) && TakesOut(s.ops[k]) == TakesOut(t.ops[k]) && t.slots[i].Some? == Holds(t.ops[k], i)
    requires t.returned + Contents(t.slots[i]) + Hand(t.ops[k]) == s.returned + Contents(s.slots[i]) + Hand(s.ops[k])
    ensures Moves(s, t, k)
  {
    FormedStep(s, t, k);
    forall j | 0 <= j < s.len
      ensures SlotMoves(s, t, k, j)
    {
      if Owns(s.ops[k], j) { OwnedBy(s, k, j); }
    }
    StoredUpdate(s.slots, i, t.slots[i]);
    hide Hand, Contents, Stored, OpFormed, Inv, Owns, TakesOut, Holds, SlotMoves, Formed;
    WorkBalance(s.returned, t.returned, s.lost, Stored(s.slots), Stored(t.slots),
                Contents(s.slots[i]), Contents(t.slots[i]), Hand(s.ops[k]), Hand(t.ops[k]));
  }

  lemma WorkBalance<T>(r: multiset<T>, r': multiset<T>, l: multiset<T>, d: multiset<T>, d': multiset<T>,
                       c: multiset<T>, c': multiset<T>, h: multiset<T>, h': multiset<T>)
    requires r' + c' + h' == r + c + h && d' + c == d + c'
    ensures r' + l + d' + h' == r + l + d + h
  {
    forall x: T
      ensures (r' + l + d' + h')[x] == (r + l + d + h)[x]
    {
      assert (r' + c' + h')[x] == (r + c + h)[x] && (d' + c)[x] == (d + c')[x];
    }
  }

  /** The step gives up its slot `i`, writing both its bits. */
  lemma MovesRelease<T>(s: State<T>, t: State<T>, k: nat, i: nat, inst: bool)
    requires Inv(s) && k < |s.ops| && i < s.len
    requires t == s.(ops := t.ops, word := s.word[i := false][s.len + i := inst],
                     owner := s.owner[i := None], returned := t.returned)
    requires |t.ops| == |s.ops| && t.ops == s.ops[k := t.ops[k]] && OpFormed(t.ops[k], t.len)
    requires forall j :: 0 <= j < s.len ==> (Owns(s.ops[k], j) <==> j == i) && !Owns(t.ops[k], j)
    requires Holds(s.ops[k], i) == inst && (TakesOut(s.ops[k]) ==> !inst)
    requires t.returned + Hand(t.ops[k]) == s.returned + Hand(s.ops[k])
    ensures Moves(s, t, k)
  {
    OwnedBy(s, k, i);
    FormedStep(s, t, k);
    QuietBalance(s.returned, t.returned, s.lost, Stored(s.slots), Hand(s.ops[k]), Hand(t.ops[k]));
    hide Hand, Stored, OpFormed, Inv, Owns, TakesOut, Holds, SlotMoves;
    forall j | 0 <= j < s.len
      ensures SlotMoves(s, t, k, j)
    {
      ReleaseSlot(s, t, k, i, j, inst);
    }
  }

  lemma ReleaseSlot<T>(s: State<T>, t: State<T>, k: nat, i: nat, j: nat, inst: bool)
    requires Formed(s) && Formed(t) && t.len == s.len && j < s.len && i < s.len && k < |s.ops| == |t.ops|
    requires t.word == s.word[i := false][s.len + i := inst] && t.owner == s.owner[i := None] && t.slots == s.slots
    requires (Owns(s.ops[k], j) <==> j == i) && !Owns(t.ops[k], j)
    requires s.slots[i].Some? == inst && (Inst(s.word, s.len, i) ==> !inst)
    ensures SlotMoves(s, t, k, j)
  {
    hide Owns, TakesOut, Holds, OpFormed;
  }

  lemma FreeSlot<T>(s: State<T>, i: nat)
    requires Inv(s) && i < s.len && !Own(s.word, i)
    ensures s.slots[i].Some? == Inst(s.word, s.len, i)
  {
    assert SlotOk(s, i);
  }

  // ---------------------------------------------------------------- every kind of step

  lemma OwnsNone<T>(op: Op<T>)
    requires op.PushLoad? || op.PushClaim? || op.PopLoad? || op.PopClaim? || op.DrainLoad? || op.DrainClaim? || op.Done?
    ensures forall j: nat :: !Owns(op, j)
  {}

  lemma OwnsOne<T>(op: Op<T>)
    requires op.PushWrite? || op.PushPublish? || op.PushRollback? || op.PushUndo? || op.PopRead? || op.PopClear?
    ensures forall j: nat :: Owns(op, j) <==> j == op.i
  {}

  /** What a successful claim of one slot looks like. */
  lemma ClaimMoves<T>(s: State<T>, t: State<T>, k: nat, i: nat, op: Op<T>)
    requires Inv(s) && k < |s.ops| && i < s.len && (s.ops[k].PushClaim? || s.ops[k].PopClaim?)
    requires t == s.(ops := s.ops[k := op], word := s.word[i := true], owner := s.owner[i := Some(k)])
    requires !Own(s.word, i) && Hand(op) == Hand(s.ops[k])
    requires if Inst(s.word, s.len, i) then op == PopRead(i) else op.PushWrite? && op.i == i
    ensures Moves(s, t, k)
  {
    FreeSlot(s, i);
    OwnsNone(s.ops[k]);
    OwnsOne(op);
    assert TakesOut(op) == Inst(s.word, s.len, i) == Holds(op, i) && OpFormed(op, s.len);
    hide *;
    MovesClaim(s, t, k, i);
  }

  lemma PushTryMoves<T>(s: State<T>, k: nat, flaky: bool)
    requires Inv(s) && k < |s.ops| && s.ops[k].PushClaim?
    ensures Moves(s, PushTry(s, k, flaky), k)
  {
    hide SlotsOk, OwnersOk, Conserved, Moves;
    var t := PushTry(s, k, flaky);
    if t.ops[k].PushWrite? {
      ClaimMoves(s, t, k, t.ops[k].i, t.ops[k]);
    } else {
      OwnsNone(s.ops[k]);
      OwnsNone(t.ops[k]);
      hide Owns;
      MovesQuiet(s, t, k);
    }
  }

  lemma PublishFails<T>(s: State<T>, t: State<T>, k: nat, i: nat, op: Op<T>)
    requires Inv(s) && k < |s.ops| && s.ops[k].PushPublish? && s.ops[k].i == i < s.len == |s.slots|
    requires op == PushRollback(i) && t == s.(ops := s.ops[k := op])
    ensures Moves(s, t, k)
  {
    OwnsOne(s.ops[k]);
    OwnsOne(op);
    OwnedBy(s, k, i);
    assert t == s.(ops := t.ops, slots := s.slots[i := t.slots[i]], returned := t.returned);
    assert OpFormed(op, s.len) && Holds(op, i) && Holds(s.ops[k], i);
    assert !TakesOut(op) && !TakesOut(s.ops[k]) && Hand(op) == Hand(s.ops[k]);
    hide *;
    MovesWork(s, t, k, i);
  }

  lemma PublishSucceeds<T>(s: State<T>, t: State<T>, k: nat, i: nat, op: Op<T>)
    requires Inv(s) && k < |s.ops| && s.ops[k].PushPublish? && s.ops[k].i == i < s.len == |s.slots| == |s.owner|
    requires s.len <= 32 && |s.word| == WORD && op == Done(Pushed)
    requires t == s.(ops := s.ops[k := op], word := s.word[i := false][s.len + i := true], owner := s.owner[i := None])
    ensures Moves(s, t, k)
  {
    OwnsOne(s.ops[k]);
    OwnsNone(op);
    assert OpFormed(op, s.len) && Holds(s.ops[k], i) && !TakesOut(s.ops[k]) && Hand(op) == Hand(s.ops[k]);
    hide *;
    MovesRelease(s, t, k, i, true);
  }

  lemma PublishMoves<T>(s: State<T>, k: nat)
    requires Inv(s) && k < |s.ops| && s.ops[k].PushPublish?
    ensures Moves(s, Publish(s, k), k)
  {
    hide SlotsOk, OwnersOk, Conserved, Moves, AnyLive;
    var t, i := Publish(s, k), s.ops[k].i;
    if t.ops[k].PushRollback? {
      PublishFails(s, t, k, i, t.ops[k]);
    } else {
      PublishSucceeds(s, t, k, i, t.ops[k]);
    }
  }

  lemma UndoMoves<T>(s: State<T>, k: nat)
    requires Inv(s) && k < |s.ops| && s.ops[k].PushUndo?
    ensures Moves(s, Step(s, k, false), k)
  {
    var i := s.ops[k].i;
    OwnedBy(s, k, i);
    assert s.word[i := false] == s.word[i := false][s.len + i := false];
    hide Moves, Inv;
    MovesRelease(s, Step(s, k, false), k, i, false);
  }

  lemma PopTryMoves<T>(s: State<T>, k: nat, flaky: bool)
    requires Inv(s) && k < |s.ops| && s.ops[k].PopClaim?
    ensures Moves(s, PopTry(s, k, flaky), k)
  {
    hide SlotsOk, OwnersOk, Conserved, Moves;
    var t := PopTry(s, k, flaky);
    if t.ops[k].PopRead? {
      ClaimMoves(s, t, k, t.ops[k].i, t.ops[k]);
    } else {
      OwnsNone(s.ops[k]);
      OwnsNone(t.ops[k]);
      hide Owns;
      MovesQuiet(s, t, k);
    }
  }

  lemma ClearMoves<T>(s: State<T>, k: nat)
    requires Inv(s) && k < |s.ops| && s.ops[k].PopClear?
    ensures Moves(s, Clear(s, k), k)
  {
    hide SlotsOk, OwnersOk, Conserved, Moves;
    MovesRelease(s, Clear(s, k), k, s.ops[k].i, false);
  }

  /** Writing or reading the claimed slot `i`. */
  predicate Accesses<T(==)>(op: Op<T>, slot: Option<T>, op': Op<T>, slot': Option<T>, i: nat) {
    match op
    case PushWrite(v, e, j) => slot == None && j == i && op' == PushPublish(e, i) && slot' == Some(v)
    case PushRollback(j) => slot.Some? && j == i && op' == PushUndo(slot.value, i) && slot' == None
    case PopRead(j) => slot.Some? && j == i && op' == PopClear(slot.value, i) && slot' == None
    case _ => false
  }

  lemma AccessesWell<T>(op: Op<T>, slot: Option<T>, op': Op<T>, slot': Option<T>, i: nat, len: nat)
    requires Accesses(op, slot, op', slot', i) && i < len
    ensures forall j: nat :: (Owns(op, j) <==> j == i) && (Owns(op', j) <==> j == i)
    ensures TakesOut(op) == TakesOut(op') && slot'.Some? == Holds(op', i) && OpFormed(op', len)
    ensures Contents(slot') + Hand(op') == Contents(slot) + Hand(op)
  {}

  lemma SumsTo<T>(r: multiset<T>, a: multiset<T>, b: multiset<T>, c: multiset<T>, d: multiset<T>)
    requires a + b == c + d
    ensures r + a + b == r + c + d
  {
    assert r + a + b == r + (a + b) && r + c + d == r + (c + d);
  }

  lemma AccessMoves<T>(s: State<T>, t: State<T>, k: nat, i: nat, op: Op<T>, slot: Option<T>)
    requires Inv(s) && k < |s.ops| && i < s.len == |s.slots|
    requires t == s.(ops := s.ops[k := op], slots := s.slots[i := slot])
    requires Accesses(s.ops[k], s.slots[i], op, slot, i)
    ensures Moves(s, t, k)
  {
    hide *;
    AccessesWell(s.ops[k], s.slots[i], op, slot, i, s.len);
    SumsTo(s.returned, Contents(slot), Hand(op), Contents(s.slots[i]), Hand(s.ops[k]));
    MovesWork(s, t, k, i);
  }

  lemma AccessStep<T>(s: State<T>, k: nat, flaky: bool)
    requires Inv(s) && k < |s.ops| && (s.ops[k].PushWrite? || s.ops[k].PushRollback? || s.ops[k].PopRead?)
    ensures Moves(s, Step(s, k, flaky), k)
  {
    var t, i := Step(s, k, flaky), s.ops[k].i;
    OwnedBy(s, k, i);
    hide SlotsOk, OwnersOk, Conserved, Moves;
    AccessMoves(s, t, k, i, t.ops[k], t.slots[i]);
  }

  lemma FoldMoves<T>(s: State<T>, k: nat)
    requires Inv(s) && k < |s.ops| && s.ops[k].DrainFold?
    ensures Moves(s, Fold(s, k), k)
  {
    var t := Fold(s, k);
    var i := FirstIn(s.ops[k].claim, s.ops[k].at);
    if i < s.len {
      hide Moves, Inv;
      MovesWork(s, t, k, i);
    } else {
      AllFolded(s, k);
    }
  }

  /** All claimed values have been folded. */
  lemma AllFolded<T>(s: State<T>, k: nat)
    requires Inv(s) && k < |s.ops| && s.ops[k].DrainFold? && FirstIn(s.ops[k].claim, s.ops[k].at) == s.len
    ensures Moves(s, Fold(s, k), k)
  {
    var t := Fold(s, k);
    FormedStep(s, t, k);
    forall i | 0 <= i < s.len
      ensures SlotMoves(s, t, k, i)
    {
      if Owns(s.ops[k], i) { OwnedBy(s, k, i); }
    }
    hide Stored, Inv;
  }

  lemma DrainClaims<T>(s: State<T>, t: State<T>, k: nat, i: nat, claim: Bitmap, op: Op<T>)
    requires Formed(s) && k < |s.ops| && s.ops[k].DrainClaim? && i < s.len && SlotOk(s, i) && Formed(t)
    requires claim == LiveSlots(s.word, s.len) && op.DrainFold? && op.claim == claim && op.at == 0
    requires t == s.(ops := s.ops[k := op], word := ClaimAll(s.word, claim), owner := OwnAll(s.owner, claim, Some(k)))
    ensures SlotMoves(s, t, k, i)
  {
    hide LiveSlots, ClaimAll, OwnAll, OpFormed;
  }

  lemma DrainClaimed<T>(s: State<T>, t: State<T>, k: nat, claim: Bitmap, op: Op<T>)
    requires Inv(s) && k < |s.ops| && s.ops[k].DrainClaim?
    requires claim == LiveSlots(s.word, s.len) && op.DrainFold? && op.claim == claim && op.at == 0 && |op.seen| == WORD
    requires t == s.(ops := s.ops[k := op], word := ClaimAll(s.word, claim), owner := OwnAll(s.owner, claim, Some(k)))
    ensures Moves(s, t, k)
  {
    FormedStep(s, t, k);
    hide Stored, Conserved, OwnersOk, SlotOk, SlotMoves, LiveSlots, ClaimAll, OwnAll, Formed;
    forall i | 0 <= i < s.len
      ensures SlotMoves(s, t, k, i)
    {
      DrainClaims(s, t, k, i, claim, op);
    }
  }

  lemma DrainWaits<T>(s: State<T>, t: State<T>, k: nat, op: Op<T>)
    requires Inv(s) && k < |s.ops| && s.ops[k].DrainClaim? && t == s.(ops := s.ops[k := op])
    requires (op.DrainClaim? && |op.seen| == WORD) || op == Done(Drained)
    ensures Moves(s, t, k)
  {
    hide *;
    OwnsNone(s.ops[k]);
    OwnsNone(op);
    DrainOp(op, s.len);
    DrainOp(s.ops[k], s.len);
    MovesQuiet(s, t, k);
  }

  lemma DrainOp<T>(op: Op<T>, len: nat)
    requires op.DrainClaim? || op == Done(Drained)
    ensures Hand(op) == multiset{} && (op.DrainClaim? ==> |op.seen| == WORD) == OpFormed(op, len)
  {}

  lemma DrainTryMoves<T>(s: State<T>, k: nat, flaky: bool)
    requires Inv(s) && k < |s.ops| && s.ops[k].DrainClaim?
    ensures Moves(s, DrainTry(s, k, flaky), k)
  {
    hide SlotsOk, OwnersOk, Conserved, Moves, LiveSlots, ClaimAll, OwnAll, AnyLive;
    var t := DrainTry(s, k, flaky);
    if t.ops[k].DrainFold? {
      DrainClaimed(s, t, k, t.ops[k].claim, t.ops[k]);
    } else {
      DrainWaits(s, t, k, t.ops[k]);
    }
  }

  lemma DrainReleases<T>(s: State<T>, t: State<T>, k: nat, i: nat, claim: Bitmap)
    requires Inv(s) && k < |s.ops| && s.ops[k].DrainClear? && s.ops[k].claim == claim && Formed(t)
    requires i < s.len == |claim|
    requires t == Finish(s, k, Drained).(word := ClearAll(s.word, claim), owner := OwnAll(s.owner, claim, None))
    ensures SlotMoves(s, t, k, i)
  {
    if Owns(s.ops[k], i) { OwnedBy(s, k, i); }
    hide Inv, Stored, ClearAll, OwnAll, Formed;
  }

  lemma DrainReleased<T>(s: State<T>, t: State<T>, k: nat, claim: Bitmap)
    requires Inv(s) && k < |s.ops| && s.ops[k].DrainClear? && s.ops[k].claim == claim && s.len == |claim|
    requires t == Finish(s, k, Drained).(word := ClearAll(s.word, claim), owner := OwnAll(s.owner, claim, None))
    ensures Moves(s, t, k)
  {
    FormedStep(s, t, k);
    hide Stored, SlotsOk, Conserved, OwnersOk, SlotMoves, ClearAll, OwnAll, Formed;
    forall i | 0 <= i < s.len
      ensures SlotMoves(s, t, k, i)
    {
      DrainReleases(s, t, k, i, claim);
    }
  }

  /** The clearing is tried again. */
  lemma DrainRetries<T>(s: State<T>, t: State<T>, k: nat, claim: Bitmap)
    requires Inv(s) && k < |s.ops| && s.ops[k].DrainClear? && s.ops[k].claim == claim && |s.word| == WORD
    requires t == s.(ops := s.ops[k := DrainClear(claim, s.word)])
    ensures Moves(s, t, k)
  {
    FormedStep(s, t, k);
    forall i | 0 <= i < s.len
      ensures SlotMoves(s, t, k, i)
    {
      if Owns(s.ops[k], i) { OwnedBy(s, k, i); }
    }
    hide Stored, Inv;
  }

  lemma DrainTryClearMoves<T>(s: State<T>, k: nat, flaky: bool)
    requires Inv(s) && k < |s.ops| && s.ops[k].DrainClear?
    ensures Moves(s, DrainTryClear(s, k, flaky), k)
  {
    hide SlotsOk, OwnersOk, Conserved, Moves, ClearAll, OwnAll;
    if s.word == s.ops[k].seen && !flaky {
      DrainReleased(s, DrainTryClear(s, k, flaky), k, s.ops[k].claim);
    } else {
      DrainRetries(s, DrainTryClear(s, k, flaky), k, s.ops[k].claim);
    }
  }

  lemma PanicMoves<T>(s: State<T>, k: nat)
    requires Inv(s) && k < |s.ops| && s.ops[k].DrainFold?
    ensures Moves(s, Panic(s, k), k)
  {
    var t := Panic(s, k);
    FormedStep(s, t, k);
    forall i | 0 <= i < s.len
      ensures SlotMoves(s, t, k, i)
    {
      if Owns(s.ops[k], i) { OwnedBy(s, k, i); }
    }
    StoredForsaken(s.slots, s.ops[k].claim, s.ops[k].at);
    PanicBalance(s.returned, s.lost, Stored(s.slots), Stored(t.slots));
    hide Stored, Inv;
  }

  lemma PanicBalance<T>(r: multiset<T>, l: multiset<T>, d: multiset<T>, d': multiset<T>)
    requires d' <= d
    ensures r + (l + (d - d')) + d' == r + l + d
  {}

  // ---------------------------------------------------------------- every step keeps the invariant

  lemma StepMoves<T>(s: State<T>, k: nat, flaky: bool)
    requires Inv(s) && k < |s.ops| && !s.ops[k].Done?
    ensures Moves(s, Step(s, k, flaky), k)
  {
    hide SlotsOk, OwnersOk, Conserved, Moves, PushTry, Publish, PopTry, Clear, DrainTry, Fold, DrainTryClear;
    match s.ops[k]
    case PushClaim(_, _, _) => PushTryMoves(s, k, flaky);
    case PushPublish(_, _) => PublishMoves(s, k);
    case PushUndo(_, _) => UndoMoves(s, k);
    case PopClaim(_) => PopTryMoves(s, k, flaky);
    case PopClear(_, _) => ClearMoves(s, k);
    case DrainClaim(_) => DrainTryMoves(s, k, flaky);
    case DrainFold(_, _, _) => FoldMoves(s, k);
    case DrainClear(_, _) => DrainTryClearMoves(s, k, flaky);
    case PushWrite(_, _, _) => AccessStep(s, k, flaky);
    case PushRollback(_) => AccessStep(s, k, flaky);
    case PopRead(_) => AccessStep(s, k, flaky);
    case _ => LoadMoves(s, k, flaky);
  }

  lemma LoadMoves<T>(s: State<T>, k: nat, flaky: bool)
    requires Inv(s) && k < |s.ops| && (s.ops[k].PushLoad? || s.ops[k].PopLoad? || s.ops[k].DrainLoad?)
    ensures Moves(s, Step(s, k, flaky), k)
  {
    hide SlotsOk, OwnersOk, Conserved, Moves;
    var t := Step(s, k, flaky);
    OwnsNone(s.ops[k]);
    OwnsNone(t.ops[k]);
    hide Owns;
    MovesQuiet(s, t, k);
  }

  lemma InvStarts<T>(s: State<T>, op: Op<T>)
    requires Inv(s) && (op.PushLoad? || op.PopLoad? || op.DrainLoad?)
    ensures Inv(s.(ops := s.ops + [op], pushed := s.pushed + Hand(op)))
  {
    hide *;
    var t := s.(ops := s.ops + [op], pushed := s.pushed + Hand(op));
    OwnsNone(op);
    InvParts(s);
    StartsFormed(s, t, op);
    StartsOwners(s, t, op);
    StartsBalance(s, op);
    forall i | 0 <= i < t.len
      ensures SlotOk(t, i)
    {
      StartsSlot(s, t, i, op);
    }
    InvFrom(t);
  }

  lemma InvParts<T>(s: State<T>)
    requires Inv(s)
    ensures Formed(s) && OwnersOk(s) && Conserved(s) && forall i :: 0 <= i < s.len ==> SlotOk(s, i)
  {
    hide Formed, OwnersOk, Conserved, SlotOk;
  }

  lemma InvFrom<T>(s: State<T>)
    requires Formed(s) && OwnersOk(s) && Conserved(s) && forall i :: 0 <= i < s.len ==> SlotOk(s, i)
    ensures Inv(s)
  {
    hide Formed, OwnersOk, Conserved, SlotOk;
  }

  lemma StartsFormed<T>(s: State<T>, t: State<T>, op: Op<T>)
    requires Formed(s) && (op.PushLoad? || op.PopLoad? || op.DrainLoad?)
    requires t == s.(ops := s.ops + [op], pushed := t.pushed)
    ensures Formed(t)
  {
    assert OpFormed(op, s.len);
    hide OpFormed;
  }

  lemma StartsOwners<T>(s: State<T>, t: State<T>, op: Op<T>)
    requires Formed(s) && Formed(t) && OwnersOk(s) && t == s.(ops := s.ops + [op], pushed := t.pushed)
    requires forall j: nat :: !Owns(op, j)
    ensures OwnersOk(t)
  {
    hide Owns, Formed;
  }

  lemma StartsSlot<T>(s: State<T>, t: State<T>, i: nat, op: Op<T>)
    requires Formed(s) && Formed(t) && i < s.len && SlotOk(s, i) && t == s.(ops := s.ops + [op], pushed := t.pushed)
    ensures SlotOk(t, i)
  {
    hide Owns, TakesOut, Holds, Formed;
  }

  lemma StartsBalance<T>(s: State<T>, op: Op<T>)
    requires Conserved(s)
    ensures Conserved(s.(ops := s.ops + [op], pushed := s.pushed + Hand(op)))
  {
    assert (s.ops + [op])[..|s.ops|] == s.ops;
    hide Stored, Hand;
  }

  lemma InvDo<T>(s: State<T>, a: Action<T>)
    requires Inv(s) && Can(s, a)
    ensures Inv(Do(s, a))
  {
    hide SlotsOk, OwnersOk, Conserved, Moves, Step, Panic;
    match a
    case StartPush(val, allowEmpty) => InvStarts(s, PushLoad(val, allowEmpty));
    case StartPop =>
      InvStarts(s, PopLoad);
      assert s.pushed + multiset{} == s.pushed;
    case StartDrain =>
      InvStarts(s, DrainLoad);
      assert s.pushed + multiset{} == s.pushed;
    case Advance(k, flaky) =>
      StepMoves(s, k, flaky);
      MovesKeep(s, Step(s, k, flaky), k);
    case Fail(k) =>
      PanicMoves(s, k);
      MovesKeep(s, Panic(s, k), k);
  }

  lemma StoredOne<T>(slots: seq<Option<T>>, slot: Option<T>)
    requires slots != [] && (forall i :: 0 <= i < |slots| ==> slots[i].None?)
    ensures Stored(slots[0 := slot]) == Contents(slot)
  {
    StoredNone(slots);
    StoredUpdate(slots, 0, slot);
    hide Stored;
    assert Stored(slots[0 := slot]) + multiset{} == Stored(slots[0 := slot]);
    assert multiset{} + Contents(slot) == Contents(slot);
  }

  lemma StartConserved<T>(s: State<T>)
    requires Start(s)
    ensures Conserved(s)
  {
    var none: seq<Option<T>> := seq(s.len, _ => None);
    StoredNone(none);
    if s.word == Zeros(WORD) && s.slots == seq(s.len, _ => None) && s.pushed == multiset{} {
      assert s.slots == none;
    } else {
      assert s.slots == none[0 := s.slots[0]];
      StoredOne(none, s.slots[0]);
      hide Stored, Contents;
    }
  }

  lemma InvStart<T>(s: State<T>)
    requires Start(s)
    ensures Inv(s)
  {
    StartConserved(s);
    StartFormed(s);
    hide Conserved, Stored, InFlight, Formed, Zeros, Start;
  }

  lemma StartFormed<T>(s: State<T>)
    requires Start(s)
    ensures Formed(s) && s.ops == []
    ensures forall i :: 0 <= i < s.len ==>
      s.owner[i] == None && !Own(s.word, i) && s.slots[i].Some? == Inst(s.word, s.len, i)
  {}

  lemma {:induction false} RunInv<T>(states: seq<State<T>>, actions: seq<Action<T>>, n: nat)
    requires Run(states, actions) && n < |states|
    ensures Inv(states[n])
  {
    hide Inv, Can, Do;
    if n == 0 {
      InvStart(states[0]);
    } else {
      RunInv(states, actions, n - 1);
      InvDo(states[n - 1], actions[n - 1]);
    }
  }

  // ---------------------------------------------------------------- what the invariant is for

  /** In every reachable state each value ever handed to `push` is in exactly one place: given back
      to some caller, in a slot, in the hands of an operation, or lost by a panicking fold. */
  lemma ValuesConserved<T>(states: seq<State<T>>, actions: seq<Action<T>>, n: nat)
    requires Run(states, actions) && n < |states|
    ensures var s := states[n]; s.pushed == s.returned + s.lost + Stored(s.slots) + InFlight(s.ops)
  {
    hide Run, Can, Do;
    RunInv(states, actions, n);
  }

  /** Each owned bit belongs to exactly one operation in flight, and no other is claimed. */
  lemma OwnedByExactlyOne<T>(states: seq<State<T>>, actions: seq<Action<T>>, n: nat, i: nat)
    requires Run(states, actions) && n < |states| && i < states[n].len
    ensures Formed(states[n])
    ensures var s := states[n];
      && (Own(s.word, i) <==> exists k :: 0 <= k < |s.ops| && Owns(s.ops[k], i))
      && (forall k, l :: 0 <= k < |s.ops| && 0 <= l < |s.ops| && Owns(s.ops[k], i) && Owns(s.ops[l], i) ==> k == l)
  {
    hide Run, Can, Do;
    RunInv(states, actions, n);
    assert SlotOk(states[n], i);
    hide Owns;
  }

  // ---------------------------------------------------------------- the four states of a slot

  datatype SlotState = Vacant | Filling | Full | Emptying

  function StateOf(word: Bitmap, len: nat, i: nat): SlotState
    requires |word| == WORD && i < len <= 32
  {
    if Inst(word, len, i) then if Own(word, i) then Emptying else Full
    else if Own(word, i) then Filling else Vacant
  }

  predicate Edge(a: SlotState, b: SlotState) {
    || a == b || (a.Vacant? && b.Filling?) || (a.Filling? && (b.Full? || b.Vacant?))
    || (a.Full? && b.Emptying?) || (a.Emptying? && b.Vacant?)
  }

  lemma MovesEdge<T>(s: State<T>, t: State<T>, k: nat, i: nat)
    requires Inv(s) && k < |s.ops| && Moves(s, t, k) && i < s.len
    ensures Edge(StateOf(s.word, s.len, i), StateOf(t.word, t.len, i))
  {
    assert SlotMoves(s, t, k, i) && SlotOk(s, i);
    hide Owns, TakesOut, Holds;
  }

  /** Slots move only along the edges of the documented four-state machine. */
  lemma FourStates<T>(s: State<T>, a: Action<T>, i: nat)
    requires Inv(s) && Can(s, a) && i < s.len
    ensures Formed(Do(s, a)) && Do(s, a).len == s.len
    ensures Edge(StateOf(s.word, s.len, i), StateOf(Do(s, a).word, s.len, i))
  {
    InvDo(s, a);
    hide SlotsOk, OwnersOk, Conserved, Step, Panic, Edge, StateOf;
    match a
    case Advance(k, flaky) =>
      StepMoves(s, k, flaky);
      MovesEdge(s, Step(s, k, flaky), k, i);
    case Fail(k) =>
      PanicMoves(s, k);
      MovesEdge(s, Panic(s, k), k, i);
    case _ => EdgeSame(StateOf(s.word, s.len, i));
  }

  lemma EdgeSame(a: SlotState)
    ensures Edge(a, a)
  {}
}
