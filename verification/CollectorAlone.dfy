/** One collector whose thread runs undisturbed: what a whole guard does to it, and how many guards a
    retired instance can survive. */
module CollectorAlone {
  import opened Base
  import opened Epochs
  import opened Reclaimer

  /** Collects `items` one after the other. */
  function CollectAll(col: Col, items: seq<Item>): Col
    decreases items
  {
    if items == [] then col else CollectAll(CollectCol(col, items[0]), items[1..])
  }

  lemma {:induction false} CollectAllLists(col: Col, items: seq<Item>)
    ensures CollectAll(col, items)
         == col.(current := Reverse(items) + col.current, hasGarbage := col.hasGarbage || items != [])
    decreases items
  {
    if items == [] {
      assert Reverse(items) + col.current == col.current;
    } else {
      CollectAllLists(CollectCol(col, items[0]), items[1..]);
      assert Reverse(items[1..]) + ([items[0]] + col.current) == Reverse(items) + col.current;
    }
  }

  lemma {:induction false} CollectAllAppend(col: Col, items: seq<Item>, x: Item)
    ensures CollectAll(col, items + [x]) == CollectCol(CollectAll(col, items), x)
    decreases items
  {
    if items != [] {
      assert (items + [x])[1..] == items[1..] + [x];
      CollectAllAppend(CollectCol(col, items[0]), items[1..], x);
    }
  }

  /** What dropping the rotated list comes to: the collector, what was dropped, and whether all
      destructors returned. */
  datatype Outcome = Outcome(col: Col, dropped: seq<Item>, ok: bool)

  function DrainAll(col: Col, fails: set<Item>): Outcome
    requires col.phase.Draining? && col.phase.inner == []
    decreases |col.phase.outer|
  {
    if col.phase.outer == [] then Outcome(col.(countdown := CADENCE, phase := Idle), [], true)
    else
      var x := col.phase.outer[0];
      if x in fails then Outcome(FailCol(col), [x], false)
      else
        var r := DrainAll(col.(phase := Rest(col.phase)), fails);
        Outcome(r.col, [x] + r.dropped, r.ok)
  }

  /** `epoch_updated`. */
  function Updated(col: Col, fails: set<Item>): Outcome {
    if col.hasGarbage then DrainAll(Rotate(col), fails)
    else Outcome(col.(countdown := CADENCE), [], true)
  }

  /** The position of the first destructor that fails. */
  function FirstFail(items: seq<Item>, fails: set<Item>): (n: nat)
    ensures n <= |items| && (n < |items| ==> items[n] in fails) && forall i :: 0 <= i < n ==> items[i] !in fails
  {
    if items == [] || items[0] in fails then 0 else 1 + FirstFail(items[1..], fails)
  }

  lemma FirstFailStep(items: seq<Item>, fails: set<Item>)
    requires items != []
    ensures items[0] in fails ==> FirstFail(items, fails) == 0 && items[..1] == [items[0]]
    ensures items[0] !in fails ==>
      var n := FirstFail(items[1..], fails);
      && FirstFail(items, fails) == n + 1 && [items[0]] + items[1..] == items
      && (n < |items| - 1 ==>
            [items[0]] + items[1..][..n + 1] == items[..n + 2] && items[1..][n + 1..] == items[n + 2..])
  {}

  /** What is left of a rotated list when its destructor number `n` fails. */
  function Failed(col: Col, n: nat): Outcome
    requires col.phase.Draining? && n < |col.phase.outer|
  {
    var rest := col.phase.outer[n + 1..];
    Outcome(col.(current := Reverse(rest) + col.current, phase := Idle, hasGarbage := col.hasGarbage || rest != []),
            col.phase.outer[..n + 1], false)
  }

  lemma {:induction false} DrainMeans(col: Col, fails: set<Item>)
    requires col.phase.Draining? && col.phase.inner == []
    ensures var outer := col.phase.outer; var n := FirstFail(outer, fails);
      DrainAll(col, fails) ==
        if n == |outer| then Outcome(col.(countdown := CADENCE, phase := Idle), outer, true) else Failed(col, n)
    decreases |col.phase.outer|
  {
    var outer := col.phase.outer;
    if outer != [] {
      FirstFailStep(outer, fails);
      if outer[0] !in fails {
        var col1 := col.(phase := Rest(col.phase));
        DrainMeans(col1, fails);
        hide FirstFail, DrainAll;
        var n := FirstFail(outer[1..], fails);
        if n < |outer| - 1 { FailedStep(col, n); }
        DrainCons(col, fails);
      } else {
        hide FirstFail, Reverse;
      }
    }
  }

  lemma FailedStep(col: Col, n: nat)
    requires col.phase.Draining? && col.phase.inner == [] && n + 1 < |col.phase.outer|
    ensures var r := Failed(col.(phase := Rest(col.phase)), n);
      Failed(col, n + 1) == Outcome(r.col, [col.phase.outer[0]] + r.dropped, false)
  {
    hide Reverse;
    var outer := col.phase.outer;
    assert outer[1..][n + 1..] == outer[n + 2..];
    assert [outer[0]] + outer[1..][..n + 1] == outer[..n + 2];
  }

  lemma DrainCons(col: Col, fails: set<Item>)
    requires col.phase.Draining? && col.phase.inner == [] && col.phase.outer != [] && col.phase.outer[0] !in fails
    ensures var r := DrainAll(col.(phase := Rest(col.phase)), fails);
      DrainAll(col, fails) == Outcome(r.col, [col.phase.outer[0]] + r.dropped, r.ok)
  {}

  /** A rotation, list by list: whatever the destructors do, the lists move on by one, and the flag ends up
      saying whether garbage is left. */
  ghost predicate Rotates(a: Col, fails: set<Item>, b: Col, dropped: seq<Item>, ok: bool) {
    var n := FirstFail(a.next, fails);
    && ok == (n == |a.next|) && b.next == a.previous && b.previous == a.current
    && (b.hasGarbage <==> b.next != [] || b.previous != [] || b.current != [])
    && (if ok then b.current == [] && dropped == a.next && b.countdown == CADENCE
        else multiset(dropped) + multiset(b.current) == multiset(a.next) && dropped == a.next[..n + 1]
             && b.countdown == a.countdown)
  }

  lemma {:induction false} ReverseSize(items: seq<Item>)
    ensures |Reverse(items)| == |items| && multiset(Reverse(items)) == multiset(items)
  {
    if items != [] {
      ReverseSize(items[1..]);
      assert items == [items[0]] + items[1..];
    }
  }

  lemma FailParts(items: seq<Item>, n: nat)
    requires n < |items|
    ensures var rest := items[n + 1..];
      && multiset(items[..n + 1]) + multiset(Reverse(rest) + []) == multiset(items)
      && |Reverse(rest) + []| == |rest|
  {
    var rest := items[n + 1..];
    ReverseSize(rest);
    assert items == items[..n + 1] + rest;
    assert Reverse(rest) + [] == Reverse(rest);
    hide Reverse;
  }

  lemma RotationOk(col: Col, fails: set<Item>)
    requires FirstFail(col.next, fails) == |col.next|
    ensures Rotates(col, fails, Rotate(col).(countdown := CADENCE, phase := Idle), col.next, true)
  {
    hide FirstFail;
  }

  lemma RotationFails(col: Col, fails: set<Item>)
    requires FirstFail(col.next, fails) < |col.next|
    ensures var r := Failed(Rotate(col), FirstFail(col.next, fails)); Rotates(col, fails, r.col, r.dropped, false)
  {
    var n := FirstFail(col.next, fails);
    FailParts(col.next, n);
    hide FirstFail, Reverse;
    FailedIs(col, n);
    hide Failed;
  }

  lemma FailedIs(col: Col, n: nat)
    requires n < |col.next|
    ensures var r, rest := Failed(Rotate(col), n), col.next[n + 1..];
      && r.col.next == col.previous && r.col.previous == col.current && r.col.current == Reverse(rest) + []
      && r.col.countdown == col.countdown && r.dropped == col.next[..n + 1]
      && (r.col.hasGarbage <==> col.previous != [] || col.current != [] || rest != [])
  {
    hide Reverse;
  }

  lemma UpdatedMeans(col: Col, fails: set<Item>)
    ensures var r := Updated(col, fails);
      if col.hasGarbage then Rotates(col, fails, r.col, r.dropped, r.ok)
      else r.ok && r.dropped == [] && r.col == col.(countdown := CADENCE)
  {
    if col.hasGarbage {
      DrainMeans(Rotate(col), fails);
      if FirstFail(col.next, fails) == |col.next| { RotationOk(col, fails); } else { RotationFails(col, fails); }
      hide DrainAll, Reverse, FirstFail, Rotates, Failed;
    }
  }

  /** The outermost `new_guard`, as far as it does not fail. */
  function EnterAlone(col: Col, now8: Epoch, fails: set<Item>): Outcome {
    var col1 := EnterCol(col, now8, 0, 0);
    if col1.phase.Draining? && col1.phase.inner == [] then DrainAll(col1, fails) else Outcome(col1, [], true)
  }

  lemma EnterUpdates(col: Col, now8: Epoch, fails: set<Item>)
    requires col.phase.Idle? && col.epoch == 0 && col.since == 0
    ensures var col1 := col.(readers := 1, word := Word(now8, false, false), announcement := now8);
      EnterAlone(col, now8, fails) == if col.announcement == now8 then Outcome(col1, [], true) else Updated(col1, fails)
  {}

  /** The outermost `end_guard`; `adopted` is what the scan, if there is one, collects. */
  function ExitAlone(col: Col, marked: bool, adopted: seq<Item>): Col {
    var col1 := ExitCol(col, marked);
    if col1.phase.Locking? then LeaveCol(CollectAll(col1, adopted).(countdown := CADENCE)) else LeaveCol(col1)
  }

  // ---------------------------------------------------------------- bounded reclamation

  /** The collector, the global epoch, and everything dropped so far. */
  datatype Solo = Solo(epoch: Epoch, col: Col, freed: set<Item>)

  /** What the thread does in one guard: what it retires, whether it calls `accelerate`, and what the
      scan at its end, if any, finds. */
  datatype Work = Work(retired: seq<Item>, accelerated: bool, marked: bool, adopted: seq<Item>)

  function Worked(col: Col, w: Work): Col {
    var col1 := CollectAll(col, w.retired);
    if w.accelerated then col1.(countdown := 0) else col1
  }

  /** One outermost guard of a thread all of whose peers are inactive or invalid, the chain lock being
      free: a scan publishes the next epoch. */
  function Guarded(s: Solo, w: Work): Solo {
    var entered := EnterAlone(s.col, s.epoch, {});
    var col := Worked(entered.col, w);
    Solo(if col.countdown == 0 then Next(col.announcement) else s.epoch,
         ExitAlone(col, w.marked, w.adopted),
         s.freed + set x | x in entered.dropped)
  }

  function Guards(s: Solo, works: seq<Work>): Solo
    decreases works
  {
    if works == [] then s else Guards(Guarded(s, works[0]), works[1..])
  }

  /** Between guards. */
  predicate Resting(col: Col) {
    && col.phase.Idle? && col.readers == 0 && col.word == Word(col.announcement, true, false)
    && col.countdown <= CADENCE && col.epoch == 0 && col.since == 0
    && (col.hasGarbage || Lists(col) == [])
  }

  /** The number of rotations after which `x` is dropped. */
  function Rotations(col: Col, x: Item): nat {
    if x in col.next then 1 else if x in col.previous then 2 else if x in col.current then 3 else 0
  }

  /** The number of guards `x` can still survive. */
  function Survives(s: Solo, x: Item): nat {
    var k := Rotations(s.col, x);
    if k == 0 then 0
    else if s.col.announcement == s.epoch then s.col.countdown + 2 + (k - 1) * (CADENCE + 1)
    else 1 + (k - 1) * (CADENCE + 1)
  }

  lemma {:induction false} DrainsAll(col: Col)
    requires col.phase.Draining? && col.phase.inner == []
    ensures DrainAll(col, {}) == Outcome(col.(countdown := CADENCE, phase := Idle), col.phase.outer, true)
    decreases |col.phase.outer|
  {
    if col.phase.outer != [] {
      DrainsAll(col.(phase := Rest(col.phase)));
      assert [col.phase.outer[0]] + col.phase.outer[1..] == col.phase.outer;
    }
  }

  /** Entering rotates exactly when the epoch was announced before, and then drops the oldest list. */
  lemma EnterRests(col: Col, now8: Epoch)
    requires Resting(col)
    ensures var r := EnterAlone(col, now8, {});
      && r.ok && r.col.phase.Idle? && r.col.announcement == now8 && r.col.readers == 1 && r.col.epoch == 0
      && r.col.since == 0
      && (r.col.hasGarbage || Lists(r.col) == [])
      && (if col.announcement == now8
          then r.dropped == [] && r.col.countdown == col.countdown
               && r.col.next == col.next && r.col.previous == col.previous && r.col.current == col.current
          else r.dropped == col.next && r.col.countdown == CADENCE
               && r.col.next == col.previous && r.col.previous == col.current && r.col.current == [])
  {
    var col1 := EnterCol(col, now8, 0, 0);
    if col1.phase.Draining? { DrainsAll(col1); }
  }

  lemma {:induction false} ReverseIn(items: seq<Item>, x: Item)
    ensures x in Reverse(items) <==> x in items
  {
    if items != [] { ReverseIn(items[1..], x); }
  }

  /** Collecting more moves nothing that is there. */
  lemma CollectKeeps(col: Col, items: seq<Item>, x: Item)
    ensures var t := CollectAll(col, items);
      && (x !in items || Rotations(col, x) > 0 ==> Rotations(t, x) == Rotations(col, x))
      && (t.hasGarbage || (Lists(t) == [] && Lists(col) == [] && !col.hasGarbage) || Lists(t) == Lists(col))
      && t == col.(current := t.current, hasGarbage := t.hasGarbage)
      && (col.hasGarbage || Lists(col) == [] ==> t.hasGarbage || Lists(t) == [])
      && (x in col.current ==> x in t.current)
  {
    CollectAllLists(col, items);
    ReverseIn(items, x);
  }

  lemma ExitRests(col: Col, marked: bool, adopted: seq<Item>, x: Item)
    requires col.phase.Idle? && col.readers == 1 && col.countdown <= CADENCE && col.epoch == 0 && col.since == 0
    requires col.hasGarbage || Lists(col) == []
    ensures var t := ExitAlone(col, marked, adopted);
      && Resting(t) && t.announcement == col.announcement
      && (Rotations(col, x) > 0 || x !in adopted ==> Rotations(t, x) == Rotations(col, x))
      && (if col.countdown == 0 then t.countdown == CADENCE
          else t.countdown == col.countdown - (if col.hasGarbage || marked then 1 else 0))
  {
    CollectKeeps(ExitCol(col, marked), adopted, x);
    hide CollectAll;
  }

  lemma NonEmpty(col: Col, x: Item)
    requires Rotations(col, x) > 0 && (col.hasGarbage || Lists(col) == [])
    ensures col.hasGarbage
  {}

  /** One guard uses up at least one of the guards `x` can survive; without `accelerate` exactly one.
      `x` is dropped exactly when the last one is used up. */
  lemma GuardSpends(s: Solo, w: Work, x: Item)
    requires Resting(s.col) && Rotations(s.col, x) > 0 && x !in s.freed
    ensures var t := Guarded(s, w);
      && Resting(t.col)
      && (Survives(s, x) == 1 ==> x in t.freed)
      && (Survives(s, x) > 1 ==>
            x !in t.freed && 0 < Rotations(t.col, x) && Survives(t, x) < Survives(s, x)
            && (!w.accelerated ==> Survives(t, x) == Survives(s, x) - 1))
  {
    EnterRests(s.col, s.epoch);
    var col := EnterAlone(s.col, s.epoch, {}).col;
    hide EnterAlone;
    CollectKeeps(col, w.retired, x);
    hide CollectAll;
    var worked := Worked(col, w);
    ExitRests(worked, w.marked, w.adopted, x);
    if Rotations(worked, x) > 0 { NonEmpty(worked, x); }
    hide ExitAlone, Lists;
  }

  lemma {:induction false} FreedStays(s: Solo, works: seq<Work>, x: Item)
    requires x in s.freed
    ensures x in Guards(s, works).freed
    decreases works
  {
    if works != [] { FreedStays(Guarded(s, works[0]), works[1..], x); }
  }

  /** Bounded reclamation: with all peers inactive or invalid and the chain lock free, a retired
      instance is dropped within `Survives` further outermost guards, which is never more than 196,
      whatever else the thread retires meanwhile and wherever its countdown starts.  Without
      `accelerate` it is dropped by exactly that guard. */
  lemma {:induction false} BoundedReclamation(s: Solo, works: seq<Work>, x: Item)
    requires Resting(s.col) && Rotations(s.col, x) > 0 && x !in s.freed
    ensures 0 < Survives(s, x) <= 3 * (CADENCE + 1) + 1 == 196
    ensures |works| >= Survives(s, x) ==> x in Guards(s, works).freed
    ensures (forall w :: w in works ==> !w.accelerated) ==>
      (x in Guards(s, works).freed <==> |works| >= Survives(s, x))
    decreases works
  {
    hide Guarded, Resting;
    SurvivesAtMost(s, x);
    if works != [] {
      var t, rest := Guarded(s, works[0]), works[1..];
      GuardSpends(s, works[0], x);
      if Survives(s, x) == 1 {
        FreedStays(t, rest, x);
      } else {
        BoundedReclamation(t, rest, x);
        assert forall w :: w in rest ==> w in works;
        assert works[0] in works;
      }
    }
    hide Survives, Rotations;
  }

  lemma SurvivesAtMost(s: Solo, x: Item)
    requires Resting(s.col) && Rotations(s.col, x) > 0
    ensures 0 < Survives(s, x) <= 3 * (CADENCE + 1) + 1 == 196
  {}

  /** The bound is met: an instance retired right after a countdown was reset takes 196 guards. */
  lemma BoundIsTight(works: seq<Work>, o: InstanceId)
    requires |works| == 195 && forall w :: w in works ==> !w.accelerated
    ensures var col := Col(Word(0, true, false), 0, CADENCE, true, 0, [], [Instance(o)], [], None, Idle, 0, 0);
      && Resting(col) && Instance(o) !in Guards(Solo(0, col, {}), works).freed
  {
    var col := Col(Word(0, true, false), 0, CADENCE, true, 0, [], [Instance(o)], [], None, Idle, 0, 0);
    BoundedReclamation(Solo(0, col, {}), works, Instance(o));
  }
}
