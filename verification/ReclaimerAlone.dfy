/** The machine and the code meet: when no other collector takes a step between them, the steps of
    one collector add up to what the code does in one call. */
module ReclaimerAlone {
  import opened Base
  import opened Epochs
  import opened Reclaimer
  import opened ReclaimerShape
  import opened ReclaimerGarbage
  import opened ReclaimerGrace
  import opened ReclaimerSafety
  import opened ReclaimerTheorems
  import opened CollectorAlone

  /** History fields do not exist in the code. */
  function Bare(col: Col): Col { col.(epoch := 0, since := 0, link := None) }

  /** Between guards, the collector of every reachable state satisfies what `BoundedReclamation`
      assumes; in particular its countdown never leaves 0..64. */
  lemma ReachableRests(states: seq<State>, actions: seq<Action>, i: nat, c: CollectorId)
    requires Run(states, actions) && i < |states| && c in states[i].cols
    requires states[i].cols[c].phase.Idle? && states[i].cols[c].readers == 0 && !IsInvalid(states[i].cols[c].word)
    ensures Resting(Bare(states[i].cols[c]))
  {
    hide *;
    RunInv(states, actions, i);
    RestingOf(states[i], c);
  }

  lemma RestingOf(s: State, c: CollectorId)
    requires Inv(s) && c in s.cols
    requires s.cols[c].phase.Idle? && s.cols[c].readers == 0 && !IsInvalid(s.cols[c].word)
    ensures Resting(Bare(s.cols[c]))
  {
    hide Shape, Tallies, Owners, Grace, ScanOk, LockOk;
    OfCollector(s, c);
    FlagAt(s, c);
  }

  function DoAll(s: State, actions: seq<Action>): State
    decreases actions
  {
    if actions == [] then s else DoAll(Do(s, actions[0]), actions[1..])
  }

  predicate CanAll(s: State, actions: seq<Action>)
    decreases actions
  {
    actions == [] || (Can(s, actions[0]) && CanAll(Do(s, actions[0]), actions[1..]))
  }

  /** The steps that drop a rotated list of instances. */
  function Drains(c: CollectorId, n: nat): seq<Action> {
    if n == 0 then [AFinishDrain(c)] else [ADrain(c)] + Drains(c, n - 1)
  }

  lemma AllCons(s: State, a: Action, rest: seq<Action>)
    ensures DoAll(s, [a] + rest) == DoAll(Do(s, a), rest)
    ensures CanAll(s, [a] + rest) <==> Can(s, a) && CanAll(Do(s, a), rest)
  {
    assert ([a] + rest)[0] == a && ([a] + rest)[1..] == rest;
    hide Can, Do;
  }

  lemma NoneLeft(s: State)
    ensures DoAll(s, []) == s && CanAll(s, [])
  {}

  lemma DrainsCons(c: CollectorId, n: nat)
    ensures Drains(c, n) == if n == 0 then [AFinishDrain(c)] + [] else [ADrain(c)] + Drains(c, n - 1)
  {}

  lemma DrainOne(s: State, c: CollectorId, outer: seq<Item>)
    requires c in s.cols && s.cols[c].phase == Draining([], outer) && outer != [] && outer[0].Instance?
    requires outer[0] in s.info
    ensures var t := Do(s, ADrain(c));
      && Can(s, ADrain(c)) && t.cols == s.cols[c := s.cols[c].(phase := Draining([], outer[1..]))]
      && t.info.Keys == s.info.Keys
      && forall x :: x in s.info ==> t.info[x].loc == if x == outer[0] then Freed else s.info[x].loc
  {}

  lemma DrainLast(s: State, c: CollectorId)
    requires c in s.cols && s.cols[c].phase == Draining([], [])
    ensures var t := Do(s, AFinishDrain(c));
      && Can(s, AFinishDrain(c)) && t.info == s.info
      && t.cols == s.cols[c := s.cols[c].(countdown := CADENCE, phase := Idle)]
  {}

  lemma DrainAllCons(col: Col, outer: seq<Item>)
    requires col.phase == Draining([], outer)
    ensures DrainAll(col, {}).col ==
      if outer == [] then col.(countdown := CADENCE, phase := Idle)
      else DrainAll(col.(phase := Draining([], outer[1..])), {}).col
  {}

  lemma Tail(outer: seq<Item>)
    requires outer != []
    ensures outer == [outer[0]] + outer[1..] && forall x :: x in outer ==> x == outer[0] || x in outer[1..]
    ensures forall x :: x in outer[1..] ==> x in outer
  {}

  /** Dropping the rotated list step by step is `DrainAll`. */
  lemma {:induction false} DrainsAdd(s: State, c: CollectorId, outer: seq<Item>)
    requires c in s.cols && s.cols[c].phase == Draining([], outer)
    requires forall x :: x in outer ==> x.Instance? && x in s.info
    ensures CanAll(s, Drains(c, |outer|))
    ensures var t := DoAll(s, Drains(c, |outer|));
      && t.cols == s.cols[c := DrainAll(s.cols[c], {}).col]
      && forall x :: x in outer ==> x in t.info && t.info[x].loc.Freed?
    decreases |outer|
  {
    hide *;
    DrainsCons(c, |outer|);
    DrainAllCons(s.cols[c], outer);
    if outer == [] {
      DrainLast(s, c);
      AllCons(s, AFinishDrain(c), []);
      NoneLeft(Do(s, AFinishDrain(c)));
    } else {
      var s1 := Do(s, ADrain(c));
      Tail(outer);
      DrainOne(s, c, outer);
      AllCons(s, ADrain(c), Drains(c, |outer| - 1));
      DrainsAdd(s1, c, outer[1..]);
      FreedKept(s1, c, outer[1..], outer[0]);
    }
  }

  lemma {:induction false} FreedKept(s: State, c: CollectorId, outer: seq<Item>, x: Item)
    requires c in s.cols && s.cols[c].phase == Draining([], outer) && x in s.info && s.info[x].loc.Freed?
    requires forall y :: y in outer ==> y.Instance? && y in s.info
    ensures var t := DoAll(s, Drains(c, |outer|)); x in t.info && t.info[x].loc.Freed?
    decreases |outer|
  {
    hide *;
    DrainsCons(c, |outer|);
    if outer == [] {
      DrainLast(s, c);
      AllCons(s, AFinishDrain(c), []);
      NoneLeft(Do(s, AFinishDrain(c)));
    } else {
      Tail(outer);
      DrainOne(s, c, outer);
      AllCons(s, ADrain(c), Drains(c, |outer| - 1));
      FreedKept(Do(s, ADrain(c)), c, outer[1..], x);
    }
  }

  lemma {:induction false} DrainBare(col: Col)
    requires col.phase.Draining? && col.phase.inner == []
    ensures Bare(DrainAll(col, {}).col) == DrainAll(Bare(col), {}).col
    decreases |col.phase.outer|
  {
    if col.phase.outer != [] { DrainBare(col.(phase := Rest(col.phase))); }
  }

  /** The steps of an outermost `new_guard`. */
  function EnterSteps(s: State, c: CollectorId): seq<Action>
    requires CanEnter(s, c)
  {
    var col := Enter(s, c).cols[c];
    [AEnter(c)] + if col.phase.Draining? then Drains(c, |col.phase.outer|) else []
  }

  lemma EnterMeets(s: State, c: CollectorId)
    requires CanEnter(s, c)
    ensures var col := Enter(s, c).cols[c];
      && Enter(s, c).cols == s.cols[c := col] && Enter(s, c).info == s.info
      && Bare(col) == EnterCol(Bare(s.cols[c]), s.epoch8, 0, 0)
      && (col.phase == Idle || col.phase == Draining([], s.cols[c].next))
  {}

  /** Entering a guard step by step, when only instances were retired, is what the code does in one
      call, and leaves every other collector as it is. */
  lemma EnterAdds(s: State, c: CollectorId)
    requires CanEnter(s, c) && forall x :: x in s.cols[c].next ==> x.Instance? && x in s.info
    ensures CanAll(s, EnterSteps(s, c))
    ensures var t := DoAll(s, EnterSteps(s, c)); var r := EnterAlone(Bare(s.cols[c]), s.epoch8, {});
      && c in t.cols && t.cols == s.cols[c := t.cols[c]]
      && Bare(t.cols[c]) == r.col && r.ok
      && forall x :: x in r.dropped ==> x in t.info && t.info[x].loc.Freed?
  {
    var s1, steps := Enter(s, c), EnterSteps(s, c);
    EnterMeets(s, c);
    assert steps[0] == AEnter(c) && Do(s, steps[0]) == s1;
    if s1.cols[c].phase.Draining? {
      assert steps[1..] == Drains(c, |s1.cols[c].phase.outer|);
      DrainsAll(EnterCol(Bare(s.cols[c]), s.epoch8, 0, 0));
      hide Enter;
      DrainsAdd(s1, c, s1.cols[c].phase.outer);
      DrainBare(s1.cols[c]);
      hide DrainAll, Drains, EnterCol;
    } else {
      assert steps[1..] == [];
    }
  }
}
