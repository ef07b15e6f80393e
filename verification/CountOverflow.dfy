/** The overflow of the reference count is not only possible in principle: a run that leads to it. */
module CountOverflow {
  import opened Base
  import opened CountWord

  /** A run goes on. */
  lemma Extend(states: seq<State>, actions: seq<Action>, a: Action)
    requires Sound(states, actions) && |states| > 0 && Can(states[|states| - 1], a)
    requires Strong(Do(states[|states| - 1], a)) <= MOST
    ensures Sound(states + [Do(states[|states| - 1], a)], actions + [a])
  {
    hide Can, Do, Strong;
    var n := |actions|;
    var states', actions' := states + [Do(states[n], a)], actions + [a];
    forall i | 0 <= i < |actions'|
      ensures Can(states'[i], actions'[i]) && states'[i + 1] == Do(states'[i], actions'[i])
    {
      if i < n { assert states[i + 1] == Do(states[i], actions[i]); }
    }
  }

  /** A drop that has read the word 1 is still about to take effect, while there are `n` handles again. */
  ghost predicate Piled(s: State, n: nat) {
    && s.reported == 0 && |s.ops| > 0 && s.ops[0] == DropTry(1) && s.word == 2 * n + 1
    && (forall k :: 1 <= k < |s.ops| ==> s.ops[k].Done?)
    && (forall h :: h in s.live <==> 1 <= h <= n)
  }

  lemma StrongOf(s: State, n: nat)
    requires Inv(s) && Piled(s, n)
    ensures Strong(s) == n + 1
  {
    hide Borrowed, Targets, Strong;
  }

  /** `s` with one more operation at the end. */
  function With(s: State, op: Op): State { s.(ops := s.ops + [op]) }

  lemma WithCounts(s: State, op: Op)
    requires !IsDrop(op)
    ensures Strong(With(s, op)) == Strong(s)
  {
    DropsAppend(s.ops, op);
    hide Drops;
  }

  lemma OneMore(live: set<HandleId>, to: HandleId)
    requires to !in live
    ensures |live + {to}| == |live| + 1
  {}

  /** The three steps of a clone that nobody disturbs. */
  lemma CloneSteps(s: State, n: nat, to: HandleId)
    requires Piled(s, n) && n >= 1 && to == n + 1 && n + 2 <= MOST
    ensures var k := |s.ops|; var s1, s2 := With(s, CloneLoad(1, to)), With(s, CloneTry(1, to, s.word));
      var s3 := With(s, Done(true)).(word := s.word + 2, live := s.live + {to});
      && Can(s, StartClone(1, to)) && Do(s, StartClone(1, to)) == s1
      && Can(s1, Advance(k, false)) && Do(s1, Advance(k, false)) == s2
      && Can(s2, Advance(k, false)) && Do(s2, Advance(k, false)) == s3
      && Piled(s3, n + 1) && Strong(s3) == Strong(s) + 1
  {
    var k := |s.ops|;
    var s1, s2 := With(s, CloneLoad(1, to)), With(s, CloneTry(1, to, s.word));
    var s3 := With(s, Done(true)).(word := s.word + 2, live := s.live + {to});
    assert s1.ops[k := CloneTry(1, to, s.word)] == s2.ops;
    assert s2.ops[k := Done(true)] == s3.ops;
    assert Plus2(s.word) == s.word + 2;
    OneMore(s.live, to);
    DropsAppend(s.ops, Done(true));
    hide Drops;
  }

  lemma {:induction false} Piling(n: nat) returns (states: seq<State>, actions: seq<Action>)
    requires 1 <= n && n + 1 <= MOST
    ensures Sound(states, actions) && |states| > 0 && Piled(states[|states| - 1], n)
  {
    if n == 1 {
      states, actions := FirstPile();
    } else {
      states, actions := Piling(n - 1);
      var s, k := states[|states| - 1], |states[|states| - 1].ops|;
      hide Piled, Can, Do, Strong, Sound;
      SoundLast(states, actions);
      StrongOf(s, n - 1);
      CloneSteps(s, n - 1, n);
      WithCounts(s, CloneLoad(1, n));
      WithCounts(s, CloneTry(1, n, s.word));
      states, actions := More(states, actions, StartClone(1, n));
      states, actions := More(states, actions, Advance(k, false));
      states, actions := More(states, actions, Advance(k, false));
    }
  }

  lemma SoundLast(states: seq<State>, actions: seq<Action>)
    requires Sound(states, actions) && |states| > 0
    ensures Inv(states[|states| - 1])
  {
    RunInv(states, actions, |states| - 1);
    hide Can, Do, Inv, Strong;
  }

  lemma More(states: seq<State>, actions: seq<Action>, a: Action) returns (states': seq<State>, actions': seq<Action>)
    requires Sound(states, actions) && |states| > 0 && Can(states[|states| - 1], a)
    requires Strong(Do(states[|states| - 1], a)) <= MOST
    ensures Sound(states', actions') && |states'| > 0 && states'[|states'| - 1] == Do(states[|states| - 1], a)
  {
    Extend(states, actions, a);
    states', actions' := states + [Do(states[|states| - 1], a)], actions + [a];
    hide Can, Do, Strong, Sound;
  }

  /** The only handle is dropped, up to the point where the drop has read the word; meanwhile somebody
      upgrades a pointer. */
  lemma FirstPile() returns (states: seq<State>, actions: seq<Action>)
    ensures Sound(states, actions) && |states| > 0 && Piled(states[|states| - 1], 1)
  {
    var s1, s2 := State(1, {}, [DropLoad], 0), State(1, {}, [DropTry(1)], 0);
    var s3, s4 := State(1, {}, [DropTry(1), UpgradeLoad(1)], 0), State(1, {}, [DropTry(1), UpgradeTry(1, 1)], 0);
    var s5 := State(3, {1}, [DropTry(1), Done(true)], 0);
    states := [FRESH, s1, s2, s3, s4, s5];
    actions := [StartDrop(0), Advance(0, false), StartUpgrade(1), Advance(1, false), Advance(1, false)];
    FirstSteps();
    FirstCounts();
    hide Can, Do, Strong;
    assert forall i :: 0 <= i < |actions| ==> Can(states[i], actions[i]) && states[i + 1] == Do(states[i], actions[i]);
    assert forall i :: 0 <= i < |states| ==> Strong(states[i]) <= MOST;
  }

  lemma FirstSteps()
    ensures Can(FRESH, StartDrop(0)) && Do(FRESH, StartDrop(0)) == State(1, {}, [DropLoad], 0)
    ensures var s := State(1, {}, [DropLoad], 0);
      Can(s, Advance(0, false)) && Do(s, Advance(0, false)) == State(1, {}, [DropTry(1)], 0)
    ensures var s := State(1, {}, [DropTry(1)], 0);
      Can(s, StartUpgrade(1)) && Do(s, StartUpgrade(1)) == State(1, {}, [DropTry(1), UpgradeLoad(1)], 0)
    ensures var s := State(1, {}, [DropTry(1), UpgradeLoad(1)], 0);
      Can(s, Advance(1, false)) && Do(s, Advance(1, false)) == State(1, {}, [DropTry(1), UpgradeTry(1, 1)], 0)
    ensures var s := State(1, {}, [DropTry(1), UpgradeTry(1, 1)], 0);
      Can(s, Advance(1, false)) && Do(s, Advance(1, false)) == State(3, {1}, [DropTry(1), Done(true)], 0)
  {
    assert {0} - {0} == {};
    assert [DropTry(1), UpgradeLoad(1)][1 := UpgradeTry(1, 1)] == [DropTry(1), UpgradeTry(1, 1)];
    assert [DropTry(1), UpgradeTry(1, 1)][1 := Done(true)] == [DropTry(1), Done(true)];
  }

  lemma FirstCounts()
    ensures Strong(FRESH) == 1 && Strong(State(1, {}, [DropLoad], 0)) == 1 && Strong(State(1, {}, [DropTry(1)], 0)) == 1
    ensures Strong(State(1, {}, [DropTry(1), UpgradeLoad(1)], 0)) == 1
    ensures Strong(State(1, {}, [DropTry(1), UpgradeTry(1, 1)], 0)) == 1
    ensures Strong(State(3, {1}, [DropTry(1), Done(true)], 0)) == 2
  {
    SingleDrop(DropLoad);
    SingleDrop(DropTry(1));
    Pair(DropTry(1), UpgradeLoad(1));
    Pair(DropTry(1), UpgradeTry(1, 1));
    Pair(DropTry(1), Done(true));
    hide Drops;
  }

  lemma SingleDrop(op: Op)
    ensures Drops([op]) == (if IsDrop(op) then 1 else 0) && Drops([]) == 0
  {}

  lemma Pair(a: Op, b: Op)
    ensures Drops([a, b]) == (if IsDrop(a) then 1 else 0) + if IsDrop(b) then 1 else 0
  {
    assert [a, b] == [a] + [b];
    DropsAppend([a], b);
    SingleDrop(a);
    hide Drops;
  }

  /** A run, sound up to its last state, that leads to what `Overflow` starts from. */
  lemma OverflowReached() returns (states: seq<State>, actions: seq<Action>, k: nat)
    ensures Sound(states, actions) && |states| > 0
    ensures var s := states[|states| - 1];
      && Inv(s) && s.reported == 0 && Strong(s) == MOST && 0 < k < |s.ops|
      && s.ops[k].CloneTry? && s.ops[k].seen == s.word && s.ops[0] == DropTry(1)
  {
    var n := MOST - 1;
    states, actions := Piling(n);
    var s := states[|states| - 1];
    k := |s.ops|;
    SoundLast(states, actions);
    StrongOf(s, n);
    LastClone(s, n);
    WithCounts(s, CloneLoad(1, n + 1));
    WithCounts(s, CloneTry(1, n + 1, s.word));
    hide Can, Do, Strong, Sound;
    states, actions := More(states, actions, StartClone(1, n + 1));
    states, actions := More(states, actions, Advance(k, false));
    SoundLast(states, actions);
  }

  lemma LastClone(s: State, n: nat)
    requires Piled(s, n) && n >= 1
    ensures var k := |s.ops|; var s1, s2 := With(s, CloneLoad(1, n + 1)), With(s, CloneTry(1, n + 1, s.word));
      && Can(s, StartClone(1, n + 1)) && Do(s, StartClone(1, n + 1)) == s1
      && Can(s1, Advance(k, false)) && Do(s1, Advance(k, false)) == s2
  {
    var k := |s.ops|;
    assert With(s, CloneLoad(1, n + 1)).ops[k := CloneTry(1, n + 1, s.word)] == With(s, CloneTry(1, n + 1, s.word)).ops;
  }
}
