/** The word that is a reference count while an instance is alive and a garbage link afterwards
    (src/ref_counted.rs, src/collectible.rs, src/shared.rs), as a transition system: any number of
    clones, upgrades and drops, interleaved between each load and each compare-exchange. */
module CountWord {
  import opened Base

  type HandleId = nat

  const MODULUS: nat := 0x1_0000_0000_0000_0000
  const MOST: nat := 0x8000_0000_0000_0000

  /** `current + 2` in machine arithmetic. */
  function Plus2(w: nat): nat { (w + 2) % MODULUS }

  /** `saturating_sub(2)`. */
  function Minus2(w: nat): nat { if w >= 2 then w - 2 else 0 }

  predicate Odd(w: nat) { w % 2 == 1 }

  /** Where an operation is; `seen` is the word it last read.
      - `Clone` borrows handle `h` until it is done and yields handle `to`;
      - `Upgrade` holds no handle, only a guard: it may meet a retired instance;
      - `Drop` has consumed its handle;
      - `Pass` has dropped the last reference and is about to hand the instance to the collector. */
  datatype Op =
    | CloneLoad(h: HandleId, to: HandleId) | CloneTry(h: HandleId, to: HandleId, seen: nat)
    | UpgradeLoad(to: HandleId) | UpgradeTry(to: HandleId, seen: nat)
    | DropLoad | DropTry(seen: nat)
    | Pass
    | Done(ok: bool)

  /** `live` are the handles in the hands of users; `reported` counts the drops told that they were
      the last. */
  datatype State = State(word: nat, live: set<HandleId>, ops: seq<Op>, reported: nat)

  predicate IsClone(op: Op) { op.CloneLoad? || op.CloneTry? }

  predicate IsDrop(op: Op) { op.DropLoad? || op.DropTry? }

  function Drops(ops: seq<Op>): nat {
    if ops == [] then 0 else Drops(ops[..|ops| - 1]) + if IsDrop(ops[|ops| - 1]) then 1 else 0
  }

  /** The strong references: handles, and those being dropped. */
  function Strong(s: State): nat { |s.live| + Drops(s.ops) }

  /** No two handles are the same. */
  predicate Unused(s: State, h: HandleId) {
    && h !in s.live
    && forall k :: 0 <= k < |s.ops| ==>
         !((IsClone(s.ops[k]) || s.ops[k].UpgradeLoad? || s.ops[k].UpgradeTry?) && s.ops[k].to == h)
  }

  datatype Action =
    | StartClone(h: HandleId, to: HandleId)
    | StartUpgrade(to: HandleId)
    | StartDrop(h: HandleId)
    | Advance(k: nat, flaky: bool)
    | Collect(k: nat, link: nat)
    | Relink(link: nat)

  predicate Can(s: State, a: Action) {
    match a
    case StartClone(h, to) => h in s.live && Unused(s, to)
    case StartUpgrade(to) => Unused(s, to)
    // A handle is not dropped while it is borrowed.
    case StartDrop(h) => h in s.live && forall k :: 0 <= k < |s.ops| ==> !(IsClone(s.ops[k]) && s.ops[k].h == h)
    case Advance(k, _) => k < |s.ops| && !s.ops[k].Pass? && !s.ops[k].Done?
    // The collector stores the address of the next garbage instance, or null: an aligned word.
    case Collect(k, link) => k < |s.ops| && s.ops[k].Pass? && link < MODULUS && !Odd(link)
    // A failing destructor makes it link the instance again.
    case Relink(link) =>
      s.reported > 0 && (forall k :: 0 <= k < |s.ops| ==> !s.ops[k].Pass?) && link < MODULUS && !Odd(link)
  }

  function At(s: State, k: nat, op: Op): State
    requires k < |s.ops|
  {
    s.(ops := s.ops[k := op])
  }

  /** One atomic access by operation `k`; a weak compare-exchange may fail although nothing changed. */
  function Step(s: State, k: nat, flaky: bool): State
    requires k < |s.ops|
  {
    match s.ops[k]
    case CloneLoad(h, to) => At(s, k, CloneTry(h, to, s.word))
    case CloneTry(h, to, seen) =>
      if s.word == seen && !flaky then At(s, k, Done(true)).(word := Plus2(seen), live := s.live + {to})
      else At(s, k, CloneTry(h, to, s.word))
    case UpgradeLoad(to) => At(s, k, UpgradeTry(to, s.word))
    case UpgradeTry(to, seen) =>
      if !Odd(seen) then At(s, k, Done(false))
      else if s.word == seen && !flaky then At(s, k, Done(true)).(word := Plus2(seen), live := s.live + {to})
      else At(s, k, UpgradeTry(to, s.word))
    case DropLoad => At(s, k, DropTry(s.word))
    case DropTry(seen) =>
      if s.word == seen && !flaky then
        if seen == 1 then At(s, k, Pass).(word := Minus2(seen), reported := s.reported + 1)
        else At(s, k, Done(false)).(word := Minus2(seen))
      else At(s, k, DropTry(s.word))
    case Pass => s
    case Done(_) => s
  }

  function Do(s: State, a: Action): State
    requires Can(s, a)
  {
    match a
    case StartClone(h, to) => s.(ops := s.ops + [CloneLoad(h, to)])
    case StartUpgrade(to) => s.(ops := s.ops + [UpgradeLoad(to)])
    case StartDrop(h) => s.(ops := s.ops + [DropLoad], live := s.live - {h})
    case Advance(k, flaky) => Step(s, k, flaky)
    case Collect(k, link) => At(s, k, Done(true)).(word := link)
    case Relink(link) => s.(word := link)
  }

  /** `new_shared`: one reference. */
  const FRESH: State := State(1, {0}, [], 0)

  ghost predicate Run(states: seq<State>, actions: seq<Action>) {
    && |states| == |actions| + 1 && states[0] == FRESH
    && forall n :: 0 <= n < |actions| ==> Can(states[n], actions[n]) && states[n + 1] == Do(states[n], actions[n])
  }

  // ---------------------------------------------------------------- the invariant

  /** Operations that could not be there if no reference was left. */
  predicate NeedsAlive(op: Op) { IsClone(op) || IsDrop(op) }

  ghost predicate Borrowed(s: State) {
    forall k :: 0 <= k < |s.ops| && IsClone(s.ops[k]) ==> s.ops[k].h in s.live
  }

  /** Every operation yields a handle of its own. */
  ghost predicate Targets(s: State) {
    && (forall k :: 0 <= k < |s.ops| && Yields(s.ops[k]) ==> s.ops[k].to !in s.live)
    && (forall k, l :: 0 <= k < l < |s.ops| && Yields(s.ops[k]) && Yields(s.ops[l]) ==> s.ops[k].to != s.ops[l].to)
  }

  predicate Yields(op: Op) { IsClone(op) || op.UpgradeLoad? || op.UpgradeTry? }

  /** While a reference is left the word is odd and counts them; afterwards it is even. */
  ghost predicate Inv(s: State) {
    && Borrowed(s) && Targets(s) && s.word < MODULUS
    && (s.reported == 0 ==>
          Strong(s) >= 1 && s.word == 2 * Strong(s) - 1 && forall k :: 0 <= k < |s.ops| ==> !s.ops[k].Pass?)
    && (s.reported > 0 ==> s.reported == 1 && Strong(s) == 0 && !Odd(s.word))
  }

  lemma {:induction false} DropsUpdate(ops: seq<Op>, k: nat, op: Op)
    requires k < |ops|
    ensures Drops(ops[k := op]) + (if IsDrop(ops[k]) then 1 else 0) == Drops(ops) + if IsDrop(op) then 1 else 0
  {
    var n := |ops| - 1;
    if k < n {
      DropsUpdate(ops[..n], k, op);
      assert ops[k := op][..n] == ops[..n][k := op];
    } else {
      assert ops[k := op][..n] == ops[..n];
    }
  }

  lemma {:induction false} DropsCount(ops: seq<Op>, k: nat)
    requires k < |ops| && IsDrop(ops[k])
    ensures Drops(ops) > 0
  {
    var n := |ops| - 1;
    if k < n { DropsCount(ops[..n], k); }
  }

  lemma DropsAppend(ops: seq<Op>, op: Op)
    ensures Drops(ops + [op]) == Drops(ops) + if IsDrop(op) then 1 else 0
  {
    assert (ops + [op])[..|ops|] == ops;
  }

  /** With no reference left nothing is in flight that could bring one back or drop one. */
  lemma NoneLeft(s: State)
    requires Inv(s) && s.reported > 0
    ensures s.live == {} && forall k :: 0 <= k < |s.ops| ==> !NeedsAlive(s.ops[k])
  {
    forall k | 0 <= k < |s.ops|
      ensures !NeedsAlive(s.ops[k])
    {
      if IsDrop(s.ops[k]) { DropsCount(s.ops, k); }
    }
  }

  lemma InvAppends(s: State, t: State, op: Op)
    requires Inv(s) && t.ops == s.ops + [op] && t.word == s.word && t.reported == s.reported && !op.Pass?
    requires Borrowed(t) && Targets(t) && Strong(t) == Strong(s)
    ensures Inv(t)
  {
    hide Borrowed, Targets, Strong, Drops;
  }

  lemma StrongAppends(s: State, t: State, op: Op)
    requires t.ops == s.ops + [op] && |t.live| + (if IsDrop(op) then 1 else 0) == |s.live|
    ensures Strong(t) == Strong(s)
  {
    DropsAppend(s.ops, op);
    hide Drops;
  }

  lemma BorrowedAppends(s: State, t: State, op: Op)
    requires t.ops == s.ops + [op] && (IsClone(op) ==> op.h in t.live)
    requires forall k :: 0 <= k < |s.ops| && IsClone(s.ops[k]) ==> s.ops[k].h in t.live
    ensures Borrowed(t)
  {
    hide IsClone;
  }

  lemma TargetsAppends(s: State, t: State, op: Op)
    requires Targets(s) && t.ops == s.ops + [op] && t.live <= s.live && (Yields(op) ==> op.to !in s.live)
    requires Yields(op) ==> forall k :: 0 <= k < |s.ops| && Yields(s.ops[k]) ==> s.ops[k].to != op.to
    ensures Targets(t)
  {
    hide Yields;
  }

  lemma UnusedIs(s: State, h: HandleId)
    requires Unused(s, h)
    ensures h !in s.live && forall k :: 0 <= k < |s.ops| && Yields(s.ops[k]) ==> s.ops[k].to != h
  {}

  lemma BorrowedIs(s: State)
    requires Inv(s)
    ensures Borrowed(s) && Targets(s) && forall k :: 0 <= k < |s.ops| && IsClone(s.ops[k]) ==> s.ops[k].h in s.live
  {
    hide Strong, Targets, IsClone;
  }

  lemma CanStart(s: State, a: Action)
    requires Can(s, a)
    ensures a.StartClone? ==> a.h in s.live && Unused(s, a.to) && Do(s, a) == s.(ops := s.ops + [CloneLoad(a.h, a.to)])
    ensures a.StartUpgrade? ==> Unused(s, a.to) && Do(s, a) == s.(ops := s.ops + [UpgradeLoad(a.to)])
    ensures a.StartDrop? ==>
      && a.h in s.live && Do(s, a) == s.(ops := s.ops + [DropLoad], live := s.live - {a.h})
      && forall k :: 0 <= k < |s.ops| && IsClone(s.ops[k]) ==> s.ops[k].h != a.h
  {
    hide Unused;
  }

  lemma Kinds(h: HandleId, to: HandleId)
    ensures IsClone(CloneLoad(h, to)) && !IsDrop(CloneLoad(h, to)) && Yields(CloneLoad(h, to))
    ensures !IsClone(UpgradeLoad(to)) && !IsDrop(UpgradeLoad(to)) && Yields(UpgradeLoad(to))
    ensures !IsClone(DropLoad) && IsDrop(DropLoad) && !Yields(DropLoad)
  {}

  lemma InvStarts(s: State, a: Action)
    requires Inv(s) && Can(s, a) && (a.StartClone? || a.StartUpgrade? || a.StartDrop?)
    ensures Inv(Do(s, a))
  {
    hide *;
    var t := Do(s, a);
    CanStart(s, a);
    BorrowedIs(s);
    var op := match a
      case StartClone(h, to) => CloneLoad(h, to)
      case StartUpgrade(to) => UpgradeLoad(to)
      case _ => DropLoad;
    Kinds(if a.StartClone? then a.h else 0, if a.StartDrop? then 0 else a.to);
    if !a.StartDrop? { UnusedIs(s, a.to); }
    StrongAppends(s, t, op);
    BorrowedAppends(s, t, op);
    TargetsAppends(s, t, op);
    InvAppends(s, t, op);
  }

  lemma BorrowedStep(s: State, t: State, k: nat)
    requires Borrowed(s) && k < |s.ops| == |t.ops| && t.ops == s.ops[k := t.ops[k]] && s.live <= t.live
    requires IsClone(t.ops[k]) ==> IsClone(s.ops[k]) && t.ops[k].h == s.ops[k].h
    ensures Borrowed(t)
  {
    hide IsClone;
  }

  lemma TargetsStep(s: State, t: State, k: nat)
    requires Targets(s) && k < |s.ops| == |t.ops| && t.ops == s.ops[k := t.ops[k]]
    requires Yields(t.ops[k]) ==> Yields(s.ops[k]) && t.ops[k].to == s.ops[k].to
    requires t.live == s.live || (Yields(s.ops[k]) && !Yields(t.ops[k]) && t.live == s.live + {s.ops[k].to})
    ensures Targets(t)
  {
    hide Yields;
  }

  lemma StepShape(s: State, k: nat, flaky: bool)
    requires k < |s.ops|
    ensures var t := Step(s, k, flaky);
      && |t.ops| == |s.ops| && t.ops == s.ops[k := t.ops[k]] && s.live <= t.live
      && (IsClone(t.ops[k]) ==> IsClone(s.ops[k]) && t.ops[k].h == s.ops[k].h)
      && (Yields(t.ops[k]) ==> Yields(s.ops[k]) && t.ops[k].to == s.ops[k].to)
      && (t.live == s.live || (Yields(s.ops[k]) && !Yields(t.ops[k]) && t.live == s.live + {s.ops[k].to}))
  {}

  /** What a step from `s` to `t` of an operation, now `op`, does to the word and the number of references:
      nothing, one more, or one less. */
  predicate Counts(s: State, t: State, was: Op, op: Op) {
    || (t.word == s.word && t.reported == s.reported && Strong(t) == Strong(s) && op.Pass? == was.Pass?)
    || (t.word == Plus2(s.word) && t.reported == s.reported && Strong(t) == Strong(s) + 1 && !op.Pass?
        && (IsClone(was) || Odd(s.word)))
    || (t.word == Minus2(s.word) && IsDrop(was) && Strong(t) == Strong(s) - 1
        && t.reported == s.reported + (if s.word == 1 then 1 else 0) && (op.Pass? ==> s.word == 1))
  }

  lemma GainCounts(s: State, t: State, k: nat, to: HandleId)
    requires k < |s.ops| && to !in s.live && (IsClone(s.ops[k]) || Odd(s.word)) && !IsDrop(s.ops[k])
    requires t == s.(ops := s.ops[k := Done(true)], word := Plus2(s.word), live := s.live + {to})
    ensures Counts(s, t, s.ops[k], t.ops[k])
  {
    DropsUpdate(s.ops, k, Done(true));
    hide Drops, Plus2, Minus2, IsClone, Odd;
  }

  lemma LossCounts(s: State, t: State, k: nat, op: Op)
    requires k < |s.ops| && IsDrop(s.ops[k]) && (if s.word == 1 then op == Pass else op == Done(false))
    requires t == s.(ops := s.ops[k := op], word := Minus2(s.word), reported := t.reported)
    requires t.reported == s.reported + if s.word == 1 then 1 else 0
    ensures Counts(s, t, s.ops[k], op)
  {
    DropsUpdate(s.ops, k, op);
    DropsCount(s.ops, k);
    hide Drops, Plus2, Minus2, IsClone, Odd;
  }

  lemma SameCounts(s: State, t: State, k: nat, op: Op)
    requires k < |s.ops| && IsDrop(s.ops[k]) == IsDrop(op) && op.Pass? == s.ops[k].Pass?
    requires t == s.(ops := s.ops[k := op])
    ensures Counts(s, t, s.ops[k], op)
  {
    DropsUpdate(s.ops, k, op);
    hide Drops, Plus2, Minus2, IsClone, Odd, IsDrop;
  }

  lemma TargetIsNew(s: State, k: nat)
    requires Targets(s) && k < |s.ops|
    ensures Yields(s.ops[k]) ==> s.ops[k].to !in s.live
  {}

  lemma StepCounts(s: State, k: nat, flaky: bool)
    requires Targets(s) && k < |s.ops|
    ensures k < |Step(s, k, flaky).ops| && Counts(s, Step(s, k, flaky), s.ops[k], Step(s, k, flaky).ops[k])
  {
    var t := Step(s, k, flaky);
    hide Targets, Counts;
    TargetIsNew(s, k);
    if Yields(s.ops[k]) && t.ops[k] == Done(true) {
      GainCounts(s, t, k, s.ops[k].to);
    } else if IsDrop(s.ops[k]) && !IsDrop(t.ops[k]) {
      LossCounts(s, t, k, t.ops[k]);
    } else {
      SameCounts(s, t, k, t.ops[k]);
    }
  }

  lemma NoPass(s: State, t: State, k: nat)
    requires k < |s.ops| == |t.ops| && t.ops == s.ops[k := t.ops[k]] && !t.ops[k].Pass?
    requires forall l :: 0 <= l < |s.ops| ==> !s.ops[l].Pass?
    ensures forall l :: 0 <= l < |t.ops| ==> !t.ops[l].Pass?
  {}

  /** The step of an operation, as long as at most `MOST` references exist at once. */
  lemma InvAdvance(s: State, k: nat, flaky: bool)
    requires Inv(s) && Can(s, Advance(k, flaky)) && Strong(Step(s, k, flaky)) <= MOST
    ensures Inv(Step(s, k, flaky))
  {
    var t := Step(s, k, flaky);
    StepShape(s, k, flaky);
    BorrowedStep(s, t, k);
    TargetsStep(s, t, k);
    StepCounts(s, k, flaky);
    if s.reported > 0 { NoneLeft(s); }
    hide Step, Borrowed, Targets, Strong;
    if s.reported == 0 && !t.ops[k].Pass? { NoPass(s, t, k); }
  }

  lemma InvDo(s: State, a: Action)
    requires Inv(s) && Can(s, a) && Strong(Do(s, a)) <= MOST
    ensures Inv(Do(s, a))
  {
    match a
    case Advance(k, flaky) => InvAdvance(s, k, flaky); hide Step, Inv;
    case Collect(k, link) => DropsUpdate(s.ops, k, Done(true)); hide Drops;
    case Relink(link) =>
    case _ => InvStarts(s, a); hide Inv;
  }

  lemma InvFresh()
    ensures Inv(FRESH)
  {}

  // ---------------------------------------------------------------- whole runs

  /** The word says exactly what it should: it is odd and counts the references while there are any,
      and is even afterwards. */
  ghost predicate Exact(s: State) {
    if Strong(s) > 0 then s.reported == 0 && s.word == 2 * Strong(s) - 1
    else s.reported == 1 && !Odd(s.word)
  }

  lemma InvExact(s: State)
    requires Inv(s)
    ensures Exact(s) && Strong(s) <= MOST
  {}

  lemma {:induction false} RunInv(states: seq<State>, actions: seq<Action>, n: nat)
    requires Run(states, actions) && n < |states|
    requires forall m :: 0 <= m <= n ==> Strong(states[m]) <= MOST
    ensures Inv(states[n])
  {
    hide Inv, Can, Do, Strong;
    if n == 0 {
      InvFresh();
    } else {
      RunInv(states, actions, n - 1);
      assert Strong(states[n]) <= MOST;
      InvDo(states[n - 1], actions[n - 1]);
    }
  }

  /** In every run the word is exact in all states if and only if there are never more than 2^63
      references at once; beyond that the count wraps around. */
  lemma ExactUnlessOverflow(states: seq<State>, actions: seq<Action>)
    requires Run(states, actions)
    ensures (forall n :: 0 <= n < |states| ==> Exact(states[n]) && states[n].word < MODULUS)
       <==> (forall n :: 0 <= n < |states| ==> Strong(states[n]) <= MOST)
  {
    if forall n :: 0 <= n < |states| ==> Strong(states[n]) <= MOST {
      forall n | 0 <= n < |states|
        ensures Exact(states[n]) && states[n].word < MODULUS
      {
        RunInv(states, actions, n);
        InvExact(states[n]);
      }
    }
    hide Run, Strong;
  }

  /** The overflow is real: with 2^63 references, one more clone makes the word say that one is left,
      and the next drop retires an instance that 2^63 references still point to. */
  lemma Overflow(s: State, k: nat, l: nat)
    requires Inv(s) && s.reported == 0 && Strong(s) == MOST && k < |s.ops| && l < |s.ops| && k != l
    requires s.ops[k].CloneTry? && s.ops[k].seen == s.word && s.ops[l] == DropTry(1)
    ensures var t := Step(s, k, false); var u := Step(t, l, false);
      && Can(s, Advance(k, false)) && Can(t, Advance(l, false))
      && t.word == 1 && Strong(t) == MOST + 1
      && u.reported == 1 && u.ops[l].Pass? && Strong(u) == MOST
  {
    var t := Step(s, k, false);
    var u := Step(t, l, false);
    TargetIsNew(s, k);
    GainCounts(s, t, k, s.ops[k].to);
    LossCounts(t, u, l, Pass);
    assert s.ops[k].to !in s.live;
    DropsUpdate(s.ops, k, Done(true));
    DropsUpdate(t.ops, l, Pass);
    hide Drops, Counts;
  }

  /** Runs in which the count does not overflow. */
  ghost predicate Sound(states: seq<State>, actions: seq<Action>) {
    Run(states, actions) && forall n :: 0 <= n < |states| ==> Strong(states[n]) <= MOST
  }

  /** A retired instance stays retired: no handle is ever created again, no upgrade succeeds, no drop
      is pending, and the word stays even, whatever links the collector stores. */
  lemma {:induction false} RetiredForGood(states: seq<State>, actions: seq<Action>, m: nat, n: nat)
    requires Sound(states, actions) && m <= n < |states| && states[m].reported > 0
    ensures states[n].reported == 1 && states[n].live == {} && !Odd(states[n].word)
    ensures forall k :: 0 <= k < |states[n].ops| ==> !NeedsAlive(states[n].ops[k])
  {
    hide Can, Do, Inv, Strong;
    ReportedGrows(states, actions, m, n);
    RunInv(states, actions, n);
    NoneLeft(states[n]);
    RetiredEven(states[n]);
  }

  lemma RetiredEven(s: State)
    requires Inv(s) && s.reported > 0
    ensures s.reported == 1 && !Odd(s.word)
  {}

  lemma {:induction false} ReportedGrows(states: seq<State>, actions: seq<Action>, m: nat, n: nat)
    requires Run(states, actions) && m <= n < |states|
    ensures states[m].reported <= states[n].reported
  {
    hide Can, Do, Inv;
    if m < n {
      ReportedGrows(states, actions, m, n - 1);
      OneStepGrows(states[n - 1], actions[n - 1]);
    }
  }

  lemma OneStepGrows(s: State, a: Action)
    requires Can(s, a)
    ensures s.reported <= Do(s, a).reported
  {}

  /** The last reference is reported to exactly one drop: not before the count is zero, and never
      twice. */
  lemma ReportedOnce(states: seq<State>, actions: seq<Action>, n: nat)
    requires Sound(states, actions) && n < |states|
    ensures states[n].reported == if Strong(states[n]) == 0 then 1 else 0
  {
    hide Can, Do, Strong;
    RunInv(states, actions, n);
    InvExact(states[n]);
  }

  /** An upgrade that starts after the retirement fails: it reads an even word. */
  lemma UpgradeFails(states: seq<State>, actions: seq<Action>, m: nat, n: nat, k: nat)
    requires Sound(states, actions) && m <= n < |actions| && states[m].reported > 0
    requires actions[n].Advance? && actions[n].k == k && k < |states[n].ops| && states[n].ops[k].UpgradeTry?
    ensures k < |states[n + 1].ops| && states[n + 1].live == {} && states[n + 1].ops[k] != Done(true)
  {
    RetiredForGood(states, actions, m, n);
    RetiredForGood(states, actions, m, n + 1);
    assert states[n + 1] == Do(states[n], actions[n]);
    hide Inv, Strong, NeedsAlive, Run;
  }

  /** `get_mut` sees 1 exactly when it holds the only reference and none is being dropped. */
  lemma OneMeansUnique(states: seq<State>, actions: seq<Action>, n: nat, h: HandleId)
    requires Sound(states, actions) && n < |states| && h in states[n].live
    ensures states[n].word == 1 <==> states[n].live == {h} && Drops(states[n].ops) == 0
  {
    hide Can, Do, Drops;
    RunInv(states, actions, n);
    InvExact(states[n]);
    SingleHandle(states[n].live, h);
  }

  lemma SingleHandle(live: set<HandleId>, h: HandleId)
    requires h in live
    ensures |live| >= 1 && (|live| == 1 <==> live == {h})
  {
    assert |live - {h}| == |live| - 1;
    if |live| == 1 { assert live - {h} == {}; }
  }
}
