/** A fallback array that has once run out of live slots never gets another: whatever is then still
    in it belongs to an operation in flight, and the array can be let go. */
module SlotDeath {
  import opened Base
  import opened Bits
  import opened SlotProtocol
  import opened SlotSafety

  /** No slot is instantiated and unowned. */
  ghost predicate Dead<T>(s: State<T>) { Formed(s) && !AnyLive(s.word, s.len) }

  /** No slot is instantiated. */
  ghost predicate Bare<T>(s: State<T>) {
    Formed(s) && forall i :: 0 <= i < s.len ==> !Inst(s.word, s.len, i)
  }

  /** Pushes into a fallback array must not revive it. */
  predicate Timid<T>(op: Op<T>) {
    match op
    case PushLoad(_, e) => !e
    case PushClaim(_, e, _) => !e
    case PushWrite(_, e, _) => !e
    case PushPublish(e, _) => !e
    case _ => true
  }

  ghost predicate Fallback<T>(s: State<T>) { forall k :: 0 <= k < |s.ops| ==> Timid(s.ops[k]) }

  predicate TimidAction<T>(a: Action<T>) { a.StartPush? ==> !a.allowEmpty }

  // ---------------------------------------------------------------- dead arrays stay dead

  /** No slot becomes live from `w` to `v`. */
  ghost predicate NoneRevived(w: Bitmap, v: Bitmap, len: nat)
    requires |w| == |v| == WORD && len <= 32
  {
    forall i :: 0 <= i < len ==> (Live(v, len, i) ==> Live(w, len, i)) && (Inst(v, len, i) ==> Inst(w, len, i))
  }

  /** Only publishing instantiates a slot. */
  lemma OnlyPublishFills<T>(s: State<T>, k: nat, flaky: bool, i: nat)
    requires Inv(s) && k < |s.ops| && Moves(s, Step(s, k, flaky), k) && i < s.len
    requires !s.ops[k].PushPublish?
    ensures var t := Step(s, k, flaky);
      Inst(t.word, s.len, i) ==> Inst(s.word, s.len, i) && (Live(t.word, s.len, i) ==> Live(s.word, s.len, i))
  {
    var t := Step(s, k, flaky);
    assert SlotMoves(s, t, k, i);
    if Owns(s.ops[k], i) { OwnedBy(s, k, i); }
    if s.ops[k].PushWrite? || s.ops[k].PushRollback? || s.ops[k].PushUndo? {
      hide Inv, Moves;
    } else {
      hide Inv, Moves, Step;
    }
  }

  lemma PublishRevives<T>(s: State<T>, k: nat)
    requires Formed(s) && k < |s.ops| && s.ops[k].PushPublish? && !s.ops[k].allowEmpty && !AnyLive(s.word, s.len)
    ensures Publish(s, k).word == s.word
  {
    hide AnyLive, OpFormed;
  }

  lemma OthersRevive<T>(s: State<T>, k: nat, flaky: bool)
    requires Inv(s) && k < |s.ops| && Moves(s, Step(s, k, flaky), k) && !s.ops[k].PushPublish?
    ensures |Step(s, k, flaky).word| == WORD && NoneRevived(s.word, Step(s, k, flaky).word, s.len)
  {
    forall i | 0 <= i < s.len
      ensures var t := Step(s, k, flaky);
        Inst(t.word, s.len, i) ==> Inst(s.word, s.len, i) && (Live(t.word, s.len, i) ==> Live(s.word, s.len, i))
    {
      OnlyPublishFills(s, k, flaky, i);
    }
    hide Step, SlotsOk, OwnersOk, Conserved, SlotMoves, Balanced, OpFormed;
  }

  lemma StepRevives<T>(s: State<T>, k: nat, flaky: bool)
    requires Inv(s) && k < |s.ops| && Moves(s, Step(s, k, flaky), k)
    requires s.ops[k].PushPublish? ==> !s.ops[k].allowEmpty && Dead(s)
    ensures |Step(s, k, flaky).word| == WORD && NoneRevived(s.word, Step(s, k, flaky).word, s.len)
  {
    hide SlotsOk, OwnersOk, Conserved, Moves, AnyLive, OpFormed, Publish;
    if s.ops[k].PushPublish? {
      PublishRevives(s, k);
    } else {
      hide Step, NoneRevived;
      OthersRevive(s, k, flaky);
    }
  }

  lemma PushTryTimid<T>(s: State<T>, k: nat, flaky: bool)
    requires Formed(s) && k < |s.ops| && s.ops[k].PushClaim? && !s.ops[k].allowEmpty
    ensures k < |PushTry(s, k, flaky).ops| && Timid(PushTry(s, k, flaky).ops[k])
  {
    hide AnyLive, FirstFree, OpFormed;
  }

  lemma PublishEnds<T>(s: State<T>, k: nat)
    requires Formed(s) && k < |s.ops| && s.ops[k].PushPublish?
    ensures k < |Publish(s, k).ops| && Timid(Publish(s, k).ops[k])
  {
    hide AnyLive, OpFormed;
  }

  lemma TakersTimid<T>(s: State<T>, k: nat, flaky: bool)
    requires Formed(s) && k < |s.ops|
    ensures s.ops[k].PopClaim? ==> k < |PopTry(s, k, flaky).ops| && Timid(PopTry(s, k, flaky).ops[k])
    ensures s.ops[k].PopClear? ==> k < |Clear(s, k).ops| && Timid(Clear(s, k).ops[k])
    ensures s.ops[k].DrainClaim? ==> k < |DrainTry(s, k, flaky).ops| && Timid(DrainTry(s, k, flaky).ops[k])
    ensures s.ops[k].DrainFold? ==> k < |Fold(s, k).ops| && Timid(Fold(s, k).ops[k])
    ensures s.ops[k].DrainClear? ==> k < |DrainTryClear(s, k, flaky).ops| && Timid(DrainTryClear(s, k, flaky).ops[k])
  {
    hide AnyLive, OpFormed, FirstLive, FirstIn, OwnAll, ClaimAll, ClearAll, LiveSlots, Instances;
  }

  lemma StepTimid<T>(s: State<T>, k: nat, flaky: bool)
    requires Formed(s) && k < |s.ops| && Timid(s.ops[k])
    ensures k < |Step(s, k, flaky).ops| && Timid(Step(s, k, flaky).ops[k])
  {
    TakersTimid(s, k, flaky);
    hide PushTry, Publish, PopTry, Clear, DrainTry, Fold, DrainTryClear, OpFormed;
    match s.ops[k]
    case PushClaim(_, _, _) => PushTryTimid(s, k, flaky);
    case PushPublish(_, _) => PublishEnds(s, k);
    case _ =>
  }

  lemma NoneRevivedDead(w: Bitmap, v: Bitmap, len: nat)
    requires |w| == |v| == WORD && len <= 32 && NoneRevived(w, v, len)
    ensures !AnyLive(w, len) ==> !AnyLive(v, len)
  {}

  lemma TimidUpdate<T>(s: State<T>, t: State<T>, k: nat)
    requires Fallback(s) && k < |s.ops| == |t.ops| && t.ops == s.ops[k := t.ops[k]] && Timid(t.ops[k])
    ensures Fallback(t)
  {
    hide Timid;
  }

  lemma TimidAppend<T>(s: State<T>, t: State<T>, op: Op<T>)
    requires Fallback(s) && t.ops == s.ops + [op] && Timid(op)
    ensures Fallback(t)
  {
    hide Timid;
  }

  lemma FallbackStep<T>(s: State<T>, a: Action<T>)
    requires Inv(s) && Can(s, a) && Fallback(s) && TimidAction(a)
    ensures Fallback(Do(s, a))
  {
    hide SlotsOk, OwnersOk, Conserved, Fallback, Step, SlotMoves, Balanced, Forsaken, Stored;
    match a
    case Advance(k, flaky) =>
      StepMoves(s, k, flaky);
      assert Timid(s.ops[k]) by { TimidAt(s, k); }
      StepTimid(s, k, flaky);
      TimidUpdate(s, Step(s, k, flaky), k);
    case Fail(k) => TimidUpdate(s, Panic(s, k), k);
    case StartPush(val, e) => TimidAppend(s, Do(s, a), PushLoad(val, e));
    case StartPop => TimidAppend(s, Do(s, a), PopLoad);
    case StartDrain => TimidAppend(s, Do(s, a), DrainLoad);
  }

  lemma TimidAt<T>(s: State<T>, k: nat)
    requires Fallback(s) && k < |s.ops|
    ensures Timid(s.ops[k])
  {}

  lemma DeadAdvance<T>(s: State<T>, k: nat, flaky: bool)
    requires Inv(s) && k < |s.ops| && !s.ops[k].Done? && Fallback(s) && Dead(s)
    ensures Dead(Step(s, k, flaky)) && (Bare(s) ==> Bare(Step(s, k, flaky)))
  {
    StepMoves(s, k, flaky);
    TimidAt(s, k);
    StepRevives(s, k, flaky);
    hide SlotsOk, OwnersOk, Conserved, Step, AnyLive, OpFormed, SlotMoves, Balanced, Fallback;
    NoneRevivedDead(s.word, Step(s, k, flaky).word, s.len);
  }

  lemma DeadStays<T>(s: State<T>, a: Action<T>)
    requires Inv(s) && Can(s, a) && Fallback(s) && TimidAction(a) && Dead(s)
    ensures Dead(Do(s, a)) && (Bare(s) ==> Bare(Do(s, a)))
  {
    InvDo(s, a);
    hide SlotsOk, OwnersOk, Conserved, Step, AnyLive, OpFormed, Fallback, Forsaken, Stored;
    if a.Advance? {
      hide Dead, Bare;
      DeadAdvance(s, a.k, a.flaky);
    }
  }

  ghost predicate FallbackRun<T>(states: seq<State<T>>, actions: seq<Action<T>>) {
    Run(states, actions) && forall n :: 0 <= n < |actions| ==> TimidAction(actions[n])
  }

  lemma {:induction false} RunFallback<T>(states: seq<State<T>>, actions: seq<Action<T>>, n: nat)
    requires FallbackRun(states, actions) && n < |states|
    ensures Inv(states[n]) && Fallback(states[n])
  {
    hide Inv, Can, Do, Fallback, TimidAction;
    RunInv(states, actions, n);
    if n == 0 {
      StartFallback(states[0]);
    } else {
      RunFallback(states, actions, n - 1);
      FallbackStep(states[n - 1], actions[n - 1]);
    }
  }

  lemma StartFallback<T>(s: State<T>)
    requires Start(s)
    ensures Fallback(s)
  {}

  /** Dead arrays stay dead: no later push can publish into them. */
  lemma {:induction false} DeadForever<T>(states: seq<State<T>>, actions: seq<Action<T>>, m: nat, n: nat)
    requires FallbackRun(states, actions) && m <= n < |states| && Dead(states[m])
    ensures Dead(states[n]) && (Bare(states[m]) ==> Bare(states[n]))
  {
    hide Inv, Can, Do, Fallback, TimidAction, Dead, Bare;
    if m < n {
      DeadForever(states, actions, m, n - 1);
      RunFallback(states, actions, n - 1);
      DeadStays(states[n - 1], actions[n - 1]);
    }
  }

  // ---------------------------------------------------------------- who knows that an array is dead

  /** What operation `op` has seen or done proves the array dead: an observed word without live slots,
      a claim on all of them, a pop that found none or that emptied the array. */
  predicate Knows<T>(op: Op<T>, len: nat)
    requires len <= 32 && OpFormed(op, len)
  {
    match op
    case PushClaim(_, _, seen) => !AnyLive(seen, len)
    case PopClaim(seen) => !AnyLive(seen, len)
    case DrainClaim(seen) => !AnyLive(seen, len)
    case DrainFold(_, _, _) => true
    case DrainClear(_, _) => true
    case Done(Popped(_, empty)) => empty
    case Done(Nothing) => true
    case Done(Drained) => true
    case _ => false
  }

  ghost predicate Known<T>(s: State<T>) {
    Formed(s) && forall k :: 0 <= k < |s.ops| && Knows(s.ops[k], s.len) ==> Dead(s)
  }

  lemma FirstLiveNone(word: Bitmap, len: nat)
    requires |word| == WORD && len <= 32
    ensures FirstLive(word, len, 0) == len <==> !AnyLive(word, len)
  {}

  lemma ClaimedAllDead(word: Bitmap, len: nat)
    requires |word| == WORD && len <= 32
    ensures !AnyLive(ClaimAll(word, LiveSlots(word, len)), len)
  {
    var v := ClaimAll(word, LiveSlots(word, len));
    hide LiveSlots;
    forall i | 0 <= i < len
      ensures !Live(v, len, i)
    {
      assert v[i] == (word[i] || Live(word, len, i)) && v[len + i] == word[len + i];
    }
  }

  lemma NoInstances(word: Bitmap, len: nat, i: nat)
    requires |word| == WORD && len <= 32 && Instances(word, len) == Zeros(32) && i < len
    ensures !Inst(word, len, i)
  {
    assert Instances(word, len)[i] == word[len + i];
  }

  lemma ClearEmpties<T>(s: State<T>, k: nat)
    requires Formed(s) && k < |s.ops| && s.ops[k].PopClear? && Formed(Clear(s, k))
    requires Clear(s, k).ops[k].result == Popped(s.ops[k].val, true)
    ensures Bare(Clear(s, k)) && Dead(Clear(s, k))
  {
    var t := Clear(s, k);
    forall i | 0 <= i < t.len
      ensures !Inst(t.word, t.len, i)
    {
      NoInstances(t.word, t.len, i);
    }
    hide Instances;
  }

  lemma DrainKills<T>(s: State<T>, k: nat, flaky: bool)
    requires Formed(s) && k < |s.ops| && s.ops[k].DrainClaim? && AnyLive(s.word, s.len) && AnyLive(s.ops[k].seen, s.len)
    requires Formed(DrainTry(s, k, flaky)) && Knows(DrainTry(s, k, flaky).ops[k], s.len)
    ensures Dead(DrainTry(s, k, flaky))
  {
    ClaimedAllDead(s.word, s.len);
    hide ClaimAll, LiveSlots, OwnAll, AnyLive;
  }

  lemma TryLearns<T>(s: State<T>, k: nat, flaky: bool)
    requires Formed(s) && k < |s.ops| && AnyLive(s.word, s.len)
    requires s.ops[k].PushClaim? || (s.ops[k].PopClaim? && AnyLive(s.ops[k].seen, s.len)) || s.ops[k].PushPublish?
    requires Formed(Step(s, k, flaky))
    ensures !Knows(Step(s, k, flaky).ops[k], s.len)
  {
    if s.ops[k].PopClaim? { FirstLiveNone(s.ops[k].seen, s.len); }
    hide AnyLive, FirstFree, FirstLive;
  }

  /** An operation of an array that is not dead comes to know of its death only by killing it. */
  lemma StepKnows<T>(s: State<T>, k: nat, flaky: bool)
    requires Formed(s) && k < |s.ops| && AnyLive(s.word, s.len) && !Knows(s.ops[k], s.len)
    requires Formed(Step(s, k, flaky)) && Knows(Step(s, k, flaky).ops[k], s.len)
    ensures Dead(Step(s, k, flaky))
  {
    hide AnyLive, PushTry, Publish, PopTry, DrainTry, Dead;
    match s.ops[k]
    case PopClear(_, _) => ClearEmpties(s, k); hide Instances;
    case DrainClaim(_) => DrainKills(s, k, flaky);
    case PushClaim(_, _, _) => TryLearns(s, k, flaky);
    case PushPublish(_, _) => TryLearns(s, k, flaky);
    case PopClaim(_) => TryLearns(s, k, flaky);
    case _ =>
  }

  lemma KnownAdvance<T>(s: State<T>, k: nat, flaky: bool)
    requires Inv(s) && k < |s.ops| && !s.ops[k].Done? && Known(s) && AnyLive(s.word, s.len)
    ensures Known(Step(s, k, flaky))
  {
    StepMoves(s, k, flaky);
    if Knows(Step(s, k, flaky).ops[k], s.len) {
      StepKnows(s, k, flaky);
    }
    hide SlotsOk, OwnersOk, Conserved, Step, OpFormed, Knows, AnyLive, SlotMoves, Balanced;
  }

  lemma DeadIsKnown<T>(s: State<T>)
    requires Dead(s)
    ensures Known(s)
  {}

  lemma FoldIsKnown<T>(s: State<T>, k: nat)
    requires Known(s) && k < |s.ops| && s.ops[k].DrainFold?
    ensures Dead(s)
  {
    assert Knows(s.ops[k], s.len);
  }

  lemma KnownStart<T>(s: State<T>, t: State<T>, op: Op<T>)
    requires Known(s) && Formed(t) && t == s.(ops := s.ops + [op], pushed := t.pushed)
    requires op.PushLoad? || op.PopLoad? || op.DrainLoad?
    ensures Known(t)
  {
    hide AnyLive, OpFormed;
  }

  lemma KnownStays<T>(s: State<T>, a: Action<T>)
    requires Inv(s) && Can(s, a) && Fallback(s) && TimidAction(a) && Known(s)
    ensures Known(Do(s, a))
  {
    InvDo(s, a);
    if a.Fail? { FoldIsKnown(s, a.k); }
    if Dead(s) {
      hide *;
      DeadStays(s, a);
      DeadIsKnown(Do(s, a));
    } else {
      hide SlotsOk, OwnersOk, Conserved, Step, AnyLive, OpFormed, Fallback, Panic;
      match a
      case Advance(k, flaky) => KnownAdvance(s, k, flaky);
      case Fail(_) =>
      case StartPush(val, e) => KnownStart(s, Do(s, a), PushLoad(val, e));
      case StartPop => KnownStart(s, Do(s, a), PopLoad);
      case StartDrain => KnownStart(s, Do(s, a), DrainLoad);
    }
  }

  lemma {:induction false} RunKnown<T>(states: seq<State<T>>, actions: seq<Action<T>>, n: nat)
    requires FallbackRun(states, actions) && n < |states|
    ensures Known(states[n])
  {
    hide Inv, Can, Do, Fallback, TimidAction, Known;
    RunFallback(states, actions, n);
    if n == 0 {
      StartKnown(states[0]);
    } else {
      RunFallback(states, actions, n - 1);
      RunKnown(states, actions, n - 1);
      KnownStays(states[n - 1], actions[n - 1]);
    }
  }

  lemma StartKnown<T>(s: State<T>)
    requires Start(s) && Inv(s)
    ensures Known(s)
  {}

  // ---------------------------------------------------------------- nothing is stranded

  /** In a dead array every value is in a slot that an operation in flight owns and will empty; when
      all operations are done, everything ever pushed has been handed back, except what a panicking
      fold lost. */
  lemma NothingStranded<T>(s: State<T>)
    requires Inv(s) && Dead(s)
    ensures forall i :: 0 <= i < s.len && s.slots[i].Some? ==>
      s.owner[i].Some? && s.owner[i].value < |s.ops| && Owns(s.ops[s.owner[i].value], i)
    ensures (forall k :: 0 <= k < |s.ops| ==> s.ops[k].Done?) ==> s.pushed == s.returned + s.lost
  {
    forall i | 0 <= i < s.len && s.slots[i].Some?
      ensures s.owner[i].Some? && s.owner[i].value < |s.ops| && Owns(s.ops[s.owner[i].value], i)
    {
      assert SlotOk(s, i) && !Live(s.word, s.len, i);
    }
    hide Conserved, SlotsOk, OwnersOk, AnyLive;
    if forall k :: 0 <= k < |s.ops| ==> s.ops[k].Done? {
      assert forall i :: 0 <= i < s.len ==> s.slots[i].None?;
      StoredNone(s.slots);
      NoneInFlight(s.ops);
      Sum(s);
    }
  }

  lemma Sum<T>(s: State<T>)
    requires Conserved(s) && Stored(s.slots) == multiset{} && InFlight(s.ops) == multiset{}
    ensures s.pushed == s.returned + s.lost
  {
    hide Stored, InFlight;
  }

  lemma {:induction false} NoneInFlight<T>(ops: seq<Op<T>>)
    requires forall k :: 0 <= k < |ops| ==> ops[k].Done?
    ensures InFlight(ops) == multiset{}
  {
    if ops != [] { NoneInFlight(ops[..|ops| - 1]); }
  }

  /** Neither `delete_self` after an emptying pop, nor dropping an array drained after
      `stack.pop_all`, strands a value: from the moment operation `k` is done or has its claim, the
      array is dead for good, and nothing is in it but what operations in flight own. */
  lemma SafeToLetGo<T>(states: seq<State<T>>, actions: seq<Action<T>>, m: nat, n: nat, k: nat)
    requires FallbackRun(states, actions) && m <= n < |states| && k < |states[m].ops|
    requires states[m].ops[k].Done?
    requires states[m].ops[k].result.Drained? || (states[m].ops[k].result.Popped? && states[m].ops[k].result.empty)
    ensures Dead(states[n])
    ensures forall i :: 0 <= i < states[n].len && states[n].slots[i].Some? ==> states[n].owner[i].Some?
    ensures (forall l :: 0 <= l < |states[n].ops| ==> states[n].ops[l].Done?) ==>
      states[n].pushed == states[n].returned + states[n].lost
  {
    RunKnown(states, actions, m);
    assert Knows(states[m].ops[k], states[m].len);
    DeadForever(states, actions, m, n);
    RunFallback(states, actions, n);
    hide FallbackRun, Inv, Known, Knows;
    NothingStranded(states[n]);
  }

  // ---------------------------------------------------------------- emptied at most once

  /** A pop that was told to delete the array. */
  predicate Emptied<T>(op: Op<T>) { op.Done? && op.result.Popped? && op.result.empty }

  ghost predicate EmptiedOk<T>(s: State<T>) {
    && (forall k, l :: 0 <= k < |s.ops| && 0 <= l < |s.ops| && Emptied(s.ops[k]) && Emptied(s.ops[l]) ==> k == l)
    && (forall k :: 0 <= k < |s.ops| && Emptied(s.ops[k]) ==> Bare(s) && Dead(s))
  }

  lemma StepEmpties<T>(s: State<T>, k: nat, flaky: bool)
    requires Inv(s) && k < |s.ops| && !s.ops[k].Done? && Formed(Step(s, k, flaky)) && |Step(s, k, flaky).ops| == |s.ops|
    requires Emptied(Step(s, k, flaky).ops[k])
    ensures !Bare(s) && Bare(Step(s, k, flaky)) && Dead(Step(s, k, flaky))
  {
    hide SlotsOk, OwnersOk, Conserved, AnyLive, FirstFree, FirstLive, FirstIn;
    hide LiveSlots, ClaimAll, ClearAll, OwnAll, Instances;
    match s.ops[k]
    case PopClear(_, i) =>
      OwnedBy(s, k, i);
      ClearEmpties(s, k);
    case _ =>
  }

  /** One operation changes, and if it has emptied the array, none had before. */
  lemma EmptiedUpdate<T>(s: State<T>, t: State<T>, k: nat)
    requires EmptiedOk(s) && k < |s.ops| == |t.ops| && t.ops == s.ops[k := t.ops[k]] && !Emptied(s.ops[k])
    requires (Dead(s) ==> Dead(t)) && (Bare(s) ==> Bare(t))
    requires Emptied(t.ops[k]) ==> !Bare(s) && Bare(t) && Dead(t)
    ensures EmptiedOk(t)
  {
    hide Dead, Bare, Emptied;
  }

  lemma EmptiedAdvance<T>(s: State<T>, k: nat, flaky: bool)
    requires Inv(s) && k < |s.ops| && !s.ops[k].Done? && Fallback(s) && EmptiedOk(s)
    ensures EmptiedOk(Step(s, k, flaky))
  {
    hide SlotsOk, OwnersOk, Conserved, Step, Dead, Bare, Fallback, SlotMoves, Balanced, OpFormed, EmptiedOk;
    StepMoves(s, k, flaky);
    if Bare(s) { BareIsDead(s); }
    if Dead(s) { DeadAdvance(s, k, flaky); }
    if Emptied(Step(s, k, flaky).ops[k]) { StepEmpties(s, k, flaky); }
    EmptiedUpdate(s, Step(s, k, flaky), k);
  }

  lemma EmptiedKept<T>(s: State<T>, t: State<T>)
    requires EmptiedOk(s) && |s.ops| <= |t.ops| && (Dead(s) ==> Dead(t)) && (Bare(s) ==> Bare(t))
    requires forall k :: 0 <= k < |t.ops| && Emptied(t.ops[k]) ==> k < |s.ops| && Emptied(s.ops[k])
    ensures EmptiedOk(t)
  {
    hide Dead, Bare, Emptied;
  }

  lemma EmptiedStays<T>(s: State<T>, a: Action<T>)
    requires Inv(s) && Can(s, a) && Fallback(s) && TimidAction(a) && EmptiedOk(s)
    ensures EmptiedOk(Do(s, a))
  {
    hide SlotsOk, OwnersOk, Conserved, Fallback, Step, EmptiedOk, OpFormed, Dead, Bare, Stored, Forsaken;
    if a.Advance? {
      EmptiedAdvance(s, a.k, a.flaky);
    } else {
      if Dead(s) { DeadStays(s, a); }
      if Bare(s) { BareIsDead(s); }
      EmptiedKept(s, Do(s, a));
    }
  }

  lemma BareIsDead<T>(s: State<T>)
    requires Bare(s)
    ensures Dead(s)
  {
    hide OpFormed;
  }

  /** An array is emptied, and its deletion asked for, at most once. */
  lemma {:induction false} EmptiedOnce<T>(states: seq<State<T>>, actions: seq<Action<T>>, n: nat)
    requires FallbackRun(states, actions) && n < |states|
    ensures EmptiedOk(states[n])
  {
    hide Inv, Can, Do, Fallback, TimidAction, EmptiedOk;
    if n == 0 {
      StartUnemptied(states[0]);
    } else {
      RunFallback(states, actions, n - 1);
      EmptiedOnce(states, actions, n - 1);
      EmptiedStays(states[n - 1], actions[n - 1]);
    }
  }

  lemma StartUnemptied<T>(s: State<T>)
    requires Start(s)
    ensures EmptiedOk(s)
  {}
}
