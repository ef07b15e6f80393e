/** What the operations on one slot array answer, and why: a push is only refused, a pop only finds
    nothing and a drain only ends if the array was full or empty at some moment while they ran. */
module SlotAnswers {
  import opened Base
  import opened Bits
  import opened SlotProtocol
  import opened SlotSafety
  import SD = SlotDeath

  predicate AnyFree(word: Bitmap, len: nat)
    requires |word| == WORD && len <= 32
  {
    exists i :: 0 <= i < len && Free(word, len, i)
  }

  predicate AnyInst(word: Bitmap, len: nat)
    requires |word| == WORD && len <= 32
  {
    exists i :: 0 <= i < len && Inst(word, len, i)
  }

  /** A push may be refused when it sees this word. */
  predicate Refuses(word: Bitmap, len: nat, allowEmpty: bool)
    requires |word| == WORD && len <= 32
  {
    !AnyFree(word, len) || (!allowEmpty && !AnyLive(word, len))
  }

  // ---------------------------------------------------------------- one step of one operation

  /** A push: it claims a slot that is free, unless the word it has read refuses it; writes its value there;
      and makes that live, unless it may not revive the array and no slot is live. */
  ghost predicate Pushes<T>(s: State<T>, t: State<T>, k: nat, flaky: bool)
    requires Formed(s) && Formed(t) && t.len == s.len && k < |s.ops| == |t.ops|
  {
    match s.ops[k]
    case PushLoad(v, e) => t.ops[k] == PushClaim(v, e, s.word) && t.word == s.word
    case PushClaim(v, e, seen) =>
      if Refuses(seen, s.len, e) then t.ops[k] == Done(Rejected(v))
      else if s.word == seen && !flaky then t.ops[k].PushWrite? && t.ops[k] == PushWrite(v, e, t.ops[k].i)
        && Free(s.word, s.len, t.ops[k].i) && forall j :: 0 <= j < t.ops[k].i ==> !Free(s.word, s.len, j)
      else t.ops[k] == PushClaim(v, e, s.word) && t.word == s.word
    case PushWrite(v, e, i) => t.ops[k] == PushPublish(e, i) && t.slots[i] == Some(v)
    case PushPublish(e, i) =>
      && t.slots[i] == s.slots[i]
      && if e || AnyLive(s.word, s.len) then t.ops[k] == Done(Pushed) && Live(t.word, s.len, i)
         else t.ops[k] == PushRollback(i)
    case PushRollback(i) => s.slots[i].Some? ==> t.ops[k] == PushUndo(s.slots[i].value, i)
    case PushUndo(v, _) => t.ops[k] == Done(Rejected(v))
    case _ => true
  }

  /** A pop: it claims a live slot, takes its value out, and frees the slot. */
  ghost predicate Pops<T>(s: State<T>, t: State<T>, k: nat, flaky: bool)
    requires Formed(s) && Formed(t) && t.len == s.len && k < |s.ops| == |t.ops|
  {
    match s.ops[k]
    case PopLoad => t.ops[k] == PopClaim(s.word) && t.word == s.word
    case PopClaim(seen) =>
      if !AnyLive(seen, s.len) then t.ops[k] == Done(Nothing)
      else if s.word == seen && !flaky
      then t.ops[k].PopRead? && Live(s.word, s.len, t.ops[k].i) && t.slots[t.ops[k].i] == s.slots[t.ops[k].i]
           && forall j :: 0 <= j < t.ops[k].i ==> !Live(s.word, s.len, j)
      else t.ops[k] == PopClaim(s.word) && t.word == s.word
    case PopRead(i) => s.slots[i].Some? ==> t.ops[k] == PopClear(s.slots[i].value, i)
    case PopClear(v, i) => t.ops[k] == Done(Popped(v, !AnyInst(t.word, s.len))) && Free(t.word, s.len, i)
    case _ => true
  }

  /** A drain: it claims all live slots at once, and none is left. */
  ghost predicate Drains<T>(s: State<T>, t: State<T>, k: nat, flaky: bool)
    requires Formed(s) && Formed(t) && t.len == s.len && k < |s.ops| == |t.ops|
  {
    match s.ops[k]
    case DrainLoad => t.ops[k] == DrainClaim(s.word) && t.word == s.word
    case DrainClaim(seen) =>
      if !AnyLive(seen, s.len) then t.ops[k] == Done(Drained)
      else if s.word == seen && !flaky then t.ops[k].DrainFold? && t.ops[k].at == 0 && !AnyLive(t.word, s.len)
        && forall i :: 0 <= i < s.len ==> t.ops[k].claim[i] == Live(s.word, s.len, i)
      else t.ops[k] == DrainClaim(s.word) && t.word == s.word
    case DrainFold(claim, at, _) =>
      || (t.ops[k].DrainClear? && t.ops[k].claim == claim && forall i :: at <= i < s.len ==> !claim[i])
      || (t.ops[k].DrainFold? && t.ops[k].claim == claim && at < t.ops[k].at <= s.len)
    case DrainClear(claim, seen) =>
      if s.word == seen && !flaky then t.ops[k] == Done(Drained)
      else t.ops[k] == DrainClear(claim, s.word) && t.word == s.word
    case _ => true
  }

  lemma PushTryAnswers<T>(s: State<T>, k: nat, flaky: bool)
    requires Formed(s) && k < |s.ops| && s.ops[k].PushClaim? && Formed(PushTry(s, k, flaky))
    ensures var t := PushTry(s, k, flaky); t.len == s.len && |t.ops| == |s.ops| && Pushes(s, t, k, flaky)
  {
    assert OpFormed(s.ops[k], s.len);
    hide Live, Free, AnyLive;
  }

  lemma PublishAnswers<T>(s: State<T>, k: nat)
    requires Formed(s) && k < |s.ops| && s.ops[k].PushPublish? && Formed(Publish(s, k))
    ensures var t := Publish(s, k); t.len == s.len && |t.ops| == |s.ops| && Pushes(s, t, k, false)
  {
    assert OpFormed(s.ops[k], s.len);
    hide AnyLive;
  }

  lemma PushRestAnswers<T>(s: State<T>, k: nat, flaky: bool)
    requires Formed(s) && k < |s.ops| && Formed(Step(s, k, flaky))
    requires s.ops[k].PushLoad? || s.ops[k].PushWrite? || s.ops[k].PushRollback? || s.ops[k].PushUndo?
    ensures var t := Step(s, k, flaky); t.len == s.len && |t.ops| == |s.ops| && Pushes(s, t, k, flaky)
  {
    assert OpFormed(s.ops[k], s.len);
    hide AnyLive;
  }

  lemma PopTryAnswers<T>(s: State<T>, k: nat, flaky: bool)
    requires Formed(s) && k < |s.ops| && s.ops[k].PopClaim? && Formed(PopTry(s, k, flaky))
    ensures var t := PopTry(s, k, flaky); t.len == s.len && |t.ops| == |s.ops| && Pops(s, t, k, flaky)
  {
    assert OpFormed(s.ops[k], s.len);
    hide Live, Free;
  }

  lemma NoInstance(word: Bitmap, len: nat)
    requires |word| == WORD && len <= 32 && forall j :: 2 * len <= j < WORD ==> !word[j]
    ensures Instances(word, len) == Zeros(32) <==> !AnyInst(word, len)
  {
    if Instances(word, len) == Zeros(32) {
      forall i | 0 <= i < len
        ensures !Inst(word, len, i)
      {
        assert Instances(word, len)[i] == Zeros(32)[i];
      }
    } else if !AnyInst(word, len) {
      forall i | 0 <= i < 32
        ensures Instances(word, len)[i] == Zeros(32)[i]
      {
        if i < len { assert !Inst(word, len, i); }
      }
    }
  }

  lemma ClearAnswers<T>(s: State<T>, k: nat)
    requires Formed(s) && k < |s.ops| && s.ops[k].PopClear? && Formed(Clear(s, k))
    ensures var t := Clear(s, k); t.len == s.len && |t.ops| == |s.ops| && Pops(s, t, k, false)
  {
    assert OpFormed(s.ops[k], s.len);
    NoInstance(Clear(s, k).word, s.len);
    hide AnyInst, Instances, AnyLive;
  }

  lemma PopRestAnswers<T>(s: State<T>, k: nat, flaky: bool)
    requires Formed(s) && k < |s.ops| && (s.ops[k].PopLoad? || s.ops[k].PopRead?) && Formed(Step(s, k, flaky))
    ensures var t := Step(s, k, flaky); t.len == s.len && |t.ops| == |s.ops| && Pops(s, t, k, flaky)
  {
    assert OpFormed(s.ops[k], s.len);
  }

  lemma DrainTryAnswers<T>(s: State<T>, k: nat, flaky: bool)
    requires Formed(s) && k < |s.ops| && s.ops[k].DrainClaim? && Formed(DrainTry(s, k, flaky))
    ensures var t := DrainTry(s, k, flaky); t.len == s.len && |t.ops| == |s.ops| && Drains(s, t, k, flaky)
  {
    assert OpFormed(s.ops[k], s.len);
    SD.ClaimedAllDead(s.word, s.len);
    hide AnyLive, ClaimAll, OwnAll;
  }

  lemma DrainRestAnswers<T>(s: State<T>, k: nat, flaky: bool)
    requires Formed(s) && k < |s.ops| && Formed(Step(s, k, flaky))
    requires s.ops[k].DrainLoad? || s.ops[k].DrainFold? || s.ops[k].DrainClear?
    ensures var t := Step(s, k, flaky); t.len == s.len && |t.ops| == |s.ops| && Drains(s, t, k, flaky)
  {
    assert OpFormed(s.ops[k], s.len);
    hide AnyLive, ClearAll, OwnAll, Contents;
  }

  ghost predicate Answers<T>(s: State<T>, t: State<T>, k: nat, flaky: bool) {
    && Formed(s) && Formed(t) && t.len == s.len && k < |s.ops| == |t.ops|
    && Pushes(s, t, k, flaky) && Pops(s, t, k, flaky) && Drains(s, t, k, flaky)
  }

  predicate IsPush<T>(op: Op<T>) {
    op.PushLoad? || op.PushClaim? || op.PushWrite? || op.PushPublish? || op.PushRollback? || op.PushUndo?
  }

  predicate IsPop<T>(op: Op<T>) { op.PopLoad? || op.PopClaim? || op.PopRead? || op.PopClear? }

  predicate IsDrain<T>(op: Op<T>) { op.DrainLoad? || op.DrainClaim? || op.DrainFold? || op.DrainClear? }

  lemma OnlyOne<T>(s: State<T>, t: State<T>, k: nat, flaky: bool)
    requires Formed(s) && Formed(t) && t.len == s.len && k < |s.ops| == |t.ops|
    ensures !IsPush(s.ops[k]) ==> Pushes(s, t, k, flaky)
    ensures !IsPop(s.ops[k]) ==> Pops(s, t, k, flaky)
    ensures !IsDrain(s.ops[k]) ==> Drains(s, t, k, flaky)
  {}

  lemma PushAnswers<T>(s: State<T>, k: nat, flaky: bool)
    requires Formed(s) && k < |s.ops| && IsPush(s.ops[k]) && Formed(Step(s, k, flaky))
    ensures var t := Step(s, k, flaky); t.len == s.len && |t.ops| == |s.ops| && Pushes(s, t, k, flaky)
  {
    hide Pushes, PushTry, Publish, OpFormed, AnyLive;
    match s.ops[k]
    case PushClaim(_, _, _) => PushTryAnswers(s, k, flaky);
    case PushPublish(_, _) => PublishAnswers(s, k); PublishAny(s, Publish(s, k), k, flaky);
    case _ => PushRestAnswers(s, k, flaky);
  }

  lemma PopAnswers<T>(s: State<T>, k: nat, flaky: bool)
    requires Formed(s) && k < |s.ops| && IsPop(s.ops[k]) && Formed(Step(s, k, flaky))
    ensures var t := Step(s, k, flaky); t.len == s.len && |t.ops| == |s.ops| && Pops(s, t, k, flaky)
  {
    hide Pops, PopTry, Clear, OpFormed, AnyLive;
    match s.ops[k]
    case PopClaim(_) => PopTryAnswers(s, k, flaky);
    case PopClear(_, _) => ClearAnswers(s, k); ClearAny(s, Clear(s, k), k, flaky);
    case _ => PopRestAnswers(s, k, flaky);
  }

  lemma DrainAnswers<T>(s: State<T>, k: nat, flaky: bool)
    requires Formed(s) && k < |s.ops| && IsDrain(s.ops[k]) && Formed(Step(s, k, flaky))
    ensures var t := Step(s, k, flaky); t.len == s.len && |t.ops| == |s.ops| && Drains(s, t, k, flaky)
  {
    hide Drains, DrainTry, OpFormed, AnyLive;
    if s.ops[k].DrainClaim? { DrainTryAnswers(s, k, flaky); } else { DrainRestAnswers(s, k, flaky); }
  }

  lemma Kinds<T>(op: Op<T>)
    ensures op.Done? || IsPush(op) || IsPop(op) || IsDrain(op)
  {}

  lemma MovesIs<T>(s: State<T>, t: State<T>, k: nat)
    requires Formed(s) && k < |s.ops| && Moves(s, t, k)
    ensures Formed(t) && t.len == s.len && |t.ops| == |s.ops|
  {}

  /** What each step of an operation does, by what the operation knows and by the word it meets. */
  lemma StepAnswers<T>(s: State<T>, k: nat, flaky: bool)
    requires Inv(s) && k < |s.ops| && !s.ops[k].Done?
    ensures Answers(s, Step(s, k, flaky), k, flaky)
  {
    hide *;
    InvParts(s);
    StepMoves(s, k, flaky);
    MovesIs(s, Step(s, k, flaky), k);
    Kinds(s.ops[k]);
    OnlyOne(s, Step(s, k, flaky), k, flaky);
    if IsPush(s.ops[k]) { PushAnswers(s, k, flaky); }
    if IsPop(s.ops[k]) { PopAnswers(s, k, flaky); }
    if IsDrain(s.ops[k]) { DrainAnswers(s, k, flaky); }
    AnswersIs(s, Step(s, k, flaky), k, flaky);
  }

  lemma AnswersIs<T>(s: State<T>, t: State<T>, k: nat, flaky: bool)
    requires Formed(s) && Formed(t) && t.len == s.len && k < |s.ops| == |t.ops|
    ensures Answers(s, t, k, flaky) <==>
      Pushes(s, t, k, flaky) && Pops(s, t, k, flaky) && Drains(s, t, k, flaky)
  {}

  lemma PublishAny<T>(s: State<T>, t: State<T>, k: nat, flaky: bool)
    requires Formed(s) && Formed(t) && t.len == s.len && k < |s.ops| == |t.ops|
    requires s.ops[k].PushPublish? && Pushes(s, t, k, false)
    ensures Pushes(s, t, k, flaky)
  {}

  lemma ClearAny<T>(s: State<T>, t: State<T>, k: nat, flaky: bool)
    requires Formed(s) && Formed(t) && t.len == s.len && k < |s.ops| == |t.ops|
    requires s.ops[k].PopClear? && Pops(s, t, k, false)
    ensures Pops(s, t, k, flaky)
  {}

  // ---------------------------------------------------------------- what an operation has met

  ghost predicate Whole<T>(states: seq<State<T>>, p: nat, n: nat) {
    p <= n < |states| && forall m :: p <= m <= n ==> Formed(states[m]) && states[m].len == states[p].len
  }

  /** At some moment the metadata word was this one. */
  ghost predicate Met<T>(states: seq<State<T>>, p: nat, n: nat, word: Bitmap)
    requires Whole(states, p, n)
  {
    exists m :: p <= m <= n && states[m].word == word
  }

  /** At some moment a push could be refused. */
  ghost predicate Refused<T>(states: seq<State<T>>, p: nat, n: nat, allowEmpty: bool)
    requires Whole(states, p, n)
  {
    exists m :: p <= m <= n && Refuses(states[m].word, states[m].len, allowEmpty)
  }

  /** At some moment no slot was live. */
  ghost predicate Barren<T>(states: seq<State<T>>, p: nat, n: nat)
    requires Whole(states, p, n)
  {
    exists m :: p <= m <= n && !AnyLive(states[m].word, states[m].len)
  }

  /** Slot `i` is live and contains the value. */
  ghost predicate Shows<T>(s: State<T>, i: nat, v: T)
    requires Formed(s)
  {
    i < s.len && Live(s.word, s.len, i) && s.slots[i] == Some(v)
  }

  /** At some moment the value was in a live slot. */
  ghost predicate Shown<T>(states: seq<State<T>>, p: nat, n: nat, v: T)
    requires Whole(states, p, n)
  {
    exists m, i :: p <= m <= n && Shows(states[m], i, v)
  }

  /** At some moment a slot had just been freed, and `empty` said whether no other was instantiated. */
  ghost predicate Emptied<T>(states: seq<State<T>>, p: nat, n: nat, empty: bool)
    requires Whole(states, p, n)
  {
    exists m :: p <= m <= n && empty == !AnyInst(states[m].word, states[m].len)
  }

  /** What is known of operation `k`, started by `a` with state `p` as the first in which it exists. */
  ghost predicate Tale<T>(states: seq<State<T>>, p: nat, n: nat, k: nat, a: Action<T>)
    requires Whole(states, p, n) && k < |states[n].ops|
  {
    var s := states[n];
    match a
    case StartPush(v, e) =>
      (match s.ops[k]
       case PushLoad(v', e') => v' == v && e' == e
       case PushClaim(v', e', seen) => v' == v && e' == e && Met(states, p, n, seen)
       case PushWrite(v', e', _) => v' == v && e' == e
       case PushPublish(e', i) => e' == e && i < s.len && s.slots[i] == Some(v)
       case PushRollback(i) => !e && i < s.len && s.slots[i] == Some(v) && Refused(states, p, n, e)
       case PushUndo(v', _) => v' == v && !e && Refused(states, p, n, e)
       case Done(Pushed) => Shown(states, p, n, v)
       case Done(Rejected(v')) => v' == v && Refused(states, p, n, e)
       case _ => false)
    case StartPop =>
      (match s.ops[k]
       case PopLoad => true
       case PopClaim(seen) => Met(states, p, n, seen)
       case PopRead(i) => i < s.len && s.slots[i].Some? && Shown(states, p, n, s.slots[i].value)
       case PopClear(v, _) => Shown(states, p, n, v)
       case Done(Popped(v, empty)) => Shown(states, p, n, v) && Emptied(states, p, n, empty)
       case Done(Nothing) => Barren(states, p, n)
       case _ => false)
    case StartDrain =>
      (match s.ops[k]
       case DrainLoad => true
       case DrainClaim(seen) => Met(states, p, n, seen)
       case DrainFold(_, _, _) => Barren(states, p, n)
       case DrainClear(_, _) => Barren(states, p, n)
       case Done(Drained) => Barren(states, p, n)
       case _ => false)
    case _ => true
  }

  lemma MetLater<T>(states: seq<State<T>>, p: nat, n: nat, word: Bitmap)
    requires Whole(states, p, n) && Whole(states, p, n + 1)
    ensures Met(states, p, n, word) ==> Met(states, p, n + 1, word)
  {}

  lemma RefusedLater<T>(states: seq<State<T>>, p: nat, n: nat, e: bool)
    requires Whole(states, p, n) && Whole(states, p, n + 1)
    ensures Refused(states, p, n, e) ==> Refused(states, p, n + 1, e)
  {}

  lemma BarrenLater<T>(states: seq<State<T>>, p: nat, n: nat)
    requires Whole(states, p, n) && Whole(states, p, n + 1)
    ensures Barren(states, p, n) ==> Barren(states, p, n + 1)
  {}

  lemma ShownLater<T>(states: seq<State<T>>, p: nat, n: nat, v: T)
    requires Whole(states, p, n) && Whole(states, p, n + 1)
    ensures Shown(states, p, n, v) ==> Shown(states, p, n + 1, v)
  {
    hide Shows;
  }

  lemma EmptiedLater<T>(states: seq<State<T>>, p: nat, n: nat, empty: bool)
    requires Whole(states, p, n) && Whole(states, p, n + 1)
    ensures Emptied(states, p, n, empty) ==> Emptied(states, p, n + 1, empty)
  {}

  // ---------------------------------------------------------------- one step of the tale

  lemma LiveHolds<T>(s: State<T>, i: nat)
    requires Inv(s) && i < s.len && Live(s.word, s.len, i)
    ensures s.slots[i].Some?
  {
    assert SlotOk(s, i);
  }

  lemma MetNow<T>(states: seq<State<T>>, p: nat, n: nat)
    requires Whole(states, p, n) && Whole(states, p, n + 1)
    ensures Met(states, p, n + 1, states[n].word)
  {}

  lemma MetBarren<T>(states: seq<State<T>>, p: nat, n: nat, word: Bitmap)
    requires Whole(states, p, n) && Met(states, p, n, word) && |word| == WORD
    ensures !AnyLive(word, states[n].len) ==> Barren(states, p, n)
  {
    hide AnyLive;
  }

  lemma BarrenNow<T>(states: seq<State<T>>, p: nat, n: nat)
    requires Whole(states, p, n) && !AnyLive(states[n].word, states[n].len)
    ensures Barren(states, p, n)
  {}

  lemma ShownNow<T>(states: seq<State<T>>, p: nat, n: nat, i: nat, v: T)
    requires Whole(states, p, n) && Shows(states[n], i, v)
    ensures Shown(states, p, n, v)
  {}

  lemma EmptiedNow<T>(states: seq<State<T>>, p: nat, n: nat)
    requires Whole(states, p, n)
    ensures Emptied(states, p, n, !AnyInst(states[n].word, states[n].len))
  {}

  lemma PopClaimTale<T>(states: seq<State<T>>, p: nat, n: nat, k: nat, a: Action<T>, flaky: bool)
    requires Whole(states, p, n) && Whole(states, p, n + 1) && k < |states[n].ops| && states[n].ops[k].PopClaim?
    requires Inv(states[n])
    requires a.StartPop? && Tale(states, p, n, k, a) && Answers(states[n], states[n + 1], k, flaky)
    ensures Tale(states, p, n + 1, k, a)
  {
    var s, t := states[n], states[n + 1];
    assert OpFormed(s.ops[k], s.len);
    assert Pops(s, t, k, flaky) && Formed(s) && Formed(t) && s.len == t.len;
    var seen := s.ops[k].seen;
    MetNow(states, p, n);
    MetBarren(states, p, n, seen);
    BarrenLater(states, p, n);
    hide Inv, AnyLive, Met, Barren, Shown, Whole, Formed, Answers, Free, Pushes, Drains;
    if t.ops[k].PopRead? {
      var i := t.ops[k].i;
      LiveHolds(s, i);
      ShowsIs(s, i);
      hide Live, Shows;
      ShownNow(states, p, n, i, s.slots[i].value);
      ShownLater(states, p, n, s.slots[i].value);
    }
  }

  lemma PopRestTale<T>(states: seq<State<T>>, p: nat, n: nat, k: nat, a: Action<T>, flaky: bool)
    requires Whole(states, p, n) && Whole(states, p, n + 1) && k < |states[n].ops|
    requires states[n].ops[k].PopRead? || states[n].ops[k].PopClear? || states[n].ops[k].PopLoad?
    requires Inv(states[n])
    requires a.StartPop? && Tale(states, p, n, k, a) && Answers(states[n], states[n + 1], k, flaky)
    ensures Tale(states, p, n + 1, k, a)
  {
    var s, t := states[n], states[n + 1];
    assert OpFormed(s.ops[k], s.len);
    assert Pops(s, t, k, flaky) && Formed(s) && Formed(t) && s.len == t.len;
    EmptiedNow(states, p, n + 1);
    MetNow(states, p, n);
    hide Inv, AnyInst, Met, Shown, Emptied, Whole, Formed, Answers, Free, Pushes, Drains;
    if s.ops[k].PopRead? { ShownLater(states, p, n, s.slots[s.ops[k].i].value); }
    if s.ops[k].PopClear? { ShownLater(states, p, n, s.ops[k].val); }
  }

  lemma PopTale<T>(states: seq<State<T>>, p: nat, n: nat, k: nat, a: Action<T>, flaky: bool)
    requires Whole(states, p, n) && Whole(states, p, n + 1) && k < |states[n].ops| && !states[n].ops[k].Done?
    requires Inv(states[n])
    requires a.StartPop? && Tale(states, p, n, k, a) && Answers(states[n], states[n + 1], k, flaky)
    ensures Tale(states, p, n + 1, k, a)
  {
    IsAPop(states, p, n, k, a);
    hide *;
    if states[n].ops[k].PopClaim? {
      PopClaimTale(states, p, n, k, a, flaky);
    } else {
      PopRestTale(states, p, n, k, a, flaky);
    }
  }

  lemma IsAPop<T>(states: seq<State<T>>, p: nat, n: nat, k: nat, a: Action<T>)
    requires Whole(states, p, n) && k < |states[n].ops| && a.StartPop? && Tale(states, p, n, k, a)
    ensures var op := states[n].ops[k]; op.PopLoad? || op.PopClaim? || op.PopRead? || op.PopClear? || op.Done?
  {
    hide Met, Shown, Emptied, Barren;
  }

  lemma ShowsIs<T>(s: State<T>, i: nat)
    requires Formed(s) && i < s.len && Live(s.word, s.len, i) && s.slots[i].Some?
    ensures Shows(s, i, s.slots[i].value)
  {}

  lemma DrainTale<T>(states: seq<State<T>>, p: nat, n: nat, k: nat, a: Action<T>, flaky: bool)
    requires Whole(states, p, n) && Whole(states, p, n + 1) && k < |states[n].ops| && !states[n].ops[k].Done?
    requires a.StartDrain? && Tale(states, p, n, k, a) && Answers(states[n], states[n + 1], k, flaky)
    ensures Tale(states, p, n + 1, k, a)
  {
    var s, t := states[n], states[n + 1];
    assert OpFormed(s.ops[k], s.len);
    MetNow(states, p, n);
    BarrenLater(states, p, n);
    hide AnyLive, Pushes, Pops, Met, Barren;
    if s.ops[k].DrainClaim? {
      MetBarren(states, p, n, s.ops[k].seen);
      if t.ops[k].DrainFold? { BarrenNow(states, p, n + 1); }
    }
  }

  lemma MetRefused<T>(states: seq<State<T>>, p: nat, n: nat, word: Bitmap, e: bool)
    requires Whole(states, p, n) && Met(states, p, n, word) && |word| == WORD
    ensures Refuses(word, states[n].len, e) ==> Refused(states, p, n, e)
  {
    hide Refuses;
  }

  lemma RefusedNow<T>(states: seq<State<T>>, p: nat, n: nat)
    requires Whole(states, p, n) && !AnyLive(states[n].word, states[n].len)
    ensures Refused(states, p, n, false)
  {
    assert Refuses(states[n].word, states[n].len, false);
    hide AnyLive, AnyFree;
  }

  lemma PushTale<T>(states: seq<State<T>>, p: nat, n: nat, k: nat, a: Action<T>, flaky: bool)
    requires Whole(states, p, n) && Whole(states, p, n + 1) && k < |states[n].ops| && !states[n].ops[k].Done?
    requires a.StartPush? && Tale(states, p, n, k, a) && Answers(states[n], states[n + 1], k, flaky)
    ensures Tale(states, p, n + 1, k, a)
  {
    var s, t := states[n], states[n + 1];
    assert OpFormed(s.ops[k], s.len);
    assert Pushes(s, t, k, flaky) && Formed(s) && Formed(t) && s.len == t.len;
    MetNow(states, p, n);
    RefusedLater(states, p, n, a.allowEmpty);
    hide Refuses, AnyLive, Pops, Drains, Met, Refused, Shown, Shows, Whole, Formed, Answers, Live, Free;
    match s.ops[k]
    case PushClaim(_, e, seen) => MetRefused(states, p, n, seen, e);
    case PushPublish(e, i) =>
      if e || AnyLive(s.word, s.len) {
        ShowsIs(t, i);
        ShownNow(states, p, n + 1, i, a.val);
      } else {
        RefusedNow(states, p, n);
      }
    case _ =>
  }

  // ---------------------------------------------------------------- what others do

  predicate ByOp<T>(a: Action<T>, k: nat) { (a.Advance? && a.k == k) || (a.Fail? && a.k == k) }

  lemma MovesSpare<T>(s: State<T>, t: State<T>, l: nat, k: nat, i: nat)
    requires Inv(s) && l < |s.ops| && Moves(s, t, l) && k < |s.ops| && k != l && i < s.len && Owns(s.ops[k], i)
    ensures t.ops[k] == s.ops[k] && t.slots[i] == s.slots[i]
  {
    OwnedBy(s, k, i);
    assert SlotMoves(s, t, l, i);
    if Owns(s.ops[l], i) { OwnedBy(s, l, i); }
    hide Inv, Owns, TakesOut, Holds, Balanced;
  }

  lemma MovesOps<T>(s: State<T>, t: State<T>, l: nat, k: nat)
    requires Formed(s) && l < |s.ops| && Moves(s, t, l) && k < |s.ops| && k != l
    ensures |t.ops| == |s.ops| && t.ops[k] == s.ops[k]
  {}

  ghost predicate Untouched<T>(s: State<T>, t: State<T>, k: nat) {
    && Formed(s) && k < |s.ops| <= |t.ops| && t.ops[k] == s.ops[k] && t.len == s.len && |t.slots| == |s.slots|
    && forall i :: 0 <= i < s.len && Owns(s.ops[k], i) ==> t.slots[i] == s.slots[i]
  }

  lemma MovesUntouched<T>(s: State<T>, t: State<T>, l: nat, k: nat)
    requires Inv(s) && l < |s.ops| && Moves(s, t, l) && k < |s.ops| && k != l
    ensures Untouched(s, t, k)
  {
    InvParts(s);
    MovesOps(s, t, l, k);
    MovesIs(s, t, l);
    forall i | 0 <= i < s.len && Owns(s.ops[k], i)
      ensures t.slots[i] == s.slots[i]
    {
      MovesSpare(s, t, l, k, i);
    }
    hide Inv, Moves, Owns, OpFormed;
  }

  lemma StartUntouched<T>(s: State<T>, a: Action<T>, k: nat)
    requires Formed(s) && k < |s.ops| && (a.StartPush? || a.StartPop? || a.StartDrain?)
    ensures Untouched(s, Do(s, a), k)
  {}

  /** The steps of others leave an operation and its slots alone. */
  lemma OthersLeave<T>(s: State<T>, a: Action<T>, k: nat)
    requires Inv(s) && Can(s, a) && k < |s.ops| && !ByOp(a, k)
    ensures Untouched(s, Do(s, a), k)
  {
    InvParts(s);
    hide Inv, Untouched, Step, Panic, Formed, Moves;
    match a
    case Advance(l, flaky) =>
      StepMoves(s, l, flaky);
      MovesUntouched(s, Step(s, l, flaky), l, k);
    case Fail(l) =>
      PanicMoves(s, l);
      MovesUntouched(s, Panic(s, l), l, k);
    case _ => StartUntouched(s, a, k);
  }

  lemma TaleKept<T>(states: seq<State<T>>, p: nat, n: nat, k: nat, a: Action<T>)
    requires Whole(states, p, n) && Whole(states, p, n + 1) && Untouched(states[n], states[n + 1], k)
    requires Tale(states, p, n, k, a)
    ensures Tale(states, p, n + 1, k, a)
  {
    var op := states[n].ops[k];
    assert OpFormed(op, states[n].len);
    if a.StartPush? { RefusedLater(states, p, n, a.allowEmpty); ShownLater(states, p, n, a.val); }
    BarrenLater(states, p, n);
    Kept(states, p, n, op);
    hide Met, Refused, Barren, Shown, Emptied, Formed;
  }

  lemma Kept<T>(states: seq<State<T>>, p: nat, n: nat, op: Op<T>)
    requires Whole(states, p, n) && Whole(states, p, n + 1) && OpFormed(op, states[n].len)
    ensures op.PushClaim? || op.PopClaim? || op.DrainClaim? ==>
      Met(states, p, n, op.seen) ==> Met(states, p, n + 1, op.seen)
    ensures op.PopRead? && states[n].slots[op.i].Some? ==>
      Shown(states, p, n, states[n].slots[op.i].value) ==> Shown(states, p, n + 1, states[n].slots[op.i].value)
    ensures op.PopClear? ==> Shown(states, p, n, op.val) ==> Shown(states, p, n + 1, op.val)
    ensures op.Done? && op.result.Popped? ==>
      && (Shown(states, p, n, op.result.val) ==> Shown(states, p, n + 1, op.result.val))
      && (Emptied(states, p, n, op.result.empty) ==> Emptied(states, p, n + 1, op.result.empty))
  {
    if op.PopRead? && states[n].slots[op.i].Some? { ShownLater(states, p, n, states[n].slots[op.i].value); }
    if op.PopClear? { ShownLater(states, p, n, op.val); }
    if op.Done? && op.result.Popped? {
      ShownLater(states, p, n, op.result.val);
      EmptiedLater(states, p, n, op.result.empty);
    }
    hide Shown, Emptied, Formed;
  }

  lemma TaleFails<T>(states: seq<State<T>>, p: nat, n: nat, k: nat, a: Action<T>)
    requires Whole(states, p, n) && Whole(states, p, n + 1) && k < |states[n].ops| && states[n].ops[k].DrainFold?
    requires states[n + 1] == Panic(states[n], k) && Tale(states, p, n, k, a)
    ensures Tale(states, p, n + 1, k, a)
  {
    BarrenLater(states, p, n);
    hide Barren, Formed, Stored, Forsaken;
  }

  // ---------------------------------------------------------------- whole runs

  predicate Starts<T>(a: Action<T>) { a.StartPush? || a.StartPop? || a.StartDrain? }

  lemma LenKept<T>(s: State<T>, a: Action<T>)
    requires Inv(s) && Can(s, a)
    ensures Do(s, a).len == s.len && |Do(s, a).ops| >= |s.ops|
  {
    InvParts(s);
    hide Inv, Step, Panic, Formed, Moves;
    match a
    case Advance(l, flaky) => StepMoves(s, l, flaky); MovesIs(s, Step(s, l, flaky), l);
    case Fail(l) => PanicMoves(s, l); MovesIs(s, Panic(s, l), l);
    case _ =>
  }

  lemma RunStep<T>(states: seq<State<T>>, actions: seq<Action<T>>, n: nat)
    requires Run(states, actions) && n < |actions|
    ensures |states| == |actions| + 1 && Can(states[n], actions[n]) && states[n + 1] == Do(states[n], actions[n])
  {
    hide Can, Do, Start;
  }

  lemma RunLength<T>(states: seq<State<T>>, actions: seq<Action<T>>)
    requires Run(states, actions)
    ensures |states| == |actions| + 1
  {
    hide Can, Do, Start;
  }

  lemma {:induction false} RunWhole<T>(states: seq<State<T>>, actions: seq<Action<T>>, p: nat, n: nat)
    requires Run(states, actions) && p <= n < |states|
    ensures Whole(states, p, n)
  {
    hide Run, Inv, Can, Do, Formed;
    RunLength(states, actions);
    RunInv(states, actions, n);
    InvParts(states[n]);
    if p < n {
      RunWhole(states, actions, p, n - 1);
      RunInv(states, actions, n - 1);
      RunStep(states, actions, n - 1);
      LenKept(states[n - 1], actions[n - 1]);
    }
  }

  lemma TaleStarts<T>(states: seq<State<T>>, q: nat, a: Action<T>)
    requires Whole(states, q + 1, q + 1) && Starts(a) && states[q + 1] == Do(states[q], a)
    ensures |states[q].ops| < |states[q + 1].ops| && Tale(states, q + 1, q + 1, |states[q].ops|, a)
  {
    hide Formed, Met, Refused, Barren, Shown, Emptied;
  }

  lemma AdvanceTale<T>(states: seq<State<T>>, p: nat, n: nat, k: nat, a: Action<T>, b: Action<T>)
    requires Whole(states, p, n) && Whole(states, p, n + 1) && n + 1 < |states| && k < |states[n].ops| && Inv(states[n])
    requires ByOp(b, k) && Can(states[n], b) && states[n + 1] == Do(states[n], b)
    requires Starts(a) && Tale(states, p, n, k, a)
    ensures k < |states[n + 1].ops| && Tale(states, p, n + 1, k, a)
  {
    hide *;
    LenKept(states[n], b);
    ByOpIs(states[n], b, k);
    if b.Fail? {
      TaleFails(states, p, n, k, a);
    } else {
      StepAnswers(states[n], k, b.flaky);
      StartsIs(a);
      if a.StartPush? { PushTale(states, p, n, k, a, b.flaky); }
      if a.StartPop? { PopTale(states, p, n, k, a, b.flaky); }
      if a.StartDrain? { DrainTale(states, p, n, k, a, b.flaky); }
    }
  }

  lemma StartsIs<T>(a: Action<T>)
    ensures Starts(a) <==> a.StartPush? || a.StartPop? || a.StartDrain?
  {}

  lemma ByOpIs<T>(s: State<T>, b: Action<T>, k: nat)
    requires ByOp(b, k) && Can(s, b)
    ensures b.Advance? || b.Fail?
    ensures b.Advance? ==> k < |s.ops| && !s.ops[k].Done? && Formed(s) && Do(s, b) == Step(s, k, b.flaky)
    ensures b.Fail? ==> k < |s.ops| && s.ops[k].DrainFold? && Formed(s) && Do(s, b) == Panic(s, k)
  {
    hide Step, Panic, Formed;
  }

  lemma {:induction false} RunTale<T>(states: seq<State<T>>, actions: seq<Action<T>>, q: nat, n: nat, k: nat)
    requires Run(states, actions) && q < n < |states| && q < |actions| && Starts(actions[q]) && k == |states[q].ops|
    ensures Whole(states, q + 1, n) && k < |states[n].ops| && Tale(states, q + 1, n, k, actions[q])
  {
    hide *;
    RunLength(states, actions);
    RunWhole(states, actions, q + 1, n);
    if n == q + 1 {
      RunStep(states, actions, q);
      TaleStarts(states, q, actions[q]);
    } else {
      RunTale(states, actions, q, n - 1, k);
      RunStep(states, actions, n - 1);
      RunInv(states, actions, n - 1);
      var b := actions[n - 1];
      if ByOp(b, k) {
        AdvanceTale(states, q + 1, n - 1, k, actions[q], b);
      } else {
        OthersLeave(states[n - 1], b, k);
        UntouchedIs(states[n - 1], states[n], k);
        TaleKept(states, q + 1, n - 1, k, actions[q]);
      }
    }
  }

  lemma UntouchedIs<T>(s: State<T>, t: State<T>, k: nat)
    requires Untouched(s, t, k)
    ensures k < |t.ops|
  {}

  // ---------------------------------------------------------------- the answers

  /** A push is refused, getting its own value back, only if at some moment while it ran no slot was free, or it
      must not revive an empty array and no slot was live.  Otherwise its value was live at some moment. */
  lemma PushAnswered<T>(states: seq<State<T>>, actions: seq<Action<T>>, q: nat, n: nat, k: nat, v: T, allowEmpty: bool)
    requires Run(states, actions) && q < n < |states| && q < |actions| && k == |states[q].ops|
    requires actions[q] == StartPush(v, allowEmpty)
    ensures Whole(states, q + 1, n) && k < |states[n].ops|
    ensures states[n].ops[k].Done? ==>
      var result := states[n].ops[k].result;
      || (result == Pushed && Shown(states, q + 1, n, v))
      || (result == Rejected(v) && Refused(states, q + 1, n, allowEmpty))
  {
    RunTale(states, actions, q, n, k);
    hide Run, Whole, Met, Refused, Shown;
  }

  /** When a push that may revive the array, or one that finds a live slot, comes to publish, it succeeds: its
      value is in its slot, which is live. */
  lemma PushPublishes<T>(states: seq<State<T>>, actions: seq<Action<T>>, q: nat, n: nat, k: nat, v: T, allowEmpty: bool)
    requires Run(states, actions) && q < n < |actions| && n + 1 < |states| && k == |states[q].ops|
    requires actions[q] == StartPush(v, allowEmpty) && actions[n].Advance? && actions[n].k == k
    requires Whole(states, q + 1, n + 1) && k < |states[n].ops| && states[n].ops[k].PushPublish?
    requires allowEmpty || AnyLive(states[n].word, states[n].len)
    ensures k < |states[n + 1].ops| && states[n + 1].ops[k] == Done(Pushed)
    ensures Shows(states[n + 1], states[n].ops[k].i, v)
  {
    RunTale(states, actions, q, n, k);
    RunInv(states, actions, n);
    RunStep(states, actions, n);
    ByOpIs(states[n], actions[n], k);
    StepAnswers(states[n], k, actions[n].flaky);
    assert Pushes(states[n], states[n + 1], k, actions[n].flaky);
    hide Run, Met, Refused, Shown, Inv, Can, Do, Step, AnyLive, Pops, Drains;
  }

  /** A pop returns a value that was live at some moment while it ran, and says correctly whether it left the
      array without instances; it finds nothing only if at some moment no slot was live. */
  lemma PopAnswered<T>(states: seq<State<T>>, actions: seq<Action<T>>, q: nat, n: nat, k: nat)
    requires Run(states, actions) && q < n < |states| && q < |actions| && k == |states[q].ops|
    requires actions[q] == StartPop
    ensures Whole(states, q + 1, n) && k < |states[n].ops|
    ensures states[n].ops[k].Done? ==>
      var result := states[n].ops[k].result;
      || (result == Nothing && Barren(states, q + 1, n))
      || (result.Popped? && Shown(states, q + 1, n, result.val) && Emptied(states, q + 1, n, result.empty))
  {
    RunTale(states, actions, q, n, k);
    hide Run, Whole, Met, Barren, Shown, Emptied;
  }

  /** A drain is done only if at some moment while it ran no slot was live. */
  lemma DrainAnswered<T>(states: seq<State<T>>, actions: seq<Action<T>>, q: nat, n: nat, k: nat)
    requires Run(states, actions) && q < n < |states| && q < |actions| && k == |states[q].ops|
    requires actions[q] == StartDrain
    ensures Whole(states, q + 1, n) && k < |states[n].ops|
    ensures states[n].ops[k].Done? ==> states[n].ops[k].result == Drained && Barren(states, q + 1, n)
  {
    RunTale(states, actions, q, n, k);
    hide Run, Whole, Met, Barren;
  }

  // ---------------------------------------------------------------- an operation left alone

  /** How many steps operation `k` still takes when no other interferes and no exchange fails without reason. */
  ghost function Left<T>(s: State<T>, k: nat): nat
    requires Formed(s) && k < |s.ops|
  {
    match s.ops[k]
    case PushLoad(_, _) => 6
    case PushClaim(_, _, seen) => if seen == s.word then 5 else 6
    case PushWrite(_, _, _) => 4
    case PushPublish(_, _) => 3
    case PushRollback(_) => 2
    case PushUndo(_, _) => 1
    case PopLoad => 4
    case PopClaim(seen) => if seen == s.word then 3 else 4
    case PopRead(_) => 2
    case PopClear(_, _) => 1
    case DrainLoad => s.len + 5
    case DrainClaim(seen) => if seen == s.word then s.len + 4 else s.len + 5
    case DrainFold(_, at, _) => if at < s.len then s.len - at + 3 else 3
    case DrainClear(_, seen) => if seen == s.word then 1 else 2
    case Done(_) => 0
  }

  lemma LeftStep<T>(s: State<T>, t: State<T>, k: nat)
    requires Answers(s, t, k, false) && !s.ops[k].Done?
    requires s.ops[k].PushRollback? || s.ops[k].PopRead? ==> s.ops[k].i < s.len && s.slots[s.ops[k].i].Some?
    ensures Left(t, k) < Left(s, k)
  {
    assert OpFormed(s.ops[k], s.len);
    hide Refuses, AnyLive, AnyInst, Free, Live, Formed;
  }

  lemma Filled<T>(s: State<T>, k: nat)
    requires Inv(s) && k < |s.ops| && (s.ops[k].PushRollback? || s.ops[k].PopRead?)
    ensures s.ops[k].i < s.len && s.slots[s.ops[k].i].Some?
  {
    assert OpFormed(s.ops[k], s.len);
    OwnedBy(s, k, s.ops[k].i);
    hide SlotsOk, OwnersOk, Conserved, OpFormed;
  }

  /** Operation `k` takes `n` steps, and nobody else any. */
  ghost function Alone<T>(s: State<T>, k: nat, n: nat): State<T>
    decreases n
  {
    if n == 0 then s else Alone(Do(s, Advance(k, false)), k, n - 1)
  }

  lemma DoneStays<T>(s: State<T>, k: nat)
    requires Formed(s) && k < |s.ops| && s.ops[k].Done?
    ensures Do(s, Advance(k, false)) == s
  {}

  lemma AloneStep<T>(s: State<T>, k: nat)
    requires Inv(s) && Formed(s) && k < |s.ops| && !s.ops[k].Done?
    ensures var t := Do(s, Advance(k, false)); Inv(t) && Formed(t) && k < |t.ops| && Left(t, k) < Left(s, k)
  {
    hide *;
    AdvanceIs(s, k);
    InvDo(s, Advance(k, false));
    InvParts(Do(s, Advance(k, false)));
    LenKept(s, Advance(k, false));
    StepAnswers(s, k, false);
    if s.ops[k].PushRollback? || s.ops[k].PopRead? { Filled(s, k); }
    LeftStep(s, Do(s, Advance(k, false)), k);
  }

  /** An operation left alone is done after at most 6 steps for a push, 4 for a pop, and 5 more than the array is
      long for a drain, wherever the others have stopped. */
  lemma {:induction false} AloneFinishes<T>(s: State<T>, k: nat, n: nat)
    requires Inv(s) && Formed(s) && k < |s.ops| && Left(s, k) <= n
    ensures Inv(Alone(s, k, n)) && k < |Alone(s, k, n).ops| && Alone(s, k, n).ops[k].Done?
    decreases n
  {
    hide *;
    LeftIs(s, k);
    AloneIs(s, k, n);
    if n > 0 {
      if s.ops[k].Done? { DoneStays(s, k); } else { AloneStep(s, k); }
      AloneFinishes(Do(s, Advance(k, false)), k, n - 1);
    }
  }

  lemma AdvanceIs<T>(s: State<T>, k: nat)
    requires Formed(s) && k < |s.ops| && !s.ops[k].Done?
    ensures Can(s, Advance(k, false)) && Do(s, Advance(k, false)) == Step(s, k, false)
  {
    hide Step, Formed;
  }

  lemma AloneIs<T>(s: State<T>, k: nat, n: nat)
    ensures Alone(s, k, n) == if n == 0 then s else Alone(Do(s, Advance(k, false)), k, n - 1)
  {
    hide Do;
  }

  lemma LeftIs<T>(s: State<T>, k: nat)
    requires Formed(s) && k < |s.ops|
    ensures Left(s, k) == 0 ==> s.ops[k].Done?
    ensures s.ops[k].Done? ==> Left(s, k) == 0
    ensures s.ops[k].PushLoad? ==> Left(s, k) == 6
    ensures s.ops[k].PopLoad? ==> Left(s, k) == 4
    ensures s.ops[k].DrainLoad? ==> Left(s, k) == s.len + 5
  {}
}
