/** The slot array of a bag (`Storage` in src/bag.rs) as a transition system: any number of pushes,
    pops and drains on one array, interleaved at every access to the metadata word and to a slot. */
module SlotProtocol {
  import opened Base
  import opened Bits

  const WORD: nat := 64

  /** The metadata word: the owned bitmap in bits 0..len, the instance bitmap in bits len..2*len. */
  function Instances(word: Bitmap, len: nat): Bitmap
    requires |word| == WORD && len <= 32
  {
    word[len..len + 32]
  }

  function Owned(word: Bitmap, len: nat): Bitmap
    requires |word| == WORD && len <= 32
  {
    word[..len] + Zeros(32 - len)
  }

  predicate Inst(word: Bitmap, len: nat, i: nat)
    requires |word| == WORD && i < len <= 32
  {
    word[len + i]
  }

  predicate Own(word: Bitmap, i: nat)
    requires |word| == WORD && i < 32
  {
    word[i]
  }

  /** Valid and reachable. */
  predicate Live(word: Bitmap, len: nat, i: nat)
    requires |word| == WORD && i < len <= 32
  {
    Inst(word, len, i) && !Own(word, i)
  }

  /** Neither instantiated nor owned. */
  predicate Free(word: Bitmap, len: nat, i: nat)
    requires |word| == WORD && i < len <= 32
  {
    !Inst(word, len, i) && !Own(word, i)
  }

  predicate AnyLive(word: Bitmap, len: nat)
    requires |word| == WORD && len <= 32
  {
    exists i :: 0 <= i < len && Live(word, len, i)
  }

  /** The lowest free slot at or above `i`, or `len`. */
  function FirstFree(word: Bitmap, len: nat, i: nat): (r: nat)
    requires |word| == WORD && i <= len <= 32
    ensures i <= r <= len && (r < len ==> Free(word, len, r))
    ensures forall j :: i <= j < r ==> !Free(word, len, j)
    decreases len - i
  {
    if i == len || Free(word, len, i) then i else FirstFree(word, len, i + 1)
  }

  /** The lowest live slot at or above `i`, or `len`. */
  function FirstLive(word: Bitmap, len: nat, i: nat): (r: nat)
    requires |word| == WORD && i <= len <= 32
    ensures i <= r <= len && (r < len ==> Live(word, len, r))
    ensures forall j :: i <= j < r ==> !Live(word, len, j)
    decreases len - i
  {
    if i == len || Live(word, len, i) then i else FirstLive(word, len, i + 1)
  }

  /** The lowest claimed slot at or above `i`, or the length of the claim. */
  function FirstIn(claim: Bitmap, i: nat): (r: nat)
    requires i <= |claim|
    ensures i <= r <= |claim| && (r < |claim| ==> claim[r])
    ensures forall j :: i <= j < r ==> !claim[j]
    decreases |claim| - i
  {
    if i == |claim| || claim[i] then i else FirstIn(claim, i + 1)
  }

  /** All live slots. */
  function LiveSlots(word: Bitmap, len: nat): (r: Bitmap)
    requires |word| == WORD && len <= 32
    ensures |r| == len && forall i :: 0 <= i < len ==> r[i] == Live(word, len, i)
  {
    seq(len, i requires 0 <= i < len => Live(word, len, i))
  }

  function ClaimAll(word: Bitmap, claim: Bitmap): (r: Bitmap)
    requires |word| == WORD && |claim| <= 32
    ensures |r| == WORD && forall j :: 0 <= j < WORD ==> r[j] == (word[j] || (j < |claim| && claim[j]))
  {
    seq(WORD, j requires 0 <= j < WORD => word[j] || (j < |claim| && claim[j]))
  }

  /** Clears both bits of every claimed slot. */
  function ClearAll(word: Bitmap, claim: Bitmap): (r: Bitmap)
    requires |word| == WORD && |claim| <= 32
    ensures |r| == WORD
    ensures forall j :: 0 <= j < |claim| ==> r[j] == (word[j] && !claim[j])
    ensures forall j :: |claim| <= j < 2 * |claim| ==> r[j] == (word[j] && !claim[j - |claim|])
    ensures forall j :: 2 * |claim| <= j < WORD ==> r[j] == word[j]
  {
    seq(WORD, j requires 0 <= j < WORD =>
      word[j] && !(j < |claim| && claim[j]) && !(|claim| <= j < 2 * |claim| && claim[j - |claim|]))
  }

  // ---------------------------------------------------------------- operations in flight

  datatype Result<T> = Pushed | Rejected(val: T) | Popped(val: T, empty: bool) | Nothing | Drained

  /** Where an operation is.  `seen` is the metadata word it last read. */
  datatype Op<T> =
    | PushLoad(val: T, allowEmpty: bool)
    | PushClaim(val: T, allowEmpty: bool, seen: Bitmap)
    | PushWrite(val: T, allowEmpty: bool, i: nat)
    | PushPublish(allowEmpty: bool, i: nat)
    | PushRollback(i: nat)
    | PushUndo(val: T, i: nat)
    | PopLoad
    | PopClaim(seen: Bitmap)
    | PopRead(i: nat)
    | PopClear(val: T, i: nat)
    | DrainLoad
    | DrainClaim(seen: Bitmap)
    | DrainFold(claim: Bitmap, at: nat, seen: Bitmap)
    | DrainClear(claim: Bitmap, seen: Bitmap)
    | Done(result: Result<T>)

  /** `owner`, `pushed`, `returned` and `lost` are history: who owns a slot, the values handed to
      `push`, those handed back by any operation, and those a panicking fold never reached. */
  datatype State<T(==)> = State(
    len: nat, word: Bitmap, slots: seq<Option<T>>, ops: seq<Op<T>>,
    owner: seq<Option<nat>>, pushed: multiset<T>, returned: multiset<T>, lost: multiset<T>)

  ghost predicate Formed<T>(s: State<T>) {
    && 1 <= s.len <= 32 && |s.word| == WORD && |s.slots| == s.len && |s.owner| == s.len
    && (forall k :: 0 <= k < |s.ops| ==> OpFormed(s.ops[k], s.len))
    && (forall j :: 2 * s.len <= j < WORD ==> !s.word[j])
  }

  predicate OpFormed<T>(op: Op<T>, len: nat) {
    match op
    case PushClaim(_, _, seen) => |seen| == WORD
    case PopClaim(seen) => |seen| == WORD
    case DrainClaim(seen) => |seen| == WORD
    case PushWrite(_, _, i) => i < len
    case PushPublish(_, i) => i < len
    case PushRollback(i) => i < len
    case PushUndo(_, i) => i < len
    case PopRead(i) => i < len
    case PopClear(_, i) => i < len
    case DrainFold(claim, at, seen) => |claim| == len && at <= len && |seen| == WORD
    case DrainClear(claim, seen) => |claim| == len && |seen| == WORD
    case _ => true
  }

  function At<T(==)>(s: State<T>, k: nat, op: Op<T>): State<T>
    requires k < |s.ops|
  {
    s.(ops := s.ops[k := op])
  }

  function Finish<T(==)>(s: State<T>, k: nat, result: Result<T>): State<T>
    requires k < |s.ops|
  {
    var t := At(s, k, Done(result));
    match result
    case Rejected(v) => t.(returned := t.returned + multiset{v})
    case Popped(v, _) => t.(returned := t.returned + multiset{v})
    case _ => t
  }

  /** The weak compare-exchange that claims slot `i`: it may fail although nothing changed, and then
      reads the word again. */
  function PushTry<T(==)>(s: State<T>, k: nat, flaky: bool): State<T>
    requires Formed(s) && k < |s.ops| && s.ops[k].PushClaim?
  {
    var PushClaim(val, allowEmpty, seen) := s.ops[k];
    var i := FirstFree(seen, s.len, 0);
    if (!allowEmpty && !AnyLive(seen, s.len)) || i == s.len then Finish(s, k, Rejected(val))
    else if s.word == seen && !flaky then
      At(s, k, PushWrite(val, allowEmpty, i)).(word := s.word[i := true], owner := s.owner[i := Some(k)])
    else At(s, k, PushClaim(val, allowEmpty, s.word))
  }

  /** The value becomes reachable, unless the array may not come back to life and has no live slot. */
  function Publish<T(==)>(s: State<T>, k: nat): State<T>
    requires Formed(s) && k < |s.ops| && s.ops[k].PushPublish?
  {
    var PushPublish(allowEmpty, i) := s.ops[k];
    if !allowEmpty && !AnyLive(s.word, s.len) then At(s, k, PushRollback(i))
    else Finish(s, k, Pushed).(word := s.word[i := false][s.len + i := true], owner := s.owner[i := None])
  }

  function PopTry<T(==)>(s: State<T>, k: nat, flaky: bool): State<T>
    requires Formed(s) && k < |s.ops| && s.ops[k].PopClaim?
  {
    var seen := s.ops[k].seen;
    var i := FirstLive(seen, s.len, 0);
    if i == s.len then Finish(s, k, Nothing)
    else if s.word == seen && !flaky then
      At(s, k, PopRead(i)).(word := s.word[i := true], owner := s.owner[i := Some(k)])
    else At(s, k, PopClaim(s.word))
  }

  /** Both bits are cleared; the popper learns whether it has emptied the array. */
  function Clear<T(==)>(s: State<T>, k: nat): State<T>
    requires Formed(s) && k < |s.ops| && s.ops[k].PopClear?
  {
    var PopClear(val, i) := s.ops[k];
    var word := s.word[i := false][s.len + i := false];
    Finish(s, k, Popped(val, Instances(word, s.len) == Zeros(32))).(word := word, owner := s.owner[i := None])
  }

  /** The owners of all slots in `claim`. */
  function OwnAll(owner: seq<Option<nat>>, claim: Bitmap, o: Option<nat>): (r: seq<Option<nat>>)
    requires |owner| == |claim|
    ensures |r| == |owner| && forall i :: 0 <= i < |r| ==> r[i] == if claim[i] then o else owner[i]
  {
    seq(|owner|, i requires 0 <= i < |owner| => if claim[i] then o else owner[i])
  }

  function DrainTry<T(==)>(s: State<T>, k: nat, flaky: bool): State<T>
    requires Formed(s) && k < |s.ops| && s.ops[k].DrainClaim?
  {
    var seen := s.ops[k].seen;
    var claim := LiveSlots(seen, s.len);
    if !AnyLive(seen, s.len) then Finish(s, k, Drained)
    else if s.word == seen && !flaky then
      At(s, k, DrainFold(claim, 0, ClaimAll(s.word, claim)))
        .(word := ClaimAll(s.word, claim), owner := OwnAll(s.owner, claim, Some(k)))
    else At(s, k, DrainClaim(s.word))
  }

  /** Folds the next claimed value, in ascending order. */
  function Fold<T(==)>(s: State<T>, k: nat): State<T>
    requires Formed(s) && k < |s.ops| && s.ops[k].DrainFold?
  {
    var DrainFold(claim, at, seen) := s.ops[k];
    var i := FirstIn(claim, at);
    if i == s.len then At(s, k, DrainClear(claim, seen))
    else
      At(s, k, DrainFold(claim, i + 1, seen))
        .(slots := s.slots[i := None], returned := s.returned + Contents(s.slots[i]))
  }

  function Contents<T(==)>(slot: Option<T>): multiset<T> {
    match slot case None => multiset{} case Some(v) => multiset{v}
  }

  function DrainTryClear<T(==)>(s: State<T>, k: nat, flaky: bool): State<T>
    requires Formed(s) && k < |s.ops| && s.ops[k].DrainClear?
  {
    var DrainClear(claim, seen) := s.ops[k];
    if s.word == seen && !flaky then
      Finish(s, k, Drained).(word := ClearAll(s.word, claim), owner := OwnAll(s.owner, claim, None))
    else At(s, k, DrainClear(claim, s.word))
  }

  /** The rest of a claim, when the fold panics. */
  function Forsaken<T>(slots: seq<Option<T>>, claim: Bitmap, at: nat): (r: seq<Option<T>>)
    requires |slots| == |claim|
    ensures |r| == |slots| && forall i :: 0 <= i < |r| ==> r[i] == if i >= at && claim[i] then None else slots[i]
  {
    seq(|slots|, i requires 0 <= i < |slots| => if i >= at && claim[i] then None else slots[i])
  }

  function Panic<T(==)>(s: State<T>, k: nat): State<T>
    requires Formed(s) && k < |s.ops| && s.ops[k].DrainFold?
  {
    var DrainFold(claim, at, seen) := s.ops[k];
    var slots := Forsaken(s.slots, claim, at);
    At(s, k, DrainClear(claim, seen)).(slots := slots, lost := s.lost + (Stored(s.slots) - Stored(slots)))
  }

  /** The values in the slots. */
  function Stored<T(==)>(slots: seq<Option<T>>): multiset<T> {
    if slots == [] then multiset{}
    else Stored(slots[..|slots| - 1]) + Contents(slots[|slots| - 1])
  }

  /** One atomic step of operation `k`. */
  function Step<T(==)>(s: State<T>, k: nat, flaky: bool): State<T>
    requires Formed(s) && k < |s.ops|
  {
    match s.ops[k]
    case PushLoad(val, allowEmpty) => At(s, k, PushClaim(val, allowEmpty, s.word))
    case PushClaim(_, _, _) => PushTry(s, k, flaky)
    case PushWrite(val, allowEmpty, i) =>
      At(s, k, PushPublish(allowEmpty, i)).(slots := s.slots[i := Some(val)])
    case PushPublish(_, _) => Publish(s, k)
    case PushRollback(i) =>
      (match s.slots[i]
       case Some(v) => At(s, k, PushUndo(v, i)).(slots := s.slots[i := None])
       case None => s)
    case PushUndo(val, i) =>
      Finish(s, k, Rejected(val)).(word := s.word[i := false], owner := s.owner[i := None])
    case PopLoad => At(s, k, PopClaim(s.word))
    case PopClaim(_) => PopTry(s, k, flaky)
    case PopRead(i) =>
      (match s.slots[i]
       case Some(v) => At(s, k, PopClear(v, i)).(slots := s.slots[i := None])
       case None => s)
    case PopClear(_, _) => Clear(s, k)
    case DrainLoad => At(s, k, DrainClaim(s.word))
    case DrainClaim(_) => DrainTry(s, k, flaky)
    case DrainFold(_, _, _) => Fold(s, k)
    case DrainClear(_, _) => DrainTryClear(s, k, flaky)
    case Done(_) => s
  }

  datatype Action<T> =
    | StartPush(val: T, allowEmpty: bool) | StartPop | StartDrain
    | Advance(k: nat, flaky: bool) | Fail(k: nat)

  ghost predicate Can<T>(s: State<T>, a: Action<T>) {
    match a
    case Advance(k, _) => Formed(s) && k < |s.ops| && !s.ops[k].Done?
    case Fail(k) => Formed(s) && k < |s.ops| && s.ops[k].DrainFold?
    case _ => true
  }

  ghost function Do<T>(s: State<T>, a: Action<T>): State<T> {
    match a
    case StartPush(val, allowEmpty) =>
      s.(ops := s.ops + [PushLoad(val, allowEmpty)], pushed := s.pushed + multiset{val})
    case StartPop => s.(ops := s.ops + [PopLoad])
    case StartDrain => s.(ops := s.ops + [DrainLoad])
    case Advance(k, flaky) => if Can(s, a) then Step(s, k, flaky) else s
    case Fail(k) => if Can(s, a) then Panic(s, k) else s
  }

  /** A new array is empty, or, as a fallback array, holds one value. */
  ghost predicate Start<T>(s: State<T>) {
    && 1 <= s.len <= 32 && s.ops == [] && s.returned == multiset{} && s.lost == multiset{}
    && s.owner == seq(s.len, _ => None)
    && (|| (s.word == Zeros(WORD) && s.slots == seq(s.len, _ => None) && s.pushed == multiset{})
        || (s.word == Zeros(WORD)[s.len := true] && |s.slots| == s.len && s.slots[0].Some?
            && s.slots == seq(s.len, _ => None)[0 := s.slots[0]] && s.pushed == Contents(s.slots[0])))
  }

  ghost predicate Run<T>(states: seq<State<T>>, actions: seq<Action<T>>) {
    && |states| == |actions| + 1 && Start(states[0])
    && forall n :: 0 <= n < |actions| ==> Can(states[n], actions[n]) && states[n + 1] == Do(states[n], actions[n])
  }
}
