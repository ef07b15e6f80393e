/** The slot array of a bag as a mutable object (`Storage` in src/bag.rs), run by one thread.  Slots
    may be owned by other operations that do not move meanwhile. */
module StorageCode {
  import opened Base
  import opened Bits
  import opened SlotProtocol
  import opened SlotSafety

  /** The values in live slots at or above `i`, in ascending order. */
  function LiveValues<T>(word: Bitmap, slots: seq<Option<T>>, len: nat, i: nat): seq<T>
    requires |word| == WORD && |slots| == len <= 32 && i <= len
    decreases len - i
  {
    if i == len then []
    else (if Live(word, len, i) && slots[i].Some? then [slots[i].value] else []) + LiveValues(word, slots, len, i + 1)
  }

  /** The number of live slots below `i`. */
  function LiveBelow(word: Bitmap, len: nat, i: nat): nat
    requires |word| == WORD && i <= len <= 32
  {
    if i == 0 then 0 else LiveBelow(word, len, i - 1) + if Live(word, len, i - 1) then 1 else 0
  }

  /** Nothing is owned, and every value is in a live slot. */
  ghost predicate Rest<T>(word: Bitmap, slots: seq<Option<T>>, len: nat) {
    && 1 <= len <= 32 && |word| == WORD && |slots| == len
    && forall i :: 0 <= i < len ==> SlotRest(word, slots, len, i)
  }

  predicate SlotRest<T>(word: Bitmap, slots: seq<Option<T>>, len: nat, i: nat)
    requires |word| == WORD && |slots| == len <= 32 && i < len
  {
    !Own(word, i) && (slots[i].Some? <==> Inst(word, len, i))
  }

  lemma SlotUpdate<T>(word: Bitmap, slots: seq<Option<T>>, len: nat, i: nat, slot: Option<T>, j: nat)
    requires |word| == WORD && |slots| == len <= 32 && i < len && j < len && SlotRest(word, slots, len, j)
    requires j == i ==> !Own(word, i)
    ensures SlotRest(word[len + i := slot.Some?], slots[i := slot], len, j)
  {}

  lemma RestUpdate<T>(word: Bitmap, slots: seq<Option<T>>, len: nat, i: nat, slot: Option<T>)
    requires Rest(word, slots, len) && i < len
    ensures Rest(word[len + i := slot.Some?], slots[i := slot], len)
  {
    var word', slots' := word[len + i := slot.Some?], slots[i := slot];
    forall j | 0 <= j < len
      ensures SlotRest(word', slots', len, j)
    {
      assert SlotRest(word, slots, len, j);
      SlotUpdate(word, slots, len, i, slot, j);
    }
    hide SlotRest;
  }

  lemma PlusNothing<T>(m: multiset<T>)
    ensures m + multiset{} == m
  {}

  lemma PushRest<T>(word: Bitmap, slots: seq<Option<T>>, len: nat, i: nat, val: T)
    requires Rest(word, slots, len) && i < len && Free(word, len, i)
    ensures Rest(word[len + i := true], slots[i := Some(val)], len)
    ensures Stored(slots[i := Some(val)]) == Stored(slots) + multiset{val}
  {
    assert SlotRest(word, slots, len, i);
    RestUpdate(word, slots, len, i, Some(val));
    StoredUpdate(slots, i, Some(val));
    hide Stored, Rest;
    PlusNothing(Stored(slots[i := Some(val)]));
  }

  lemma PopRest<T>(word: Bitmap, slots: seq<Option<T>>, len: nat, i: nat)
    requires Rest(word, slots, len) && i < len && Live(word, len, i)
    ensures Rest(word[len + i := false], slots[i := None], len) && slots[i].Some?
    ensures Stored(slots) == Stored(slots[i := None]) + multiset{slots[i].value}
  {
    assert SlotRest(word, slots, len, i);
    RestUpdate(word, slots, len, i, None);
    StoredUpdate(slots, i, None);
    hide Stored, Rest;
    PlusNothing(Stored(slots));
  }

  /** Without live slots there are no values. */
  lemma RestEmpty<T>(word: Bitmap, slots: seq<Option<T>>, len: nat)
    requires Rest(word, slots, len)
    ensures !AnyLive(word, len) <==> Stored(slots) == multiset{}
  {
    if AnyLive(word, len) {
      var i :| 0 <= i < len && Live(word, len, i);
      PopRest(word, slots, len, i);
      hide Stored;
      assert slots[i].value in Stored(slots);
    } else {
      forall i | 0 <= i < len
        ensures slots[i].None?
      {
        assert SlotRest(word, slots, len, i) && !Live(word, len, i);
      }
      StoredNone(slots);
    }
  }

  /** The instance bitmap is empty exactly when there is nothing left. */
  lemma RestBare<T>(word: Bitmap, slots: seq<Option<T>>, len: nat)
    requires Rest(word, slots, len) && forall j :: 2 * len <= j < WORD ==> !word[j]
    ensures Instances(word, len) == Zeros(32) <==> !AnyLive(word, len)
  {
    var instances := Instances(word, len);
    if !AnyLive(word, len) {
      forall i | 0 <= i < 32
        ensures !instances[i]
      {
        assert instances[i] == word[len + i];
        if i < len { assert SlotRest(word, slots, len, i) && !Live(word, len, i); }
      }
    }
    if instances == Zeros(32) {
      forall i | 0 <= i < len
        ensures !Live(word, len, i)
      {
        assert instances[i] == word[len + i];
      }
    }
  }

  /** The values in the slots below `n`. */
  lemma {:induction false} RestCounts<T>(word: Bitmap, slots: seq<Option<T>>, len: nat, n: nat)
    requires Rest(word, slots, len) && n <= len
    ensures LiveBelow(word, len, n) == |Stored(slots[..n])|
  {
    if n > 0 {
      RestCounts(word, slots, len, n - 1);
      assert SlotRest(word, slots, len, n - 1);
      assert slots[..n][..n - 1] == slots[..n - 1];
    }
  }

  lemma SumShift<T>(a: multiset<T>, b: multiset<T>, c: multiset<T>, d: multiset<T>)
    requires a == (b + c) + d
    ensures a == b + (c + d)
  {}

  lemma NextValue<T>(word: Bitmap, slots: seq<Option<T>>, len: nat, n: nat) returns (one: seq<T>)
    requires Rest(word, slots, len) && n < len
    ensures LiveValues(word, slots, len, n) == one + LiveValues(word, slots, len, n + 1)
    ensures multiset(one) == Contents(slots[n])
    ensures Stored(slots[..n + 1]) == Stored(slots[..n]) + Contents(slots[n])
  {
    assert SlotRest(word, slots, len, n);
    assert slots[..n + 1][..n] == slots[..n];
    one := if slots[n].Some? then [slots[n].value] else [];
  }

  lemma {:induction false} RestValues<T>(word: Bitmap, slots: seq<Option<T>>, len: nat, n: nat)
    requires Rest(word, slots, len) && n <= len == |slots|
    ensures Stored(slots) == Stored(slots[..n]) + multiset(LiveValues(word, slots, len, n))
    decreases len - n
  {
    if n == len {
      assert slots[..n] == slots;
      PlusNothing(Stored(slots));
    } else {
      hide *;
      RestValues(word, slots, len, n + 1);
      var one := NextValue(word, slots, len, n);
      SumShift(Stored(slots), Stored(slots[..n]), multiset(one), multiset(LiveValues(word, slots, len, n + 1)));
    }
  }

  lemma PopAllRest<T>(word: Bitmap, slots: seq<Option<T>>, len: nat)
    requires Rest(word, slots, len)
    ensures multiset(LiveValues(word, slots, len, 0)) == Stored(slots)
    ensures var word', slots' := ClearAll(word, LiveSlots(word, len)), Forsaken(slots, LiveSlots(word, len), 0);
      Rest(word', slots', len) && Stored(slots') == multiset{}
  {
    hide *;
    RestShape(word, slots, len);
    RestValues(word, slots, len, 0);
    NothingBelow(slots);
    var word', slots' := ClearAll(word, LiveSlots(word, len)), Forsaken(slots, LiveSlots(word, len), 0);
    forall i | 0 <= i < len
      ensures SlotRest(word', slots', len, i) && slots'[i].None?
    {
      SlotCleared(word, slots, len, i);
    }
    RestFrom(word', slots', len);
    StoredNone(slots');
  }

  lemma RestShape<T>(word: Bitmap, slots: seq<Option<T>>, len: nat)
    requires Rest(word, slots, len)
    ensures 1 <= len <= 32 && |word| == WORD && |slots| == len && 2 * len <= |word|
    ensures forall i :: 0 <= i < len ==> SlotRest(word, slots, len, i)
  {}

  lemma RestFrom<T>(word: Bitmap, slots: seq<Option<T>>, len: nat)
    requires 1 <= len <= 32 && |word| == WORD && |slots| == len
    requires forall i :: 0 <= i < len ==> SlotRest(word, slots, len, i)
    ensures Rest(word, slots, len)
  {}

  lemma SlotCleared<T>(word: Bitmap, slots: seq<Option<T>>, len: nat, i: nat)
    requires 1 <= len <= 32 && |word| == WORD && |slots| == len && i < len && SlotRest(word, slots, len, i)
    ensures var word', slots' := ClearAll(word, LiveSlots(word, len)), Forsaken(slots, LiveSlots(word, len), 0);
      |word'| == WORD && |slots'| == len && SlotRest(word', slots', len, i) && slots'[i].None?
  {
    var live := LiveSlots(word, len);
    assert live[i] == Live(word, len, i);
    hide LiveSlots, ClearAll, Forsaken;
  }

  lemma AllCount<T>(word: Bitmap, slots: seq<Option<T>>, len: nat)
    requires Rest(word, slots, len)
    ensures LiveBelow(word, len, len) == |Stored(slots)|
  {
    RestCounts(word, slots, len, len);
    assert slots[..len] == slots;
  }

  lemma FirstsAre(word: Bitmap, len: nat)
    requires |word| == WORD && len <= 32
    ensures FirstFree(word, len, 0) < len ==> Free(word, len, FirstFree(word, len, 0))
    ensures if FirstLive(word, len, 0) < len then Live(word, len, FirstLive(word, len, 0)) && AnyLive(word, len)
            else FirstLive(word, len, 0) == len && !AnyLive(word, len)
  {}

  /** What `Push` means for an array at rest. */
  lemma PushMeans<T>(word: Bitmap, slots: seq<Option<T>>, len: nat, val: T)
    requires Rest(word, slots, len)
    ensures var i := FirstFree(word, len, 0);
      i < len ==> Rest(word[len + i := true], slots[i := Some(val)], len)
                  && Stored(slots[i := Some(val)]) == Stored(slots) + multiset{val}
    ensures AnyLive(word, len) <==> Stored(slots) != multiset{}
  {
    hide *;
    RestShape(word, slots, len);
    FirstsAre(word, len);
    var i := FirstFree(word, len, 0);
    if i < len { PushRest(word, slots, len, i, val); }
    RestEmpty(word, slots, len);
  }

  /** What `Pop` means for an array at rest. */
  lemma PopMeans<T>(word: Bitmap, slots: seq<Option<T>>, len: nat)
    requires Rest(word, slots, len) && forall j :: 2 * len <= j < WORD ==> !word[j]
    ensures var i := FirstLive(word, len, 0); var word' := if i < len then word[len + i := false] else word;
      && (i == len <==> Stored(slots) == multiset{})
      && (i < len ==>
            slots[i].Some? && Rest(word', slots[i := None], len)
            && Stored(slots) == Stored(slots[i := None]) + multiset{slots[i].value}
            && ((Instances(word', len) == Zeros(32)) <==> Stored(slots[i := None]) == multiset{}))
  {
    hide *;
    RestShape(word, slots, len);
    FirstsAre(word, len);
    var i := FirstLive(word, len, 0);
    RestEmpty(word, slots, len);
    if i < len {
      PopRest(word, slots, len, i);
      RestEmpty(word[len + i := false], slots[i := None], len);
      RestBare(word[len + i := false], slots[i := None], len);
    }
  }

  lemma NothingBelow<T>(slots: seq<Option<T>>)
    ensures Stored(slots[..0]) == multiset{}
  {}

  lemma ReachableBits(word: Bitmap, len: nat)
    requires |word| == WORD && len <= 32 && forall j :: 2 * len <= j < WORD ==> !word[j]
    ensures var live := And(Instances(word, len), Not(Owned(word, len)));
      && |live| == 32 && (forall i :: 0 <= i < len ==> live[i] == Live(word, len, i))
      && (forall i :: len <= i < 32 ==> !live[i])
  {
    assert forall i :: 0 <= i < 32 ==> Instances(word, len)[i] == word[len + i];
  }

  lemma {:induction false} CountLive(live: Bitmap, word: Bitmap, len: nat, n: nat)
    requires |word| == WORD && len <= n <= |live| == 32
    requires (forall i :: 0 <= i < len ==> live[i] == Live(word, len, i)) && (forall i :: len <= i < 32 ==> !live[i])
    ensures CountOnes(live[..n]) == LiveBelow(word, len, len)
    decreases n
  {
    if n > len {
      assert live[..n][..n - 1] == live[..n - 1];
      CountLive(live, word, len, n - 1);
    } else {
      CountLiveBelow(live, word, len, len);
    }
  }

  lemma {:induction false} CountLiveBelow(live: Bitmap, word: Bitmap, len: nat, n: nat)
    requires |word| == WORD && n <= len <= |live| == 32 && forall i :: 0 <= i < len ==> live[i] == Live(word, len, i)
    ensures CountOnes(live[..n]) == LiveBelow(word, len, n)
    decreases n
  {
    if n > 0 {
      assert live[..n][..n - 1] == live[..n - 1];
      CountLiveBelow(live, word, len, n - 1);
    }
  }

  class Storage<T(==)> {
    const len: nat
    const slots: array<Option<T>>
    var word: Bitmap

    predicate Formed()
      reads this
    {
      1 <= len <= 32 && slots.Length == len && |word| == WORD && forall j :: 2 * len <= j < WORD ==> !word[j]
    }

    /** Every value is in a live slot, and nothing is owned. */
    ghost predicate AtRest()
      reads this, slots
    {
      Formed() && Rest(word, slots[..], len)
    }

    ghost function Values(): multiset<T>
      reads slots
    {
      Stored(slots[..])
    }

    constructor (len: nat)
      requires 1 <= len <= 32
      ensures this.len == len && fresh(slots) && AtRest() && word == Zeros(WORD) && Values() == multiset{}
    {
      this.len := len;
      slots := new Option<T>[len](_ => None);
      word := Zeros(WORD);
      new;
      StoredNone(slots[..]);
    }

    constructor WithVal(len: nat, val: T)
      requires 1 <= len <= 32
      ensures this.len == len && fresh(slots) && AtRest() && word == Zeros(WORD)[len := true]
      ensures Values() == multiset{val}
    {
      this.len := len;
      slots := new Option<T>[len](_ => None);
      word := Zeros(WORD)[len := true];
      new;
      StoredOne(slots[..], Some(val));
      ghost var before := slots[..];
      slots[0] := Some(val);
      assert slots[..] == before[0 := Some(val)];
    }

    /** The number of live slots. */
    method Len() returns (n: nat)
      requires Formed()
      ensures n == LiveBelow(word, len, len)
      ensures AtRest() ==> n == |Values()|
    {
      if Rest(word, slots[..], len) { AllCount(word, slots[..], len); }
      var instances, owned := Instances(word, len), Owned(word, len);
      var live := And(instances, Not(owned));
      n := CountOnes(live);
      ReachableBits(word, len);
      CountLive(live, word, len, 32);
      assert live[..32] == live;
    }

    /** A value in a claimed slot becomes reachable, unless the array has no live slot and may not be
        revived; then it is taken out again. */
    method Publish(index: nat, allowEmpty: bool) returns (rejected: Option<T>)
      requires Formed() && index < len && Own(word, index) && !Inst(word, len, index) && slots[index].Some?
      modifies this`word, slots
      ensures Formed()
      ensures allowEmpty || AnyLive(old(word), len) ==>
        rejected == None && word == old(word)[index := false][len + index := true] && slots[..] == old(slots[..])
      ensures !allowEmpty && !AnyLive(old(word), len) ==>
        rejected == old(slots[index]) && word == old(word)[index := false] && slots[..] == old(slots[..])[index := None]
    {
      ReachableBits(word, len);
      ghost var live := And(Instances(word, len), Not(Owned(word, len)));
      assert (live == Zeros(32)) == !AnyLive(word, len) by { LiveMask(live, word, len); }
      if !allowEmpty && And(Instances(word, len), Not(Owned(word, len))) == Zeros(32) {
        rejected := slots[index];
        slots[index] := None;
        word := word[index := false];
      } else {
        rejected := None;
        word := word[index := false][len + index := true];
      }
    }

    /** Stores `val` in the lowest slot that is neither instantiated nor owned; if there is none, or if
        the array has no live slot and may not be revived, `val` is given back. */
    method Push(val: T, allowEmpty: bool) returns (rejected: Option<T>)
      requires Formed()
      modifies this`word, slots
      ensures Formed()
      ensures var i := FirstFree(old(word), len, 0);
        if (allowEmpty || AnyLive(old(word), len)) && i < len
        then rejected == None && word == old(word)[len + i := true] && slots[..] == old(slots[..])[i := Some(val)]
        else rejected == Some(val) && word == old(word) && slots[..] == old(slots[..])
    {
      var instances, owned := Instances(word, len), Owned(word, len);
      ReachableBits(word, len);
      LiveMask(And(instances, Not(owned)), word, len);
      if !allowEmpty && And(instances, Not(owned)) == Zeros(32) {
        return Some(val);
      }
      var index := TrailingOnes(instances);
      while index < len
        invariant |instances| == 32 && index <= 32 && index == TrailingOnes(instances)
        invariant forall j :: 0 <= j < len ==>
          (instances[j] ==> !Free(word, len, j)) && (Inst(word, len, j) ==> instances[j])
        invariant word == old(word) && slots[..] == old(slots[..])
        decreases 32 - index
      {
        if !owned[index] {
          FirstFreeIs(word, len, index);
          word := word[index := true];
          slots[index] := Some(val);
          StillLive(old(word), len, index);
          rejected := Publish(index, allowEmpty);
          return;
        }
        instances := instances[index := true];
        index := TrailingOnes(instances);
      }
      FirstFreeIs(word, len, len);
      return Some(val);
    }

    /** Takes the value out of the lowest live slot; `empty` says whether no instance is left. */
    method Pop() returns (val: Option<T>, empty: bool)
      requires Formed() && forall i :: 0 <= i < len && Live(word, len, i) ==> slots[i].Some?
      modifies this`word, slots
      ensures Formed()
      ensures var i := FirstLive(old(word), len, 0);
        if i < len
        then val == old(slots[..])[i] && word == old(word)[len + i := false]
             && slots[..] == old(slots[..])[i := None] && empty == (Instances(word, len) == Zeros(32))
        else val == None && !empty && word == old(word) && slots[..] == old(slots[..])
    {
      var inverted, owned := Not(Instances(word, len)), Owned(word, len);
      var index := TrailingOnes(inverted);
      while index < len
        invariant |inverted| == 32 && index <= 32 && index == TrailingOnes(inverted)
        invariant forall j :: 0 <= j < len ==>
          (inverted[j] ==> !Live(word, len, j)) && (!Inst(word, len, j) ==> inverted[j])
        invariant word == old(word) && slots[..] == old(slots[..])
        decreases 32 - index
      {
        if !owned[index] {
          FirstLiveIs(word, len, index);
          word := word[index := true];
          val := slots[index];
          slots[index] := None;
          word := word[index := false][len + index := false];
          empty := Instances(word, len) == Zeros(32);
          return;
        }
        inverted := inverted[index := true];
        index := TrailingOnes(inverted);
      }
      FirstLiveIs(word, len, len);
      return None, false;
    }

    /** Folds the claimed values, lowest slot first. */
    method Fold(toPop: Bitmap, ghost was: Bitmap) returns (values: seq<T>)
      requires 1 <= len <= 32 && slots.Length == len && |was| == WORD && |toPop| == 32
      requires forall i :: 0 <= i < len ==> toPop[i] == Live(was, len, i) && (toPop[i] ==> slots[i].Some?)
      requires forall i :: len <= i < 32 ==> !toPop[i]
      modifies slots
      ensures values == LiveValues(was, old(slots[..]), len, 0)
      ensures forall j :: 0 <= j < len ==> slots[j] == if toPop[j] then None else old(slots[j])
    {
      ghost var before := slots[..];
      values := [];
      var index := TrailingZeros(toPop);
      SkipDead(was, before, len, 0, Min(index, len));
      hide LiveValues, Live;
      while index < len
        invariant index <= 32 && (index < 32 ==> toPop[index])
        invariant forall j :: 0 <= j < len ==> slots[j] == if j < index && toPop[j] then None else before[j]
        invariant values + LiveValues(was, before, len, Min(index, len)) == LiveValues(was, before, len, 0)
        decreases 32 - index
      {
        FoldStep(was, before, len, index, toPop);
        values := values + [slots[index].value];
        slots[index] := None;
        index := TrailingZeros(DropLow(toPop, index + 1));
      }
      NothingAtEnd(was, before, len);
    }

    /** Takes out all live values at once. */
    method PopAll() returns (values: seq<T>)
      requires Formed() && forall i :: 0 <= i < len && Live(word, len, i) ==> slots[i].Some?
      modifies this`word, slots
      ensures Formed()
      ensures values == LiveValues(old(word), old(slots[..]), len, 0)
      ensures word == ClearAll(old(word), LiveSlots(old(word), len))
      ensures slots[..] == Forsaken(old(slots[..]), LiveSlots(old(word), len), 0)
    {
      var instances, owned := Instances(word, len), Owned(word, len);
      var toPop := And(instances, Not(owned));
      ReachableBits(word, len);
      LiveMask(toPop, word, len);
      ClaimMask(toPop, word, len);
      ghost var was, before := word, slots[..];
      hide Instances, Owned, Live, LiveSlots, LiveValues, ClearAll, ClaimAll, Forsaken, AnyLive, Rest, Stored;
      if toPop == Zeros(32) {
        NoLiveValues(was, before, len, 0);
        ClearNothing(word, LiveSlots(word, len));
        ForsakenIs(before, slots[..], toPop[..len]);
        return [];
      }
      word := ClaimAll(word, toPop[..len]);
      values := Fold(toPop, was);
      ForsakenIs(before, slots[..], toPop[..len]);
      ClearClaimed(was, toPop[..len]);
      word := ClearAll(word, toPop[..len]);
    }
  }

  lemma NothingAtEnd<T>(word: Bitmap, slots: seq<Option<T>>, len: nat)
    requires |word| == WORD && |slots| == len <= 32
    ensures LiveValues(word, slots, len, len) == []
  {}

  lemma ForsakenIs<T>(before: seq<Option<T>>, after: seq<Option<T>>, claim: Bitmap)
    requires |before| == |after| == |claim|
    requires forall j :: 0 <= j < |claim| ==> after[j] == if claim[j] then None else before[j]
    ensures after == Forsaken(before, claim, 0)
  {}

  /** The live slots as the machine's claim says them. */
  lemma ClaimMask(live: Bitmap, word: Bitmap, len: nat)
    requires |word| == WORD && len <= |live| == 32 && forall i :: 0 <= i < len ==> live[i] == Live(word, len, i)
    ensures live[..len] == LiveSlots(word, len)
  {}

  lemma LiveMask(live: Bitmap, word: Bitmap, len: nat)
    requires |word| == WORD && len <= |live| == 32
    requires (forall i :: 0 <= i < len ==> live[i] == Live(word, len, i)) && (forall i :: len <= i < 32 ==> !live[i])
    ensures live == Zeros(32) <==> !AnyLive(word, len)
  {}

  lemma FirstFreeIs(word: Bitmap, len: nat, i: nat)
    requires |word| == WORD && i <= len <= 32 && (i < len ==> Free(word, len, i))
    requires forall j :: 0 <= j < i ==> !Free(word, len, j)
    ensures FirstFree(word, len, 0) == i
  {}

  lemma FirstLiveIs(word: Bitmap, len: nat, i: nat)
    requires |word| == WORD && i <= len <= 32 && (i < len ==> Live(word, len, i))
    requires forall j :: 0 <= j < i ==> !Live(word, len, j)
    ensures FirstLive(word, len, 0) == i
  {}

  function Min(a: nat, b: nat): nat { if a < b then a else b }

  /** From one live slot to the next. */
  lemma FoldStep<T>(word: Bitmap, slots: seq<Option<T>>, len: nat, i: nat, live: Bitmap)
    requires |word| == WORD && |slots| == len <= 32 && i < len && |live| == 32
    requires forall k :: 0 <= k < len ==> live[k] == Live(word, len, k)
    requires live[i] && slots[i].Some?
    ensures var j := TrailingZeros(DropLow(live, i + 1));
      && i < j && (forall k :: i < k < j && k < 32 ==> !live[k])
      && LiveValues(word, slots, len, i) == [slots[i].value] + LiveValues(word, slots, len, Min(j, len))
  {
    var j := TrailingZeros(DropLow(live, i + 1));
    SkipDead(word, slots, len, i + 1, Min(j, len));
  }

  /** There is nothing to fold between live slots. */
  lemma {:induction false} SkipDead<T>(word: Bitmap, slots: seq<Option<T>>, len: nat, i: nat, j: nat)
    requires |word| == WORD && |slots| == len <= 32 && i <= j <= len && forall k :: i <= k < j ==> !Live(word, len, k)
    ensures LiveValues(word, slots, len, i) == LiveValues(word, slots, len, j)
    decreases j - i
  {
    if i < j { SkipDead(word, slots, len, i + 1, j); }
  }

  lemma NoLiveValues<T>(word: Bitmap, slots: seq<Option<T>>, len: nat, i: nat)
    requires |word| == WORD && |slots| == len <= 32 && i <= len
    ensures !AnyLive(word, len) ==> LiveValues(word, slots, len, i) == []
  {
    if !AnyLive(word, len) { SkipDead(word, slots, len, i, len); }
  }

  lemma ClearNothing(word: Bitmap, claim: Bitmap)
    requires |word| == WORD && |claim| <= 32 && forall i :: 0 <= i < |claim| ==> !claim[i]
    ensures ClearAll(word, claim) == word
  {}

  lemma ClearClaimed(word: Bitmap, claim: Bitmap)
    requires |word| == WORD && |claim| <= 32
    ensures ClearAll(ClaimAll(word, claim), claim) == ClearAll(word, claim)
  {}

  /** Claiming a free slot leaves the live slots as they are. */
  lemma StillLive(word: Bitmap, len: nat, i: nat)
    requires |word| == WORD && i < len <= 32 && Free(word, len, i)
    ensures AnyLive(word[i := true], len) == AnyLive(word, len)
  {
    var claimed := word[i := true];
    assert forall j :: 0 <= j < len ==> Live(claimed, len, j) == Live(word, len, j);
    hide Live;
  }

  // ---------------------------------------------------------------- arrays at rest

  lemma RestLive<T>(word: Bitmap, slots: seq<Option<T>>, len: nat)
    requires Rest(word, slots, len)
    ensures forall i :: 0 <= i < len && Live(word, len, i) ==> slots[i].Some?
  {
    forall i | 0 <= i < len && Live(word, len, i)
      ensures slots[i].Some?
    {
      assert SlotRest(word, slots, len, i);
    }
  }

  /** `Push` on an array at rest: the value is accepted if a slot is free and the array is not empty,
      or may be. */
  method PushInto<T>(s: Storage<T>, val: T, allowEmpty: bool) returns (rejected: Option<T>)
    requires s.AtRest()
    modifies s`word, s.slots
    ensures s.AtRest()
    ensures var ok := (allowEmpty || old(s.Values()) != multiset{}) && FirstFree(old(s.word), s.len, 0) < s.len;
      && rejected == (if ok then None else Some(val))
      && s.Values() == if ok then old(s.Values()) + multiset{val} else old(s.Values())
  {
    PushMeans(s.word, s.slots[..], s.len, val);
    hide Rest, Stored, AnyLive, FirstFree;
    rejected := s.Push(val, allowEmpty);
  }

  /** `Pop` on an array at rest. */
  method PopFrom<T>(s: Storage<T>) returns (val: Option<T>, empty: bool)
    requires s.AtRest()
    modifies s`word, s.slots
    ensures s.AtRest()
    ensures val == None <==> old(s.Values()) == multiset{}
    ensures val == None ==> s.Values() == multiset{}
    ensures val.Some? ==> old(s.Values()) == s.Values() + multiset{val.value}
    ensures empty == (val.Some? && s.Values() == multiset{})
  {
    PopMeans(s.word, s.slots[..], s.len);
    RestLive(s.word, s.slots[..], s.len);
    hide Rest, Stored, AnyLive, FirstLive, Instances;
    val, empty := s.Pop();
  }

  /** `PopAll` on an array at rest. */
  method DrainFrom<T>(s: Storage<T>) returns (values: seq<T>)
    requires s.AtRest()
    modifies s`word, s.slots
    ensures s.AtRest() && multiset(values) == old(s.Values()) && s.Values() == multiset{}
  {
    PopAllRest(s.word, s.slots[..], s.len);
    RestLive(s.word, s.slots[..], s.len);
    hide Rest, Stored, AnyLive, LiveValues, ClearAll, Forsaken, LiveSlots;
    values := s.PopAll();
  }

  /** `Len` on an array at rest. */
  method CountIn<T>(s: Storage<T>) returns (n: nat)
    requires s.AtRest()
    ensures n == |s.Values()|
  {
    hide Rest, Stored;
    n := s.Len();
  }
}
