/** Iterating over a bag (`IterMut` in src/bag.rs): every occupied slot of every array once. */
module BagIteration {
  import opened Base
  import opened Bits
  import opened SlotProtocol
  import opened StorageCode
  import opened SlotSafety
  import opened BagCode
  import LC = ListCode
  import SC = StackCode

  /** Slot `slot` of array number `number`: 0 is the primary array, the fallback arrays follow. */
  datatype Place = Place(number: nat, slot: nat)

  /** The occupied slots of one array at or above `i`, in ascending order. */
  function Occupied(word: Bitmap, len: nat, i: nat, number: nat): seq<Place>
    requires |word| == WORD && i <= len <= 32
    decreases len - i
  {
    if i == len then []
    else (if Inst(word, len, i) then [Place(number, i)] else []) + Occupied(word, len, i + 1, number)
  }

  /** Those of the fallback arrays from number `k + 1` on. */
  function Places(words: seq<Bitmap>, len: nat, k: nat): seq<Place>
    requires len <= 32 && k <= |words| && forall n :: 0 <= n < |words| ==> |words[n]| == WORD
    decreases |words| - k
  {
    if k == |words| then [] else Occupied(words[k], len, 0, k) + Places(words, len, k + 1)
  }

  lemma {:induction false} OccupiedIs(word: Bitmap, len: nat, i: nat, number: nat)
    requires |word| == WORD && i <= len <= 32
    ensures forall p :: p in Occupied(word, len, i, number) <==>
      p.number == number && i <= p.slot < len && Inst(word, len, p.slot)
    ensures forall x, y :: 0 <= x < y < |Occupied(word, len, i, number)| ==>
      Occupied(word, len, i, number)[x].slot < Occupied(word, len, i, number)[y].slot
    decreases len - i
  {
    if i < len { OccupiedIs(word, len, i + 1, number); }
  }

  /** Every occupied slot is listed, nothing else is, and nothing is listed twice. */
  lemma {:induction false} EachPlaceOnce(words: seq<Bitmap>, len: nat, k: nat)
    requires len <= 32 && k <= |words| && forall n :: 0 <= n < |words| ==> |words[n]| == WORD
    ensures forall p :: p in Places(words, len, k) <==>
      k <= p.number < |words| && p.slot < len && Inst(words[p.number], len, p.slot)
    ensures forall x, y :: 0 <= x < y < |Places(words, len, k)| ==> Places(words, len, k)[x] != Places(words, len, k)[y]
    decreases |words| - k
  {
    if k < |words| {
      EachPlaceOnce(words, len, k + 1);
      OccupiedIs(words[k], len, 0, k);
      var here, later := Occupied(words[k], len, 0, k), Places(words, len, k + 1);
      hide Occupied, Inst;
      assert Places(words, len, k) == here + later;
      forall x, y | 0 <= x < y < |here + later|
        ensures (here + later)[x] != (here + later)[y]
      {
        if x < |here| { assert here[x] in here; }
        if y >= |here| { assert later[y - |here|] in later; }
      }
    }
  }

  lemma {:induction false} SkipVacant(word: Bitmap, len: nat, i: nat, j: nat, number: nat)
    requires |word| == WORD && i <= j <= len <= 32 && forall k :: i <= k < j ==> !Inst(word, len, k)
    ensures Occupied(word, len, i, number) == Occupied(word, len, j, number)
    decreases j - i
  {
    if i < j { SkipVacant(word, len, i + 1, j, number); }
  }

  /** The wrapping shift and the bit scan find the next occupied slot, or a position beyond the array,
      also when the shift amount reaches the width of the bitmap and wraps around to 0. */
  lemma ShiftFinds(word: Bitmap, len: nat, i: nat, number: nat)
    requires |word| == WORD && 1 <= len <= 32 && i <= len && forall j :: 2 * len <= j < WORD ==> !word[j]
    ensures var next := i + TrailingZeros(WrappingShr(Instances(word, len), i));
      && i <= next <= 64
      && (next < len ==>
            Occupied(word, len, i, number) == [Place(number, next)] + Occupied(word, len, next + 1, number))
      && (next >= len ==> Occupied(word, len, i, number) == [])
  {
    var bitmap := Instances(word, len);
    var shifted := WrappingShr(bitmap, i);
    var first := TrailingZeros(shifted);
    var next := i + first;
    if i < 32 {
      assert i % 32 == i;
      forall j | i <= j < len && j < next
        ensures !Inst(word, len, j)
      {
        assert shifted[j - i] == bitmap[j] == word[len + j];
      }
      if next < len { assert shifted[first] == bitmap[next] == word[len + next]; }
      SkipVacant(word, len, i, if next < len then next else len, number);
    }
  }

  const EXHAUSTED: nat := 0xFFFF_FFFF

  ghost predicate Whole(words: seq<Bitmap>, len: nat) {
    && 1 <= len <= 32
    && forall n :: 0 <= n < |words| ==> |words[n]| == WORD && forall j :: 2 * len <= j < WORD ==> !words[n][j]
  }

  /** What is still to come, from position `i` of array `number` on. */
  ghost function Ahead(words: seq<Bitmap>, len: nat, i: nat, number: nat): seq<Place>
    requires Whole(words, len) && number < |words| && (i <= len || i == EXHAUSTED)
  {
    if i == EXHAUSTED then [] else Occupied(words[number], len, i, number) + Places(words, len, number + 1)
  }

  /** `next` is the next occupied slot of the array, or lies beyond it. */
  ghost predicate Leads(words: seq<Bitmap>, len: nat, i: nat, number: nat, next: nat)
    requires Whole(words, len) && number < |words| && i <= len
  {
    && (next < len ==> Ahead(words, len, i, number) == [Place(number, next)] + Ahead(words, len, next + 1, number))
    && (next >= len ==>
          Ahead(words, len, i, number) == if number + 1 < |words| then Ahead(words, len, 0, number + 1) else [])
  }

  lemma AheadStep(words: seq<Bitmap>, len: nat, i: nat, number: nat)
    requires Whole(words, len) && number < |words| && i <= len
    ensures var next := i + TrailingZeros(WrappingShr(Instances(words[number], len), i));
      i <= next <= 64 && Leads(words, len, i, number, next)
  {
    hide *;
    WholeAt(words, len, number);
    ShiftFinds(words[number], len, i, number);
    var next := i + TrailingZeros(WrappingShr(Instances(words[number], len), i));
    LeadsOn(words, len, i, number, next);
  }

  lemma InstancesSize(word: Bitmap, len: nat)
    requires |word| == WORD && len <= 32
    ensures |Instances(word, len)| == 32
  {}

  lemma WholeAt(words: seq<Bitmap>, len: nat, number: nat)
    requires Whole(words, len) && number < |words|
    ensures 1 <= len <= 32 && |words[number]| == WORD && |Instances(words[number], len)| == 32
    ensures forall j :: 2 * len <= j < WORD ==> !words[number][j]
  {}

  lemma LeadsOn(words: seq<Bitmap>, len: nat, i: nat, number: nat, next: nat)
    requires Whole(words, len) && number < |words| && i <= len
    requires next < len ==>
      Occupied(words[number], len, i, number) == [Place(number, next)] + Occupied(words[number], len, next + 1, number)
    requires next >= len ==> Occupied(words[number], len, i, number) == []
    ensures Leads(words, len, i, number, next)
  {
    hide Occupied;
    var later := Places(words, len, number + 1);
    if next < len {
      assert Occupied(words[number], len, i, number) + later
          == [Place(number, next)] + (Occupied(words[number], len, next + 1, number) + later);
    } else {
      assert Occupied(words[number], len, i, number) + later == later;
    }
  }

  lemma LeadsIs(words: seq<Bitmap>, len: nat, i: nat, number: nat, next: nat)
    requires Whole(words, len) && number < |words| && i <= len && Leads(words, len, i, number, next)
    ensures next < len ==> Ahead(words, len, i, number) == [Place(number, next)] + Ahead(words, len, next + 1, number)
    ensures next >= len ==>
      Ahead(words, len, i, number) == if number + 1 < |words| then Ahead(words, len, 0, number + 1) else []
  {
    hide Ahead;
  }

  /** A slot, and the array it is in: what is yielded is a reference into it. */
  datatype Found<T> = Found(storage: Storage<T>, slot: nat)

  class IterMut<T(==)> {
    const bag: Bag<T>
    var currentIndex: nat
    var currentStackEntry: LC.Entry?<Storage<T>>
    ghost var number: nat
    ghost var position: nat

    /** `words` are the metadata words of all arrays. */
    ghost predicate Reads(words: seq<Bitmap>)
      reads bag`stack, bag.primary`word, (set s | s in bag.stack)`word
    {
      && |words| == |bag.stack| + 1 && words[0] == bag.primary.word
      && forall n :: 1 <= n < |words| ==> words[n] == bag.stack[n - 1].word
    }

    /** Where the iterator is: array `number`, which is at `position` in the list of entries. */
    ghost predicate Placed()
      reads this`currentStackEntry, this`number, this`position, bag`stack, bag.fallback, bag.fallback.entries
    {
      && bag.Linked() && number <= |bag.stack| && (currentStackEntry == null <==> number == 0)
      && (number > 0 ==>
            && position < |bag.fallback.entries| && bag.fallback.entries[position] == currentStackEntry
            && currentStackEntry.value == bag.stack[number - 1]
            && Mirrors(LC.Live(bag.fallback.entries[position + 1..]), bag.stack[number..]))
    }

    ghost predicate Valid(words: seq<Bitmap>)
      reads this, bag`stack, bag.primary`word, (set s | s in bag.stack)`word, bag.fallback, bag.fallback.entries
    {
      && Whole(words, bag.len) && Reads(words) && Placed()
      && number < |words| && (currentIndex <= bag.len || currentIndex == EXHAUSTED)
    }

    ghost function Remaining(words: seq<Bitmap>): seq<Place>
      requires Valid(words)
      reads this, bag`stack, bag.primary`word, (set s | s in bag.stack)`word, bag.fallback, bag.fallback.entries
    {
      Ahead(words, bag.len, currentIndex, number)
    }

    constructor (bag: Bag<T>, ghost words: seq<Bitmap>)
      requires bag.Linked() && Whole(words, bag.len) && |words| == |bag.stack| + 1
      requires words[0] == bag.primary.word && forall n :: 1 <= n < |words| ==> words[n] == bag.stack[n - 1].word
      ensures this.bag == bag && Valid(words) && Remaining(words) == Places(words, bag.len, 0)
    {
      this.bag := bag;
      currentIndex, currentStackEntry := 0, null;
      number, position := 0, 0;
    }

    lemma ValidIs(words: seq<Bitmap>)
      ensures Valid(words) <==>
        && Whole(words, bag.len) && Reads(words) && Placed() && number < |words|
        && (currentIndex <= bag.len || currentIndex == EXHAUSTED)
      ensures Valid(words) ==>
        1 <= bag.len <= 32 < EXHAUSTED && Remaining(words) == Ahead(words, bag.len, currentIndex, number)
    {
      hide Ahead, IterMut.Reads, IterMut.Placed;
    }

    lemma PlacedIs()
      ensures Placed() <==>
        && bag.Linked() && number <= |bag.stack| && (currentStackEntry == null <==> number == 0)
        && (number > 0 ==>
              && position < |bag.fallback.entries| && bag.fallback.entries[position] == currentStackEntry
              && currentStackEntry.value == bag.stack[number - 1]
              && Mirrors(LC.Live(bag.fallback.entries[position + 1..]), bag.stack[number..]))
    {
      hide Mirrors, LC.Live, Bag.Linked;
    }

    /** The array with a number. */
    ghost function ArrayAt(n: nat): Storage<T>
      requires n <= |bag.stack|
      reads bag`stack
    {
      if n == 0 then bag.primary else bag.stack[n - 1]
    }

    /** The array the iterator is in. */
    method Current(ghost words: seq<Bitmap>) returns (storage: Storage<T>)
      requires Valid(words)
      ensures storage == ArrayAt(number) && storage.word == words[number]
      ensures |storage.word| == WORD && 1 <= bag.len <= 32 && |bag.stack| + 1 == |words|
    {
      hide Mirrors, LC.Live, Bag.Linked, Ahead;
      storage := if currentStackEntry != null then currentStackEntry.value else bag.primary;
    }

    /** Moves on to the next array, if there is one. */
    method NextArray()
      requires Placed() && currentIndex == EXHAUSTED
      modifies this`currentIndex, this`currentStackEntry, this`number, this`position
      modifies bag.fallback, bag.fallback.entries
      ensures Placed()
      ensures SC.Within(bag.fallback.entries, old(bag.fallback.entries))
      ensures if old(number) < |bag.stack| then currentIndex == 0 && number == old(number) + 1
              else currentIndex == EXHAUSTED && number == old(number)
    {
      hide *;
      PlacedIs();
      ghost var i, k := 0, number;
      var next;
      if currentStackEntry != null {
        i := position + 1;
        next := bag.Onward(currentStackEntry, position, number - 1);
      } else {
        next := bag.Peek();
        bag.FirstEntry(next);
      }
      NextOf(bag.fallback.entries, i, bag.stack, k);
      if next != null {
        currentStackEntry, currentIndex := next, 0;
        number, position := number + 1, i;
      }
      PlacedIs();
    }

    /** Scans an array for the next occupied slot. */
    method Look(storage: Storage<T>, ghost words: seq<Bitmap>) returns (next: nat)
      requires Valid(words) && currentIndex <= bag.len && storage.word == words[number] && |storage.word| == WORD
      ensures next <= 64 && Leads(words, bag.len, currentIndex, number, next)
    {
      hide *;
      ValidIs(words);
      InstancesSize(storage.word, bag.len);
      AheadStep(words, bag.len, currentIndex, number);
      var firstOccupied := TrailingZeros(WrappingShr(Instances(storage.word, bag.len), currentIndex));
      next := currentIndex + firstOccupied;
    }

    /** Yields the slots in order, and none when there are no more; `words` are the metadata words of
        all arrays. */
    method Next(ghost words: seq<Bitmap>) returns (found: Option<Found<T>>)
      requires Valid(words)
      modifies this`currentIndex, this`currentStackEntry, this`number, this`position
      modifies bag.fallback, bag.fallback.entries
      ensures Valid(words)
      ensures old(Remaining(words)) == [] ==> found == None && Remaining(words) == []
      ensures old(Remaining(words)) != [] ==>
        var place := old(Remaining(words))[0];
        && place.number <= |bag.stack| && found == Some(Found(ArrayAt(place.number), place.slot))
        && Remaining(words) == old(Remaining(words))[1..]
    {
      hide *;
      ghost var all, entries := Remaining(words), bag.fallback.entries;
      SC.Itself(entries);
      ValidIs(words);
      while currentIndex != EXHAUSTED
        invariant Valid(words) && Remaining(words) == all
        invariant SC.Within(bag.fallback.entries, entries)
        decreases |words| - number, if currentIndex == EXHAUSTED then 0 else 1
      {
        ValidIs(words);
        var storage := Current(words);
        var nextOccupied := Look(storage, words);
        LeadsIs(words, bag.len, currentIndex, number, nextOccupied);
        currentIndex := nextOccupied + 1;
        if nextOccupied < bag.len {
          ValidIs(words);
          return Some(Found(storage, nextOccupied));
        }
        currentIndex := EXHAUSTED;
        NothingAhead(words, bag.len, number);
        ghost var left := bag.fallback.entries;
        SC.WithinIs(left, left, entries) by { SC.Itself(left); }
        NextArray();
        SC.WithinIs(bag.fallback.entries, left, entries);
        ValidIs(words);
      }
      ValidIs(words);
      NothingAhead(words, bag.len, number);
      found := None;
    }
  }

  lemma NothingAhead(words: seq<Bitmap>, len: nat, n: nat)
    requires Whole(words, len) && n < |words|
    ensures Ahead(words, len, EXHAUSTED, n) == []
  {}
}
