/** The bag (`Bag` in src/bag.rs) run by one thread: a primary array and a stack of fallback arrays,
    newest first, which together are a multiset. */
module BagCode {
  import opened Base
  import opened Bits
  import opened SlotProtocol
  import opened SlotSafety
  import opened StorageCode
  import LC = ListCode
  import SC = StackCode

  ghost function Arrays<T>(stack: seq<Storage<T>>): set<object> { set s | s in stack :: s.slots }

  /** The values of all arrays. */
  ghost function ValuesOf<T>(stack: seq<Storage<T>>): multiset<T>
    reads Arrays(stack)
  {
    if stack == [] then multiset{} else stack[0].Values() + ValuesOf(stack[1..])
  }

  /** A fallback array is at rest, and is deleted as soon as it is empty. */
  ghost predicate InUse<T>(s: Storage<T>, len: nat)
    reads s, s.slots
  {
    s.AtRest() && s.len == len && s.Values() != multiset{}
  }

  lemma Regroup<T>(a: multiset<T>, b: multiset<T>, x: multiset<T>)
    ensures (a + x) + b == (a + b) + x && a + (b + x) == (a + b) + x && a + (x + b) == (a + b) + x
  {}

  lemma OneArray<T>(s: Storage<T>, rest: seq<Storage<T>>)
    ensures ValuesOf([s] + rest) == s.Values() + ValuesOf(rest)
  {
    assert ([s] + rest)[1..] == rest;
  }

  twostate lemma {:induction false} Untouched<T>(stack: seq<Storage<T>>)
    requires forall s :: s in stack ==> s.slots[..] == old(s.slots[..])
    ensures ValuesOf(stack) == old(ValuesOf(stack))
  {
    if stack != [] { Untouched(stack[1..]); }
  }

  ghost predicate Distinct<T>(stack: seq<Storage<T>>) {
    forall i, j :: 0 <= i < j < |stack| ==> stack[i] != stack[j] && stack[i].slots != stack[j].slots
  }

  lemma RestDistinct<T>(stack: seq<Storage<T>>)
    requires Distinct(stack) && stack != []
    ensures Distinct(stack[1..]) && stack == [stack[0]] + stack[1..]
    ensures forall s :: s in stack[1..] ==> s in stack && s != stack[0] && s.slots != stack[0].slots
  {
    forall s | s in stack[1..]
      ensures s in stack && s != stack[0] && s.slots != stack[0].slots
    {
      var i :| 0 <= i < |stack| - 1 && stack[1..][i] == s;
      assert s == stack[i + 1];
    }
  }

  /** The entries of a stack contain these arrays. */
  predicate Mirrors<T>(es: seq<LC.Entry<Storage<T>>>, arrays: seq<Storage<T>>) {
    |es| == |arrays| && forall i :: 0 <= i < |es| ==> es[i].value == arrays[i]
  }

  class Bag<T(==)> {
    const len: nat
    const primary: Storage<T>
    const fallback: SC.Stack<Storage<T>>
    ghost var stack: seq<Storage<T>>

    ghost predicate Apart()
      reads this
    {
      && primary !in stack && (forall s :: s in stack ==> s.slots != primary.slots)
      && Distinct(stack)
    }

    /** The arrays: `stack` lists those that `fallback` links, without the deleted ones. */
    ghost predicate Sound()
      reads this, primary, primary.slots, stack, Arrays(stack)
    {
      && 1 <= len <= 32 && primary.AtRest() && primary.len == len && Apart()
      && forall s :: s in stack ==> InUse(s, len)
    }

    ghost predicate Linked()
      reads this`stack, fallback, fallback.entries
    {
      fallback.Valid() && Mirrors(fallback.Contents(), stack)
    }

    ghost predicate Valid()
      reads this, primary, primary.slots, stack, Arrays(stack), fallback, fallback.entries
    {
      Sound() && Linked()
    }

    ghost function Contents(): multiset<T>
      reads this, primary.slots, Arrays(stack)
    {
      primary.Values() + ValuesOf(stack)
    }

    constructor (len: nat)
      requires 1 <= len <= 32
      ensures Valid() && Contents() == multiset{} && this.len == len
      ensures fresh(primary) && fresh(primary.slots) && fresh(fallback) && stack == [] && fallback.entries == []
    {
      this.len := len;
      primary := new Storage<T>(len);
      fallback := new SC.Stack<Storage<T>>();
      stack := [];
    }

    /** Stores a value in the primary array only. */
    method TryPush(val: T) returns (rejected: Option<T>)
      requires Valid()
      modifies primary`word, primary.slots
      ensures Valid() && stack == old(stack) && ValuesOf(stack) == old(ValuesOf(stack))
      ensures rejected == if FirstFree(old(primary.word), len, 0) == len then Some(val) else None
      ensures Contents() == if rejected == None then old(Contents()) + multiset{val} else old(Contents())
    {
      hide Storage.AtRest, Storage.Values, FirstFree, Bag.Linked;
      Regroup(primary.Values(), ValuesOf(stack), multiset{val});
      rejected := PushInto(primary, val, true);
      Untouched(stack);
    }

    /** A new fallback array. */
    method AddArray(val: T) returns (added: Storage<T>)
      requires Sound()
      modifies this`stack
      ensures Sound() && stack == [added] + old(stack) && fresh(added) && fresh(added.slots)
      ensures Contents() == old(Contents()) + multiset{val}
    {
      hide Storage.AtRest, Storage.Values, ValuesOf;
      added := new Storage<T>.WithVal(len, val);
      ghost var before := stack;
      Regroup(primary.Values(), ValuesOf(stack), multiset{val});
      stack := [added] + stack;
      assert stack[1..] == before;
      Untouched(before);
      OneArray(added, before);
      assert forall i :: 0 < i < |stack| ==> stack[i] == before[i - 1];
    }

    /** A new fallback array on top of the others. */
    method PushArray(val: T)
      requires Valid()
      modifies this`stack, fallback, fallback.entries
      ensures Valid() && Contents() == old(Contents()) + multiset{val}
      ensures |stack| == |old(stack)| + 1 && stack[1..] == old(stack) && fresh(stack[0]) && fresh(stack[0].slots)
    {
      hide Bag.Valid, Bag.Sound, Bag.Linked, Bag.Contents, Bag.Apart, Storage.AtRest, Storage.Values;
      hide SC.Stack.Valid, SC.Stack.Contents, SC.First, SC.Within, Mirrors, ValuesOf, InUse, Distinct, FirstFree;
      LinkedIs();
      ValidIs();
      ghost var before := stack;
      var added := AddArray(val);
      ghost var contents := fallback.Contents();
      Kinds(fallback, stack);
      var r := fallback.PushIf(added, _ => true);
      OneMoreOf(r.value, contents, before);
      LinkedIs();
      ValidIs();
    }

    lemma LinkedIs()
      ensures Linked() <==> fallback.Valid() && Mirrors(fallback.Contents(), stack)
    {}

    lemma ValidIs()
      ensures Valid() <==> Sound() && Linked()
    {}

    /** Nothing changes but the newest fallback array. */
    twostate predicate OnlyNewest(rest: seq<Storage<T>>)
      reads this, primary, primary.slots, rest, Arrays(rest)
    {
      && stack == old(stack) && primary.AtRest() && primary.Values() == old(primary.Values())
      && ValuesOf(rest) == old(ValuesOf(rest)) && forall s :: s in rest ==> InUse(s, len)
    }

    twostate lemma RestKept(rest: seq<Storage<T>>)
      requires old(Sound()) && old(stack) != [] && rest == old(stack)[1..] && stack == old(stack)
      requires primary.word == old(primary.word) && primary.slots[..] == old(primary.slots[..])
      requires forall s :: s in rest ==> s.word == old(s.word) && s.slots[..] == old(s.slots[..])
      ensures OnlyNewest(rest)
    {
      Untouched(rest);
      forall s | s in rest
        ensures InUse(s, len)
      {
        assert s in old(stack);
      }
      hide ValuesOf, Rest;
    }

    /** `PushInto` and `PopFrom` on the newest fallback array. */
    method PushTop(newest: Storage<T>, ghost rest: seq<Storage<T>>, val: T) returns (rejected: Option<T>)
      requires Sound() && stack != [] && newest == stack[0] && rest == stack[1..]
      modifies newest`word, newest.slots
      ensures OnlyNewest(rest) && InUse(newest, len)
      ensures rejected == if FirstFree(old(newest.word), len, 0) == len then Some(val) else None
      ensures newest.Values() == if rejected == None then old(newest.Values()) + multiset{val} else old(newest.Values())
    {
      OthersApart();
      InUseAt(newest);
      hide Storage.AtRest, Storage.Values, FirstFree, Bag.Apart, Bag.Sound, Bag.OnlyNewest, ValuesOf;
      rejected := PushInto(newest, val, false);
      RestKept(rest);
    }

    method PopTop(newest: Storage<T>, ghost rest: seq<Storage<T>>) returns (val: Option<T>, empty: bool)
      requires Sound() && stack != [] && newest == stack[0] && rest == stack[1..]
      modifies newest`word, newest.slots
      ensures OnlyNewest(rest) && newest.AtRest() && newest.len == len
      ensures val.Some? && old(newest.Values()) == newest.Values() + multiset{val.value}
      ensures empty == (newest.Values() == multiset{})
    {
      OthersApart();
      InUseAt(newest);
      hide Storage.AtRest, Storage.Values, Bag.Apart, Bag.Sound, Bag.OnlyNewest, ValuesOf, InUse;
      val, empty := PopFrom(newest);
      RestKept(rest);
    }

    /** Stores a value in the newest fallback array, if it has a free slot. */
    method PushNewest(newest: Storage<T>, val: T) returns (rejected: Option<T>)
      requires Sound() && stack != [] && newest == stack[0]
      modifies newest`word, newest.slots
      ensures Sound()
      ensures rejected == if FirstFree(old(newest.word), len, 0) == len then Some(val) else None
      ensures Contents() == if rejected == None then old(Contents()) + multiset{val} else old(Contents())
    {
      ghost var rest := stack[1..];
      OthersApart();
      OneArray(newest, rest);
      hide Storage.AtRest, Storage.Values, FirstFree, Bag.Apart, ValuesOf, InUse;
      Regroup(newest.Values(), ValuesOf(rest), multiset{val});
      Regroup(primary.Values(), newest.Values() + ValuesOf(rest), multiset{val});
      rejected := PushTop(newest, rest, val);
      OneArray(newest, rest);
    }

    /** `peek_with` on the fallback arrays. */
    method Peek() returns (newest: LC.Entry?<Storage<T>>)
      requires Linked()
      modifies fallback, fallback.entries
      ensures Linked() && SC.Within(fallback.entries, old(fallback.entries))
      ensures if stack == [] then newest == null && fallback.entries == []
              else newest != null && newest.value == stack[0] && !newest.IsDeleted()
                   && fallback.entries != [] && fallback.entries[0] == newest
    {
      hide *;
      LinkedIs();
      ghost var was := fallback.entries;
      SC.EndsAt(was, 0);
      var ptr := fallback.CleanupNewest();
      SC.EndsIn(fallback.entries, was, was);
      newest := ptr.to;
      FirstOf(fallback.Contents(), stack);
      LinkedIs();
    }

    /** Stores a value in the primary array, or else in the newest fallback array, or else in a new
        fallback array. */
    method Push(val: T)
      requires Valid()
      modifies this`stack, primary`word, primary.slots, fallback, fallback.entries
      modifies (set s | s in stack)`word, Arrays(stack)
      ensures Valid() && Contents() == old(Contents()) + multiset{val}
      ensures forall s :: s in stack ==> s in old(stack) || (fresh(s) && fresh(s.slots))
      ensures |stack| == |old(stack)| + if FirstFree(old(primary.word), len, 0) < len
                                           || (old(stack) != [] && FirstFree(old(stack[0].word), len, 0) < len)
                                        then 0 else 1
    {
      hide Bag.Valid, Bag.Sound, Bag.Linked, Bag.Contents, Bag.Apart, Storage.AtRest, Storage.Values;
      hide SC.Stack.Valid, SC.Stack.Contents, SC.First, SC.Within, Mirrors, ValuesOf, InUse, Distinct, FirstFree;
      PrimaryApart();
      var rejected := TryPush(val);
      if rejected.Some? {
        ghost var was := fallback.entries;
        ValidIs();
        var newest := Peek();
        ValidIs();
        SC.WithinIs(fallback.entries, fallback.entries, was) by { SC.Itself(fallback.entries); }
        if newest != null {
          ValidIs();
          rejected := PushNewest(newest.value, val);
          ValidIs();
          if rejected.Some? { PushArray(val); }
        } else {
          PushArray(val);
        }
      }
    }

    lemma PrimaryApart()
      requires Valid()
      ensures stack != [] ==> stack[0] != primary && stack[0].slots != primary.slots
    {
      if stack != [] { OthersApart(); }
    }

    lemma InUseAt(s: Storage<T>)
      requires Sound() && s in stack
      ensures s.AtRest() && s.len == len && s.Values() != multiset{}
    {}

    /** The other fallback arrays have nothing in common with the newest. */
    lemma OthersApart()
      requires Apart() && stack != []
      ensures stack == [stack[0]] + stack[1..]
      ensures forall s :: s in stack[1..] ==> s in stack && s != stack[0] && s.slots != stack[0].slots
      ensures stack[0] != primary && stack[0].slots != primary.slots
    {
      RestDistinct(stack);
      assert stack[0] in stack;
    }

    lemma ApartRest(rest: seq<Storage<T>>)
      requires Apart() && stack != [] && rest == stack[1..]
      ensures primary !in rest && (forall s :: s in rest ==> s.slots != primary.slots) && Distinct(rest)
    {
      RestDistinct(stack);
      hide Distinct;
    }

    /** The newest fallback array, found empty, is no longer one. */
    ghost method RemoveEmpty(newest: Storage<T>, rest: seq<Storage<T>>)
      requires Apart() && stack != [] && newest == stack[0] && rest == stack[1..] && newest.Values() == multiset{}
      requires 1 <= len <= 32 && primary.AtRest() && primary.len == len && forall s :: s in rest ==> InUse(s, len)
      modifies this`stack
      ensures Sound() && stack == rest && Contents() == old(primary.Values() + (newest.Values() + ValuesOf(rest)))
    {
      ApartRest(rest);
      NothingFirst(newest.Values(), ValuesOf(rest));
      hide Distinct, Storage.AtRest, Storage.Values, ValuesOf, InUse;
      SetStack(rest);
    }

    ghost method SetStack(rest: seq<Storage<T>>)
      requires 1 <= len <= 32 && primary.AtRest() && primary.len == len && forall s :: s in rest ==> InUse(s, len)
      requires primary !in rest && (forall s :: s in rest ==> s.slots != primary.slots) && Distinct(rest)
      modifies this`stack
      ensures Sound() && stack == rest && Contents() == old(primary.Values() + ValuesOf(rest))
    {
      hide Distinct, Storage.AtRest, Storage.Values, ValuesOf, InUse;
      stack := rest;
      Untouched(rest);
    }

    /** Takes a value out of the newest fallback array, which is none any more when that empties it. */
    method PopArray(newest: Storage<T>, ghost rest: seq<Storage<T>>) returns (val: Option<T>, empty: bool)
      requires Sound() && stack != [] && newest == stack[0] && rest == stack[1..]
      modifies this`stack, newest`word, newest.slots
      ensures Sound() && stack == (if empty then rest else old(stack)) && primary.Values() == old(primary.Values())
      ensures val.Some? && old(Contents()) == Contents() + multiset{val.value}
    {
      OthersApart();
      OneArray(newest, rest);
      hide Storage.AtRest, Storage.Values, Bag.Apart, ValuesOf;
      val, empty := PopTop(newest, rest);
      Regroup(newest.Values(), ValuesOf(rest), multiset{val.value});
      Regroup(primary.Values(), newest.Values() + ValuesOf(rest), multiset{val.value});
      OneArray(newest, rest);
      if empty { RemoveEmpty(newest, stack[1..]); }
    }

    /** Takes a value out of the newest fallback array, and deletes the entry when that empties it. */
    method PopNewest(newest: LC.Entry<Storage<T>>) returns (val: Option<T>)
      requires Valid() && stack != [] && newest.value == stack[0] && !newest.IsDeleted()
      requires fallback.entries != [] && fallback.entries[0] == newest
      modifies this`stack, newest.value`word, newest.value.slots, newest
      ensures Valid() && (stack == old(stack) || stack == old(stack)[1..]) && primary.Values() == old(primary.Values())
      ensures val.Some? && old(Contents()) == Contents() + multiset{val.value}
    {
      hide Bag.Valid, Bag.Sound, Bag.Linked, Bag.Contents, Bag.Apart, Storage.AtRest, Storage.Values;
      hide SC.Stack.Valid, SC.Stack.Contents, SC.First, SC.Within, Mirrors, ValuesOf, InUse, Distinct, FirstFree;
      ValidIs();
      LinkedIs();
      FirstOf(fallback.Contents(), stack);
      RestOf(fallback.Contents(), stack);
      var empty;
      val, empty := PopArray(newest.value, stack[1..]);
      Kinds(fallback, stack);
      if empty { fallback.Delete(newest); }
      LinkedIs();
      ValidIs();
    }

    method PopPrimary() returns (val: Option<T>)
      requires Sound()
      modifies primary`word, primary.slots
      ensures Sound() && stack == old(stack)
      ensures val == None <==> old(primary.Values()) == multiset{}
      ensures val == None ==> Contents() == old(Contents())
      ensures val.Some? ==> old(Contents()) == Contents() + multiset{val.value}
    {
      hide Storage.AtRest, Storage.Values;
      var empty;
      val, empty := PopFrom(primary);
      Untouched(stack);
      if val.Some? { Regroup(primary.Values(), ValuesOf(stack), multiset{val.value}); }
    }

    /** Takes out some value: from the newest fallback array, or else from the primary array. */
    method Pop() returns (val: Option<T>)
      requires Valid()
      modifies this`stack, primary`word, primary.slots, fallback, fallback.entries
      modifies (set s | s in stack)`word, Arrays(stack)
      ensures Valid() && (stack == old(stack) || (old(stack) != [] && stack == old(stack)[1..]))
      ensures old(stack) != [] ==> primary.Values() == old(primary.Values())
      ensures val == None <==> old(Contents()) == multiset{}
      ensures val.Some? ==> old(Contents()) == Contents() + multiset{val.value}
    {
      hide Bag.Valid, Bag.Sound, Bag.Linked, Bag.Contents, Bag.Apart, Storage.AtRest, Storage.Values;
      hide SC.Stack.Valid, SC.Stack.Contents, SC.First, SC.Within, Mirrors, ValuesOf, InUse, Distinct, FirstFree;
      ghost var was := fallback.entries;
      ValidIs();
      var newest := Peek();
      ValidIs();
      SC.WithinIs(fallback.entries, fallback.entries, was) by { SC.Itself(fallback.entries); }
      if newest != null {
        val := PopNewest(newest);
        if val.Some? { return; }
      }
      ValidIs();
      OnlyPrimary();
      val := PopPrimary();
      ValidIs();
    }

    lemma OnlyPrimary()
      ensures stack == [] ==> Contents() == primary.Values()
    {}

    /** Takes out all values, those of the newest array first. */
    method PopAll() returns (values: seq<T>)
      requires Valid()
      modifies this`stack, primary`word, primary.slots, fallback, fallback.entries
      modifies (set s | s in stack)`word, Arrays(stack)
      ensures Valid() && stack == [] && Contents() == multiset{}
      ensures multiset(values) == old(Contents())
    {
      hide Storage.AtRest, Storage.Values, Bag.Linked;
      values := DrainStack();
      var last := DrainFrom(primary);
      values := values + last;
    }

    /** Detaches the fallback arrays and drains them. */
    method DrainStack() returns (values: seq<T>)
      requires Valid()
      modifies this`stack, fallback, fallback.entries, (set s | s in stack)`word, Arrays(stack)
      ensures Valid() && stack == [] && primary.Values() == old(primary.Values())
      ensures multiset(values) == old(ValuesOf(stack))
    {
      hide Bag.Valid, Bag.Sound, Bag.Linked, Bag.Contents, Bag.Apart, Storage.AtRest, Storage.Values;
      hide SC.Stack.Valid, SC.Stack.Contents, SC.First, SC.Within, Mirrors, ValuesOf, InUse, Distinct, FirstFree;
      ValidIs();
      LinkedIs();
      AllApart();
      ghost var detached := stack;
      Kinds(fallback, stack);
      var popped := fallback.PopAll();
      stack := [];
      Untouched(detached);
      values := DrainArrays(popped, detached);
      EmptyValid();
      NoEntries<T>();
      LinkedIs();
      ValidIs();
    }

    lemma EmptyValid()
      requires stack == [] && primary.AtRest() && primary.len == len && 1 <= len <= 32
      ensures Sound()
    {
      hide Storage.AtRest, InUse;
    }

    lemma Size()
      ensures |Contents()| == |primary.Values()| + |ValuesOf(stack)|
    {
      SizeSum(primary.Values(), ValuesOf(stack));
      hide Storage.Values, ValuesOf;
    }

    lemma FirstEntry(newest: LC.Entry?<Storage<T>>)
      requires Linked() && if stack == [] then newest == null && fallback.entries == []
                           else fallback.entries != [] && fallback.entries[0] == newest
      ensures newest == LC.At(fallback.entries, 0) && Mirrors(LC.Live(fallback.entries[0..]), stack[0..])
    {
      assert fallback.entries[0..] == fallback.entries && stack[0..] == stack;
      hide LC.Live, Mirrors;
    }

    /** `len` of one fallback array. */
    method CountOne(current: Storage<T>, ghost k: nat) returns (m: nat)
      requires Sound() && k < |stack| && current == stack[k]
      ensures m + |old(ValuesOf(stack[k + 1..]))| == |old(ValuesOf(stack[k..]))|
    {
      hide *;
      InUseAt(current);
      assert stack[k..] == [stack[k]] + stack[k + 1..];
      OneArray(stack[k], stack[k + 1..]);
      SizeSum(stack[k].Values(), ValuesOf(stack[k + 1..]));
      m := CountIn(current);
    }

    /** `Iter::next` on the fallback arrays. */
    method Onward(current: LC.Entry<Storage<T>>, ghost i: nat, ghost k: nat) returns (next: LC.Entry?<Storage<T>>)
      requires Linked() && i < |fallback.entries| && fallback.entries[i] == current
      requires k < |stack| && Mirrors(LC.Live(fallback.entries[i + 1..]), stack[k + 1..])
      modifies fallback, fallback.entries
      ensures Linked() && SC.Within(fallback.entries, old(fallback.entries))
      ensures i < |fallback.entries| <= |old(fallback.entries)| && fallback.entries[i] == current
      ensures next == LC.At(fallback.entries, i + 1)
      ensures next != null ==> !next.IsDeleted()
      ensures Mirrors(LC.Live(fallback.entries[i + 1..]), stack[k + 1..])
    {
      hide *;
      LinkedIs();
      next := fallback.Next(current, i);
      assert fallback.entries[..i + 1][i] == old(fallback.entries)[..i + 1][i];
      LinkedIs();
    }

    /** One step of the count. */
    method Advance(
        current: LC.Entry<Storage<T>>, ghost i: nat, ghost k: nat,
        ghost now: seq<Storage<T>>, ghost later: seq<Storage<T>>)
      returns (m: nat, next: LC.Entry?<Storage<T>>)
      requires Valid() && i < |fallback.entries| && fallback.entries[i] == current
      requires k < |stack| && current.value == stack[k] && now == stack[k..] && later == stack[k + 1..]
      requires Mirrors(LC.Live(fallback.entries[i + 1..]), later)
      modifies fallback, fallback.entries
      ensures Valid() && Contents() == old(Contents()) && SC.Within(fallback.entries, old(fallback.entries))
      ensures i < |fallback.entries| <= |old(fallback.entries)| && next == LC.At(fallback.entries, i + 1)
      ensures next != null ==> !next.IsDeleted()
      ensures Mirrors(LC.Live(fallback.entries[i + 1..]), later)
      ensures m + |ValuesOf(later)| == |old(ValuesOf(now))|
    {
      hide Bag.Valid, Bag.Sound, Bag.Linked, Bag.Contents, Bag.Apart, Storage.AtRest, Storage.Values;
      hide SC.Stack.Valid, SC.Stack.Contents, SC.First, SC.Within, Mirrors, ValuesOf, InUse, Distinct, FirstFree;
      hide LC.Live, LC.At;
      ValidIs();
      Kinds(fallback, stack);
      m := CountOne(current.value, k);
      Kinds(fallback, stack);
      next := Onward(current, i, k);
      Untouched(now);
      Untouched(later);
      ValidIs();
    }

    /** Counts array by array, newest first. */
    method CountArrays() returns (n: nat)
      requires Valid()
      modifies fallback, fallback.entries
      ensures Valid() && Contents() == old(Contents()) && n == |old(ValuesOf(stack))|
    {
      hide Bag.Valid, Bag.Sound, Bag.Linked, Bag.Contents, Bag.Apart, Storage.AtRest, Storage.Values;
      hide SC.Stack.Valid, SC.Stack.Contents, SC.First, SC.Within, Mirrors, ValuesOf, InUse, Distinct, FirstFree;
      hide LC.Live, LC.At;
      ValidIs();
      Kinds(fallback, stack);
      assert stack[0..] == stack;
      var current := Peek();
      n := 0;
      ValidIs();
      ghost var i, k := 0, 0;
      FirstEntry(current);
      while current != null
        invariant Valid() && Contents() == old(Contents()) && SC.Within(fallback.entries, old(fallback.entries))
        invariant i <= |fallback.entries| && current == LC.At(fallback.entries, i)
        invariant current != null ==> !current.IsDeleted()
        invariant k <= |stack| && Mirrors(LC.Live(fallback.entries[i..]), stack[k..])
        invariant n + |ValuesOf(stack[k..])| == |old(ValuesOf(stack))|
        decreases |fallback.entries| - i
      {
        NextOf(fallback.entries, i, stack, k);
        ghost var left := fallback.entries;
        SC.WithinIs(left, left, old(fallback.entries)) by { SC.Itself(left); }
        var m;
        m, current := Advance(current, i, k, stack[k..], stack[k + 1..]);
        SC.WithinIs(fallback.entries, left, old(fallback.entries));
        i, k, n := i + 1, k + 1, n + m;
      }
      NextOf(fallback.entries, i, stack, k);
      assert stack[k..] == [];
      NoArrays<T>();
    }

    /** Counts the primary array, then the fallback arrays. */
    method Len() returns (n: nat)
      requires Valid()
      modifies fallback, fallback.entries
      ensures Valid() && Contents() == old(Contents()) && n == |Contents()|
    {
      hide Bag.Valid, Bag.Sound, Bag.Linked, Bag.Contents, Bag.Apart, Storage.AtRest, Storage.Values;
      hide SC.Stack.Valid, SC.Stack.Contents, SC.First, SC.Within, Mirrors, ValuesOf, InUse, Distinct, FirstFree;
      ValidIs();
      AllApart();
      Size();
      Kinds(fallback, stack);
      n := CountIn(primary);
      var m := CountArrays();
      n := n + m;
    }

    method IsEmpty() returns (empty: bool)
      requires Valid()
      modifies fallback, fallback.entries
      ensures Valid() && Contents() == old(Contents()) && (empty <==> Contents() == multiset{})
    {
      hide Bag.Valid, Bag.Sound, Bag.Linked, Bag.Contents, Bag.Apart, Storage.AtRest, Storage.Values;
      hide SC.Stack.Valid, SC.Stack.Contents, SC.First, SC.Within, Mirrors, ValuesOf, InUse, Distinct, FirstFree;
      ValidIs();
      AllApart();
      Kinds(fallback, stack);
      var n := CountIn(primary);
      Nothing();
      empty := n == 0;
      if empty {
        LinkedIs();
        Kinds(fallback, stack);
        empty := fallback.IsEmpty();
        FirstOf(fallback.Contents(), stack);
        LinkedIs();
      }
      ValidIs();
    }

    lemma Nothing()
      requires Sound()
      ensures Contents() == multiset{} <==> |primary.Values()| == 0 && stack == []
    {
      if stack != [] {
        assert stack == [stack[0]] + stack[1..];
        OneArray(stack[0], stack[1..]);
        InUseAt(stack[0]);
        SomethingFirst(stack[0].Values(), ValuesOf(stack[1..]));
      }
    }

    lemma AllApart()
      requires Sound()
      ensures primary.AtRest() && primary.len == len && 1 <= len <= 32
      ensures Distinct(stack) && forall s :: s in stack ==> s.AtRest() && s != primary && s.slots != primary.slots
    {}
  }

  /** Entries are not arrays. */
  lemma Kinds<T>(entries: SC.Stack<Storage<T>>, arrays: seq<Storage<T>>)
    ensures forall o :: o in Arrays(arrays) ==> o != entries && o !in entries.entries
  {}

  lemma NoEntries<T>()
    ensures Mirrors<T>([], [])
  {}

  lemma FirstOf<T>(es: seq<LC.Entry<Storage<T>>>, arrays: seq<Storage<T>>)
    requires Mirrors(es, arrays)
    ensures |es| == |arrays| && (es != [] ==> es[0].value == arrays[0])
  {}

  lemma OneMoreOf<T>(e: LC.Entry<Storage<T>>, es: seq<LC.Entry<Storage<T>>>, arrays: seq<Storage<T>>)
    requires Mirrors(es, arrays)
    ensures Mirrors([e] + es, [e.value] + arrays)
  {}

  lemma RestOf<T>(es: seq<LC.Entry<Storage<T>>>, arrays: seq<Storage<T>>)
    requires Mirrors(es, arrays) && es != []
    ensures arrays != [] && es[0].value == arrays[0] && Mirrors(es[1..], arrays[1..])
  {}

  /** The array of the first of these entries, or the end of both. */
  lemma NextOf<T>(es: seq<LC.Entry<Storage<T>>>, i: nat, arrays: seq<Storage<T>>, k: nat)
    requires i <= |es| && k <= |arrays| && Mirrors(LC.Live(es[i..]), arrays[k..])
    requires LC.At(es, i) != null ==> !LC.At(es, i).IsDeleted()
    ensures LC.At(es, i) == null <==> k == |arrays|
    ensures k < |arrays| ==> i < |es| && es[i] == LC.At(es, i) && es[i].value == arrays[k]
    ensures k < |arrays| ==> Mirrors(LC.Live(es[i + 1..]), arrays[k + 1..])
  {
    hide *;
    FirstOf(LC.Live(es[i..]), arrays[k..]);
    if LC.At(es, i) == null {
      SC.LiveEnd(es, i);
    } else {
      SC.LiveFrom(es, i);
      RestOf(LC.Live(es[i..]), arrays[k..]);
      assert arrays[k..][1..] == arrays[k + 1..];
      assert ([es[i]] + LC.Live(es[i + 1..]))[1..] == LC.Live(es[i + 1..]);
    }
  }

  /** Drains the arrays of a detached stack one after the other. */
  method DrainArrays<T>(detached: SC.Stack<Storage<T>>, ghost arrays: seq<Storage<T>>) returns (values: seq<T>)
    requires detached.Valid() && Mirrors(detached.Contents(), arrays)
    requires Distinct(arrays) && forall s :: s in arrays ==> s.AtRest()
    modifies detached, detached.entries, (set s | s in arrays)`word, Arrays(arrays)
    ensures multiset(values) == old(ValuesOf(arrays))
  {
    hide SC.Stack.Valid, SC.Stack.Contents, SC.Within, Mirrors, ValuesOf, Distinct, Storage.AtRest, Storage.Values;
    ghost var rest := arrays;
    values := [];
    SC.Itself(detached.entries);
    while true
      invariant detached.Valid() && Mirrors(detached.Contents(), rest)
      invariant SC.Within(detached.entries, old(detached.entries))
      invariant Distinct(rest) && forall s :: s in rest ==> s in arrays && s.AtRest()
      invariant multiset(values) + ValuesOf(rest) == old(ValuesOf(arrays))
      decreases |rest|
    {
      FirstOf(detached.Contents(), rest);
      if rest != [] { RestOf(detached.Contents(), rest); }
      ghost var left := detached.entries;
      SC.WithinIs(left, left, old(detached.entries)) by { SC.Itself(left); }
      Kinds(detached, rest);
      var r := detached.PopIf(_ => true);
      SC.WithinIs(detached.entries, left, old(detached.entries));
      if r.value.None? { break; }
      var some := DrainFirst(r.value.value.value, rest);
      values := values + some;
      rest := rest[1..];
    }
    NoArrays<T>();
  }

  method DrainFirst<T>(first: Storage<T>, ghost arrays: seq<Storage<T>>) returns (values: seq<T>)
    requires Distinct(arrays) && (forall s :: s in arrays ==> s.AtRest()) && arrays != [] && arrays[0] == first
    modifies first`word, first.slots
    ensures Distinct(arrays[1..]) && forall s :: s in arrays[1..] ==> s in arrays && s.AtRest()
    ensures multiset(values) + ValuesOf(arrays[1..]) == old(ValuesOf(arrays))
  {
    hide Storage.AtRest, Storage.Values, Distinct, ValuesOf;
    ghost var rest := arrays[1..];
    RestDistinct(arrays);
    OneArray(first, rest);
    values := DrainFrom(first);
    Untouched(rest);
  }

  lemma NoArrays<T>()
    ensures ValuesOf<T>([]) == multiset{}
  {}

  lemma SizeSum<T>(a: multiset<T>, b: multiset<T>)
    ensures |a + b| == |a| + |b|
  {}

  lemma NothingFirst<T>(a: multiset<T>, b: multiset<T>)
    requires a == multiset{}
    ensures a + b == b
  {}

  lemma SomethingFirst<T>(a: multiset<T>, b: multiset<T>)
    requires a != multiset{}
    ensures a + b != multiset{}
  {
    var x :| x in a;
    assert x in a + b;
  }
}
