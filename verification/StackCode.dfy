/** The stack (src/stack.rs) run by one thread: last in, first out, also if entries were deleted
    through handles that callers kept. */
module StackCode {
  import opened Base
  import opened ListCode
  import Chain

  datatype Result<V, E> = Ok(value: V) | Err(error: E)

  function First<T>(es: seq<Entry<T>>): Option<T> { if es == [] then None else Some(es[0].value) }

  /** Taking out the deleted entries behind entry `i`. */
  lemma Splice<T>(first: Entry?<T>, es: seq<Entry<T>>, i: nat, rest: seq<Entry<T>>)
    requires first == At(es, 0) && i < |es| && (forall j :: 0 <= j < i ==> es[j].link.to == At(es, j + 1))
    requires Chained(es[i].link.to, rest) && (forall j, k :: 0 <= j < k < |es| ==> es[j] != es[k])
    requires forall j, k :: 0 <= j <= i && 0 <= k < |rest| ==> es[j] != rest[k]
    ensures Chained(first, es[..i + 1] + rest)
  {
    var all := es[..i + 1] + rest;
    forall j | 0 <= j < |all|
      ensures all[j].link.to == At(all, j + 1)
    {
      if j > i { assert all[j] == rest[j - i - 1] && At(all, j + 1) == At(rest, j - i); }
    }
  }

  /** The list without the deleted entries behind entry `i`. */
  lemma Unlinks<T>(first: Entry?<T>, es: seq<Entry<T>>, i: nat, k: nat)
    requires first == At(es, 0) && i < |es| && (forall j :: 0 <= j < i ==> es[j].link.to == At(es, j + 1))
    requires (forall j, k :: 0 <= j < k < |es| ==> es[j] != es[k])
    requires k <= |es| - i - 1 && Chained(es[i].link.to, es[i + 1..][k..])
    ensures var left := es[i + 1..][k..]; var all := es[..i + 1] + left;
      && |all| <= |es|
      && Chained(first, all) && Live(all) == Live(es[..i + 1]) + Live(left)
      && At(all, i + 1) == es[i].link.to && all[..i + 1] == es[..i + 1] && all[i + 1..] == left
      && Within(all, es)
  {
    var left := es[i + 1..][k..];
    assert left == es[i + 1 + k..];
    Splice(first, es, i, left);
    LiveParts(es[..i + 1], left);
    hide Live;
  }

  lemma {:induction false} LiveParts<T>(a: seq<Entry<T>>, b: seq<Entry<T>>)
    ensures Live(a + b) == Live(a) + Live(b)
  {
    if a == [] {
      assert a + b == b;
    } else {
      LiveParts(a[1..], b);
      ghost var here := if a[0].IsDeleted() then [] else [a[0]];
      assert (a + b)[1..] == a[1..] + b;
      assert Live(a + b) == here + Live(a[1..] + b);
      assert here + (Live(a[1..]) + Live(b)) == (here + Live(a[1..])) + Live(b);
    }
  }

  lemma Apart<T>(first: Entry?<T>, es: seq<Entry<T>>, i: nat)
    requires Chained(first, es) && i < |es|
    ensures first == At(es, 0) && es[i] !in es[i + 1..] && Chained(es[i].link.to, es[i + 1..])
    ensures forall j :: 0 <= j < i ==> es[j] != es[i] && es[j] !in es[i + 1..] && es[j].link.to == At(es, j + 1)
    ensures forall j, k :: 0 <= j < k < |es| ==> es[j] != es[k]
  {
    Suffix(first, es, i + 1);
  }

  lemma LiveFrom<T>(es: seq<Entry<T>>, i: nat)
    requires At(es, i) != null && !At(es, i).IsDeleted()
    ensures i < |es| && es[i] == At(es, i) && Live(es[i..]) == [es[i]] + Live(es[i + 1..])
  {
    assert es[i..][1..] == es[i + 1..];
  }

  lemma FirstAt<T>(first: Entry?<T>, es: seq<Entry<T>>)
    requires Chained(first, es)
    ensures first == At(es, 0) && es[0..] == es && (first == null <==> es == [])
  {}

  lemma LiveEnd<T>(es: seq<Entry<T>>, i: nat)
    requires i <= |es| && At(es, i) == null
    ensures i == |es| && Live(es[i..]) == []
  {}

  lemma Tail<T>(first: Entry?<T>, es: seq<Entry<T>>)
    requires Chained(first, es) && es != []
    ensures first == es[0] && es[0] !in es[1..] && Chained(es[0].link.to, es[1..]) && es == [es[0]] + es[1..]
  {
    Suffix(first, es, 1);
  }

  /** The first is the end of the second. */
  predicate Ends<T(==)>(a: seq<T>, b: seq<T>) { |a| <= |b| && a == b[|b| - |a|..] }

  lemma EndsIn<T>(a: seq<T>, b: seq<T>, c: seq<T>)
    requires Ends(a, b) && Ends(b, c)
    ensures Ends(a, c) && Within(a, a) && Within(a, c) && forall x :: x in b ==> x in c
  {}

  predicate Within<T(==)>(a: seq<T>, b: seq<T>) { forall x :: x in a ==> x in b }

  lemma WithinIs<T>(a: seq<T>, b: seq<T>, c: seq<T>)
    requires Within(a, b) && Within(b, c)
    ensures Within(a, c) && (forall x :: x in b ==> x in c) && forall k :: 0 <= k < |b| ==> b[k] in c
  {}

  lemma Itself<T>(a: seq<T>)
    ensures Within(a, a)
  {}

  lemma EndsAt<T>(a: seq<T>, k: nat)
    requires k <= |a|
    ensures Ends(a[k..], a)
  {}

  /** A first entry that is not deleted is the first of the contents. */
  lemma FirstIsLive<T>(first: Entry?<T>, es: seq<Entry<T>>)
    requires Chained(first, es) && (first != null ==> !first.IsDeleted())
    ensures if Live(es) == [] then first == null && es == [] else es != [] && first == es[0] == Live(es)[0]
  {}

  lemma InTail<T>(es: seq<Entry<T>>, k: nat)
    requires k <= |es|
    ensures forall e :: e in es[k..] ==> e in es
  {}

  lemma DeletedFirst<T>(e: Entry<T>, es: seq<Entry<T>>)
    requires Chained(e, es) && e.IsDeleted()
    ensures es != [] && e == es[0] && e !in es[1..] && Chained(e.link.to, es[1..]) && Live(es) == Live(es[1..])
    ensures Skip(es) > 0 && es[1..][Skip(es[1..])..] == es[Skip(es)..]
  {
    Tail(e, es);
  }

  lemma Parts<T>(es: seq<Entry<T>>, i: nat)
    requires i < |es|
    ensures Live(es) == Live(es[..i + 1]) + Live(es[i + 1..])
    ensures forall e :: e in es[i + 1..] ==> e in es
  {
    hide *;
    InTail(es, i + 1);
    LiveParts(es[..i + 1], es[i + 1..]);
    assert es == es[..i + 1] + es[i + 1..];
  }

  lemma EndOf<T>(first: Entry?<T>, es: seq<Entry<T>>, i: nat, k: nat)
    requires i < |es| && k <= |es[i + 1..]| && Chained(es[i].link.to, es[i + 1..][k..]) && NullEnded(es[i + 1..])
    ensures NullEnded(es)
  {}

  /** The list without the deleted entries directly behind entry `i`. */
  ghost function Trimmed<T>(es: seq<Entry<T>>, i: nat): (all: seq<Entry<T>>)
    requires i < |es|
    reads es
    ensures i < |all| <= |es| && all[..i + 1] == es[..i + 1] && Within(all, es)
  {
    es[..i + 1] + es[i + 1..][Skip(es[i + 1..])..]
  }

  lemma TrimmedIs<T>(es: seq<Entry<T>>, i: nat)
    requires i < |es|
    ensures Trimmed(es, i) == es[..i + 1] + es[i + 1..][Skip(es[i + 1..])..]
  {}

  /** On from entry `i` to the next entry that is not deleted. */
  method NextBehind<T>(current: Entry<T>, ghost first: Entry?<T>, ghost es: seq<Entry<T>>, ghost i: nat)
    returns (next: Entry?<T>)
    requires i < |es| && es[i] == current && Chained(first, es)
    modifies es
    ensures Trimmed(es, i) == old(Trimmed(es, i)) && Chained(first, Trimmed(es, i))
    ensures Live(Trimmed(es, i)) == old(Live(es)) && Live(Trimmed(es, i)[i + 1..]) == old(Live(es[i + 1..]))
    ensures next == At(Trimmed(es, i), i + 1) && (next != null ==> !next.IsDeleted())
    ensures forall j :: 0 <= j < |es| ==> es[j].link.tag == old(es[j].link.tag)
    ensures NullEnded(es)
  {
    hide *;
    ghost var front, rest := es[..i + 1], es[i + 1..];
    Apart(first, es, i);
    Parts(es, i);
    TrimmedIs(es, i);
    var ptr := NextPtr(current, rest);
    next := ptr.to;
    assert forall j :: 0 <= j < i ==> es[j].link == old(es[j].link);
    assert forall j :: 0 <= j < i ==> front[j] == es[j];
    forall j | 0 <= j < |es|
      ensures es[j].link.tag == old(es[j].link.tag)
    {
      if j > i { assert es[j] == rest[j - i - 1]; }
    }
    EndOf(first, es, i, Skip(rest));
    LiveStays(front);
    Unlinks(first, es, i, Skip(rest));
    TrimmedIs(es, i);
  }

  /** From a deleted entry at the front to the first that is not: what a root is moved to. */
  method NextOf<T>(gone: Entry<T>, ghost es: seq<Entry<T>>) returns (next: Entry?<T>)
    requires Chained(gone, es) && gone.IsDeleted()
    modifies es
    ensures old(Skip(es)) > 0 && Chained(next, es[old(Skip(es))..])
    ensures Live(es[old(Skip(es))..]) == old(Live(es))
    ensures (next != null ==> !next.IsDeleted()) && Ends(es[old(Skip(es))..], es)
    ensures forall i :: 0 <= i < |es| ==> es[i].link.tag == old(es[i].link.tag)
  {
    hide *;
    DeletedFirst(gone, es);
    ghost var rest := es[1..];
    InTail(es, 1);
    EndsAt(es, Skip(es));
    next := NextShared(gone, rest);
    forall i | 0 <= i < |es|
      ensures es[i].link.tag == old(es[i].link.tag)
    {
      if i > 0 { assert es[i] == rest[i - 1]; }
    }
  }

  class Stack<T> {
    var newest: Pointer<T>
    ghost var entries: seq<Entry<T>>

    /** `entries` is everything that `newest` leads to, whether deleted or not. */
    ghost predicate Valid()
      reads this, entries
    {
      newest.tag == Chain.Plain && Chained(newest.to, entries)
    }

    /** The contents, newest first. */
    ghost function Contents(): seq<Entry<T>>
      reads this, entries
    {
      Live(entries)
    }

    lemma Meaning()
      ensures Contents() == Live(entries)
      ensures Valid() <==> newest.tag == Chain.Plain && Chained(newest.to, entries)
    {}

    constructor ()
      ensures Valid() && Contents() == [] && entries == []
    {
      newest := Pointer(null, Chain.Plain);
      entries := [];
    }

    /** `newest` moves past a deleted entry. */
    method Swing()
      requires Valid() && newest.to != null && newest.to.IsDeleted()
      modifies this, entries
      ensures Valid() && Contents() == old(Contents())
      ensures |entries| < old(|entries|) && Ends(entries, old(entries))
    {
      hide *;
      Meaning();
      ghost var left := entries[Skip(entries)..];
      var next := NextOf(newest.to, entries);
      newest := Pointer(next, Chain.Plain);
      entries := left;
      Meaning();
    }

    /** `cleanup_newest`. */
    method CleanupNewest() returns (ptr: Pointer<T>)
      requires Valid()
      modifies this, entries
      ensures Valid() && Contents() == old(Contents()) && ptr == newest && Ends(entries, old(entries))
      ensures if Contents() == [] then ptr.to == null && entries == []
              else ptr.to == Contents()[0] && entries != [] && entries[0] == ptr.to && !ptr.to.IsDeleted()
    {
      hide *;
      ptr := newest;
      EndsAt(entries, 0);
      while ptr.to != null && ptr.to.IsDeleted()
        invariant Valid() && Contents() == old(Contents()) && ptr == newest && Ends(entries, old(entries))
        decreases |entries|
      {
        ghost var was := entries;
        EndsAt(was, 0);
        EndsIn(was, was, old(entries));
        Swing();
        EndsIn(entries, was, old(entries));
        ptr := newest;
      }
      Meaning();
      FirstIsLive(newest.to, entries);
    }

    /** Pushes unless the condition on the newest entry fails. */
    method PushIf(value: T, cond: Option<T> -> bool) returns (r: Result<Entry<T>, T>)
      requires Valid()
      modifies this, entries
      ensures Valid()
      ensures if cond(First(old(Contents())))
              then r.Ok? && fresh(r.value) && r.value.value == value && Contents() == [r.value] + old(Contents())
              else r == Err(value) && Contents() == old(Contents())
    {
      var ptr := CleanupNewest();
      if !cond(if ptr.to == null then None else Some(ptr.to.value)) {
        hide *;
        return Err(value);
      }
      var entry := new Entry(value);
      assert entry !in entries;
      hide *;
      LinkNewest(entry);
      r := Ok(entry);
    }

    /** `newest` is linked to a new entry, and that to what was newest before. */
    method LinkNewest(entry: Entry<T>)
      requires Valid() && entry !in entries && entry.link == Pointer(null, Chain.Plain)
      modifies this, entry
      ensures Valid() && entries == [entry] + old(entries) && Contents() == [entry] + old(Contents())
    {
      Meaning();
      entry.link := Pointer(newest.to, Chain.Plain);
      OneMore(entry, entries);
      newest := Pointer(entry, Chain.Plain);
      entries := [entry] + entries;
      hide Live, Chained;
    }

    /** Pops the newest entry unless the condition on it fails. */
    method PopIf(cond: T -> bool) returns (r: Result<Option<Entry<T>>, Entry<T>>)
      requires Valid()
      modifies this, entries
      ensures Valid() && Within(entries, old(entries))
      ensures var c := old(Contents());
        if c == [] then r == Ok(None) && Contents() == []
        else if !cond(c[0].value) then r == Err(c[0]) && Contents() == c
        else r == Ok(Some(c[0])) && Contents() == c[1..]
    {
      hide Live, Skip, Chained;
      ghost var was := entries;
      EndsAt(was, 0);
      var ptr := CleanupNewest();
      EndsIn(entries, was, was);
      if ptr.to == null { return Ok(None); }
      if !ptr.to.IsDeleted() && !cond(ptr.to.value) { return Err(ptr.to); }
      Delete(ptr.to);
      ghost var left := entries;
      var _ := CleanupNewest();
      EndsIn(entries, left, was);
      r := Ok(Some(ptr.to));
    }

    /** The newest entry is deleted. */
    method Delete(entry: Entry<T>)
      requires Valid() && entries != [] && entries[0] == entry && !entry.IsDeleted()
      modifies entry
      ensures Valid() && entry.IsDeleted() && Contents() == old(Contents())[1..]
    {
      Tail(newest.to, entries);
      ghost var rest := entries[1..];
      var ok := entry.DeleteSelf();
      LiveStays(rest);
      assert Chained(entry.link.to, rest);
      hide Skip;
    }

    /** All entries move to a new stack. */
    method PopAll() returns (other: Stack<T>)
      requires Valid()
      modifies this
      ensures Valid() && Contents() == [] && entries == []
      ensures fresh(other) && other.Valid() && other.Contents() == old(Contents()) && other.entries == old(entries)
    {
      var head := newest;
      newest := Pointer(null, Chain.Plain);
      other := new Stack();
      other.newest := Pointer(head.to, Chain.Plain);
      other.entries := entries;
      entries := [];
    }

    method IsEmpty() returns (empty: bool)
      requires Valid()
      modifies this, entries
      ensures Valid() && Contents() == old(Contents()) && empty == (Contents() == [])
    {
      var ptr := CleanupNewest();
      empty := ptr.to == null;
    }

    /** `Iter::next` at entry `i`: on to the next entry that is not deleted. */
    method Next(current: Entry<T>, ghost i: nat) returns (next: Entry?<T>)
      requires Valid() && i < |entries| && entries[i] == current
      modifies this, entries
      ensures Valid() && Contents() == old(Contents())
      ensures i < |entries| <= |old(entries)| && entries[..i + 1] == old(entries)[..i + 1] && next == At(entries, i + 1)
      ensures Live(entries[i + 1..]) == old(Live(entries[i + 1..])) && (next != null ==> !next.IsDeleted())
      ensures Within(entries, old(entries))
    {
      hide *;
      Meaning();
      ghost var all := Trimmed(entries, i);
      next := NextBehind(current, newest.to, entries, i);
      entries := all;
      Meaning();
    }

    /** `iter().count()`. */
    method Len() returns (n: nat)
      requires Valid()
      modifies this, entries
      ensures Valid() && Contents() == old(Contents()) && n == |Contents()|
    {
      hide *;
      EndsAt(entries, 0);
      var ptr := CleanupNewest();
      EndsIn(entries, old(entries), old(entries));
      Meaning();
      FirstAt(newest.to, entries);
      var current := ptr.to;
      n := 0;
      ghost var i := 0;
      while current != null
        invariant Valid() && Contents() == old(Contents()) && i <= |entries| && current == At(entries, i)
        invariant Within(entries, entries) && Within(entries, old(entries))
        invariant n + |Live(entries[i..])| == |Contents()| && (current != null ==> !current.IsDeleted())
        decreases |entries| - i
      {
        LiveFrom(entries, i);
        ghost var was := entries;
        WithinIs(was, was, old(entries));
        current := Next(current, i);
        WithinIs(entries, was, old(entries));
        Itself(entries);
        i := i + 1;
        n := n + 1;
      }
      LiveEnd(entries, i);
    }
  }
}
