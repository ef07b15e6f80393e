/** The queue (src/queue.rs) run by one thread: first in, first out, also if callers marked, unmarked or
    deleted entries through handles that they kept. */
module QueueCode {
  import opened Base
  import opened ListCode
  import opened StackCode
  import Chain

  function Last<T>(es: seq<Entry<T>>): Option<T> { if es == [] then None else Some(es[|es| - 1].value) }

  // ---------------------------------------------------------------- the end of the queue

  /** The tag of the last entry that is not deleted. */
  ghost function EndTag<T>(es: seq<Entry<T>>): Option<Chain.Tag>
    reads es
  {
    if es == [] then None
    else
      var n := |es| - 1;
      if es[n].IsDeleted() then EndTag(es[..n]) else Some(es[n].link.tag)
  }

  lemma {:induction false} EndTagIs<T>(es: seq<Entry<T>>)
    ensures EndTag(es) == if Live(es) == [] then None else Some(Live(es)[|Live(es)| - 1].link.tag)
  {
    if es != [] {
      var n := |es| - 1;
      EndTagIs(es[..n]);
      LiveParts(es[..n], es[n..]);
      assert es == es[..n] + es[n..];
      assert Live(es[n..]) == if es[n].IsDeleted() then [] else [es[n]];
    }
  }

  twostate lemma {:induction false} EndTagStays<T>(es: seq<Entry<T>>)
    requires forall i :: 0 <= i < |es| ==> es[i].link.tag == old(es[i].link.tag)
    ensures EndTag(es) == old(EndTag(es))
  {
    if es != [] { EndTagStays(es[..|es| - 1]); }
  }

  /** The same contents, the same end. */
  lemma SameEnd<T>(a: seq<Entry<T>>, b: seq<Entry<T>>)
    requires Live(a) == Live(b)
    ensures EndTag(a) == EndTag(b)
  {
    hide *;
    EndTagIs(a);
    EndTagIs(b);
  }

  /** Taken out of the list, with nothing behind it. */
  ghost predicate Gone<T>(e: Entry<T>, es: seq<Entry<T>>)
    reads e
  {
    e !in es && e.link == Pointer(null, Chain.Second)
  }

  /** What `newest` leads to, and where a traversal ends: nothing, the last entry, or a deleted entry
      that the list no longer contains. */
  ghost predicate Tip<T>(p: Entry?<T>, es: seq<Entry<T>>)
    reads p
  {
    p == null || (es != [] && p == es[|es| - 1]) || Gone(p, es)
  }

  lemma TipIs<T>(p: Entry?<T>, es: seq<Entry<T>>)
    ensures Tip(p, es) <==>
      p == null || (es != [] && p == es[|es| - 1]) || (p !in es && p.link == Pointer(null, Chain.Second))
  {}

  /** An entry taken out is a list of its own. */
  lemma GoneAlone<T>(e: Entry<T>, es: seq<Entry<T>>)
    requires Gone(e, es)
    ensures Chained(e, [e]) && e !in es && e.link == Pointer(null, Chain.Second)
  {}

  lemma GoneIs<T>(e: Entry<T>, es: seq<Entry<T>>)
    ensures Gone(e, es) <==> e !in es && e.link == Pointer(null, Chain.Second)
  {}

  lemma GoneStays<T>(e: Entry<T>, es: seq<Entry<T>>)
    requires e !in es && e.link == Pointer(null, Chain.Second)
    ensures Gone(e, es)
  {}

  /** If the last entry is not deleted, it is the last of the contents. */
  lemma LastIsLive<T>(es: seq<Entry<T>>)
    requires es != [] && !es[|es| - 1].IsDeleted()
    ensures Live(es) != [] && Live(es)[|Live(es)| - 1] == es[|es| - 1]
    ensures EndTag(es) == Some(es[|es| - 1].link.tag)
  {
    var n := |es| - 1;
    LiveParts(es[..n], es[n..]);
    assert es == es[..n] + es[n..];
    assert Live(es[n..]) == [es[n]];
  }

  function Final<T>(es: seq<Entry<T>>): Entry?<T> { if es == [] then null else es[|es| - 1] }

  lemma FinalIs<T>(es: seq<Entry<T>>)
    ensures Final(es) == if es == [] then null else es[|es| - 1]
  {}

  lemma FinalTag<T>(es: seq<Entry<T>>)
    requires es != [] && es[|es| - 1].IsDeleted() ==> |es| == 1
    ensures (Final(es) == null || Final(es).IsClear()) <==> es == [] || EndTag(es) == Some(Chain.Plain)
  {}

  // ---------------------------------------------------------------- a new entry behind the last one

  lemma Appended<T>(first: Entry?<T>, es: seq<Entry<T>>, e: Entry<T>)
    requires first == At(es + [e], 0) && e !in es && e.link == Pointer(null, Chain.Plain)
    requires forall i :: 0 <= i < |es| ==> es[i].link.to == At(es + [e], i + 1)
    requires forall i, j :: 0 <= i < j < |es| ==> es[i] != es[j]
    ensures Chained(first, es + [e]) && Live(es + [e]) == Live(es) + [e]
  {
    hide *;
    LiveParts(es, [e]);
    OneLive(e);
    AppendedChain(first, es, e);
  }

  lemma AppendedChain<T>(first: Entry?<T>, es: seq<Entry<T>>, e: Entry<T>)
    requires first == At(es + [e], 0) && e !in es && e.link.to == null
    requires forall i :: 0 <= i < |es| ==> es[i].link.to == At(es + [e], i + 1)
    requires forall i, j :: 0 <= i < j < |es| ==> es[i] != es[j]
    ensures Chained(first, es + [e])
  {
    var all := es + [e];
    assert forall i :: 0 <= i < |es| ==> all[i] == es[i];
    forall i | 0 <= i < |all|
      ensures all[i].link.to == At(all, i + 1)
    {
      if i < |es| { assert all[i] == es[i]; }
    }
    hide At;
  }

  lemma OneLive<T>(e: Entry<T>)
    requires e.link == Pointer(null, Chain.Plain)
    ensures Live([e]) == [e]
  {}

  lemma Appends<T>(first: Entry?<T>, es: seq<Entry<T>>, e: Entry<T>)
    requires es != [] && first == es[0] && e !in es && e.link == Pointer(null, Chain.Plain)
    requires (forall i :: 0 <= i < |es| - 1 ==> es[i].link.to == es[i + 1]) && es[|es| - 1].link.to == e
    requires forall i, j :: 0 <= i < j < |es| ==> es[i] != es[j]
    ensures Chained(first, es + [e]) && Live(es + [e]) == Live(es) + [e]
  {
    Appended(first, es, e);
    hide Live;
  }

  lemma Alone<T>(e: Entry<T>)
    requires e.link == Pointer(null, Chain.Plain)
    ensures Chained(e, [e]) && Live([e]) == [e] && Live<T>([]) == []
  {}

  lemma LiveTail<T>(es: seq<Entry<T>>)
    requires es != []
    ensures Live(es) == if es[0].IsDeleted() then Live(es[1..]) else [es[0]] + Live(es[1..])
    ensures Live(es[1..]) != [] ==> EndTag(es) == EndTag(es[1..])
  {
    EndTagIs(es);
    EndTagIs(es[1..]);
  }

  lemma ChainedTail<T>(first: Entry?<T>, es: seq<Entry<T>>)
    requires es != [] && first == es[0] && first !in es[1..] && Chained(first.link.to, es[1..])
    ensures Chained(first, es)
  {
    var rest := es[1..];
    forall i | 0 <= i < |es|
      ensures es[i].link.to == At(es, i + 1)
    {
      if i > 0 { assert es[i] == rest[i - 1] && At(es, i + 1) == At(rest, i); }
    }
    assert forall i :: 0 < i < |es| ==> es[i] == rest[i - 1];
  }

  lemma AtIs<T>(es: seq<Entry<T>>, i: nat)
    ensures At(es, i) == if i < |es| then es[i] else null
  {}

  lemma LastLink<T>(first: Entry?<T>, es: seq<Entry<T>>)
    requires Chained(first, es) && es != []
    ensures es[|es| - 1].link.to == null && first == es[0] && (forall i, j :: 0 <= i < j < |es| ==> es[i] != es[j])
    ensures forall i :: 0 <= i < |es| - 1 ==> es[i].link.to == es[i + 1] && es[i] != es[|es| - 1]
  {}

  lemma NullEnd<T>(es: seq<Entry<T>>)
    requires NullEnded(es) && es != []
    ensures es[|es| - 1].link.to == null
  {}

  lemma ClearIs<T>(e: Entry<T>)
    ensures e.IsClear() <==> e.link.tag == Chain.Plain
    ensures e.IsDeleted() <==> e.link.tag == Chain.Second
    ensures e.IsMarked() <==> e.link.tag == Chain.First
  {}

  /** The last entry behind entry `i` stays, unless everything behind `i` is deleted. */
  lemma Ending<T>(es: seq<Entry<T>>, i: nat)
    requires i < |es|
    ensures var all, n := Trimmed(es, i), |es| - 1;
      all[0] == es[0] && all[i] == es[i] && (all[|all| - 1] == es[n] || (es[n].IsDeleted() && |all| == i + 1))
    ensures (forall j, k :: 0 <= j < k < |es| ==> es[j] != es[k]) ==>
      var all, n := Trimmed(es, i), |es| - 1; all[|all| - 1] == es[n] || es[n] !in all
  {
    hide Live, Chained;
  }

  /** What a traversal may do to the last entry: it stays, or it is taken out because it is deleted. */
  ghost predicate EndKept<T>(left: seq<Entry<T>>, es: seq<Entry<T>>)
    reads es
  {
    es == [] || (left != [] && (left[|left| - 1] == es[|es| - 1] || Gone(es[|es| - 1], left)))
  }

  lemma TipTraversed<T>(p: Entry?<T>, es: seq<Entry<T>>, left: seq<Entry<T>>)
    requires p == null || (es != [] && p == es[|es| - 1]) || (p !in es && p.link == Pointer(null, Chain.Second))
    requires Within(left, es) && EndKept(left, es)
    ensures Tip(p, left)
  {}

  lemma EndKeptIs<T>(left: seq<Entry<T>>, es: seq<Entry<T>>)
    ensures EndKept(left, es) <==>
      es == [] || (left != [] && (left[|left| - 1] == es[|es| - 1] || Gone(es[|es| - 1], left)))
  {}

  /** One step of a traversal: the end is kept. */
  lemma KeptOn<T>(all: seq<Entry<T>>, left: seq<Entry<T>>, es: seq<Entry<T>>)
    requires Within(all, left) && all != [] && left != []
    requires all[|all| - 1] == left[|left| - 1] || Gone(left[|left| - 1], all)
    requires es != [] && (left[|left| - 1] == es[|es| - 1] || Gone(es[|es| - 1], left))
    ensures EndKept(all, es)
  {}

  /** `traverse`, from entry `i` to the end. */
  method Traverse<T>(start: Entry?<T>, ghost first: Entry?<T>, ghost es: seq<Entry<T>>, ghost i: nat)
    returns (last: Entry?<T>, ghost left: seq<Entry<T>>)
    requires Chained(first, es) && start == At(es, i) && (es != [] ==> i < |es|)
    modifies es
    ensures Chained(first, left) && Live(left) == old(Live(es)) && EndTag(left) == old(EndTag(es))
    ensures Within(left, es) && EndKept(left, es)
    ensures if es == [] then last == null && left == [] else i < |left| <= |es| && last == left[|left| - 1]
    ensures last != null ==> !last.IsDeleted() || (|left| == i + 1 && last == start)
    ensures i + 1 == |es| ==> last == start
    ensures forall k :: 0 <= k < |es| ==> es[k].link.tag == old(es[k].link.tag)
  {
    hide *;
    AtIs(es, i);
    last := start;
    left := es;
    ghost var j: nat := i;
    Itself(es);
    EndKeptIs(es, es);
    WithinIs(left, left, es);
    while last != null
      invariant Chained(first, left) && Live(left) == old(Live(es)) && Within(left, es) && EndKept(left, es)
      invariant last == At(left, j) && i <= j && (j == i ==> last == start)
      invariant if es == [] then left == [] else j < |left| <= |es|
      invariant last != null ==> !last.IsDeleted() || j == i
      invariant forall k :: 0 <= k < |es| ==> es[k].link.tag == old(es[k].link.tag)
      decreases |left| - j
    {
      AtIs(left, j);
      WithinIs(left, left, es) by { Itself(left); }
      ClearIs(last);
      var next;
      next, left := Onward(last, first, es, left, j);
      AtIs(left, j + 1);
      ClearIs(last);
      if next == null { break; }
      last := next;
      j := j + 1;
    }
    LiveStays(es);
    EndTagStays(es);
    SameEnd(left, es);
    AtIs(left, j);
    AtIs(left, j + 1);
  }

  /** One step of `traverse`. */
  method Onward<T>(
    current: Entry<T>, ghost first: Entry?<T>, ghost es: seq<Entry<T>>, ghost left: seq<Entry<T>>, ghost j: nat)
    returns (next: Entry?<T>, ghost all: seq<Entry<T>>)
    requires Chained(first, left) && Within(left, es) && EndKept(left, es) && j < |left| && left[j] == current
    modifies left
    ensures Chained(first, all) && Live(all) == old(Live(left)) && Within(all, es) && EndKept(all, es)
    ensures j < |all| <= |left| && all[j] == current && next == At(all, j + 1) && (next != null ==> !next.IsDeleted())
    ensures forall k :: 0 <= k < |es| ==> es[k].link.tag == old(es[k].link.tag)
  {
    hide *;
    all := Trimmed(left, j);
    ghost var end := left[|left| - 1];
    Ending(left, j);
    LastLink(first, left);
    ClearIs(end);
    EndKeptIs(left, es);
    WithinIs(all, left, es);
    WithinIs(left, left, es) by { Itself(left); }
    assert left[j] in es;
    GoneIs(es[|es| - 1], left);
    next := NextBehind(current, first, left, j);
    NullEnd(left);
    forall k | 0 <= k < |es|
      ensures es[k].link.tag == old(es[k].link.tag)
    {
      if es[k] in left { var m :| 0 <= m < |left| && left[m] == es[k]; }
    }
    assert end.link.tag == old(end.link.tag);
    ClearIs(end);
    GoneIs(end, all);
    GoneIs(es[|es| - 1], left);
    KeptOn(all, left, es);
    AtIs(all, j + 1);
  }

  class Queue<T> {
    var oldest: Pointer<T>
    var newest: Pointer<T>
    ghost var entries: seq<Entry<T>>

    /** `entries` is everything that `oldest` leads to, whether deleted or not; `newest` points to the
        last of them, or to a deleted entry that has been taken out, or has been reset. */
    ghost predicate Valid()
      reads this, entries, newest.to
    {
      && oldest.tag == Chain.Plain && Chained(oldest.to, entries)
      && newest.tag == Chain.Plain && Tip(newest.to, entries)
    }

    /** The contents, oldest first. */
    ghost function Contents(): seq<Entry<T>>
      reads this, entries
    {
      Live(entries)
    }

    /** An entry can be pushed: the newest entry of the contents carries no mark, or, without contents,
        all deleted entries have been cleaned up. */
    ghost predicate Open()
      reads this, entries
    {
      entries == [] || EndTag(entries) == Some(Chain.Plain)
    }

    /** Pushes and pops alone keep a queue open; `Open` in terms of the contents. */
    lemma OpenMeans()
      ensures Open() <==>
        if Contents() == [] then entries == [] else Contents()[|Contents()| - 1].IsClear()
    {
      EndTagIs(entries);
    }

    /** `newest` says whether there are contents.  Pushes and pops keep this. */
    ghost predicate Ready()
      reads this, entries
    {
      newest.to == null <==> Contents() == []
    }

    lemma Meaning()
      ensures Contents() == Live(entries)
      ensures Valid() <==>
        && oldest.tag == Chain.Plain && Chained(oldest.to, entries)
        && newest.tag == Chain.Plain && Tip(newest.to, entries)
      ensures Open() <==> entries == [] || EndTag(entries) == Some(Chain.Plain)
      ensures Ready() <==> (newest.to == null <==> Contents() == [])
      ensures entries == [] ==> Contents() == []
    {}

    constructor ()
      ensures Valid() && Open() && Ready() && Contents() == []
    {
      oldest, newest := Pointer(null, Chain.Plain), Pointer(null, Chain.Plain);
      entries := [];
    }

    /** `cleanup_oldest`, also when nothing but deleted entries is left. */
    method CleanupOldest() returns (ptr: Pointer<T>)
      requires Valid()
      modifies this, entries
      ensures Valid() && Contents() == old(Contents()) && ptr == oldest && Ends(entries, old(entries))
      ensures EndTag(entries) == old(EndTag(entries))
      ensures newest.to == if entries == [] && old(entries) != [] then null else old(newest.to)
      ensures old(entries) != [] && old(entries[0].IsDeleted()) ==> |entries| < |old(entries)|
      ensures if Contents() == [] then ptr.to == null && entries == []
              else ptr.to == Contents()[0] && entries != [] && entries[0] == ptr.to && !ptr.to.IsDeleted()
    {
      hide *;
      Meaning();
      FirstAt(oldest.to, entries);
      EndsAt(entries, 0);
      ptr := oldest;
      if ptr.to != null && ptr.to.IsDeleted() {
        Swing();
        ptr := oldest;
      }
      Meaning();
      FirstIsLive(oldest.to, entries);
    }

    /** `oldest` moves past a deleted entry; when the queue is empty, `newest` is reset. */
    method Swing()
      requires Valid() && oldest.to != null && oldest.to.IsDeleted()
      modifies this, entries
      ensures Valid() && Contents() == old(Contents()) && EndTag(entries) == old(EndTag(entries))
      ensures |entries| < old(|entries|) && Ends(entries, old(entries))
      ensures oldest.to != null ==> !oldest.to.IsDeleted()
      ensures newest.to == if entries == [] then null else old(newest.to)
    {
      hide *;
      Meaning();
      ghost var was, left := entries, entries[Skip(entries)..];
      TipIs(newest.to, was);
      var next := NextOf(oldest.to, was);
      LiveStays(was);
      EndTagStays(was);
      SameEnd(left, was);
      TipIs(newest.to, left);
      Point(next, left);
    }

    method Point(next: Entry?<T>, ghost left: seq<Entry<T>>)
      requires Chained(next, left) && newest.tag == Chain.Plain && (left != [] ==> Tip(newest.to, left))
      modifies this
      ensures Valid() && entries == left && oldest.to == next && Contents() == old(Live(left))
      ensures EndTag(left) == old(EndTag(left)) && newest.to == if left == [] then null else old(newest.to)
    {
      oldest := Pointer(next, Chain.Plain);
      if oldest.to == null { newest := Pointer(null, Chain.Plain); }
      entries := left;
      FirstAt(next, left);
      hide Chained, Live, EndTag;
    }

    ghost method Trim(all: seq<Entry<T>>)
      requires oldest.tag == Chain.Plain && newest.tag == Chain.Plain && Chained(oldest.to, all)
      requires Tip(newest.to, all)
      modifies this`entries
      ensures Valid() && entries == all && newest == old(newest) && Contents() == Live(all) == old(Live(all))
      ensures EndTag(all) == old(EndTag(all))
    {
      entries := all;
      hide Chained, Live, EndTag;
    }

    /** `traverse`, applied to an entry of the queue or to one that has been taken out. */
    method Walk(start: Entry?<T>, ghost i: nat, ghost gone: bool) returns (last: Entry?<T>)
      requires Valid() && (gone ==> start != null)
      requires if gone then Gone(start, entries) else start == At(entries, i) && (entries != [] ==> i < |entries|)
      modifies this, entries, start
      ensures Valid() && Contents() == old(Contents()) && EndTag(entries) == old(EndTag(entries))
      ensures Within(entries, old(entries)) && (entries == [] <==> old(entries) == []) && newest == old(newest)
      ensures if gone then last == start && Gone(last, entries)
              else if entries == [] then last == null
              else i < |entries| <= |old(entries)| && last == entries[|entries| - 1]
      ensures !gone && last != null ==> !last.IsDeleted() || (|entries| == i + 1 && last == start)
      ensures i + 1 == |old(entries)| ==> last == start
    {
      hide *;
      Meaning();
      ghost var was, es, k, first := entries, entries, i, oldest.to;
      TipIs(newest.to, was);
      if gone {
        es, k, first := [start], 0, start;
        GoneAlone(start, was);
      }
      ghost var left;
      last, left := Traverse(start, first, es, k);
      if gone {
        LastLink(first, left);
        assert es[0].link.tag == old(es[0].link.tag);
        GoneStays(start, was);
        TipIs(newest.to, was);
        Itself(was);
        Trim(was);
      } else {
        TipTraversed(newest.to, was, left);
        Trim(left);
      }
    }

    /** The last step of a push: `newest` follows, unless the queue has been emptied in the meantime. */
    method Follow(entry: Entry<T>, ghost all: seq<Entry<T>>)
      requires oldest.tag == Chain.Plain && Chained(oldest.to, all)
      requires all != [] && all[|all| - 1] == entry && entry.link.tag == Chain.Plain
      modifies this
      ensures Valid() && Open() && entries == all && Contents() == old(Live(all)) && newest.to == entry
    {
      newest := if oldest.to == null then Pointer(null, Chain.Plain) else Pointer(entry, Chain.Plain);
      FirstAt(oldest.to, all);
      entries := all;
      LastIsLive(all);
      hide Chained, Live, EndTag;
    }

    /** The new entry is linked behind the last one, unless that has been marked or deleted. */
    method LinkLast(at: Entry<T>, entry: Entry<T>) returns (ok: bool)
      requires Valid() && Tip(at, entries)
      requires entry !in entries && entry.link == Pointer(null, Chain.Plain)
      modifies this, at
      ensures ok == old(at.IsClear())
      ensures ok ==> Valid() && Open() && old(Open()) && Contents() == old(Contents()) + [entry] && newest.to == entry
      ensures !ok ==> Valid() && Contents() == old(Contents()) && Open() == old(Open())
      ensures !ok ==> entries == old(entries) && Tip(at, entries) && !at.IsClear() && newest == old(newest)
    {
      hide *;
      Meaning();
      TipIs(at, entries);
      ClearIs(at);
      if entries != [] && at == entries[|entries| - 1] { LastLink(oldest.to, entries); }
      ok := at.link == Pointer(null, Chain.Plain);
      if ok {
        LastIsLive(entries);
        at.link := Pointer(entry, Chain.Plain);
        assert forall i :: 0 <= i < |entries| - 1 ==> entries[i].link == old(entries[i].link);
        LiveStays(entries);
        Appends(oldest.to, entries, entry);
        Follow(entry, entries + [entry]);
      }
    }

    method LinkFirst(entry: Entry<T>) returns (ok: bool)
      requires Valid() && entries == [] && entry.link == Pointer(null, Chain.Plain)
      modifies this
      ensures ok && Valid() && Open() && old(Open()) && Contents() == old(Contents()) + [entry] && newest.to == entry
    {
      hide *;
      Meaning();
      FirstAt(oldest.to, entries);
      ok := oldest == Pointer(null, Chain.Plain);
      if ok { oldest := Pointer(entry, Chain.Plain); }
      Alone(entry);
      Follow(entry, [entry]);
      Meaning();
    }

    /** A traversal has ended at an entry that takes no successor. */
    lemma Refused(at: Entry<T>)
      requires Valid() && Tip(at, entries) && !at.IsClear()
      ensures at.link.to == null && oldest.to == At(entries, 0) && (entries == [] ==> Open())
      ensures at.link.tag == Chain.First ==> entries != [] && !Open() && Contents() != []
    {
      if entries != [] && !at.IsDeleted() { LastIsLive(entries); }
    }

    /** Where a failed push starts again: a mark is taken for the sign of a clean-up. */
    method Again(at: Entry<T>) returns (start: Entry?<T>)
      requires Valid() && Tip(at, entries) && !at.IsClear()
      modifies this, entries
      ensures Valid() && Contents() == old(Contents()) && Open() == old(Open())
      ensures Within(entries, old(entries)) && start == At(entries, 0) && newest.to == old(newest.to)
    {
      hide *;
      Refused(at);
      Itself(entries);
      var seen := at.link;
      start := if seen.to == null then oldest.to else seen.to;
      if seen.tag == Chain.First {
        ghost var was := entries;
        Meaning();
        var ptr := CleanupOldest();
        start := ptr.to;
        Meaning();
        FirstAt(oldest.to, entries);
        EndsIn(entries, was, was) by { EndsAt(was, 0); }
      }
    }

    /** What a failed round looks at next. */
    method Retry(at: Entry<T>) returns (again: Entry?<T>)
      requires Valid() && Tip(at, entries) && !at.IsClear()
      modifies this, entries
      ensures Valid() && Contents() == old(Contents()) && Open() == old(Open())
      ensures Within(entries, old(entries)) && again == Final(entries) && newest.to == old(newest.to)
      ensures (again == null || again.IsClear()) == Open()
    {
      hide *;
      ghost var was := entries;
      var start := Again(at);
      ghost var left := entries;
      AtIs(left, 0);
      WithinIs(left, left, was) by { Itself(left); }
      Meaning();
      again := Walk(start, 0, false);
      WithinIs(entries, left, was);
      Meaning();
      FinalIs(entries);
      FinalTag(entries);
    }

    /** One round of the loop of `push_if_internal`, `at` being where a traversal ended.  A round that fails
        leaves the queue as open as it was, and the next one succeeds exactly if the queue is open: a
        pusher waits for ever if the last entry is marked, or is the only one and deleted. */
    method Round(at: Entry?<T>, entry: Entry<T>) returns (ok: bool, again: Entry?<T>)
      requires Valid() && Tip(at, entries) && (at == null ==> entries == [])
      requires entry !in entries && entry.link == Pointer(null, Chain.Plain)
      modifies this, entries, at
      ensures Valid() && ok == (at == null || old(at.IsClear())) && Open() == old(Open())
      ensures if ok then Open() && Contents() == old(Contents()) + [entry]
              else Contents() == old(Contents()) && Within(entries, old(entries)) && again == Final(entries)
      ensures !ok ==> (again == null || again.IsClear()) == Open()
      ensures newest.to == if ok then entry else old(newest.to)
    {
      hide *;
      again := at;
      if at == null {
        ok := LinkFirst(entry);
      } else {
        ok := LinkLast(at, entry);
        if !ok { again := Retry(at); }
      }
    }

    /** Where a push starts. */
    lemma Start()
      requires Valid()
      ensures newest.to == null ==> oldest.to == At(entries, 0) && (oldest.to == null || oldest.to in entries)
      ensures newest.to != null ==>
        if newest.to in entries then entries != [] && newest.to == At(entries, |entries| - 1)
        else Gone(newest.to, entries)
    {}

    /** What the condition is tried on. */
    lemma Judged(at: Entry?<T>)
      requires at == Final(entries) || (at != null && Gone(at, entries))
      ensures Tip(at, entries) && (at == null ==> entries == [])
      ensures at == Final(entries) && at != null ==> at in entries
      ensures at == null || at.IsClear() ==> Last(Contents()) == if at == null then None else Some(at.value)
    {
      if at != null && at.IsClear() { LastIsLive(entries); }
    }

    /** Marking, unmarking and deleting entries through handles changes tags only, and those of entries taken
        out not at all. */
    twostate lemma CallersKeep()
      requires old(Valid()) && unchanged(this)
      requires forall i :: 0 <= i < |entries| ==> entries[i].link.to == old(entries[i].link.to)
      requires newest.to != null && newest.to !in entries ==> newest.to.link == old(newest.to.link)
      ensures Valid()
    {}

    /** An undeleted entry that `newest` points to is the newest of the contents. */
    lemma Newest()
      requires Valid() && newest.to != null && !newest.to.IsDeleted()
      ensures Last(Contents()) == Some(newest.to.value)
    {
      LastIsLive(entries);
    }

    /** Pushes unless the condition on the newest entry fails; if `newest` points to a deleted entry, the
        condition is tried on that one first. */
    method PushIf(value: T, cond: Option<T> -> bool) returns (r: Result<Entry<T>, T>)
      requires Valid() && Open()
      modifies this, entries, newest.to
      ensures Valid() && Open()
      ensures if cond(Last(old(Contents()))) && (old(newest.to) == null || cond(Some(old(newest.to).value)))
              then r.Ok? && fresh(r.value) && r.value.value == value && Contents() == old(Contents()) + [r.value]
              else r == Err(value) && Contents() == old(Contents())
      ensures newest.to == if r.Ok? then r.value else old(newest.to)
      ensures r.Ok? || old(Ready()) ==> Ready()
    {
      hide *;
      var at := newest.to;
      Start();
      Meaning();
      ghost var i := if at == null || entries == [] then 0 else |entries| - 1;
      ghost var gone := at != null && at !in entries;
      ghost var was, first := entries, at;
      if at == null { at := oldest.to; }
      at := Walk(at, i, gone);
      Meaning();
      FinalIs(entries);
      if first == null { FinalTag(entries); }
      Judged(at);
      WithinIs(entries, entries, was) by { Itself(entries); }
      if !cond(if at == null then None else Some(at.value)) { return Err(value); }
      var entry := new Entry(value);
      ghost var left := entries;
      var ok, again := Round(at, entry);
      if !ok {
        WithinIs(entries, left, was);
        WithinIs(entries, entries, was) by { Itself(entries); }
      }
      while !ok
        invariant Valid() && Open() && (!ok ==> entry !in entries && entry.link == Pointer(null, Chain.Plain))
        invariant if ok then Contents() == old(Contents()) + [entry] else Contents() == old(Contents())
        invariant old(newest.to) == null || cond(Some(old(newest.to).value))
        invariant ok ==> cond(Last(old(Contents())))
        invariant newest.to == if ok then entry else first
        invariant !ok ==> again == Final(entries) && (again == null || again.IsClear()) && Within(entries, was)
        decreases !ok
      {
        at := again;
        Judged(at);
        WithinIs(entries, entries, was) by { Itself(entries); }
        Meaning();
        if !cond(if at == null then None else Some(at.value)) { return Err(value); }
        ok, again := Round(at, entry);
      }
      Meaning();
      r := Ok(entry);
    }

    /** Pops the oldest entry unless the condition on it fails. */
    method PopIf(cond: T -> bool) returns (r: Result<Option<Entry<T>>, Entry<T>>)
      requires Valid()
      modifies this, entries
      ensures Valid() && (old(Open()) ==> Open()) && (old(Ready()) ==> Ready())
      ensures newest.to == if entries == [] && old(entries) != [] then null else old(newest.to)
      ensures var c := old(Contents());
        if c == [] then r == Ok(None) && Contents() == [] && Open()
        else if !cond(c[0].value) then r == Err(c[0]) && Contents() == c
        else r == Ok(Some(c[0])) && Contents() == c[1..]
    {
      hide *;
      var current := oldest.to;
      Meaning();
      Itself(entries);
      Front(current);
      while current != null
        invariant Valid() && Contents() == old(Contents()) && current == oldest.to
        invariant Within(entries, entries) && Within(entries, old(entries)) && (old(Open()) ==> Open())
        invariant newest.to == if entries == [] && old(entries) != [] then null else old(newest.to)
        decreases |entries|
      {
        Front(current);
        Meaning();
        WithinIs(entries, entries, old(entries));
        var deleted := current.IsDeleted();
        if !deleted && !cond(current.value) { return Err(current); }
        if !deleted {
          Meaning();
          Delete(current);
          var _ := CleanupOldest();
          Meaning();
          return Ok(Some(current));
        }
        ghost var was := entries;
        Meaning();
        var ptr := CleanupOldest();
        Meaning();
        EndsIn(entries, was, was) by { EndsAt(was, 0); }
        WithinIs(entries, was, old(entries));
        current := ptr.to;
      }
      Nothing();
      Front(current);
      Meaning();
      r := Ok(None);
    }

    /** `is_empty` looks at `newest` only. */
    method IsEmpty() returns (empty: bool)
      requires Valid()
      ensures empty == (newest.to == null) && (Ready() ==> empty == (Contents() == []))
    {
      empty := newest.to == null;
      hide EndTag, Chained, Tip, Live;
    }

    lemma Front(current: Entry?<T>)
      requires Valid() && current == oldest.to
      ensures current == null <==> entries == []
      ensures current != null ==> entries[0] == current
      ensures current != null && !current.IsDeleted() ==> Contents() != [] && Contents()[0] == current
    {}

    lemma Nothing()
      requires Valid() && oldest.to == null
      ensures Contents() == [] && Open()
    {}

    /** The oldest entry is deleted. */
    method Delete(entry: Entry<T>)
      requires Valid() && entries != [] && entries[0] == entry && !entry.IsDeleted()
      modifies entry
      ensures Valid() && entry.IsDeleted() && Contents() == old(Contents())[1..]
      ensures Contents() != [] ==> EndTag(entries) == old(EndTag(entries))
    {
      hide *;
      Meaning();
      Tail(oldest.to, entries);
      ghost var was, rest := entries, entries[1..];
      LiveTail(was);
      TipIs(newest.to, was);
      FirstAt(oldest.to, was);
      var ok := entry.DeleteSelf();
      assert forall k :: 0 <= k < |rest| ==> rest[k] != entry && rest[k].link == old(rest[k].link);
      LiveStays(rest);
      EndTagStays(rest);
      LiveTail(was);
      TipIs(newest.to, was);
      ChainedTail(oldest.to, was);
      Meaning();
    }
  }
}
