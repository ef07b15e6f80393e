/** The linked list (src/linked_list.rs) run by one thread, on mutable entries: the operations of
    `LinkedList`, and the recursive clean-up against "the first entry that is not deleted". */
module ListCode {
  import Chain

  type Tag = Chain.Tag

  /** What an `AtomicShared` holds: a pointer with a tag. */
  datatype Pointer<T> = Pointer(to: Entry?<T>, tag: Tag)

  // ---------------------------------------------------------------- the entries behind a link

  /** The links lead from `first` through exactly these entries. */
  ghost predicate Chained<T>(first: Entry?<T>, es: seq<Entry<T>>)
    reads es
  {
    && first == At(es, 0)
    && (forall i :: 0 <= i < |es| ==> es[i].link.to == At(es, i + 1))
    && forall i, j :: 0 <= i < j < |es| ==> es[i] != es[j]
  }

  ghost function At<T>(es: seq<Entry<T>>, i: nat): Entry?<T> { if i < |es| then es[i] else null }

  /** Nothing is behind the last entry. */
  ghost predicate NullEnded<T>(es: seq<Entry<T>>)
    reads es
  {
    es != [] ==> es[|es| - 1].link.to == null
  }

  /** How many entries at the front are deleted. */
  ghost function Skip<T>(es: seq<Entry<T>>): (k: nat)
    reads es
    ensures k <= |es| && (forall i :: 0 <= i < k ==> es[i].IsDeleted()) && (k < |es| ==> !es[k].IsDeleted())
  {
    if es == [] || !es[0].IsDeleted() then 0 else 1 + Skip(es[1..])
  }

  /** The entries that are not deleted: what the list contains. */
  ghost function Live<T>(es: seq<Entry<T>>): seq<Entry<T>>
    reads es
  {
    if es == [] then [] else (if es[0].IsDeleted() then [] else [es[0]]) + Live(es[1..])
  }

  lemma {:induction false} SkipIs<T>(es: seq<Entry<T>>, n: nat)
    requires n <= |es| && (forall i :: 0 <= i < n ==> es[i].IsDeleted()) && (n < |es| ==> !es[n].IsDeleted())
    ensures Skip(es) == n
  {
    if n > 0 { SkipIs(es[1..], n - 1); }
  }

  /** The first of these is the first entry behind the deleted ones. */
  lemma {:induction false} LiveSkips<T>(es: seq<Entry<T>>)
    ensures Live(es) == Live(es[Skip(es)..])
    ensures if Skip(es) == |es| then Live(es) == [] else Live(es) == [es[Skip(es)]] + Live(es[Skip(es) + 1..])
  {
    if es != [] && es[0].IsDeleted() {
      LiveSkips(es[1..]);
      assert es[1..][Skip(es[1..])..] == es[Skip(es)..];
      if Skip(es) < |es| { assert es[1..][Skip(es[1..]) + 1..] == es[Skip(es) + 1..]; }
    }
  }

  /** What the list contains depends on the tags only. */
  twostate lemma {:induction false} LiveStays<T>(es: seq<Entry<T>>)
    requires forall i :: 0 <= i < |es| ==> es[i].link.tag == old(es[i].link.tag)
    ensures Live(es) == old(Live(es)) && Skip(es) == old(Skip(es))
  {
    if es != [] { LiveStays(es[1..]); }
  }

  lemma Suffix<T>(first: Entry?<T>, es: seq<Entry<T>>, k: nat)
    requires Chained(first, es) && k <= |es|
    ensures Chained(At(es, k), es[k..])
  {}

  lemma OneMore<T>(e: Entry<T>, es: seq<Entry<T>>)
    requires Chained(e.link.to, es) && e !in es && !e.IsDeleted()
    ensures Chained(e, [e] + es) && Live([e] + es) == [e] + Live(es)
  {
    var all := [e] + es;
    assert all[1..] == es;
    forall i | 0 <= i < |all|
      ensures all[i].link.to == At(all, i + 1)
    {
      if i > 0 { assert all[i] == es[i - 1] && At(all, i + 1) == At(es, i); }
    }
  }

  class Entry<T> {
    const value: T
    var link: Pointer<T>

    constructor (value: T)
      ensures this.value == value && link == Pointer(null, Chain.Plain)
    {
      this.value := value;
      link := Pointer(null, Chain.Plain);
    }

    predicate IsClear()
      reads this
    {
      link.tag == Chain.Plain
    }

    predicate IsMarked()
      reads this
    {
      link.tag == Chain.First
    }

    predicate IsDeleted()
      reads this
    {
      link.tag == Chain.Second
    }

    /** `update_tag_if(First, None?)`. */
    method Mark() returns (ok: bool)
      modifies this
      ensures ok == old(IsClear()) && link.to == old(link.to)
      ensures if ok then IsMarked() else link == old(link)
    {
      ok := link.tag == Chain.Plain;
      if ok { link := link.(tag := Chain.First); }
    }

    method Unmark() returns (ok: bool)
      modifies this
      ensures ok == old(IsMarked()) && link.to == old(link.to)
      ensures if ok then IsClear() else link == old(link)
    {
      ok := link.tag == Chain.First;
      if ok { link := link.(tag := Chain.Plain); }
    }

    /** Succeeds once; the successor stays. */
    method DeleteSelf() returns (ok: bool)
      modifies this
      ensures ok == !old(IsDeleted()) && IsDeleted() && link.to == old(link.to)
    {
      ok := link.tag == Chain.Plain || link.tag == Chain.First;
      if ok { link := link.(tag := Chain.Second); }
    }

    method CompareExchange(seen: Pointer<T>, wanted: Pointer<T>) returns (ok: bool)
      modifies this
      ensures ok == (old(link) == seen) && link == if ok then wanted else old(link)
    {
      ok := link == seen;
      if ok { link := wanted; }
    }

    /** Links an entry behind this one unless this one is deleted.  The mark is replaced. */
    method PushBack(entry: Entry<T>, mark: bool, ghost es: seq<Entry<T>>) returns (ok: bool)
      requires entry != this && this !in es && entry !in es && Chained(link.to, es)
      modifies this, entry
      ensures ok == !old(IsDeleted())
      ensures if ok then Chained(link.to, [entry] + es) else link == old(link) && entry.link == old(entry.link)
      ensures ok ==> IsMarked() == mark && IsClear() == !mark && entry.IsClear()
      ensures ok ==> Live([entry] + es) == [entry] + old(Live(es))
    {
      var next := link;
      if next.tag == Chain.Second { return false; }
      entry.link := Pointer(next.to, Chain.Plain);
      ok := CompareExchange(next, Pointer(entry, if mark then Chain.First else Chain.Plain));
      LiveStays(es);
      OneMore(entry, es);
      hide Live, Chained;
    }
  }

  // ---------------------------------------------------------------- the recursive clean-up

  /** What the clean-up leaves behind: the result is the first entry not deleted; the head, and as many
      of the deleted entries as the depth allows, are linked straight to it; no tag has changed, and no
      link of any other entry. */
  twostate predicate Cleaned<T>(head: Entry<T>, depth: nat, es: seq<Entry<T>>, new valid: Pointer<T>)
    reads head, es
  {
    var k := old(Skip(es));
    && valid.to == At(es, k)
    && head.link == Pointer(valid.to, old(head.link.tag))
    && forall i :: 0 <= i < |es| ==>
        es[i].link == if i < k && i < depth then Pointer(valid.to, Chain.Second) else old(es[i].link)
  }

  lemma ChainedFrom<T>(es: seq<Entry<T>>, k: nat)
    requires k <= |es| && (forall i :: k <= i < |es| ==> es[i].link.to == At(es, i + 1))
    requires forall i, j :: 0 <= i < j < |es| ==> es[i] != es[j]
    ensures Chained(At(es, k), es[k..])
  {
    var rest := es[k..];
    forall i | 0 <= i < |rest|
      ensures rest[i].link.to == At(rest, i + 1)
    {
      assert rest[i] == es[k + i];
    }
  }

  lemma LiveIsSame<T>(es: seq<Entry<T>>)
    ensures Live(es[Skip(es)..]) == Live(es)
    ensures At(es, Skip(es)) == if Live(es) == [] then null else Live(es)[0]
  {
    LiveSkips(es);
  }

  /** A link to the first entry not deleted leads to a list without the deleted ones in front. */
  lemma ChainedPast<T>(first: Entry?<T>, es: seq<Entry<T>>)
    requires first == At(es, Skip(es)) && (forall i :: Skip(es) <= i < |es| ==> es[i].link.to == At(es, i + 1))
    requires forall i, j :: 0 <= i < j < |es| ==> es[i] != es[j]
    ensures Chained(first, es[Skip(es)..]) && Live(es[Skip(es)..]) == Live(es)
    ensures first == if Live(es) == [] then null else Live(es)[0]
  {
    hide *;
    ChainedFrom(es, Skip(es));
    LiveIsSame(es);
  }

  /** `next_ptr_recursive`.  The compare-exchange is the only attempt that a thread alone needs. */
  method NextPtrRecursive<T>(head: Entry<T>, depth: nat, ghost es: seq<Entry<T>>) returns (valid: Pointer<T>)
    requires head !in es && Chained(head.link.to, es)
    modifies head, es
    ensures Cleaned(head, depth, es, valid)
    decreases depth
  {
    var headNext := head.link;
    var next := headNext;
    ghost var n := 0;
    valid := Pointer(null, Chain.Plain);
    while next.to != null
      invariant n <= |es| && next.to == At(es, n) && (depth != 0 ==> n == 0)
      invariant forall i :: 0 <= i < n ==> es[i].IsDeleted()
      invariant head.link == old(head.link) && forall e :: e in es ==> e.link == old(e.link)
      decreases |es| - n
    {
      var nextNext := next.to.link;
      if nextNext.tag != Chain.Second {
        valid := next;
        SkipIs(es, n);
        break;
      }
      if depth != 0 {
        Suffix(head.link.to, es, 1);
        valid := NextPtrRecursive(next.to, depth - 1, es[1..]);
        break;
      }
      next := nextNext;
      n := n + 1;
    }
    if next.to == null { SkipIs(es, n); }
    if Pointer(valid.to, headNext.tag) != headNext {
      var ok := head.CompareExchange(headNext, Pointer(valid.to, headNext.tag));
      if !ok { assert false; }
    }
  }

  /** The next entry that is not deleted. */
  method NextPtr<T>(head: Entry<T>, ghost es: seq<Entry<T>>) returns (valid: Pointer<T>)
    requires head !in es && Chained(head.link.to, es)
    modifies head, es
    ensures Cleaned(head, Chain.DEPTH, es, valid)
    ensures head.link == Pointer(valid.to, old(head.link.tag))
    ensures forall i :: 0 <= i < |es| ==> es[i].link.tag == old(es[i].link.tag)
    ensures valid.to == if old(Live(es)) == [] then null else old(Live(es))[0]
    ensures valid.to != null ==> !valid.to.IsDeleted()
    ensures Skip(es) == old(Skip(es)) && Chained(head.link.to, es[Skip(es)..]) && Live(es[Skip(es)..]) == old(Live(es))
    ensures NullEnded(es)
  {
    valid := NextPtrRecursive(head, Chain.DEPTH, es);
    LiveStays(es);
    ChainedPast(valid.to, es);
    hide Live, Skip;
  }

  /** `next_shared`: with nobody else about, the entry found has a strong reference. */
  method NextShared<T>(head: Entry<T>, ghost es: seq<Entry<T>>) returns (next: Entry?<T>)
    requires head !in es && Chained(head.link.to, es)
    modifies head, es
    ensures Cleaned(head, Chain.DEPTH, es, Pointer(next, Chain.Plain))
    ensures head.link == Pointer(next, old(head.link.tag))
    ensures forall i :: 0 <= i < |es| ==> es[i].link.tag == old(es[i].link.tag)
    ensures next == if old(Live(es)) == [] then null else old(Live(es))[0]
    ensures next != null ==> !next.IsDeleted()
    ensures Skip(es) == old(Skip(es)) && Chained(head.link.to, es[Skip(es)..]) && Live(es[Skip(es)..]) == old(Live(es))
    ensures NullEnded(es)
  {
    var ptr := NextPtr(head, es);
    next := ptr.to;
  }
}
