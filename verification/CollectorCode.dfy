/** The code of src/collector.rs on mutable objects, run by one thread without interference. */
module CollectorCode {
  import opened Base
  import opened Epochs
  import opened Reclaimer
  import opened CollectorAlone

  // ---------------------------------------------------------------- what a scan finds

  /** An active collector in another epoch ends a scan. */
  predicate Blocks(w: Word, known: Word) { !IsInvalid(w) && !IsInactive(w) && w != known }

  lemma BlocksWhen(w: Word, known: Word)
    ensures Blocks(w, known) == (!IsInvalid(w) && !IsInactive(w) && w != known)
  {}

  /** How far a scan gets. */
  function Reach(words: seq<Word>, known: Word): (n: nat)
    ensures n <= |words| && (n < |words| ==> Blocks(words[n], known))
    ensures forall i :: 0 <= i < n ==> !Blocks(words[i], known)
  {
    if words == [] || Blocks(words[0], known) then 0 else 1 + Reach(words[1..], known)
  }

  lemma ReachIs(words: seq<Word>, known: Word, n: nat)
    requires n <= |words| && (forall i :: 0 <= i < n ==> !Blocks(words[i], known))
    requires n < |words| ==> Blocks(words[n], known)
    ensures Reach(words, known) == n
  {}

  /** The collectors that are not invalid stay in the chain. */
  ghost function Stay(chain: seq<Collector>, words: seq<Word>): (r: seq<Collector>)
    requires |words| == |chain|
    ensures forall c :: c in r ==> c in chain
  {
    if chain == [] then []
    else
      var n := |chain| - 1;
      Stay(chain[..n], words[..n]) + if IsInvalid(words[n]) then [] else [chain[n]]
  }

  /** The others are adopted, in the order of the chain. */
  ghost function Gone(chain: seq<Collector>, words: seq<Word>): seq<Item>
    requires |words| == |chain|
  {
    if chain == [] then []
    else
      var n := |chain| - 1;
      Gone(chain[..n], words[..n]) + if IsInvalid(words[n]) then [Record(chain[n].id)] else []
  }

  /** What a scan does: nothing while the chain is locked; otherwise it unlinks and adopts the
      invalid collectors up to the first that blocks it, and is complete if none does. */
  datatype Scanned = Scanned(complete: bool, chain: seq<Collector>, adopted: seq<Item>)

  ghost function ScanResult(locked: bool, chain: seq<Collector>, words: seq<Word>, known: Word): Scanned
    requires |words| == |chain|
  {
    if locked then Scanned(false, chain, [])
    else
      var n := Reach(words, known);
      Scanned(n == |chain|, Stay(chain[..n], words[..n]) + chain[n..], Gone(chain[..n], words[..n]))
  }

  lemma {:induction false} StayMeans(chain: seq<Collector>, words: seq<Word>, i: nat)
    requires |words| == |chain| && i < |chain| && forall j, k :: 0 <= j < k < |chain| ==> chain[j] != chain[k]
    ensures chain[i] in Stay(chain, words) <==> !IsInvalid(words[i])
    ensures IsInvalid(words[i]) ==> Record(chain[i].id) in Gone(chain, words)
    ensures |Stay(chain, words)| + |Gone(chain, words)| == |chain|
  {
    var n := |chain| - 1;
    if i < n {
      StayMeans(chain[..n], words[..n], i);
    } else if n > 0 {
      StayMeans(chain[..n], words[..n], 0);
    }
    hide IsInvalid;
  }

  /** A scan gets as far as position `n`: it is complete if no collector blocks it, and it adopts exactly the
      INVALID collectors in front of the first one that does. */
  lemma ScanMeans(chain: seq<Collector>, words: seq<Word>, known: Word, i: nat) returns (n: nat)
    requires |words| == |chain| && i < |chain| && forall j, k :: 0 <= j < k < |chain| ==> chain[j] != chain[k]
    ensures n <= |chain| && (n < |chain| ==> Blocks(words[n], known))
    ensures forall j :: 0 <= j < n ==> !Blocks(words[j], known)
    ensures var r := ScanResult(false, chain, words, known);
      && r.complete == (n == |chain|) && |r.chain| + |r.adopted| == |chain|
      && (chain[i] in r.chain <==> i >= n || !IsInvalid(words[i]))
      && (i < n && IsInvalid(words[i]) ==> Record(chain[i].id) in r.adopted)
  {
    n := Reach(words, known);
    var r := ScanResult(false, chain, words, known);
    assert r.chain == Stay(chain[..n], words[..n]) + chain[n..];
    hide Stay, Gone, Blocks, IsInvalid;
    if n > 0 {
      StayMeans(chain[..n], words[..n], if i < n then i else 0);
    } else {
      StayNone(chain[..0], words[..0]);
    }
    if i >= n { assert chain[n..][i - n] == chain[i]; }
    if i < n { assert forall j :: 0 <= j < |chain[n..]| ==> chain[n..][j] != chain[i]; }
  }

  lemma StayNone(chain: seq<Collector>, words: seq<Word>)
    requires chain == [] && words == []
    ensures Stay(chain, words) == [] && Gone(chain, words) == []
  {}

  /** The cursor of a scan: it stands at position `i` of the chain it found, of which the collectors
      in front have been dealt with; `now` is the chain as it is now. */
  ghost predicate Cursor(
      chain: seq<Collector>, words: seq<Word>, known: Word, i: nat, prev: Collector?, cur: Collector?,
                         now: seq<Collector>, before: Col, after: Col)
  {
    && |words| == |chain| && i <= |chain|
    && cur == At(chain, i)
    && now == Stay(chain[..i], words[..i]) + chain[i..]
    && prev == Pred(now, |Stay(chain[..i], words[..i])|)
    && after == CollectAll(before, Gone(chain[..i], words[..i]))
    && (forall j :: 0 <= j < i ==> !Blocks(words[j], known))
  }

  lemma CursorStarts(chain: seq<Collector>, words: seq<Word>, known: Word, before: Col)
    requires |words| == |chain|
    ensures Cursor(chain, words, known, 0, null, At(chain, 0), chain, before, before)
  {
    assert chain[0..] == chain;
  }

  /** Where the cursor is in the chain as it is now. */
  lemma CursorAt(chain: seq<Collector>, words: seq<Word>, known: Word, i: nat, prev: Collector?, cur: Collector,
                 now: seq<Collector>, before: Col, after: Col) returns (n: nat)
    requires Cursor(chain, words, known, i, prev, cur, now, before, after)
    ensures i < |chain| == |words| && cur == chain[i] && n == |Stay(chain[..i], words[..i])|
    ensures n < |now| && now[n] == cur && prev == Pred(now, n) && Succ(now, n) == At(chain, i + 1)
    ensures forall c :: c in now ==> c in chain
  {
    n := |Stay(chain[..i], words[..i])|;
    assert now[n] == chain[i];
  }

  /** The cursor moves past a collector that stays. */
  lemma CursorPasses(chain: seq<Collector>, words: seq<Word>, known: Word, i: nat, prev: Collector?, cur: Collector,
                     now: seq<Collector>, before: Col, after: Col)
    requires Cursor(chain, words, known, i, prev, cur, now, before, after)
    requires i < |words| && !IsInvalid(words[i]) && !Blocks(words[i], known)
    ensures i < |chain| && Cursor(chain, words, known, i + 1, cur, At(chain, i + 1), now, before, after)
  {
    StepStay(chain, words, i);
    assert chain[i..] == [cur] + chain[i + 1..];
    hide CollectAll, Gone, Stay;
    assert now == Stay(chain[..i], words[..i]) + [cur] + chain[i + 1..];
    assert Gone(chain[..i + 1], words[..i + 1]) == Gone(chain[..i], words[..i]);
  }

  /** It moves past one that is unlinked. */
  lemma CursorUnlinks(
      chain: seq<Collector>, words: seq<Word>, known: Word, i: nat, n: nat, prev: Collector?, cur: Collector,
                      now: seq<Collector>, before: Col, after: Col)
    requires Cursor(chain, words, known, i, prev, cur, now, before, after)
    requires i < |words| && IsInvalid(words[i]) && n == |Stay(chain[..i], words[..i])|
    ensures i < |chain| && n < |now|
    ensures
      Cursor(chain, words, known, i + 1, prev, At(chain, i + 1), Cut(now, n), before, CollectCol(after, Record(cur.id)))
  {
    hide CollectAll, CollectCol, Stay, Gone;
    StepStay(chain, words, i);
    CollectAllAppend(before, Gone(chain[..i], words[..i]), Record(cur.id));
    assert chain[i..] == [cur] + chain[i + 1..];
    assert Cut(now, n) == Stay(chain[..i], words[..i]) + chain[i + 1..];
  }

  lemma CursorEnds(chain: seq<Collector>, words: seq<Word>, known: Word, i: nat, prev: Collector?, cur: Collector?,
                   now: seq<Collector>, before: Col, after: Col)
    requires Cursor(chain, words, known, i, prev, cur, now, before, after)
    requires cur == null || (i < |words| && Blocks(words[i], known))
    ensures |words| == |chain|
    ensures var r := ScanResult(false, chain, words, known);
      r.complete == (cur == null) && r.chain == now && after == CollectAll(before, r.adopted)
  {
    hide CollectAll, Stay, Gone;
    ReachIs(words, known, i);
  }

  lemma Locked(chain: seq<Collector>, words: seq<Word>, known: Word, col: Col)
    requires |words| == |chain|
    ensures var r := ScanResult(true, chain, words, known);
      !r.complete && r.chain == chain && CollectAll(col, r.adopted) == col
  {}

  lemma StepStay(chain: seq<Collector>, words: seq<Word>, i: nat)
    requires |words| == |chain| && i < |chain|
    ensures Stay(chain[..i + 1], words[..i + 1])
         == Stay(chain[..i], words[..i]) + if IsInvalid(words[i]) then [] else [chain[i]]
    ensures Gone(chain[..i + 1], words[..i + 1])
         == Gone(chain[..i], words[..i]) + if IsInvalid(words[i]) then [Record(chain[i].id)] else []
  {
    assert chain[..i + 1][..i] == chain[..i] && words[..i + 1][..i] == words[..i];
  }

  // ---------------------------------------------------------------- the collector chain

  class Root {
    var epoch: Epoch
    var head: Collector?
    var lock: bool
    var mark: bool
    /** The collectors linked from the head. */
    ghost var chain: seq<Collector>

    ghost predicate Valid()
      reads this`head, this`chain, chain`nextLink
    {
      && head == At(chain, 0)
      && (forall i :: 0 <= i < |chain| ==> chain[i].nextLink == Succ(chain, i))
      && (forall i, j :: 0 <= i < j < |chain| ==> chain[i] != chain[j])
    }

    ghost function Members(): set<Collector>
      reads this`chain
    {
      MembersOf(chain)
    }

    lemma MembersIs()
      ensures Members() == MembersOf(chain)
    {}

    /** Nothing shared has changed. */
    twostate predicate Same()
      reads this
    {
      epoch == old(epoch) && head == old(head) && lock == old(lock) && mark == old(mark) && chain == old(chain)
    }

    lemma HeadIsFirst()
      requires Valid()
      ensures head == At(chain, 0)
    {}

    lemma LinkAt(n: nat)
      requires Valid() && n < |chain|
      ensures chain[n].nextLink == Succ(chain, n)
    {}

    constructor ()
      ensures Valid() && epoch == 0 && !lock && !mark && chain == []
    {
      epoch, head, lock, mark, chain := 0, null, false, false, [];
    }

    /** Takes the lock if it is free, and clears the mark. */
    method LockChain() returns (ok: bool)
      modifies this`lock, this`mark
      ensures ok == !old(lock)
      ensures if ok then lock && !mark else lock == old(lock) && mark == old(mark)
    {
      if lock { return false; }
      lock, mark := true, false;
      return true;
    }

    /** Gives the lock back; the mark is kept. */
    method UnlockChain()
      modifies this`lock
      ensures !lock
    {
      lock := false;
    }

    /** `alloc`: pushed in front of the chain, tags kept. */
    method Alloc(id: CollectorId) returns (c: Collector)
      requires Valid()
      modifies this`head, this`chain
      ensures Valid() && fresh(c) && chain == [c] + old(chain) && c.id == id
      ensures c.View() == NewCol(Head(None, false, false)).(phase := Idle)
    {
      c := new Collector(id);
      c.nextLink := head;
      head := c;
      chain := [c] + chain;
      assert forall i :: 0 < i < |chain| ==> chain[i] == old(chain)[i - 1] && Succ(chain, i) == Succ(old(chain), i - 1);
    }

    /** Takes `cur` out of the chain: the head, if nothing is in front of it, or its predecessor, is
        linked to its successor. */
    method Unlink(prev: Collector?, cur: Collector, nxt: Collector?, ghost n: nat) returns (ok: bool)
      requires Valid() && n < |chain| && chain[n] == cur && prev == Pred(chain, n) && nxt == Succ(chain, n)
      modifies this`head, this`chain, Members()`nextLink
      ensures ok && Valid() && chain == Cut(old(chain), n)
    {
      if prev == null {
        ok := head == cur;
        if ok { head := nxt; }
      } else {
        prev.nextLink := nxt;
        ok := true;
      }
      chain := Cut(chain, n);
      assert forall i :: 0 <= i < |chain| ==> chain[i] == old(chain)[if i < n then i else i + 1];
    }

    /** Detaches and drops the whole chain if every collector in it is invalid. */
    method ClearChain() returns (cleared: bool)
      requires Valid()
      modifies this, Members()
      ensures Valid() && lock == old(lock) && epoch == old(epoch)
      ensures cleared == (!old(lock) && forall c :: c in old(chain) ==> IsInvalid(old(c.state)))
      ensures chain == if cleared then [] else old(chain)
      ensures forall c :: c in old(chain) ==>
        c.dropped == old(c.dropped) + (if cleared then old(Lists(c.View())) else [])
        && c.View() == if cleared then Emptied(old(c.View())) else old(c.View())
    {
      var ok := LockChain();
      if !ok { return false; }
      var first := head;
      var cur := first;
      ghost var i := 0;
      while cur != null
        invariant i <= |chain| && cur == At(chain, i)
        invariant forall j :: 0 <= j < i ==> IsInvalid(chain[j].state)
        decreases |chain| - i
      {
        if !IsInvalid(cur.state) {
          UnlockChain();
          return false;
        }
        cur := cur.nextLink;
        i := i + 1;
      }
      cleared := head == first;
      if cleared {
        ghost var all := chain;
        head, chain := null, [];
        DropChain(first, all);
      }
      UnlockChain();
    }

    method DropChain(first: Collector?, ghost all: seq<Collector>)
      requires first == At(all, 0) && forall i :: 0 <= i < |all| ==> all[i].nextLink == Succ(all, i)
      requires forall i, j :: 0 <= i < j < |all| ==> all[i] != all[j]
      modifies MembersOf(all)`previousInstances, MembersOf(all)`currentInstances
      modifies MembersOf(all)`nextInstances, MembersOf(all)`dropped
      ensures forall c :: c in all ==> Cleared(c)
    {
      var cur := first;
      ghost var i := 0;
      hide Root.Kept, Root.Cleared, Collector.View, Lists, Emptied, At, Succ;
      AtIs(all, 0);
      forall j | 0 <= j < |all|
        ensures Kept(all[j])
      {
        KeptIs(all[j]);
      }
      while cur != null
        invariant i <= |all| && cur == At(all, i)
        invariant forall j :: 0 <= j < i ==> Cleared(all[j])
        invariant forall j :: i <= j < |all| ==> Kept(all[j])
        decreases |all| - i
      {
        AtIs(all, i);
        var nxt := cur.nextLink;
        KeptIs(cur);
        cur.ClearForDrop();
        ClearedIs(cur);
        cur := nxt;
        i := i + 1;
      }
      AtIs(all, i);
    }

    twostate predicate Kept(c: Collector)
      reads c`state, c`announcement, c`nextEpochUpdate, c`hasGarbage, c`numReaders
      reads c`previousInstances, c`currentInstances, c`nextInstances, c`dropped
    {
      c.dropped == old(c.dropped) && c.View() == old(c.View())
    }

    twostate predicate Cleared(c: Collector)
      reads c`state, c`announcement, c`nextEpochUpdate, c`hasGarbage, c`numReaders
      reads c`previousInstances, c`currentInstances, c`nextInstances, c`dropped
    {
      c.dropped == old(c.dropped) + old(Lists(c.View())) && c.View() == Emptied(old(c.View()))
    }

    twostate lemma KeptIs(c: Collector)
      ensures Kept(c) <==> c.dropped == old(c.dropped) && c.View() == old(c.View())
    {}

    twostate lemma ClearedIs(c: Collector)
      ensures Cleared(c) <==>
        c.dropped == old(c.dropped) + old(Lists(c.View())) && c.View() == Emptied(old(c.View()))
    {}

    method MarkScanEnforced()
      modifies this`mark
      ensures mark
    {
      mark := true;
    }
  }

  ghost function MembersOf(chain: seq<Collector>): set<Collector> { set c | c in chain }

  lemma MembersIn(some: seq<Collector>, chain: seq<Collector>)
    requires forall c :: c in some ==> c in chain
    ensures forall c :: c in MembersOf(some) ==> c in MembersOf(chain)
  {}

  ghost function At(chain: seq<Collector>, i: nat): Collector? { if i < |chain| then chain[i] else null }

  ghost function Succ(chain: seq<Collector>, i: nat): Collector? { At(chain, i + 1) }

  lemma AtIs(chain: seq<Collector>, i: nat)
    ensures At(chain, i) == (if i < |chain| then chain[i] else null) && Succ(chain, i) == At(chain, i + 1)
  {}

  ghost function Pred(chain: seq<Collector>, i: nat): Collector?
    requires i <= |chain|
  {
    if i == 0 then null else chain[i - 1]
  }

  /** The chain without its element `n`. */
  ghost function Cut(chain: seq<Collector>, n: nat): seq<Collector>
    requires n < |chain|
  {
    chain[..n] + chain[n + 1..]
  }

  ghost function Words(chain: seq<Collector>): (r: seq<Word>)
    reads chain`state
    ensures |r| == |chain| && forall i :: 0 <= i < |r| ==> r[i] == chain[i].state
  {
    if chain == [] then [] else Words(chain[..|chain| - 1]) + [chain[|chain| - 1].state]
  }

  class Collector {
    const id: CollectorId
    var state: Word
    var announcement: Epoch
    var nextEpochUpdate: nat
    var hasGarbage: bool
    var numReaders: nat
    var previousInstances: seq<Item>
    var currentInstances: seq<Item>
    var nextInstances: seq<Item>
    var nextLink: Collector?
    /** Everything dropped so far, in order. */
    ghost var dropped: seq<Item>

    /** The private fields as one value; the links are the root's business. */
    ghost function View(): Col
      reads this`state, this`announcement, this`nextEpochUpdate, this`hasGarbage, this`numReaders
      reads this`previousInstances, this`currentInstances, this`nextInstances
    {
      Col(state, announcement, nextEpochUpdate, hasGarbage, numReaders,
          previousInstances, currentInstances, nextInstances, None, Idle, 0, 0)
    }

    constructor (id: CollectorId)
      ensures this.id == id && dropped == [] && View() == NewCol(Head(None, false, false)).(phase := Idle)
    {
      this.id := id;
      state := Word(0, true, false);
      announcement, nextEpochUpdate, hasGarbage, numReaders := 0, CADENCE, false, 0;
      previousInstances, currentInstances, nextInstances, dropped := [], [], [], [];
      nextLink := null;
    }

    method Accelerate()
      modifies this`nextEpochUpdate
      ensures View() == old(View()).(countdown := 0)
    {
      nextEpochUpdate := 0;
    }

    method SetHasGarbage()
      modifies this`hasGarbage
      ensures View() == old(View()).(hasGarbage := true)
    {
      hasGarbage := true;
    }

    method Collect(x: Item)
      modifies this`currentInstances, this`hasGarbage
      ensures View() == CollectCol(old(View()), x)
    {
      currentInstances := [x] + currentInstances;
      hasGarbage := true;
    }

    /** Collects again what a failing destructor left. */
    method CollectRest(items: seq<Item>)
      modifies this`currentInstances, this`hasGarbage
      ensures View() == CollectAll(old(View()), items)
    {
      var garbageLink := items;
      while garbageLink != []
        invariant CollectAll(View(), garbageLink) == CollectAll(old(View()), items)
        decreases |garbageLink|
      {
        var x := garbageLink[0];
        garbageLink := garbageLink[1..];
        Collect(x);
      }
    }

    /** Rotates the garbage lists and drops what was in the oldest one.  The destructors in `fails`
        panic; what then remains is collected again. */
    method EpochUpdated(fails: set<Item>) returns (ok: bool)
      modifies this`previousInstances, this`currentInstances, this`nextInstances
      modifies this`hasGarbage, this`nextEpochUpdate, this`dropped
      ensures Ended(old(dropped), Updated(old(View()), fails), ok)
      ensures nextEpochUpdate == if ok then CADENCE else old(nextEpochUpdate)
      ensures old(hasGarbage) ==>
        && ok == (forall x :: x in old(nextInstances) ==> x !in fails)
        && nextInstances == old(previousInstances) && previousInstances == old(currentInstances)
        && (hasGarbage <==> nextInstances != [] || previousInstances != [] || currentInstances != [])
      ensures old(hasGarbage) && ok ==>
        && currentInstances == [] && dropped == old(dropped) + old(nextInstances)
        && (hasGarbage <==> old(previousInstances) != [] || old(currentInstances) != [])
      ensures !ok ==>
        multiset(dropped) + multiset(currentInstances) == multiset(old(dropped)) + multiset(old(nextInstances))
      ensures !old(hasGarbage) ==>
        && ok && !hasGarbage && dropped == old(dropped) && nextInstances == old(nextInstances)
        && previousInstances == old(previousInstances) && currentInstances == old(currentInstances)
    {
      ok := RotateAndDrop(fails);
      UpdatedMeans(old(View()), fails);
      Rotated(old(View()), fails, old(dropped), ok);
    }

    /** The fields after a rotation. */
    lemma Rotated(a: Col, fails: set<Item>, was: seq<Item>, ok: bool)
      requires Ended(was, Updated(a, fails), ok)
      requires var r := Updated(a, fails);
        if a.hasGarbage then Rotates(a, fails, r.col, r.dropped, r.ok)
        else r.ok && r.dropped == [] && r.col == a.(countdown := CADENCE)
      ensures nextEpochUpdate == if ok then CADENCE else a.countdown
      ensures a.hasGarbage ==>
        && ok == (forall x :: x in a.next ==> x !in fails)
        && nextInstances == a.previous && previousInstances == a.current
        && (hasGarbage <==> nextInstances != [] || previousInstances != [] || currentInstances != [])
        && (ok ==> currentInstances == [] && dropped == was + a.next
                   && (hasGarbage <==> a.previous != [] || a.current != []))
        && (!ok ==> multiset(dropped) + multiset(currentInstances) == multiset(was) + multiset(a.next))
      ensures !a.hasGarbage ==>
        && ok && !hasGarbage && dropped == was && nextInstances == a.next
        && previousInstances == a.previous && currentInstances == a.current
    {
      hide Updated;
      ViewIs();
      assert a.hasGarbage ==> multiset(dropped) == multiset(was) + multiset(Updated(a, fails).dropped);
    }

    method RotateAndDrop(fails: set<Item>) returns (ok: bool)
      modifies this`previousInstances, this`currentInstances, this`nextInstances
      modifies this`hasGarbage, this`nextEpochUpdate, this`dropped
      ensures Ended(old(dropped), Updated(old(View()), fails), ok)
    {
      ghost var r := Updated(View(), fails);
      if hasGarbage {
        var garbageLink := nextInstances;
        nextInstances := previousInstances;
        previousInstances := currentInstances;
        currentInstances := [];
        hasGarbage := nextInstances != [] || previousInstances != [];
        assert DrainAll(View().(phase := Draining([], garbageLink)), fails) == r;
        while garbageLink != []
          invariant Continues(View(), garbageLink, fails, old(dropped), dropped, r)
          decreases |garbageLink|
        {
          var x := garbageLink[0];
          DrainStep(View(), garbageLink, fails, old(dropped), dropped, r);
          garbageLink := garbageLink[1..];
          dropped := dropped + [x];
          if x in fails {
            CollectRest(garbageLink);
            return false;
          }
        }
      }
      nextEpochUpdate := CADENCE;
      ok := true;
    }

    /** Unlinks an invalid collector and adopts it. */
    method Adopt(root: Root, prev: Collector?, cur: Collector, nxt: Collector?, ghost n: nat) returns (ok: bool)
      requires root.Valid() && n < |root.chain| && root.chain[n] == cur
      requires prev == Pred(root.chain, n) && nxt == Succ(root.chain, n)
      modifies root`head, root`chain, root.Members()`nextLink, this`currentInstances, this`hasGarbage
      ensures ok && root.Valid() && root.chain == Cut(old(root.chain), n)
      ensures View() == CollectCol(old(View()), Record(cur.id))
    {
      ok := root.Unlink(prev, cur, nxt, n);
      if ok { Collect(Record(cur.id)); }
    }

    /** The walk along the locked chain. */
    method Walk(root: Root, ghost words: seq<Word>) returns (complete: bool)
      requires root.Valid() && |words| == |root.chain|
      requires forall i :: 0 <= i < |words| ==> words[i] == root.chain[i].state
      requires forall i :: 0 <= i < |words| && root.chain[i] == this ==> words[i] == state
      requires !IsInvalid(state)
      modifies root`head, root`chain, root.Members()`nextLink, this`currentInstances, this`hasGarbage
      ensures root.Valid()
      ensures var r := ScanResult(false, old(root.chain), words, state);
        complete == r.complete && root.chain == r.chain && View() == CollectAll(old(View()), r.adopted)
    {
      hide *;
      ghost var chain, before := root.chain, View();
      var known := state;
      var prev: Collector? := null;
      var cur := root.head;
      ghost var i := 0;
      CursorStarts(chain, words, known, before);
      root.HeadIsFirst();
      root.MembersIs();
      while cur != null
        invariant Cursor(chain, words, known, i, prev, cur, root.chain, before, View())
        invariant root.Valid()
        decreases |chain| - i
      {
        ghost var n := CursorAt(chain, words, known, i, prev, cur, root.chain, before, View());
        root.LinkAt(n);
        var s := cur.state;
        var nxt := cur.nextLink;
        BlocksWhen(s, known);
        if cur != this && IsInvalid(s) {
          CursorUnlinks(chain, words, known, i, n, prev, cur, root.chain, before, View());
          root.MembersIs();
          MembersIn(root.chain, chain);
          assert forall c :: c in root.Members() ==> c in old(root.Members());
          var adopted := Adopt(root, prev, cur, nxt, n);
          if adopted {
            cur := nxt;
            i := i + 1;
            continue;
          }
        } else if cur != this && !IsInactive(s) && s != known {
          CursorEnds(chain, words, known, i, prev, cur, root.chain, before, View());
          return false;
        }
        CursorPasses(chain, words, known, i, prev, cur, root.chain, before, View());
        i := i + 1;
        prev := cur;
        cur := nxt;
      }
      CursorEnds(chain, words, known, i, prev, cur, root.chain, before, View());
      return true;
    }

    /** Locks the chain, walks it, and publishes the next epoch if no collector is in the way. */
    method Scan(root: Root) returns (updated: bool)
      requires root.Valid() && this in root.chain && !IsInvalid(state)
      modifies root, root.Members()`nextLink, this`currentInstances, this`hasGarbage
      ensures root.Valid() && root.lock == old(root.lock)
      ensures var r := ScanResult(old(root.lock), old(root.chain), old(Words(root.chain)), old(state));
        && updated == r.complete && root.chain == r.chain && View() == CollectAll(old(View()), r.adopted)
        && root.epoch == (if updated then Next(old(state).epoch) else old(root.epoch))
        && root.mark == (old(root.lock) && old(root.mark))
    {
      hide *;
      Locked(root.chain, Words(root.chain), state, View());
      var ok := root.LockChain();
      if !ok { return false; }
      var known := state;
      updated := Walk(root, Words(root.chain));
      if updated { root.epoch := Next(known.epoch); }
      root.UnlockChain();
    }

    /** The end of a guard. */
    method EndGuard(root: Root)
      requires root.Valid() && this in root.chain && numReaders > 0 && state == Word(announcement, false, false)
      modifies root, root.Members()`nextLink, this`currentInstances, this`hasGarbage
      modifies this`numReaders, this`nextEpochUpdate, this`state
      ensures root.Valid() && root.lock == old(root.lock)
      ensures Shared(View(), root.epoch, root.chain)
           == EndResult(old(View()), old(root.epoch), old(root.chain), old(Words(root.chain)),
                old(root.lock), old(root.mark))
      ensures numReaders == old(numReaders) - 1
      ensures previousInstances == old(previousInstances) && nextInstances == old(nextInstances)
      ensures old(numReaders) > 1 ==> root.Same() && View() == old(View()).(readers := numReaders)
      ensures old(numReaders) == 1 ==> state == Word(announcement, true, false)
      ensures old(numReaders) == 1 && old(nextEpochUpdate) > 0 ==>
        && root.Same() && currentInstances == old(currentInstances) && hasGarbage == old(hasGarbage)
        && nextEpochUpdate == if hasGarbage || (old(root.mark) && !old(root.lock)) then old(nextEpochUpdate) - 1
                              else old(nextEpochUpdate)
      ensures old(numReaders) == 1 && old(nextEpochUpdate) == 0 ==>
        var r := ScanResult(old(root.lock), old(root.chain), old(Words(root.chain)), old(state));
        && nextEpochUpdate == CADENCE && root.chain == r.chain
        && root.epoch == (if r.complete then Next(old(state).epoch) else old(root.epoch))
        && currentInstances == Reverse(r.adopted) + old(currentInstances)
        && hasGarbage == (old(hasGarbage) || r.adopted != [])
    {
      hide Words, ScanResult, CollectAll, ExitAlone, EndResult, Root.Valid, Collector.View;
      ViewIs();
      if numReaders == 1 && nextEpochUpdate == 0 {
        CollectAllLists(View().(readers := 0),
          ScanResult(root.lock, root.chain, Words(root.chain), state).adopted);
      }
      EndCases(View(), root.epoch, root.chain, Words(root.chain), root.lock, root.mark);
      if numReaders == 1 {
        numReaders := 0;
        if nextEpochUpdate == 0 {
          ViewIs();
          var updated := Scan(root);
          ViewIs();
          nextEpochUpdate := CADENCE;
        } else if hasGarbage || (root.mark && !root.lock) {
          nextEpochUpdate := nextEpochUpdate - 1;
        }
        state := Word(announcement, true, false);
      } else {
        numReaders := numReaders - 1;
      }
      ViewIs();
    }

    lemma ViewIs()
      ensures View() == Col(state, announcement, nextEpochUpdate, hasGarbage, numReaders,
          previousInstances, currentInstances, nextInstances, None, Idle, 0, 0)
    {}

    /** The start of an outermost guard.  If a destructor fails, the guard is ended at once. */
    method NewOutermost(root: Root, fails: set<Item>) returns (ok: bool)
      requires root.Valid() && this in root.chain && numReaders == 0 && state == Word(announcement, true, false)
      modifies root, root.Members()`nextLink, this
      ensures root.Valid()
      ensures var r := EnterAlone(old(View()), old(root.epoch), fails);
        && ok == r.ok && dropped == old(dropped) + r.dropped
        && (ok ==> View() == r.col && root.Same())
        && (!ok ==>
              Shared(View(), root.epoch, root.chain)
              == EndResult(r.col, old(root.epoch), old(root.chain), old(Words(root.chain)),
                   old(root.lock), old(root.mark)))
      ensures ok ==> state == Word(root.epoch, false, false) && announcement == root.epoch && numReaders == 1
      ensures ok && old(announcement) == root.epoch ==>
        && dropped == old(dropped) && nextInstances == old(nextInstances) && hasGarbage == old(hasGarbage)
        && previousInstances == old(previousInstances) && currentInstances == old(currentInstances)
        && nextEpochUpdate == old(nextEpochUpdate)
      ensures ok && old(announcement) != root.epoch ==> nextEpochUpdate == CADENCE
      ensures ok && old(announcement) != root.epoch && old(hasGarbage) ==>
        && dropped == old(dropped) + old(nextInstances) && nextInstances == old(previousInstances)
        && previousInstances == old(currentInstances) && currentInstances == []
        && (hasGarbage <==> old(previousInstances) != [] || old(currentInstances) != [])
    {
      hide Words, Updated, EnterAlone, EndResult, Root.Valid, Collector.View;
      ghost var col, words := View(), Words(root.chain);
      ViewIs();
      numReaders := 1;
      var newEpoch := root.epoch;
      state := Word(newEpoch, false, false);
      EnterUpdates(col, newEpoch, fails);
      if announcement != newEpoch {
        announcement := newEpoch;
        ViewIs();
        ok := EpochUpdated(fails);
        if !ok {
          UpdatedWord(col, newEpoch, fails);
          ViewIs();
          EndAgrees(View(), root.epoch, root.chain, words, Words(root.chain), root.lock, root.mark);
          EndGuard(root);
          return;
        }
      }
      ViewIs();
      ok := true;
    }

    /** The start of a guard; `ok` is false if it panics. */
    method NewGuard(root: Root, fails: set<Item>) returns (ok: bool)
      requires root.Valid() && this in root.chain && numReaders <= MAX_READERS
      requires state == Word(announcement, numReaders == 0, false)
      modifies root, root.Members()`nextLink, this
      ensures root.Valid()
      ensures old(numReaders) > 0 ==>
        && ok == (old(numReaders) < MAX_READERS) && root.Same() && dropped == old(dropped)
        && View() == if ok then old(View()).(readers := old(numReaders) + 1) else old(View())
      ensures old(numReaders) == 0 ==>
        var r := EnterAlone(old(View()), old(root.epoch), fails);
        && ok == r.ok && dropped == old(dropped) + r.dropped
        && (ok ==> View() == r.col && root.Same())
        && (!ok ==>
              Shared(View(), root.epoch, root.chain)
              == EndResult(r.col, old(root.epoch), old(root.chain), old(Words(root.chain)),
                   old(root.lock), old(root.mark)))
    {
      hide Words, EnterAlone, EndResult, Root.Valid;
      if numReaders == 0 {
        ok := NewOutermost(root, fails);
      } else if numReaders == MAX_READERS {
        ok := false;
      } else {
        numReaders := numReaders + 1;
        ok := true;
      }
    }

    /** Offers the garbage for adoption if no guard is held; the thread lets go of the collector. */
    method PassGarbage(root: Root) returns (done: bool, gone: bool)
      requires !IsInvalid(state)
      modifies this`state, root`mark
      ensures done == (numReaders == 0) && gone == (done && hasGarbage)
      ensures View() == if gone then old(View()).(word := old(state).(invalid := true)) else old(View())
      ensures root.mark == (gone || old(root.mark))
    {
      if numReaders != 0 { return false, false; }
      if hasGarbage {
        state := state.(invalid := true);
        root.MarkScanEnforced();
        return true, true;
      }
      return true, false;
    }

    /** Drops all garbage, for a collector that is itself dropped. */
    method ClearForDrop()
      modifies this`previousInstances, this`currentInstances, this`nextInstances, this`dropped
      ensures dropped == old(dropped) + old(Lists(View()))
      ensures View() == Emptied(old(View()))
    {
      while true
        invariant dropped + (previousInstances + currentInstances + nextInstances)
               == old(dropped) + old(previousInstances + currentInstances + nextInstances)
        invariant Emptied(View()) == Emptied(old(View()))
        decreases |previousInstances| + |currentInstances| + |nextInstances|
      {
        var containers := [previousInstances, currentInstances, nextInstances];
        previousInstances, currentInstances, nextInstances := [], [], [];
        if containers[0] == [] && containers[1] == [] && containers[2] == [] { break; }
        DropList(containers[0]);
        DropList(containers[1]);
        DropList(containers[2]);
      }
    }

    method DropList(items: seq<Item>)
      modifies this`dropped
      ensures dropped == old(dropped) + items
    {
      var link := items;
      while link != []
        invariant dropped + link == old(dropped) + items
        decreases |link|
      {
        dropped := dropped + [link[0]];
        link := link[1..];
      }
    }

    ghost predicate Ended(was: seq<Item>, r: Outcome, ok: bool)
      reads this
    {
      View() == r.col && dropped == was + r.dropped && ok == r.ok
    }
  }

  /** What the end of a guard leaves: the collector, the global epoch and the chain. */
  datatype Shared = Shared(col: Col, epoch: Epoch, chain: seq<Collector>)

  ghost function EndResult(
      col: Col, epoch: Epoch, chain: seq<Collector>, words: seq<Word>, locked: bool, marked: bool): Shared
    requires |words| == |chain|
  {
    if col.readers != 1 then Shared(col.(readers := if col.readers > 0 then col.readers - 1 else 0), epoch, chain)
    else if col.countdown > 0 then Shared(ExitAlone(col, marked && !locked, []), epoch, chain)
    else
      var r := ScanResult(locked, chain, words, col.word);
      Shared(ExitAlone(col, marked && !locked, r.adopted), if r.complete then Next(col.word.epoch) else epoch, r.chain)
  }

  lemma EndCases(col: Col, epoch: Epoch, chain: seq<Collector>, words: seq<Word>, locked: bool, marked: bool)
    requires |words| == |chain| && col.phase.Idle? && col.readers > 0
    ensures var e := EndResult(col, epoch, chain, words, locked, marked);
      var r := ScanResult(locked, chain, words, col.word);
      var away := Word(col.announcement, true, false);
      && (col.readers > 1 ==> e == Shared(col.(readers := col.readers - 1), epoch, chain))
      && (col.readers == 1 && col.countdown > 0 ==>
            e == Shared(col.(readers := 0, word := away, countdown :=
                   if col.hasGarbage || (marked && !locked) then col.countdown - 1 else col.countdown), epoch, chain))
      && (col.readers == 1 && col.countdown == 0 ==>
            e == Shared(CollectAll(col.(readers := 0), r.adopted).(countdown := CADENCE, word := away),
                        if r.complete then Next(col.word.epoch) else epoch, r.chain))
  {
    if col.countdown == 0 { ExitScans(col, marked && !locked, ScanResult(locked, chain, words, col.word).adopted); }
    hide ScanResult, CollectAll;
  }

  /** A scan depends on the words only through these two tests. */
  ghost predicate Agree(words: seq<Word>, other: seq<Word>, known: Word) {
    |words| == |other| && forall i :: 0 <= i < |words| ==>
      IsInvalid(words[i]) == IsInvalid(other[i]) && Blocks(words[i], known) == Blocks(other[i], known)
  }

  lemma {:induction false} StayAgrees(chain: seq<Collector>, words: seq<Word>, other: seq<Word>)
    requires |words| == |other| == |chain|
    requires forall i :: 0 <= i < |words| ==> IsInvalid(words[i]) == IsInvalid(other[i])
    ensures Stay(chain, words) == Stay(chain, other) && Gone(chain, words) == Gone(chain, other)
  {
    if chain != [] {
      var n := |chain| - 1;
      StayAgrees(chain[..n], words[..n], other[..n]);
    }
  }

  lemma EndAgrees(
      col: Col, epoch: Epoch, chain: seq<Collector>, words: seq<Word>, other: seq<Word>, locked: bool, marked: bool)
    requires |words| == |chain| && Agree(words, other, col.word)
    ensures EndResult(col, epoch, chain, words, locked, marked) == EndResult(col, epoch, chain, other, locked, marked)
  {
    var n := Reach(words, col.word);
    ReachIs(other, col.word, n);
    StayAgrees(chain[..n], words[..n], other[..n]);
    hide Stay, Gone, ExitAlone, Reach, IsInvalid, Blocks;
  }

  /** How the end of a guard that scans is put together. */
  lemma ExitScans(col: Col, marked: bool, adopted: seq<Item>)
    requires col.phase.Idle? && col.countdown == 0
    ensures ExitAlone(col, marked, adopted)
         == CollectAll(col.(readers := 0), adopted).(countdown := CADENCE, word := Word(col.announcement, true, false))
  {
    CollectAllLists(col.(readers := 0), adopted);
    CollectAllLists(ExitCol(col, marked), adopted);
  }

  /** A failing rotation leaves the collector active. */
  lemma {:induction false} DrainWord(col: Col, fails: set<Item>)
    requires col.phase.Draining? && col.phase.inner == []
    ensures var r := DrainAll(col, fails).col;
      r.word == col.word && r.announcement == col.announcement && r.readers == col.readers
    decreases |col.phase.outer|
  {
    if col.phase.outer != [] && col.phase.outer[0] !in fails { DrainWord(col.(phase := Rest(col.phase)), fails); }
  }

  lemma UpdatedWord(col: Col, now8: Epoch, fails: set<Item>)
    ensures var r := Updated(col.(readers := 1, word := Word(now8, false, false), announcement := now8), fails).col;
      r.word == Word(now8, false, false) && r.announcement == now8 && r.readers == 1
  {
    var col1 := col.(readers := 1, word := Word(now8, false, false), announcement := now8);
    if col1.hasGarbage { DrainWord(Rotate(col1), fails); }
  }

  /** Dropping the rest of the list will complete outcome `r`. */
  ghost predicate Continues(
      col: Col, rest: seq<Item>, fails: set<Item>, was: seq<Item>, dropped: seq<Item>, r: Outcome) {
    var q := DrainAll(col.(phase := Draining([], rest)), fails);
    r.col == q.col && r.ok == q.ok && was + r.dropped == dropped + q.dropped
  }

  lemma DrainStep(col: Col, rest: seq<Item>, fails: set<Item>, was: seq<Item>, dropped: seq<Item>, r: Outcome)
    requires rest != [] && col.phase.Idle? && Continues(col, rest, fails, was, dropped, r)
    ensures rest[0] !in fails ==> Continues(col, rest[1..], fails, was, dropped + [rest[0]], r)
    ensures rest[0] in fails ==>
      r == Outcome(CollectAll(col, rest[1..]), r.dropped, false) && was + r.dropped == dropped + [rest[0]]
  {
    var q := DrainAll(col.(phase := Draining([], rest)), fails);
    if rest[0] in fails {
      CollectAllLists(col, rest[1..]);
    } else {
      var q' := DrainAll(col.(phase := Draining([], rest[1..])), fails);
      assert dropped + q.dropped == dropped + [rest[0]] + q'.dropped;
    }
  }
}
