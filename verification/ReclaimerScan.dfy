/** What a scan does, as opposed to what it must not do: it adopts the INVALID collectors it finds. */
module ReclaimerScan {
  import opened Base
  import opened Epochs
  import opened Reclaimer
  import opened ReclaimerShape
  import opened ReclaimerGarbage
  import opened ReclaimerGrace
  import opened ReclaimerSafety
  import opened ReclaimerChain
  import opened ReclaimerTheorems
  import BR = BoundedRuns

  predicate InScan(p: Phase) { p.Scanning? || p.Unlinking? }

  /** Where a collector is in the chain, counted from the end. */
  predicate FromEnd(chain: seq<CollectorId>, n: nat, k: CollectorId) {
    0 < n <= |chain| && chain[|chain| - n] == k
  }

  /** Collector `k` is at or behind the cursor of the scan of `c`. */
  ghost predicate Ahead(s: State, c: CollectorId, k: CollectorId) {
    && c in s.cols && InScan(s.cols[c].phase)
    && exists n: nat :: n <= s.cols[c].phase.left && FromEnd(s.chain, n, k)
  }

  /** Collector `k` is out of the chain, and garbage of `c`. */
  predicate Adopted(s: State, c: CollectorId, k: CollectorId) {
    c in s.cols && Record(k) in s.cols[c].current && s.cols[c].hasGarbage && k !in s.chain
  }

  /** The scan of `c` passes over `k`: it was at the head when found, and the head has moved since. */
  predicate Escapes(s: State, a: Action, c: CollectorId, k: CollectorId) {
    && a == AUnlink(c) && c in s.cols && s.cols[c].phase.Unlinking? && s.cols[c].phase.k == k
    && s.cols[c].phase.prev.None? && s.head.ptr != Some(k)
  }

  // ---------------------------------------------------------------- single steps

  /** Where the cursor goes from collector `k`: it stops at one that is INVALID, gives up at one that is
      active in another epoch, and passes all others.  Nothing else changes. */
  ghost predicate Looks(s: State, t: State, c: CollectorId, k: CollectorId) {
    && c in s.cols && c in t.cols && k in s.cols && s.cols[c].phase.Scanning?
    && FromEnd(s.chain, s.cols[c].phase.left, k)
    && t == s.(cols := s.cols[c := s.cols[c].(phase := t.cols[c].phase)])
    && var p, left := t.cols[c].phase, s.cols[c].phase.left;
       if k != c && IsInvalid(s.cols[k].word)
       then p.Unlinking? && p.k == k && p.left == left && p.prev == s.cols[c].phase.prev
       else if Active(s.cols[k]) && s.cols[k].epoch != s.cols[c].epoch then p.Releasing?
       else p.Scanning? && p.left == left - 1 && p.prev == Some(k)
  }

  lemma VisitLooks(s: State, c: CollectorId)
    requires CanVisit(s, c) && ScanOk(s, s.cols[c]) && Active(s.cols[c])
    requires ColOk(s, s.cols[c]) && ColOk(s, s.cols[s.cols[c].phase.cur.value])
    ensures Looks(s, Visit(s, c), c, s.cols[c].phase.cur.value)
  {
    var other := s.cols[s.cols[c].phase.cur.value];
    if Active(other) { ComparisonExact(s, s.cols[c], other); }
    hide CaughtUp;
  }

  lemma VisitIs(s: State, c: CollectorId)
    requires Can(s, AVisit(c))
    ensures CanVisit(s, c) && Do(s, AVisit(c)) == Visit(s, c)
    ensures c in s.cols && s.cols[c].phase.Scanning?
    ensures s.cols[c].phase.cur.Some? && s.cols[c].phase.cur.value in s.cols
  {
    hide Visit;
  }

  lemma VisitAnswers(s: State, c: CollectorId) returns (k: CollectorId)
    requires Inv(s) && Can(s, AVisit(c))
    ensures Looks(s, Do(s, AVisit(c)), c, k)
  {
    hide *;
    InvShape(s);
    VisitIs(s, c);
    k := s.cols[c].phase.cur.value;
    OfCollector(s, c);
    OfCollector(s, k);
    ScannerActive(s, s.cols[c]);
    VisitLooks(s, c);
  }

  lemma ScannerActive(s: State, col: Col)
    requires ColOk(s, col) && InScan(col.phase)
    ensures Active(col) && !IsInvalid(col.word)
  {}

  /** What a step at an INVALID collector `k` does.  Unless `k` was found at the head and the head has moved,
      the chain loses `k` and nothing else, `k` is the first garbage of `c`, and the flag is set. */
  ghost predicate Takes(s: State, t: State, c: CollectorId, k: CollectorId) {
    && c in s.cols && c in t.cols && s.cols[c].phase.Unlinking? && s.cols[c].phase.k == k
    && FromEnd(s.chain, s.cols[c].phase.left, k)
    && t.cols[c].phase.Scanning? && t.cols[c].phase.left == s.cols[c].phase.left - 1
    && (if s.cols[c].phase.prev.Some? || s.head.ptr == Some(k)
        then var i := |s.chain| - s.cols[c].phase.left;
             && t.chain == s.chain[..i] + s.chain[i + 1..] && k !in t.chain
             && t.cols[c].current == [Record(k)] + s.cols[c].current && t.cols[c].hasGarbage
             && t.cols[c].phase.prev == s.cols[c].phase.prev
        else t == s.(cols := s.cols[c := s.cols[c].(phase := t.cols[c].phase)]) && t.cols[c].phase.prev == Some(k))
  }

  lemma NotInRest(chain: seq<CollectorId>, i: nat)
    requires i < |chain| && Unique(chain)
    ensures chain[i] !in chain[..i] + chain[i + 1..]
  {
    var w := chain[..i] + chain[i + 1..];
    forall j | 0 <= j < |w|
      ensures w[j] != chain[i]
    {}
  }

  lemma PassTakes(s: State, c: CollectorId)
    requires CanUnlink(s, c) && ScanOk(s, s.cols[c]) && HeadMoved(s, s.cols[c].phase)
    ensures Takes(s, Unlink(s, c), c, s.cols[c].phase.k)
  {
    hide CaughtUp, Adopt;
  }

  lemma AdoptParts(s: State, c: CollectorId)
    requires CanUnlink(s, c) && s.cols[c].phase.k != c && !HeadMoved(s, s.cols[c].phase)
    ensures var t, p := Unlink(s, c), s.cols[c].phase;
      && c in t.cols && t.cols[c].phase == Scanning(p.known, p.prev, p.nxt, p.left - 1)
      && t.cols[c].current == [Record(p.k)] + s.cols[c].current && t.cols[c].hasGarbage
      && t.chain == Without(s.chain, p.left)
  {
    hide Without;
  }

  lemma AdoptTakes(s: State, c: CollectorId)
    requires CanUnlink(s, c) && ScanOk(s, s.cols[c]) && Unique(s.chain) && s.cols[c].phase.k != c
    ensures Takes(s, Unlink(s, c), c, s.cols[c].phase.k)
  {
    if HeadMoved(s, s.cols[c].phase) {
      PassTakes(s, c);
    } else {
      AdoptParts(s, c);
      hide Unlink, CaughtUp, Unique;
      NotInRest(s.chain, |s.chain| - s.cols[c].phase.left);
    }
  }

  lemma UnlinkIs(s: State, c: CollectorId)
    requires Can(s, AUnlink(c))
    ensures CanUnlink(s, c) && Do(s, AUnlink(c)) == Unlink(s, c) && c in s.cols && s.cols[c].phase.Unlinking?
  {
    hide Unlink;
  }

  lemma ShapeLinked(s: State)
    requires Shape(s)
    ensures Linked(s)
  {
    hide Linked, ColsOk, Homes, LockOk, ScansOk, TeardownOk;
  }

  lemma UnlinkAnswers(s: State, c: CollectorId)
    requires Inv(s) && Can(s, AUnlink(c))
    ensures c in s.cols && s.cols[c].phase.Unlinking? && Takes(s, Do(s, AUnlink(c)), c, s.cols[c].phase.k)
  {
    hide *;
    InvShape(s);
    UnlinkIs(s, c);
    OfCollector(s, c);
    UniqueChain(s);
    UnlinkTarget(s, c);
    AdoptTakes(s, c);
  }

  /** A free lock is taken, the mark cleared, and the cursor stands at the head of the whole chain; otherwise
      the scan does not take place. */
  ghost predicate Locks(s: State, t: State, c: CollectorId) {
    && c in s.cols && c in t.cols && s.cols[c].phase.Locking? && t.chain == s.chain
    && (forall d :: d in s.cols && d != c ==> d in t.cols && t.cols[d] == s.cols[d])
    && if s.head.lock then t.cols[c].phase.Leaving? && t.cols[c].countdown == CADENCE && t.head == s.head
       else t.cols[c].phase == Scanning(s.cols[c].word, None, s.head.ptr, |s.chain|)
            && t.head == Head(s.head.ptr, true, false)
  }

  lemma LockAnswers(s: State, c: CollectorId)
    requires Can(s, ALock(c))
    ensures Locks(s, Do(s, ALock(c)), c)
  {}

  // ---------------------------------------------------------------- the steps of others

  /** The collector in a scan is its own; others can only link new collectors in front of the chain. */
  ghost predicate ScanKept(s: State, t: State, c: CollectorId) {
    && c in s.cols && c in t.cols && t.cols[c] == s.cols[c]
    && (t.chain == s.chain || exists d :: t.chain == [d] + s.chain && d in s.cols && s.cols[d].phase.Allocating?)
  }

  lemma InScanOnly(s: State, d: CollectorId, c: CollectorId)
    requires Shape(s) && c in s.cols && d in s.cols && HoldsLock(s.cols[c].phase) && HoldsLock(s.cols[d].phase)
    ensures c == d
  {
    hide ColsOk, Linked, Homes, ScansOk, TeardownOk;
  }

  lemma NoTeardown(s: State, c: CollectorId)
    requires Shape(s) && c in s.cols && HoldsLock(s.cols[c].phase)
    ensures s.teardown.Nobody?
  {
    hide ColsOk, Linked, Homes, ScansOk, TeardownOk;
  }

  lemma LinkingKept(s: State, d: CollectorId)
    requires Can(s, ALinkHead(d))
    ensures d in s.cols && s.cols[d].phase.Allocating? && Do(s, ALinkHead(d)).chain == [d] + s.chain
  {}

  lemma DropIs(s: State, a: Action)
    requires Can(s, a) && (a.ADrain? || a.AFailDrain?)
    ensures if a.ADrain? then CanDrain(s, a.c) && Do(s, a) == Drain(s, a.c)
            else CanFailDrain(s, a.c) && Do(s, a) == FailDrain(s, a.c)
  {
    hide Drain, FailDrain, CanDrain;
  }

  lemma FailSpares(s: State, d: CollectorId, c: CollectorId)
    requires CanFailDrain(s, d) && c in s.cols && c != d
    ensures c in FailDrain(s, d).cols && FailDrain(s, d).cols[c] == s.cols[c]
  {
    FailCols(s, d);
    hide FailDrain, FailCol;
  }

  lemma DrainSpares(s: State, d: CollectorId, c: CollectorId)
    requires CanDrain(s, d) && c in s.cols && c != d && Retired(s.info[Victim(s.cols[d].phase)])
    requires Record(c) in s.info && !Retired(s.info[Record(c)])
    ensures c in Drain(s, d).cols && Drain(s, d).cols[c] == s.cols[c]
  {
    DrainOthers(s, d);
    hide Drain, FlagOk, Drop, Retired;
  }

  lemma Dropping(s: State, a: Action, c: CollectorId)
    requires Inv(s) && Can(s, a) && (a.ADrain? || a.AFailDrain?) && a.c != c
    requires c in s.cols && HoldsLock(s.cols[c].phase)
    ensures c in Do(s, a).cols && Do(s, a).cols[c] == s.cols[c]
  {
    hide *;
    InvShape(s);
    BR.InvGarbage(s);
    DropIs(s, a);
    if a.ADrain? {
      DrainFacts(s, a.c);
      ScannerHome(s, c);
      DrainSpares(s, a.c, c);
    } else {
      FailSpares(s, a.c, c);
    }
  }

  lemma ScannerHome(s: State, c: CollectorId)
    requires Shape(s) && c in s.cols && HoldsLock(s.cols[c].phase)
    ensures c in s.chain && Record(c) in s.info && !Retired(s.info[Record(c)])
  {
    OfCollector(s, c);
    ScannerIsActive(s, s.cols[c]);
    assert Homes(s);
    hide ColsOk, Linked, LockOk, ScansOk, TeardownOk, ColOk, ScanOk;
  }

  lemma OthersKeep(s: State, a: Action, c: CollectorId)
    requires Inv(s) && Can(s, a) && c in s.cols && InScan(s.cols[c].phase) && !BR.ByOwner(a, c)
    ensures ScanKept(s, Do(s, a), c)
  {
    hide *;
    InvShape(s);
    Locked(s.cols[c].phase);
    NoTeardown(s, c);
    Blocked(s, a, c);
    if a.ADrain? || a.AFailDrain? {
      OwnerIs(a, c);
      Dropping(s, a, c);
    } else {
      BR.SimpleOthers(s, a, c);
    }
    if a.ALinkHead? {
      LinkingKept(s, a.c);
      KeptIf(s, Do(s, a), c, a.c);
    } else {
      ChangesIs(a);
      ChainKept(s, a);
      KeptIf(s, Do(s, a), c, c);
    }
  }

  lemma ChangesIs(a: Action)
    ensures ChangesChain(a) <==> a.ALinkHead? || a.AUnlink? || a.AClearSwap?
  {}

  lemma OwnerIs(a: Action, c: CollectorId)
    requires !BR.ByOwner(a, c) && (a.ADrain? || a.AFailDrain? || a.AUnlink? || a.APublish?)
    ensures a.c != c
  {}

  lemma Locked(p: Phase)
    requires InScan(p)
    ensures HoldsLock(p) && !p.Allocating?
  {}

  lemma KeptIf(s: State, t: State, c: CollectorId, d: CollectorId)
    requires c in s.cols && c in t.cols && t.cols[c] == s.cols[c]
    requires t.chain == s.chain || (t.chain == [d] + s.chain && d in s.cols && s.cols[d].phase.Allocating?)
    ensures ScanKept(s, t, c)
  {}

  lemma UnlinkerHolds(s: State, a: Action)
    requires Can(s, a) && (a.AUnlink? || a.APublish?)
    ensures a.c in s.cols && HoldsLock(s.cols[a.c].phase)
  {}

  lemma TeardownRuns(s: State, a: Action)
    requires Can(s, a) && (a.AClearSwap? || a.AClearDrop?)
    ensures !s.teardown.Nobody?
  {}

  /** While one thread scans, no other unlinks or publishes, and nobody clears the chain. */
  lemma Blocked(s: State, a: Action, c: CollectorId)
    requires Shape(s) && Can(s, a) && c in s.cols && HoldsLock(s.cols[c].phase) && s.teardown.Nobody?
    requires !BR.ByOwner(a, c)
    ensures !a.AUnlink? && !a.APublish? && !a.AClearSwap? && !a.AClearDrop?
  {
    hide *;
    if a.AUnlink? || a.APublish? {
      UnlinkerHolds(s, a);
      InScanOnly(s, a.c, c);
      OwnerIs(a, c);
    } else if a.AClearSwap? || a.AClearDrop? {
      TeardownRuns(s, a);
    }
  }

  lemma SimpleStays(s: State, a: Action, k: CollectorId)
    requires Can(s, a) && k in s.cols && IsInvalid(s.cols[k].word)
    requires s.cols[k].phase.Idle? || s.cols[k].phase.Allocating?
    requires !a.ADrain? && !a.AFailDrain? && !a.AUnlink? && !a.AClearDrop?
    ensures k in Do(s, a).cols && IsInvalid(Do(s, a).cols[k].word)
  {
    hide Rotate, ExitCol, VisitPhase, Lists, Records;
  }

  lemma InvalidIdle(s: State, k: CollectorId)
    requires Shape(s) && k in s.cols && IsInvalid(s.cols[k].word)
    ensures s.cols[k].phase.Idle? || s.cols[k].phase.Allocating?
  {
    OfCollector(s, k);
    hide Shape, ScanOk, LockOk;
  }

  lemma DropStays(s: State, a: Action, k: CollectorId)
    requires Can(s, a) && k in s.cols && IsInvalid(s.cols[k].word)
    requires a.ADrain? || a.AFailDrain? || a.AUnlink? || a.AClearDrop?
    ensures k in Do(s, a).cols && IsInvalid(Do(s, a).cols[k].word)
  {
    hide Drop, Lose, Lists, Without, Reverse;
  }

  /** What is INVALID stays so. */
  lemma InvalidStays(s: State, a: Action, k: CollectorId)
    requires Inv(s) && Can(s, a) && k in s.cols && IsInvalid(s.cols[k].word)
    ensures k in Do(s, a).cols && IsInvalid(Do(s, a).cols[k].word)
  {
    hide *;
    InvShape(s);
    InvalidIdle(s, k);
    if a.ADrain? || a.AFailDrain? || a.AUnlink? || a.AClearDrop? { DropStays(s, a, k); } else { SimpleStays(s, a, k); }
  }

  // ---------------------------------------------------------------- one step of a scan

  lemma OwnScan(s: State, a: Action, c: CollectorId)
    requires Can(s, a) && BR.ByOwner(a, c) && c in s.cols && InScan(s.cols[c].phase)
    requires c in Do(s, a).cols && InScan(Do(s, a).cols[c].phase)
    ensures a == AVisit(c) || a == AUnlink(c)
  {
    hide VisitPhase, Unlink, EnterCol, ExitCol;
  }

  lemma AheadKept(s: State, t: State, c: CollectorId, k: CollectorId)
    requires Ahead(s, c, k) && ScanKept(s, t, c)
    ensures Ahead(t, c, k)
  {
    var n: nat :| n <= s.cols[c].phase.left && FromEnd(s.chain, n, k);
    assert FromEnd(t.chain, n, k);
  }

  lemma AheadLooks(s: State, t: State, c: CollectorId, k: CollectorId, k': CollectorId)
    requires Ahead(s, c, k) && k in s.cols && IsInvalid(s.cols[k].word) && k != c
    requires Looks(s, t, c, k') && InScan(t.cols[c].phase)
    ensures Ahead(t, c, k)
  {
    var n: nat :| n <= s.cols[c].phase.left && FromEnd(s.chain, n, k);
    assert FromEnd(t.chain, n, k);
  }

  lemma AheadTakes(s: State, t: State, c: CollectorId, k: CollectorId)
    requires Ahead(s, c, k) && s.cols[c].phase.Unlinking? && Takes(s, t, c, s.cols[c].phase.k)
    ensures Ahead(t, c, k) || Escapes(s, AUnlink(c), c, k) || Adopted(t, c, k)
  {
    var left := s.cols[c].phase.left;
    var n: nat :| n <= left && FromEnd(s.chain, n, k);
    if n < left {
      assert FromEnd(t.chain, n, k);
    } else {
      assert s.cols[c].phase.k == k;
    }
  }

  /** An INVALID collector that is ahead stays ahead, until it is adopted or escapes. */
  lemma AheadStep(s: State, a: Action, c: CollectorId, k: CollectorId)
    requires Inv(s) && Can(s, a) && Ahead(s, c, k) && k in s.cols && IsInvalid(s.cols[k].word) && k != c
    requires c in Do(s, a).cols && InScan(Do(s, a).cols[c].phase)
    ensures Ahead(Do(s, a), c, k) || Escapes(s, a, c, k) || Adopted(Do(s, a), c, k)
  {
    hide *;
    AheadIs(s, c, k);
    if !BR.ByOwner(a, c) {
      OthersKeep(s, a, c);
      AheadKept(s, Do(s, a), c, k);
    } else {
      OwnScan(s, a, c);
      if a.AVisit? {
        var k' := VisitAnswers(s, c);
        AheadLooks(s, Do(s, a), c, k, k');
      } else {
        UnlinkAnswers(s, c);
        AheadTakes(s, Do(s, a), c, k);
      }
    }
  }

  lemma AheadIs(s: State, c: CollectorId, k: CollectorId)
    requires Ahead(s, c, k)
    ensures c in s.cols && InScan(s.cols[c].phase)
  {}

  lemma NotLinking(s: State, c: CollectorId, k: CollectorId, d: CollectorId)
    requires Inv(s) && Adopted(s, c, k) && d in s.cols && s.cols[d].phase.Allocating?
    ensures d != k
  {
    hide *;
    InvShape(s);
    BR.InvGarbage(s);
    InLists(s, c, k);
    Owned(s, c, Record(k));
    FreshIs(s, d);
  }

  lemma InLists(s: State, c: CollectorId, k: CollectorId)
    requires Adopted(s, c, k)
    ensures c in s.cols && Record(k) in Lists(s.cols[c])
  {}

  lemma FreshIs(s: State, d: CollectorId)
    requires Shape(s) && d in s.cols && s.cols[d].phase.Allocating?
    ensures Record(d) in s.info && s.info[Record(d)].loc.Fresh?
  {
    hide ColsOk, Linked, LockOk, ScansOk, TeardownOk;
  }

  lemma AdoptedKept(s: State, t: State, c: CollectorId, k: CollectorId)
    requires Adopted(s, c, k) && ScanKept(s, t, c)
    requires forall d :: d in s.cols && s.cols[d].phase.Allocating? ==> d != k
    ensures Adopted(t, c, k)
  {}

  /** What has been adopted stays so as long as the scan lasts. */
  lemma AdoptedStep(s: State, a: Action, c: CollectorId, k: CollectorId)
    requires Inv(s) && Can(s, a) && Adopted(s, c, k) && c in s.cols && InScan(s.cols[c].phase)
    requires c in Do(s, a).cols && InScan(Do(s, a).cols[c].phase)
    ensures Adopted(Do(s, a), c, k)
  {
    hide *;
    if !BR.ByOwner(a, c) {
      OthersKeep(s, a, c);
      forall d | d in s.cols && s.cols[d].phase.Allocating?
        ensures d != k
      {
        NotLinking(s, c, k, d);
      }
      AdoptedKept(s, Do(s, a), c, k);
    } else {
      OwnScan(s, a, c);
      if a.AVisit? {
        var k' := VisitAnswers(s, c);
        AdoptedLooks(s, Do(s, a), c, k, k');
      } else {
        UnlinkAnswers(s, c);
        AdoptedTakes(s, Do(s, a), c, k);
      }
    }
  }

  lemma AdoptedLooks(s: State, t: State, c: CollectorId, k: CollectorId, k': CollectorId)
    requires Adopted(s, c, k) && Looks(s, t, c, k')
    ensures Adopted(t, c, k)
  {}

  lemma AdoptedTakes(s: State, t: State, c: CollectorId, k: CollectorId)
    requires Adopted(s, c, k) && s.cols[c].phase.Unlinking? && Takes(s, t, c, s.cols[c].phase.k)
    ensures Adopted(t, c, k)
  {
    var i :| 0 <= i < |s.cols[c].current| && s.cols[c].current[i] == Record(k);
    assert t.cols[c].current == [Record(s.cols[c].phase.k)] + s.cols[c].current ==>
      t.cols[c].current[i + 1] == Record(k);
  }

  // ---------------------------------------------------------------- whole scans

  /** In all these states the thread of `c` is scanning. */
  ghost predicate Scans(states: seq<State>, c: CollectorId, i: nat, j: nat)
    requires j < |states|
  {
    forall n :: i <= n <= j ==> c in states[n].cols && InScan(states[n].cols[c].phase)
  }

  ghost predicate Escaped(states: seq<State>, actions: seq<Action>, c: CollectorId, k: CollectorId, i: nat, j: nat)
    requires j <= |actions| && j <= |states|
  {
    exists n :: i <= n < j && Escapes(states[n], actions[n], c, k)
  }

  /** Along a scan, an INVALID collector ahead of the cursor is still ahead, or has been adopted, or has
      escaped. */
  lemma {:induction false} AlongScan(
    states: seq<State>, actions: seq<Action>, c: CollectorId, i: nat, j: nat, k: CollectorId)
    requires Run(states, actions) && i <= j < |states| && j <= |actions| && Scans(states, c, i, j)
    requires k in states[i].cols && IsInvalid(states[i].cols[k].word) && k != c && Ahead(states[i], c, k)
    ensures k in states[j].cols && IsInvalid(states[j].cols[k].word)
    ensures Ahead(states[j], c, k) || Adopted(states[j], c, k) || Escaped(states, actions, c, k, i, j)
  {
    hide Run, Inv, Can, Do, Ahead, Adopted, Escapes, IsInvalid, InScan;
    if i < j {
      var s, a := states[j - 1], actions[j - 1];
      AlongScan(states, actions, c, i, j - 1, k);
      RunStep(states, actions, j - 1);
      RunInv(states, actions, j - 1);
      InvalidStays(s, a, k);
      if Escaped(states, actions, c, k, i, j - 1) {
        assert Escaped(states, actions, c, k, i, j);
      } else if Adopted(s, c, k) {
        AdoptedStep(s, a, c, k);
      } else {
        AheadStep(s, a, c, k);
      }
    }
  }

  /** A scan that comes to publish has adopted every INVALID collector that was ahead of its cursor at any
      time, that is, taken it out of the chain and made it its garbage; but for one found at the head when
      the head had moved. */
  lemma ScanAdopts(states: seq<State>, actions: seq<Action>, c: CollectorId, i: nat, j: nat, k: CollectorId)
    requires Run(states, actions) && i <= j < |actions| && j < |states| && Scans(states, c, i, j)
    requires actions[j] == APublish(c)
    requires k in states[i].cols && IsInvalid(states[i].cols[k].word) && k != c && Ahead(states[i], c, k)
    ensures Adopted(states[j], c, k) || Escaped(states, actions, c, k, i, j)
  {
    hide *;
    AlongScan(states, actions, c, i, j, k);
    RunLength(states, actions);
    RunStep(states, actions, j);
    RunInv(states, actions, j);
    NothingAhead(states[j], c, k);
  }

  lemma RunLength(states: seq<State>, actions: seq<Action>)
    requires Run(states, actions)
    ensures |states| == |actions| + 1
  {}

  lemma NothingAhead(s: State, c: CollectorId, k: CollectorId)
    requires Inv(s) && Can(s, APublish(c))
    ensures !Ahead(s, c, k)
  {
    InvShape(s);
    PublishAt(s, c);
    hide Inv, Shape, Can;
  }

  lemma PublishAt(s: State, c: CollectorId)
    requires Shape(s) && Can(s, APublish(c))
    ensures c in s.cols && InScan(s.cols[c].phase) && s.cols[c].phase.left == 0
  {
    CanPublishIs(s, c);
    OfCollector(s, c);
    hide Shape, Can, LockOk, CaughtUp, ColOk;
  }

  lemma CanPublishIs(s: State, c: CollectorId)
    requires Can(s, APublish(c))
    ensures c in s.cols && s.cols[c].phase.Scanning? && s.cols[c].phase.cur.None?
  {}

  /** Nothing is between the head and the cursor, and nothing has been passed. */
  predicate AtFront(s: State, c: CollectorId) {
    c in s.cols && InScan(s.cols[c].phase) && (s.cols[c].phase.prev.None? ==> s.cols[c].phase.left == |s.chain|)
  }

  lemma LockedAhead(s: State, t: State, c: CollectorId, k: CollectorId)
    requires Locks(s, t, c) && InScan(t.cols[c].phase) && k in s.chain
    ensures Ahead(t, c, k) && AtFront(t, c)
  {
    var i :| 0 <= i < |s.chain| && s.chain[i] == k;
    assert FromEnd(t.chain, |s.chain| - i, k);
  }

  lemma FrontLooks(s: State, t: State, c: CollectorId, k: CollectorId)
    requires AtFront(s, c) && Looks(s, t, c, k) && InScan(t.cols[c].phase)
    ensures AtFront(t, c)
    ensures s.cols[c].phase.prev.Some? ==> t.cols[c].phase.prev.Some?
  {}

  lemma FrontTakes(s: State, t: State, c: CollectorId)
    requires AtFront(s, c) && s.cols[c].phase.Unlinking? && Takes(s, t, c, s.cols[c].phase.k)
    ensures AtFront(t, c)
  {}

  lemma FrontKept(s: State, t: State, c: CollectorId)
    requires AtFront(s, c) && ScanKept(s, t, c) && t.chain == s.chain
    ensures AtFront(t, c)
  {}

  lemma KeptChain(s: State, a: Action)
    requires Can(s, a) && !ChangesChain(a)
    ensures Do(s, a).chain == s.chain
  {
    hide *;
    ChainKept(s, a);
  }

  lemma FrontStep(s: State, a: Action, c: CollectorId)
    requires Inv(s) && Can(s, a) && AtFront(s, c) && !a.ALinkHead?
    requires c in Do(s, a).cols && InScan(Do(s, a).cols[c].phase)
    ensures AtFront(Do(s, a), c)
  {
    hide *;
    FrontIs(s, c);
    if !BR.ByOwner(a, c) {
      OthersKeep(s, a, c);
      InvShape(s);
      Locked(s.cols[c].phase);
      NoTeardown(s, c);
      Blocked(s, a, c);
      ChangesIs(a);
      KeptChain(s, a);
      FrontKept(s, Do(s, a), c);
    } else {
      OwnScan(s, a, c);
      if a.AVisit? {
        var k := VisitAnswers(s, c);
        FrontLooks(s, Do(s, a), c, k);
      } else {
        UnlinkAnswers(s, c);
        FrontTakes(s, Do(s, a), c);
      }
    }
  }

  lemma FrontIs(s: State, c: CollectorId)
    requires AtFront(s, c)
    ensures c in s.cols && InScan(s.cols[c].phase)
  {}

  lemma FrontHolds(s: State, a: Action, c: CollectorId, k: CollectorId)
    requires Inv(s) && Can(s, a) && AtFront(s, c)
    ensures !Escapes(s, a, c, k)
  {
    hide *;
    if Escapes(s, a, c, k) {
      EscapesIs(s, a, c, k);
      InvShape(s);
      ShapeLinked(s);
      UnlinkAnswers(s, c);
      FrontHead(s, Do(s, a), c, k);
    }
  }

  lemma EscapesIs(s: State, a: Action, c: CollectorId, k: CollectorId)
    requires Escapes(s, a, c, k)
    ensures a == AUnlink(c) && c in s.cols && s.cols[c].phase.Unlinking? && s.cols[c].phase.k == k
    ensures s.cols[c].phase.prev.None? && s.head.ptr != Some(k)
  {}

  lemma FrontHead(s: State, t: State, c: CollectorId, k: CollectorId)
    requires Linked(s) && AtFront(s, c) && s.cols[c].phase.Unlinking? && Takes(s, t, c, s.cols[c].phase.k)
    requires s.cols[c].phase.prev.None? && s.cols[c].phase.k == k
    ensures s.head.ptr == Some(k)
  {}

  lemma {:induction false} FrontAlong(states: seq<State>, actions: seq<Action>, c: CollectorId, i: nat, j: nat)
    requires Run(states, actions) && i <= j < |states| && j <= |actions| && Scans(states, c, i, j)
    requires AtFront(states[i], c) && forall n :: i <= n < j ==> !actions[n].ALinkHead?
    ensures AtFront(states[j], c)
  {
    hide Run, Inv, Can, Do, AtFront, InScan;
    if i < j {
      FrontAlong(states, actions, c, i, j - 1);
      RunStep(states, actions, j - 1);
      RunInv(states, actions, j - 1);
      FrontStep(states[j - 1], actions[j - 1], c);
    }
  }

  /** A whole scan, from taking the lock to publishing: every collector of the chain that was INVALID when
      the lock was taken is adopted, if no collector is linked meanwhile. */
  lemma WholeScanAdopts(states: seq<State>, actions: seq<Action>, c: CollectorId, i: nat, j: nat, k: CollectorId)
    requires Run(states, actions) && i < j < |actions| && j < |states| && Scans(states, c, i + 1, j)
    requires actions[i] == ALock(c) && actions[j] == APublish(c)
    requires forall n :: i < n < j ==> !actions[n].ALinkHead?
    requires k in states[i].chain && k in states[i].cols && IsInvalid(states[i].cols[k].word) && k != c
    ensures Adopted(states[j], c, k)
  {
    hide Run, Inv, Can, Do, Ahead, AtFront, Adopted, Escapes, InScan, Locks, IsInvalid;
    RunStep(states, actions, i);
    RunInv(states, actions, i);
    LockAnswers(states[i], c);
    LockedAhead(states[i], states[i + 1], c, k);
    InvalidStays(states[i], actions[i], k);
    ScanAdopts(states, actions, c, i + 1, j, k);
    forall n | i + 1 <= n < j
      ensures !Escapes(states[n], actions[n], c, k)
    {
      FrontAlong(states, actions, c, i + 1, n);
      RunStep(states, actions, n);
      RunInv(states, actions, n);
      FrontHolds(states[n], actions[n], c, k);
    }
  }

  // ---------------------------------------------------------------- at most one escapes

  lemma PassedStep(s: State, a: Action, c: CollectorId)
    requires Inv(s) && Can(s, a) && c in s.cols && InScan(s.cols[c].phase) && s.cols[c].phase.prev.Some?
    requires c in Do(s, a).cols && InScan(Do(s, a).cols[c].phase)
    ensures Do(s, a).cols[c].phase.prev.Some?
  {
    hide *;
    if !BR.ByOwner(a, c) {
      OthersKeep(s, a, c);
      SamePrev(s, Do(s, a), c);
    } else {
      OwnScan(s, a, c);
      if a.AVisit? {
        var k := VisitAnswers(s, c);
        PassedLooks(s, Do(s, a), c, k);
      } else {
        UnlinkAnswers(s, c);
        PassedTakes(s, Do(s, a), c);
      }
    }
  }

  lemma SamePrev(s: State, t: State, c: CollectorId)
    requires ScanKept(s, t, c)
    ensures c in s.cols && c in t.cols && t.cols[c] == s.cols[c]
  {}

  lemma PassedLooks(s: State, t: State, c: CollectorId, k: CollectorId)
    requires Looks(s, t, c, k) && InScan(t.cols[c].phase) && s.cols[c].phase.prev.Some?
    ensures t.cols[c].phase.prev.Some?
  {}

  lemma PassedTakes(s: State, t: State, c: CollectorId)
    requires c in s.cols && s.cols[c].phase.Unlinking? && Takes(s, t, c, s.cols[c].phase.k)
    requires InScan(t.cols[c].phase) && (s.cols[c].phase.prev.Some? || s.head.ptr != Some(s.cols[c].phase.k))
    ensures t.cols[c].phase.prev.Some?
  {}

  lemma {:induction false} PassedAlong(states: seq<State>, actions: seq<Action>, c: CollectorId, i: nat, j: nat)
    requires Run(states, actions) && i <= j < |states| && j <= |actions| && Scans(states, c, i, j)
    requires InScan(states[i].cols[c].phase) && states[i].cols[c].phase.prev.Some?
    ensures InScan(states[j].cols[c].phase) && states[j].cols[c].phase.prev.Some?
  {
    hide Run, Inv, Can, Do, InScan;
    if i < j {
      PassedAlong(states, actions, c, i, j - 1);
      RunStep(states, actions, j - 1);
      RunInv(states, actions, j - 1);
      PassedStep(states[j - 1], actions[j - 1], c);
    }
  }

  /** In one scan at most one INVALID collector escapes. */
  lemma OneEscapes(
    states: seq<State>, actions: seq<Action>, c: CollectorId, i: nat, j: nat, k: CollectorId, l: CollectorId)
    requires Run(states, actions) && i < j < |actions| && j < |states| && Scans(states, c, i, j)
    requires Escapes(states[i], actions[i], c, k)
    ensures !Escapes(states[j], actions[j], c, l)
  {
    hide Run, Inv, Can, Do, InScan, Escapes, Takes;
    EscapesIs(states[i], actions[i], c, k);
    RunStep(states, actions, i);
    RunInv(states, actions, i);
    UnlinkAnswers(states[i], c);
    PassedTakes(states[i], states[i + 1], c);
    PassedAlong(states, actions, c, i + 1, j);
    if Escapes(states[j], actions[j], c, l) { EscapesIs(states[j], actions[j], c, l); }
  }
}
