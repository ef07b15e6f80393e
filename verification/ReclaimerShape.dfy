/** Invariants of the reclaimer, part 1: stored words against unbounded epochs, the chain, the chain
    lock and the scan cursor. */
module ReclaimerShape {
  import opened Base
  import opened Epochs
  import opened Reclaimer

  /** One collector on its own: its words encode its epoch and phase, and an active collector's
      epoch is the global one or one behind. */
  predicate ColOk(s: State, col: Col) {
    && col.announcement == Wrap(col.epoch)
    && col.epoch <= s.epoch
    && col.countdown <= CADENCE
    && col.readers <= MAX_READERS
    && (match col.phase
        case Allocating(seen) => IsInactive(col.word) && col.epoch == 0 && col.readers == 0 && col.link == seen.ptr
        case Idle => if col.readers > 0 then col.word == Word(col.announcement, false, false) else IsInactive(col.word)
        case Draining(_, _) => col.readers > 0 && col.word == Word(col.announcement, false, false)
        case _ => col.readers == 0 && col.word == Word(col.announcement, false, false))
    && col.word.epoch == col.announcement
    && (IsInvalid(col.word) ==> IsInactive(col.word))
    && (Active(col) ==> s.epoch <= col.epoch + 1 && col.since < s.clock)
  }

  ghost predicate ColsOk(s: State) {
    && s.epoch8 == Wrap(s.epoch)
    && forall c :: c in s.cols ==> ColOk(s, s.cols[c])
  }

  function At(chain: seq<CollectorId>, i: nat): Option<CollectorId> {
    if i < |chain| then Some(chain[i]) else None
  }

  /** The head and the links spell out `chain`, which has no repetition. */
  ghost predicate Linked(s: State) {
    && s.head.ptr == At(s.chain, 0)
    && (forall i :: 0 <= i < |s.chain| ==> s.chain[i] in s.cols && s.cols[s.chain[i]].link == At(s.chain, i + 1))
    && (forall i, j :: 0 <= i < j < |s.chain| ==> s.chain[i] != s.chain[j])
  }

  /** Every collector is in the chain, except those being allocated and invalid ones. */
  ghost predicate Homes(s: State) {
    && (forall k :: k in s.cols <==> Record(k) in s.info)
    && (forall k :: k in s.cols ==> (k in s.chain <==> s.info[Record(k)].loc.Home?))
    && (forall k :: k in s.cols ==> (s.cols[k].phase.Allocating? <==> s.info[Record(k)].loc.Fresh?))
    && (forall k :: k in s.cols && k !in s.chain && !s.cols[k].phase.Allocating? ==> IsInvalid(s.cols[k].word))
    && (forall o :: Instance(o) in s.info ==> !s.info[Instance(o)].loc.Fresh?)
  }

  predicate HoldsLock(p: Phase) { p.Scanning? || p.Unlinking? || p.Releasing? }

  /** At most one thread holds the lock, namely the one in a locked section. */
  ghost predicate LockOk(s: State) {
    && (s.head.lock <==> !s.holder.Unlocked?)
    && (forall c :: c in s.cols ==> (HoldsLock(s.cols[c].phase) <==> s.holder == ByScanner(c)))
    && (s.teardown.Nobody? <==> !s.holder.ByTeardown?)
    && (s.holder.ByScanner? ==> s.holder.c in s.cols)
  }

  /** Of the first `n` collectors in the chain, those active have caught up with the global epoch. */
  ghost predicate CaughtUp(s: State, n: int) {
    forall i :: 0 <= i < n && i < |s.chain| && s.chain[i] in s.cols && Active(s.cols[s.chain[i]])
      ==> s.cols[s.chain[i]].epoch == s.epoch
  }

  predicate PrevOk(chain: seq<CollectorId>, prev: Option<CollectorId>, left: nat) {
    prev.Some? ==> left < |chain| && prev.value == chain[|chain| - left - 1]
  }

  /** A scan in progress: where the cursor is and what has been established so far. */
  ghost predicate ScanOk(s: State, col: Col) {
    match col.phase
    case Scanning(known, prev, cur, left) =>
      && known == col.word && left <= |s.chain| && cur == At(s.chain, |s.chain| - left)
      && PrevOk(s.chain, prev, left)
      && (col.epoch == s.epoch ==> CaughtUp(s, |s.chain| - left))
    case Unlinking(known, prev, k, nxt, left) =>
      && known == col.word && 0 < left <= |s.chain| && k == s.chain[|s.chain| - left]
      && nxt == At(s.chain, |s.chain| - left + 1) && k in s.cols && IsInvalid(s.cols[k].word)
      && PrevOk(s.chain, prev, left)
      && (col.epoch == s.epoch ==> CaughtUp(s, |s.chain| - left))
    case _ => true
  }

  ghost predicate ScansOk(s: State) { forall c :: c in s.cols ==> ScanOk(s, s.cols[c]) }

  /** `clear_chain` in progress: from the remembered head to the cursor all collectors are invalid. */
  ghost predicate TeardownOk(s: State) {
    s.teardown.Checking? ==>
      var Checking(first, cur, left, total) := s.teardown;
      && left <= total <= |s.chain|
      && first == At(s.chain, |s.chain| - total) && cur == At(s.chain, |s.chain| - left)
      && AllInvalidIn(s, |s.chain| - total, |s.chain| - left)
  }

  ghost predicate AllInvalidIn(s: State, lo: nat, hi: nat)
    requires hi <= |s.chain|
  {
    forall i :: lo <= i < hi ==> s.chain[i] in s.cols && IsInvalid(s.cols[s.chain[i]].word)
  }

  ghost predicate Shape(s: State) {
    ColsOk(s) && Linked(s) && Homes(s) && LockOk(s) && ScansOk(s) && TeardownOk(s)
  }

  // ---------------------------------------------------------------- steps of one collector

  /** From `s` to `t` only collector `c` takes a step, leaving the chain and the epoch alone;
      garbage lists do not matter here. */
  ghost predicate OnlyMoves(s: State, t: State, c: CollectorId) {
    && t.epoch == s.epoch && t.epoch8 == s.epoch8 && t.chain == s.chain && t.head.ptr == s.head.ptr
    && t.clock >= s.clock
    && (t.teardown == s.teardown || !t.teardown.Checking?)
    && c in s.cols && c in t.cols
    && (t.cols == s.cols[c := t.cols[c]]
        || (t.cols.Keys == s.cols.Keys
            && forall d :: d in s.cols && d != c ==> Emptied(t.cols[d]) == Emptied(s.cols[d])))
  }

  /** No collector record changes between allocated, linked and garbage. */
  ghost predicate SameHomes(s: State, t: State) {
    t.info == s.info ||
    ((forall k :: Record(k) in t.info <==> Record(k) in s.info)
    && (forall k :: Record(k) in s.info ==>
          (t.info[Record(k)].loc.Home? <==> s.info[Record(k)].loc.Home?)
          && (t.info[Record(k)].loc.Fresh? <==> s.info[Record(k)].loc.Fresh?))
    && (forall o :: Instance(o) in t.info && t.info[Instance(o)].loc.Fresh? ==>
          Instance(o) in s.info && s.info[Instance(o)].loc.Fresh?))
  }

  /** What the step of collector `c` itself has to respect. */
  ghost predicate MovesWell(s: State, t: State, c: CollectorId)
    requires c in s.cols && c in t.cols
  {
    var col, col' := s.cols[c], t.cols[c];
    && (col'.link == col.link || c !in s.chain)
    && col'.phase.Allocating? == col.phase.Allocating?
    && (IsInvalid(col.word) ==> IsInvalid(col'.word))
    && (Active(col') ==> (Active(col) && col'.epoch == col.epoch) || col'.epoch == t.epoch)
    && ColOk(t, col') && ScanOk(t, col')
  }

  lemma MovesKeepCols(s: State, t: State, c: CollectorId)
    requires OnlyMoves(s, t, c) && ColsOk(s) && ColOk(t, t.cols[c])
    ensures ColsOk(t)
  {
    forall d | d in t.cols
      ensures ColOk(t, t.cols[d])
    {
      if d != c { assert Emptied(t.cols[d]) == Emptied(s.cols[d]); }
    }
  }

  lemma MovesKeepLinks(s: State, t: State, c: CollectorId)
    requires OnlyMoves(s, t, c) && Linked(s) && (t.cols[c].link == s.cols[c].link || c !in s.chain)
    ensures Linked(t)
  {
    forall i | 0 <= i < |t.chain|
      ensures t.chain[i] in t.cols && t.cols[t.chain[i]].link == At(t.chain, i + 1)
    {
      var d := s.chain[i];
      if d != c { assert Emptied(t.cols[d]) == Emptied(s.cols[d]); }
    }
  }

  lemma MovesKeepHomes(s: State, t: State, c: CollectorId)
    requires OnlyMoves(s, t, c) && SameHomes(s, t) && Homes(s)
    requires t.cols[c].phase.Allocating? == s.cols[c].phase.Allocating?
    requires IsInvalid(s.cols[c].word) ==> IsInvalid(t.cols[c].word)
    ensures Homes(t)
  {
    forall k | k in t.cols
      ensures (t.cols[k].phase.Allocating? <==> s.cols[k].phase.Allocating?)
           && (IsInvalid(s.cols[k].word) ==> IsInvalid(t.cols[k].word))
    {
      if k != c { assert Emptied(t.cols[k]) == Emptied(s.cols[k]); }
    }
  }

  lemma MovesKeepLock(s: State, t: State, c: CollectorId)
    requires OnlyMoves(s, t, c) && LockOk(s)
    requires HoldsLock(t.cols[c].phase) == HoldsLock(s.cols[c].phase)
    requires t.head.lock == s.head.lock && t.holder == s.holder && t.teardown.Nobody? == s.teardown.Nobody?
    ensures LockOk(t)
  {
    forall d | d in t.cols
      ensures HoldsLock(t.cols[d].phase) <==> t.holder == ByScanner(d)
    {
      if d != c { assert Emptied(t.cols[d]) == Emptied(s.cols[d]); }
    }
  }

  lemma MovesKeepCaughtUp(s: State, t: State, c: CollectorId, n: int)
    requires OnlyMoves(s, t, c) && CaughtUp(s, n)
    requires Active(t.cols[c]) ==>
      (Active(s.cols[c]) && t.cols[c].epoch == s.cols[c].epoch) || t.cols[c].epoch == t.epoch
    ensures CaughtUp(t, n)
  {
    forall i | 0 <= i < n && i < |t.chain| && t.chain[i] in t.cols && Active(t.cols[t.chain[i]])
      ensures t.cols[t.chain[i]].epoch == t.epoch
    {
      var d := s.chain[i];
      if d != c { assert Emptied(t.cols[d]) == Emptied(s.cols[d]); }
    }
  }

  lemma MovesKeepScans(s: State, t: State, c: CollectorId)
    requires OnlyMoves(s, t, c) && MovesWell(s, t, c) && ScansOk(s)
    ensures ScansOk(t)
  {
    forall d | d in t.cols && d != c
      ensures ScanOk(t, t.cols[d])
    {
      assert Emptied(t.cols[d]) == Emptied(s.cols[d]);
      assert ScanOk(s, s.cols[d]);
      if HoldsLock(s.cols[d].phase) && !s.cols[d].phase.Releasing? {
        if s.cols[d].epoch == s.epoch { MovesKeepCaughtUp(s, t, c, |s.chain| - s.cols[d].phase.left); }
        if s.cols[d].phase.Unlinking? && s.cols[d].phase.k != c {
          assert Emptied(t.cols[s.cols[d].phase.k]) == Emptied(s.cols[s.cols[d].phase.k]);
        }
      }
    }
  }

  lemma MovesKeepTeardown(s: State, t: State, c: CollectorId)
    requires OnlyMoves(s, t, c) && TeardownOk(s)
    requires IsInvalid(s.cols[c].word) ==> IsInvalid(t.cols[c].word)
    ensures TeardownOk(t)
  {
    if t.teardown.Checking? {
      var Checking(first, cur, left, total) := s.teardown;
      forall i | |s.chain| - total <= i < |s.chain| - left
        ensures s.chain[i] in t.cols && IsInvalid(t.cols[s.chain[i]].word)
      {
        var d := s.chain[i];
        if d != c { assert Emptied(t.cols[d]) == Emptied(s.cols[d]); }
      }
    }
  }

  lemma MovesKeepShape(s: State, t: State, c: CollectorId)
    requires Shape(s) && OnlyMoves(s, t, c) && SameHomes(s, t) && MovesWell(s, t, c) && LockOk(t)
    ensures Shape(t)
  {
    hide Linked, Homes, LockOk, TeardownOk, CaughtUp;
    MovesKeepCols(s, t, c);
    MovesKeepLinks(s, t, c);
    MovesKeepHomes(s, t, c);
    MovesKeepScans(s, t, c);
    MovesKeepTeardown(s, t, c);
  }

  /** What the invariant says about one collector. */
  lemma OfCollector(s: State, c: CollectorId)
    requires Shape(s) && c in s.cols
    ensures ColOk(s, s.cols[c]) && ScanOk(s, s.cols[c]) && LockOk(s) && s.epoch8 == Wrap(s.epoch)
    ensures HoldsLock(s.cols[c].phase) <==> s.holder == ByScanner(c)
    ensures s.cols[c].phase.Allocating? ==> c !in s.chain
  {}

  /** A step of one collector that leaves the lock alone. */
  lemma MovesUnlocked(s: State, t: State, c: CollectorId)
    requires Shape(s) && OnlyMoves(s, t, c) && SameHomes(s, t) && MovesWell(s, t, c)
    requires HoldsLock(t.cols[c].phase) == HoldsLock(s.cols[c].phase)
    requires t.head.lock == s.head.lock && t.holder == s.holder && t.teardown == s.teardown
    ensures Shape(t)
  {
    MovesKeepLock(s, t, c);
    hide LockOk;
    MovesKeepShape(s, t, c);
  }

  lemma RetireWell(s: State, c: CollectorId, o: InstanceId)
    requires CanRetire(s, c, o) && ColOk(s, s.cols[c])
    ensures MovesWell(s, Retire(s, c, o), c)
  {}

  lemma RetireKeepsHomes(s: State, c: CollectorId, o: InstanceId)
    requires CanRetire(s, c, o)
    ensures SameHomes(s, Retire(s, c, o))
  {}

  lemma ShapeRetire(s: State, c: CollectorId, o: InstanceId)
    requires Shape(s) && CanRetire(s, c, o)
    ensures Shape(Retire(s, c, o))
  {
    OfCollector(s, c);
    hide Shape, ScanOk, LockOk;
    RetireWell(s, c, o);
    RetireKeepsHomes(s, c, o);
    hide MovesWell, ColOk, SameHomes;
    MovesUnlocked(s, Retire(s, c, o), c);
  }

  lemma EnterWell(s: State, c: CollectorId)
    requires CanEnter(s, c) && ColOk(s, s.cols[c]) && s.epoch8 == Wrap(s.epoch)
    ensures MovesWell(s, Enter(s, c), c)
  {}

  lemma ShapeEnter(s: State, c: CollectorId)
    requires Shape(s) && CanEnter(s, c)
    ensures Shape(Enter(s, c))
  {
    OfCollector(s, c);
    hide Shape, ScanOk, LockOk;
    EnterWell(s, c);
    hide MovesWell, ColOk;
    MovesUnlocked(s, Enter(s, c), c);
  }

  lemma NestWell(s: State, c: CollectorId)
    requires CanNest(s, c) && ColOk(s, s.cols[c])
    ensures MovesWell(s, Nest(s, c), c)
  {}

  lemma ShapeNest(s: State, c: CollectorId)
    requires Shape(s) && CanNest(s, c)
    ensures Shape(Nest(s, c))
  {
    OfCollector(s, c);
    hide Shape, ScanOk, LockOk;
    NestWell(s, c);
    hide MovesWell, ColOk;
    MovesUnlocked(s, Nest(s, c), c);
  }

  lemma UnnestWell(s: State, c: CollectorId)
    requires CanUnnest(s, c) && ColOk(s, s.cols[c])
    ensures MovesWell(s, Unnest(s, c), c)
  {}

  lemma ShapeUnnest(s: State, c: CollectorId)
    requires Shape(s) && CanUnnest(s, c)
    ensures Shape(Unnest(s, c))
  {
    OfCollector(s, c);
    hide Shape, ScanOk, LockOk;
    UnnestWell(s, c);
    hide MovesWell, ColOk;
    MovesUnlocked(s, Unnest(s, c), c);
  }

  lemma AccelerateWell(s: State, c: CollectorId)
    requires CanHint(s, c) && ColOk(s, s.cols[c])
    ensures MovesWell(s, Accelerate(s, c), c)
  {}

  lemma ShapeAccelerate(s: State, c: CollectorId)
    requires Shape(s) && CanHint(s, c)
    ensures Shape(Accelerate(s, c))
  {
    OfCollector(s, c);
    hide Shape, ScanOk, LockOk;
    AccelerateWell(s, c);
    hide MovesWell, ColOk;
    MovesUnlocked(s, Accelerate(s, c), c);
  }

  lemma SetHasGarbageWell(s: State, c: CollectorId)
    requires CanHint(s, c) && ColOk(s, s.cols[c])
    ensures MovesWell(s, SetHasGarbage(s, c), c)
  {}

  lemma ShapeSetHasGarbage(s: State, c: CollectorId)
    requires Shape(s) && CanHint(s, c)
    ensures Shape(SetHasGarbage(s, c))
  {
    OfCollector(s, c);
    hide Shape, ScanOk, LockOk;
    SetHasGarbageWell(s, c);
    hide MovesWell, ColOk;
    MovesUnlocked(s, SetHasGarbage(s, c), c);
  }

  lemma ExitColOk(s: State, col: Col, marked: bool)
    requires ColOk(s, col) && !IsInvalid(col.word) && col.phase.Idle? && col.readers == 1
    ensures ColOk(s, ExitCol(col, marked)) && !IsInvalid(ExitCol(col, marked).word) && Active(col)
    ensures ExitCol(col, marked).phase.Locking? || ExitCol(col, marked).phase.Leaving?
    ensures ExitCol(col, marked).link == col.link && ExitCol(col, marked).epoch == col.epoch
  {}

  lemma ExitWell(s: State, c: CollectorId)
    requires CanExit(s, c) && ColOk(s, s.cols[c])
    ensures MovesWell(s, Exit(s, c), c)
  {
    ExitColOk(s, s.cols[c], s.head.mark && !s.head.lock);
    hide ExitCol;
  }

  lemma ShapeExit(s: State, c: CollectorId)
    requires Shape(s) && CanExit(s, c)
    ensures Shape(Exit(s, c))
  {
    OfCollector(s, c);
    hide Shape, ScanOk, LockOk;
    ExitWell(s, c);
    hide MovesWell, ColOk;
    MovesUnlocked(s, Exit(s, c), c);
  }

  lemma LeaveWell(s: State, c: CollectorId)
    requires CanLeave(s, c) && ColOk(s, s.cols[c])
    ensures MovesWell(s, Leave(s, c), c)
  {}

  lemma ShapeLeave(s: State, c: CollectorId)
    requires Shape(s) && CanLeave(s, c)
    ensures Shape(Leave(s, c))
  {
    OfCollector(s, c);
    hide Shape, ScanOk, LockOk;
    LeaveWell(s, c);
    hide MovesWell, ColOk;
    MovesUnlocked(s, Leave(s, c), c);
  }

  lemma InvalidateWell(s: State, c: CollectorId)
    requires CanInvalidate(s, c) && ColOk(s, s.cols[c])
    ensures MovesWell(s, Invalidate(s, c), c)
  {}

  lemma ShapeInvalidate(s: State, c: CollectorId)
    requires Shape(s) && CanInvalidate(s, c)
    ensures Shape(Invalidate(s, c))
  {
    OfCollector(s, c);
    hide Shape, ScanOk, LockOk;
    InvalidateWell(s, c);
    hide MovesWell, ColOk;
    MovesUnlocked(s, Invalidate(s, c), c);
  }

  lemma RelinkWell(s: State, c: CollectorId)
    requires CanRelink(s, c) && ColOk(s, s.cols[c]) && c !in s.chain
    ensures MovesWell(s, Relink(s, c), c)
  {}

  lemma ShapeRelink(s: State, c: CollectorId)
    requires Shape(s) && CanRelink(s, c)
    ensures Shape(Relink(s, c))
  {
    OfCollector(s, c);
    hide Shape, ScanOk, LockOk;
    RelinkWell(s, c);
    hide MovesWell, ColOk;
    MovesUnlocked(s, Relink(s, c), c);
  }

  lemma FinishDrainWell(s: State, c: CollectorId)
    requires CanFinishDrain(s, c) && ColOk(s, s.cols[c])
    ensures MovesWell(s, FinishDrain(s, c), c)
  {}

  lemma ShapeFinishDrain(s: State, c: CollectorId)
    requires Shape(s) && CanFinishDrain(s, c)
    ensures Shape(FinishDrain(s, c))
  {
    OfCollector(s, c);
    hide Shape, ScanOk, LockOk;
    FinishDrainWell(s, c);
    hide MovesWell, ColOk;
    MovesUnlocked(s, FinishDrain(s, c), c);
  }

  /** Dropping an item only ever moves items that are garbage already. */
  lemma DropKeepsHomes(s: State, t: State, x: Item, loc: Loc)
    requires x in s.info && Retired(s.info[x]) && !loc.Home? && !loc.Fresh? && t.info == Drop(s.info, x, loc)
    ensures SameHomes(s, t)
  {}

  lemma DrainMoves(s: State, c: CollectorId)
    requires CanDrain(s, c)
    ensures OnlyMoves(s, Drain(s, c), c)
  {}

  lemma DrainWell(s: State, c: CollectorId)
    requires CanDrain(s, c) && ColOk(s, s.cols[c])
    ensures MovesWell(s, Drain(s, c), c) && !HoldsLock(Drain(s, c).cols[c].phase)
  {
    hide Drop;
  }

  lemma ShapeDrain(s: State, c: CollectorId)
    requires Shape(s) && CanDrain(s, c) && Retired(s.info[Victim(s.cols[c].phase)])
    ensures Shape(Drain(s, c))
  {
    OfCollector(s, c);
    hide Shape, ScanOk, LockOk, Drop;
    DrainMoves(s, c);
    DrainWell(s, c);
    DropKeepsHomes(s, Drain(s, c), Victim(s.cols[c].phase), In(c));
    hide MovesWell, OnlyMoves, SameHomes, ColOk;
    MovesUnlocked(s, Drain(s, c), c);
  }

  lemma FailDrainMoves(s: State, c: CollectorId)
    requires CanFailDrain(s, c)
    ensures OnlyMoves(s, FailDrain(s, c), c)
  {}

  lemma FailColOk(s: State, col: Col)
    requires ColOk(s, col) && col.phase.Draining? && (col.phase.inner != [] || col.phase.outer != [])
    ensures ColOk(s, FailCol(col)) && !IsInvalid(col.word) && FailCol(col).epoch == col.epoch
    ensures FailCol(col).word == col.word && FailCol(col).link == col.link && FailCol(col).phase.Idle?
  {}

  lemma FailDrainWell(s: State, c: CollectorId)
    requires CanFailDrain(s, c) && ColOk(s, s.cols[c])
    ensures MovesWell(s, FailDrain(s, c), c) && !HoldsLock(FailDrain(s, c).cols[c].phase)
  {
    FailColOk(s, s.cols[c]);
    hide Drop, Lose, Reverse, FailCol;
  }

  lemma FailDrainKeepsHomes(s: State, c: CollectorId)
    requires CanFailDrain(s, c) && Retired(s.info[Victim(s.cols[c].phase)])
    requires forall x :: x in s.cols[c].phase.inner && x in s.info ==> Retired(s.info[x])
    ensures SameHomes(s, FailDrain(s, c))
  {}

  lemma ShapeFailDrain(s: State, c: CollectorId)
    requires Shape(s) && CanFailDrain(s, c) && Retired(s.info[Victim(s.cols[c].phase)])
    requires forall x :: x in s.cols[c].phase.inner && x in s.info ==> Retired(s.info[x])
    ensures Shape(FailDrain(s, c))
  {
    OfCollector(s, c);
    hide Shape, ScanOk, LockOk, Drop, Lose, FailCol;
    FailDrainMoves(s, c);
    FailDrainWell(s, c);
    FailDrainKeepsHomes(s, c);
    hide MovesWell, OnlyMoves, SameHomes, ColOk;
    MovesUnlocked(s, FailDrain(s, c), c);
  }

  /** Actions that change no collector. */
  lemma StillCols(s: State, t: State)
    requires ColsOk(s) && t.cols == s.cols && t.epoch == s.epoch && t.epoch8 == s.epoch8 && t.clock >= s.clock
    ensures ColsOk(t)
  {
    forall c | c in t.cols ensures ColOk(t, t.cols[c]) { assert ColOk(s, s.cols[c]); }
  }

  lemma StillScans(s: State, t: State)
    requires ScansOk(s) && t.cols == s.cols && t.epoch == s.epoch && t.chain == s.chain
    ensures ScansOk(t)
  {
    forall c | c in t.cols ensures ScanOk(t, t.cols[c]) { assert ScanOk(s, s.cols[c]); }
  }

  lemma StillShape(s: State, t: State)
    requires Shape(s) && t.cols == s.cols && t.epoch == s.epoch && t.epoch8 == s.epoch8 && t.chain == s.chain
    requires t.head.ptr == s.head.ptr && t.clock >= s.clock && SameHomes(s, t) && LockOk(t) && TeardownOk(t)
    ensures Shape(t)
  {
    StillCols(s, t);
    StillScans(s, t);
    hide ColsOk, ScansOk, LockOk, TeardownOk;
  }

  lemma LockTaken(s: State, c: CollectorId)
    requires LockOk(s) && CanLock(s, c)
    ensures LockOk(Lock(s, c))
  {}

  lemma LockWell(s: State, c: CollectorId)
    requires CanLock(s, c) && ColOk(s, s.cols[c]) && s.head.ptr == At(s.chain, 0)
    ensures ColOk(Lock(s, c), Lock(s, c).cols[c]) && ScanOk(Lock(s, c), Lock(s, c).cols[c])
  {}

  lemma ShapeLock(s: State, c: CollectorId)
    requires Shape(s) && CanLock(s, c)
    ensures Shape(Lock(s, c))
  {
    OfCollector(s, c);
    LockTaken(s, c);
    assert s.head.ptr == At(s.chain, 0);
    LockWell(s, c);
    hide Shape, LockOk, ColOk, ScanOk;
    MovesKeepShape(s, Lock(s, c), c);
  }

  lemma LockReleased(s: State, c: CollectorId)
    requires LockOk(s) && CanRelease(s, c)
    ensures LockOk(Release(s, c))
  {
    assert HoldsLock(s.cols[c].phase);
  }

  lemma ReleaseWell(s: State, c: CollectorId)
    requires CanRelease(s, c) && ColOk(s, s.cols[c])
    ensures MovesWell(s, Release(s, c), c)
  {}

  lemma ShapeRelease(s: State, c: CollectorId)
    requires Shape(s) && CanRelease(s, c)
    ensures Shape(Release(s, c))
  {
    OfCollector(s, c);
    LockReleased(s, c);
    hide Shape, ScanOk, LockOk;
    ReleaseWell(s, c);
    hide MovesWell, ColOk;
    MovesKeepShape(s, Release(s, c), c);
  }

  /** The scan's comparison of state bytes is exact: both collectors are active, so their epochs
      differ by at most one. */
  lemma ComparisonExact(s: State, a: Col, b: Col)
    requires ColOk(s, a) && ColOk(s, b) && Active(a) && Active(b)
    ensures a.word == b.word <==> a.epoch == b.epoch
    ensures Byte(a.word) == Byte(b.word) <==> a.epoch == b.epoch
  {
    ByteExact(a.word, b.word);
    hide Byte;
    if a.epoch <= b.epoch { WrapExact(a.epoch, b.epoch); } else { WrapExact(b.epoch, a.epoch); }
  }

  lemma VisitScans(s: State, c: CollectorId)
    requires CanVisit(s, c) && ScanOk(s, s.cols[c]) && Linked(s) && VisitPhase(s, c).Scanning?
    requires ColOk(s, s.cols[c]) && ColOk(s, s.cols[s.cols[c].phase.cur.value]) && Active(s.cols[c])
    ensures ScanOk(s, s.cols[c].(phase := VisitPhase(s, c)))
  {
    var col := s.cols[c];
    var Scanning(known, prev, cur, left) := col.phase;
    var i := |s.chain| - left;
    assert cur == Some(s.chain[i]);
    if Active(s.cols[cur.value]) { ComparisonExact(s, col, s.cols[cur.value]); }
    hide ColOk;
  }

  lemma VisitUnlinks(s: State, c: CollectorId)
    requires CanVisit(s, c) && ScanOk(s, s.cols[c]) && Linked(s) && !VisitPhase(s, c).Scanning?
    ensures ScanOk(s, s.cols[c].(phase := VisitPhase(s, c)))
  {
    hide CaughtUp;
  }

  lemma VisitWell(s: State, c: CollectorId)
    requires CanVisit(s, c) && ScanOk(s, s.cols[c]) && Linked(s)
    requires ColOk(s, s.cols[c]) && ColOk(s, s.cols[s.cols[c].phase.cur.value])
    ensures ScanOk(s, s.cols[c].(phase := VisitPhase(s, c))) && ColOk(s, s.cols[c].(phase := VisitPhase(s, c)))
  {
    if VisitPhase(s, c).Scanning? { VisitScans(s, c); } else { VisitUnlinks(s, c); }
    hide ScanOk, Linked;
  }

  /** The scanner's phase does not show in what scans rely on. */
  lemma ScanOkOwnPhase(s: State, t: State, c: CollectorId, p: Phase)
    requires c in s.cols && t == Upd(s, c, s.cols[c].(phase := p)) && ScanOk(s, s.cols[c].(phase := p))
    ensures ScanOk(t, t.cols[c])
  {
    assert CaughtUp(s, if p.Scanning? || p.Unlinking? then |s.chain| - p.left else 0)
        ==> CaughtUp(t, if p.Scanning? || p.Unlinking? then |s.chain| - p.left else 0);
    hide CaughtUp;
  }

  lemma ShapeVisit(s: State, c: CollectorId)
    requires Shape(s) && CanVisit(s, c)
    ensures Shape(Visit(s, c))
  {
    OfCollector(s, c);
    OfCollector(s, s.cols[c].phase.cur.value);
    assert Linked(s);
    hide Shape, ColOk, ScanOk, Linked, LockOk;
    VisitWell(s, c);
    ScanOkOwnPhase(s, Visit(s, c), c, VisitPhase(s, c));
    SameEpochColOk(s, Visit(s, c), Visit(s, c).cols[c]);
    MovesUnlocked(s, Visit(s, c), c);
  }

  lemma SameEpochColOk(s: State, t: State, col: Col)
    requires ColOk(s, col) && t.epoch == s.epoch && t.clock >= s.clock
    ensures ColOk(t, col)
  {}

  // ---------------------------------------------------------------- publishing

  /** When a scan has reached the end of the chain, the whole world is as the scanner expects:
      either its epoch is out of date, or every active collector is in the global epoch. */
  lemma ScanComplete(s: State, c: CollectorId)
    requires Shape(s) && CanPublish(s, c)
    ensures Active(s.cols[c]) && s.holder == ByScanner(c)
    ensures s.cols[c].epoch == s.epoch || s.cols[c].epoch + 1 == s.epoch
    ensures s.cols[c].epoch == s.epoch ==>
      forall d :: d in s.cols && Active(s.cols[d]) ==> s.cols[d].epoch == s.epoch
  {
    var col := s.cols[c];
    assert ColOk(s, col) && ScanOk(s, col);
    if col.epoch == s.epoch {
      assert col.phase.left == 0;
      forall d | d in s.cols && Active(s.cols[d])
        ensures s.cols[d].epoch == s.epoch
      {
        assert ColOk(s, s.cols[d]);
        assert d in s.chain;
        var i :| 0 <= i < |s.chain| && s.chain[i] == d;
      }
    }
  }

  lemma PublishCol(s: State, c: CollectorId, d: CollectorId)
    requires CanPublish(s, c) && d in s.cols && ColOk(s, s.cols[c]) && ColOk(s, s.cols[d])
    requires s.cols[c].epoch == s.epoch || s.cols[c].epoch + 1 == s.epoch
    requires s.cols[c].epoch == s.epoch && Active(s.cols[d]) ==> s.cols[d].epoch == s.epoch
    ensures ColOk(Publish(s, c), Publish(s, c).cols[d])
  {}

  lemma PublishCols(s: State, c: CollectorId)
    requires Shape(s) && CanPublish(s, c)
    ensures ColsOk(Publish(s, c))
  {
    ScanComplete(s, c);
    OfCollector(s, c);
    hide Shape, ColOk;
    WrapNext(s.cols[c].epoch);
    PublishWord(s, c);
    hide Publish, Wrap;
    forall d | d in Publish(s, c).cols
      ensures ColOk(Publish(s, c), Publish(s, c).cols[d])
    {
      OfCollector(s, d);
      PublishCol(s, c, d);
    }
  }

  lemma PublishWord(s: State, c: CollectorId)
    requires CanPublish(s, c) && ColOk(s, s.cols[c]) && ScanOk(s, s.cols[c])
    ensures Publish(s, c).epoch8 == Wrap(Publish(s, c).epoch) && Publish(s, c).cols.Keys == s.cols.Keys
  {
    WrapNext(s.cols[c].epoch);
    hide CaughtUp;
  }

  lemma PublishRest(s: State, c: CollectorId)
    requires Shape(s) && CanPublish(s, c)
    ensures Linked(Publish(s, c)) && Homes(Publish(s, c)) && TeardownOk(Publish(s, c))
  {}

  lemma PublishScans(s: State, c: CollectorId)
    requires Shape(s) && CanPublish(s, c)
    ensures LockOk(Publish(s, c)) && ScansOk(Publish(s, c))
  {
    var t := Publish(s, c);
    forall d | d in t.cols
      ensures ScanOk(t, t.cols[d])
    {
      assert HoldsLock(s.cols[d].phase) <==> s.holder == ByScanner(d);
    }
  }

  lemma ShapePublish(s: State, c: CollectorId)
    requires Shape(s) && CanPublish(s, c)
    ensures Shape(Publish(s, c))
  {
    PublishCols(s, c);
    PublishRest(s, c);
    PublishScans(s, c);
    hide ColsOk, Linked, Homes, LockOk, ScansOk, TeardownOk;
  }

  // ---------------------------------------------------------------- allocation

  lemma AllocCols(s: State, k: CollectorId)
    requires ColsOk(s) && CanAlloc(s, k)
    ensures ColsOk(Alloc(s, k))
  {
    forall d | d in Alloc(s, k).cols
      ensures ColOk(Alloc(s, k), Alloc(s, k).cols[d])
    {
      if d != k { assert ColOk(s, s.cols[d]); }
    }
  }

  lemma AllocParts(s: State, k: CollectorId)
    requires Linked(s) && CanAlloc(s, k)
    ensures Linked(Alloc(s, k))
  {
    forall i | 0 <= i < |s.chain|
      ensures Alloc(s, k).cols[s.chain[i]] == s.cols[s.chain[i]]
    {
      assert s.chain[i] in s.cols;
    }
  }

  lemma AllocHomes(s: State, k: CollectorId)
    requires Homes(s) && CanAlloc(s, k) && k !in s.chain
    ensures Homes(Alloc(s, k))
  {}

  lemma AllocLock(s: State, k: CollectorId)
    requires LockOk(s) && CanAlloc(s, k)
    ensures LockOk(Alloc(s, k))
  {}

  lemma AllocScan(s: State, k: CollectorId, col: Col)
    requires CanAlloc(s, k) && ScanOk(s, col) && k !in s.chain
    ensures ScanOk(Alloc(s, k), col)
  {}

  lemma AllocScans(s: State, k: CollectorId)
    requires Shape(s) && CanAlloc(s, k)
    ensures ScansOk(Alloc(s, k))
  {
    assert k !in s.chain;
    hide ColsOk, LockOk, Linked, Homes, TeardownOk, ScanOk;
    forall d | d in Alloc(s, k).cols
      ensures ScanOk(Alloc(s, k), Alloc(s, k).cols[d])
    {
      if d != k { AllocScan(s, k, s.cols[d]); } else { NewScan(s, k); }
    }
  }

  lemma NewScan(s: State, k: CollectorId)
    ensures ScanOk(Alloc(s, k), NewCol(s.head))
  {}

  lemma AllocTeardown(s: State, k: CollectorId)
    requires CanAlloc(s, k) && TeardownOk(s)
    ensures TeardownOk(Alloc(s, k))
  {}

  lemma ShapeAlloc(s: State, k: CollectorId)
    requires Shape(s) && CanAlloc(s, k)
    ensures Shape(Alloc(s, k))
  {
    AllocCols(s, k);
    AllocParts(s, k);
    assert k !in s.chain;
    AllocHomes(s, k);
    AllocLock(s, k);
    AllocScans(s, k);
    AllocTeardown(s, k);
    hide ColsOk, Linked, Homes, LockOk, ScansOk, TeardownOk;
  }

  lemma LinkHeadCols(s: State, k: CollectorId)
    requires Shape(s) && CanLink(s, k)
    ensures ColsOk(LinkHead(s, k)) && LockOk(LinkHead(s, k))
  {
    var t := LinkHead(s, k);
    forall d | d in t.cols
      ensures ColOk(t, t.cols[d])
    {
      assert ColOk(s, s.cols[d]);
    }
  }

  lemma LinkHeadLinks(s: State, k: CollectorId)
    requires Linked(s) && CanLink(s, k) && k !in s.chain && s.cols[k].link == s.head.ptr
    ensures Linked(LinkHead(s, k))
  {
    var t := LinkHead(s, k);
    forall i | 0 <= i < |t.chain|
      ensures t.chain[i] in t.cols && t.cols[t.chain[i]].link == At(t.chain, i + 1)
    {
      if i > 0 { assert t.chain[i] == s.chain[i - 1]; }
    }
  }

  lemma LinkHeadHomes(s: State, k: CollectorId)
    requires Homes(s) && CanLink(s, k) && k !in s.chain
    ensures Homes(LinkHead(s, k))
  {}

  lemma LinkHeadChain(s: State, k: CollectorId)
    requires Shape(s) && CanLink(s, k)
    ensures Linked(LinkHead(s, k)) && Homes(LinkHead(s, k))
  {
    OfCollector(s, k);
    LinkHeadLinks(s, k);
    LinkHeadHomes(s, k);
    hide Linked, Homes, ColOk, ScanOk;
  }

  /** A collector pushed in front of a running scan shifts positions from the head, but not from
      the end, and is inactive. */
  lemma LinkHeadScan(s: State, k: CollectorId, col: Col)
    requires CanLink(s, k) && ScanOk(s, col) && !Active(s.cols[k])
    ensures ScanOk(LinkHead(s, k), col)
  {
    var t := LinkHead(s, k);
    assert forall i :: 0 < i < |t.chain| ==> t.chain[i] == s.chain[i - 1];
  }

  lemma LinkHeadTeardown(s: State, k: CollectorId)
    requires CanLink(s, k) && TeardownOk(s)
    ensures TeardownOk(LinkHead(s, k))
  {
    var t := LinkHead(s, k);
    assert forall i :: 0 < i < |t.chain| ==> t.chain[i] == s.chain[i - 1];
  }

  lemma LinkHeadScans(s: State, k: CollectorId)
    requires Shape(s) && CanLink(s, k)
    ensures ScansOk(LinkHead(s, k))
  {
    var t := LinkHead(s, k);
    OfCollector(s, k);
    forall d | d in t.cols
      ensures ScanOk(t, t.cols[d])
    {
      OfCollector(s, d);
      if d != k { LinkHeadScan(s, k, s.cols[d]); }
    }
    hide Shape, ScanOk;
  }

  lemma ShapeLinkHead(s: State, k: CollectorId)
    requires Shape(s) && CanLink(s, k)
    ensures Shape(LinkHead(s, k))
  {
    LinkHeadCols(s, k);
    LinkHeadChain(s, k);
    LinkHeadScans(s, k);
    LinkHeadTeardown(s, k);
    hide ColsOk, Linked, Homes, LockOk, ScansOk, TeardownOk;
  }

  // ---------------------------------------------------------------- unlinking and adopting

  lemma HeadMovedWell(s: State, c: CollectorId)
    requires CanUnlink(s, c) && HeadMoved(s, s.cols[c].phase) && ColOk(s, s.cols[c]) && ScanOk(s, s.cols[c])
    requires ColOk(s, s.cols[s.cols[c].phase.k])
    ensures ColOk(s, Unlink(s, c).cols[c]) && ScanOk(s, Unlink(s, c).cols[c])
  {
    assert !Active(s.cols[s.cols[c].phase.k]);
  }

  lemma ShapeHeadMoved(s: State, c: CollectorId)
    requires Shape(s) && CanUnlink(s, c) && HeadMoved(s, s.cols[c].phase)
    ensures Shape(Unlink(s, c))
  {
    OfCollector(s, c);
    OfCollector(s, s.cols[c].phase.k);
    HeadMovedWell(s, c);
    hide Shape, LockOk, ColOk, ScanOk;
    ScanOkOwnPhase(s, Unlink(s, c), c, Unlink(s, c).cols[c].phase);
    SameEpochColOk(s, Unlink(s, c), Unlink(s, c).cols[c]);
    MovesUnlocked(s, Unlink(s, c), c);
  }

  lemma WithoutAt(chain: seq<CollectorId>, left: nat)
    requires 0 < left <= |chain|
    ensures |Without(chain, left)| == |chain| - 1
    ensures forall i :: 0 <= i < |chain| - left ==> Without(chain, left)[i] == chain[i]
    ensures forall i :: |chain| - left <= i < |chain| - 1 ==> Without(chain, left)[i] == chain[i + 1]
    ensures forall d :: d in Without(chain, left) ==> d in chain
    ensures forall d :: d in chain && d != chain[|chain| - left] ==> d in Without(chain, left)
    ensures (forall i, j :: 0 <= i < j < |chain| ==> chain[i] != chain[j]) ==>
      chain[|chain| - left] !in Without(chain, left)
  {
    var w := Without(chain, left);
    assert w == chain[..|chain| - left] + chain[|chain| - left + 1..];
    forall d | d in chain && d != chain[|chain| - left]
      ensures d in w
    {
      var i :| 0 <= i < |chain| && chain[i] == d;
      assert d == if i < |chain| - left then w[i] else w[i - 1];
    }
  }

  /** The unlinked collector follows `prev`, or is the head. */
  lemma AdoptCase(s: State, c: CollectorId)
    requires Linked(s) && CanUnlink(s, c) && !HeadMoved(s, s.cols[c].phase) && ScanOk(s, s.cols[c])
    requires !IsInvalid(s.cols[c].word)
    ensures AdoptFacts(s, s.cols[c].phase) && s.cols[c].phase.k != c
  {
    var Unlinking(known, prev, k, nxt, left) := s.cols[c].phase;
    var i := |s.chain| - left;
    assert s.chain[i] == k;
    assert prev.None? ==> s.chain[0] == k;
    hide CaughtUp, At;
  }

  ghost predicate AdoptFacts(s: State, p: Phase)
    requires p.Unlinking?
  {
    && 0 < p.left <= |s.chain| && p.k == s.chain[|s.chain| - p.left] && p.nxt == At(s.chain, |s.chain| - p.left + 1)
    && p.k in s.cols && IsInvalid(s.cols[p.k].word)
    && (p.prev.None? ==> p.left == |s.chain|)
    && (p.prev.Some? ==> p.left < |s.chain| && p.prev.value == s.chain[|s.chain| - p.left - 1])
  }

  /** Links outside the chain neighbourhood of the unlinked collector stay. */
  lemma AdoptLink(s: State, c: CollectorId, d: CollectorId)
    requires CanUnlink(s, c) && !HeadMoved(s, s.cols[c].phase) && d in s.cols
    ensures var p := s.cols[c].phase; var t := Adopt(s, c);
      t.cols[d].link == if p.prev == Some(d) then p.nxt else s.cols[d].link
    ensures var p := s.cols[c].phase; var t := Adopt(s, c);
      t.head.ptr == (if p.prev.None? then p.nxt else s.head.ptr) && t.chain == Without(s.chain, p.left)
      && t.cols.Keys == s.cols.Keys
  {}

  /** Linking the neighbours of a collector to each other takes it out of the chain. */
  lemma LinkedWithout(s: State, t: State, p: Phase)
    requires Linked(s) && p.Unlinking? && AdoptFacts(s, p)
    requires t.chain == Without(s.chain, p.left) && t.cols.Keys == s.cols.Keys
    requires t.head.ptr == if p.prev.None? then p.nxt else s.head.ptr
    requires forall d :: d in s.cols ==> t.cols[d].link == if p.prev == Some(d) then p.nxt else s.cols[d].link
    ensures Linked(t)
  {
    WithoutAt(s.chain, p.left);
    hide Without;
    forall i | 0 <= i < |t.chain|
      ensures t.chain[i] in t.cols && t.cols[t.chain[i]].link == At(t.chain, i + 1)
    {
      LinkWithout(s, t, p, i);
    }
    assert t.head.ptr == At(t.chain, 0);
  }

  lemma LinkWithout(s: State, t: State, p: Phase, i: nat)
    requires Linked(s) && p.Unlinking? && AdoptFacts(s, p)
    requires t.chain == Without(s.chain, p.left) && t.cols.Keys == s.cols.Keys && i < |t.chain|
    requires forall d :: d in s.cols ==> t.cols[d].link == if p.prev == Some(d) then p.nxt else s.cols[d].link
    ensures t.chain[i] in t.cols && t.cols[t.chain[i]].link == At(t.chain, i + 1)
  {
    WithoutAt(s.chain, p.left);
    hide Without;
    var n := |s.chain| - p.left;
    var j := if i < n then i else i + 1;
    assert t.chain[i] == s.chain[j];
    LinkAt(s, j);
    if p.prev == Some(s.chain[j]) { assert j == n - 1; }
  }

  lemma AdoptLinks(s: State, c: CollectorId)
    requires Linked(s) && CanUnlink(s, c) && !HeadMoved(s, s.cols[c].phase) && AdoptFacts(s, s.cols[c].phase)
    ensures Linked(Adopt(s, c))
  {
    hide Linked, Without, Adopt, AdoptFacts;
    AdoptLink(s, c, c);
    forall d | d in s.cols {
      AdoptLink(s, c, d);
    }
    LinkedWithout(s, Adopt(s, c), s.cols[c].phase);
  }

  lemma AdoptCol(s: State, c: CollectorId, d: CollectorId)
    requires CanUnlink(s, c) && d in s.cols && ColOk(s, s.cols[d]) && s.cols[c].readers == 0
    requires s.cols[d].phase.Allocating? ==> s.cols[c].phase.prev != Some(d)
    ensures ColOk(Adopt(s, c), Adopt(s, c).cols[d])
  {}

  lemma AdoptCols(s: State, c: CollectorId)
    requires ColsOk(s) && CanUnlink(s, c) && s.cols[c].readers == 0
    requires s.cols[c].phase.prev.Some? ==> !s.cols[s.cols[c].phase.prev.value].phase.Allocating?
    ensures ColsOk(Adopt(s, c))
  {
    forall d | d in Adopt(s, c).cols
      ensures ColOk(Adopt(s, c), Adopt(s, c).cols[d])
    {
      AdoptCol(s, c, d);
    }
  }

  lemma AdoptWord(s: State, c: CollectorId, d: CollectorId)
    requires CanUnlink(s, c) && d in s.cols
    ensures var t := Adopt(s, c);
      && t.cols.Keys == s.cols.Keys && t.cols[d].phase.Allocating? == s.cols[d].phase.Allocating?
      && t.cols[d].word == s.cols[d].word && t.chain == Without(s.chain, s.cols[c].phase.left)
      && t.info == s.info[Record(s.cols[c].phase.k) := Info(In(c), s.epoch, s.clock)]
  {}

  lemma HomesWithout(s: State, t: State, k: CollectorId)
    requires Homes(s) && k in s.cols && IsInvalid(s.cols[k].word) && k in s.chain
    requires t.cols.Keys == s.cols.Keys
    requires forall d :: d in s.cols ==>
      t.cols[d].phase.Allocating? == s.cols[d].phase.Allocating? && t.cols[d].word == s.cols[d].word
    requires Record(k) in t.info && t.info == s.info[Record(k) := t.info[Record(k)]] && t.info[Record(k)].loc.In?
    requires k !in t.chain && forall d :: d != k ==> (d in t.chain <==> d in s.chain)
    ensures Homes(t)
  {}

  lemma AdoptHomes(s: State, c: CollectorId)
    requires Homes(s) && Linked(s) && CanUnlink(s, c) && AdoptFacts(s, s.cols[c].phase)
    ensures Homes(Adopt(s, c))
  {
    WithoutAt(s.chain, s.cols[c].phase.left);
    hide Linked, Homes, Without, Adopt;
    AdoptWord(s, c, c);
    forall d | d in s.cols
      ensures Adopt(s, c).cols[d].phase.Allocating? == s.cols[d].phase.Allocating?
           && Adopt(s, c).cols[d].word == s.cols[d].word
    {
      AdoptWord(s, c, d);
    }
    HomesWithout(s, Adopt(s, c), s.cols[c].phase.k);
  }

  lemma AdoptLock(s: State, c: CollectorId)
    requires LockOk(s) && CanUnlink(s, c)
    ensures LockOk(Adopt(s, c))
  {}

  lemma AdoptScan(s: State, c: CollectorId)
    requires CanUnlink(s, c) && ScanOk(s, s.cols[c]) && AdoptFacts(s, s.cols[c].phase)
    ensures ScanOk(Adopt(s, c), Adopt(s, c).cols[c])
  {
    WithoutAt(s.chain, s.cols[c].phase.left);
    hide Without;
  }

  lemma AdoptScans(s: State, c: CollectorId)
    requires LockOk(s) && CanUnlink(s, c) && ScanOk(s, s.cols[c]) && AdoptFacts(s, s.cols[c].phase)
    ensures ScansOk(Adopt(s, c)) && TeardownOk(Adopt(s, c))
  {
    AdoptScan(s, c);
    assert HoldsLock(s.cols[c].phase);
    forall d | d in Adopt(s, c).cols
      ensures ScanOk(Adopt(s, c), Adopt(s, c).cols[d])
    {
      assert d != c ==> !HoldsLock(s.cols[d].phase);
    }
  }

  lemma ShapeAdopt(s: State, c: CollectorId)
    requires Shape(s) && CanUnlink(s, c) && !HeadMoved(s, s.cols[c].phase)
    ensures Shape(Adopt(s, c))
  {
    OfCollector(s, c);
    if s.cols[c].phase.prev.Some? { OfCollector(s, s.cols[c].phase.prev.value); }
    hide ColOk, ScansOk;
    assert s.cols[c].readers == 0 && !IsInvalid(s.cols[c].word) by { ScannerIsActive(s, s.cols[c]); }
    AdoptCase(s, c);
    hide ScanOk;
    AdoptLinks(s, c);
    AdoptCols(s, c);
    AdoptHomes(s, c);
    AdoptLock(s, c);
    AdoptScans(s, c);
    hide Linked, LockOk, TeardownOk, ColsOk, Homes;
  }

  lemma ScannerIsActive(s: State, col: Col)
    requires ColOk(s, col) && (HoldsLock(col.phase) || col.phase.Locking? || col.phase.Leaving?)
    ensures Active(col) && !IsInvalid(col.word) && col.readers == 0
  {}

  // ---------------------------------------------------------------- clearing the chain

  lemma ShapeClearLock(s: State)
    requires Shape(s) && CanClearLock(s)
    ensures Shape(ClearLock(s))
  {
    assert LockOk(ClearLock(s)) && TeardownOk(ClearLock(s));
    hide Shape, LockOk, TeardownOk;
    StillShape(s, ClearLock(s));
  }

  lemma AllInvalidExtends(s: State, t: State, lo: nat, i: nat)
    requires i < |s.chain| && t.chain == s.chain && t.cols == s.cols && AllInvalidIn(s, lo, i)
    requires s.chain[i] in s.cols && IsInvalid(s.cols[s.chain[i]].word)
    ensures AllInvalidIn(t, lo, i + 1)
  {}

  lemma LinkAt(s: State, i: nat)
    requires Linked(s) && i < |s.chain|
    ensures s.chain[i] in s.cols && s.cols[s.chain[i]].link == At(s.chain, i + 1)
  {}

  lemma CheckCursor(s: State)
    requires TeardownOk(s) && s.teardown.Checking?
    ensures var Checking(first, cur, left, total) := s.teardown;
      && left <= total <= |s.chain| && cur == At(s.chain, |s.chain| - left)
      && first == At(s.chain, |s.chain| - total) && AllInvalidIn(s, |s.chain| - total, |s.chain| - left)
  {
    hide AllInvalidIn, At;
  }

  lemma ClearCheckTeardown(s: State)
    requires TeardownOk(s) && Linked(s) && CanClearCheck(s)
    ensures TeardownOk(ClearCheck(s))
  {
    hide Linked, AllInvalidIn;
    CheckCursor(s);
    var i := |s.chain| - s.teardown.left;
    assert s.teardown.cur.value == s.chain[i];
    hide At;
    LinkAt(s, i);
    if IsInvalid(s.cols[s.teardown.cur.value].word) {
      AllInvalidExtends(s, ClearCheck(s), |s.chain| - s.teardown.total, i);
    }
  }

  lemma ClearCheckLock(s: State)
    requires LockOk(s) && CanClearCheck(s)
    ensures LockOk(ClearCheck(s))
  {
    hide TeardownOk;
  }

  lemma ShapeClearCheck(s: State)
    requires Shape(s) && CanClearCheck(s)
    ensures Shape(ClearCheck(s))
  {
    ClearCheckTeardown(s);
    ClearCheckLock(s);
    hide Shape, LockOk, TeardownOk;
    StillShape(s, ClearCheck(s));
  }

  /** If the head has not moved, nothing was pushed since the lock was taken, and so every collector
      in the chain is invalid: no thread is inside a guard. */
  lemma AllInvalid(s: State)
    requires Shape(s) && CanClearSwap(s) && s.head.ptr == s.teardown.first
    ensures forall c :: c in s.chain ==> c in s.cols && IsInvalid(s.cols[c].word)
    ensures forall c :: c in s.cols ==> !Active(s.cols[c])
  {
    var Checking(first, cur, left, total) := s.teardown;
    assert left == 0;
    assert total == |s.chain|;
    forall c | c in s.chain
      ensures c in s.cols && IsInvalid(s.cols[c].word)
    {
      var i :| 0 <= i < |s.chain| && s.chain[i] == c;
    }
    hide Linked, LockOk, ScansOk, TeardownOk;
    forall c | c in s.cols
      ensures !Active(s.cols[c])
    {
      assert ColOk(s, s.cols[c]);
    }
  }

  lemma ClearSwapHomes(s: State)
    requires Homes(s) && CanClearSwap(s) && s.head.ptr == s.teardown.first
    requires forall c :: c in s.chain ==> c in s.cols && IsInvalid(s.cols[c].word)
    ensures Homes(ClearSwap(s))
  {}

  lemma ClearSwapScans(s: State)
    requires LockOk(s) && CanClearSwap(s) && s.head.ptr == s.teardown.first
    ensures ScansOk(ClearSwap(s)) && LockOk(ClearSwap(s)) && TeardownOk(ClearSwap(s))
  {
    forall d | d in ClearSwap(s).cols
      ensures ScanOk(ClearSwap(s), ClearSwap(s).cols[d])
    {
      assert !HoldsLock(s.cols[d].phase);
    }
  }

  lemma ClearSwapGivesUp(s: State)
    requires LockOk(s) && CanClearSwap(s) && s.head.ptr != s.teardown.first
    ensures LockOk(ClearSwap(s)) && TeardownOk(ClearSwap(s))
  {}

  lemma ClearSwapLinks(s: State)
    requires CanClearSwap(s) && s.head.ptr == s.teardown.first
    ensures Linked(ClearSwap(s))
  {}

  lemma ShapeClearSwap(s: State)
    requires Shape(s) && CanClearSwap(s)
    ensures Shape(ClearSwap(s))
  {
    if s.head.ptr == s.teardown.first {
      AllInvalid(s);
      ClearSwapHomes(s);
      ClearSwapScans(s);
      ClearSwapLinks(s);
      StillCols(s, ClearSwap(s));
    } else {
      ClearSwapGivesUp(s);
      hide Shape, ColsOk, ScansOk, TeardownOk, Homes, LockOk, Linked;
      StillShape(s, ClearSwap(s));
    }
    hide ColsOk, ScansOk, TeardownOk, Homes, LockOk, Linked;
  }

  lemma ClearDropMoves(s: State, k: CollectorId)
    requires CanClearDrop(s) && s.teardown.dump[0] == Record(k)
    ensures OnlyMoves(s, ClearDrop(s), k)
  {}

  lemma ClearDropWell(s: State, k: CollectorId)
    requires Shape(s) && CanClearDrop(s) && s.teardown.dump[0] == Record(k) && IsInvalid(s.cols[k].word)
    ensures MovesWell(s, ClearDrop(s), k) && LockOk(ClearDrop(s))
  {
    OfCollector(s, k);
    hide ColsOk, ScansOk, TeardownOk, Homes, Linked;
    ClearDropLock(s, k);
    hide LockOk;
  }

  lemma ClearDropLock(s: State, k: CollectorId)
    requires LockOk(s) && CanClearDrop(s) && s.teardown.dump[0] == Record(k)
    ensures LockOk(ClearDrop(s))
  {
    hide Drop, Lists;
  }

  lemma ShapeClearDrop(s: State)
    requires Shape(s) && CanClearDrop(s) && Retired(s.info[s.teardown.dump[0]])
    requires s.teardown.dump[0].Record? ==> IsInvalid(s.cols[s.teardown.dump[0].k].word)
    ensures Shape(ClearDrop(s))
  {
    var t := ClearDrop(s);
    var x := s.teardown.dump[0];
    DropKeepsHomes(s, t, x, Dumped);
    if x.Record? {
      ClearDropMoves(s, x.k);
      ClearDropWell(s, x.k);
      hide Shape, OnlyMoves, MovesWell, SameHomes, LockOk;
      MovesKeepShape(s, t, x.k);
    } else {
      hide Homes, SameHomes, Drop;
      ShapeClearDropInstance(s);
    }
  }

  lemma ShapeClearDropInstance(s: State)
    requires Shape(s) && CanClearDrop(s) && s.teardown.dump[0].Instance? && SameHomes(s, ClearDrop(s))
    ensures Shape(ClearDrop(s))
  {
    hide Drop;
    assert LockOk(ClearDrop(s)) && TeardownOk(ClearDrop(s));
    hide Shape, LockOk, TeardownOk, SameHomes;
    StillShape(s, ClearDrop(s));
  }

  lemma ShapeClearUnlock(s: State)
    requires Shape(s) && CanClearUnlock(s)
    ensures Shape(ClearUnlock(s))
  {
    assert LockOk(ClearUnlock(s)) && TeardownOk(ClearUnlock(s));
    hide Shape, LockOk, TeardownOk;
    StillShape(s, ClearUnlock(s));
  }
}
