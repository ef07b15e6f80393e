/** What one step can change, and what that means for whole runs of the reclaimer. */
module ReclaimerRuns {
  import opened Base
  import opened Epochs
  import opened Reclaimer
  import opened ReclaimerShape
  import opened ReclaimerGarbage
  import opened ReclaimerGrace
  import opened ReclaimerSafety

  // ---------------------------------------------------------------- one step

  /** Item `x` stays retired, with the same dates. */
  predicate StaysRetired(s: State, t: State, x: Item)
    requires x in s.info
  {
    x in t.info && Retired(t.info[x]) && t.info[x].epoch == s.info[x].epoch && t.info[x].stamp == s.info[x].stamp
    && (s.info[x].loc.Freed? ==> t.info[x].loc.Freed?)
  }

  /** A reader that stays active keeps its epoch and the time of its guard. */
  predicate StaysReader(s: State, t: State, c: CollectorId)
    requires c in s.cols
  {
    c in t.cols && (Active(s.cols[c]) && Active(t.cols[c]) ==>
      t.cols[c].epoch == s.cols[c].epoch && t.cols[c].since == s.cols[c].since)
  }

  lemma DropStays(s: State, t: State, x: Item, y: Item, loc: Loc)
    requires y in s.info && Retired(s.info[y]) && x in s.info && Retired(s.info[x])
    requires t.info == Drop(s.info, x, loc) && (loc.In? || loc.Dumped?)
    ensures StaysRetired(s, t, y)
  {}

  lemma RetiredStaysGc(s: State, a: Action, x: Item)
    requires Inv(s) && Can(s, a) && x in s.info && Retired(s.info[x])
    requires a.ADrain? || a.AFailDrain? || a.AUnlink? || a.AClearSwap? || a.AClearDrop?
    ensures StaysRetired(s, Do(s, a), x)
  {
    hide Shape, Garbage, Grace, RecordsIdle, ColsOk;
    match a
    case ADrain(c) =>
      DrainFacts(s, c);
      DrainOthers(s, c);
      hide Drain, FlagOk;
      DropStays(s, Drain(s, c), Victim(s.cols[c].phase), x, In(c));
    case AFailDrain(c) =>
      DrainFacts(s, c);
      LostAreOwned(s, c);
      FailStays(s, c, x);
    case AUnlink(c) =>
      UnlinkTarget(s, c);
      AdoptWord(s, c, c);
      hide Adopt;
    case AClearSwap =>
      ChainRecords(s);
    case AClearDrop =>
      DumpFacts(s);
      ClearDropRecord(s, s.teardown.dump[0]);
      hide ClearDrop;
      DropStays(s, ClearDrop(s), s.teardown.dump[0], x, Dumped);
  }

  lemma ChainRecords(s: State)
    requires Shape(s)
    ensures forall k :: k in s.chain ==> Record(k) in s.info && s.info[Record(k)].loc.Home?
  {
    ChainHomes(s);
    hide Linked, Homes;
  }

  lemma FailStays(s: State, c: CollectorId, x: Item)
    requires CanFailDrain(s, c) && x in s.info && Retired(s.info[x]) && Retired(s.info[Victim(s.cols[c].phase)])
    requires forall y :: y in Rest(s.cols[c].phase).inner && y in s.info ==> s.info[y].loc == In(c)
    ensures StaysRetired(s, FailDrain(s, c), x)
  {
    hide FailCol;
  }

  lemma LostAreOwned(s: State, c: CollectorId)
    requires Garbage(s) && CanFailDrain(s, c)
    ensures forall y :: y in Rest(s.cols[c].phase).inner && y in s.info ==> s.info[y].loc == In(c)
  {
    forall y | y in Rest(s.cols[c].phase).inner && y in s.info
      ensures s.info[y].loc == In(c)
    {
      assert y in s.cols[c].phase.inner;
      assert y in multiset(s.cols[c].phase.inner);
      Owned(s, c, y);
    }
    hide Garbage;
  }

  /** Only these actions touch the whereabouts of items. */
  predicate MovesItems(a: Action) {
    a.ACreate? || a.ARetire? || a.AAlloc? || a.ALinkHead?
    || a.ADrain? || a.AFailDrain? || a.AUnlink? || a.AClearSwap? || a.AClearDrop?
  }

  lemma InfoKept(s: State, a: Action)
    requires Can(s, a) && !MovesItems(a)
    ensures Do(s, a).info == s.info
  {
    hide EnterCol, ExitCol, VisitPhase;
  }

  lemma RetiredStaysNew(s: State, a: Action, x: Item)
    requires Can(s, a) && x in s.info && Retired(s.info[x])
    requires a.ACreate? || a.ARetire? || a.AAlloc? || (a.ALinkHead? && s.info[Record(a.c)].loc.Fresh?)
    ensures StaysRetired(s, Do(s, a), x)
  {}

  lemma LinkedIsFresh(s: State, a: Action)
    requires Shape(s) && Can(s, a) && a.ALinkHead?
    ensures Record(a.c) in s.info && s.info[Record(a.c)].loc.Fresh?
  {}

  /** What is retired stays retired, and what is freed stays freed. */
  lemma RetiredStays(s: State, a: Action, x: Item)
    requires Inv(s) && Can(s, a) && x in s.info && Retired(s.info[x])
    ensures StaysRetired(s, Do(s, a), x)
  {
    hide Shape, Garbage, Grace, Can, Do;
    if !MovesItems(a) {
      InfoKept(s, a);
    } else if a.ACreate? || a.ARetire? || a.AAlloc? || a.ALinkHead? {
      if a.ALinkHead? { LinkedIsFresh(s, a); }
      RetiredStaysNew(s, a, x);
    } else {
      RetiredStaysGc(s, a, x);
    }
  }

  lemma ReaderStaysGc(s: State, a: Action, c: CollectorId)
    requires Can(s, a) && c in s.cols && (a.ADrain? || a.AFailDrain? || a.AUnlink? || a.AClearDrop? || a.AClearSwap?)
    ensures StaysReader(s, Do(s, a), c)
  {
    match a
    case ADrain(d) => DrainReaders(s, d); hide Drain;
    case AFailDrain(d) => FailCols(s, d); hide FailDrain;
    case AUnlink(d) =>
      if !HeadMoved(s, s.cols[d].phase) { AdoptDoomed(s, d, c); AdoptWord(s, d, c); hide Adopt; }
    case AClearDrop => ClearDropReaders(s); hide ClearDrop;
    case AClearSwap => hide Move;
  }

  lemma ReaderStaysPlain(s: State, a: Action, c: CollectorId)
    requires Can(s, a) && c in s.cols && (a.AEnter? ==> !Active(s.cols[a.c]))
    requires !(a.ADrain? || a.AFailDrain? || a.AUnlink? || a.AClearDrop? || a.AClearSwap?)
    ensures StaysReader(s, Do(s, a), c)
  {
    hide EnterCol, VisitPhase;
  }

  lemma EntererInactive(s: State, a: Action)
    requires Shape(s) && Can(s, a) && a.AEnter?
    ensures !Active(s.cols[a.c])
  {
    OfCollector(s, a.c);
    hide Shape;
  }

  /** The time and epoch of a guard stay as long as the reader stays active. */
  lemma ReaderStays(s: State, a: Action, c: CollectorId)
    requires Inv(s) && Can(s, a) && c in s.cols
    ensures StaysReader(s, Do(s, a), c)
  {
    hide Shape, Garbage, Grace, Can, Do;
    if a.ADrain? || a.AFailDrain? || a.AUnlink? || a.AClearDrop? || a.AClearSwap? {
      ReaderStaysGc(s, a, c);
    } else {
      if a.AEnter? { EntererInactive(s, a); }
      ReaderStaysPlain(s, a, c);
    }
  }

  lemma EpochKept(s: State, a: Action)
    requires Can(s, a) && !a.APublish?
    ensures Do(s, a).epoch == s.epoch && Do(s, a).epoch8 == s.epoch8
  {
    hide EnterCol, ExitCol, VisitPhase, Drop, Move, Lose, FailCol, Lists;
  }

  /** Only the end of a scan moves the global epoch, and by at most one: however many readers came
      and went between its steps, it moves exactly when the scanner itself was up to date, and then
      every active reader is in the epoch left behind. */
  lemma EpochAdvances(s: State, a: Action)
    requires Inv(s) && Can(s, a)
    ensures var t := Do(s, a);
      && (t.epoch == s.epoch || t.epoch == s.epoch + 1)
      && (t.epoch != s.epoch ==> a.APublish?)
      && (a.APublish? ==> (t.epoch == s.epoch + 1 <==> s.cols[a.c].epoch == s.epoch))
      && (t.epoch == s.epoch + 1 ==>
            forall c :: c in s.cols && Active(s.cols[c]) ==> s.cols[c].epoch == s.epoch)
  {
    hide Shape, Garbage, Grace;
    if a.APublish? {
      ScanComplete(s, a.c);
    } else {
      EpochKept(s, a);
      hide Do, Can;
    }
  }
}
