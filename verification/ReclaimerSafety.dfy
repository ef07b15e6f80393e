/** The theorems about the reclaimer: the invariant holds in every reachable state, and what follows
    from it for whole runs. */
module ReclaimerSafety {
  import opened Base
  import opened Epochs
  import opened Reclaimer
  import opened ReclaimerShape
  import opened ReclaimerGarbage
  import opened ReclaimerGrace

  // ---------------------------------------------------------------- every step keeps the invariant

  /** Collector `c` steps and moves no garbage. */
  ghost predicate Quiet(s: State, t: State, c: CollectorId) {
    && PlainStep(s, t, c) && t.teardown == s.teardown
    && var col, col' := s.cols[c], t.cols[c];
       && col'.previous == col.previous && col'.current == col.current && col'.next == col.next
       && (col'.phase.Allocating? ==> col.phase.Allocating? && col'.hasGarbage == col.hasGarbage)
       && (col.hasGarbage ==> col'.hasGarbage) && col'.epoch == col.epoch
       && (col'.phase == col.phase || (Doomed(col'.phase) == Doomed(col.phase) && !col'.phase.Draining?))
       && t.holds <= s.holds
       && (Active(col') == Active(col) || forall h :: h in t.holds ==> h.0 != c)
  }

  lemma QuietAges(s: State, t: State, c: CollectorId)
    requires Ages(s) && Quiet(s, t, c)
    ensures AgesOk(t.info, t.cols[c])
  {
    assert AgesOk(s.info, s.cols[c]);
    SameAges(s.info, s.cols[c], t.cols[c]);
    hide AgesOk;
  }

  lemma QuietHolds(s: State, t: State, c: CollectorId)
    requires Holds(s) && Quiet(s, t, c)
    ensures forall h :: h in t.holds && h.0 == c ==> Active(t.cols[c])
  {
    forall h | h in t.holds && h.0 == c
      ensures Active(t.cols[c])
    {
      assert HoldOk(s, h.0, h.1);
    }
  }

  lemma QuietStays(s: State, t: State, c: CollectorId)
    requires Garbage(s) && Grace(s) && Quiet(s, t, c)
    ensures Garbage(t) && Grace(t)
  {
    QuietAges(s, t, c);
    QuietHolds(s, t, c);
    assert Lists(t.cols[c]) == Lists(s.cols[c]);
    hide Garbage, Grace, AgesOk, Lists, Doomed;
    GarbageUntouched(s, t, c);
    PlainGrace(s, t, c);
  }

  lemma InvQuiet(s: State, t: State, c: CollectorId)
    requires Inv(s) && Shape(t) && Quiet(s, t, c)
    ensures Inv(t)
  {
    hide Shape, Garbage, Grace, Quiet;
    QuietStays(s, t, c);
  }

  lemma NestQuiet(s: State, c: CollectorId)
    requires CanNest(s, c)
    ensures Quiet(s, Nest(s, c), c)
  {}

  lemma InvNest(s: State, c: CollectorId)
    requires Inv(s) && CanNest(s, c)
    ensures Inv(Nest(s, c))
  {
    hide Shape, Quiet, Garbage, Grace;
    ShapeNest(s, c);
    NestQuiet(s, c);
    hide Inv;
    InvQuiet(s, Nest(s, c), c);
  }

  lemma UnnestQuiet(s: State, c: CollectorId)
    requires CanUnnest(s, c)
    ensures Quiet(s, Unnest(s, c), c)
  {}

  lemma InvUnnest(s: State, c: CollectorId)
    requires Inv(s) && CanUnnest(s, c)
    ensures Inv(Unnest(s, c))
  {
    hide Shape, Quiet, Garbage, Grace;
    ShapeUnnest(s, c);
    UnnestQuiet(s, c);
    hide Inv;
    InvQuiet(s, Unnest(s, c), c);
  }

  lemma AccelerateQuiet(s: State, c: CollectorId)
    requires CanHint(s, c)
    ensures Quiet(s, Accelerate(s, c), c)
  {}

  lemma InvAccelerate(s: State, c: CollectorId)
    requires Inv(s) && CanHint(s, c)
    ensures Inv(Accelerate(s, c))
  {
    hide Shape, Quiet, Garbage, Grace;
    ShapeAccelerate(s, c);
    AccelerateQuiet(s, c);
    hide Inv;
    InvQuiet(s, Accelerate(s, c), c);
  }

  lemma SetHasGarbageQuiet(s: State, c: CollectorId)
    requires CanHint(s, c)
    ensures Quiet(s, SetHasGarbage(s, c), c)
  {}

  lemma InvSetHasGarbage(s: State, c: CollectorId)
    requires Inv(s) && CanHint(s, c)
    ensures Inv(SetHasGarbage(s, c))
  {
    hide Shape, Quiet, Garbage, Grace;
    ShapeSetHasGarbage(s, c);
    SetHasGarbageQuiet(s, c);
    hide Inv;
    InvQuiet(s, SetHasGarbage(s, c), c);
  }

  lemma ExitQuiet(s: State, c: CollectorId)
    requires CanExit(s, c)
    ensures Quiet(s, Exit(s, c), c)
  {}

  lemma InvExit(s: State, c: CollectorId)
    requires Inv(s) && CanExit(s, c)
    ensures Inv(Exit(s, c))
  {
    hide Shape, Quiet, Garbage, Grace;
    ShapeExit(s, c);
    ExitQuiet(s, c);
    hide Inv;
    InvQuiet(s, Exit(s, c), c);
  }

  lemma LeaveQuiet(s: State, c: CollectorId)
    requires CanLeave(s, c)
    ensures Quiet(s, Leave(s, c), c)
  {}

  lemma InvLeave(s: State, c: CollectorId)
    requires Inv(s) && CanLeave(s, c)
    ensures Inv(Leave(s, c))
  {
    hide Shape, Quiet, Garbage, Grace;
    ShapeLeave(s, c);
    LeaveQuiet(s, c);
    hide Inv;
    InvQuiet(s, Leave(s, c), c);
  }

  lemma InvalidateQuiet(s: State, c: CollectorId)
    requires CanInvalidate(s, c)
    ensures Quiet(s, Invalidate(s, c), c)
  {}

  lemma InvInvalidate(s: State, c: CollectorId)
    requires Inv(s) && CanInvalidate(s, c)
    ensures Inv(Invalidate(s, c))
  {
    hide Shape, Quiet, Garbage, Grace;
    ShapeInvalidate(s, c);
    InvalidateQuiet(s, c);
    hide Inv;
    InvQuiet(s, Invalidate(s, c), c);
  }

  lemma FinishDrainQuiet(s: State, c: CollectorId)
    requires CanFinishDrain(s, c)
    ensures Quiet(s, FinishDrain(s, c), c)
  {}

  lemma InvFinishDrain(s: State, c: CollectorId)
    requires Inv(s) && CanFinishDrain(s, c)
    ensures Inv(FinishDrain(s, c))
  {
    hide Shape, Quiet, Garbage, Grace;
    ShapeFinishDrain(s, c);
    FinishDrainQuiet(s, c);
    hide Inv;
    InvQuiet(s, FinishDrain(s, c), c);
  }

  lemma RelinkQuiet(s: State, c: CollectorId)
    requires CanRelink(s, c)
    ensures Quiet(s, Relink(s, c), c)
  {}

  lemma InvRelink(s: State, c: CollectorId)
    requires Inv(s) && CanRelink(s, c)
    ensures Inv(Relink(s, c))
  {
    hide Shape, Quiet, Garbage, Grace;
    ShapeRelink(s, c);
    RelinkQuiet(s, c);
    hide Inv;
    InvQuiet(s, Relink(s, c), c);
  }

  lemma LockQuiet(s: State, c: CollectorId)
    requires CanLock(s, c)
    ensures Quiet(s, Lock(s, c), c)
  {}

  lemma InvLock(s: State, c: CollectorId)
    requires Inv(s) && CanLock(s, c)
    ensures Inv(Lock(s, c))
  {
    hide Shape, Quiet, Garbage, Grace;
    ShapeLock(s, c);
    LockQuiet(s, c);
    hide Inv;
    InvQuiet(s, Lock(s, c), c);
  }

  lemma VisitQuiet(s: State, c: CollectorId)
    requires CanVisit(s, c)
    ensures Quiet(s, Visit(s, c), c)
  {}

  lemma InvVisit(s: State, c: CollectorId)
    requires Inv(s) && CanVisit(s, c)
    ensures Inv(Visit(s, c))
  {
    hide Shape, Quiet, Garbage, Grace;
    ShapeVisit(s, c);
    VisitQuiet(s, c);
    hide Inv;
    InvQuiet(s, Visit(s, c), c);
  }

  lemma PublishQuiet(s: State, c: CollectorId)
    requires CanPublish(s, c) && s.cols[c].epoch + 1 >= s.epoch
    ensures Quiet(s, Publish(s, c), c)
  {}

  lemma InvPublish(s: State, c: CollectorId)
    requires Inv(s) && CanPublish(s, c)
    ensures Inv(Publish(s, c))
  {
    hide Shape, Quiet, Garbage, Grace;
    ScanComplete(s, c);
    ShapePublish(s, c);
    PublishQuiet(s, c);
    hide Inv;
    InvQuiet(s, Publish(s, c), c);
  }

  lemma ReleaseQuiet(s: State, c: CollectorId)
    requires CanRelease(s, c)
    ensures Quiet(s, Release(s, c), c)
  {}

  lemma InvRelease(s: State, c: CollectorId)
    requires Inv(s) && CanRelease(s, c)
    ensures Inv(Release(s, c))
  {
    hide Shape, Quiet, Garbage, Grace;
    ShapeRelease(s, c);
    ReleaseQuiet(s, c);
    hide Inv;
    InvQuiet(s, Release(s, c), c);
  }

  lemma InvEnter(s: State, c: CollectorId)
    requires Inv(s) && CanEnter(s, c)
    ensures Inv(Enter(s, c))
  {
    ShapeEnter(s, c);
    GarbageEnter(s, c);
    GraceEnter(s, c);
    hide Shape, Garbage, Grace, Enter;
  }

  lemma InvRetire(s: State, c: CollectorId, o: InstanceId)
    requires Inv(s) && CanRetire(s, c, o)
    ensures Inv(Retire(s, c, o))
  {
    ShapeRetire(s, c, o);
    InUse(s, c);
    hide Shape;
    GarbageRetire(s, c, o);
    GraceRetire(s, c, o);
    hide Garbage, Grace, Retire;
  }

  lemma InvDrain(s: State, c: CollectorId)
    requires Inv(s) && CanDrain(s, c)
    ensures Inv(Drain(s, c))
  {
    hide Shape, Garbage, Grace, Drain, RecordsIdle, ColsOk;
    DrainFacts(s, c);
    ShapeDrain(s, c);
    GarbageDrain(s, c);
    GraceDrain(s, c);
  }

  lemma InvFailDrain(s: State, c: CollectorId)
    requires Inv(s) && CanFailDrain(s, c)
    ensures Inv(FailDrain(s, c))
  {
    hide Shape, Garbage, Grace, FailDrain, RecordsIdle, ColsOk;
    DrainFacts(s, c);
    LostAreRetired(s, c);
    ShapeFailDrain(s, c);
    GarbageFailDrain(s, c);
    GraceFailDrain(s, c);
  }

  lemma InvAdopt(s: State, c: CollectorId)
    requires Inv(s) && CanUnlink(s, c) && !HeadMoved(s, s.cols[c].phase)
    ensures Inv(Adopt(s, c))
  {
    hide Shape, Garbage, Grace, Adopt;
    UnlinkTarget(s, c);
    assert !s.cols[c].phase.Allocating?;
    InUse(s, c);
    ShapeAdopt(s, c);
    GarbageAdopt(s, c);
    GraceAdopt(s, c);
  }

  lemma HeadMovedQuiet(s: State, c: CollectorId)
    requires CanUnlink(s, c) && HeadMoved(s, s.cols[c].phase)
    ensures Quiet(s, Unlink(s, c), c)
  {}

  lemma InvHeadMoved(s: State, c: CollectorId)
    requires Inv(s) && CanUnlink(s, c) && HeadMoved(s, s.cols[c].phase)
    ensures Inv(Unlink(s, c))
  {
    hide Shape, Quiet, Garbage, Grace, Unlink;
    ShapeHeadMoved(s, c);
    HeadMovedQuiet(s, c);
    hide Inv;
    InvQuiet(s, Unlink(s, c), c);
  }

  lemma InvUnlink(s: State, c: CollectorId)
    requires Inv(s) && CanUnlink(s, c)
    ensures Inv(Unlink(s, c))
  {
    hide Inv;
    if HeadMoved(s, s.cols[c].phase) { InvHeadMoved(s, c); } else { InvAdopt(s, c); }
  }

  lemma InvCreate(s: State, o: InstanceId)
    requires Inv(s) && CanCreate(s, o)
    ensures Inv(Create(s, o))
  {
    hide Shape, Garbage, Grace, LockOk, TeardownOk;
    StillInUse(s);
    StillHead(s, Create(s, o));
    StillShape(s, Create(s, o));
    OutsideGarbage(s, Create(s, o), Instance(o), Info(Home, 0, 0));
    OutsideGrace(s, Create(s, o), Instance(o), Info(Home, 0, 0));
  }

  lemma StillInUse(s: State)
    requires Shape(s)
    ensures LockOk(s) && TeardownOk(s)
  {}

  lemma InvAlloc(s: State, k: CollectorId)
    requires Inv(s) && CanAlloc(s, k)
    ensures Inv(Alloc(s, k))
  {
    hide Shape, Garbage, Grace;
    ShapeAlloc(s, k);
    AllocFacts(s, k);
    hide Alloc, SameHeld, Held, FlagOk, AgesOk;
    OutsideGarbage(s, Alloc(s, k), Record(k), Info(Fresh, 0, 0));
    OutsideGrace(s, Alloc(s, k), Record(k), Info(Fresh, 0, 0));
  }

  lemma AllocFacts(s: State, k: CollectorId)
    requires CanAlloc(s, k)
    ensures var t := Alloc(s, k);
      && t.info == s.info[Record(k) := Info(Fresh, 0, 0)] && t.teardown == s.teardown && t.holds == s.holds
      && t.epoch == s.epoch && t.clock == s.clock && t.cols.Keys == s.cols.Keys + {k}
      && (forall d :: d in s.cols ==> t.cols[d] == s.cols[d] && SameHeld(t.cols[d], s.cols[d]))
      && Held(t.cols[k]) == multiset{} && FlagOk(t.cols[k]) && AgesOk(t.info, t.cols[k]) && !Active(t.cols[k])
  {}

  lemma LinkHeadFacts(s: State, k: CollectorId)
    requires Shape(s) && CanLink(s, k)
    ensures s.info[Record(k)].loc.Fresh?
    ensures forall d :: d in s.cols ==> SameHeld(LinkHead(s, k).cols[d], s.cols[d])
  {
    assert s.info[Record(k)].loc.Fresh?;
    hide Shape;
  }

  lemma InvLinkHead(s: State, k: CollectorId)
    requires Inv(s) && CanLink(s, k)
    ensures Inv(LinkHead(s, k))
  {
    hide Shape, Garbage, Grace, SameHeld;
    LinkHeadFacts(s, k);
    ShapeLinkHead(s, k);
    OutsideGarbage(s, LinkHead(s, k), Record(k), s.info[Record(k)].(loc := Home));
    OutsideGrace(s, LinkHead(s, k), Record(k), s.info[Record(k)].(loc := Home));
  }

  lemma ShapeLoad(s: State, c: CollectorId, o: InstanceId)
    requires Shape(s)
    ensures Shape(Load(s, c, o))
  {
    StillInUse(s);
    hide Shape, LockOk, TeardownOk;
    assert LockOk(Load(s, c, o)) && TeardownOk(Load(s, c, o)) by { StillHead(s, Load(s, c, o)); }
    StillShape(s, Load(s, c, o));
  }

  lemma StillHead(s: State, t: State)
    requires LockOk(s) && TeardownOk(s) && t.cols == s.cols && t.holder == s.holder && t.head.lock == s.head.lock
    requires t.teardown == s.teardown && t.chain == s.chain
    ensures LockOk(t) && TeardownOk(t)
  {}

  lemma InvLoad(s: State, c: CollectorId, o: InstanceId)
    requires Inv(s) && CanLoad(s, c, o)
    ensures Inv(Load(s, c, o))
  {
    ReaderIsActive(s, c);
    hide Shape, Garbage, Dates, Ages, Nested, Seen, Holds;
    ShapeLoad(s, c, o);
    SameGarbage(s, Load(s, c, o));
    LoadHolds(s, c, o);
    LoadRest(s, c, o);
  }

  lemma ReaderIsActive(s: State, c: CollectorId)
    requires Shape(s) && c in s.cols && s.cols[c].readers > 0
    ensures Active(s.cols[c])
  {
    OfCollector(s, c);
    hide Shape;
  }

  lemma LoadRest(s: State, c: CollectorId, o: InstanceId)
    requires Dates(s) && Ages(s) && Nested(s) && Seen(s)
    ensures Dates(Load(s, c, o)) && Ages(Load(s, c, o)) && Nested(Load(s, c, o)) && Seen(Load(s, c, o))
  {
    hide AgesOk, Older, SeenOk;
  }

  lemma LoadHolds(s: State, c: CollectorId, o: InstanceId)
    requires Holds(s) && CanLoad(s, c, o) && Active(s.cols[c])
    ensures Holds(Load(s, c, o))
  {
    forall d, p | (d, p) in Load(s, c, o).holds
      ensures HoldOk(Load(s, c, o), d, p)
    {
      if (d, p) != (c, o) { assert HoldOk(s, d, p); }
    }
  }

  lemma SameGarbage(s: State, t: State)
    requires Garbage(s) && t.cols == s.cols && t.info == s.info && Dump(t.teardown) == Dump(s.teardown)
    ensures Garbage(t)
  {
    hide Tally, Held, Dump, Lists;
  }

  /** Steps that change the chain head and the teardown thread only. */
  lemma InvHead(s: State, t: State)
    requires Inv(s) && Shape(t) && t.cols == s.cols && t.info == s.info && Dump(t.teardown) == Dump(s.teardown)
    requires t.epoch == s.epoch && t.clock == s.clock && t.holds == s.holds
    ensures Inv(t)
  {
    hide Shape, Garbage, Grace, Dump;
    SameGarbage(s, t);
    SameGrace(s, t);
  }

  lemma InvMark(s: State)
    requires Inv(s)
    ensures Inv(Mark(s))
  {
    hide Shape, Garbage, Grace, LockOk, TeardownOk;
    StillInUse(s);
    StillHead(s, Mark(s));
    StillShape(s, Mark(s));
    InvHead(s, Mark(s));
  }

  lemma InvClearLock(s: State)
    requires Inv(s) && CanClearLock(s)
    ensures Inv(ClearLock(s))
  {
    hide Shape, Garbage, Grace;
    ShapeClearLock(s);
    InvHead(s, ClearLock(s));
  }

  lemma InvClearCheck(s: State)
    requires Inv(s) && CanClearCheck(s)
    ensures Inv(ClearCheck(s))
  {
    hide Shape, Garbage, Grace;
    ShapeClearCheck(s);
    InvHead(s, ClearCheck(s));
  }

  lemma InvClearSwap(s: State)
    requires Inv(s) && CanClearSwap(s)
    ensures Inv(ClearSwap(s))
  {
    hide Shape, Garbage, Grace, ClearSwap;
    ShapeClearSwap(s);
    GarbageClearSwap(s);
    GraceClearSwap(s);
  }

  lemma DumpFacts(s: State)
    requires Shape(s) && Garbage(s) && CanClearDrop(s)
    ensures RecordsIdle(s) && Retired(s.info[s.teardown.dump[0]])
  {
    RecordsAreIdle(s);
    hide Shape, Tallies, Flags, Owners, RecordsIdle, Dump;
    DumpFirst(s, s.teardown.dump[0]);
  }

  lemma InvClearDrop(s: State)
    requires Inv(s) && CanClearDrop(s)
    ensures Inv(ClearDrop(s))
  {
    hide Shape, Garbage, Grace, ClearDrop;
    DumpFacts(s);
    ShapeClearDrop(s);
    GarbageClearDrop(s);
    GraceClearDrop(s);
  }

  lemma InvClearUnlock(s: State)
    requires Inv(s) && CanClearUnlock(s)
    ensures Inv(ClearUnlock(s))
  {
    hide Shape, Garbage, Grace;
    ShapeClearUnlock(s);
    InvHead(s, ClearUnlock(s));
  }

  /** Every action keeps the invariant. */
  lemma InvStep(s: State, a: Action)
    requires Inv(s) && Can(s, a)
    ensures Inv(Do(s, a))
  {
    hide Inv;
    match a
    case ACreate(o) => InvCreate(s, o);
    case ALoad(c, o) => InvLoad(s, c, o);
    case ARetire(c, o) => InvRetire(s, c, o);
    case AAlloc(c) => InvAlloc(s, c);
    case ALinkHead(c) => InvLinkHead(s, c);
    case ARelink(c) => InvRelink(s, c);
    case AEnter(c) => InvEnter(s, c);
    case ANest(c) => InvNest(s, c);
    case AUnnest(c) => InvUnnest(s, c);
    case AAccelerate(c) => InvAccelerate(s, c);
    case ASetHasGarbage(c) => InvSetHasGarbage(s, c);
    case AExit(c) => InvExit(s, c);
    case ALeave(c) => InvLeave(s, c);
    case AInvalidate(c) => InvInvalidate(s, c);
    case AMark => InvMark(s);
    case ADrain(c) => InvDrain(s, c);
    case AFinishDrain(c) => InvFinishDrain(s, c);
    case AFailDrain(c) => InvFailDrain(s, c);
    case ALock(c) => InvLock(s, c);
    case AVisit(c) => InvVisit(s, c);
    case AUnlink(c) => InvUnlink(s, c);
    case APublish(c) => InvPublish(s, c);
    case ARelease(c) => InvRelease(s, c);
    case AClearLock => InvClearLock(s);
    case AClearCheck => InvClearCheck(s);
    case AClearSwap => InvClearSwap(s);
    case AClearDrop => InvClearDrop(s);
    case AClearUnlock => InvClearUnlock(s);
  }
}
