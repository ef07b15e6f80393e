/** Bounded reclamation in the runs of the machine: while one thread runs guards and no other is inside
    one, what it has retired is dropped after a bounded number of its guards, whatever the others do to
    the chain meanwhile, and whatever its destructors retire. */
module BoundedRuns {
  import opened Base
  import opened Epochs
  import opened Reclaimer
  import opened ReclaimerShape
  import opened ReclaimerGarbage
  import opened ReclaimerGrace
  import opened ReclaimerSafety
  import opened ReclaimerRuns
  import opened ReclaimerTheorems
  import CollectorAlone

  // ---------------------------------------------------------------- the measure

  function Rotations(col: Col, x: Item): nat { CollectorAlone.Rotations(col, x) }

  /** The number of guards until the next rotation. */
  function Wait(col: Col, now8: Epoch): nat {
    match col.phase
    case Idle =>
      if col.readers > 0 then col.countdown + 1 else if col.announcement == now8 then col.countdown + 2 else 1
    case Leaving => if col.announcement == now8 then col.countdown + 2 else 1
    case Draining(_, _) => CADENCE + 1
    case _ => 1
  }

  /** The number of outermost guards that `x` can still survive in the lists of the collector. */
  function Survives(col: Col, now8: Epoch, x: Item): nat {
    if Rotations(col, x) == 0 then 0 else Wait(col, now8) + (Rotations(col, x) - 1) * (CADENCE + 1)
  }

  /** Inside a guard the current epoch has been announced, until the scan publishes the next one. */
  predicate Current(col: Col, now8: Epoch) {
    match col.phase
    case Allocating(_) => false
    case Idle => col.readers > 0 ==> col.announcement == now8
    case Releasing => col.announcement != now8
    case Leaving => true
    case _ => col.announcement == now8
  }

  /** What is known of a collector on its own. */
  predicate Sound(col: Col) { col.countdown <= CADENCE && (col.hasGarbage || Lists(col) == []) }

  /** An item is in one list only. */
  predicate Once(col: Col, x: Item) {
    && !(x in col.previous && x in col.current)
    && !(x in col.current && x in col.next)
    && !(x in col.next && x in col.previous)
  }

  /** One step of the measure: `spent` guards are used up, exactly so unless the step hurries. */
  predicate Spends(col: Col, now8: Epoch, col': Col, now8': Epoch, x: Item, spent: nat, exact: bool) {
    && Current(col', now8')
    && (Rotations(col', x) > 0 ==> Survives(col', now8', x) + spent <= Survives(col, now8, x))
    && (exact && Rotations(col', x) > 0 ==> Survives(col', now8', x) + spent == Survives(col, now8, x))
    && (Rotations(col', x) == 0 ==>
          spent == 1 == Survives(col, now8, x) && col'.phase.Draining? && x in col'.phase.outer)
  }

  lemma EnterSpends(col: Col, now8: Epoch, now: nat, clock: nat, x: Item)
    requires Sound(col) && Once(col, x) && col.phase.Idle? && col.readers == 0 && Rotations(col, x) > 0
    ensures Spends(col, now8, EnterCol(col, now8, now, clock), now8, x, 1, true)
  {
    CollectorAlone.NonEmpty(col, x);
    hide Lists;
  }

  lemma ExitSpends(col: Col, now8: Epoch, marked: bool, x: Item)
    requires Sound(col) && Current(col, now8) && col.phase.Idle? && col.readers == 1 && Rotations(col, x) > 0
    ensures Spends(col, now8, ExitCol(col, marked), now8, x, 0, true)
  {}

  lemma LeaveSpends(col: Col, now8: Epoch, x: Item)
    requires Current(col, now8) && col.phase.Leaving? && col.readers == 0 && Rotations(col, x) > 0
    ensures Spends(col, now8, LeaveCol(col), now8, x, 0, true)
  {}

  lemma CollectSpends(col: Col, now8: Epoch, y: Item, x: Item)
    requires Current(col, now8) && Rotations(col, x) > 0
    ensures Spends(col, now8, CollectCol(col, y), now8, x, 0, true)
    ensures Rotations(CollectCol(col, y), x) == Rotations(col, x)
  {}

  /** The item stays where it is, and the next rotation is as far away as before. */
  lemma PhaseSpends(col: Col, now8: Epoch, col': Col, now8': Epoch, x: Item, exact: bool)
    requires Rotations(col, x) > 0 && Rotations(col', x) == Rotations(col, x)
    requires Current(col', now8') && Wait(col', now8') <= Wait(col, now8)
    requires exact ==> Wait(col', now8') == Wait(col, now8)
    ensures Spends(col, now8, col', now8', x, 0, exact)
  {
    hide Rotations, Current, Wait;
  }

  // ---------------------------------------------------------------- one step

  /** The thread of `c` lives, and no other thread is inside a guard. */
  ghost predicate Alone(s: State, c: CollectorId) {
    c in s.cols && !IsInvalid(s.cols[c].word) && forall d :: d in s.cols && d != c ==> !Active(s.cols[d])
  }

  /** The step belongs to the thread of `c`. */
  predicate ByOwner(a: Action, c: CollectorId) {
    match a
    case ACreate(_) => false
    case AMark => false
    case AClearLock => false
    case AClearCheck => false
    case AClearSwap => false
    case AClearDrop => false
    case AClearUnlock => false
    case _ => a.c == c
  }

  /** What would make the thread wait for others, or start over: the chain lock is taken when it wants to
      scan, or a destructor fails. */
  predicate Disturbs(s: State, a: Action, c: CollectorId) { a == AFailDrain(c) || (a == ALock(c) && s.head.lock) }

  lemma OfAlone(s: State, c: CollectorId)
    requires Inv(s) && c in s.cols
    ensures ColOk(s, s.cols[c]) && ScanOk(s, s.cols[c]) && FlagOk(s.cols[c]) && Sound(s.cols[c])
    ensures s.epoch8 == Wrap(s.epoch)
  {
    InvShape(s);
    OfCollector(s, c);
    FlagAt(s, c) by { hide Shape, Grace; }
    hide Inv, Shape, ScanOk, LockOk;
  }

  /** Threads that are not inside a guard do not touch the collector of another, nor the epoch. */
  lemma OthersLeaveAlone(s: State, a: Action, c: CollectorId)
    requires Inv(s) && Can(s, a) && Alone(s, c) && !s.cols[c].phase.Allocating? && !ByOwner(a, c)
    ensures c in Do(s, a).cols && Do(s, a).cols[c] == s.cols[c] && Do(s, a).epoch8 == s.epoch8
  {
    hide *;
    if a.AClearDrop? {
      ClearDropCan(s, a);
      ClearDropSpares(s, c);
    } else if a.ADrain? || a.AFailDrain? || a.AUnlink? || a.APublish? {
      ActorActive(s, a);
      ActorInactive(s, a, c);
    } else {
      AloneIn(s, c);
      SimpleOthers(s, a, c);
    }
  }

  lemma ClearDropCan(s: State, a: Action)
    requires Can(s, a) && a.AClearDrop?
    ensures CanClearDrop(s) && Do(s, a) == ClearDrop(s)
  {
    hide ClearDrop, CanClearDrop;
  }

  lemma AloneIn(s: State, c: CollectorId)
    requires Alone(s, c)
    ensures c in s.cols
  {}

  lemma ActorInactive(s: State, a: Action, c: CollectorId)
    requires Can(s, a) && Alone(s, c) && !ByOwner(a, c) && (a.ADrain? || a.AFailDrain? || a.AUnlink? || a.APublish?)
    ensures a.c in s.cols && !Active(s.cols[a.c])
  {}

  lemma ActorActive(s: State, a: Action)
    requires Inv(s) && Can(s, a) && (a.ADrain? || a.AFailDrain? || a.AUnlink? || a.APublish?)
    ensures a.c in s.cols && Active(s.cols[a.c])
  {
    OfAlone(s, a.c) by { hide Inv; }
    hide Inv, ScanOk, FlagOk, Sound;
  }

  lemma ClearDropSpares(s: State, c: CollectorId)
    requires Inv(s) && CanClearDrop(s) && Alone(s, c) && !s.cols[c].phase.Allocating?
    ensures c in ClearDrop(s).cols && ClearDrop(s).cols[c] == s.cols[c] && ClearDrop(s).epoch8 == s.epoch8
  {
    InvShape(s);
    InUse(s, c);
    InvGarbage(s);
    DumpFacts(s);
    ClearDropRecord(s, s.teardown.dump[0]);
    hide Inv, Shape, Garbage, RecordsIdle;
  }

  lemma InvGarbage(s: State)
    requires Inv(s)
    ensures Garbage(s)
  {
    hide Shape, Garbage, Grace;
  }

  lemma SimpleOthers(s: State, a: Action, c: CollectorId)
    requires Can(s, a) && c in s.cols && !s.cols[c].phase.Allocating? && !ByOwner(a, c)
    requires !a.AClearDrop? && !a.ADrain? && !a.AFailDrain? && !a.AUnlink? && !a.APublish?
    ensures c in Do(s, a).cols && Do(s, a).cols[c] == s.cols[c] && Do(s, a).epoch8 == s.epoch8
  {
    hide EnterCol, ExitCol, VisitPhase, Lists, Records;
  }

  lemma OnceOf(s: State, c: CollectorId, x: Item)
    requires Inv(s) && c in s.cols
    ensures Once(s.cols[c], x)
  {
    hide *;
    InvGarbage(s);
    HeldOnce(s, c, x);
    HeldLists(s.cols[c], x);
  }

  lemma HeldOnce(s: State, c: CollectorId, x: Item)
    requires Garbage(s) && c in s.cols
    ensures Held(s.cols[c])[x] <= 1
  {
    assert Tally(Held(s.cols[c]), s.info, In(c));
    hide Held;
  }

  lemma HeldLists(col: Col, x: Item)
    requires Held(col)[x] <= 1
    ensures Once(col, x)
  {
    assert multiset(Lists(col)) == multiset(col.previous) + multiset(col.current) + multiset(col.next);
    hide Doomed, Lists;
  }

  /** The step of `c` spends what it should. */
  ghost predicate Steps(s: State, a: Action, c: CollectorId, x: Item) {
    && c in s.cols && c in Do(s, a).cols
    && Spends(s.cols[c], s.epoch8, Do(s, a).cols[c], Do(s, a).epoch8, x,
         if a == AEnter(c) then 1 else 0, a != AAccelerate(c))
  }

  lemma StepsIf(s: State, a: Action, c: CollectorId, x: Item, col': Col, now8': Epoch, spent: nat, exact: bool)
    requires c in s.cols && c in Do(s, a).cols && Do(s, a).cols[c] == col' && Do(s, a).epoch8 == now8'
    requires Spends(s.cols[c], s.epoch8, col', now8', x, spent, exact)
    requires spent == (if a == AEnter(c) then 1 else 0) && (a != AAccelerate(c) ==> exact)
    ensures Steps(s, a, c, x)
  {
    hide Do, Survives, Rotations, Current;
  }

  // ---------------------------------------------------------------- guards

  predicate Guards(a: Action) {
    || a.ALoad? || a.ARetire? || a.AEnter? || a.ANest? || a.AUnnest?
    || a.AAccelerate? || a.ASetHasGarbage? || a.AExit? || a.ALeave?
  }

  /** What a step of a guard does to the collector. */
  function GuardCol(s: State, a: Action): Col
    requires Can(s, a) && Guards(a)
  {
    var col := s.cols[a.c];
    match a
    case ARetire(_, o) => CollectCol(col, Instance(o))
    case AEnter(_) => EnterCol(col, s.epoch8, s.epoch, s.clock)
    case ANest(_) => col.(readers := col.readers + 1)
    case AUnnest(_) => col.(readers := col.readers - 1)
    case AAccelerate(_) => col.(countdown := 0)
    case ASetHasGarbage(_) => col.(hasGarbage := true)
    case AExit(_) => ExitCol(col, s.head.mark && !s.head.lock)
    case ALeave(_) => LeaveCol(col)
    case _ => col
  }

  lemma GuardDo(s: State, a: Action)
    requires Can(s, a) && Guards(a)
    ensures a.c in s.cols && a.c in Do(s, a).cols && Do(s, a).cols[a.c] == GuardCol(s, a) && Do(s, a).epoch8 == s.epoch8
  {
    hide EnterCol, ExitCol, LeaveCol, CollectCol;
  }

  lemma HintSpends(s: State, a: Action, x: Item)
    requires Can(s, a) && Guards(a) && !a.ARetire? && !a.AEnter? && !a.AExit? && !a.ALeave?
    requires Current(s.cols[a.c], s.epoch8) && Rotations(s.cols[a.c], x) > 0
    ensures Spends(s.cols[a.c], s.epoch8, GuardCol(s, a), s.epoch8, x, 0, !a.AAccelerate?)
  {
    hide Spends;
    PhaseSpends(s.cols[a.c], s.epoch8, GuardCol(s, a), s.epoch8, x, !a.AAccelerate?);
  }

  lemma CanGuard(s: State, a: Action)
    requires Can(s, a)
    ensures a.AEnter? ==> a.c in s.cols && s.cols[a.c].phase.Idle? && s.cols[a.c].readers == 0
    ensures a.AExit? ==> a.c in s.cols && s.cols[a.c].phase.Idle? && s.cols[a.c].readers == 1
    ensures a.ALeave? ==> a.c in s.cols && s.cols[a.c].phase.Leaving?
    ensures Guards(a) ==>
      && a.c in s.cols
      && (a.ARetire? ==> GuardCol(s, a) == CollectCol(s.cols[a.c], Instance(a.o)))
      && (a.AEnter? ==> GuardCol(s, a) == EnterCol(s.cols[a.c], s.epoch8, s.epoch, s.clock))
      && (a.AExit? ==> GuardCol(s, a) == ExitCol(s.cols[a.c], s.head.mark && !s.head.lock))
      && (a.ALeave? ==> GuardCol(s, a) == LeaveCol(s.cols[a.c]))
  {
    hide EnterCol, ExitCol, LeaveCol, CollectCol;
  }

  lemma LeavesWithout(s: State, col: Col)
    requires ColOk(s, col) && col.phase.Leaving?
    ensures col.readers == 0
  {}

  lemma GuardSteps(s: State, a: Action, c: CollectorId, x: Item)
    requires Can(s, a) && Guards(a) && a.c == c && c in s.cols && ColOk(s, s.cols[c]) && Sound(s.cols[c])
    requires Once(s.cols[c], x)
    requires Current(s.cols[c], s.epoch8) && Rotations(s.cols[c], x) > 0
    ensures Steps(s, a, c, x)
  {
    hide *;
    var col, now8 := s.cols[c], s.epoch8;
    GuardDo(s, a);
    CanGuard(s, a);
    if a.ARetire? {
      CollectSpends(col, now8, Instance(a.o), x);
    } else if a.AEnter? {
      EnterSpends(col, now8, s.epoch, s.clock, x);
    } else if a.AExit? {
      ExitSpends(col, now8, s.head.mark && !s.head.lock, x);
    } else if a.ALeave? {
      LeavesWithout(s, col);
      LeaveSpends(col, now8, x);
    } else {
      HintSpends(s, a, x);
    }
    StepsIf(s, a, c, x, GuardCol(s, a), now8, if a.AEnter? then 1 else 0, !a.AAccelerate?);
  }

  // ---------------------------------------------------------------- drops

  lemma DrainKeeps(s: State, c: CollectorId)
    requires CanDrain(s, c)
    ensures var t := Drain(s, c);
      && c in t.cols && t.cols[c].(phase := s.cols[c].phase) == s.cols[c] && t.cols[c].phase.Draining?
      && t.epoch8 == s.epoch8
  {
    hide Drop;
  }

  lemma DrainSteps(s: State, a: Action, c: CollectorId, x: Item)
    requires Can(s, a) && (a.ADrain? || a.AFinishDrain?) && a.c == c && c in s.cols && ColOk(s, s.cols[c])
    requires Current(s.cols[c], s.epoch8) && Rotations(s.cols[c], x) > 0
    ensures Steps(s, a, c, x)
  {
    if a.ADrain? { DrainKeeps(s, c); }
    hide Drain, Spends;
    PhaseSpends(s.cols[c], s.epoch8, Do(s, a).cols[c], s.epoch8, x, true);
  }

  // ---------------------------------------------------------------- scans

  /** No collector is in the way of the scan. */
  lemma VisitPasses(s: State, c: CollectorId)
    requires CanVisit(s, c) && Alone(s, c)
    ensures VisitPhase(s, c).Scanning? || VisitPhase(s, c).Unlinking?
  {}

  lemma AdoptKeeps(s: State, c: CollectorId, x: Item)
    requires CanUnlink(s, c)
    ensures var t := Unlink(s, c);
      && c in t.cols && t.epoch8 == s.epoch8 && t.cols[c].phase.Scanning?
      && t.cols[c].announcement == s.cols[c].announcement && t.cols[c].readers == s.cols[c].readers
      && (Rotations(s.cols[c], x) > 0 ==> Rotations(t.cols[c], x) == Rotations(s.cols[c], x))
  {
    hide Without;
  }

  lemma PublishesNext(s: State, c: CollectorId)
    requires CanPublish(s, c) && ColOk(s, s.cols[c]) && ScanOk(s, s.cols[c])
    ensures Publish(s, c).epoch8 == Next(s.cols[c].announcement)
    ensures Next(s.cols[c].announcement) != s.cols[c].announcement
  {
    hide CaughtUp;
  }

  lemma ScanSteps(s: State, a: Action, c: CollectorId, x: Item)
    requires Can(s, a) && Scans(a) && a.c == c && Alone(s, c) && ColOk(s, s.cols[c]) && ScanOk(s, s.cols[c])
    requires Current(s.cols[c], s.epoch8) && Rotations(s.cols[c], x) > 0 && !Disturbs(s, a, c)
    ensures Steps(s, a, c, x)
  {
    hide Spends, ScanOk, ColOk;
    if a.AVisit? { VisitPasses(s, c); }
    if a.AUnlink? { AdoptKeeps(s, c, x); }
    if a.APublish? { PublishesNext(s, c); }
    hide Unlink, VisitPhase, Next, Alone;
    PhaseSpends(s.cols[c], s.epoch8, Do(s, a).cols[c], Do(s, a).epoch8, x, true);
  }

  predicate Scans(a: Action) { a.ALock? || a.AVisit? || a.AUnlink? || a.APublish? || a.ARelease? }

  /** All other steps of the thread of `c` cannot be taken, or end its life. */
  lemma NoOther(s: State, a: Action, c: CollectorId)
    requires Can(s, a) && ByOwner(a, c) && c in s.cols && !s.cols[c].phase.Allocating? && !Disturbs(s, a, c)
    requires c in Do(s, a).cols && !IsInvalid(Do(s, a).cols[c].word)
    ensures a.c == c && (Guards(a) || Scans(a) || a.ADrain? || a.AFinishDrain?)
  {}

  /** Every step of a run keeps the count: an outermost guard uses up one of the guards the item can
      survive, every other step none, but for `accelerate`, which only saves guards. */
  lemma EveryStep(s: State, a: Action, c: CollectorId, x: Item)
    requires Inv(s) && Can(s, a) && Alone(s, c) && Alone(Do(s, a), c) && !Disturbs(s, a, c)
    requires Current(s.cols[c], s.epoch8) && Rotations(s.cols[c], x) > 0
    ensures Steps(s, a, c, x)
  {
    hide *;
    AloneIn(s, c);
    OfAlone(s, c);
    NotAllocating(s.cols[c], s.epoch8);
    if !ByOwner(a, c) {
      OthersLeaveAlone(s, a, c);
      NotEntering(a, c);
      SameSpends(s.cols[c], s.epoch8, x);
      StepsIf(s, a, c, x, s.cols[c], s.epoch8, 0, true);
    } else {
      AliveIs(Do(s, a), c);
      NoOther(s, a, c);
      if Guards(a) {
        OnceOf(s, c, x);
        GuardSteps(s, a, c, x);
      } else if Scans(a) {
        ScanSteps(s, a, c, x);
      } else {
        DrainSteps(s, a, c, x);
      }
    }
  }

  lemma AliveIs(s: State, c: CollectorId)
    requires Alone(s, c)
    ensures c in s.cols && !IsInvalid(s.cols[c].word)
  {
    hide IsInvalid;
  }

  lemma NotAllocating(col: Col, now8: Epoch)
    requires Current(col, now8)
    ensures !col.phase.Allocating?
  {}

  lemma NotEntering(a: Action, c: CollectorId)
    requires !ByOwner(a, c)
    ensures a != AEnter(c) && a != AAccelerate(c)
  {}

  lemma SameSpends(col: Col, now8: Epoch, x: Item)
    requires Current(col, now8) && Rotations(col, x) > 0
    ensures Spends(col, now8, col, now8, x, 0, true)
  {
    hide Current, Survives, Rotations;
  }

  // ---------------------------------------------------------------- the rotated list

  /** The item is freed, or in the list that is being dropped. */
  ghost predicate Dropping(s: State, c: CollectorId, x: Item) {
    (c in s.cols && x in Doomed(s.cols[c].phase)) || (x in s.info && s.info[x].loc.Freed?)
  }

  lemma DrainDrops(s: State, c: CollectorId, x: Item)
    requires CanDrain(s, c) && x in Doomed(s.cols[c].phase)
    ensures Dropping(Drain(s, c), c, x)
  {
    var p := s.cols[c].phase;
    if x != Victim(p) {
      VictimFirst(p, x);
      DrainPhase(s, c);
      OpenedMore(Rest(p), if Victim(p).Record? then Lists(s.cols[Victim(p).k]) else [], x);
    }
    hide Lists, Doomed, Opened, Rest;
  }

  lemma VictimFirst(p: Phase, x: Item)
    requires p.Draining? && (p.inner != [] || p.outer != []) && x in Doomed(p) && x != Victim(p)
    ensures x in Doomed(Rest(p))
  {
    if p.inner != [] { assert p.inner == [p.inner[0]] + p.inner[1..]; }
    if p.outer != [] { assert p.outer == [p.outer[0]] + p.outer[1..]; }
  }

  lemma OpenedMore(p: Phase, garbage: seq<Item>, x: Item)
    requires p.Draining? && x in Doomed(p)
    ensures x in Doomed(Opened(p, garbage))
  {}

  lemma DrainPhase(s: State, c: CollectorId)
    requires CanDrain(s, c)
    ensures var p := s.cols[c].phase; var t := Drain(s, c);
      c in t.cols && t.cols[c].phase == Opened(Rest(p), if Victim(p).Record? then Lists(s.cols[Victim(p).k]) else [])
  {
    hide Lists, Drop;
  }

  lemma DrainingStays(s: State, a: Action, c: CollectorId, x: Item)
    requires Can(s, a) && (Guards(a) || Scans(a) || a.AFinishDrain?) && a.c == c
    requires c in s.cols && x in Doomed(s.cols[c].phase)
    ensures c in Do(s, a).cols && Do(s, a).cols[c].phase == s.cols[c].phase
  {
    hide EnterCol, ExitCol, Unlink, VisitPhase;
  }

  lemma DropStep(s: State, a: Action, c: CollectorId, x: Item)
    requires Inv(s) && Can(s, a) && Alone(s, c) && Alone(Do(s, a), c) && !Disturbs(s, a, c)
    requires Current(s.cols[c], s.epoch8) && Dropping(s, c, x)
    ensures Dropping(Do(s, a), c, x)
  {
    hide *;
    AloneIn(s, c);
    NotAllocating(s.cols[c], s.epoch8);
    if x !in Doomed(s.cols[c].phase) {
      FreedIs(s, c, x);
      RetiredStays(s, a, x);
      StaysFreed(s, Do(s, a), c, x);
    } else if !ByOwner(a, c) {
      OthersLeaveAlone(s, a, c);
      DoomedDrops(Do(s, a), c, x);
    } else {
      AliveIs(Do(s, a), c);
      NoOther(s, a, c);
      if a.ADrain? {
        DrainIs(s, c);
        DrainDrops(s, c, x);
      } else {
        DrainingStays(s, a, c, x);
        DoomedDrops(Do(s, a), c, x);
      }
    }
  }

  lemma DrainIs(s: State, c: CollectorId)
    requires Can(s, ADrain(c))
    ensures CanDrain(s, c) && Do(s, ADrain(c)) == Drain(s, c)
  {
    hide Drain, CanDrain;
  }

  lemma FreedIs(s: State, c: CollectorId, x: Item)
    requires Dropping(s, c, x) && c in s.cols && x !in Doomed(s.cols[c].phase)
    ensures x in s.info && s.info[x].loc.Freed? && Retired(s.info[x])
  {
    hide Doomed;
  }

  lemma StaysFreed(s: State, t: State, c: CollectorId, x: Item)
    requires x in s.info && s.info[x].loc.Freed? && StaysRetired(s, t, x)
    ensures Dropping(t, c, x)
  {}

  lemma DoomedDrops(s: State, c: CollectorId, x: Item)
    requires c in s.cols && x in Doomed(s.cols[c].phase)
    ensures Dropping(s, c, x)
  {
    hide Doomed;
  }

  /** What is being dropped, or has been, is in none of the lists. */
  lemma DroppingIsOut(s: State, c: CollectorId, x: Item)
    requires Inv(s) && c in s.cols && Dropping(s, c, x)
    ensures Rotations(s.cols[c], x) == 0
  {
    hide *;
    InvGarbage(s);
    HeldCount(s, c, x);
    HeldIs(s.cols[c], x);
    DroppingIs(s, c, x);
    ListedIs(s.cols[c], x);
  }

  lemma HeldCount(s: State, c: CollectorId, x: Item)
    requires Garbage(s) && c in s.cols
    ensures Held(s.cols[c])[x] <= 1 && (x in s.info && s.info[x].loc.Freed? ==> Held(s.cols[c])[x] == 0)
  {
    assert Tally(Held(s.cols[c]), s.info, In(c));
    hide Held;
  }

  lemma HeldIs(col: Col, x: Item)
    ensures Held(col)[x] == multiset(Lists(col))[x] + Doomed(col.phase)[x]
  {}

  lemma DroppingIs(s: State, c: CollectorId, x: Item)
    requires Dropping(s, c, x) && c in s.cols
    ensures Doomed(s.cols[c].phase)[x] > 0 || (x in s.info && s.info[x].loc.Freed?)
  {
    hide Doomed;
  }

  lemma ListedIs(col: Col, x: Item)
    ensures Rotations(col, x) > 0 ==> multiset(Lists(col))[x] > 0
  {
    assert multiset(Lists(col)) == multiset(col.previous) + multiset(col.current) + multiset(col.next);
    hide Lists;
  }

  // ---------------------------------------------------------------- the announcement

  lemma GuardCurrent(s: State, a: Action)
    requires Can(s, a) && Guards(a) && ColOk(s, s.cols[a.c]) && Current(s.cols[a.c], s.epoch8)
    ensures Current(GuardCol(s, a), s.epoch8)
  {}

  lemma ScanCurrent(s: State, a: Action, c: CollectorId)
    requires Can(s, a) && Scans(a) && a.c == c && Alone(s, c) && ColOk(s, s.cols[c]) && ScanOk(s, s.cols[c])
    requires Current(s.cols[c], s.epoch8) && !Disturbs(s, a, c)
    ensures c in Do(s, a).cols && Current(Do(s, a).cols[c], Do(s, a).epoch8)
  {
    hide ScanOk, ColOk;
    if a.AVisit? { VisitPasses(s, c); }
    if a.AUnlink? { AdoptKeeps(s, c, Record(c)); }
    if a.APublish? { PublishesNext(s, c); }
    hide Unlink, VisitPhase, Next, Alone;
  }

  lemma DrainCurrent(s: State, a: Action, c: CollectorId)
    requires Can(s, a) && (a.ADrain? || a.AFinishDrain?) && a.c == c && c in s.cols && Current(s.cols[c], s.epoch8)
    ensures c in Do(s, a).cols && Current(Do(s, a).cols[c], Do(s, a).epoch8)
  {
    if a.ADrain? { DrainKeeps(s, c); }
    hide Drain;
  }

  lemma StaysCurrent(s: State, a: Action, c: CollectorId)
    requires Inv(s) && Can(s, a) && Alone(s, c) && Alone(Do(s, a), c) && !Disturbs(s, a, c)
    requires Current(s.cols[c], s.epoch8)
    ensures c in Do(s, a).cols && Current(Do(s, a).cols[c], Do(s, a).epoch8)
  {
    hide *;
    AloneIn(s, c);
    OfAlone(s, c);
    NotAllocating(s.cols[c], s.epoch8);
    if !ByOwner(a, c) {
      OthersLeaveAlone(s, a, c);
    } else {
      AliveIs(Do(s, a), c);
      NoOther(s, a, c);
      if Guards(a) {
        GuardDo(s, a);
        GuardCurrent(s, a);
      } else if Scans(a) {
        ScanCurrent(s, a, c);
      } else {
        DrainCurrent(s, a, c);
      }
    }
  }

  // ---------------------------------------------------------------- runs

  /** From state `m` to state `n` the thread of `c` runs undisturbed. */
  ghost predicate Undisturbed(states: seq<State>, actions: seq<Action>, c: CollectorId, m: nat, n: nat)
    requires n <= |actions| < |states|
  {
    && (forall i :: m <= i <= n ==> Alone(states[i], c))
    && (forall i :: m <= i < n ==> !Disturbs(states[i], actions[i], c))
  }

  /** The outermost guards that `c` creates from action `m` to action `n`. */
  function Entered(actions: seq<Action>, c: CollectorId, m: nat, n: nat): nat
    requires m <= n <= |actions|
  {
    if n == m then 0 else Entered(actions, c, m, n - 1) + if actions[n - 1] == AEnter(c) then 1 else 0
  }

  ghost predicate Calm(actions: seq<Action>, c: CollectorId, m: nat, n: nat)
    requires m <= n <= |actions|
  {
    forall i :: m <= i < n ==> actions[i] != AAccelerate(c)
  }

  lemma UndisturbedLess(states: seq<State>, actions: seq<Action>, c: CollectorId, m: nat, n: nat)
    requires m < n <= |actions| < |states| && Undisturbed(states, actions, c, m, n)
    ensures Undisturbed(states, actions, c, m, n - 1) && Alone(states[n - 1], c) && Alone(states[n], c)
    ensures !Disturbs(states[n - 1], actions[n - 1], c)
    ensures Calm(actions, c, m, n) ==> Calm(actions, c, m, n - 1) && actions[n - 1] != AAccelerate(c)
  {
    hide Alone, Disturbs;
  }

  lemma UndisturbedAt(states: seq<State>, actions: seq<Action>, c: CollectorId, m: nat)
    requires m <= |actions| < |states| && Undisturbed(states, actions, c, m, m)
    ensures Alone(states[m], c) && Entered(actions, c, m, m) == 0
  {
    hide Alone;
  }

  lemma StepMeans(s: State, a: Action, c: CollectorId, x: Item)
    requires Steps(s, a, c, x)
    ensures var t := Do(s, a); var e := if a == AEnter(c) then 1 else 0;
      && c in s.cols && c in t.cols
      && (Rotations(t.cols[c], x) > 0 ==> Survives(t.cols[c], t.epoch8, x) + e <= Survives(s.cols[c], s.epoch8, x))
      && (Rotations(t.cols[c], x) > 0 && a != AAccelerate(c) ==>
            Survives(t.cols[c], t.epoch8, x) + e == Survives(s.cols[c], s.epoch8, x))
      && (Rotations(t.cols[c], x) == 0 ==>
            e == 1 == Survives(s.cols[c], s.epoch8, x) && x in Doomed(t.cols[c].phase))
  {
    hide Do, Survives, Rotations, Current;
  }

  /** What is known in state `n`, when the count was `k` and `e` guards have been created since. */
  ghost predicate CountedTo(s: State, c: CollectorId, x: Item, k: nat, e: nat, calm: bool) {
    && c in s.cols
    && if Rotations(s.cols[c], x) > 0
       then Survives(s.cols[c], s.epoch8, x) + e <= k && (calm ==> Survives(s.cols[c], s.epoch8, x) + e == k)
       else Dropping(s, c, x) && (calm ==> e >= k)
  }

  lemma CountStep(s: State, a: Action, c: CollectorId, x: Item, k: nat, e: nat, calm: bool)
    requires Inv(s) && Inv(Do(s, a)) && Can(s, a) && Alone(s, c) && Alone(Do(s, a), c) && !Disturbs(s, a, c)
    requires c in s.cols && Current(s.cols[c], s.epoch8) && CountedTo(s, c, x, k, e, calm)
    requires calm ==> a != AAccelerate(c)
    ensures CountedTo(Do(s, a), c, x, k, e + if a == AEnter(c) then 1 else 0, calm)
  {
    hide *;
    var t := Do(s, a);
    AloneIn(t, c);
    CountedIs(s, c, x, k, e, calm);
    if Rotations(s.cols[c], x) > 0 {
      EveryStep(s, a, c, x);
      StepMeans(s, a, c, x);
      if Rotations(t.cols[c], x) == 0 { DoomedDrops(t, c, x); }
    } else {
      DropStep(s, a, c, x);
      DroppingIsOut(t, c, x);
    }
    CountedIs(t, c, x, k, e + if a == AEnter(c) then 1 else 0, calm);
  }

  lemma CountedIs(s: State, c: CollectorId, x: Item, k: nat, e: nat, calm: bool)
    requires c in s.cols
    ensures CountedTo(s, c, x, k, e, calm) <==>
      if Rotations(s.cols[c], x) > 0
      then Survives(s.cols[c], s.epoch8, x) + e <= k && (calm ==> Survives(s.cols[c], s.epoch8, x) + e == k)
      else Dropping(s, c, x) && (calm ==> e >= k)
  {
    hide Survives, Rotations, Dropping;
  }

  /** The count along a run. */
  lemma {:induction false} Counted(states: seq<State>, actions: seq<Action>, c: CollectorId, m: nat, n: nat, x: Item)
    requires Run(states, actions) && m <= n <= |actions| && Undisturbed(states, actions, c, m, n)
    requires c in states[m].cols && Current(states[m].cols[c], states[m].epoch8) && Rotations(states[m].cols[c], x) > 0
    ensures c in states[n].cols && Current(states[n].cols[c], states[n].epoch8)
    ensures CountedTo(states[n], c, x, Survives(states[m].cols[c], states[m].epoch8, x), Entered(actions, c, m, n),
                      Calm(actions, c, m, n))
  {
    hide Inv, Can, Do, Alone, Disturbs, Current, Survives, Rotations, Dropping, Calm, Undisturbed;
    if m == n {
      UndisturbedAt(states, actions, c, m);
    } else {
      UndisturbedLess(states, actions, c, m, n);
      Counted(states, actions, c, m, n - 1, x);
      RunInv(states, actions, n - 1);
      RunInv(states, actions, n);
      RunStep(states, actions, n - 1);
      StaysCurrent(states[n - 1], actions[n - 1], c);
      hide CountedTo, Run;
      var k := Survives(states[m].cols[c], states[m].epoch8, x);
      CountLess(states[n - 1], c, x, k, Entered(actions, c, m, n - 1),
        Calm(actions, c, m, n - 1), Calm(actions, c, m, n));
      CountStep(states[n - 1], actions[n - 1], c, x, k, Entered(actions, c, m, n - 1), Calm(actions, c, m, n));
    }
  }

  lemma CountLess(s: State, c: CollectorId, x: Item, k: nat, e: nat, calm: bool, calmer: bool)
    requires CountedTo(s, c, x, k, e, calm) && (calmer ==> calm)
    ensures CountedTo(s, c, x, k, e, calmer)
  {
    hide Survives, Rotations, Dropping;
  }

  /** Bounded reclamation in every run: let `x` be in a list of collector `c`, which is between guards, or
      in one that has announced the current epoch.  As long as its thread lives and no other thread is
      inside a guard, the chain lock is free when it scans and none of its destructors fails, `x` is
      dropped within `Survives`, at most 196, further outermost guards of the thread: however its nested
      guards, retirements and destructors and the steps of all other threads interleave.  Without
      `accelerate` it is dropped by exactly that guard. */
  lemma BoundedReclamation(states: seq<State>, actions: seq<Action>, c: CollectorId, m: nat, n: nat, x: Item)
    requires Run(states, actions) && m <= n <= |actions| && Undisturbed(states, actions, c, m, n)
    requires c in states[m].cols && Current(states[m].cols[c], states[m].epoch8) && x in Lists(states[m].cols[c])
    ensures var k := Survives(states[m].cols[c], states[m].epoch8, x);
      var e := Entered(actions, c, m, n);
      var s := states[n];
      && 0 < k <= 3 * (CADENCE + 1) + 1 == 196 && c in s.cols
      && (e >= k ==> Dropping(s, c, x) && (!s.cols[c].phase.Draining? ==> x in s.info && s.info[x].loc.Freed?))
      && (Calm(actions, c, m, n) && e < k ==> x in Lists(s.cols[c]) && (x in s.info ==> !s.info[x].loc.Freed?))
  {
    RunLength(states, actions);
    hide *;
    var s, k, e := states[n], Survives(states[m].cols[c], states[m].epoch8, x), Entered(actions, c, m, n);
    Listed(states[m].cols[c], x);
    Counted(states, actions, c, m, n, x);
    RunInv(states, actions, m);
    RunInv(states, actions, n);
    OfAlone(states[m], c);
    AtMost(states[m].cols[c], states[m].epoch8, x);
    Concludes(s, c, x, k, e, Calm(actions, c, m, n));
  }

  lemma RunLength(states: seq<State>, actions: seq<Action>)
    requires Run(states, actions)
    ensures |states| == |actions| + 1
  {
    hide Can, Do;
  }

  lemma Listed(col: Col, x: Item)
    ensures x in Lists(col) <==> Rotations(col, x) > 0
  {}

  lemma AtMost(col: Col, now8: Epoch, x: Item)
    requires Sound(col) && Rotations(col, x) > 0
    ensures 0 < Survives(col, now8, x) <= 3 * (CADENCE + 1) + 1 == 196
  {
    assert Rotations(col, x) <= 3;
    hide Lists, Rotations;
  }

  lemma AtLeast(col: Col, now8: Epoch, x: Item)
    ensures Rotations(col, x) > 0 ==> Survives(col, now8, x) > 0
  {
    hide Rotations;
  }

  lemma Concludes(s: State, c: CollectorId, x: Item, k: nat, e: nat, calm: bool)
    requires Inv(s) && CountedTo(s, c, x, k, e, calm)
    ensures c in s.cols
    ensures e >= k ==> Dropping(s, c, x) && (!s.cols[c].phase.Draining? ==> x in s.info && s.info[x].loc.Freed?)
    ensures calm && e < k ==> x in Lists(s.cols[c]) && (x in s.info ==> !s.info[x].loc.Freed?)
  {
    AtLeast(s.cols[c], s.epoch8, x);
    Listed(s.cols[c], x);
    if Dropping(s, c, x) { DroppingIsOut(s, c, x); }
    hide Inv, Survives, Rotations, Lists;
  }
}
