/** Stored epochs are taken modulo 64.  The machine that decides on unbounded epochs is compared with
    the one that decides on the stored words: they agree in every step, except that a reader whose
    announcement is out of date by a positive multiple of 64 epochs misses a rotation. */
module EpochWrap {
  import opened Base
  import opened Epochs
  import opened Reclaimer
  import opened ReclaimerShape
  import opened ReclaimerGarbage
  import opened ReclaimerGrace
  import opened ReclaimerSafety
  import opened ReclaimerTheorems

  // ---------------------------------------------------------------- forgetting the stored epochs

  function EraseWord(w: Word): Word { w.(epoch := 0) }

  function ErasePhase(p: Phase): Phase {
    match p
    case Scanning(known, prev, cur, left) => Scanning(EraseWord(known), prev, cur, left)
    case Unlinking(known, prev, k, nxt, left) => Unlinking(EraseWord(known), prev, k, nxt, left)
    case _ => p
  }

  function EraseCol(col: Col): Col {
    col.(word := EraseWord(col.word), announcement := 0, phase := ErasePhase(col.phase))
  }

  /** The state with every stored epoch blanked out. */
  function Erase(s: State): State {
    s.(epoch8 := 0, cols := map c | c in s.cols :: EraseCol(s.cols[c]))
  }

  // ---------------------------------------------------------------- the machine on unbounded epochs

  function ExactEnterCol(col: Col, now: nat, clock: nat): Col {
    var col1 := col.(readers := 1, word := Word(0, false, false), epoch := now, since := clock);
    if col.epoch == now then col1
    else if col.hasGarbage then Rotate(col1) else col1.(countdown := CADENCE)
  }

  function ExactEnter(e: State, c: CollectorId): State
    requires CanEnter(e, c)
  {
    Upd(e, c, ExactEnterCol(e.cols[c], e.epoch, e.clock)).(clock := e.clock + 1)
  }

  function ExactVisitPhase(e: State, c: CollectorId): Phase
    requires CanVisit(e, c)
  {
    var Scanning(known, prev, cur, left) := e.cols[c].phase;
    var k := cur.value;
    var other := e.cols[k];
    if k == c then Scanning(known, Some(c), other.link, left - 1)
    else if IsInvalid(other.word) then Unlinking(known, prev, k, other.link, left)
    else if !IsInactive(other.word) && other.epoch != e.cols[c].epoch then Releasing
    else Scanning(known, Some(k), other.link, left - 1)
  }

  function ExactVisit(e: State, c: CollectorId): State
    requires CanVisit(e, c)
  {
    Upd(e, c, e.cols[c].(phase := ExactVisitPhase(e, c)))
  }

  function ExactPublish(e: State, c: CollectorId): State
    requires CanPublish(e, c)
  {
    Upd(e, c, e.cols[c].(phase := Releasing)).(epoch := e.cols[c].epoch + 1)
  }

  /** The unbounded machine: it never looks at a stored epoch. */
  function ExactDo(e: State, a: Action): State {
    match a
    case AEnter(c) => if CanEnter(e, c) then ExactEnter(e, c) else e
    case AVisit(c) => if CanVisit(e, c) then ExactVisit(e, c) else e
    case APublish(c) => if CanPublish(e, c) then ExactPublish(e, c) else e
    case _ => Do(e, a)
  }

  /** The announcement of `c` is out of date, but by a multiple of 64 epochs, and so looks current. */
  predicate Wrapped(s: State, c: CollectorId) {
    c in s.cols && s.cols[c].epoch < s.epoch && (s.epoch - s.cols[c].epoch) % 64 == 0
  }

  /** The guard of a wrapped reader: it rotates nothing and keeps its countdown. */
  function SkippingEnter(e: State, c: CollectorId): State
    requires CanEnter(e, c)
  {
    Upd(e, c, e.cols[c].(readers := 1, word := Word(0, false, false), epoch := e.epoch, since := e.clock))
      .(clock := e.clock + 1)
  }

  // ---------------------------------------------------------------- one action at a time

  lemma EraseUpd(s: State, c: CollectorId, col: Col)
    ensures Erase(Upd(s, c, col)) == Upd(Erase(s), c, EraseCol(col))
  {
    assert Erase(Upd(s, c, col)).cols == Upd(Erase(s), c, EraseCol(col)).cols;
  }

  /** The action is enabled with the stored epochs blanked, and does the same. */
  ghost predicate Commutes(s: State, a: Action) {
    Can(Erase(s), a) && Erase(Do(s, a)) == ExactDo(Erase(s), a)
  }

  lemma EraseInstances(s: State, a: Action)
    requires Can(s, a) && (a.ACreate? || a.ALoad? || a.ARetire?)
    ensures Commutes(s, a)
  {
    if a.ARetire? { EraseUpd(s, a.c, CollectCol(s.cols[a.c], Instance(a.o))); }
  }

  lemma EraseAllocation(s: State, a: Action)
    requires Can(s, a) && (a.AAlloc? || a.ALinkHead? || a.ARelink?)
    ensures Commutes(s, a)
  {
    match a
    case AAlloc(c) => EraseUpd(s, c, NewCol(s.head));
    case ALinkHead(c) => EraseUpd(s, c, s.cols[c].(phase := Idle));
    case ARelink(c) => EraseUpd(s, c, s.cols[c].(phase := Allocating(s.head), link := s.head.ptr));
  }

  lemma EraseNest(s: State, c: CollectorId)
    requires CanNest(s, c)
    ensures CanNest(Erase(s), c) && Erase(Nest(s, c)) == Nest(Erase(s), c)
  {
    EraseUpd(s, c, s.cols[c].(readers := s.cols[c].readers + 1));
  }

  lemma EraseUnnest(s: State, c: CollectorId)
    requires CanUnnest(s, c)
    ensures CanUnnest(Erase(s), c) && Erase(Unnest(s, c)) == Unnest(Erase(s), c)
  {
    EraseUpd(s, c, s.cols[c].(readers := s.cols[c].readers - 1));
  }

  lemma EraseNesting(s: State, a: Action)
    requires Can(s, a) && (a.ANest? || a.AUnnest?)
    ensures Commutes(s, a)
  {
    hide Nest, Unnest, Erase, CanNest, CanUnnest;
    if a.ANest? { EraseNest(s, a.c); } else { EraseUnnest(s, a.c); }
  }

  lemma EraseHints(s: State, a: Action)
    requires Can(s, a) && (a.AAccelerate? || a.ASetHasGarbage? || a.AMark?)
    ensures Commutes(s, a)
  {
    hide Wrap, NewCol, CollectCol, Rotate, ExitCol, Drop, Move, Lose, Reverse;
    match a
    case AAccelerate(c) => EraseUpd(s, c, s.cols[c].(countdown := 0));
    case ASetHasGarbage(c) => EraseUpd(s, c, s.cols[c].(hasGarbage := true));
    case AMark =>
  }

  lemma EraseExit(s: State, c: CollectorId)
    requires CanExit(s, c)
    ensures CanExit(Erase(s), c) && Erase(Exit(s, c)) == Exit(Erase(s), c)
  {
    EraseUpd(s, c, ExitCol(s.cols[c], s.head.mark && !s.head.lock));
  }

  lemma EraseLeaving(s: State, a: Action)
    requires Can(s, a) && (a.ALeave? || a.AInvalidate? || a.AFinishDrain?)
    ensures Commutes(s, a)
  {
    match a
    case ALeave(c) => EraseUpd(s, c, LeaveCol(s.cols[c]));
    case AInvalidate(c) => EraseUpd(s, c, s.cols[c].(word := s.cols[c].word.(invalid := true)));
    case AFinishDrain(c) => EraseUpd(s, c, s.cols[c].(countdown := CADENCE, phase := Idle));
  }

  lemma EraseLocking(s: State, a: Action)
    requires Can(s, a) && (a.ALock? || a.ARelease?)
    ensures Commutes(s, a)
  {
    match a
    case ALock(c) =>
      EraseUpd(s, c, s.cols[c].(countdown := CADENCE, phase := Leaving));
      EraseUpd(s, c, s.cols[c].(phase := Scanning(s.cols[c].word, None, s.head.ptr, |s.chain|)));
    case ARelease(c) => EraseUpd(s, c, s.cols[c].(countdown := CADENCE, phase := Leaving));
  }

  lemma EraseDrainInstance(s: State, c: CollectorId)
    requires CanDrain(s, c) && Victim(s.cols[c].phase).Instance?
    ensures CanDrain(Erase(s), c) && Erase(Drain(s, c)) == Drain(Erase(s), c)
  {
    var col, x := s.cols[c], Victim(s.cols[c].phase);
    var s1 := s.(info := Drop(s.info, x, In(c)));
    EraseUpd(s1, c, col.(phase := Rest(col.phase)));
    hide Drop, Lists, Emptied;
  }

  lemma EraseDrainRecord(s: State, c: CollectorId)
    requires CanDrain(s, c) && Victim(s.cols[c].phase).Record?
    ensures CanDrain(Erase(s), c) && Erase(Drain(s, c)) == Drain(Erase(s), c)
  {
    var col, x := s.cols[c], Victim(s.cols[c].phase);
    var s1 := s.(info := Drop(s.info, x, In(c)));
    hide Drop;
    EraseUpd(s1, x.k, Emptied(s.cols[x.k]));
    EraseUpd(Upd(s1, x.k, Emptied(s.cols[x.k])), c, col.(phase := Opened(Rest(col.phase), Lists(s.cols[x.k]))));
    hide Upd, Erase;
  }

  lemma EraseDrain(s: State, c: CollectorId)
    requires CanDrain(s, c)
    ensures Commutes(s, ADrain(c))
  {
    hide Drain, Erase;
    if Victim(s.cols[c].phase).Instance? { EraseDrainInstance(s, c); } else { EraseDrainRecord(s, c); }
  }

  lemma EraseFail(s: State, c: CollectorId)
    requires CanFailDrain(s, c)
    ensures Commutes(s, AFailDrain(c))
  {
    EraseUpd(s, c, FailCol(s.cols[c]));
    hide Drop, Lose, Reverse;
  }

  lemma EraseUnlink(s: State, c: CollectorId)
    requires CanUnlink(s, c)
    ensures CanUnlink(Erase(s), c) && Erase(Unlink(s, c)) == Unlink(Erase(s), c)
  {
    var Unlinking(known, prev, k, nxt, left) := s.cols[c].phase;
    if HeadMoved(s, s.cols[c].phase) {
      EraseUpd(s, c, s.cols[c].(phase := Scanning(known, Some(k), nxt, left - 1)));
    } else {
      EraseAdopt(s, c);
      hide Adopt;
    }
  }

  /** What adopting does first: the link or the head passes over the collector. */
  function PassedOver(s: State, prev: Option<CollectorId>, nxt: Option<CollectorId>): State
    requires prev.Some? ==> prev.value in s.cols
  {
    if prev.None? then s.(head := s.head.(ptr := nxt))
    else Upd(s, prev.value, s.cols[prev.value].(link := nxt))
  }

  lemma ErasePassedOver(s: State, prev: Option<CollectorId>, nxt: Option<CollectorId>)
    requires prev.Some? ==> prev.value in s.cols
    ensures Erase(PassedOver(s, prev, nxt)) == PassedOver(Erase(s), prev, nxt)
  {
    if prev.Some? { EraseUpd(s, prev.value, s.cols[prev.value].(link := nxt)); }
  }

  lemma EraseCollected(col: Col, x: Item, p: Phase)
    ensures EraseCol(CollectCol(col, x).(phase := p)) == CollectCol(EraseCol(col), x).(phase := ErasePhase(p))
  {}

  lemma EraseHistory(s: State, info: map<Item, Info>, clock: nat, chain: seq<CollectorId>)
    ensures Erase(s.(info := info, clock := clock, chain := chain))
         == Erase(s).(info := info, clock := clock, chain := chain)
  {}

  lemma EraseKeeps(s: State, c: CollectorId)
    requires c in s.cols
    ensures c in Erase(s).cols && Erase(s).cols[c] == EraseCol(s.cols[c])
  {}

  lemma EraseUnlinking(s: State, c: CollectorId)
    requires CanUnlink(s, c)
    ensures CanUnlink(Erase(s), c) && c in Erase(s).cols
    ensures var Unlinking(known, prev, k, nxt, left) := s.cols[c].phase;
      Erase(s).cols[c].phase == Unlinking(EraseWord(known), prev, k, nxt, left)
    ensures forall known, prev, cur, left ::
      ErasePhase(Scanning(known, prev, cur, left)) == Scanning(EraseWord(known), prev, cur, left)
  {}

  lemma CanUnlinkIs(s: State, c: CollectorId)
    requires CanUnlink(s, c)
    ensures c in s.cols && s.cols[c].phase.Unlinking? && s.cols[c].phase.left > 0
    ensures s.cols[c].phase.prev.Some? ==> s.cols[c].phase.prev.value in s.cols
  {}

  /** Adopting, in parts. */
  function Taken(s: State, s1: State, c: CollectorId, k: CollectorId, p: Phase): State
    requires c in s1.cols && p.Scanning?
  {
    Upd(s1, c, CollectCol(s1.cols[c], Record(k)).(phase := p))
      .(info := s.info[Record(k) := Info(In(c), s.epoch, s.clock)], clock := s.clock + 1,
        chain := Without(s.chain, p.left + 1))
  }

  lemma AdoptIs(s: State, c: CollectorId)
    requires CanUnlink(s, c)
    ensures var Unlinking(known, prev, k, nxt, left) := s.cols[c].phase;
      Adopt(s, c) == Taken(s, PassedOver(s, prev, nxt), c, k, Scanning(known, prev, nxt, left - 1))
  {
    hide Without, CollectCol;
  }

  lemma EraseTaken(s: State, s1: State, c: CollectorId, k: CollectorId, p: Phase)
    requires c in s1.cols && p.Scanning?
    ensures c in Erase(s1).cols && ErasePhase(p).Scanning?
    ensures Erase(Taken(s, s1, c, k, p)) == Taken(Erase(s), Erase(s1), c, k, ErasePhase(p))
  {
    EraseKeeps(s1, c);
    EraseHistory(Upd(s1, c, CollectCol(s1.cols[c], Record(k)).(phase := p)),
      s.info[Record(k) := Info(In(c), s.epoch, s.clock)], s.clock + 1, Without(s.chain, p.left + 1));
    hide Without, Upd;
    EraseCollected(s1.cols[c], Record(k), p);
    EraseUpd(s1, c, CollectCol(s1.cols[c], Record(k)).(phase := p));
    hide CollectCol, EraseCol;
  }

  lemma EraseAdopt(s: State, c: CollectorId)
    requires CanUnlink(s, c)
    ensures CanUnlink(Erase(s), c) && Erase(Adopt(s, c)) == Adopt(Erase(s), c)
  {
    hide *;
    CanUnlinkIs(s, c);
    var Unlinking(known, prev, k, nxt, left) := s.cols[c].phase;
    EraseUnlinking(s, c);
    AdoptIs(s, c);
    AdoptIs(Erase(s), c);
    ErasePassedOver(s, prev, nxt);
    PassedKeeps(s, c, prev, nxt);
    EraseTaken(s, PassedOver(s, prev, nxt), c, k, Scanning(known, prev, nxt, left - 1));
  }

  lemma PassedKeeps(s: State, c: CollectorId, prev: Option<CollectorId>, nxt: Option<CollectorId>)
    requires c in s.cols && (prev.Some? ==> prev.value in s.cols)
    ensures c in PassedOver(s, prev, nxt).cols
  {}

  lemma EraseClearLock(s: State)
    requires Can(s, AClearLock)
    ensures Commutes(s, AClearLock)
  {}

  lemma EraseClearCheck(s: State)
    requires Can(s, AClearCheck)
    ensures Commutes(s, AClearCheck)
  {}

  lemma EraseClearUnlock(s: State)
    requires Can(s, AClearUnlock)
    ensures Commutes(s, AClearUnlock)
  {}

  lemma EraseClearSwap(s: State)
    requires CanClearSwap(s)
    ensures Erase(ClearSwap(s)) == ClearSwap(Erase(s))
  {}

  lemma EraseClearDrop(s: State)
    requires CanClearDrop(s)
    ensures Commutes(s, AClearDrop)
  {
    var x := s.teardown.dump[0];
    var s1 := s.(info := Drop(s.info, x, Dumped));
    hide Drop;
    if x.Record? { EraseUpd(s1, x.k, Emptied(s.cols[x.k])); }
  }

  // ---------------------------------------------------------------- the comparisons

  /** The scan's test on stored words is the test on epochs. */
  lemma VisitErased(s: State, c: CollectorId)
    requires CanVisit(s, c) && CanVisit(Erase(s), c) && ErasePhase(VisitPhase(s, c)) == ExactVisitPhase(Erase(s), c)
    ensures Erase(Visit(s, c)) == ExactVisit(Erase(s), c)
  {
    EraseUpd(s, c, s.cols[c].(phase := VisitPhase(s, c)));
    hide VisitPhase, ExactVisitPhase;
  }

  lemma VisitOk(s: State, c: CollectorId)
    requires Shape(s) && CanVisit(s, c)
    ensures ColOk(s, s.cols[c]) && ColOk(s, s.cols[s.cols[c].phase.cur.value]) && ScanOk(s, s.cols[c])
  {
    hide Shape;
    OfCollector(s, c);
    OfCollector(s, s.cols[c].phase.cur.value);
  }

  lemma EraseVisit(s: State, c: CollectorId)
    requires Shape(s) && CanVisit(s, c)
    ensures CanVisit(Erase(s), c) && Erase(Visit(s, c)) == ExactVisit(Erase(s), c)
  {
    VisitOk(s, c);
    hide *;
    ExactPhase(s, c);
    VisitErased(s, c);
  }

  lemma ExactPhase(s: State, c: CollectorId)
    requires CanVisit(s, c) && ScanOk(s, s.cols[c])
    requires ColOk(s, s.cols[c]) && ColOk(s, s.cols[s.cols[c].phase.cur.value])
    ensures CanVisit(Erase(s), c) && ErasePhase(VisitPhase(s, c)) == ExactVisitPhase(Erase(s), c)
  {
    var other := s.cols[s.cols[c].phase.cur.value];
    if Active(other) { ComparisonExact(s, s.cols[c], other); }
    hide ScanOk, ColOk;
  }

  lemma ErasePublish(s: State, c: CollectorId)
    requires CanPublish(s, c)
    ensures CanPublish(Erase(s), c) && Erase(Publish(s, c)) == ExactPublish(Erase(s), c)
  {
    EraseUpd(s, c, s.cols[c].(phase := Releasing));
  }

  lemma SameBytes(g: nat, h: nat)
    requires g <= h
    ensures Wrap(g) == Wrap(h) <==> (h - g) % 64 == 0
  {}

  lemma EnterErased(s: State, c: CollectorId)
    requires CanEnter(s, c) && ColOk(s, s.cols[c]) && s.epoch8 == Wrap(s.epoch)
    ensures CanEnter(Erase(s), c)
    ensures !Wrapped(s, c) ==> Erase(Enter(s, c)) == ExactEnter(Erase(s), c)
    ensures Wrapped(s, c) ==> Erase(Enter(s, c)) == SkippingEnter(Erase(s), c)
  {
    SameBytes(s.cols[c].epoch, s.epoch);
    hide Wrap;
    EraseUpd(s, c, EnterCol(s.cols[c], s.epoch8, s.epoch, s.clock));
  }

  lemma SkipDiffers(e: State, c: CollectorId)
    requires CanEnter(e, c) && e.cols[c].epoch != e.epoch
    ensures SkippingEnter(e, c) == ExactEnter(e, c) <==> !e.cols[c].hasGarbage && e.cols[c].countdown == CADENCE
  {
    var x, y := SkippingEnter(e, c).cols[c], ExactEnter(e, c).cols[c];
    assert e.cols[c].hasGarbage ==> x.phase != y.phase;
    assert !e.cols[c].hasGarbage ==> x.countdown == e.cols[c].countdown && y.countdown == CADENCE;
  }

  // ---------------------------------------------------------------- the refinement

  /** The actions whose source compares or computes epochs, and those of many cases. */
  predicate Compound(a: Action) {
    a.AExit? || a.AUnlink? || a.AVisit? || a.APublish? || a.AClearSwap?
  }

  lemma EraseCompound(s: State, a: Action)
    requires Shape(s) && Can(s, a) && Compound(a)
    ensures Commutes(s, a)
  {
    hide Shape, Exit, Unlink, Visit, ExactVisit, Publish, ExactPublish, ClearSwap;
    match a
    case AExit(c) => EraseExit(s, c); hide Erase;
    case AUnlink(c) => EraseUnlink(s, c); hide Erase;
    case AVisit(c) => EraseVisit(s, c); hide Erase;
    case APublish(c) => ErasePublish(s, c); hide Erase;
    case AClearSwap => EraseClearSwap(s);
  }

  lemma EraseCommutes(s: State, a: Action)
    requires Shape(s) && Can(s, a) && !a.AEnter?
    ensures Commutes(s, a)
  {
    hide Shape, Commutes, Do, Erase;
    if Compound(a) { EraseCompound(s, a); }
    else if a.ACreate? || a.ALoad? || a.ARetire? { EraseInstances(s, a); }
    else if a.AAlloc? || a.ALinkHead? || a.ARelink? { EraseAllocation(s, a); }
    else if a.ANest? || a.AUnnest? { EraseNesting(s, a); }
    else if a.AAccelerate? || a.ASetHasGarbage? || a.AMark? { EraseHints(s, a); }
    else if a.ALeave? || a.AInvalidate? || a.AFinishDrain? { EraseLeaving(s, a); }
    else if a.ALock? || a.ARelease? { EraseLocking(s, a); }
    else if a.ADrain? { EraseDrain(s, a.c); }
    else if a.AFailDrain? { EraseFail(s, a.c); }
    else if a.AClearDrop? { EraseClearDrop(s); }
    else if a.AClearLock? { EraseClearLock(s); }
    else if a.AClearCheck? { EraseClearCheck(s); }
    else { EraseClearUnlock(s); }
  }

  /** A step of the machine on stored words is the same step of the unbounded machine if and only if
      it is not a wrapped reader with garbage, or with a countdown to reset, entering; that reader
      skips its rotation. */
  lemma ExactUnlessWrapped(s: State, a: Action)
    requires Inv(s) && Can(s, a)
    ensures Can(Erase(s), a)
    ensures Erase(Do(s, a)) == ExactDo(Erase(s), a) <==>
      !(a.AEnter? && Wrapped(s, a.c) && (s.cols[a.c].hasGarbage || s.cols[a.c].countdown != CADENCE))
    ensures a.AEnter? && Wrapped(s, a.c) ==> CanEnter(Erase(s), a.c) && Erase(Do(s, a)) == SkippingEnter(Erase(s), a.c)
  {
    hide Shape, Garbage, Grace;
    if a.AEnter? {
      OfCollector(s, a.c);
      EnterErased(s, a.c);
      if Wrapped(s, a.c) { SkipDiffers(Erase(s), a.c); }
      hide Enter, ExactEnter, SkippingEnter;
    } else {
      EraseCommutes(s, a);
      hide Can, Do, Erase;
    }
  }

  /** Every run on stored words is, step by step, a run of the unbounded machine in which some guards
      skip their rotation. */
  lemma RunExact(states: seq<State>, actions: seq<Action>, i: nat)
    requires Run(states, actions) && i < |actions|
    ensures Can(Erase(states[i]), actions[i])
    ensures var e, f := Erase(states[i]), Erase(states[i + 1]);
      || f == ExactDo(e, actions[i])
      || (actions[i].AEnter? && Wrapped(states[i], actions[i].c) && CanEnter(e, actions[i].c)
          && f == SkippingEnter(e, actions[i].c))
  {
    assert |states| == |actions| + 1;
    hide *;
    RunStep(states, actions, i);
    RunInv(states, actions, i);
    ExactUnlessWrapped(states[i], actions[i]);
  }
}
