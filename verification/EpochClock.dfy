/** The global epoch as a simple clock.  A scan is many small steps, between which readers come, go
    and are allocated; seen from the outside it is one atomic step, taken only when every announced
    epoch is the current one. */
module EpochClock {
  import opened Base
  import opened Epochs
  import opened Reclaimer
  import opened ReclaimerShape
  import opened ReclaimerGarbage
  import opened ReclaimerGrace
  import opened ReclaimerSafety
  import opened ReclaimerRuns
  import opened ReclaimerTheorems

  datatype Clock = Clock(now: nat, announced: map<CollectorId, nat>)

  /** A reader that has announced nothing announces the current epoch. */
  ghost predicate Announces(v: Clock, w: Clock, c: CollectorId) {
    c !in v.announced && w == Clock(v.now, v.announced[c := v.now])
  }

  ghost predicate Withdraws(v: Clock, w: Clock, c: CollectorId) {
    c in v.announced && w == Clock(v.now, v.announced - {c})
  }

  ghost predicate Advances(v: Clock, w: Clock) {
    (forall c :: c in v.announced ==> v.announced[c] == v.now) && w == Clock(v.now + 1, v.announced)
  }

  function View(s: State): Clock {
    Clock(s.epoch, map c | c in s.cols && Active(s.cols[c]) :: s.cols[c].epoch)
  }

  /** What an action does to the clock. */
  ghost predicate Ticks(v: Clock, w: Clock, a: Action) {
    match a
    case AEnter(c) => Announces(v, w, c)
    case ALeave(c) => Withdraws(v, w, c)
    case APublish(c) => c in v.announced && (if v.announced[c] == v.now then Advances(v, w) else w == v)
    case _ => w == v
  }

  /** Activity and epochs of readers do not change. */
  ghost predicate SameView(s: State, t: State) {
    && t.epoch == s.epoch
    && (forall c :: c in s.cols ==>
          c in t.cols && Active(t.cols[c]) == Active(s.cols[c])
          && (Active(s.cols[c]) ==> t.cols[c].epoch == s.cols[c].epoch))
    && (forall c :: c in t.cols && c !in s.cols ==> !Active(t.cols[c]))
  }

  lemma SameViews(s: State, t: State)
    requires SameView(s, t)
    ensures View(t) == View(s)
  {
    hide Active;
    assert View(t).announced.Keys == View(s).announced.Keys;
  }

  lemma ReadersGc(s: State, a: Action, c: CollectorId)
    requires Can(s, a) && (a.ADrain? || a.AFailDrain? || a.AUnlink? || a.AClearDrop? || a.AClearSwap?)
    ensures c in s.cols ==>
      c in Do(s, a).cols && Do(s, a).cols[c].word == s.cols[c].word && Do(s, a).cols[c].epoch == s.cols[c].epoch
    ensures c in Do(s, a).cols ==> c in s.cols
  {
    match a
    case ADrain(d) => DrainReaders(s, d); hide Drain;
    case AFailDrain(d) => FailCols(s, d); hide FailDrain;
    case AUnlink(d) =>
      if !HeadMoved(s, s.cols[d].phase) && c in s.cols { AdoptDoomed(s, d, c); AdoptWord(s, d, c); hide Adopt; }
      if !HeadMoved(s, s.cols[d].phase) { AdoptWord(s, d, d); hide Adopt; }
    case AClearDrop => ClearDropReaders(s); hide ClearDrop;
    case AClearSwap => hide Move;
  }

  lemma ViewGc(s: State, a: Action)
    requires Can(s, a) && (a.ADrain? || a.AFailDrain? || a.AUnlink? || a.AClearDrop? || a.AClearSwap?)
    ensures SameView(s, Do(s, a))
  {
    hide Can, Do;
    EpochKept(s, a);
    forall c: CollectorId {
      ReadersGc(s, a, c);
    }
  }

  lemma ViewPlain(s: State, a: Action)
    requires Can(s, a) && !(a.ADrain? || a.AFailDrain? || a.AUnlink? || a.AClearDrop? || a.AClearSwap?)
    requires !a.AEnter? && !a.ALeave? && !a.APublish?
    requires a.AInvalidate? ==> !Active(s.cols[a.c])
    ensures SameView(s, Do(s, a))
  {
    hide VisitPhase;
  }

  lemma ViewEnter(s: State, c: CollectorId)
    requires CanEnter(s, c) && !Active(s.cols[c])
    ensures Announces(View(s), View(Enter(s, c)), c)
  {
    var t := Enter(s, c);
    assert Active(t.cols[c]) && t.cols[c].epoch == s.epoch;
    hide EnterCol;
    assert View(t).announced == View(s).announced[c := s.epoch];
  }

  lemma ViewLeave(s: State, c: CollectorId)
    requires CanLeave(s, c) && Active(s.cols[c])
    ensures Withdraws(View(s), View(Leave(s, c)), c)
  {
    assert View(Leave(s, c)).announced == View(s).announced - {c};
  }

  lemma PublishKeepsReaders(s: State, c: CollectorId)
    requires CanPublish(s, c)
    ensures View(Publish(s, c)) == Clock(s.cols[c].epoch + 1, View(s).announced)
  {
    assert View(Publish(s, c)).announced == View(s).announced;
  }

  lemma ViewPublish(s: State, c: CollectorId)
    requires Shape(s) && CanPublish(s, c)
    ensures Ticks(View(s), View(Publish(s, c)), APublish(c))
  {
    hide Shape, Publish, Active;
    PublishKeepsReaders(s, c);
    ScanComplete(s, c);
  }

  lemma StepsAreInactive(s: State, a: Action)
    requires Inv(s) && Can(s, a)
    ensures a.AEnter? || a.AInvalidate? ==> !Active(s.cols[a.c])
    ensures a.ALeave? ==> Active(s.cols[a.c])
  {
    hide Shape, Garbage, Grace;
    if a.AEnter? || a.AInvalidate? || a.ALeave? { OfCollector(s, a.c); }
  }

  /** Every step of the reclaimer is a step of the clock: however a scan interleaves with readers, it
      amounts to one atomic advance under the guard that every announced epoch is current, or to
      nothing. */
  lemma RefinesClock(s: State, a: Action)
    requires Inv(s) && Can(s, a)
    ensures Ticks(View(s), View(Do(s, a)), a)
  {
    hide Shape, Garbage, Grace, View, Announces, Withdraws, Advances, Active, Can, Do;
    StepsAreInactive(s, a);
    if a.AEnter? || a.ALeave? || a.APublish? {
      hide Ticks;
      ViewReader(s, a);
    } else {
      if a.ADrain? || a.AFailDrain? || a.AUnlink? || a.AClearDrop? || a.AClearSwap? {
        ViewGc(s, a);
      } else {
        ViewPlain(s, a);
      }
      SameViews(s, Do(s, a));
    }
  }

  lemma ViewReader(s: State, a: Action)
    requires Shape(s) && Can(s, a) && (a.AEnter? || a.ALeave? || a.APublish?)
    requires (a.AEnter? ==> !Active(s.cols[a.c])) && (a.ALeave? ==> Active(s.cols[a.c]))
    ensures Ticks(View(s), View(Do(s, a)), a)
  {
    hide Shape, View, Announces, Withdraws, Advances, Enter, Leave, Publish;
    match a
    case AEnter(c) => ViewEnter(s, c);
    case ALeave(c) => ViewLeave(s, c);
    case APublish(c) => ViewPublish(s, c);
  }

  lemma RunRefinesClock(states: seq<State>, actions: seq<Action>, i: nat)
    requires Run(states, actions) && i < |actions|
    ensures Ticks(View(states[i]), View(states[i + 1]), actions[i])
  {
    assert |states| == |actions| + 1;
    hide *;
    RunStep(states, actions, i);
    RunInv(states, actions, i);
    RefinesClock(states[i], actions[i]);
  }
}
