/** Announcements do go out of date by exactly 64 epochs: a run that leads there. */
module WrapReached {
  import opened Base
  import opened Epochs
  import opened Reclaimer
  import opened EpochWrap

  /** The idle collector 0 has retired an instance without holding a guard, and never held one. */
  const IDLER: Col := Col(Word(0, true, false), 0, CADENCE, true, 0, [], [Instance(0)], [], None, Idle, 0, 0)

  /** Collector 1, in front of it, has no garbage. */
  function Busy(word: Word, countdown: nat, readers: nat, phase: Phase, epoch: nat, since: nat): Col {
    Col(word, word.epoch, countdown, false, readers, [], [], [], Some(0), phase, epoch, since)
  }

  /** The two collectors are all there is. */
  ghost predicate Two(s: State, d: Col, now: nat, holder: Holder) {
    && s.cols == map[0 := IDLER, 1 := d] && s.epoch == now && s.epoch8 == Wrap(now) && s.holder == holder
    && s.head == Head(Some(1), !holder.Unlocked?, false) && s.chain == [1, 0] && s.teardown == Nobody
  }

  ghost predicate Quiet(s: State, now: nat) {
    1 in s.cols
    && var d := s.cols[1];
       Two(s, Busy(Word(d.announcement, true, false), CADENCE, 0, Idle, d.epoch, d.since), now, Unlocked)
  }

  lemma Enters(s: State, now: nat)
    requires Quiet(s, now)
    ensures Can(s, AEnter(1))
    ensures Two(Do(s, AEnter(1)), Busy(Word(Wrap(now), false, false), CADENCE, 1, Idle, now, s.clock), now, Unlocked)
  {
    hide Wrap;
  }

  lemma Hurries(s: State, w: Word, now: nat, since: nat)
    requires Two(s, Busy(w, CADENCE, 1, Idle, now, since), now, Unlocked) && !w.inactive && !w.invalid
    ensures Can(s, AAccelerate(1)) && Two(Do(s, AAccelerate(1)), Busy(w, 0, 1, Idle, now, since), now, Unlocked)
  {
    hide Wrap;
  }

  lemma Exits(s: State, w: Word, now: nat, since: nat)
    requires Two(s, Busy(w, 0, 1, Idle, now, since), now, Unlocked) && !w.inactive && !w.invalid
    ensures Can(s, AExit(1)) && Two(Do(s, AExit(1)), Busy(w, 0, 0, Locking, now, since), now, Unlocked)
  {
    hide Wrap;
  }

  lemma Locks(s: State, w: Word, now: nat, since: nat)
    requires Two(s, Busy(w, 0, 0, Locking, now, since), now, Unlocked)
    ensures Can(s, ALock(1))
    ensures Two(Do(s, ALock(1)), Busy(w, 0, 0, Scanning(w, None, Some(1), 2), now, since), now, ByScanner(1))
  {
    hide Wrap;
  }

  lemma VisitsItself(s: State, w: Word, now: nat, since: nat)
    requires Two(s, Busy(w, 0, 0, Scanning(w, None, Some(1), 2), now, since), now, ByScanner(1))
    ensures Can(s, AVisit(1))
    ensures Two(Do(s, AVisit(1)), Busy(w, 0, 0, Scanning(w, Some(1), Some(0), 1), now, since), now, ByScanner(1))
  {
    hide Wrap;
  }

  lemma VisitsIdler(s: State, w: Word, now: nat, since: nat)
    requires Two(s, Busy(w, 0, 0, Scanning(w, Some(1), Some(0), 1), now, since), now, ByScanner(1))
    ensures Can(s, AVisit(1))
    ensures Two(Do(s, AVisit(1)), Busy(w, 0, 0, Scanning(w, Some(0), None, 0), now, since), now, ByScanner(1))
  {
    hide Wrap;
  }

  lemma Publishes(s: State, now: nat, since: nat)
    requires var w := Word(Wrap(now), false, false);
      Two(s, Busy(w, 0, 0, Scanning(w, Some(0), None, 0), now, since), now, ByScanner(1))
    ensures Can(s, APublish(1))
    ensures var w := Word(Wrap(now), false, false);
      Two(Do(s, APublish(1)), Busy(w, 0, 0, Releasing, now, since), now + 1, ByScanner(1))
  {
    WrapNext(now);
    hide Wrap, Next;
  }

  lemma Releases(s: State, w: Word, e: nat, now: nat, since: nat)
    requires Two(s, Busy(w, 0, 0, Releasing, e, since), now, ByScanner(1))
    ensures Can(s, ARelease(1)) && Two(Do(s, ARelease(1)), Busy(w, CADENCE, 0, Leaving, e, since), now, Unlocked)
  {
    hide Wrap;
  }

  lemma Leaves(s: State, w: Word, e: nat, now: nat, since: nat)
    requires Two(s, Busy(w, CADENCE, 0, Leaving, e, since), now, Unlocked)
    ensures Can(s, ALeave(1)) && Quiet(Do(s, ALeave(1)), now)
  {
    hide Wrap;
  }

  lemma More(states: seq<State>, actions: seq<Action>, a: Action) returns (states': seq<State>, actions': seq<Action>)
    requires Run(states, actions) && |states| > 0 && Can(states[|states| - 1], a)
    ensures Run(states', actions') && |states'| > 0 && states'[|states'| - 1] == Do(states[|states| - 1], a)
  {
    hide Can, Do;
    var n := |actions|;
    states', actions' := states + [Do(states[n], a)], actions + [a];
    forall i | 0 <= i < |actions'|
      ensures Can(states'[i], actions'[i]) && states'[i + 1] == Do(states'[i], actions'[i])
    {
      if i < n { assert states[i + 1] == Do(states[i], actions[i]); }
    }
  }

  /** One guard of collector 1 moves the epoch by one. */
  lemma Cycle(states: seq<State>, actions: seq<Action>, now: nat) returns (states': seq<State>, actions': seq<Action>)
    requires Run(states, actions) && |states| > 0 && Quiet(states[|states| - 1], now)
    ensures Run(states', actions') && |states'| > 0 && Quiet(states'[|states'| - 1], now + 1)
  {
    hide *;
    var w, since := Word(Wrap(now), false, false), states[|states| - 1].clock;
    Enters(states[|states| - 1], now);
    states', actions' := More(states, actions, AEnter(1));
    Hurries(states'[|states'| - 1], w, now, since);
    states', actions' := More(states', actions', AAccelerate(1));
    Exits(states'[|states'| - 1], w, now, since);
    states', actions' := More(states', actions', AExit(1));
    Locks(states'[|states'| - 1], w, now, since);
    states', actions' := More(states', actions', ALock(1));
    VisitsItself(states'[|states'| - 1], w, now, since);
    states', actions' := More(states', actions', AVisit(1));
    VisitsIdler(states'[|states'| - 1], w, now, since);
    states', actions' := More(states', actions', AVisit(1));
    Publishes(states'[|states'| - 1], now, since);
    states', actions' := More(states', actions', APublish(1));
    Releases(states'[|states'| - 1], w, now, now + 1, since);
    states', actions' := More(states', actions', ARelease(1));
    Leaves(states'[|states'| - 1], w, now, now + 1, since);
    states', actions' := More(states', actions', ALeave(1));
  }

  lemma {:induction false} Reach(now: nat) returns (states: seq<State>, actions: seq<Action>)
    ensures Run(states, actions) && |states| > 0 && Quiet(states[|states| - 1], now)
  {
    hide *;
    if now == 0 {
      states, actions := Start();
    } else {
      states, actions := Reach(now - 1);
      states, actions := Cycle(states, actions, now - 1);
    }
  }

  /** Only collector 0 is there. */
  ghost predicate One(s: State, col: Col, head: Option<CollectorId>, chain: seq<CollectorId>) {
    && s.cols == map[0 := col] && s.epoch == 0 && s.epoch8 == 0 && s.holder == Unlocked
    && s.head == Head(head, false, false) && s.chain == chain && s.teardown == Nobody && Record(1) !in s.info
  }

  function Linked(current: seq<Item>): Col {
    Col(Word(0, true, false), 0, CADENCE, current != [], 0, [], current, [], None, Idle, 0, 0)
  }

  lemma Allocates()
    ensures Can(INITIAL, AAlloc(0))
    ensures var s := Do(INITIAL, AAlloc(0));
      One(s, NewCol(INITIAL.head), None, []) && s.info.Keys == {Record(0)}
  {}

  lemma Links(s: State)
    requires One(s, NewCol(INITIAL.head), None, []) && s.info.Keys == {Record(0)}
    ensures Can(s, ALinkHead(0))
    ensures var s' := Do(s, ALinkHead(0)); One(s', Linked([]), Some(0), [0]) && s'.info.Keys == {Record(0)}
  {}

  lemma Creates(s: State)
    requires One(s, Linked([]), Some(0), [0]) && s.info.Keys == {Record(0)}
    ensures Can(s, ACreate(0))
    ensures var s' := Do(s, ACreate(0));
      One(s', Linked([]), Some(0), [0]) && Instance(0) in s'.info && s'.info[Instance(0)].loc.Home?
  {}

  lemma Retires(s: State)
    requires One(s, Linked([]), Some(0), [0]) && Instance(0) in s.info && s.info[Instance(0)].loc.Home?
    ensures Can(s, ARetire(0, 0)) && One(Do(s, ARetire(0, 0)), IDLER, Some(0), [0])
  {
    assert CollectCol(Linked([]), Instance(0)) == IDLER by { assert [Instance(0)] + [] == [Instance(0)]; }
  }

  lemma AllocatesSecond(s: State)
    requires One(s, IDLER, Some(0), [0])
    ensures Can(s, AAlloc(1))
    ensures var s' := Do(s, AAlloc(1));
      && s'.cols == map[0 := IDLER, 1 := NewCol(s.head)] && s'.epoch == 0 && s'.epoch8 == 0 && s'.holder == Unlocked
      && s'.head == Head(Some(0), false, false) && s'.chain == [0] && s'.teardown == Nobody && Record(1) in s'.info
  {}

  lemma LinksSecond(s: State)
    requires s.cols == map[0 := IDLER, 1 := NewCol(s.head)] && s.epoch == 0 && s.epoch8 == 0 && s.holder == Unlocked
    requires s.head == Head(Some(0), false, false) && s.chain == [0] && s.teardown == Nobody && Record(1) in s.info
    ensures Can(s, ALinkHead(1)) && Quiet(Do(s, ALinkHead(1)), 0)
  {
    var d := s.cols[1].(phase := Idle);
    assert s.cols[1 := d] == map[0 := IDLER, 1 := d];
  }

  /** Two collectors are allocated, and the first retires an instance. */
  lemma Start() returns (states: seq<State>, actions: seq<Action>)
    ensures Run(states, actions) && |states| > 0 && Quiet(states[|states| - 1], 0)
  {
    hide Can, Do, NewCol, Quiet, One;
    states, actions := [INITIAL], [];
    Allocates();
    states, actions := More(states, actions, AAlloc(0));
    Links(states[|states| - 1]);
    states, actions := More(states, actions, ALinkHead(0));
    Creates(states[|states| - 1]);
    states, actions := More(states, actions, ACreate(0));
    Retires(states[|states| - 1]);
    states, actions := More(states, actions, ARetire(0, 0));
    AllocatesSecond(states[|states| - 1]);
    states, actions := More(states, actions, AAlloc(1));
    LinksSecond(states[|states| - 1]);
    states, actions := More(states, actions, ALinkHead(1));
  }

  /** After 64 epochs the idle collector looks up to date: it may enter a guard, and its rotation is
      skipped although it has garbage. */
  lemma WrappedReached() returns (states: seq<State>, actions: seq<Action>)
    ensures Run(states, actions) && |states| > 0
    ensures var s := states[|states| - 1];
      Wrapped(s, 0) && Can(s, AEnter(0)) && s.cols[0].hasGarbage && Do(s, AEnter(0)).cols[0].phase.Idle?
  {
    states, actions := Reach(64);
    hide Run;
  }
}
