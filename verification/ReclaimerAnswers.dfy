/** What the other steps of the reclaimer do for their callers. */
module ReclaimerAnswers {
  import opened Base
  import opened Epochs
  import opened Reclaimer
  import opened ReclaimerShape
  import opened ReclaimerGarbage
  import opened ReclaimerGrace
  import opened ReclaimerSafety
  import opened ReclaimerRuns
  import opened ReclaimerChain
  import opened ReclaimerTheorems
  import RS = ReclaimerScan

  ghost predicate OnlyChanges(s: State, t: State, c: CollectorId) {
    c in s.cols && c in t.cols && t.cols == s.cols[c := t.cols[c]] && t.chain == s.chain && t.head == s.head
  }

  // ---------------------------------------------------------------- guards

  /** A new guard announces the global epoch.  If that is new to the collector and it has garbage, the lists
      rotate, what was in the oldest one is about to be dropped, and the flag says whether garbage is left. */
  ghost predicate Enters(s: State, t: State, c: CollectorId) {
    && OnlyChanges(s, t, c)
    && var a, b := s.cols[c], t.cols[c];
       && Active(b) && !IsInvalid(b.word) && b.word.epoch == b.announcement == s.epoch8 && b.readers == 1
       && (if a.announcement != s.epoch8 && a.hasGarbage
           then b.phase == Draining([], a.next) && b.next == a.previous && b.previous == a.current && b.current == []
                && (b.hasGarbage <==> a.previous != [] || a.current != []) && (b.hasGarbage <==> Lists(b) != [])
           else b.phase.Idle? && b.next == a.next && b.previous == a.previous && b.current == a.current
                && b.hasGarbage == a.hasGarbage
                && b.countdown == if a.announcement == s.epoch8 then a.countdown else CADENCE)
  }

  lemma EnterAnswers(s: State, c: CollectorId)
    requires Can(s, AEnter(c))
    ensures Enters(s, Do(s, AEnter(c)), c)
  {}

  /** The end of an outermost guard: a scan is due exactly if the countdown has run out; otherwise it moves on
      exactly if there is garbage or somebody asks for scans. */
  ghost predicate Exits(s: State, t: State, c: CollectorId) {
    && OnlyChanges(s, t, c)
    && var a, b := s.cols[c], t.cols[c];
       && b.readers == 0 && b.word == a.word
       && b.previous == a.previous && b.current == a.current && b.next == a.next && b.hasGarbage == a.hasGarbage
       && if a.countdown == 0 then b.phase.Locking?
          else b.phase.Leaving? && b.countdown ==
                 if a.hasGarbage || (s.head.mark && !s.head.lock) then a.countdown - 1 else a.countdown
  }

  lemma ExitAnswers(s: State, c: CollectorId)
    requires Can(s, AExit(c))
    ensures Exits(s, Do(s, AExit(c)), c)
  {}

  /** The guard is gone: the collector is inactive, its thread has no pointers any more, and others keep
      theirs. */
  ghost predicate Leaves(s: State, t: State, c: CollectorId) {
    && OnlyChanges(s, t, c) && t.cols[c] == s.cols[c].(phase := Idle, word := t.cols[c].word)
    && t.cols[c].word == Word(s.cols[c].announcement, true, false)
    && forall d, o :: (d, o) in t.holds <==> (d, o) in s.holds && d != c
  }

  lemma LeaveAnswers(s: State, c: CollectorId)
    requires Can(s, ALeave(c))
    ensures Leaves(s, Do(s, ALeave(c)), c)
  {}

  lemma {:induction false} ReverseAt(items: seq<Item>, i: nat)
    requires i < |items|
    ensures |Reverse(items)| == |items| && Reverse(items)[i] == items[|items| - 1 - i]
  {
    if |items| > 1 { ReverseAt(items[1..], if i < |items| - 1 then i else 0); }
  }

  lemma Reversed(items: seq<Item>)
    ensures |Reverse(items)| == |items| && forall i :: 0 <= i < |items| ==> Reverse(items)[i] == items[|items| - 1 - i]
  {
    forall i | 0 <= i < |items|
      ensures |Reverse(items)| == |items| && Reverse(items)[i] == items[|items| - 1 - i]
    {
      ReverseAt(items, i);
    }
    assert items == [] ==> Reverse(items) == [];
  }

  /** A destructor has failed: what had not been dropped yet is collected again, the last item first, and only
      that can set the flag; the countdown is not reset. */
  ghost predicate Fails(s: State, t: State, c: CollectorId) {
    && OnlyChanges(s, t, c) && s.cols[c].phase.Draining? && (s.cols[c].phase.inner != [] || s.cols[c].phase.outer != [])
    && var a, b := s.cols[c], t.cols[c];
       var left := if a.phase.inner != [] then a.phase.outer else a.phase.outer[1..];
       && |b.current| == |left| + |a.current|
       && (forall i :: 0 <= i < |left| ==> b.current[i] == left[|left| - 1 - i]) && b.current[|left|..] == a.current
       && (b.hasGarbage <==> a.hasGarbage || left != []) && b.phase.Idle?
       && b.previous == a.previous && b.next == a.next && b.countdown == a.countdown
  }

  lemma FailAnswers(s: State, c: CollectorId)
    requires Can(s, AFailDrain(c))
    ensures Fails(s, Do(s, AFailDrain(c)), c)
  {
    var a := s.cols[c];
    var b, left := FailCol(a), Rest(a.phase).outer;
    Reversed(left);
    assert b.current == Reverse(left) + a.current;
    assert b.current[|left|..] == a.current;
    hide Move, Lose, Drop, Reverse;
  }

  // ---------------------------------------------------------------- retirement

  ghost predicate Retires(s: State, t: State, c: CollectorId, o: InstanceId) {
    && OnlyChanges(s, t, c)
    && t.cols[c] == s.cols[c].(current := [Instance(o)] + s.cols[c].current, hasGarbage := true)
    && t.holds == s.holds && Instance(o) in t.info && Retired(t.info[Instance(o)])
  }

  lemma RetireAnswers(s: State, c: CollectorId, o: InstanceId)
    requires Can(s, ARetire(c, o))
    ensures Retires(s, Do(s, ARetire(c, o)), c, o)
  {}

  lemma LoadNeeds(s: State, d: CollectorId, o: InstanceId)
    requires Can(s, ALoad(d, o))
    ensures Instance(o) in s.info && s.info[Instance(o)].loc.Home?
  {}

  /** Once retired, an instance is never found again, by any reader. */
  lemma RetiredIsUnreachable(
      states: seq<State>, actions: seq<Action>, i: nat, j: nat, c: CollectorId, d: CollectorId, o: InstanceId)
    requires Run(states, actions) && i < j < |actions| && actions[i] == ARetire(c, o)
    ensures actions[j] != ALoad(d, o)
  {
    hide Run, Can, Do, OnlyChanges;
    RS.RunLength(states, actions);
    RunStep(states, actions, i);
    RetireAnswers(states[i], c, o);
    RunRetired(states, actions, i + 1, j, Instance(o));
    RunStep(states, actions, j);
    if actions[j] == ALoad(d, o) { LoadNeeds(states[j], d, o); }
  }

  // ---------------------------------------------------------------- allocation and hints

  /** A new collector is pushed in front, at rest and not in use. */
  ghost predicate Links(s: State, t: State, k: CollectorId) {
    && k in s.cols && k in t.cols && t.cols == s.cols[k := s.cols[k].(phase := Idle)]
    && t.chain == [k] + s.chain && t.head == s.head.(ptr := Some(k))
  }

  lemma LinkAnswers(s: State, k: CollectorId)
    requires Can(s, ALinkHead(k))
    ensures Links(s, Do(s, ALinkHead(k)), k)
  {}

  /** The one-word effects: nested guards, the two hints, giving up a collector, asking for scans. */
  ghost predicate Marks(s: State, t: State, a: Action) {
    match a
    case ANest(c) => c in s.cols && t == s.(cols := s.cols[c := s.cols[c].(readers := s.cols[c].readers + 1)])
    case AUnnest(c) =>
      c in s.cols && s.cols[c].readers > 1
      && t == s.(cols := s.cols[c := s.cols[c].(readers := s.cols[c].readers - 1)])
    case AAccelerate(c) => c in s.cols && t == s.(cols := s.cols[c := s.cols[c].(countdown := 0)])
    case ASetHasGarbage(c) => c in s.cols && t == s.(cols := s.cols[c := s.cols[c].(hasGarbage := true)])
    case AInvalidate(c) =>
      c in s.cols && t == s.(cols := s.cols[c := s.cols[c].(word := s.cols[c].word.(invalid := true))])
    case AMark => t == s.(head := s.head.(mark := true))
    case _ => true
  }

  lemma MarkAnswers(s: State, a: Action)
    requires Can(s, a)
    ensures Marks(s, Do(s, a), a)
  {
    hide *;
    if a.ANest? || a.AUnnest? || a.AAccelerate? || a.ASetHasGarbage? || a.AInvalidate? || a.AMark? {
      MarksOne(s, a);
    } else {
      MarksNone(s, Do(s, a), a);
    }
  }

  lemma MarksOne(s: State, a: Action)
    requires Can(s, a) && (a.ANest? || a.AUnnest? || a.AAccelerate? || a.ASetHasGarbage? || a.AInvalidate? || a.AMark?)
    ensures Marks(s, Do(s, a), a)
  {}

  lemma MarksNone(s: State, t: State, a: Action)
    requires !(a.ANest? || a.AUnnest? || a.AAccelerate? || a.ASetHasGarbage? || a.AInvalidate? || a.AMark?)
    ensures Marks(s, t, a)
  {}

  // ---------------------------------------------------------------- clearing the chain

  /** `clear_chain` looks at one collector: it gives up exactly if that is not INVALID. */
  ghost predicate Checks(s: State, t: State) {
    && s.teardown.Checking? && 0 < s.teardown.left <= |s.chain|
    && var k := s.chain[|s.chain| - s.teardown.left];
       && k in s.cols && t == s.(teardown := t.teardown)
       && if IsInvalid(s.cols[k].word)
          then t.teardown.Checking? && t.teardown.left == s.teardown.left - 1
          else t.teardown.GivingUp?
  }

  /** It detaches the chain exactly if the head has not moved; all its collectors are to be dropped. */
  ghost predicate Swaps(s: State, t: State) {
    && s.teardown.Checking? && s.teardown.left == 0
    && if s.teardown.total == |s.chain|
       then t.chain == [] && t.head.ptr == None && t.teardown == Clearing(Records(s.chain)) && t.cols == s.cols
            && forall k :: k in s.chain ==> Record(k) in t.info && t.info[Record(k)].loc.Dumped?
       else t == s.(teardown := GivingUp)
  }

  lemma ClearCheckIs(s: State)
    requires Can(s, AClearCheck)
    ensures CanClearCheck(s) && Do(s, AClearCheck) == ClearCheck(s)
  {
    hide ClearCheck, CanClearCheck;
  }

  lemma ClearSwapIs(s: State)
    requires Can(s, AClearSwap)
    ensures CanClearSwap(s) && Do(s, AClearSwap) == ClearSwap(s)
  {
    hide ClearSwap, CanClearSwap;
  }

  lemma ChecksOne(s: State)
    requires Shape(s) && CanClearCheck(s)
    ensures Checks(s, ClearCheck(s))
  {
    hide ColsOk, Linked, Homes, LockOk, ScansOk, AllInvalidIn;
  }

  lemma ClearCheckAnswers(s: State)
    requires Inv(s) && Can(s, AClearCheck)
    ensures Checks(s, Do(s, AClearCheck))
  {
    hide *;
    InvShape(s);
    ClearCheckIs(s);
    ChecksOne(s);
  }

  lemma SwapsAll(s: State)
    requires TeardownOk(s) && Linked(s) && CanClearSwap(s)
    requires forall k :: k in s.chain ==> Record(k) in s.info
    ensures Swaps(s, ClearSwap(s))
  {
    hide AllInvalidIn, Records;
  }

  lemma ShapeTeardown(s: State)
    requires Shape(s)
    ensures TeardownOk(s) && Linked(s) && Homes(s)
  {
    hide Linked, ColsOk, Homes, LockOk, ScansOk, TeardownOk;
  }

  lemma ClearSwapAnswers(s: State)
    requires Inv(s) && Can(s, AClearSwap)
    ensures Swaps(s, Do(s, AClearSwap))
  {
    hide *;
    InvShape(s);
    ClearSwapIs(s);
    ShapeTeardown(s);
    ChainHomes(s);
    SwapsAll(s);
  }

  predicate Clears(a: Action) { a.AClearLock? || a.AClearCheck? || a.AClearSwap? || a.AClearDrop? || a.AClearUnlock? }

  lemma TeardownKept(s: State, a: Action)
    requires Can(s, a) && !Clears(a)
    ensures Do(s, a).teardown == s.teardown
  {
    hide EnterCol, ExitCol, VisitPhase, Drop, Move, Lose, FailCol, Lists;
  }

  lemma CheckingOnly(s: State, a: Action)
    requires Can(s, a) && Clears(a) && s.teardown.Checking?
    ensures a.AClearCheck? || a.AClearSwap?
  {
    hide CanClearCheck, CanClearSwap;
  }

  lemma UnlinkerHolds(s: State, a: Action)
    requires Shape(s) && Can(s, a) && a.AUnlink?
    ensures s.teardown.Nobody?
  {
    hide *;
    RS.UnlinkerHolds(s, a);
    RS.NoTeardown(s, a.c);
  }

  /** `clear_chain` is at work, on a chain that has not changed since, all of it INVALID. */
  ghost predicate AllGiven(s: State, chain: seq<CollectorId>) {
    && s.teardown.Checking? && s.chain == chain && s.teardown.total == |chain|
    && forall k :: k in chain ==> k in s.cols && IsInvalid(s.cols[k].word)
  }

  lemma GivenKept(s: State, a: Action, chain: seq<CollectorId>)
    requires Inv(s) && Can(s, a) && AllGiven(s, chain) && Do(s, a).chain == s.chain && Do(s, a).teardown == s.teardown
    ensures AllGiven(Do(s, a), chain)
  {
    hide Inv, Can, Do, IsInvalid;
    forall k | k in chain
      ensures k in Do(s, a).cols && IsInvalid(Do(s, a).cols[k].word)
    {
      RS.InvalidStays(s, a, k);
    }
  }

  lemma GivenChecks(s: State, t: State, chain: seq<CollectorId>)
    requires AllGiven(s, chain) && Checks(s, t)
    requires t.teardown.Checking? ==> t.teardown.total == s.teardown.total
    ensures AllGiven(t, chain)
  {}

  lemma CheckTotal(s: State)
    requires Can(s, AClearCheck) && Do(s, AClearCheck).teardown.Checking?
    ensures Do(s, AClearCheck).teardown.total == s.teardown.total
  {}

  lemma GivenSwaps(s: State, t: State, chain: seq<CollectorId>)
    requires AllGiven(s, chain) && Swaps(s, t)
    ensures t.chain == [] && t.teardown == Clearing(Records(chain))
  {
    hide Records;
  }

  /** One step on such a chain: the work goes on, or the whole chain is detached. */
  lemma GivenStep(s: State, a: Action, chain: seq<CollectorId>)
    requires Inv(s) && Can(s, a) && AllGiven(s, chain) && !a.ALinkHead?
    ensures AllGiven(Do(s, a), chain) || (Do(s, a).chain == [] && Do(s, a).teardown == Clearing(Records(chain)))
  {
    hide *;
    InvShape(s);
    GivenIs(s, chain);
    if Clears(a) {
      CheckingOnly(s, a);
      if a.AClearSwap? {
        ClearSwapAnswers(s);
        GivenSwaps(s, Do(s, a), chain);
      } else {
        ClearCheckAnswers(s);
        if Do(s, a).teardown.Checking? { CheckTotal(s); }
        GivenChecks(s, Do(s, a), chain);
      }
    } else {
      TeardownKept(s, a);
      if a.AUnlink? { UnlinkerHolds(s, a); }
      ClearsIs(a);
      RS.ChangesIs(a);
      RS.KeptChain(s, a);
      GivenKept(s, a, chain);
    }
  }

  lemma ClearsIs(a: Action)
    ensures a.AClearSwap? ==> Clears(a)
  {}

  lemma GivenIs(s: State, chain: seq<CollectorId>)
    requires AllGiven(s, chain)
    ensures s.teardown.Checking? && s.chain == chain
  {}

  lemma ClearLockAnswers(s: State)
    requires Can(s, AClearLock) && forall k :: k in s.chain ==> k in s.cols && IsInvalid(s.cols[k].word)
    ensures AllGiven(Do(s, AClearLock), s.chain)
  {}

  lemma {:induction false} GivenAlong(states: seq<State>, actions: seq<Action>, i: nat, j: nat, chain: seq<CollectorId>)
    requires Run(states, actions) && i <= j < |states| && j <= |actions| && AllGiven(states[i], chain)
    requires forall n :: i <= n < j ==> !actions[n].ALinkHead?
    requires forall n :: i <= n <= j ==> states[n].teardown.Checking?
    ensures AllGiven(states[j], chain)
  {
    hide Run, Inv, Can, Do, AllGiven;
    if i < j {
      GivenAlong(states, actions, i, j - 1, chain);
      RunStep(states, actions, j - 1);
      RunInv(states, actions, j - 1);
      GivenStep(states[j - 1], actions[j - 1], chain);
    }
  }

  /** If all collectors are INVALID when `clear_chain` takes the lock, and none is linked meanwhile, it does not
      give up: it detaches the chain, and all its collectors are next to be dropped. */
  lemma ClearsTheChain(states: seq<State>, actions: seq<Action>, i: nat, j: nat)
    requires Run(states, actions) && i < j < |actions| && actions[i] == AClearLock
    requires forall k :: k in states[i].chain ==> k in states[i].cols && IsInvalid(states[i].cols[k].word)
    requires forall n :: i <= n <= j ==> !actions[n].ALinkHead?
    requires forall n :: i < n <= j ==> states[n].teardown.Checking?
    requires !states[j + 1].teardown.Checking?
    ensures states[j + 1].chain == [] && states[j + 1].teardown == Clearing(Records(states[i].chain))
  {
    hide Run, Inv, Can, Do, AllGiven, IsInvalid, Records;
    RS.RunLength(states, actions);
    RunStep(states, actions, i);
    ClearLockAnswers(states[i]);
    GivenAlong(states, actions, i + 1, j, states[i].chain);
    RunStep(states, actions, j);
    RunInv(states, actions, j);
    GivenStep(states[j], actions[j], states[i].chain);
    if AllGiven(states[j + 1], states[i].chain) { GivenIs(states[j + 1], states[i].chain); }
  }
}
