/** The collector chain: who may leave it, what concurrent allocation cannot disturb, and that no
    thread is ever stuck in the middle of an operation. */
module ReclaimerChain {
  import opened Base
  import opened Epochs
  import opened Reclaimer
  import opened ReclaimerShape
  import opened ReclaimerGarbage
  import opened ReclaimerGrace
  import opened ReclaimerSafety
  import opened ReclaimerRuns
  import opened ReclaimerTheorems

  predicate ChangesChain(a: Action) { a.ALinkHead? || a.AUnlink? || a.AClearSwap? }

  lemma ChainKept(s: State, a: Action)
    requires Can(s, a) && !ChangesChain(a)
    ensures Do(s, a).chain == s.chain
  {
    hide EnterCol, ExitCol, VisitPhase, Drop, Move, Lose, FailCol, Lists;
  }

  /** `k` is in front of `l`. */
  ghost predicate Before(chain: seq<CollectorId>, k: CollectorId, l: CollectorId) {
    exists i, j :: 0 <= i < j < |chain| && chain[i] == k && chain[j] == l
  }

  lemma BeforePush(chain: seq<CollectorId>, new_: CollectorId, k: CollectorId, l: CollectorId)
    requires Before(chain, k, l)
    ensures Before([new_] + chain, k, l)
  {
    var i, j :| 0 <= i < j < |chain| && chain[i] == k && chain[j] == l;
    assert ([new_] + chain)[i + 1] == k && ([new_] + chain)[j + 1] == l;
  }

  lemma BeforeWithout(chain: seq<CollectorId>, left: nat, k: CollectorId, l: CollectorId)
    requires 0 < left <= |chain| && Before(chain, k, l) && k != chain[|chain| - left] && l != chain[|chain| - left]
    ensures Before(Without(chain, left), k, l)
  {
    var i, j :| 0 <= i < j < |chain| && chain[i] == k && chain[j] == l;
    WithoutAt(chain, left);
    hide Without;
    var p := |chain| - left;
    var i', j' := if i < p then i else i - 1, if j < p then j else j - 1;
    assert Without(chain, left)[i'] == k && Without(chain, left)[j'] == l;
  }

  ghost predicate Unique(chain: seq<CollectorId>) {
    forall i, j :: 0 <= i < j < |chain| ==> chain[i] != chain[j]
  }

  lemma UnlinkChain(s: State, c: CollectorId, k: CollectorId, l: CollectorId)
    requires CanUnlink(s, c) && s.cols[c].phase.left <= |s.chain|
    ensures var left := s.cols[c].phase.left; var w := Without(s.chain, left);
      && (k in s.chain && k !in w ==> k == s.chain[|s.chain| - left])
      && (k in w ==> k in s.chain)
      && (Unique(s.chain) && Before(s.chain, k, l) && k in w && l in w ==> Before(w, k, l))
  {
    var left := s.cols[c].phase.left;
    WithoutAt(s.chain, left);
    hide Without;
    if Unique(s.chain) && Before(s.chain, k, l) && k in Without(s.chain, left) && l in Without(s.chain, left) {
      BeforeWithout(s.chain, left, k, l);
    }
  }

  /** The contract of `ChainStep`, for one case at a time. */
  ghost predicate ChainMoves(s: State, t: State, a: Action, k: CollectorId, l: CollectorId) {
    && (k in s.chain && k !in t.chain ==> k in s.cols && IsInvalid(s.cols[k].word) && (a.AUnlink? || a.AClearSwap?))
    && (Before(s.chain, k, l) && k in t.chain && l in t.chain ==> Before(t.chain, k, l))
    && (k in t.chain && k !in s.chain ==> a == ALinkHead(k) && t.chain == [k] + s.chain)
  }

  lemma LinkMoves(s: State, c: CollectorId, k: CollectorId, l: CollectorId)
    requires CanLink(s, c)
    ensures ChainMoves(s, LinkHead(s, c), ALinkHead(c), k, l)
  {
    hide Before;
    if Before(s.chain, k, l) { BeforePush(s.chain, c, k, l); }
  }

  lemma AdoptMoves(s: State, c: CollectorId, k: CollectorId, l: CollectorId)
    requires Shape(s) && CanUnlink(s, c) && !HeadMoved(s, s.cols[c].phase)
    ensures ChainMoves(s, Adopt(s, c), AUnlink(c), k, l)
  {
    OfCollector(s, c);
    AdoptCase(s, c);
    AdoptWord(s, c, c);
    UnlinkChain(s, c, k, l);
    UniqueChain(s);
    hide Adopt, Before, Without, Shape, ScanOk, LockOk, ColOk, CanUnlink;
  }

  lemma UniqueChain(s: State)
    requires Shape(s)
    ensures Unique(s.chain)
  {
    hide ColsOk, Homes, LockOk, ScansOk, TeardownOk;
  }

  lemma SwapMoves(s: State, k: CollectorId, l: CollectorId)
    requires Shape(s) && CanClearSwap(s)
    ensures ChainMoves(s, ClearSwap(s), AClearSwap, k, l)
  {
    if s.head.ptr == s.teardown.first { AllInvalid(s); }
    hide Before, Shape;
  }

  lemma ChainChange(s: State, a: Action, k: CollectorId, l: CollectorId)
    requires Shape(s) && Can(s, a) && ChangesChain(a)
    ensures ChainMoves(s, Do(s, a), a, k, l)
  {
    hide Shape, ChainMoves;
    match a
    case ALinkHead(c) => LinkMoves(s, c, k, l);
    case AUnlink(c) =>
      if HeadMoved(s, s.cols[c].phase) {
        Unchanged(s, Unlink(s, c), a, k, l);
      } else {
        AdoptMoves(s, c, k, l);
      }
    case AClearSwap => SwapMoves(s, k, l);
  }

  lemma Unchanged(s: State, t: State, a: Action, k: CollectorId, l: CollectorId)
    requires t.chain == s.chain
    ensures ChainMoves(s, t, a, k, l)
  {
    hide Before;
  }

  /** One step on the chain: a collector is pushed in front, one INVALID collector is taken out, or
      all are when all are INVALID.  Whatever stays keeps its order. */
  lemma ChainStep(s: State, a: Action, k: CollectorId, l: CollectorId)
    requires Inv(s) && Can(s, a)
    ensures k in s.chain && k !in Do(s, a).chain ==>
      k in s.cols && IsInvalid(s.cols[k].word) && (a.AUnlink? || a.AClearSwap?)
    ensures Before(s.chain, k, l) && k in Do(s, a).chain && l in Do(s, a).chain ==> Before(Do(s, a).chain, k, l)
    ensures k in Do(s, a).chain && k !in s.chain ==> a == ALinkHead(k) && Do(s, a).chain == [k] + s.chain
  {
    hide Shape, Garbage, Grace, Can, Do, Before;
    if ChangesChain(a) {
      ChainChange(s, a, k, l);
    } else {
      ChainKept(s, a);
    }
  }

  /** A collector linked by `alloc` stays in the chain, whatever scans do, until it is INVALID. */
  lemma {:induction false} NeverLost(states: seq<State>, actions: seq<Action>, j: nat, k: nat, c: CollectorId)
    requires Run(states, actions) && j <= k < |states| && c in states[j].chain
    requires forall m :: j <= m <= k ==> c in states[m].cols && !IsInvalid(states[m].cols[c].word)
    ensures c in states[k].chain
  {
    hide Inv, Run, Can, Do, Before;
    if j < k {
      NeverLost(states, actions, j, k - 1, c);
      RunInv(states, actions, k - 1);
      RunStep(states, actions, k - 1);
      ChainStep(states[k - 1], actions[k - 1], c, c);
    }
  }

  /** At most one thread is in a section protected by the chain lock. */
  lemma MutualExclusion(states: seq<State>, actions: seq<Action>, i: nat, c: CollectorId, d: CollectorId)
    requires Run(states, actions) && i < |states| && c in states[i].cols && d in states[i].cols
    ensures HoldsLock(states[i].cols[c].phase) ==> states[i].head.lock && states[i].teardown.Nobody?
    ensures HoldsLock(states[i].cols[c].phase) && HoldsLock(states[i].cols[d].phase) ==> c == d
    ensures !states[i].teardown.Nobody? ==> states[i].head.lock
  {
    RunInv(states, actions, i);
    hide Run, ColsOk, Linked, Homes, ScansOk, TeardownOk, Garbage, Grace;
  }

  /** Following the links from the head visits every collector in use, and no other than those in
      use or INVALID. */
  lemma ChainIsComplete(states: seq<State>, actions: seq<Action>, i: nat, c: CollectorId)
    requires Run(states, actions) && i < |states| && c in states[i].cols
    ensures Linked(states[i])
    ensures !states[i].cols[c].phase.Allocating? && !IsInvalid(states[i].cols[c].word) ==> c in states[i].chain
    ensures c in states[i].chain ==> !states[i].cols[c].phase.Allocating?
  {
    RunInv(states, actions, i);
    hide Run, ColsOk, Linked, LockOk, ScansOk, TeardownOk, Garbage, Grace;
  }

  lemma SwapClears(s: State, c: CollectorId)
    requires Shape(s) && Can(s, AClearSwap) && Do(s, AClearSwap).teardown.Clearing? && c in s.cols
    ensures !Active(s.cols[c]) && (c in s.chain ==> IsInvalid(s.cols[c].word))
  {
    hide Shape;
    AllInvalid(s);
  }

  /** When `clear_chain` detaches the chain, no thread is inside a guard. */
  lemma ClearedUnread(states: seq<State>, actions: seq<Action>, i: nat, c: CollectorId)
    requires Run(states, actions) && i < |actions| && actions[i].AClearSwap?
    requires states[i + 1].teardown.Clearing? && c in states[i].cols
    ensures !Active(states[i].cols[c]) && (c in states[i].chain ==> IsInvalid(states[i].cols[c].word))
  {
    hide Can, Do, Inv;
    RunStep(states, actions, i);
    RunInv(states, actions, i);
    InvShape(states[i]);
    hide Run;
    SwapClears(states[i], c);
  }

  // ---------------------------------------------------------------- no dead ends

  /** The enabling conditions of the machine never block a thread in the middle of an operation. */
  lemma NeverStuck(states: seq<State>, actions: seq<Action>, i: nat, c: CollectorId)
    requires Run(states, actions) && i < |states| && c in states[i].cols
    ensures var s := states[i]; match s.cols[c].phase
      case Allocating(_) => CanRelink(s, c)
      case Idle => true
      case Draining(inner, outer) => CanDrain(s, c) || CanFinishDrain(s, c)
      case Locking => CanLock(s, c)
      case Scanning(_, _, cur, _) => if cur.Some? then CanVisit(s, c) else CanPublish(s, c)
      case Unlinking(_, _, _, _, _) => CanUnlink(s, c)
      case Releasing => CanRelease(s, c)
      case Leaving => CanLeave(s, c)
  {
    var s := states[i];
    RunInv(states, actions, i);
    hide Run, Shape, Garbage, Grace;
    OfCollector(s, c);
    if s.cols[c].phase.Draining? {
      DrainNeverStuck(s, c);
    } else {
      InvShape(s);
      ScanNeverStuck(s, c);
    }
  }

  lemma ScanNeverStuck(s: State, c: CollectorId)
    requires Shape(s) && c in s.cols
    ensures s.cols[c].phase.Scanning? ==> if s.cols[c].phase.cur.Some? then CanVisit(s, c) else CanPublish(s, c)
    ensures s.cols[c].phase.Unlinking? ==> CanUnlink(s, c)
  {
    OfCollector(s, c);
    hide ColsOk, Homes, LockOk, ScansOk, TeardownOk, CaughtUp;
  }

  lemma DrainNeverStuck(s: State, c: CollectorId)
    requires Inv(s) && c in s.cols && s.cols[c].phase.Draining?
    ensures CanDrain(s, c) || CanFinishDrain(s, c)
  {
    var p := s.cols[c].phase;
    InvShape(s);
    if p.inner != [] || p.outer != [] {
      assert Victim(p) in Doomed(p) by { RestHeld(p); }
      hide Shape, Garbage, Grace;
      Owned(s, c, Victim(p));
      if Victim(p).Record? { KnownRecord(s, Victim(p).k); }
    }
  }

  lemma KnownRecord(s: State, k: CollectorId)
    requires Shape(s) && Record(k) in s.info
    ensures k in s.cols
  {}

  /** Nor does it block `clear_chain`. */
  lemma TeardownNeverStuck(states: seq<State>, actions: seq<Action>, i: nat)
    requires Run(states, actions) && i < |states|
    ensures var s := states[i]; match s.teardown
      case Nobody => true
      case Checking(_, cur, _, _) => if cur.Some? then CanClearCheck(s) else CanClearSwap(s)
      case Clearing(dump) => CanClearDrop(s) || CanClearUnlock(s)
      case GivingUp => CanClearUnlock(s)
  {
    var s := states[i];
    RunInv(states, actions, i);
    hide Run, Garbage, Grace;
    if s.teardown.Clearing? && s.teardown.dump != [] {
      DumpNeverStuck(s);
      hide Shape;
    } else {
      hide ColsOk, Homes, LockOk, ScansOk, AllInvalidIn;
    }
  }

  lemma DumpNeverStuck(s: State)
    requires Inv(s) && s.teardown.Clearing? && s.teardown.dump != []
    ensures CanClearDrop(s)
  {
    var x := s.teardown.dump[0];
    assert x in Dump(s.teardown);
    assert Tally(Dump(s.teardown), s.info, Dumped);
    InvShape(s);
    hide Shape, Garbage, Grace;
    TallyIn(Dump(s.teardown), s.info, Dumped, x);
    if x.Record? { KnownRecord(s, x.k); }
  }
}
