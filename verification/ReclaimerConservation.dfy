/** Conservation of garbage, the chain, and the absence of dead ends, for every reachable state. */
module ReclaimerConservation {
  import opened Base
  import opened Epochs
  import opened Reclaimer
  import opened ReclaimerShape
  import opened ReclaimerGarbage
  import opened ReclaimerGrace
  import opened ReclaimerSafety
  import opened ReclaimerRuns
  import opened ReclaimerTheorems

  // ---------------------------------------------------------------- garbage

  /** A retired item is in the lists of one collector, once, or in the hands of `clear_chain`, once;
      once freed (or lost) it is in no list. */
  lemma ExactlyOnce(states: seq<State>, actions: seq<Action>, i: nat, x: Item)
    requires Run(states, actions) && i < |states| && x in states[i].info
    ensures var s := states[i];
      && (forall c :: c in s.cols ==> Held(s.cols[c])[x] == if s.info[x].loc == In(c) then 1 else 0)
      && Dump(s.teardown)[x] == (if s.info[x].loc == Dumped then 1 else 0)
      && (s.info[x].loc.In? ==> s.info[x].loc.c in s.cols)
  {
    var s := states[i];
    RunInv(states, actions, i);
    hide Run, Shape, Grace, Held, Dump;
    forall c | c in s.cols
      ensures Held(s.cols[c])[x] == Count(s.info, x, In(c))
    {
      assert Tally(Held(s.cols[c]), s.info, In(c));
    }
    assert Dump(s.teardown)[x] == Count(s.info, x, Dumped);
  }

  /** `has_garbage` unset means that all three lists are empty. */
  lemma NoGarbageNoLists(states: seq<State>, actions: seq<Action>, i: nat, c: CollectorId)
    requires Run(states, actions) && i < |states| && c in states[i].cols && !states[i].cols[c].hasGarbage
    ensures states[i].cols[c].previous == [] && states[i].cols[c].current == [] && states[i].cols[c].next == []
  {
    RunInv(states, actions, i);
    hide Run, Shape, Grace;
    FlagAt(states[i], c);
    assert |Lists(states[i].cols[c])| == 0;
  }

  /** `x` is in a list of the first collector of `path`, that one in a list of the next, and so on;
      the last one is in the chain, is being dropped by `clear_chain`, or was lost. */
  ghost predicate NestedIn(s: State, x: Item, path: seq<CollectorId>)
    decreases |path|
  {
    && path != [] && x in s.info && s.info[x].loc == In(path[0])
    && Record(path[0]) in s.info
    && if |path| == 1 then
         s.info[Record(path[0])].loc.Home? || s.info[Record(path[0])].loc.Dumped? || s.info[Record(path[0])].loc.Leaked?
       else NestedIn(s, Record(path[0]), path[1..])
  }

  /** An owner of garbage is never gone. */
  lemma OwnerExists(s: State, x: Item)
    requires Inv(s) && x in s.info && s.info[x].loc.In?
    ensures var k := s.info[x].loc.c;
      && k in s.cols && Record(k) in s.info && !s.info[Record(k)].loc.Freed? && !s.info[Record(k)].loc.Fresh?
      && (s.info[Record(k)].loc.In? || s.info[Record(k)].loc.Dumped? ==> s.info[x].stamp < s.info[Record(k)].stamp)
      && s.info[x].stamp < s.clock
  {
    hide Shape, Tallies, Flags, Ages, Seen, Holds, Older, Held;
    var k := s.info[x].loc.c;
    assert k in s.cols;
    RecordOf(s, k);
    HolderNotEmpty(s, k, x);
    FlagAt(s, k);
    NotAllocating(s.cols[k]);
    OlderAt(s, x);
  }

  lemma NotAllocating(col: Col)
    requires FlagOk(col) && Held(col) != multiset{}
    ensures !col.phase.Allocating?
  {}

  lemma OlderAt(s: State, x: Item)
    requires Nested(s) && Dates(s) && x in s.info && s.info[x].loc.In?
    ensures Older(s.info, s.info[x], Record(s.info[x].loc.c)) && s.info[x].stamp < s.clock
  {}

  lemma HolderNotEmpty(s: State, k: CollectorId, x: Item)
    requires Tallies(s) && k in s.cols && x in s.info && s.info[x].loc == In(k)
    ensures Held(s.cols[k]) != multiset{}
  {
    assert Tally(Held(s.cols[k]), s.info, In(k));
    assert Held(s.cols[k])[x] == Count(s.info, x, In(k));
  }

  lemma RecordOf(s: State, k: CollectorId)
    requires Shape(s) && k in s.cols
    ensures Record(k) in s.info
    ensures s.cols[k].phase.Allocating? <==> s.info[Record(k)].loc.Fresh?
  {
    hide ColsOk, LockOk, ScansOk, TeardownOk, Linked;
  }

  /** Nesting is well founded: every piece of garbage is reachable from a collector in the chain, or
      from what `clear_chain` is dropping, or from a collector that was lost. */
  lemma {:induction false} Rooted(s: State, x: Item)
    requires Inv(s) && x in s.info && s.info[x].loc.In?
    ensures exists path :: NestedIn(s, x, path)
    decreases s.clock - s.info[x].stamp
  {
    hide Inv;
    OwnerExists(s, x);
    var k := s.info[x].loc.c;
    if s.info[Record(k)].loc.In? {
      OwnerExists(s, Record(k));
      Rooted(s, Record(k));
      hide NestedIn;
      var rest :| NestedIn(s, Record(k), rest);
      NestedDeeper(s, x, k, rest);
    } else {
      assert NestedIn(s, x, [k]);
    }
  }

  lemma NestedDeeper(s: State, x: Item, k: CollectorId, rest: seq<CollectorId>)
    requires x in s.info && s.info[x].loc == In(k) && Record(k) in s.info && NestedIn(s, Record(k), rest)
    ensures NestedIn(s, x, [k] + rest)
  {
    assert ([k] + rest)[1..] == rest;
  }

  /** Every piece of garbage has a way out. */
  lemma RunRooted(states: seq<State>, actions: seq<Action>, i: nat, x: Item)
    requires Run(states, actions) && i < |states| && x in states[i].info && states[i].info[x].loc.In?
    ensures exists path :: NestedIn(states[i], x, path)
  {
    hide Inv, Run;
    RunInv(states, actions, i);
    Rooted(states[i], x);
  }

  // ---------------------------------------------------------------- freeing

  /** The item an action drops, if any. */
  function Dropped(s: State, a: Action): Option<Item>
    requires Can(s, a)
  {
    match a
    case ADrain(c) => Some(Victim(s.cols[c].phase))
    case AFailDrain(c) => Some(Victim(s.cols[c].phase))
    case AClearDrop => Some(s.teardown.dump[0])
    case _ => None
  }

  predicate NewlyFreed(s: State, t: State, x: Item) {
    x in t.info && t.info[x].loc.Freed? && !(x in s.info && s.info[x].loc.Freed?)
  }

  predicate NewlyLost(s: State, t: State, x: Item) {
    x in t.info && t.info[x].loc.Leaked? && !(x in s.info && s.info[x].loc.Leaked?)
  }

  lemma DropFrees(info: map<Item, Info>, v: Item, loc: Loc, x: Item)
    requires v in info && x in info && (info[v].loc.In? || info[v].loc.Dumped?) && (loc.In? || loc.Dumped?)
    ensures Drop(info, v, loc)[x].loc.Freed? <==> info[x].loc.Freed? || x == v
    ensures Drop(info, v, loc)[x].loc.Leaked? <==> info[x].loc.Leaked?
  {}

  lemma VictimIsHeld(s: State, c: CollectorId)
    requires Shape(s) && Garbage(s) && CanDrain(s, c)
    ensures s.info[Victim(s.cols[c].phase)].loc == In(c)
  {
    RecordsAreIdle(s);
    hide Shape, Tallies, Flags, Owners, RecordsIdle;
    NotItself(s, c);
  }

  lemma DropFreesOne(s: State, t: State, v: Item, loc: Loc, x: Item)
    requires v in s.info && (s.info[v].loc.In? || s.info[v].loc.Dumped?) && (loc.In? || loc.Dumped?)
    requires t.info == Drop(s.info, v, loc)
    ensures NewlyFreed(s, t, x) <==> v == x
    ensures !NewlyLost(s, t, x)
  {
    if x in s.info { DropFrees(s.info, v, loc, x); }
    assert Drop(s.info, v, loc).Keys == s.info.Keys;
    hide Drop;
  }

  lemma DrainFrees(s: State, c: CollectorId, v: Item, x: Item)
    requires Shape(s) && Garbage(s) && CanDrain(s, c) && v == Victim(s.cols[c].phase) && v in s.info
    ensures NewlyFreed(s, Drain(s, c), x) <==> v == x
    ensures !NewlyLost(s, Drain(s, c), x)
  {
    hide *;
    VictimIsHeld(s, c);
    DrainInfo(s, c, v);
    DropFreesOne(s, Drain(s, c), v, In(c), x);
  }

  lemma ClearDropFrees(s: State, v: Item, x: Item)
    requires Shape(s) && Garbage(s) && CanClearDrop(s) && v == s.teardown.dump[0] && v in s.info
    ensures NewlyFreed(s, ClearDrop(s), x) <==> v == x
    ensures !NewlyLost(s, ClearDrop(s), x)
  {
    RecordsAreIdle(s);
    hide Shape, Tallies, Flags, Owners, RecordsIdle, ClearDrop, Dump, Drop, NewlyFreed, NewlyLost;
    DumpFirst(s, v);
    ClearDropRecord(s, v);
    DropFreesOne(s, ClearDrop(s), v, Dumped, x);
  }

  lemma FreedGc(s: State, a: Action, x: Item)
    requires Inv(s) && Can(s, a) && (a.ADrain? || a.AFailDrain? || a.AClearDrop?)
    ensures NewlyFreed(s, Do(s, a), x) <==> Dropped(s, a) == Some(x)
    ensures NewlyLost(s, Do(s, a), x) <==> a.AFailDrain? && x in Rest(s.cols[a.c].phase).inner
  {
    hide Shape, Garbage, Grace, NewlyFreed, NewlyLost;
    match a
    case ADrain(c) => DrainFrees(s, c, Victim(s.cols[c].phase), x);
    case AFailDrain(c) => VictimIsHeld(s, c); FailFrees(s, c, x);
    case AClearDrop => ClearDropFrees(s, s.teardown.dump[0], x);
  }

  lemma LoseFrees(info: map<Item, Info>, lost: seq<Item>, x: Item)
    requires x in info
    ensures x in Lose(info, lost)
    ensures Lose(info, lost)[x].loc.Freed? <==> info[x].loc.Freed? && x !in lost
    ensures Lose(info, lost)[x].loc.Leaked? <==> info[x].loc.Leaked? || x in lost
  {}

  lemma FailInfo(s: State, c: CollectorId)
    requires CanFailDrain(s, c)
    ensures FailDrain(s, c).info == Lose(Drop(s.info, Victim(s.cols[c].phase), In(c)), Rest(s.cols[c].phase).inner)
  {
    hide FailCol, Lose, Drop;
  }

  lemma FailFrees(s: State, c: CollectorId, x: Item)
    requires Garbage(s) && CanFailDrain(s, c) && s.info[Victim(s.cols[c].phase)].loc == In(c)
    ensures NewlyFreed(s, FailDrain(s, c), x) <==> x == Victim(s.cols[c].phase)
    ensures NewlyLost(s, FailDrain(s, c), x) <==> x in Rest(s.cols[c].phase).inner
  {
    LostAreOwned(s, c);
    LostKnown(s, c);
    FailInfo(s, c);
    hide Garbage, FailDrain;
    var v, lost := Victim(s.cols[c].phase), Rest(s.cols[c].phase).inner;
    hide Rest, Victim;
    assert Drop(s.info, v, In(c)).Keys == s.info.Keys;
    if x in s.info {
      DropFrees(s.info, v, In(c), x);
      hide Drop;
      LoseFrees(Drop(s.info, v, In(c)), lost, x);
      hide Lose;
    }
  }

  /** The items lost are on record, and the failing one is not among them. */
  lemma LostKnown(s: State, c: CollectorId)
    requires Garbage(s) && CanFailDrain(s, c)
    ensures forall y :: y in Rest(s.cols[c].phase).inner ==> y in s.info && y != Victim(s.cols[c].phase)
  {
    var p := s.cols[c].phase;
    assert Tally(Held(s.cols[c]), s.info, In(c));
    FailHeld(s, c);
    hide Garbage, FailDrain, Held;
    forall y | y in Rest(p).inner
      ensures y in s.info && y != Victim(p)
    {
      assert y in multiset(Rest(p).inner);
      assert y in Held(s.cols[c]) - multiset{Victim(p)};
      assert Held(s.cols[c])[y] == Count(s.info, y, In(c));
    }
  }

  /** Each action frees exactly the item it drops, which was not free before; and garbage is lost
      exactly when a destructor fails while an adopted collector is being dropped that has more. */
  lemma FreedExactly(s: State, a: Action, x: Item)
    requires Inv(s) && Can(s, a)
    ensures NewlyFreed(s, Do(s, a), x) <==> Dropped(s, a) == Some(x)
    ensures NewlyLost(s, Do(s, a), x) <==> a.AFailDrain? && x in Rest(s.cols[a.c].phase).inner
  {
    hide Inv, Can, Do, NewlyFreed, NewlyLost;
    if a.ADrain? || a.AFailDrain? || a.AClearDrop? {
      FreedGc(s, a, x);
    } else if !MovesItems(a) {
      InfoKept(s, a);
      KeptFree(s, Do(s, a), x);
    } else if a.AUnlink? {
      UnlinkFrees(s, a, x);
    } else {
      OthersFree(s, a, x);
    }
  }

  lemma KeptFree(s: State, t: State, x: Item)
    requires t.info == s.info
    ensures !NewlyFreed(s, t, x) && !NewlyLost(s, t, x)
  {}

  lemma UnlinkFrees(s: State, a: Action, x: Item)
    requires Can(s, a) && a.AUnlink?
    ensures !NewlyFreed(s, Do(s, a), x) && !NewlyLost(s, Do(s, a), x)
  {
    AdoptWord(s, a.c, a.c);
    hide Adopt;
  }

  lemma OthersFree(s: State, a: Action, x: Item)
    requires Can(s, a) && (a.ACreate? || a.ARetire? || a.AAlloc? || a.ALinkHead? || a.AClearSwap?)
    ensures !NewlyFreed(s, Do(s, a), x) && !NewlyLost(s, Do(s, a), x)
  {}
}
