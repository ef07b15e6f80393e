/** Invariants of the reclaimer, part 2: conservation of garbage.  Every retired item is in exactly
    one list of exactly one owner, once, until it is freed. */
module ReclaimerGarbage {
  import opened Base
  import Epochs
  import opened Reclaimer
  import opened ReclaimerShape

  /** The items a rotation has still to drop. */
  function Doomed(p: Phase): multiset<Item> {
    if p.Draining? then multiset(p.inner) + multiset(p.outer) else multiset{}
  }

  /** Everything a collector is responsible for. */
  function Held(col: Col): multiset<Item> { multiset(Lists(col)) + Doomed(col.phase) }

  function Dump(td: Teardown): multiset<Item> {
    if td.Clearing? then multiset(td.dump) else multiset{}
  }

  function Count(info: map<Item, Info>, x: Item, loc: Loc): nat {
    if x in info && info[x].loc == loc then 1 else 0
  }

  /** `m` is exactly the set of items recorded at `loc`, each once. */
  ghost predicate Tally(m: multiset<Item>, info: map<Item, Info>, loc: Loc) {
    forall x :: m[x] == Count(info, x, loc)
  }

  ghost predicate Tallies(s: State) {
    && (forall c :: c in s.cols ==> Tally(Held(s.cols[c]), s.info, In(c)))
    && Tally(Dump(s.teardown), s.info, Dumped)
  }

  ghost predicate Flags(s: State) {
    forall c :: c in s.cols ==> FlagOk(s.cols[c])
  }

  /** `has_garbage` is never false while there is garbage; a collector being allocated has none. */
  predicate FlagOk(col: Col) {
    (col.hasGarbage || Lists(col) == []) && (col.phase.Allocating? ==> !col.hasGarbage)
  }

  ghost predicate Owners(s: State) {
    && (forall x :: x in s.info && s.info[x].loc.In? ==> s.info[x].loc.c in s.cols)
    && (forall k :: k in s.cols && Record(k) in s.info && s.info[Record(k)].loc.Freed? ==>
          Held(s.cols[k]) == multiset{})
  }

  ghost predicate Garbage(s: State) { Tallies(s) && Flags(s) && Owners(s) }

  // ---------------------------------------------------------------- tallies

  /** Item `x` changes place in `info`; the tallies of the two places change, no other does. */
  lemma TallyGain(m: multiset<Item>, info: map<Item, Info>, x: Item, i: Info)
    requires Tally(m, info, i.loc) && (x in info ==> info[x].loc != i.loc)
    ensures Tally(m + multiset{x}, info[x := i], i.loc)
  {
    forall y ensures (m + multiset{x})[y] == Count(info[x := i], y, i.loc) {
      assert m[y] == Count(info, y, i.loc);
    }
  }

  lemma TallyLose(m: multiset<Item>, info: map<Item, Info>, x: Item, i: Info, loc: Loc)
    requires Tally(m, info, loc) && x in info && info[x].loc == loc && i.loc != loc
    ensures x in m && Tally(m - multiset{x}, info[x := i], loc)
  {
    assert m[x] == Count(info, x, loc);
    forall y ensures (m - multiset{x})[y] == Count(info[x := i], y, loc) {
      assert m[y] == Count(info, y, loc);
    }
  }

  lemma TallySame(m: multiset<Item>, info: map<Item, Info>, x: Item, i: Info, loc: Loc)
    requires Tally(m, info, loc) && (x in info ==> info[x].loc != loc) && i.loc != loc
    ensures Tally(m, info[x := i], loc)
  {
    forall y ensures m[y] == Count(info[x := i], y, loc) {
      assert m[y] == Count(info, y, loc);
    }
  }

  /** All items of owner `k` go to `loc`. */
  lemma TallyMove(m: multiset<Item>, mk: multiset<Item>, info: map<Item, Info>, k: CollectorId, loc: Loc)
    requires Tally(m, info, loc) && Tally(mk, info, In(k)) && loc != In(k)
    ensures Tally(mk + m, Move(info, k, loc), loc) && Tally(multiset{}, Move(info, k, loc), In(k))
  {
    forall y ensures (mk + m)[y] == Count(Move(info, k, loc), y, loc)
                  && 0 == Count(Move(info, k, loc), y, In(k)) {
      assert m[y] == Count(info, y, loc);
      assert mk[y] == Count(info, y, In(k));
    }
  }

  lemma TallyMoveOther(m: multiset<Item>, info: map<Item, Info>, k: CollectorId, loc: Loc, other: Loc)
    requires Tally(m, info, other) && other != loc && other != In(k)
    ensures Tally(m, Move(info, k, loc), other)
  {
    forall y ensures m[y] == Count(Move(info, k, loc), y, other) {
      assert m[y] == Count(info, y, other);
    }
  }

  lemma TallyLost(m: multiset<Item>, lost: seq<Item>, info: map<Item, Info>, loc: Loc)
    requires Tally(m, info, loc) && multiset(lost) <= m && loc != Leaked
    ensures Tally(m - multiset(lost), Lose(info, lost), loc)
  {
    forall y ensures (m - multiset(lost))[y] == Count(Lose(info, lost), y, loc) {
      assert m[y] == Count(info, y, loc);
      assert y in lost <==> y in multiset(lost);
    }
  }

  lemma TallyLostOther(m: multiset<Item>, lost: seq<Item>, info: map<Item, Info>, loc: Loc)
    requires Tally(m, info, loc) && loc != Leaked
    requires forall y :: y in lost && y in info ==> info[y].loc != loc
    ensures Tally(m, Lose(info, lost), loc)
  {
    forall y ensures m[y] == Count(Lose(info, lost), y, loc) {
      assert m[y] == Count(info, y, loc);
    }
  }

  /** Tallies identify places: an item counted in one is not counted in another. */
  lemma TallyIn(m: multiset<Item>, info: map<Item, Info>, loc: Loc, x: Item)
    requires Tally(m, info, loc) && x in m
    ensures x in info && info[x].loc == loc && m[x] == 1
  {
    assert m[x] == Count(info, x, loc);
  }

  // ---------------------------------------------------------------- steps

  predicate SameHeld(a: Col, b: Col) {
    Held(a) == Held(b) && Lists(a) == Lists(b) && a.hasGarbage == b.hasGarbage
    && (a.phase.Allocating? ==> b.phase.Allocating?)
  }

  /** Only collector `c` changes what it holds. */
  ghost predicate OthersKeep(s: State, t: State, c: CollectorId) {
    && t.cols.Keys == s.cols.Keys && c in s.cols
    && forall d :: d in s.cols && d != c ==> SameHeld(t.cols[d], s.cols[d])
  }

  lemma UpdKeepsOthers(s: State, t: State, c: CollectorId)
    requires c in s.cols && c in t.cols && t.cols == s.cols[c := t.cols[c]]
    ensures OthersKeep(s, t, c)
  {}

  lemma KeptTally(s: State, t: State, c: CollectorId, d: CollectorId)
    requires Tallies(s) && Flags(s) && OthersKeep(s, t, c) && d in t.cols && d != c
    ensures Tally(Held(t.cols[d]), s.info, In(d)) && FlagOk(t.cols[d])
  {
    assert SameHeld(t.cols[d], s.cols[d]);
    hide Tally, Lists, Held;
  }

  /** No garbage moves. */
  lemma QuietGarbage(s: State, t: State, c: CollectorId)
    requires Garbage(s) && OthersKeep(s, t, c) && t.info == s.info && Dump(t.teardown) == Dump(s.teardown)
    requires Held(t.cols[c]) == Held(s.cols[c]) && FlagOk(t.cols[c])
    ensures Garbage(t)
  {
    QuietOwners(s, t, c);
    assert Tally(Held(s.cols[c]), s.info, In(c)) && Tally(Dump(s.teardown), s.info, Dumped);
    hide Tally, Owners, Held, FlagOk, OthersKeep, Dump;
    forall d | d in t.cols
      ensures Tally(Held(t.cols[d]), t.info, In(d)) && FlagOk(t.cols[d])
    {
      if d != c { KeptTally(s, t, c, d); }
    }
    FlagsOf(t);
  }

  lemma FlagsOf(t: State)
    requires forall d :: d in t.cols ==> FlagOk(t.cols[d])
    ensures Flags(t)
  {
    hide FlagOk;
  }

  lemma QuietOwners(s: State, t: State, c: CollectorId)
    requires Owners(s) && OthersKeep(s, t, c) && t.info == s.info && Held(t.cols[c]) == Held(s.cols[c])
    ensures Owners(t)
  {
    hide Lists, Held;
  }

  /** Item `x`, so far no garbage, joins the garbage of `c`. */
  lemma GainGarbage(s: State, t: State, c: CollectorId, x: Item, i: Info)
    requires Garbage(s) && OthersKeep(s, t, c) && Dump(t.teardown) == Dump(s.teardown)
    requires Record(c) in s.info ==> !s.info[Record(c)].loc.Freed?
    requires x in s.info && !Retired(s.info[x]) && i.loc == In(c) && t.info == s.info[x := i]
    requires Held(t.cols[c]) == Held(s.cols[c]) + multiset{x} && FlagOk(t.cols[c])
    ensures Garbage(t)
  {
    GainOwners(s, t, c, x, i);
    TallySame(Dump(s.teardown), s.info, x, i, Dumped);
    TallyGain(Held(s.cols[c]), s.info, x, i);
    hide Tally, Owners, Held, FlagOk, OthersKeep, Dump;
    forall d | d in t.cols
      ensures Tally(Held(t.cols[d]), t.info, In(d)) && FlagOk(t.cols[d])
    {
      if d != c {
        KeptTally(s, t, c, d);
        TallySame(Held(t.cols[d]), s.info, x, i, In(d));
      }
    }
    FlagsOf(t);
  }

  lemma GainOwners(s: State, t: State, c: CollectorId, x: Item, i: Info)
    requires Owners(s) && OthersKeep(s, t, c) && x in s.info && i.loc == In(c) && t.info == s.info[x := i]
    requires Record(c) in s.info ==> !s.info[Record(c)].loc.Freed?
    ensures Owners(t)
  {
    hide Lists, Held;
  }

  /** Items are created, or linked into the chain: no garbage either way. */
  lemma OutsideGarbage(s: State, t: State, x: Item, i: Info)
    requires Garbage(s) && t.teardown == s.teardown && s.cols.Keys <= t.cols.Keys
    requires forall d :: d in s.cols ==> SameHeld(t.cols[d], s.cols[d])
    requires forall d :: d in t.cols && d !in s.cols ==> Held(t.cols[d]) == multiset{} && FlagOk(t.cols[d])
    requires (x in s.info ==> !Retired(s.info[x])) && !Retired(i) && t.info == s.info[x := i]
    ensures Garbage(t)
  {
    hide Dump, Lists, Held;
    TallySame(Dump(s.teardown), s.info, x, i, Dumped);
    forall d | d in t.cols
      ensures Tally(Held(t.cols[d]), t.info, In(d)) && FlagOk(t.cols[d])
    {
      if d in s.cols {
        assert SameHeld(t.cols[d], s.cols[d]);
        assert FlagOk(s.cols[d]);
        TallySame(Held(t.cols[d]), s.info, x, i, In(d));
      } else {
        TallyNone(t, d);
      }
    }
  }

  lemma TallyNone(t: State, d: CollectorId)
    requires forall x :: x in t.info ==> t.info[x].loc != In(d)
    ensures Tally(multiset{}, t.info, In(d))
  {}

  // ---------------------------------------------------------------- dropping

  /** How a tally changes when the owner of `loc` drops `x`; `mk` is what a dropped collector held. */
  lemma DropTally(m: multiset<Item>, mk: multiset<Item>, info: map<Item, Info>, x: Item, loc: Loc)
    requires Tally(m, info, loc) && x in m && (loc.In? || loc.Dumped?)
    requires x.Record? ==> Tally(mk, info, In(x.k)) && loc != In(x.k)
    ensures x in info && info[x].loc == loc
    ensures Tally(m - multiset{x} + (if x.Record? then mk else multiset{}), Drop(info, x, loc), loc)
    ensures x.Record? ==> Tally(multiset{}, Drop(info, x, loc), In(x.k))
  {
    TallyIn(m, info, loc, x);
    var i := info[x].(loc := Freed);
    TallyLose(m, info, x, i, loc);
    if x.Record? {
      TallySame(mk, info, x, i, In(x.k));
      TallyMove(m - multiset{x}, mk, info[x := i], x.k, loc);
      assert mk + (m - multiset{x}) == m - multiset{x} + mk;
    } else {
      assert m - multiset{x} + multiset{} == m - multiset{x};
    }
  }

  lemma DropTallyOther(m: multiset<Item>, info: map<Item, Info>, x: Item, loc: Loc, other: Loc)
    requires Tally(m, info, other) && x in info && info[x].loc == loc && other != loc && !other.Freed?
    requires x.Record? ==> other != In(x.k)
    ensures Tally(m, Drop(info, x, loc), other)
  {
    var i := info[x].(loc := Freed);
    TallySame(m, info, x, i, other);
    if x.Record? { TallyMoveOther(m, info[x := i], x.k, loc, other); }
  }

  /** Dropping keeps owners owners, and a freed collector owns nothing. */
  lemma DropOwners(s: State, t: State, x: Item, loc: Loc)
    requires Owners(s) && x in s.info && t.info == Drop(s.info, x, loc) && t.cols.Keys == s.cols.Keys
    requires loc.In? || loc.Dumped?
    requires loc.In? ==> loc.c in s.cols && (Record(loc.c) in s.info ==> !s.info[Record(loc.c)].loc.Freed?)
    requires Retired(s.info[x]) && (x.Record? ==> loc != In(x.k) && x.k in s.cols)
    requires forall d :: d in s.cols && loc != In(d) ==>
      Held(t.cols[d]) == if x == Record(d) then multiset{} else Held(s.cols[d])
    ensures Owners(t)
  {
    hide Held;
  }

  lemma RestHeld(p: Phase)
    requires p.Draining? && (p.inner != [] || p.outer != [])
    ensures Doomed(p) == Doomed(Rest(p)) + multiset{Victim(p)}
    ensures Doomed(Rest(p)) == multiset(Rest(p).inner) + multiset(Rest(p).outer)
  {
    if p.inner != [] {
      assert p.inner == [p.inner[0]] + p.inner[1..];
    } else {
      assert p.outer == [p.outer[0]] + p.outer[1..];
    }
  }

  lemma SwapOut<T>(lists: multiset<T>, rest: multiset<T>, x: T, more: multiset<T>)
    ensures lists + (rest + more) == lists + (rest + multiset{x}) - multiset{x} + more
    ensures lists + rest == lists + (rest + multiset{x}) - multiset{x}
  {}

  lemma DrainPhase(s: State, c: CollectorId, x: Item)
    requires CanDrain(s, c) && x == Victim(s.cols[c].phase)
    requires x.Record? ==> x.k != c && s.cols[x.k].phase.Idle?
    ensures Lists(Drain(s, c).cols[c]) == Lists(s.cols[c])
    ensures x.Instance? ==> Drain(s, c).cols[c].phase == Rest(s.cols[c].phase)
    ensures x.Record? ==> Drain(s, c).cols[c].phase == Opened(Rest(s.cols[c].phase), Lists(s.cols[x.k]))
    ensures x.Record? ==> Held(Drain(s, c).cols[x.k]) == multiset{}
  {
    hide Drop;
  }

  /** A collector found in a garbage list is out of use. */
  ghost predicate RecordsIdle(s: State) {
    forall k :: k in s.cols && Record(k) in s.info && Retired(s.info[Record(k)]) ==>
      s.cols[k].phase.Idle? && IsInvalid(s.cols[k].word)
  }

  lemma RecordsAreIdle(s: State)
    requires Shape(s)
    ensures RecordsIdle(s)
  {
    hide Linked, LockOk, ScansOk, TeardownOk;
    forall k | k in s.cols && Record(k) in s.info && Retired(s.info[Record(k)])
      ensures s.cols[k].phase.Idle? && IsInvalid(s.cols[k].word)
    {
      assert ColOk(s, s.cols[k]);
    }
  }

  lemma DrainOthers(s: State, c: CollectorId)
    requires CanDrain(s, c)
    ensures var t := Drain(s, c); var x := Victim(s.cols[c].phase);
      && t.info == Drop(s.info, x, In(c)) && t.teardown == s.teardown && t.cols.Keys == s.cols.Keys
      && (forall d :: d in s.cols && d != c && x != Record(d) ==> t.cols[d] == s.cols[d])
      && FlagOk(t.cols[c]) == FlagOk(s.cols[c])
      && (x.Record? && x.k != c && s.cols[x.k].phase.Idle? ==> FlagOk(t.cols[x.k]))
  {
    hide Drop;
  }

  /** The item dropped next is one of those held, and what it leaves behind takes its place. */
  lemma DrainHeld(s: State, c: CollectorId, x: Item)
    requires CanDrain(s, c) && x == Victim(s.cols[c].phase)
    requires x.Record? ==> x.k != c && s.cols[x.k].phase.Idle?
    ensures x in Held(s.cols[c])
    ensures Held(Drain(s, c).cols[c])
         == Held(s.cols[c]) - multiset{x} + if x.Record? then Held(s.cols[x.k]) else multiset{}
    ensures x.Record? ==> Held(Drain(s, c).cols[x.k]) == multiset{}
  {
    var p := s.cols[c].phase;
    RestHeld(p);
    DrainPhase(s, c, x);
    if x.Record? {
      OpenedHeld(Rest(p), Lists(s.cols[x.k]));
      assert Held(s.cols[x.k]) == multiset(Lists(s.cols[x.k]));
    }
    hide Drain, Lists, Rest, Opened, Doomed, Victim;
    SwapOut(multiset(Lists(s.cols[c])), Doomed(Rest(p)), x,
      if x.Record? then multiset(Lists(s.cols[x.k])) else multiset{});
  }

  lemma OpenedHeld(p: Phase, garbage: seq<Item>)
    requires p.Draining?
    ensures Doomed(Opened(p, garbage)) == Doomed(p) + multiset(garbage)
  {
    assert multiset(garbage + p.inner) == multiset(garbage) + multiset(p.inner);
  }

  lemma DrainTally(s: State, c: CollectorId, x: Item, d: CollectorId)
    requires Tallies(s) && RecordsIdle(s) && CanDrain(s, c) && d in s.cols && x == Victim(s.cols[c].phase)
    requires x in Held(s.cols[c]) && x != Record(c)
    ensures Tally(Held(Drain(s, c).cols[d]), Drain(s, c).info, In(d))
  {
    assert Tally(Held(s.cols[d]), s.info, In(d)) && Tally(Held(s.cols[c]), s.info, In(c));
    TallyIn(Held(s.cols[c]), s.info, In(c), x);
    DrainHeld(s, c, x);
    DrainOthers(s, c);
    hide Drain, Held, Tally, Tallies, FlagOk;
    if d == c || x == Record(d) {
      DropTally(Held(s.cols[c]), if x.Record? then Held(s.cols[x.k]) else multiset{}, s.info, x, In(c));
    } else {
      DropTallyOther(Held(s.cols[d]), s.info, x, In(c), In(d));
    }
  }

  /** A collector never holds its own record: it would be out of use, yet draining. */
  lemma NotItself(s: State, c: CollectorId)
    requires Tallies(s) && RecordsIdle(s) && CanDrain(s, c)
    ensures Victim(s.cols[c].phase) != Record(c) && Victim(s.cols[c].phase) in Held(s.cols[c])
    ensures s.info[Victim(s.cols[c].phase)].loc == In(c)
  {
    RestHeld(s.cols[c].phase);
    TallyIn(Held(s.cols[c]), s.info, In(c), Victim(s.cols[c].phase));
  }

  lemma DrainFlag(s: State, c: CollectorId, d: CollectorId)
    requires Flags(s) && RecordsIdle(s) && CanDrain(s, c) && d in s.cols
    requires Victim(s.cols[c].phase) != Record(c) && Retired(s.info[Victim(s.cols[c].phase)])
    ensures FlagOk(Drain(s, c).cols[d])
  {
    FlagAt(s, d);
    DrainOthers(s, c);
    hide Drain, Flags;
  }

  lemma DrainDump(s: State, c: CollectorId)
    requires Tallies(s) && CanDrain(s, c) && s.info[Victim(s.cols[c].phase)].loc == In(c)
    ensures Tally(Dump(Drain(s, c).teardown), Drain(s, c).info, Dumped)
  {
    DropTallyOther(Dump(s.teardown), s.info, Victim(s.cols[c].phase), In(c), Dumped);
    DrainOthers(s, c);
    hide Tally, Dump, Drop;
  }

  lemma DrainOwner(s: State, c: CollectorId)
    requires RecordsIdle(s) && CanDrain(s, c)
    ensures Record(c) in s.info ==> !s.info[Record(c)].loc.Freed?
  {}

  lemma DrainEmpties(s: State, c: CollectorId, x: Item, d: CollectorId)
    requires CanDrain(s, c) && x == Victim(s.cols[c].phase) && x != Record(c) && d in s.cols && d != c
    requires x.Record? ==> s.cols[x.k].phase.Idle?
    ensures Held(Drain(s, c).cols[d]) == if x == Record(d) then multiset{} else Held(s.cols[d])
    ensures Drain(s, c).info == Drop(s.info, x, In(c)) && Drain(s, c).cols.Keys == s.cols.Keys
  {
    DrainOthers(s, c);
    DrainHeld(s, c, x);
    hide Drain, Held, FlagOk, Drop;
  }

  lemma DrainOwners(s: State, c: CollectorId, x: Item)
    requires Owners(s) && RecordsIdle(s) && CanDrain(s, c) && x == Victim(s.cols[c].phase) && x != Record(c)
    requires x in s.info && s.info[x].loc == In(c)
    ensures Owners(Drain(s, c))
  {
    hide Held, Drop, Drain, Victim, Owners, RecordsIdle;
    RecordIdle(s, x);
    DrainOwner(s, c);
    DrainKeys(s, c);
    DrainInfo(s, c, x);
    forall d | d in s.cols && d != c {
      DrainEmpties(s, c, x, d);
    }
    DropOwners(s, Drain(s, c), x, In(c));
  }

  lemma DrainInfo(s: State, c: CollectorId, x: Item)
    requires CanDrain(s, c) && x == Victim(s.cols[c].phase)
    ensures Drain(s, c).info == Drop(s.info, x, In(c))
  {
    hide Drop;
  }

  lemma DrainTallies(s: State, c: CollectorId, x: Item)
    requires Tallies(s) && RecordsIdle(s) && CanDrain(s, c) && x == Victim(s.cols[c].phase)
    requires x in Held(s.cols[c]) && x != Record(c)
    ensures forall d :: d in s.cols ==>
      d in Drain(s, c).cols && Tally(Held(Drain(s, c).cols[d]), Drain(s, c).info, In(d))
  {
    hide *;
    forall d | d in s.cols
      ensures d in Drain(s, c).cols && Tally(Held(Drain(s, c).cols[d]), Drain(s, c).info, In(d))
    {
      DrainKeys(s, c);
      DrainTally(s, c, x, d);
    }
  }

  lemma DrainFlags(s: State, c: CollectorId, x: Item)
    requires Flags(s) && RecordsIdle(s) && CanDrain(s, c) && x == Victim(s.cols[c].phase)
    requires x != Record(c) && Retired(s.info[x])
    ensures Flags(Drain(s, c))
  {
    hide *;
    DrainKeys(s, c);
    forall d | d in Drain(s, c).cols
      ensures FlagOk(Drain(s, c).cols[d])
    {
      DrainFlag(s, c, d);
    }
    FlagsOf(Drain(s, c));
  }

  lemma DrainKeys(s: State, c: CollectorId)
    requires CanDrain(s, c)
    ensures Drain(s, c).cols.Keys == s.cols.Keys
  {
    hide Drop;
  }

  lemma GarbageDrain(s: State, c: CollectorId)
    requires Garbage(s) && RecordsIdle(s) && CanDrain(s, c)
    ensures Garbage(Drain(s, c))
  {
    hide Drain, Owners, Held, FlagOk, Dump, Tally, Flags, RecordsIdle;
    NotItself(s, c);
    DrainOwners(s, c, Victim(s.cols[c].phase));
    DrainDump(s, c);
    DrainTallies(s, c, Victim(s.cols[c].phase));
    DrainFlags(s, c, Victim(s.cols[c].phase));
    DrainKeys(s, c);
  }

  lemma FlagAt(s: State, d: CollectorId)
    requires Flags(s) && d in s.cols
    ensures FlagOk(s.cols[d])
  {}

  // ---------------------------------------------------------------- a failing destructor

  lemma ReverseKeeps(items: seq<Item>)
    ensures multiset(Reverse(items)) == multiset(items) && |Reverse(items)| == |items|
  {
    if items != [] {
      ReverseKeeps(items[1..]);
      assert items == [items[0]] + items[1..];
    }
  }

  lemma FailSplit<T>(lists: multiset<T>, inner: multiset<T>, outer: multiset<T>, x: T)
    ensures lists + outer == lists + (inner + outer + multiset{x}) - multiset{x} - inner
    ensures inner <= lists + (inner + outer + multiset{x}) - multiset{x}
  {}

  lemma FailHeld(s: State, c: CollectorId)
    requires CanFailDrain(s, c)
    ensures Held(FailDrain(s, c).cols[c])
         == Held(s.cols[c]) - multiset{Victim(s.cols[c].phase)} - multiset(Rest(s.cols[c].phase).inner)
    ensures multiset(Rest(s.cols[c].phase).inner) <= Held(s.cols[c]) - multiset{Victim(s.cols[c].phase)}
    ensures FlagOk(s.cols[c]) ==> FlagOk(FailDrain(s, c).cols[c])
  {
    var p := s.cols[c].phase;
    RestHeld(p);
    ReverseKeeps(Rest(p).outer);
    FailCols(s, c);
    FailLists(s.cols[c]);
    hide FailDrain, FailCol, Reverse, Lists, Rest, Doomed, Victim;
    FailSplit(multiset(Lists(s.cols[c])), multiset(Rest(p).inner), multiset(Rest(p).outer), Victim(p));
  }

  lemma FailLists(col: Col)
    requires col.phase.Draining? && (col.phase.inner != [] || col.phase.outer != [])
    ensures multiset(Lists(FailCol(col))) == multiset(Lists(col)) + multiset(Reverse(Rest(col.phase).outer))
    ensures Doomed(FailCol(col).phase) == multiset{}
    ensures FlagOk(col) ==> FlagOk(FailCol(col))
  {
    ReverseKeeps(Rest(col.phase).outer);
  }

  lemma FailTallies(s: State, c: CollectorId, x: Item)
    requires Tallies(s) && CanFailDrain(s, c) && x == Victim(s.cols[c].phase) && x in Held(s.cols[c])
    ensures Tally(Held(FailDrain(s, c).cols[c]), FailDrain(s, c).info, In(c))
    ensures Tally(Dump(FailDrain(s, c).teardown), FailDrain(s, c).info, Dumped)
    ensures forall d :: d in s.cols && d != c ==> Tally(Held(s.cols[d]), FailDrain(s, c).info, In(d))
  {
    var lost := Rest(s.cols[c].phase).inner;
    FailHeld(s, c);
    assert Tally(Held(s.cols[c]), s.info, In(c));
    DropTally(Held(s.cols[c]), multiset{}, s.info, x, In(c));
    assert Held(s.cols[c]) - multiset{x} + multiset{} == Held(s.cols[c]) - multiset{x};
    hide Held, Dump, Rest, FlagOk;
    TallyLost(Held(s.cols[c]) - multiset{x}, lost, Drop(s.info, x, In(c)), In(c));
    forall y | y in lost
      ensures y in Drop(s.info, x, In(c)) && Drop(s.info, x, In(c))[y].loc == In(c)
    {
      assert y in multiset(lost);
      TallyIn(Held(s.cols[c]) - multiset{x}, Drop(s.info, x, In(c)), In(c), y);
    }
    hide Tally, Drop, Lose;
    DropTallyOther(Dump(s.teardown), s.info, x, In(c), Dumped);
    TallyLostOther(Dump(s.teardown), lost, Drop(s.info, x, In(c)), Dumped);
    forall d | d in s.cols && d != c
      ensures Tally(Held(s.cols[d]), FailDrain(s, c).info, In(d))
    {
      DropTallyOther(Held(s.cols[d]), s.info, x, In(c), In(d));
      TallyLostOther(Held(s.cols[d]), lost, Drop(s.info, x, In(c)), In(d));
    }
  }

  lemma FailOwners(s: State, c: CollectorId)
    requires Owners(s) && CanFailDrain(s, c) && s.info[Victim(s.cols[c].phase)].loc == In(c)
    requires Record(c) in s.info ==> !s.info[Record(c)].loc.Freed?
    ensures Owners(FailDrain(s, c))
  {
    hide Held, FailCol, Rest;
  }

  lemma FailCols(s: State, c: CollectorId)
    requires CanFailDrain(s, c)
    ensures FailDrain(s, c).cols == s.cols[c := FailCol(s.cols[c])]
  {}

  lemma FailTally(s: State, c: CollectorId, x: Item, d: CollectorId)
    requires Tallies(s) && Flags(s) && CanFailDrain(s, c) && d in s.cols
    requires x == Victim(s.cols[c].phase) && x in Held(s.cols[c])
    ensures Tally(Held(FailDrain(s, c).cols[d]), FailDrain(s, c).info, In(d)) && FlagOk(FailDrain(s, c).cols[d])
  {
    FailTallies(s, c, x);
    FailFlag(s, c, d);
    hide FailDrain, FailCol, Held, FlagOk, Tally, Tallies, Flags;
  }

  lemma FailDump(s: State, c: CollectorId, x: Item)
    requires Tallies(s) && CanFailDrain(s, c) && x == Victim(s.cols[c].phase) && x in Held(s.cols[c])
    ensures Tally(Dump(FailDrain(s, c).teardown), FailDrain(s, c).info, Dumped)
  {
    FailTallies(s, c, x);
    hide FailDrain, Held, Tally, Tallies;
  }

  lemma GarbageFailDrain(s: State, c: CollectorId)
    requires Garbage(s) && RecordsIdle(s) && CanFailDrain(s, c)
    ensures Garbage(FailDrain(s, c))
  {
    NotItself(s, c);
    var x := Victim(s.cols[c].phase);
    FailOwners(s, c);
    FailDump(s, c, x);
    FailCols(s, c);
    hide FailDrain, FailCol, Owners, Held, FlagOk, Dump, Tally, Victim, RecordsIdle, CanDrain;
    forall d | d in FailDrain(s, c).cols
      ensures Tally(Held(FailDrain(s, c).cols[d]), FailDrain(s, c).info, In(d)) && FlagOk(FailDrain(s, c).cols[d])
    {
      FailTally(s, c, x, d);
    }
    FlagsOf(FailDrain(s, c));
  }

  lemma FailFlag(s: State, c: CollectorId, d: CollectorId)
    requires Flags(s) && CanFailDrain(s, c) && d in s.cols
    ensures FlagOk(FailDrain(s, c).cols[d]) && (d != c ==> FailDrain(s, c).cols[d] == s.cols[d])
  {
    FlagAt(s, d);
    FailHeld(s, c);
    FailCols(s, c);
    hide FailDrain, FailCol, Held, FlagOk, Rest, Victim;
  }

  // ---------------------------------------------------------------- clearing the chain

  lemma RecordsTally(chain: seq<CollectorId>, info: map<Item, Info>)
    requires forall i, j :: 0 <= i < j < |chain| ==> chain[i] != chain[j]
    requires forall x :: x in info ==> (info[x].loc.Dumped? <==> x.Record? && x.k in chain)
    requires forall k :: k in chain ==> Record(k) in info
    ensures Tally(multiset(Records(chain)), info, Dumped)
  {
    forall x
      ensures multiset(Records(chain))[x] == Count(info, x, Dumped)
    {
      RecordsOnce(chain, x);
    }
  }

  lemma RecordsOnce(chain: seq<CollectorId>, x: Item)
    requires forall i, j :: 0 <= i < j < |chain| ==> chain[i] != chain[j]
    ensures multiset(Records(chain))[x] == if x.Record? && x.k in chain then 1 else 0
  {
    if chain == [] {
    } else {
      var front, last := chain[..|chain| - 1], chain[|chain| - 1];
      RecordsOnce(front, x);
      assert Records(chain) == Records(front) + [Record(last)];
      assert chain == front + [last];
    }
  }

  lemma ChainHomes(s: State)
    requires Linked(s) && Homes(s)
    ensures forall k :: k in s.chain ==> Record(k) in s.info && s.info[Record(k)].loc.Home?
    ensures forall i, j :: 0 <= i < j < |s.chain| ==> s.chain[i] != s.chain[j]
  {
    forall k | k in s.chain
      ensures Record(k) in s.info && s.info[Record(k)].loc.Home?
    {
      var i :| 0 <= i < |s.chain| && s.chain[i] == k;
    }
  }

  lemma SwapInfo(s: State)
    requires Linked(s) && Homes(s) && Tally(Dump(s.teardown), s.info, Dumped)
    requires CanClearSwap(s) && s.head.ptr == s.teardown.first
    ensures Tally(Dump(ClearSwap(s).teardown), ClearSwap(s).info, Dumped)
  {
    ChainHomes(s);
    hide Linked, Homes;
    forall x | x in ClearSwap(s).info
      ensures ClearSwap(s).info[x].loc.Dumped? <==> x.Record? && x.k in s.chain
    {
      assert Dump(s.teardown)[x] == Count(s.info, x, Dumped);
    }
    RecordsTally(s.chain, ClearSwap(s).info);
  }

  lemma SwapTally(s: State, m: multiset<Item>, d: CollectorId)
    requires Tally(m, s.info, In(d)) && CanClearSwap(s) && s.head.ptr == s.teardown.first
    requires forall k :: k in s.chain ==> Record(k) in s.info && s.info[Record(k)].loc.Home?
    ensures Tally(m, ClearSwap(s).info, In(d))
  {
    forall x
      ensures m[x] == Count(ClearSwap(s).info, x, In(d))
    {
      assert m[x] == Count(s.info, x, In(d));
    }
  }

  lemma SwapOwners(s: State)
    requires Owners(s) && CanClearSwap(s) && s.head.ptr == s.teardown.first
    ensures Owners(ClearSwap(s))
  {
    hide Held;
  }

  lemma DetachTally(s: State, d: CollectorId)
    requires Linked(s) && Homes(s) && Tallies(s) && d in s.cols && CanClearSwap(s) && s.head.ptr == s.teardown.first
    ensures Tally(Held(ClearSwap(s).cols[d]), ClearSwap(s).info, In(d))
  {
    ChainHomes(s);
    SwapTally(s, Held(s.cols[d]), d);
    hide Linked, Homes, Tally, Held;
  }

  lemma DetachFlags(s: State)
    requires Flags(s) && CanClearSwap(s)
    ensures Flags(ClearSwap(s)) && ClearSwap(s).cols == s.cols
  {
    hide Lists;
  }

  lemma GarbageDetach(s: State)
    requires Linked(s) && Homes(s) && Tallies(s) && Flags(s) && Owners(s)
    requires CanClearSwap(s) && s.head.ptr == s.teardown.first
    ensures Garbage(ClearSwap(s))
  {
    hide Linked, Homes, Tally, Owners, Held, Flags, ClearSwap, Dump;
    SwapInfo(s);
    SwapOwners(s);
    DetachFlags(s);
    forall d | d in s.cols
      ensures Tally(Held(ClearSwap(s).cols[d]), ClearSwap(s).info, In(d))
    {
      DetachTally(s, d);
    }
  }

  lemma GarbageClearSwap(s: State)
    requires Shape(s) && Garbage(s) && CanClearSwap(s)
    ensures Garbage(ClearSwap(s))
  {
    if s.head.ptr == s.teardown.first {
      GarbageDetach(s);
    } else {
      assert Dump(ClearSwap(s).teardown) == Dump(s.teardown);
      hide Shape, Tally, Held, Dump;
    }
  }

  lemma ClearDropRecord(s: State, x: Item)
    requires CanClearDrop(s) && x == s.teardown.dump[0]
    ensures ClearDrop(s).teardown
         == Clearing((if x.Record? then Lists(s.cols[x.k]) else []) + s.teardown.dump[1..])
    ensures x.Record? ==> Lists(ClearDrop(s).cols[x.k]) == [] && ClearDrop(s).cols[x.k].phase == s.cols[x.k].phase
    ensures ClearDrop(s).info == Drop(s.info, x, Dumped) && ClearDrop(s).cols.Keys == s.cols.Keys
    ensures forall d :: d in s.cols && x != Record(d) ==> ClearDrop(s).cols[d] == s.cols[d]
  {
    hide Drop;
  }

  lemma ClearDropHeld(s: State, x: Item)
    requires CanClearDrop(s) && x == s.teardown.dump[0]
    requires x.Record? ==> s.cols[x.k].phase.Idle?
    ensures x in Dump(s.teardown)
    ensures Dump(ClearDrop(s).teardown)
         == Dump(s.teardown) - multiset{x} + if x.Record? then Held(s.cols[x.k]) else multiset{}
    ensures x.Record? ==> Held(ClearDrop(s).cols[x.k]) == multiset{} && FlagOk(ClearDrop(s).cols[x.k])
  {
    var rest := s.teardown.dump[1..];
    ClearDropRecord(s, x);
    assert s.teardown.dump == [x] + rest;
    assert x.Record? ==> Held(s.cols[x.k]) == multiset(Lists(s.cols[x.k]));
    hide ClearDrop, Drop, Lists;
    var garbage := if x.Record? then Lists(s.cols[x.k]) else [];
    assert multiset(garbage + rest) == multiset(garbage) + multiset(rest);
    PopMore(multiset(rest), x, multiset(garbage));
  }

  lemma PopMore<T>(rest: multiset<T>, x: T, more: multiset<T>)
    ensures more + rest == multiset{x} + rest - multiset{x} + more
  {}

  lemma TallyOf(s: State, d: CollectorId)
    requires Tallies(s) && d in s.cols
    ensures Tally(Held(s.cols[d]), s.info, In(d))
  {}

  lemma TallyDump(s: State)
    requires Tallies(s)
    ensures Tally(Dump(s.teardown), s.info, Dumped)
  {}

  lemma RecordIdle(s: State, x: Item)
    requires RecordsIdle(s) && x in s.info && (s.info[x].loc.In? || s.info[x].loc.Dumped?)
    ensures x.Record? && x.k in s.cols ==> s.cols[x.k].phase.Idle?
  {}

  lemma DumpFirst(s: State, x: Item)
    requires Tallies(s) && RecordsIdle(s) && CanClearDrop(s) && x == s.teardown.dump[0]
    ensures x in s.info && s.info[x].loc == Dumped && x in Dump(s.teardown)
    ensures x.Record? ==> x.k in s.cols && s.cols[x.k].phase.Idle?
  {
    assert x in Dump(s.teardown);
    hide Tallies, RecordsIdle, Dump;
    TallyDump(s);
    TallyIn(Dump(s.teardown), s.info, Dumped, x);
    RecordIdle(s, x);
  }

  lemma ClearDropFlag(s: State, x: Item, d: CollectorId)
    requires Flags(s) && CanClearDrop(s) && x == s.teardown.dump[0] && d in s.cols
    requires x.Record? ==> s.cols[x.k].phase.Idle?
    ensures FlagOk(ClearDrop(s).cols[d])
  {
    FlagAt(s, d);
    ClearDropRecord(s, x);
    hide ClearDrop, Flags;
  }

  lemma ClearDropTally(s: State, x: Item, d: CollectorId)
    requires Tallies(s) && CanClearDrop(s) && x == s.teardown.dump[0] && d in s.cols
    requires x in s.info && s.info[x].loc == Dumped && x in Dump(s.teardown)
    requires x.Record? ==> x.k in s.cols && s.cols[x.k].phase.Idle?
    ensures Tally(Held(ClearDrop(s).cols[d]), ClearDrop(s).info, In(d))
  {
    hide *;
    TallyOf(s, d);
    TallyDump(s);
    ClearDropHeld(s, x);
    ClearDropRecord(s, x);
    if x == Record(d) {
      DropTally(Dump(s.teardown), Held(s.cols[d]), s.info, x, Dumped);
    } else {
      DropTallyOther(Held(s.cols[d]), s.info, x, Dumped, In(d));
    }
  }

  lemma ClearDropDump(s: State, x: Item)
    requires Tallies(s) && CanClearDrop(s) && x == s.teardown.dump[0]
    requires x in s.info && s.info[x].loc == Dumped && x in Dump(s.teardown)
    requires x.Record? ==> x.k in s.cols && s.cols[x.k].phase.Idle?
    ensures Tally(Dump(ClearDrop(s).teardown), ClearDrop(s).info, Dumped)
  {
    hide *;
    TallyDump(s);
    ClearDropHeld(s, x);
    ClearDropRecord(s, x);
    if x.Record? { TallyOf(s, x.k); }
    DropTally(Dump(s.teardown), if x.Record? then Held(s.cols[x.k]) else multiset{}, s.info, x, Dumped);
  }

  lemma ClearDropOwners(s: State, x: Item)
    requires Owners(s) && CanClearDrop(s) && x == s.teardown.dump[0]
    requires s.info[x].loc == Dumped && (x.Record? ==> x.k in s.cols && s.cols[x.k].phase.Idle?)
    ensures Owners(ClearDrop(s))
  {
    hide Owners, ClearDrop, Held, Drop, FlagOk, Dump;
    ClearDropHeld(s, x);
    ClearDropRecord(s, x);
    DropOwners(s, ClearDrop(s), x, Dumped);
  }

  lemma GarbageClearDrop(s: State)
    requires Garbage(s) && RecordsIdle(s) && CanClearDrop(s)
    ensures Garbage(ClearDrop(s))
  {
    var x := s.teardown.dump[0];
    hide ClearDrop, Owners, Held, FlagOk, Dump, Tally, RecordsIdle;
    DumpFirst(s, x);
    ClearDropOwners(s, x);
    ClearDropDump(s, x);
    ClearDropRecord(s, x);
    hide *;
    forall d | d in ClearDrop(s).cols
      ensures Tally(Held(ClearDrop(s).cols[d]), ClearDrop(s).info, In(d)) && FlagOk(ClearDrop(s).cols[d])
    {
      ClearDropTally(s, x, d);
      ClearDropFlag(s, x, d);
    }
    FlagsOf(ClearDrop(s));
    GarbageOf(ClearDrop(s));
  }

  lemma GarbageOf(s: State)
    requires forall d :: d in s.cols ==> Tally(Held(s.cols[d]), s.info, In(d))
    requires Tally(Dump(s.teardown), s.info, Dumped) && Flags(s) && Owners(s)
    ensures Garbage(s)
  {
    hide Tally, Flags, Owners, Held, Dump;
  }

  // ---------------------------------------------------------------- the other actions

  lemma GarbageRetire(s: State, c: CollectorId, o: InstanceId)
    requires Garbage(s) && CanRetire(s, c, o) && (Record(c) in s.info ==> !s.info[Record(c)].loc.Freed?)
    ensures Garbage(Retire(s, c, o))
  {
    var t := Retire(s, c, o);
    UpdKeepsOthers(s, t, c);
    CollectHeld(s.cols[c], Instance(o));
    hide Garbage, OthersKeep, Held, FlagOk;
    GainGarbage(s, t, c, Instance(o), Info(In(c), s.epoch, s.clock));
  }

  lemma CollectHeld(col: Col, x: Item)
    requires !col.phase.Allocating?
    ensures Held(CollectCol(col, x)) == Held(col) + multiset{x} && FlagOk(CollectCol(col, x))
  {
    assert multiset([x] + col.current) == multiset{x} + multiset(col.current);
  }

  lemma EnterHeld(col: Col, now8: Epochs.Epoch, now: nat, clock: nat)
    requires FlagOk(col) && col.phase.Idle?
    ensures Held(EnterCol(col, now8, now, clock)) == Held(col) && FlagOk(EnterCol(col, now8, now, clock))
  {}

  lemma GarbageEnter(s: State, c: CollectorId)
    requires Garbage(s) && CanEnter(s, c)
    ensures Garbage(Enter(s, c))
  {
    FlagAt(s, c);
    EnterHeld(s.cols[c], s.epoch8, s.epoch, s.clock);
    UpdKeepsOthers(s, Enter(s, c), c);
    hide Garbage, OthersKeep, Held, FlagOk, EnterCol;
    QuietGarbage(s, Enter(s, c), c);
  }

  /** Actions of one collector that touch no garbage. */
  lemma GarbageUntouched(s: State, t: State, c: CollectorId)
    requires Garbage(s) && c in s.cols && c in t.cols && t.cols == s.cols[c := t.cols[c]]
    requires t.info == s.info && t.teardown == s.teardown
    requires Lists(t.cols[c]) == Lists(s.cols[c]) && Doomed(t.cols[c].phase) == Doomed(s.cols[c].phase)
    requires s.cols[c].hasGarbage ==> t.cols[c].hasGarbage
    requires t.cols[c].phase.Allocating? ==> s.cols[c].phase.Allocating? && t.cols[c].hasGarbage == s.cols[c].hasGarbage
    ensures Garbage(t)
  {
    FlagAt(s, c);
    UpdKeepsOthers(s, t, c);
    hide Garbage, OthersKeep, Doomed, Lists, Dump;
    QuietGarbage(s, t, c);
  }

  lemma AdoptLists(s: State, c: CollectorId)
    requires CanUnlink(s, c)
    ensures Held(Adopt(s, c).cols[c]) == Held(s.cols[c]) + multiset{Record(s.cols[c].phase.k)}
    ensures FlagOk(Adopt(s, c).cols[c])
  {
    var x := Record(s.cols[c].phase.k);
    CollectHeld(s.cols[c], x);
    assert Lists(Adopt(s, c).cols[c]) == Lists(CollectCol(s.cols[c], x));
    assert Doomed(s.cols[c].phase) == multiset{} && Doomed(Adopt(s, c).cols[c].phase) == multiset{};
    hide Lists, CollectCol;
  }

  lemma AdoptOthers(s: State, c: CollectorId)
    requires CanUnlink(s, c)
    ensures OthersKeep(s, Adopt(s, c), c)
  {}

  lemma GarbageAdopt(s: State, c: CollectorId)
    requires Garbage(s) && CanUnlink(s, c) && (Record(c) in s.info ==> !s.info[Record(c)].loc.Freed?)
    requires Record(s.cols[c].phase.k) in s.info && !Retired(s.info[Record(s.cols[c].phase.k)])
    ensures Garbage(Adopt(s, c))
  {
    AdoptLists(s, c);
    AdoptOthers(s, c);
    hide Garbage, OthersKeep, Held, FlagOk;
    GainGarbage(s, Adopt(s, c), c, Record(s.cols[c].phase.k), Info(In(c), s.epoch, s.clock));
  }
}
