/** Invariants of the reclaimer, part 3: the grace period.  Unbounded epochs and times of retirement
    are compared with what active readers announced. */
module ReclaimerGrace {
  import opened Base
  import opened Epochs
  import opened Reclaimer
  import opened ReclaimerShape
  import opened ReclaimerGarbage

  /** Retirements lie in the past. */
  ghost predicate Dates(s: State) {
    forall x :: x in s.info && Retired(s.info[x]) ==> s.info[x].epoch <= s.epoch && s.info[x].stamp < s.clock
  }

  /** All of `items` were retired at least `n` epochs before `epoch`. */
  ghost predicate Aged(info: map<Item, Info>, items: seq<Item>, n: nat, epoch: nat) {
    forall x :: x in items && x in info ==> info[x].epoch + n <= epoch
  }

  /** The three lists and the rotated one hold ever older garbage. */
  ghost predicate AgesOk(info: map<Item, Info>, col: Col) {
    && Aged(info, col.previous, 0, col.epoch)
    && Aged(info, col.next, 1, col.epoch)
    && (col.phase.Draining? ==> Aged(info, col.phase.inner, 2, col.epoch) && Aged(info, col.phase.outer, 2, col.epoch))
  }

  ghost predicate Ages(s: State) { forall c :: c in s.cols ==> AgesOk(s.info, s.cols[c]) }

  /** Garbage of an adopted collector is older than the adoption. */
  predicate Older(info: map<Item, Info>, i: Info, r: Item) {
    r in info && (info[r].loc.In? || info[r].loc.Dumped?) ==> i.epoch <= info[r].epoch && i.stamp < info[r].stamp
  }

  ghost predicate Nested(s: State) {
    forall x :: x in s.info && s.info[x].loc.In? ==> Older(s.info, s.info[x], Record(s.info[x].loc.c))
  }

  /** An active reader that was there when an item was retired has announced no later epoch; and
      what is freed, or about to be freed by `clear_chain`, was retired before any active reader. */
  predicate SeenOk(col: Col, i: Info) {
    && (Retired(i) && col.since < i.stamp ==> col.epoch <= i.epoch)
    && (i.loc.Freed? || i.loc.Dumped? ==> i.stamp <= col.since)
  }

  ghost predicate Seen(s: State) {
    forall c, x :: c in s.cols && Active(s.cols[c]) && x in s.info ==> SeenOk(s.cols[c], s.info[x])
  }

  /** Only an active reader holds pointers, and it was there before the retirement. */
  predicate HoldOk(s: State, c: CollectorId, o: InstanceId) {
    && c in s.cols && Active(s.cols[c]) && Instance(o) in s.info
    && (Retired(s.info[Instance(o)]) ==> s.cols[c].since < s.info[Instance(o)].stamp)
  }

  ghost predicate Holds(s: State) { forall c, o :: (c, o) in s.holds ==> HoldOk(s, c, o) }

  ghost predicate Grace(s: State) { Dates(s) && Ages(s) && Nested(s) && Seen(s) && Holds(s) }

  /** The heart of the matter: an item retired two epochs before an announcement has no reader left
      that was active at its retirement. */
  lemma TwoEpochsSuffice(s: State, c: CollectorId, i: Info, reader: Col)
    requires c in s.cols && ColOk(s, s.cols[c]) && ColOk(s, reader) && Active(reader)
    requires Retired(i) && i.epoch + 2 <= s.cols[c].epoch && SeenOk(reader, i)
    ensures i.stamp <= reader.since
  {}

  // ---------------------------------------------------------------- the invariant as a whole

  ghost predicate Inv(s: State) { Shape(s) && Garbage(s) && Grace(s) }

  lemma InvInitial()
    ensures Inv(INITIAL)
  {}

  // ---------------------------------------------------------------- steps of one collector

  /** Collector `c` steps, retiring and freeing nothing. */
  ghost predicate PlainStep(s: State, t: State, c: CollectorId) {
    && c in s.cols && c in t.cols && t.cols == s.cols[c := t.cols[c]]
    && t.info == s.info && t.epoch >= s.epoch && t.clock >= s.clock
    && var col, col' := s.cols[c], t.cols[c];
       (Active(col') ==> Active(col) && col'.epoch == col.epoch && col'.since == col.since)
  }

  lemma PlainGrace(s: State, t: State, c: CollectorId)
    requires Grace(s) && PlainStep(s, t, c) && AgesOk(t.info, t.cols[c])
    requires t.holds <= s.holds
    requires forall h :: h in t.holds && h.0 == c ==> Active(t.cols[c])
    ensures Grace(t)
  {
    PlainSeen(s, t, c);
    PlainHolds(s, t, c);
    hide SeenOk, HoldOk, AgesOk, Older;
  }

  lemma PlainSeen(s: State, t: State, c: CollectorId)
    requires Seen(s) && PlainStep(s, t, c)
    ensures Seen(t)
  {
    forall d, x | d in t.cols && Active(t.cols[d]) && x in t.info
      ensures SeenOk(t.cols[d], t.info[x])
    {
      assert SeenOk(s.cols[d], s.info[x]);
    }
  }

  lemma PlainHolds(s: State, t: State, c: CollectorId)
    requires Holds(s) && PlainStep(s, t, c) && t.holds <= s.holds
    requires forall h :: h in t.holds && h.0 == c ==> Active(t.cols[c])
    ensures Holds(t)
  {
    forall d, o | (d, o) in t.holds
      ensures HoldOk(t, d, o)
    {
      assert HoldOk(s, d, o);
    }
  }

  // ---------------------------------------------------------------- entering a guard

  /** Items in a collector's lists are on record as that collector's. */
  lemma Owned(s: State, c: CollectorId, x: Item)
    requires Garbage(s) && c in s.cols && (x in Lists(s.cols[c]) || x in Doomed(s.cols[c].phase))
    ensures x in s.info && s.info[x].loc == In(c)
  {
    assert x in Held(s.cols[c]) by {
      if x in Lists(s.cols[c]) { assert x in multiset(Lists(s.cols[c])); }
    }
    TallyIn(Held(s.cols[c]), s.info, In(c), x);
  }

  /** The rotation: the announcement has moved by at least one, whatever the stored values say. */
  lemma EnterAges(info: map<Item, Info>, col: Col, now8: Epoch, now: nat, clock: nat)
    requires AgesOk(info, col) && col.phase.Idle? && col.epoch <= now
    requires col.announcement == Wrap(col.epoch) && now8 == Wrap(now) && Aged(info, col.current, 0, now)
    ensures AgesOk(info, EnterCol(col, now8, now, clock))
  {
    assert col.announcement != now8 ==> col.epoch < now;
    hide Wrap;
  }

  lemma EnterSeen(s: State, c: CollectorId)
    requires Seen(s) && Dates(s) && CanEnter(s, c)
    ensures Seen(Enter(s, c))
  {
    var t := Enter(s, c);
    assert t.cols[c].since == s.clock;
    hide EnterCol;
    forall d, x | d in t.cols && Active(t.cols[d]) && x in t.info
      ensures SeenOk(t.cols[d], t.info[x])
    {
      if d != c { assert SeenOk(s.cols[d], s.info[x]); }
    }
  }

  lemma EnterHolds(s: State, c: CollectorId)
    requires Holds(s) && CanEnter(s, c) && !Active(s.cols[c])
    ensures Holds(Enter(s, c))
  {
    var t := Enter(s, c);
    hide EnterCol;
    forall d, o | (d, o) in t.holds
      ensures HoldOk(t, d, o)
    {
      assert HoldOk(s, d, o);
    }
  }

  lemma CurrentIsDated(s: State, c: CollectorId)
    requires Garbage(s) && Dates(s) && c in s.cols
    ensures Aged(s.info, s.cols[c].current, 0, s.epoch)
  {
    hide Garbage;
    forall x | x in s.cols[c].current && x in s.info
      ensures s.info[x].epoch <= s.epoch
    {
      assert x in Lists(s.cols[c]);
      Owned(s, c, x);
    }
  }

  lemma EnterAllAges(s: State, c: CollectorId)
    requires Ages(s) && CanEnter(s, c) && AgesOk(s.info, EnterCol(s.cols[c], s.epoch8, s.epoch, s.clock))
    ensures Ages(Enter(s, c))
  {
    hide AgesOk, EnterCol;
  }

  lemma EnterDates(s: State, c: CollectorId)
    requires Dates(s) && Nested(s) && CanEnter(s, c)
    ensures Dates(Enter(s, c)) && Nested(Enter(s, c))
  {
    hide EnterCol, Older;
  }

  lemma GraceEnter(s: State, c: CollectorId)
    requires Inv(s) && CanEnter(s, c)
    ensures Grace(Enter(s, c))
  {
    OfCollector(s, c);
    hide Shape, Garbage, ScanOk, LockOk, Dates, Nested, Seen, Holds, EnterCol, Enter, Aged;
    assert AgesOk(s.info, s.cols[c]) && !Active(s.cols[c]);
    hide Ages, AgesOk, ColOk;
    CurrentIsDated(s, c);
    EnterAges(s.info, s.cols[c], s.epoch8, s.epoch, s.clock);
    EnterAllAges(s, c);
    EnterDates(s, c);
    EnterSeen(s, c);
    EnterHolds(s, c);
  }

  // ---------------------------------------------------------------- becoming garbage

  /** Item `x` joins the current list of `c` now. */
  ghost predicate Gains(s: State, t: State, c: CollectorId, x: Item) {
    && c in s.cols && x in s.info && !Retired(s.info[x])
    && t.info == s.info[x := Info(In(c), s.epoch, s.clock)] && t.clock == s.clock + 1 && t.epoch == s.epoch
    && t.holds == s.holds && t.cols.Keys == s.cols.Keys
    && (forall d :: d in s.cols ==>
          t.cols[d].previous == s.cols[d].previous && t.cols[d].next == s.cols[d].next
          && Doomed(t.cols[d].phase) == Doomed(s.cols[d].phase) && t.cols[d].epoch == s.cols[d].epoch
          && t.cols[d].since == s.cols[d].since && t.cols[d].word == s.cols[d].word)
  }

  lemma GainAge(info: map<Item, Info>, col: Col, x: Item, i: Info)
    requires AgesOk(info, col) && x !in col.previous && x !in col.next && x !in Doomed(col.phase)
    ensures AgesOk(info[x := i], col)
  {
    assert col.phase.Draining? ==> x !in multiset(col.phase.inner) && x !in multiset(col.phase.outer);
  }

  lemma SameAges(info: map<Item, Info>, a: Col, b: Col)
    requires AgesOk(info, a) && a.previous == b.previous && a.next == b.next && a.epoch == b.epoch
    requires b.phase.Draining? ==> b.phase == a.phase
    ensures AgesOk(info, b)
  {
    hide Aged;
  }

  lemma GainAges(s: State, t: State, c: CollectorId, x: Item)
    requires Garbage(s) && Ages(s) && Gains(s, t, c, x)
    requires forall d :: d in s.cols ==> (t.cols[d].phase.Draining? ==> t.cols[d].phase == s.cols[d].phase)
    ensures Ages(t)
  {
    hide Garbage, AgesOk;
    forall d | d in t.cols
      ensures AgesOk(t.info, t.cols[d])
    {
      NotInLists(s, d, x);
      GainAge(s.info, s.cols[d], x, t.info[x]);
      SameAges(t.info, s.cols[d], t.cols[d]);
    }
  }

  lemma GainDates(s: State, t: State, c: CollectorId, x: Item)
    requires Dates(s) && Nested(s) && Gains(s, t, c, x)
    requires Record(c) in s.info ==> !Retired(s.info[Record(c)]) && x != Record(c)
    ensures Dates(t) && Nested(t)
  {
    forall y | y in t.info && t.info[y].loc.In?
      ensures Older(t.info, t.info[y], Record(t.info[y].loc.c))
    {
      if y != x { assert Older(s.info, s.info[y], Record(s.info[y].loc.c)); }
    }
  }

  lemma GainSeen(s: State, t: State, c: CollectorId, x: Item)
    requires ColsOk(s) && Seen(s) && Holds(s) && Gains(s, t, c, x)
    ensures Seen(t) && Holds(t)
  {
    forall d, y | d in t.cols && Active(t.cols[d]) && y in t.info
      ensures SeenOk(t.cols[d], t.info[y])
    {
      assert ColOk(s, s.cols[d]) && SeenOk(s.cols[d], s.info[y]);
    }
    forall d, o | (d, o) in t.holds
      ensures HoldOk(t, d, o)
    {
      assert HoldOk(s, d, o) && ColOk(s, s.cols[d]);
    }
  }

  lemma GainGrace(s: State, t: State, c: CollectorId, x: Item)
    requires Inv(s) && Gains(s, t, c, x)
    requires forall d :: d in s.cols ==> (t.cols[d].phase.Draining? ==> t.cols[d].phase == s.cols[d].phase)
    requires Record(c) in s.info ==> !Retired(s.info[Record(c)]) && x != Record(c)
    ensures Grace(t)
  {
    assert ColsOk(s);
    hide Shape, Garbage, ColsOk, Ages, Dates, Nested, Seen, Holds, Gains;
    GainAges(s, t, c, x);
    GainDates(s, t, c, x);
    GainSeen(s, t, c, x);
  }

  /** A collector in use is in the chain. */
  lemma InUse(s: State, c: CollectorId)
    requires Shape(s) && c in s.cols && !IsInvalid(s.cols[c].word) && !s.cols[c].phase.Allocating?
    ensures c in s.chain && Record(c) in s.info && !Retired(s.info[Record(c)]) && s.info[Record(c)].loc.Home?
  {}

  lemma RetireGains(s: State, c: CollectorId, o: InstanceId)
    requires CanRetire(s, c, o)
    ensures Gains(s, Retire(s, c, o), c, Instance(o))
    ensures forall d :: d in s.cols ==>
      (Retire(s, c, o).cols[d].phase.Draining? ==> Retire(s, c, o).cols[d].phase == s.cols[d].phase)
  {
    hide Doomed;
  }

  lemma GraceRetire(s: State, c: CollectorId, o: InstanceId)
    requires Inv(s) && CanRetire(s, c, o)
    ensures Grace(Retire(s, c, o))
  {
    InUse(s, c);
    RetireGains(s, c, o);
    hide Inv, Grace, Gains, Retire;
    GainGrace(s, Retire(s, c, o), c, Instance(o));
  }

  /** The collector about to be unlinked is in the chain. */
  lemma UnlinkTarget(s: State, c: CollectorId)
    requires Shape(s) && CanUnlink(s, c)
    ensures var k := s.cols[c].phase.k;
      && k in s.cols && k in s.chain && IsInvalid(s.cols[k].word)
      && Record(k) in s.info && !Retired(s.info[Record(k)]) && k != c
    ensures !IsInvalid(s.cols[c].word) && Active(s.cols[c])
    ensures s.cols[c].phase.k == s.chain[|s.chain| - s.cols[c].phase.left]
  {
    OfCollector(s, c);
    ScannerIsActive(s, s.cols[c]);
    hide ColsOk, LockOk, ScansOk, TeardownOk, CaughtUp;
  }

  lemma AdoptDoomed(s: State, c: CollectorId, d: CollectorId)
    requires CanUnlink(s, c) && d in s.cols
    ensures var a, b := Adopt(s, c).cols[d], s.cols[d];
      && a.previous == b.previous && a.next == b.next && a.epoch == b.epoch && a.since == b.since && a.word == b.word
      && (a.phase == b.phase || (!a.phase.Draining? && !b.phase.Draining?))
  {}

  lemma AdoptGains(s: State, c: CollectorId)
    requires CanUnlink(s, c) && Record(s.cols[c].phase.k) in s.info && !Retired(s.info[Record(s.cols[c].phase.k)])
    ensures Gains(s, Adopt(s, c), c, Record(s.cols[c].phase.k))
    ensures forall d :: d in s.cols ==>
      (Adopt(s, c).cols[d].phase.Draining? ==> Adopt(s, c).cols[d].phase == s.cols[d].phase)
  {
    AdoptWord(s, c, c);
    assert Adopt(s, c).clock == s.clock + 1 && Adopt(s, c).epoch == s.epoch && Adopt(s, c).holds == s.holds;
    hide Adopt;
    forall d | d in s.cols
      ensures var a, b := Adopt(s, c).cols[d], s.cols[d];
        && a.previous == b.previous && a.next == b.next && a.epoch == b.epoch && a.since == b.since && a.word == b.word
        && Doomed(a.phase) == Doomed(b.phase) && (a.phase.Draining? ==> a.phase == b.phase)
    {
      AdoptDoomed(s, c, d);
    }
    hide Doomed;
  }

  lemma GraceAdopt(s: State, c: CollectorId)
    requires Inv(s) && CanUnlink(s, c)
    ensures Grace(Adopt(s, c))
  {
    UnlinkTarget(s, c);
    InUse(s, c);
    AdoptGains(s, c);
    hide Inv, Grace, Gains, Adopt;
    GainGrace(s, Adopt(s, c), c, Record(s.cols[c].phase.k));
  }

  // ---------------------------------------------------------------- dropping

  /** Items only change place. */
  ghost predicate SameDates(a: map<Item, Info>, b: map<Item, Info>) {
    a.Keys == b.Keys && forall x :: x in a ==> b[x].epoch == a[x].epoch && b[x].stamp == a[x].stamp
  }

  lemma DropDates(info: map<Item, Info>, x: Item, loc: Loc)
    requires x in info
    ensures SameDates(info, Drop(info, x, loc))
  {}

  lemma LoseDates(info: map<Item, Info>, lost: seq<Item>)
    ensures SameDates(info, Lose(info, lost))
  {}

  lemma SameDatesAges(a: map<Item, Info>, b: map<Item, Info>, col: Col)
    requires AgesOk(a, col) && SameDates(a, b)
    ensures AgesOk(b, col)
  {}

  /** What an adopted collector held is old enough to be dropped with it. */
  lemma OpenedAges(s: State, c: CollectorId, k: CollectorId)
    requires Garbage(s) && Nested(s) && CanDrain(s, c) && AgesOk(s.info, s.cols[c])
    requires Victim(s.cols[c].phase) == Record(k) && s.info[Record(k)].loc == In(c)
    ensures Aged(s.info, Lists(s.cols[k]), 2, s.cols[c].epoch)
  {
    assert s.info[Record(k)].epoch + 2 <= s.cols[c].epoch;
    hide Garbage, AgesOk, Lists;
    forall x | x in Lists(s.cols[k]) && x in s.info
      ensures s.info[x].epoch + 2 <= s.cols[c].epoch
    {
      Owned(s, k, x);
      assert Older(s.info, s.info[x], Record(k));
    }
  }

  lemma DrainAge(s: State, c: CollectorId)
    requires CanDrain(s, c) && AgesOk(s.info, s.cols[c])
    requires Victim(s.cols[c].phase) != Record(c)
    requires var x := Victim(s.cols[c].phase); x.Record? ==> Aged(s.info, Lists(s.cols[x.k]), 2, s.cols[c].epoch)
    ensures AgesOk(s.info, Drain(s, c).cols[c])
  {
    hide Drop, Lists;
  }

  lemma EmptiedAge(info: map<Item, Info>, col: Col)
    requires AgesOk(info, col) && !col.phase.Draining?
    ensures AgesOk(info, Emptied(col))
  {}

  lemma DrainAgeOf(s: State, c: CollectorId, x: Item, d: CollectorId)
    requires Ages(s) && RecordsIdle(s) && CanDrain(s, c) && d in s.cols && x == Victim(s.cols[c].phase)
    requires x in s.info && Retired(s.info[x]) && x != Record(c) && AgesOk(s.info, Drain(s, c).cols[c])
    ensures AgesOk(s.info, Drain(s, c).cols[d])
  {
    assert AgesOk(s.info, s.cols[d]);
    DrainOthers(s, c);
    hide AgesOk, Drop, FlagOk;
    if x == Record(d) && d != c {
      EmptiedAge(s.info, s.cols[d]);
      assert Drain(s, c).cols[d] == Emptied(s.cols[d]);
    }
  }

  /** What is visible of readers stays the same. */
  ghost predicate SameReaders(s: State, t: State) {
    && t.holds == s.holds && t.cols.Keys == s.cols.Keys && t.epoch == s.epoch && t.clock == s.clock
    && forall d :: d in s.cols ==>
         t.cols[d].word == s.cols[d].word && t.cols[d].epoch == s.cols[d].epoch && t.cols[d].since == s.cols[d].since
  }

  lemma DrainReaders(s: State, c: CollectorId)
    requires CanDrain(s, c)
    ensures SameReaders(s, Drain(s, c))
  {
    hide Drop;
  }

  lemma DrainAgeDrained(s: State, c: CollectorId, x: Item)
    requires Garbage(s) && Nested(s) && CanDrain(s, c) && AgesOk(s.info, s.cols[c]) && x == Victim(s.cols[c].phase)
    requires s.info[x].loc == In(c) && x != Record(c)
    ensures AgesOk(s.info, Drain(s, c).cols[c])
  {
    if x.Record? { OpenedAges(s, c, x.k); }
    DrainAge(s, c);
    hide Garbage, Nested, AgesOk, Aged, Drain;
  }

  lemma DrainAgeMoved(s: State, c: CollectorId, x: Item, d: CollectorId)
    requires CanDrain(s, c) && d in s.cols && x == Victim(s.cols[c].phase) && AgesOk(s.info, Drain(s, c).cols[d])
    ensures AgesOk(Drain(s, c).info, Drain(s, c).cols[d])
  {
    DrainOthers(s, c);
    DropDates(s.info, x, In(c));
    hide AgesOk, Drop, SameDates, Drain, FlagOk;
    SameDatesAges(s.info, Drain(s, c).info, Drain(s, c).cols[d]);
  }

  lemma DrainAgesAll(s: State, c: CollectorId, x: Item)
    requires Ages(s) && RecordsIdle(s) && CanDrain(s, c) && x == Victim(s.cols[c].phase)
    requires x in s.info && Retired(s.info[x]) && x != Record(c) && AgesOk(s.info, Drain(s, c).cols[c])
    ensures Ages(Drain(s, c))
  {
    DrainReaders(s, c);
    hide RecordsIdle, AgesOk, Ages, Drain, Victim, CanDrain;
    forall d | d in Drain(s, c).cols
      ensures AgesOk(Drain(s, c).info, Drain(s, c).cols[d])
    {
      DrainAgeOf(s, c, x, d);
      DrainAgeMoved(s, c, x, d);
    }
    AgesOf(Drain(s, c));
  }

  lemma DrainAges(s: State, c: CollectorId)
    requires Garbage(s) && Nested(s) && Ages(s) && RecordsIdle(s) && CanDrain(s, c)
    ensures Ages(Drain(s, c))
  {
    hide Flags, Owners, Tallies, Nested, RecordsIdle, AgesOk, Ages, Drain, Victim, Held;
    NotItself(s, c);
    AgesAt(s, c);
    DrainAgeDrained(s, c, Victim(s.cols[c].phase));
    DrainAgesAll(s, c, Victim(s.cols[c].phase));
  }

  lemma AgesAt(s: State, c: CollectorId)
    requires Ages(s) && c in s.cols
    ensures AgesOk(s.info, s.cols[c])
  {}

  lemma AgesOf(s: State)
    requires forall d :: d in s.cols ==> AgesOk(s.info, s.cols[d])
    ensures Ages(s)
  {}

  lemma MovedSeen(s: State, t: State, x: Item, loc: Loc, d: CollectorId, y: Item)
    requires SameReaders(s, t) && x in s.info && Retired(s.info[x]) && t.info == Drop(s.info, x, loc)
    requires loc.In? || (loc.Dumped? && s.info[x].loc.Dumped?)
    requires d in s.cols && y in s.info && SeenOk(s.cols[d], s.info[y])
    requires s.info[x].stamp <= s.cols[d].since
    requires s.info[y].loc.In? ==> Older(s.info, s.info[y], Record(s.info[y].loc.c))
    ensures SeenOk(t.cols[d], t.info[y])
  {}

  lemma DropSeen(s: State, t: State, x: Item, loc: Loc)
    requires Seen(s) && Nested(s) && SameReaders(s, t) && x in s.info && Retired(s.info[x])
    requires t.info == Drop(s.info, x, loc)
    requires loc.In? || (loc.Dumped? && s.info[x].loc.Dumped?)
    requires forall d :: d in s.cols && Active(s.cols[d]) ==> s.info[x].stamp <= s.cols[d].since
    ensures Seen(t)
  {
    hide Drop, SeenOk, Older, Retired;
    forall d, y | d in t.cols && Active(t.cols[d]) && y in t.info
      ensures SeenOk(t.cols[d], t.info[y])
    {
      DropDates(s.info, x, loc);
      MovedSeen(s, t, x, loc, d, y);
    }
  }

  lemma DropHolds(s: State, t: State, x: Item, loc: Loc)
    requires Holds(s) && SameReaders(s, t) && x in s.info && Retired(s.info[x]) && t.info == Drop(s.info, x, loc)
    requires loc.In? || loc.Dumped?
    ensures Holds(t)
  {
    forall d, o | (d, o) in t.holds
      ensures HoldOk(t, d, o)
    {
      assert HoldOk(s, d, o);
    }
  }

  lemma DropNested(s: State, t: State, x: Item, loc: Loc)
    requires Dates(s) && Nested(s) && SameReaders(s, t) && x in s.info && Retired(s.info[x])
    requires t.info == Drop(s.info, x, loc)
    requires loc.In? || loc.Dumped?
    requires loc.In? && Record(loc.c) in s.info ==> !Retired(s.info[Record(loc.c)])
    ensures Dates(t) && Nested(t)
  {
    forall y | y in t.info && t.info[y].loc.In?
      ensures Older(t.info, t.info[y], Record(t.info[y].loc.c))
    {
      assert Older(s.info, s.info[y], Record(s.info[y].loc.c));
    }
  }

  /** The item being dropped was retired before any active reader became active. */
  lemma VictimUnseen(s: State, c: CollectorId, d: CollectorId)
    requires CanDrain(s, c) && ColOk(s, s.cols[c]) && AgesOk(s.info, s.cols[c])
    requires Retired(s.info[Victim(s.cols[c].phase)]) && d in s.cols && Active(s.cols[d]) && ColOk(s, s.cols[d])
    requires SeenOk(s.cols[d], s.info[Victim(s.cols[c].phase)])
    ensures s.info[Victim(s.cols[c].phase)].stamp <= s.cols[d].since
  {
    TwoEpochsSuffice(s, c, s.info[Victim(s.cols[c].phase)], s.cols[d]);
  }

  lemma DrainUnseen(s: State, c: CollectorId)
    requires ColsOk(s) && Ages(s) && Seen(s) && CanDrain(s, c) && Retired(s.info[Victim(s.cols[c].phase)])
    ensures forall d :: d in s.cols && Active(s.cols[d]) ==> s.info[Victim(s.cols[c].phase)].stamp <= s.cols[d].since
  {
    hide ColOk, AgesOk, SeenOk, Victim;
    forall d | d in s.cols && Active(s.cols[d])
      ensures s.info[Victim(s.cols[c].phase)].stamp <= s.cols[d].since
    {
      VictimUnseen(s, c, d);
    }
  }

  /** A collector that drains is in use, so its own record is no garbage. */
  lemma DrainerInUse(s: State, c: CollectorId)
    requires Shape(s) && c in s.cols && s.cols[c].phase.Draining?
    ensures Record(c) in s.info && !Retired(s.info[Record(c)])
  {
    OfCollector(s, c);
    InUse(s, c);
    hide Shape;
  }

  lemma DrainKeepsGrace(s: State, c: CollectorId, x: Item)
    requires ColsOk(s) && Grace(s) && CanDrain(s, c) && x == Victim(s.cols[c].phase) && Retired(s.info[x])
    requires Record(c) in s.info && !Retired(s.info[Record(c)]) && Ages(Drain(s, c))
    ensures Grace(Drain(s, c))
  {
    DrainReaders(s, c);
    DrainOthers(s, c);
    hide ColsOk, Drain, Drop, Seen, Nested, Ages, Dates, Holds, SameReaders, FlagOk;
    DrainUnseen(s, c);
    DropSeen(s, Drain(s, c), x, In(c));
    DropHolds(s, Drain(s, c), x, In(c));
    DropNested(s, Drain(s, c), x, In(c));
  }

  lemma DrainFacts(s: State, c: CollectorId)
    requires Shape(s) && Garbage(s) && CanDrain(s, c)
    ensures RecordsIdle(s) && ColsOk(s) && Retired(s.info[Victim(s.cols[c].phase)])
    ensures Record(c) in s.info && !Retired(s.info[Record(c)])
  {
    RecordsAreIdle(s);
    NotItself(s, c);
    DrainerInUse(s, c);
    hide Linked, Homes, LockOk, ScansOk, TeardownOk, Garbage;
  }

  lemma GraceDrain(s: State, c: CollectorId)
    requires Inv(s) && CanDrain(s, c)
    ensures Grace(Drain(s, c))
  {
    hide Shape, Garbage, Drain, ColsOk, Dates, Ages, Seen, Holds, Nested, RecordsIdle, Victim;
    DrainFacts(s, c);
    DrainAges(s, c);
    hide Grace;
    DrainKeepsGrace(s, c, Victim(s.cols[c].phase));
  }

  // ---------------------------------------------------------------- a failing destructor

  lemma FailAges(s: State, c: CollectorId)
    requires Ages(s) && CanFailDrain(s, c)
    ensures Ages(FailDrain(s, c))
  {
    FailCols(s, c);
    var x := Victim(s.cols[c].phase);
    var info1 := Drop(s.info, x, In(c));
    DropDates(s.info, x, In(c));
    LoseDates(info1, Rest(s.cols[c].phase).inner);
    FailAge(s.info, s.cols[c]);
    hide AgesOk, Drop, Lose, FailCol;
    forall d | d in FailDrain(s, c).cols
      ensures AgesOk(FailDrain(s, c).info, FailDrain(s, c).cols[d])
    {
      assert AgesOk(s.info, s.cols[d]);
      SameDatesAges(s.info, info1, FailDrain(s, c).cols[d]);
      SameDatesAges(info1, FailDrain(s, c).info, FailDrain(s, c).cols[d]);
    }
  }

  lemma FailAge(info: map<Item, Info>, col: Col)
    requires col.phase.Draining? && (col.phase.inner != [] || col.phase.outer != []) && AgesOk(info, col)
    ensures AgesOk(info, FailCol(col))
  {}

  /** Losing items leaves no trace for readers: they stay retired, and no reader gets to see them. */
  lemma LoseGrace(s: State, t: State, lost: seq<Item>)
    requires Seen(s) && Holds(s) && Dates(s) && Nested(s) && SameReaders(s, t) && t.info == Lose(s.info, lost)
    requires forall x :: x in lost && x in s.info ==> Retired(s.info[x])
    ensures Seen(t) && Holds(t) && Dates(t) && Nested(t)
  {
    forall d, y | d in t.cols && Active(t.cols[d]) && y in t.info
      ensures SeenOk(t.cols[d], t.info[y])
    {
      assert SeenOk(s.cols[d], s.info[y]);
    }
    forall d, o | (d, o) in t.holds
      ensures HoldOk(t, d, o)
    {
      assert HoldOk(s, d, o);
    }
    forall y | y in t.info && t.info[y].loc.In?
      ensures Older(t.info, t.info[y], Record(t.info[y].loc.c))
    {
      assert Older(s.info, s.info[y], Record(s.info[y].loc.c));
    }
  }

  /** The failing drop is an ordinary drop followed by the loss of what was left inside. */
  lemma FailReaders(s: State, c: CollectorId, u: State)
    requires CanFailDrain(s, c) && u == s.(info := Drop(s.info, Victim(s.cols[c].phase), In(c)))
    ensures SameReaders(s, u) && SameReaders(u, FailDrain(s, c))
    ensures FailDrain(s, c).info == Lose(u.info, Rest(s.cols[c].phase).inner)
  {
    hide Drop, Lose;
  }

  lemma LostAreRetired(s: State, c: CollectorId)
    requires Garbage(s) && CanFailDrain(s, c)
    ensures forall x :: x in Rest(s.cols[c].phase).inner && x in s.info ==> Retired(s.info[x])
    ensures forall x :: x in s.cols[c].phase.inner && x in s.info ==> Retired(s.info[x])
  {
    forall x | x in s.cols[c].phase.inner && x in s.info
      ensures Retired(s.info[x])
    {
      assert x in multiset(s.cols[c].phase.inner);
      Owned(s, c, x);
    }
    hide Garbage;
  }

  lemma FailKeepsGrace(s: State, c: CollectorId, x: Item)
    requires ColsOk(s) && Grace(s) && CanFailDrain(s, c) && x == Victim(s.cols[c].phase) && Retired(s.info[x])
    requires Record(c) in s.info && !Retired(s.info[Record(c)])
    requires forall x :: x in Rest(s.cols[c].phase).inner && x in s.info ==> Retired(s.info[x])
    ensures Grace(FailDrain(s, c))
  {
    var u := s.(info := Drop(s.info, x, In(c)));
    FailReaders(s, c, u);
    FailAges(s, c);
    assert forall y :: y in Rest(s.cols[c].phase).inner && y in u.info ==> Retired(u.info[y]);
    hide ColsOk, FailDrain, Drop, Lose, Seen, Nested, Ages, Dates, Holds, SameReaders;
    DrainUnseen(s, c);
    DropSeen(s, u, x, In(c));
    DropHolds(s, u, x, In(c));
    DropNested(s, u, x, In(c));
    LoseGrace(u, FailDrain(s, c), Rest(s.cols[c].phase).inner);
  }

  lemma GraceFailDrain(s: State, c: CollectorId)
    requires Inv(s) && CanFailDrain(s, c)
    ensures Grace(FailDrain(s, c))
  {
    RecordsAreIdle(s);
    NotItself(s, c);
    DrainerInUse(s, c);
    LostAreRetired(s, c);
    assert ColsOk(s);
    hide Shape, Garbage, Grace, FailDrain, ColsOk, RecordsIdle;
    FailKeepsGrace(s, c, Victim(s.cols[c].phase));
  }

  // ---------------------------------------------------------------- clearing the chain

  lemma SwapDates(s: State)
    requires Dates(s) && Nested(s) && CanClearSwap(s) && s.head.ptr == s.teardown.first
    requires forall k :: k in s.chain ==> Record(k) in s.info && s.info[Record(k)].loc.Home?
    ensures Dates(ClearSwap(s)) && Nested(ClearSwap(s))
  {
    var t := ClearSwap(s);
    forall y | y in t.info && t.info[y].loc.In?
      ensures Older(t.info, t.info[y], Record(t.info[y].loc.c))
    {
      assert Older(s.info, s.info[y], Record(s.info[y].loc.c));
    }
  }

  lemma SwapAges(s: State)
    requires Garbage(s) && Ages(s) && CanClearSwap(s) && s.head.ptr == s.teardown.first
    requires forall k :: k in s.chain ==> Record(k) in s.info && s.info[Record(k)].loc.Home?
    ensures Ages(ClearSwap(s))
  {
    var t := ClearSwap(s);
    hide Garbage;
    forall d | d in t.cols
      ensures AgesOk(t.info, t.cols[d])
    {
      assert AgesOk(s.info, s.cols[d]);
      SwapAge(s, d);
    }
  }

  lemma SwapAge(s: State, d: CollectorId)
    requires Garbage(s) && d in s.cols && AgesOk(s.info, s.cols[d]) && CanClearSwap(s) && s.head.ptr == s.teardown.first
    requires forall k :: k in s.chain ==> Record(k) in s.info && s.info[Record(k)].loc.Home?
    ensures AgesOk(ClearSwap(s).info, s.cols[d])
  {
    hide Garbage, Doomed;
    forall x | x in s.info && (x in Lists(s.cols[d]) || x in Doomed(s.cols[d].phase))
      ensures ClearSwap(s).info[x] == s.info[x]
    {
      Owned(s, d, x);
    }
    DoomedAges(s.info, ClearSwap(s).info, s.cols[d]);
  }

  lemma DoomedAges(a: map<Item, Info>, b: map<Item, Info>, col: Col)
    requires AgesOk(a, col) && a.Keys == b.Keys
    requires forall x :: x in a && (x in Lists(col) || x in Doomed(col.phase)) ==> b[x] == a[x]
    ensures AgesOk(b, col)
  {
    if col.phase.Draining? {
      assert forall x :: x in col.phase.inner || x in col.phase.outer ==> x in Doomed(col.phase) by {
        forall x | x in col.phase.inner || x in col.phase.outer ensures x in Doomed(col.phase) {
          if x in col.phase.inner { assert x in multiset(col.phase.inner); }
          else { assert x in multiset(col.phase.outer); }
        }
      }
    }
  }

  /** With no active reader there is nothing to see. */
  lemma SwapSeen(s: State)
    requires Holds(s) && CanClearSwap(s) && forall c :: c in s.cols ==> !Active(s.cols[c])
    ensures Seen(ClearSwap(s)) && Holds(ClearSwap(s))
  {
    var t := ClearSwap(s);
    assert t.cols == s.cols && t.holds == s.holds;
    hide ClearSwap;
    HoldersAreActive(s);
  }

  lemma HoldersAreActive(s: State)
    requires Holds(s)
    ensures forall c, o :: (c, o) in s.holds ==> c in s.cols && Active(s.cols[c])
  {
    forall c, o | (c, o) in s.holds
      ensures c in s.cols && Active(s.cols[c])
    {
      assert HoldOk(s, c, o);
    }
  }

  lemma GraceDetach(s: State)
    requires Inv(s) && CanClearSwap(s) && s.head.ptr == s.teardown.first
    ensures Grace(ClearSwap(s))
  {
    AllInvalid(s);
    ChainHomes(s);
    hide Shape, Garbage, Dates, Nested, Ages, Seen, Holds, ClearSwap;
    SwapDates(s);
    SwapAges(s);
    SwapSeen(s);
  }

  lemma GraceClearSwap(s: State)
    requires Inv(s) && CanClearSwap(s)
    ensures Grace(ClearSwap(s))
  {
    if s.head.ptr == s.teardown.first {
      GraceDetach(s);
    } else {
      hide Shape, Garbage, AgesOk, Older, SeenOk;
      SameGrace(s, ClearSwap(s));
    }
  }

  lemma SameGrace(s: State, t: State)
    requires Grace(s) && t.cols == s.cols && t.info == s.info && t.epoch == s.epoch && t.clock == s.clock
    requires t.holds == s.holds
    ensures Grace(t)
  {
    hide AgesOk, Older, SeenOk;
    forall c, o | (c, o) in t.holds
      ensures HoldOk(t, c, o)
    {
      assert HoldOk(s, c, o);
    }
  }

  lemma ClearDropReaders(s: State)
    requires CanClearDrop(s)
    ensures SameReaders(s, ClearDrop(s))
  {
    hide Drop;
  }

  lemma ClearDropAges(s: State, x: Item)
    requires Ages(s) && CanClearDrop(s) && x == s.teardown.dump[0]
    requires x.Record? ==> s.cols[x.k].phase.Idle?
    ensures Ages(ClearDrop(s))
  {
    ClearDropRecord(s, x);
    DropDates(s.info, x, Dumped);
    assert x.Record? ==> ClearDrop(s).cols[x.k] == Emptied(s.cols[x.k]);
    hide AgesOk, Drop, SameDates, ClearDrop, Emptied;
    forall d | d in ClearDrop(s).cols
      ensures AgesOk(ClearDrop(s).info, ClearDrop(s).cols[d])
    {
      assert AgesOk(s.info, s.cols[d]);
      if x == Record(d) { EmptiedAge(s.info, s.cols[d]); }
      SameDatesAges(s.info, ClearDrop(s).info, ClearDrop(s).cols[d]);
    }
  }

  lemma DumpedUnseen(s: State, x: Item)
    requires Seen(s) && x in s.info && s.info[x].loc.Dumped?
    ensures forall d :: d in s.cols && Active(s.cols[d]) ==> s.info[x].stamp <= s.cols[d].since
  {
    forall d | d in s.cols && Active(s.cols[d])
      ensures s.info[x].stamp <= s.cols[d].since
    {
      assert SeenOk(s.cols[d], s.info[x]);
    }
  }

  lemma GraceClearDrop(s: State)
    requires Inv(s) && CanClearDrop(s)
    ensures Grace(ClearDrop(s))
  {
    var x := s.teardown.dump[0];
    RecordsAreIdle(s);
    hide Tallies, Flags, Owners, Shape, RecordsIdle, Dump, ClearDrop, Drop;
    DumpFirst(s, x);
    ClearDropReaders(s);
    ClearDropRecord(s, x);
    hide Garbage, Seen, Nested, Ages, Dates, Holds, SameReaders, Tally, Owners;
    ClearDropAges(s, x);
    DumpedUnseen(s, x);
    DropSeen(s, ClearDrop(s), x, Dumped);
    DropHolds(s, ClearDrop(s), x, Dumped);
    DropNested(s, ClearDrop(s), x, Dumped);
  }

  // ---------------------------------------------------------------- no garbage involved

  /** An item that is no garbage appears, or is linked into the chain. */
  lemma OutsideGrace(s: State, t: State, x: Item, i: Info)
    requires Garbage(s) && Grace(s) && t.info == s.info[x := i] && !Retired(i) && (x in s.info ==> !Retired(s.info[x]))
    requires t.holds == s.holds && t.epoch == s.epoch && t.clock == s.clock && s.cols.Keys <= t.cols.Keys
    requires forall d :: d in s.cols ==>
      t.cols[d].previous == s.cols[d].previous && t.cols[d].next == s.cols[d].next && t.cols[d].word == s.cols[d].word
      && t.cols[d].epoch == s.cols[d].epoch && t.cols[d].since == s.cols[d].since
      && (t.cols[d].phase.Draining? ==> t.cols[d].phase == s.cols[d].phase)
    requires forall d :: d in t.cols && d !in s.cols ==> !Active(t.cols[d]) && AgesOk(t.info, t.cols[d])
    ensures Grace(t)
  {
    OutsideSeen(s, t, x, i);
    OutsideNested(s, t, x, i);
    OutsideAges(s, t, x, i);
    hide Garbage, AgesOk;
  }

  lemma OutsideSeen(s: State, t: State, x: Item, i: Info)
    requires Seen(s) && Holds(s) && t.info == s.info[x := i] && !Retired(i) && (x in s.info ==> !Retired(s.info[x]))
    requires t.holds == s.holds && s.cols.Keys <= t.cols.Keys
    requires forall d :: d in s.cols ==>
      t.cols[d].word == s.cols[d].word && t.cols[d].epoch == s.cols[d].epoch && t.cols[d].since == s.cols[d].since
    requires forall d :: d in t.cols && d !in s.cols ==> !Active(t.cols[d])
    ensures Seen(t) && Holds(t)
  {
    forall d, y | d in t.cols && Active(t.cols[d]) && y in t.info
      ensures SeenOk(t.cols[d], t.info[y])
    {
      if y != x { assert SeenOk(s.cols[d], s.info[y]); }
    }
    forall d, o | (d, o) in t.holds
      ensures HoldOk(t, d, o)
    {
      assert HoldOk(s, d, o);
    }
  }

  lemma OutsideNested(s: State, t: State, x: Item, i: Info)
    requires Dates(s) && Nested(s) && t.info == s.info[x := i] && !Retired(i) && (x in s.info ==> !Retired(s.info[x]))
    requires t.epoch == s.epoch && t.clock == s.clock
    ensures Dates(t) && Nested(t)
  {
    forall y | y in t.info && t.info[y].loc.In?
      ensures Older(t.info, t.info[y], Record(t.info[y].loc.c))
    {
      assert Older(s.info, s.info[y], Record(s.info[y].loc.c));
    }
  }

  lemma OutsideAges(s: State, t: State, x: Item, i: Info)
    requires Garbage(s) && Ages(s) && t.info == s.info[x := i] && (x in s.info ==> !Retired(s.info[x]))
    requires s.cols.Keys <= t.cols.Keys
    requires forall d :: d in s.cols ==>
      t.cols[d].previous == s.cols[d].previous && t.cols[d].next == s.cols[d].next && t.cols[d].epoch == s.cols[d].epoch
      && (t.cols[d].phase.Draining? ==> t.cols[d].phase == s.cols[d].phase)
    requires forall d :: d in t.cols && d !in s.cols ==> AgesOk(t.info, t.cols[d])
    ensures Ages(t)
  {
    hide Garbage, AgesOk;
    forall d | d in t.cols
      ensures AgesOk(t.info, t.cols[d])
    {
      if d in s.cols {
        NotInLists(s, d, x);
        GainAge(s.info, s.cols[d], x, i);
        SameAges(t.info, s.cols[d], t.cols[d]);
      }
    }
  }

  lemma NotInLists(s: State, d: CollectorId, x: Item)
    requires Garbage(s) && d in s.cols && (x in s.info ==> !Retired(s.info[x]))
    ensures x !in s.cols[d].previous && x !in s.cols[d].next && x !in Doomed(s.cols[d].phase)
  {
    if x in s.cols[d].previous || x in s.cols[d].next || x in Doomed(s.cols[d].phase) {
      assert x in s.cols[d].previous || x in s.cols[d].next ==> x in Lists(s.cols[d]);
      Owned(s, d, x);
    }
  }
}
