/** The epoch-based reclaimer (src/collector.rs) as a transition system over any number of
    collectors and instances.

    Shared memory is a state value; every action below is one atomic access of the source together
    with the thread-private work around it.  Actions of different collectors interleave freely, also
    between the steps of one scan.  Control flow depends on the stored words only (`epoch8`, `word`,
    `announcement`, the head pointer and its two tag bits); the fields listed as history record what
    happened and are never consulted by an action. */
module Reclaimer {
  import opened Base
  import opened Epochs

  type CollectorId = nat
  type InstanceId = nat

  /** What a garbage list links: a retired instance, or a collector unlinked from the chain. */
  datatype Item = Instance(o: InstanceId) | Record(k: CollectorId)

  const CADENCE: nat := 64
  const MAX_READERS: nat := 0xFFFF_FFFF

  /** A collector's state byte: the announced epoch in the low six bits, then the INACTIVE and the
      INVALID flag.  `Byte` is the value stored. */
  datatype Word = Word(epoch: Epoch, inactive: bool, invalid: bool)

  const INACTIVE: nat := 64
  const INVALID: nat := 128

  function Byte(w: Word): nat {
    w.epoch + (if w.inactive then INACTIVE else 0) + (if w.invalid then INVALID else 0)
  }

  /** The three parts share one byte without interfering: words are equal exactly if their bytes are, and
      the flags are the bits of value 64 and 128. */
  lemma ByteExact(a: Word, b: Word)
    ensures Byte(a) == Byte(b) <==> a == b
    ensures Byte(a) < 256 && Byte(a) % 64 == a.epoch
    ensures Byte(a) / INACTIVE % 2 == 1 <==> a.inactive
    ensures Byte(a) / INVALID % 2 == 1 <==> a.invalid
  {
    var i, j := if a.inactive then 1 else 0, if a.invalid then 1 else 0;
    var k, l := if b.inactive then 1 else 0, if b.invalid then 1 else 0;
    assert Byte(a) == a.epoch + 64 * (i + 2 * j) && Byte(b) == b.epoch + 64 * (k + 2 * l);
  }

  predicate IsInactive(w: Word) { w.inactive }

  predicate IsInvalid(w: Word) { w.invalid }

  /** The chain head: a pointer carrying a lock bit (Tag::First) and a mark bit (Tag::Second). */
  datatype Head = Head(ptr: Option<CollectorId>, lock: bool, mark: bool)

  /** Where the thread that owns a collector is.  `left` is history: the number of collectors from
      the scan cursor to the end of the chain. */
  datatype Phase =
    | Allocating(seen: Head)
    | Idle
    | Draining(inner: seq<Item>, outer: seq<Item>)
    | Locking
    | Scanning(known: Word, prev: Option<CollectorId>, cur: Option<CollectorId>, left: nat)
    | Unlinking(known: Word, prev: Option<CollectorId>, k: CollectorId, nxt: Option<CollectorId>, left: nat)
    | Releasing
    | Leaving

  /** One collector.  `epoch` (the unbounded announcement) and `since` (when the outermost guard was
      created) are history. */
  datatype Col = Col(
    word: Word, announcement: Epoch, countdown: nat, hasGarbage: bool, readers: nat,
    previous: seq<Item>, current: seq<Item>, next: seq<Item>, link: Option<CollectorId>,
    phase: Phase, epoch: nat, since: nat)

  /** History of an item: where it is, and the unbounded epoch and time of its retirement. */
  datatype Loc = Fresh | Home | In(c: CollectorId) | Dumped | Freed | Leaked
  datatype Info = Info(loc: Loc, epoch: nat, stamp: nat)

  /** The thread running `clear_chain`; `left` and `total` are history. */
  datatype Teardown =
    | Nobody
    | Checking(first: Option<CollectorId>, cur: Option<CollectorId>, left: nat, total: nat)
    | Clearing(dump: seq<Item>)
    | GivingUp

  datatype Holder = Unlocked | ByScanner(c: CollectorId) | ByTeardown

  /** `epoch`, `clock`, `chain`, `holder`, `info` and `holds` are history: the unbounded epoch, a
      clock of guard creations and retirements, the collectors linked from the head, the lock
      holder, the whereabouts of items, and which reader holds a pointer to which instance. */
  datatype State = State(
    epoch8: Epoch, head: Head, cols: map<CollectorId, Col>, teardown: Teardown,
    epoch: nat, clock: nat, chain: seq<CollectorId>, holder: Holder,
    info: map<Item, Info>, holds: set<(CollectorId, InstanceId)>)

  function Lists(col: Col): seq<Item> { col.previous + col.current + col.next }

  predicate Active(col: Col) { !IsInactive(col.word) }

  /** The owner of a collector may run user code: between operations, or inside a destructor. */
  predicate UserCode(col: Col) { !IsInvalid(col.word) && (col.phase.Idle? || col.phase.Draining?) }

  predicate Retired(info: Info) { !info.loc.Fresh? && !info.loc.Home? }

  function Upd(s: State, c: CollectorId, col: Col): State { s.(cols := s.cols[c := col]) }

  // ---------------------------------------------------------------- instances

  /** A new instance becomes reachable. */
  predicate CanCreate(s: State, o: InstanceId) { Instance(o) !in s.info }

  function Create(s: State, o: InstanceId): State {
    s.(info := s.info[Instance(o) := Info(Home, 0, 0)])
  }

  /** A reader obtains a pointer to an instance that is still reachable. */
  predicate CanLoad(s: State, c: CollectorId, o: InstanceId) {
    c in s.cols && UserCode(s.cols[c]) && s.cols[c].readers > 0
    && Instance(o) in s.info && s.info[Instance(o)].loc.Home?
  }

  function Load(s: State, c: CollectorId, o: InstanceId): State { s.(holds := s.holds + {(c, o)}) }

  /** `collect` on the private fields of one collector. */
  function CollectCol(col: Col, x: Item): Col {
    col.(current := [x] + col.current, hasGarbage := true)
  }

  /** Retirement: the instance becomes unreachable and joins the current list.  The thread need not
      hold a guard, so its announcement may be arbitrarily old. */
  predicate CanRetire(s: State, c: CollectorId, o: InstanceId) {
    c in s.cols && UserCode(s.cols[c])
    && Instance(o) in s.info && s.info[Instance(o)].loc.Home?
  }

  function Retire(s: State, c: CollectorId, o: InstanceId): State
    requires CanRetire(s, c, o)
  {
    Upd(s, c, CollectCol(s.cols[c], Instance(o)))
      .(info := s.info[Instance(o) := Info(In(c), s.epoch, s.clock)], clock := s.clock + 1)
  }

  // ---------------------------------------------------------------- allocation

  function NewCol(head: Head): Col {
    Col(Word(0, true, false), 0, CADENCE, false, 0, [], [], [], head.ptr, Allocating(head), 0, 0)
  }

  predicate CanAlloc(s: State, k: CollectorId) { k !in s.cols && Record(k) !in s.info }

  function Alloc(s: State, k: CollectorId): State {
    Upd(s, k, NewCol(s.head)).(info := s.info[Record(k) := Info(Fresh, 0, 0)])
  }

  /** The compare-exchange of `alloc` succeeds: the head still is what was read. */
  predicate CanLink(s: State, k: CollectorId) {
    k in s.cols && s.cols[k].phase.Allocating? && s.cols[k].phase.seen == s.head
    && Record(k) in s.info
  }

  function LinkHead(s: State, k: CollectorId): State
    requires CanLink(s, k)
  {
    Upd(s, k, s.cols[k].(phase := Idle))
      .(head := s.head.(ptr := Some(k)), chain := [k] + s.chain,
        info := s.info[Record(k) := s.info[Record(k)].(loc := Home)])
  }

  /** It fails, possibly spuriously: the head is read again. */
  predicate CanRelink(s: State, k: CollectorId) { k in s.cols && s.cols[k].phase.Allocating? }

  function Relink(s: State, k: CollectorId): State
    requires CanRelink(s, k)
  {
    Upd(s, k, s.cols[k].(phase := Allocating(s.head), link := s.head.ptr))
  }

  // ---------------------------------------------------------------- guards

  /** The rotation of `epoch_updated`: the oldest list is about to be freed. */
  function Rotate(col: Col): Col {
    col.(next := col.previous, previous := col.current, current := [],
         hasGarbage := col.previous != [] || col.current != [],
         phase := Draining([], col.next))
  }

  function EnterCol(col: Col, now8: Epoch, now: nat, clock: nat): Col {
    var col1 := col.(readers := 1, word := Word(now8, false, false), epoch := now, since := clock);
    if col.announcement == now8 then col1
    else
      var col2 := col1.(announcement := now8);
      if col.hasGarbage then Rotate(col2) else col2.(countdown := CADENCE)
  }

  /** The outermost `new_guard`.  Reading the global epoch and publishing it is one step. */
  predicate CanEnter(s: State, c: CollectorId) {
    c in s.cols && !IsInvalid(s.cols[c].word) && s.cols[c].phase.Idle? && s.cols[c].readers == 0
  }

  function Enter(s: State, c: CollectorId): State
    requires CanEnter(s, c)
  {
    Upd(s, c, EnterCol(s.cols[c], s.epoch8, s.epoch, s.clock)).(clock := s.clock + 1)
  }

  /** A nested `new_guard`; it panics at `u32::MAX` readers. */
  predicate CanNest(s: State, c: CollectorId) {
    c in s.cols && UserCode(s.cols[c]) && 0 < s.cols[c].readers < MAX_READERS
  }

  function Nest(s: State, c: CollectorId): State
    requires CanNest(s, c)
  {
    Upd(s, c, s.cols[c].(readers := s.cols[c].readers + 1))
  }

  predicate CanUnnest(s: State, c: CollectorId) {
    c in s.cols && UserCode(s.cols[c]) && s.cols[c].readers > 1
  }

  function Unnest(s: State, c: CollectorId): State
    requires CanUnnest(s, c)
  {
    Upd(s, c, s.cols[c].(readers := s.cols[c].readers - 1))
  }

  /** `accelerate` and `set_has_garbage`. */
  predicate CanHint(s: State, c: CollectorId) {
    c in s.cols && UserCode(s.cols[c]) && s.cols[c].readers > 0
  }

  function Accelerate(s: State, c: CollectorId): State
    requires CanHint(s, c)
  {
    Upd(s, c, s.cols[c].(countdown := 0))
  }

  function SetHasGarbage(s: State, c: CollectorId): State
    requires CanHint(s, c)
  {
    Upd(s, c, s.cols[c].(hasGarbage := true))
  }

  /** The outermost `end_guard` begins; the state byte stays active until `Leave`. */
  function ExitCol(col: Col, marked: bool): Col {
    if col.countdown == 0 then col.(readers := 0, phase := Locking)
    else if col.hasGarbage || marked then
      col.(readers := 0, countdown := col.countdown - 1, phase := Leaving)
    else col.(readers := 0, phase := Leaving)
  }

  predicate CanExit(s: State, c: CollectorId) {
    c in s.cols && !IsInvalid(s.cols[c].word) && s.cols[c].phase.Idle? && s.cols[c].readers == 1
  }

  function Exit(s: State, c: CollectorId): State
    requires CanExit(s, c)
  {
    Upd(s, c, ExitCol(s.cols[c], s.head.mark && !s.head.lock))
  }

  predicate CanLeave(s: State, c: CollectorId) { c in s.cols && s.cols[c].phase.Leaving? }

  function LeaveCol(col: Col): Col { col.(word := Word(col.announcement, true, false), phase := Idle) }

  function Leave(s: State, c: CollectorId): State
    requires CanLeave(s, c)
  {
    Upd(s, c, LeaveCol(s.cols[c])).(holds := set h | h in s.holds && h.0 != c)
  }

  /** `pass_garbage`, or the end of the thread: the collector is given up for adoption. */
  predicate CanInvalidate(s: State, c: CollectorId) {
    c in s.cols && s.cols[c].phase.Idle? && s.cols[c].readers == 0
  }

  function Invalidate(s: State, c: CollectorId): State
    requires CanInvalidate(s, c)
  {
    Upd(s, c, s.cols[c].(word := s.cols[c].word.(invalid := true)))
  }

  /** `mark_scan_enforced`. */
  function Mark(s: State): State { s.(head := s.head.(mark := true)) }

  // ---------------------------------------------------------------- freeing

  /** Moves every item owned by collector `k` to `loc`. */
  function Move(info: map<Item, Info>, k: CollectorId, loc: Loc): map<Item, Info> {
    map x | x in info :: if info[x].loc == In(k) then info[x].(loc := loc) else info[x]
  }

  /** Item `x` is dropped by the owner of `loc`: an instance is gone, a collector leaves its lists
      behind in the hands of that owner. */
  function Drop(info: map<Item, Info>, x: Item, loc: Loc): map<Item, Info>
    requires x in info
  {
    var info1 := info[x := info[x].(loc := Freed)];
    if x.Record? then Move(info1, x.k, loc) else info1
  }

  /** The item dropped next: nested garbage of an adopted collector goes first. */
  predicate CanDrain(s: State, c: CollectorId) {
    c in s.cols && s.cols[c].phase.Draining?
    && (s.cols[c].phase.inner != [] || s.cols[c].phase.outer != [])
    && Victim(s.cols[c].phase) in s.info
    && (Victim(s.cols[c].phase).Record? ==> Victim(s.cols[c].phase).k in s.cols)
  }

  function Victim(p: Phase): Item
    requires p.Draining? && (p.inner != [] || p.outer != [])
  {
    if p.inner != [] then p.inner[0] else p.outer[0]
  }

  function Rest(p: Phase): Phase
    requires p.Draining? && (p.inner != [] || p.outer != [])
  {
    if p.inner != [] then Draining(p.inner[1..], p.outer) else Draining([], p.outer[1..])
  }

  function Emptied(col: Col): Col { col.(previous := [], current := [], next := []) }

  function Opened(p: Phase, garbage: seq<Item>): Phase
    requires p.Draining?
  {
    Draining(garbage + p.inner, p.outer)
  }

  function Drain(s: State, c: CollectorId): State
    requires CanDrain(s, c)
  {
    var col := s.cols[c];
    var x := Victim(col.phase);
    var s1 := s.(info := Drop(s.info, x, In(c)));
    if x.Instance? then Upd(s1, c, col.(phase := Rest(col.phase)))
    else
      var col1 := col.(phase := Opened(Rest(col.phase), Lists(s.cols[x.k])));
      Upd(Upd(s1, x.k, Emptied(s.cols[x.k])), c, col1)
  }

  predicate CanFinishDrain(s: State, c: CollectorId) {
    c in s.cols && s.cols[c].phase == Draining([], [])
  }

  function FinishDrain(s: State, c: CollectorId): State
    requires CanFinishDrain(s, c)
  {
    Upd(s, c, s.cols[c].(countdown := CADENCE, phase := Idle))
  }

  function Reverse(items: seq<Item>): seq<Item> {
    if items == [] then [] else Reverse(items[1..]) + [items[0]]
  }

  /** The destructor of instance `x` panics: the rest of the rotated list is collected again, one by
      one; what was left of an adopted collector being dropped is lost. */
  predicate CanFailDrain(s: State, c: CollectorId) {
    CanDrain(s, c) && Victim(s.cols[c].phase).Instance?
  }

  function FailCol(col: Col): Col
    requires col.phase.Draining? && (col.phase.inner != [] || col.phase.outer != [])
  {
    var rest := Rest(col.phase).outer;
    col.(current := Reverse(rest) + col.current, phase := Idle, hasGarbage := col.hasGarbage || rest != [])
  }

  function Lose(info: map<Item, Info>, items: seq<Item>): map<Item, Info> {
    map x | x in info :: if x in items then info[x].(loc := Leaked) else info[x]
  }

  function FailDrain(s: State, c: CollectorId): State
    requires CanFailDrain(s, c)
  {
    var p := s.cols[c].phase;
    Upd(s, c, FailCol(s.cols[c])).(info := Lose(Drop(s.info, Victim(p), In(c)), Rest(p).inner))
  }

  // ---------------------------------------------------------------- scanning

  predicate CanLock(s: State, c: CollectorId) { c in s.cols && s.cols[c].phase.Locking? }

  /** `lock_chain`; it also clears the mark. */
  function Lock(s: State, c: CollectorId): State
    requires CanLock(s, c)
  {
    if s.head.lock then Upd(s, c, s.cols[c].(countdown := CADENCE, phase := Leaving))
    else
      Upd(s, c, s.cols[c].(phase := Scanning(s.cols[c].word, None, s.head.ptr, |s.chain|)))
        .(head := Head(s.head.ptr, true, false), holder := ByScanner(c))
  }

  predicate CanVisit(s: State, c: CollectorId) {
    c in s.cols && s.cols[c].phase.Scanning? && s.cols[c].phase.cur.Some?
    && s.cols[c].phase.cur.value in s.cols && s.cols[c].phase.left > 0
  }

  /** Looks at one collector of the chain. */
  function VisitPhase(s: State, c: CollectorId): Phase
    requires CanVisit(s, c)
  {
    var Scanning(known, prev, cur, left) := s.cols[c].phase;
    var k := cur.value;
    var other := s.cols[k];
    if k == c then Scanning(known, Some(c), other.link, left - 1)
    else if IsInvalid(other.word) then Unlinking(known, prev, k, other.link, left)
    else if !IsInactive(other.word) && other.word != known then Releasing
    else Scanning(known, Some(k), other.link, left - 1)
  }

  function Visit(s: State, c: CollectorId): State
    requires CanVisit(s, c)
  {
    Upd(s, c, s.cols[c].(phase := VisitPhase(s, c)))
  }

  /** Unlinks an invalid collector, from the head or from its predecessor, and adopts it; the head
      may have moved, in which case the collector stays. */
  predicate CanUnlink(s: State, c: CollectorId) {
    c in s.cols && s.cols[c].phase.Unlinking? && s.cols[c].phase.left > 0
    && (s.cols[c].phase.prev.Some? ==> s.cols[c].phase.prev.value in s.cols)
  }

  predicate HeadMoved(s: State, p: Phase)
    requires p.Unlinking?
  {
    p.prev.None? && s.head.ptr != Some(p.k)
  }

  function Adopt(s: State, c: CollectorId): State
    requires CanUnlink(s, c)
  {
    var Unlinking(known, prev, k, nxt, left) := s.cols[c].phase;
    var s1 := if prev.None? then s.(head := s.head.(ptr := nxt))
              else Upd(s, prev.value, s.cols[prev.value].(link := nxt));
    Upd(s1, c, CollectCol(s1.cols[c], Record(k)).(phase := Scanning(known, prev, nxt, left - 1)))
      .(info := s.info[Record(k) := Info(In(c), s.epoch, s.clock)], clock := s.clock + 1,
        chain := Without(s.chain, left))
  }

  function Without(chain: seq<CollectorId>, left: nat): seq<CollectorId> {
    if 0 < left <= |chain| then chain[..|chain| - left] + chain[|chain| - left + 1..] else chain
  }

  function Unlink(s: State, c: CollectorId): State
    requires CanUnlink(s, c)
  {
    var Unlinking(known, prev, k, nxt, left) := s.cols[c].phase;
    if HeadMoved(s, s.cols[c].phase)
    then Upd(s, c, s.cols[c].(phase := Scanning(known, Some(k), nxt, left - 1)))
    else Adopt(s, c)
  }

  predicate CanPublish(s: State, c: CollectorId) {
    c in s.cols && s.cols[c].phase.Scanning? && s.cols[c].phase.cur.None?
  }

  /** The end of the chain is reached: the epoch after the scanner's own one is published.  The
      global epoch is not read again. */
  function Publish(s: State, c: CollectorId): State
    requires CanPublish(s, c)
  {
    Upd(s, c, s.cols[c].(phase := Releasing))
      .(epoch8 := Next(s.cols[c].phase.known.epoch), epoch := s.cols[c].epoch + 1)
  }

  predicate CanRelease(s: State, c: CollectorId) { c in s.cols && s.cols[c].phase.Releasing? }

  /** `unlock_chain`, keeping the mark. */
  function Release(s: State, c: CollectorId): State
    requires CanRelease(s, c)
  {
    Upd(s, c, s.cols[c].(countdown := CADENCE, phase := Leaving))
      .(head := s.head.(lock := false), holder := Unlocked)
  }

  // ---------------------------------------------------------------- clearing the chain

  predicate CanClearLock(s: State) { s.teardown.Nobody? && !s.head.lock }

  function ClearLock(s: State): State {
    s.(head := Head(s.head.ptr, true, false), holder := ByTeardown,
       teardown := Checking(s.head.ptr, s.head.ptr, |s.chain|, |s.chain|))
  }

  predicate CanClearCheck(s: State) {
    s.teardown.Checking? && s.teardown.cur.Some? && s.teardown.cur.value in s.cols
    && s.teardown.left > 0
  }

  function ClearCheck(s: State): State
    requires CanClearCheck(s)
  {
    var Checking(first, cur, left, total) := s.teardown;
    if !IsInvalid(s.cols[cur.value].word) then s.(teardown := GivingUp)
    else s.(teardown := Checking(first, s.cols[cur.value].link, left - 1, total))
  }

  predicate CanClearSwap(s: State) { s.teardown.Checking? && s.teardown.cur.None? }

  function Records(chain: seq<CollectorId>): seq<Item> { seq(|chain|, i requires 0 <= i < |chain| => Record(chain[i])) }

  /** The chain is detached if its head has not moved; all its collectors are to be dropped. */
  function ClearSwap(s: State): State
    requires CanClearSwap(s)
  {
    if s.head.ptr != s.teardown.first then s.(teardown := GivingUp)
    else
      s.(head := s.head.(ptr := None), chain := [], teardown := Clearing(Records(s.chain)),
         clock := s.clock + 1,
         info := map x | x in s.info ::
           if x.Record? && x.k in s.chain then Info(Dumped, s.epoch, s.clock) else s.info[x])
  }

  predicate CanClearDrop(s: State) {
    s.teardown.Clearing? && s.teardown.dump != [] && s.teardown.dump[0] in s.info
    && (s.teardown.dump[0].Record? ==> s.teardown.dump[0].k in s.cols)
  }

  function ClearDrop(s: State): State
    requires CanClearDrop(s)
  {
    var x := s.teardown.dump[0];
    var s1 := s.(info := Drop(s.info, x, Dumped));
    if x.Instance? then s1.(teardown := Clearing(s.teardown.dump[1..]))
    else
      Upd(s1, x.k, Emptied(s.cols[x.k]))
        .(teardown := Clearing(Lists(s.cols[x.k]) + s.teardown.dump[1..]))
  }

  predicate CanClearUnlock(s: State) { s.teardown.GivingUp? || s.teardown == Clearing([]) }

  function ClearUnlock(s: State): State {
    s.(head := s.head.(lock := false), holder := Unlocked, teardown := Nobody)
  }

  // ---------------------------------------------------------------- the transition system

  datatype Action =
    | ACreate(o: InstanceId) | ALoad(c: CollectorId, o: InstanceId) | ARetire(c: CollectorId, o: InstanceId)
    | AAlloc(c: CollectorId) | ALinkHead(c: CollectorId) | ARelink(c: CollectorId)
    | AEnter(c: CollectorId) | ANest(c: CollectorId) | AUnnest(c: CollectorId)
    | AAccelerate(c: CollectorId) | ASetHasGarbage(c: CollectorId)
    | AExit(c: CollectorId) | ALeave(c: CollectorId) | AInvalidate(c: CollectorId) | AMark
    | ADrain(c: CollectorId) | AFinishDrain(c: CollectorId) | AFailDrain(c: CollectorId)
    | ALock(c: CollectorId) | AVisit(c: CollectorId) | AUnlink(c: CollectorId)
    | APublish(c: CollectorId) | ARelease(c: CollectorId)
    | AClearLock | AClearCheck | AClearSwap | AClearDrop | AClearUnlock

  predicate Can(s: State, a: Action) {
    match a
    case ACreate(o) => CanCreate(s, o)
    case ALoad(c, o) => CanLoad(s, c, o)
    case ARetire(c, o) => CanRetire(s, c, o)
    case AAlloc(c) => CanAlloc(s, c)
    case ALinkHead(c) => CanLink(s, c)
    case ARelink(c) => CanRelink(s, c)
    case AEnter(c) => CanEnter(s, c)
    case ANest(c) => CanNest(s, c)
    case AUnnest(c) => CanUnnest(s, c)
    case AAccelerate(c) => CanHint(s, c)
    case ASetHasGarbage(c) => CanHint(s, c)
    case AExit(c) => CanExit(s, c)
    case ALeave(c) => CanLeave(s, c)
    case AInvalidate(c) => CanInvalidate(s, c)
    case AMark => true
    case ADrain(c) => CanDrain(s, c)
    case AFinishDrain(c) => CanFinishDrain(s, c)
    case AFailDrain(c) => CanFailDrain(s, c)
    case ALock(c) => CanLock(s, c)
    case AVisit(c) => CanVisit(s, c)
    case AUnlink(c) => CanUnlink(s, c)
    case APublish(c) => CanPublish(s, c)
    case ARelease(c) => CanRelease(s, c)
    case AClearLock => CanClearLock(s)
    case AClearCheck => CanClearCheck(s)
    case AClearSwap => CanClearSwap(s)
    case AClearDrop => CanClearDrop(s)
    case AClearUnlock => CanClearUnlock(s)
  }

  /** The state after action `a`, if it can be taken. */
  function Do(s: State, a: Action): State {
    match a
    case ACreate(o) => Create(s, o)
    case ALoad(c, o) => Load(s, c, o)
    case ARetire(c, o) => if CanRetire(s, c, o) then Retire(s, c, o) else s
    case AAlloc(c) => Alloc(s, c)
    case ALinkHead(c) => if CanLink(s, c) then LinkHead(s, c) else s
    case ARelink(c) => if CanRelink(s, c) then Relink(s, c) else s
    case AEnter(c) => if CanEnter(s, c) then Enter(s, c) else s
    case ANest(c) => if CanNest(s, c) then Nest(s, c) else s
    case AUnnest(c) => if CanUnnest(s, c) then Unnest(s, c) else s
    case AAccelerate(c) => if CanHint(s, c) then Accelerate(s, c) else s
    case ASetHasGarbage(c) => if CanHint(s, c) then SetHasGarbage(s, c) else s
    case AExit(c) => if CanExit(s, c) then Exit(s, c) else s
    case ALeave(c) => if CanLeave(s, c) then Leave(s, c) else s
    case AInvalidate(c) => if CanInvalidate(s, c) then Invalidate(s, c) else s
    case AMark => Mark(s)
    case ADrain(c) => if CanDrain(s, c) then Drain(s, c) else s
    case AFinishDrain(c) => if CanFinishDrain(s, c) then FinishDrain(s, c) else s
    case AFailDrain(c) => if CanFailDrain(s, c) then FailDrain(s, c) else s
    case ALock(c) => if CanLock(s, c) then Lock(s, c) else s
    case AVisit(c) => if CanVisit(s, c) then Visit(s, c) else s
    case AUnlink(c) => if CanUnlink(s, c) then Unlink(s, c) else s
    case APublish(c) => if CanPublish(s, c) then Publish(s, c) else s
    case ARelease(c) => if CanRelease(s, c) then Release(s, c) else s
    case AClearLock => ClearLock(s)
    case AClearCheck => if CanClearCheck(s) then ClearCheck(s) else s
    case AClearSwap => if CanClearSwap(s) then ClearSwap(s) else s
    case AClearDrop => if CanClearDrop(s) then ClearDrop(s) else s
    case AClearUnlock => ClearUnlock(s)
  }

  const INITIAL: State :=
    State(0, Head(None, false, false), map[], Nobody, 0, 0, [], Unlocked, map[], {})

  /** A run: the states met when performing `actions` from the initial state. */
  ghost predicate Run(states: seq<State>, actions: seq<Action>) {
    |states| == |actions| + 1 && states[0] == INITIAL
    && forall i :: 0 <= i < |actions| ==> Can(states[i], actions[i]) && states[i + 1] == Do(states[i], actions[i])
  }
}
