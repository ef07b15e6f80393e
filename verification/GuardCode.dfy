/** Guards (src/guard.rs), and the life of an outermost guard of a thread whose peers are all
    inactive or invalid, on the objects of `CollectorCode`. */
module GuardCode {
  import opened Base
  import opened Epochs
  import opened Reclaimer
  import opened CollectorAlone
  import opened CollectorCode

  class Guard {
    const collector: Collector

    constructor (collector: Collector)
      ensures this.collector == collector
    {
      this.collector := collector;
    }

    method Accelerate()
      modifies collector`nextEpochUpdate
      ensures collector.View() == old(collector.View()).(countdown := 0)
    {
      collector.Accelerate();
    }

    /** The closure is an instance whose destructor runs it. */
    method DeferExecute(closure: Item)
      modifies collector`currentInstances, collector`hasGarbage
      ensures collector.View() == CollectCol(old(collector.View()), closure)
    {
      collector.Collect(closure);
    }

    method Drop(root: Root)
      requires root.Valid() && collector in root.chain && collector.numReaders > 0
      requires collector.state == Word(collector.announcement, false, false)
      modifies root, root.Members()`nextLink, collector`currentInstances, collector`hasGarbage
      modifies collector`numReaders, collector`nextEpochUpdate, collector`state
      ensures root.Valid() && root.lock == old(root.lock)
      ensures Shared(collector.View(), root.epoch, root.chain)
           == EndResult(old(collector.View()), old(root.epoch), old(root.chain), old(Words(root.chain)),
                old(root.lock), old(root.mark))
    {
      collector.EndGuard(root);
    }
  }

  function Set(items: seq<Item>): set<Item> { set x | x in items }

  lemma SetAppend(a: seq<Item>, b: seq<Item>)
    ensures Set(a + b) == Set(a) + Set(b)
  {}

  /** No collector is in the way of a scan by a collector with word `known`. */
  ghost predicate Calm(words: seq<Word>, known: Word) {
    forall i :: 0 <= i < |words| ==> !Blocks(words[i], known)
  }

  lemma CalmIf(words: seq<Word>, known: Word)
    requires forall i :: 0 <= i < |words| ==> words[i] == known || IsInactive(words[i])
    ensures Calm(words, known)
  {}

  lemma CalmScan(
      col: Col, epoch: Epoch, chain: seq<Collector>, words: seq<Word>, marked: bool) returns (adopted: seq<Item>)
    requires |words| == |chain| && Calm(words, col.word) && col.readers == 1
    ensures var e := EndResult(col, epoch, chain, words, false, marked);
      && e.col == ExitAlone(col, marked, adopted)
      && e.epoch == if col.countdown == 0 then Next(col.word.epoch) else epoch
  {
    if col.countdown == 0 {
      ReachIs(words, col.word, |words|);
      adopted := ScanResult(false, chain, words, col.word).adopted;
    } else {
      adopted := [];
    }
    hide ExitAlone, Stay, Gone, Calm;
  }

  /** What the thread sees before it drops the guard is what `Worked` says. */
  lemma GuardedIs(before: Solo, entered: Outcome, col: Col, after: Solo, work: Work)
    requires entered == EnterAlone(before.col, before.epoch, {}) && col == Worked(entered.col, work)
    requires after.epoch == if col.countdown == 0 then Next(col.announcement) else before.epoch
    requires after.col == ExitAlone(col, work.marked, work.adopted)
    requires after.freed == before.freed + Set(entered.dropped)
    ensures after == Guarded(before, work)
  {
    hide EnterAlone, ExitAlone, Worked;
  }

  lemma EnteredActive(col: Col, now8: Epoch)
    requires Resting(col)
    ensures var r := EnterAlone(col, now8, {});
      r.ok && r.col.readers == 1 && r.col.word == Word(now8, false, false) && r.col.announcement == now8
  {
    var col1 := EnterCol(col, now8, 0, 0);
    if col1.phase.Draining? { DrainsAll(col1); }
  }

  lemma WorkedActive(col: Col, work: Work)
    ensures var r := Worked(col, work);
      r.word == col.word && r.announcement == col.announcement && r.readers == col.readers
  {
    CollectAllLists(col, work.retired);
  }

  /** What the thread does under the guard. */
  method Perform(guard: Guard, work: Work)
    modifies guard.collector`currentInstances, guard.collector`hasGarbage, guard.collector`nextEpochUpdate
    ensures guard.collector.View() == Worked(old(guard.collector.View()), work)
  {
    hide CollectAll, Collector.View;
    Retire(guard, work.retired);
    if work.accelerated { guard.Accelerate(); }
  }

  /** Drops an outermost guard when no scan can fail. */
  method DropCalm(guard: Guard, root: Root) returns (ghost adopted: seq<Item>)
    requires root.Valid() && guard.collector in root.chain && !root.lock
    requires guard.collector.numReaders == 1
    requires guard.collector.state == Word(guard.collector.announcement, false, false)
    requires forall d :: d in root.chain && d != guard.collector ==> IsInactive(d.state)
    modifies root, root.Members()`nextLink, guard.collector`currentInstances, guard.collector`hasGarbage
    modifies guard.collector`numReaders, guard.collector`nextEpochUpdate, guard.collector`state
    ensures root.Valid() && !root.lock
    ensures guard.collector.View() == ExitAlone(old(guard.collector.View()), old(root.mark), adopted)
    ensures root.epoch
         == if old(guard.collector.nextEpochUpdate) == 0
            then Next(old(guard.collector.announcement)) else old(root.epoch)
  {
    hide ExitAlone, EndResult, Root.Valid, Collector.View, Calm, Words;
    guard.collector.ViewIs();
    CalmIf(Words(root.chain), guard.collector.state);
    adopted := CalmScan(guard.collector.View(), root.epoch, root.chain, Words(root.chain), root.mark);
    guard.Drop(root);
  }

  /** Creates an outermost guard, works under it, and drops it: the code does to collector and epoch
      exactly what `Guarded` says.  The result is the work with what the scan, if any, found. */
  method UseGuard(c: Collector, root: Root, work: Work) returns (ghost done: Work)
    requires root.Valid() && c in root.chain && !root.lock && Resting(c.View())
    requires forall d :: d in root.chain ==> IsInactive(d.state)
    modifies root, root.Members()`nextLink, c
    ensures root.Valid() && !root.lock
    ensures done.retired == work.retired && done.accelerated == work.accelerated
    ensures Solo(root.epoch, c.View(), Set(c.dropped))
         == Guarded(Solo(old(root.epoch), old(c.View()), Set(old(c.dropped))), done)
  {
    ghost var before := Solo(root.epoch, c.View(), Set(c.dropped));
    ghost var entered := EnterAlone(c.View(), root.epoch, {});
    EnteredActive(c.View(), root.epoch);
    c.ViewIs();
    hide EnterAlone, ExitAlone, EndResult, Root.Valid, Collector.View, Guarded, Words, Worked, Set;
    var ok := c.NewGuard(root, {});
    var guard := new Guard(c);
    Perform(guard, work);
    WorkedActive(entered.col, work);
    c.ViewIs();
    ghost var col := c.View();
    ghost var marked := root.mark;
    ghost var adopted := DropCalm(guard, root);
    done := Work(work.retired, work.accelerated, marked, adopted);
    WorkedSame(entered.col, work, done);
    SetAppend(old(c.dropped), entered.dropped);
    GuardedIs(before, entered, col, Solo(root.epoch, c.View(), Set(c.dropped)), done);
  }

  lemma WorkedSame(col: Col, work: Work, done: Work)
    requires work.retired == done.retired && work.accelerated == done.accelerated
    ensures Worked(col, work) == Worked(col, done)
  {}

  method Retire(guard: Guard, retired: seq<Item>)
    modifies guard.collector`currentInstances, guard.collector`hasGarbage
    ensures guard.collector.View() == CollectAll(old(guard.collector.View()), retired)
  {
    var i := 0;
    assert retired[0..] == retired;
    while i < |retired|
      invariant i <= |retired|
      invariant CollectAll(guard.collector.View(), retired[i..]) == CollectAll(old(guard.collector.View()), retired)
    {
      assert retired[i..][1..] == retired[i + 1..];
      guard.DeferExecute(retired[i]);
      i := i + 1;
    }
  }
}
