/** The guarantees of the reclaimer, stated for every run. */
module ReclaimerTheorems {
  import opened Base
  import opened Epochs
  import opened Reclaimer
  import opened ReclaimerShape
  import opened ReclaimerGarbage
  import opened ReclaimerGrace
  import opened ReclaimerSafety
  import opened ReclaimerRuns

  lemma RunStep(states: seq<State>, actions: seq<Action>, i: nat)
    requires Run(states, actions) && i + 1 < |states|
    ensures i < |actions| && Can(states[i], actions[i]) && states[i + 1] == Do(states[i], actions[i])
  {
    hide Can, Do;
  }

  lemma RunStart(states: seq<State>, actions: seq<Action>)
    requires Run(states, actions)
    ensures |states| > 0 && Inv(states[0])
  {
    InvInitial();
    hide Can, Do, Inv;
  }

  lemma {:induction false} RunInv(states: seq<State>, actions: seq<Action>, i: nat)
    requires Run(states, actions) && i < |states|
    ensures Inv(states[i])
  {
    hide Inv, Can, Do, Run;
    RunStart(states, actions);
    if i > 0 {
      RunInv(states, actions, i - 1);
      RunStep(states, actions, i - 1);
      InvStep(states[i - 1], actions[i - 1]);
    }
  }

  lemma {:induction false} RunRetired(states: seq<State>, actions: seq<Action>, j: nat, k: nat, x: Item)
    requires Run(states, actions) && j <= k < |states| && x in states[j].info && Retired(states[j].info[x])
    ensures StaysRetired(states[j], states[k], x)
  {
    hide Inv, Can, Do, Run;
    if j < k {
      RunRetired(states, actions, j, k - 1, x);
      RunInv(states, actions, k - 1);
      RunStep(states, actions, k - 1);
      RetiredStays(states[k - 1], actions[k - 1], x);
    }
  }

  /** Reader `c` stays inside one outermost guard from state `j` to state `k`. */
  ghost predicate ActiveThroughout(states: seq<State>, c: CollectorId, j: nat, k: nat)
    requires j <= k < |states|
  {
    forall m :: j <= m <= k ==> c in states[m].cols && Active(states[m].cols[c])
  }

  lemma {:induction false} RunReader(states: seq<State>, actions: seq<Action>, j: nat, k: nat, c: CollectorId)
    requires Run(states, actions) && j <= k < |states| && ActiveThroughout(states, c, j, k)
    ensures states[k].cols[c].epoch == states[j].cols[c].epoch && states[k].cols[c].since == states[j].cols[c].since
  {
    hide Inv, Can, Do, Run;
    if j < k {
      RunReader(states, actions, j, k - 1, c);
      RunInv(states, actions, k - 1);
      RunStep(states, actions, k - 1);
      ReaderStays(states[k - 1], actions[k - 1], c);
    }
  }

  lemma {:induction false} RunEpoch(states: seq<State>, actions: seq<Action>, j: nat, k: nat)
    requires Run(states, actions) && j <= k < |states|
    ensures states[j].epoch <= states[k].epoch
  {
    hide Inv, Can, Do, Run;
    if j < k {
      RunEpoch(states, actions, j, k - 1);
      RunInv(states, actions, k - 1);
      RunStep(states, actions, k - 1);
      EpochAdvances(states[k - 1], actions[k - 1]);
    }
  }

  // ---------------------------------------------------------------- safety of reclamation

  /** In every reachable state an active collector has announced the global epoch or the one before,
      in stored values too. */
  lemma EpochLag(states: seq<State>, actions: seq<Action>, k: nat, c: CollectorId)
    requires Run(states, actions) && k < |states| && c in states[k].cols && Active(states[k].cols[c])
    ensures var s := states[k];
      && (s.cols[c].epoch == s.epoch || s.cols[c].epoch + 1 == s.epoch)
      && (s.cols[c].word.epoch == s.epoch8 || Next(s.cols[c].word.epoch) == s.epoch8)
  {
    hide Inv, Run, Shape, ScanOk, LockOk;
    RunInv(states, actions, k);
    InvShape(states[k]);
    OfCollector(states[k], c);
    WrapNext(states[k].cols[c].epoch);
  }

  /** No reader ever holds a pointer to a freed instance, nor to one that `clear_chain` is dropping. */
  lemma NoUseAfterFree(states: seq<State>, actions: seq<Action>, k: nat, c: CollectorId, o: InstanceId)
    requires Run(states, actions) && k < |states| && (c, o) in states[k].holds
    ensures Instance(o) in states[k].info
    ensures !states[k].info[Instance(o)].loc.Freed? && !states[k].info[Instance(o)].loc.Dumped?
  {
    RunInv(states, actions, k);
    hide Shape, Garbage;
    assert HoldOk(states[k], c, o);
    assert SeenOk(states[k].cols[c], states[k].info[Instance(o)]);
  }

  /** What a retirement step records. */
  lemma RetireRecords(s: State, d: CollectorId, o: InstanceId, c: CollectorId)
    requires Inv(s) && CanRetire(s, d, o) && c in s.cols && Active(s.cols[c])
    ensures var t := Do(s, ARetire(d, o)); var x := Instance(o);
      && x in t.info && Retired(t.info[x]) && t.info[x].epoch == s.epoch && t.info[x].stamp == s.clock
      && c in t.cols && t.cols[c].since == s.cols[c].since && t.cols[c].epoch == s.cols[c].epoch
      && s.cols[c].since < t.info[x].stamp && s.cols[c].epoch <= s.epoch && t.epoch == s.epoch
  {
    hide Shape, Garbage, Grace;
    OfCollector(s, c);
  }

  /** A reader active at a retirement, and ever since, keeps the instance from being freed, and the
      global epoch within one of the epoch of the retirement. */
  lemma StillReading(
      states: seq<State>, actions: seq<Action>, j: nat, k: nat, d: CollectorId, o: InstanceId, c: CollectorId)
    requires Run(states, actions) && j < k < |states| && actions[j] == ARetire(d, o)
    requires ActiveThroughout(states, c, j, k)
    ensures Instance(o) in states[k].info && Retired(states[k].info[Instance(o)])
    ensures !states[k].info[Instance(o)].loc.Freed? && !states[k].info[Instance(o)].loc.Dumped?
    ensures states[k].epoch <= states[j].epoch + 1
  {
    RunInv(states, actions, j);
    RunInv(states, actions, k);
    hide Shape, Garbage, Can, Do, CanRetire;
    assert CanRetire(states[j], d, o) by { IsRetire(states[j], d, o); }
    RetireRecords(states[j], d, o, c);
    RunReader(states, actions, j, k, c);
    RunRetired(states, actions, j + 1, k, Instance(o));
    OfCollector(states[k], c);
    assert SeenOk(states[k].cols[c], states[k].info[Instance(o)]);
    hide Grace;
  }

  lemma IsRetire(s: State, d: CollectorId, o: InstanceId)
    requires Can(s, ARetire(d, o))
    ensures CanRetire(s, d, o)
  {}

  /** Reclamation safety: an instance retired while reader `c` was active, by any thread, in or
      outside a guard, is freed only after `c` has gone inactive. */
  lemma ReclamationSafety(
      states: seq<State>, actions: seq<Action>, j: nat, k: nat, d: CollectorId, o: InstanceId, c: CollectorId)
    requires Run(states, actions) && j < k < |states| && actions[j] == ARetire(d, o)
    requires c in states[j].cols && Active(states[j].cols[c])
    requires Instance(o) in states[k].info && states[k].info[Instance(o)].loc.Freed?
    ensures exists m :: j < m <= k && Gone(states[m], c)
  {
    if forall m :: j < m <= k ==> !Gone(states[m], c) {
      forall m | j <= m <= k
        ensures c in states[m].cols && Active(states[m].cols[c])
      {
        if m > j { assert !Gone(states[m], c); }
      }
      StillReading(states, actions, j, k, d, o, c);
    }
  }

  predicate Gone(s: State, c: CollectorId) { c !in s.cols || !Active(s.cols[c]) }

  /** The contract of `Guard::epoch` and `Epoch::in_same_generation`: reader `c` saw the global epoch
      in state `i` and retired instance `o` later under the same guard.  Once the global epoch is not
      in the same generation as the value seen, no reader that was active at the retirement still
      is, and nobody holds the instance. */
  lemma GenerationContract(states: seq<State>, actions: seq<Action>, i: nat, j: nat, k: nat,
                           c: CollectorId, o: InstanceId, r: CollectorId)
    requires Run(states, actions) && i <= j < k < |states|
    requires ActiveThroughout(states, c, i, j) && actions[j] == ARetire(c, o)
    requires !InSameGeneration(states[i].epoch8, states[k].epoch8)
    requires r in states[j].cols && Active(states[j].cols[r])
    ensures exists m :: j < m <= k && Gone(states[m], r)
  {
    if forall m :: j < m <= k ==> !Gone(states[m], r) {
      forall m | j <= m <= k
        ensures r in states[m].cols && Active(states[m].cols[r])
      {
        if m > j { assert !Gone(states[m], r); }
      }
      StillReading(states, actions, j, k, c, o, r);
      RetirementEpoch(states, actions, i, j, c);
      RunEpoch(states, actions, i, k);
      StoredEpoch(states, actions, i);
      StoredEpoch(states, actions, k);
      SameGenerationExact(states[i].epoch, states[k].epoch);
    }
  }

  lemma StoredEpoch(states: seq<State>, actions: seq<Action>, k: nat)
    requires Run(states, actions) && k < |states|
    ensures states[k].epoch8 == Wrap(states[k].epoch)
  {
    RunInv(states, actions, k);
  }

  /** Under one guard the global epoch moves by at most one. */
  lemma RetirementEpoch(states: seq<State>, actions: seq<Action>, i: nat, j: nat, c: CollectorId)
    requires Run(states, actions) && i <= j < |states| && ActiveThroughout(states, c, i, j)
    ensures states[j].epoch <= states[i].epoch + 1
  {
    RunInv(states, actions, i);
    RunInv(states, actions, j);
    hide Inv, Run, Shape;
    assert c in states[i].cols && c in states[j].cols && Active(states[j].cols[c]);
    InvShape(states[i]);
    InvShape(states[j]);
    OfCollector(states[i], c);
    OfCollector(states[j], c);
    RunReader(states, actions, i, j, c);
  }

  lemma InvShape(s: State)
    requires Inv(s)
    ensures Shape(s)
  {
    hide Shape, Garbage, Grace;
  }

  /** Nobody can see the instance either once its generation has passed. */
  lemma GenerationUnseen(
      states: seq<State>, actions: seq<Action>, i: nat, j: nat, k: nat, c: CollectorId, o: InstanceId, r: CollectorId)
    requires Run(states, actions) && i <= j < k < |states|
    requires ActiveThroughout(states, c, i, j) && actions[j] == ARetire(c, o)
    requires !InSameGeneration(states[i].epoch8, states[k].epoch8)
    ensures (r, o) !in states[k].holds
  {
    if (r, o) in states[k].holds {
      RunInv(states, actions, j);
      RunInv(states, actions, k);
      hide Shape, Garbage, Can, Do, CanRetire;
      assert CanRetire(states[j], c, o) by { IsRetire(states[j], c, o); }
      RetireRecords(states[j], c, o, c);
      RunRetired(states, actions, j + 1, k, Instance(o));
      assert HoldOk(states[k], r, o) && SeenOk(states[k].cols[r], states[k].info[Instance(o)]);
      OfCollector(states[k], r);
      hide Grace;
      RetirementEpoch(states, actions, i, j, c);
      RunEpoch(states, actions, i, k);
      StoredEpoch(states, actions, i);
      StoredEpoch(states, actions, k);
      SameGenerationExact(states[i].epoch, states[k].epoch);
    }
  }
}
