/** What the operations on a count word answer, and that each of them comes to an end when left alone. */
module CountAnswers {
  import opened Base
  import opened CountWord

  // ---------------------------------------------------------------- one step of one operation

  /** One handle more, under the name agreed on. */
  ghost predicate Gains(s: State, t: State, k: nat, to: HandleId) {
    && k < |t.ops| && t.ops[k] == Done(true) && t.live == s.live + {to} && t.word == Plus2(s.word)
    && t.reported == s.reported
  }

  /** Nothing but the operation itself has changed. */
  predicate Quiet(s: State, t: State) { t.live == s.live && t.word == s.word && t.reported == s.reported }

  /** A clone retries until it succeeds.  An upgrade fails exactly if the word it has read is even.  A drop
      subtracts one reference, and is told that it was the last one exactly if the word was 1. */
  ghost predicate Answers(s: State, t: State, k: nat, flaky: bool) {
    && k < |s.ops| && |t.ops| == |s.ops| && t.ops == s.ops[k := t.ops[k]]
    && match s.ops[k]
       case CloneLoad(h, to) => Quiet(s, t) && t.ops[k] == CloneTry(h, to, s.word)
       case CloneTry(h, to, seen) =>
         if s.word == seen && !flaky then Gains(s, t, k, to) else Quiet(s, t) && t.ops[k] == CloneTry(h, to, s.word)
       case UpgradeLoad(to) => Quiet(s, t) && t.ops[k] == UpgradeTry(to, s.word)
       case UpgradeTry(to, seen) =>
         if !Odd(seen) then Quiet(s, t) && t.ops[k] == Done(false)
         else if s.word == seen && !flaky then Gains(s, t, k, to)
         else Quiet(s, t) && t.ops[k] == UpgradeTry(to, s.word)
       case DropLoad => Quiet(s, t) && t.ops[k] == DropTry(s.word)
       case DropTry(seen) =>
         if s.word == seen && !flaky then
           && t.live == s.live && t.word == (if s.word < 2 then 0 else s.word - 2)
           && if s.word == 1 then t.ops[k].Pass? && t.reported == s.reported + 1
              else t.ops[k] == Done(false) && t.reported == s.reported
         else Quiet(s, t) && t.ops[k] == DropTry(s.word)
       case _ => true
  }

  lemma StepAnswers(s: State, k: nat, flaky: bool)
    requires Can(s, Advance(k, flaky))
    ensures Answers(s, Do(s, Advance(k, flaky)), k, flaky)
  {
    hide Plus2, Odd, MODULUS;
  }

  // ---------------------------------------------------------------- what an operation has met

  ghost predicate Met(states: seq<State>, p: nat, n: nat, word: nat)
    requires p <= n < |states|
  {
    exists m :: p <= m <= n && states[m].word == word
  }

  /** At some moment the word was even. */
  ghost predicate Gone(states: seq<State>, p: nat, n: nat)
    requires p <= n < |states|
  {
    exists m :: p <= m <= n && !Odd(states[m].word)
  }

  /** At some moment a handle came to be. */
  ghost predicate Got(states: seq<State>, p: nat, n: nat, to: HandleId)
    requires p <= n < |states|
  {
    exists m :: p <= m <= n && to in states[m].live
  }

  /** What is known of operation `k`, started by `a` with state `p` as the first in which it exists. */
  ghost predicate Tale(states: seq<State>, p: nat, n: nat, k: nat, a: Action)
    requires p <= n < |states| && k < |states[n].ops|
  {
    match a
    case StartClone(h, to) =>
      (match states[n].ops[k]
       case CloneLoad(h', to') => h' == h && to' == to
       case CloneTry(h', to', _) => h' == h && to' == to
       case Done(ok) => ok && Got(states, p, n, to)
       case _ => false)
    case StartUpgrade(to) =>
      (match states[n].ops[k]
       case UpgradeLoad(to') => to' == to
       case UpgradeTry(to', seen) => to' == to && Met(states, p, n, seen)
       case Done(ok) => if ok then Got(states, p, n, to) else Gone(states, p, n)
       case _ => false)
    case StartDrop(_) =>
      var op := states[n].ops[k];
      op.DropLoad? || op.DropTry? || op.Pass? || op.Done?
    case _ => true
  }

  lemma GotNow(states: seq<State>, p: nat, n: nat, to: HandleId)
    requires p <= n < |states| && to in states[n].live
    ensures Got(states, p, n, to)
  {}

  lemma MetNow(states: seq<State>, p: nat, n: nat)
    requires p <= n && n + 1 < |states|
    ensures Met(states, p, n + 1, states[n].word)
  {}

  lemma MetGone(states: seq<State>, p: nat, n: nat, word: nat)
    requires p <= n < |states| && Met(states, p, n, word) && !Odd(word)
    ensures Gone(states, p, n)
  {
    hide Odd;
  }

  lemma Later(states: seq<State>, p: nat, n: nat, word: nat, to: HandleId)
    requires p <= n && n + 1 < |states|
    ensures Met(states, p, n, word) ==> Met(states, p, n + 1, word)
    ensures Gone(states, p, n) ==> Gone(states, p, n + 1)
    ensures Got(states, p, n, to) ==> Got(states, p, n + 1, to)
  {
    hide Odd;
  }

  lemma AdvanceTale(states: seq<State>, p: nat, n: nat, k: nat, a: Action, flaky: bool)
    requires p <= n && n + 1 < |states| && k < |states[n].ops| && !states[n].ops[k].Pass? && !states[n].ops[k].Done?
    requires Tale(states, p, n, k, a) && Answers(states[n], states[n + 1], k, flaky)
    requires a.StartClone? || a.StartUpgrade? || a.StartDrop?
    ensures k < |states[n + 1].ops| && Tale(states, p, n + 1, k, a)
  {
    var t := states[n + 1];
    hide Odd, Plus2, Met, Gone, Got;
    MetNow(states, p, n);
    if !a.StartDrop? {
      Later(states, p, n, 0, a.to);
      if t.ops[k] == Done(true) && a.to in t.live { GotNow(states, p, n + 1, a.to); }
    }
    if states[n].ops[k].UpgradeTry? && !Odd(states[n].ops[k].seen) { MetGone(states, p, n, states[n].ops[k].seen); }
  }

  lemma TaleKept(states: seq<State>, p: nat, n: nat, k: nat, a: Action)
    requires p <= n && n + 1 < |states| && k < |states[n].ops| && Tale(states, p, n, k, a)
    requires k < |states[n + 1].ops| && states[n + 1].ops[k] == states[n].ops[k]
    ensures Tale(states, p, n + 1, k, a)
  {
    var op := states[n].ops[k];
    if a.StartClone? || a.StartUpgrade? { Later(states, p, n, if op.UpgradeTry? then op.seen else 0, a.to); }
    hide Met, Gone, Got;
  }

  predicate ByOp(a: Action, k: nat) { (a.Advance? || a.Collect?) && a.k == k }

  lemma OthersLeave(s: State, a: Action, k: nat)
    requires Can(s, a) && k < |s.ops| && !ByOp(a, k)
    ensures k < |Do(s, a).ops| && Do(s, a).ops[k] == s.ops[k]
  {
    hide Plus2, Odd;
  }

  lemma CollectTale(states: seq<State>, p: nat, n: nat, k: nat, a: Action, link: nat)
    requires p <= n && n + 1 < |states| && k < |states[n].ops| && Tale(states, p, n, k, a)
    requires a.StartClone? || a.StartUpgrade? || a.StartDrop?
    requires Can(states[n], Collect(k, link)) && states[n + 1] == Do(states[n], Collect(k, link))
    ensures k < |states[n + 1].ops| && Tale(states, p, n + 1, k, a)
  {
    hide Met, Gone, Got, Odd;
  }

  lemma RunStep(states: seq<State>, actions: seq<Action>, n: nat)
    requires Run(states, actions) && n < |actions|
    ensures |states| == |actions| + 1 && Can(states[n], actions[n]) && states[n + 1] == Do(states[n], actions[n])
  {
    hide Can, Do;
  }

  lemma TaleStarts(states: seq<State>, q: nat, a: Action)
    requires q + 1 < |states| && Can(states[q], a) && states[q + 1] == Do(states[q], a)
    requires a.StartClone? || a.StartUpgrade? || a.StartDrop?
    ensures |states[q].ops| < |states[q + 1].ops| && Tale(states, q + 1, q + 1, |states[q].ops|, a)
  {
    hide Met, Gone, Got;
  }

  lemma {:induction false} RunTale(states: seq<State>, actions: seq<Action>, q: nat, n: nat, k: nat)
    requires Run(states, actions) && q < n < |states| && q < |actions| && k == |states[q].ops|
    requires actions[q].StartClone? || actions[q].StartUpgrade? || actions[q].StartDrop?
    ensures k < |states[n].ops| && Tale(states, q + 1, n, k, actions[q])
  {
    hide Run, Can, Do, Tale, Answers;
    RunStep(states, actions, q);
    if n == q + 1 {
      TaleStarts(states, q, actions[q]);
    } else {
      RunTale(states, actions, q, n - 1, k);
      RunStep(states, actions, n - 1);
      var s, b := states[n - 1], actions[n - 1];
      if !ByOp(b, k) {
        OthersLeave(s, b, k);
        TaleKept(states, q + 1, n - 1, k, actions[q]);
      } else if b.Advance? {
        StepAnswers(s, k, b.flaky);
        Advancing(s, k, b.flaky);
        AdvanceTale(states, q + 1, n - 1, k, actions[q], b.flaky);
      } else {
        CollectTale(states, q + 1, n - 1, k, actions[q], b.link);
      }
    }
  }

  lemma Advancing(s: State, k: nat, flaky: bool)
    requires Can(s, Advance(k, flaky))
    ensures k < |s.ops| && !s.ops[k].Pass? && !s.ops[k].Done?
  {}

  // ---------------------------------------------------------------- the answers

  /** A clone never fails, and what it yields has been a handle of its own. */
  lemma CloneAnswered(states: seq<State>, actions: seq<Action>, q: nat, n: nat, k: nat, h: HandleId, to: HandleId)
    requires Run(states, actions) && q < n < |states| && q < |actions| && k == |states[q].ops|
    requires actions[q] == StartClone(h, to)
    ensures k < |states[n].ops|
    ensures states[n].ops[k].Done? ==> states[n].ops[k].ok && Got(states, q + 1, n, to)
  {
    RunTale(states, actions, q, n, k);
    hide Run, Got;
  }

  /** An upgrade fails only if the instance has been retired before it is done; if it succeeds, its handle has
      come to be. */
  lemma UpgradeAnswered(states: seq<State>, actions: seq<Action>, q: nat, n: nat, k: nat, to: HandleId)
    requires Sound(states, actions) && q < n < |states| && q < |actions| && k == |states[q].ops|
    requires actions[q] == StartUpgrade(to)
    ensures k < |states[n].ops|
    ensures states[n].ops[k].Done? ==>
      if states[n].ops[k].ok then Got(states, q + 1, n, to) else states[n].reported == 1 && Strong(states[n]) == 0
  {
    RunTale(states, actions, q, n, k);
    hide Run, Got, Odd, Strong;
    if states[n].ops[k] == Done(false) {
      var m :| q + 1 <= m <= n && !Odd(states[m].word);
      RunInv(states, actions, m);
      EvenRetired(states[m]);
      ReportedGrows(states, actions, m, n);
      RunInv(states, actions, n);
      NoneStrong(states[n]);
    }
  }

  lemma EvenRetired(s: State)
    requires Inv(s) && !Odd(s.word)
    ensures s.reported > 0
  {
    hide Strong, Borrowed, Targets;
  }

  lemma NoneStrong(s: State)
    requires Inv(s) && s.reported > 0
    ensures s.reported == 1 && Strong(s) == 0
  {
    hide Strong, Borrowed, Targets;
  }

  // ---------------------------------------------------------------- an operation left alone

  /** How many steps operation `k` still takes when no other interferes. */
  function Left(s: State, k: nat): nat
    requires k < |s.ops|
  {
    match s.ops[k]
    case CloneLoad(_, _) => 2
    case CloneTry(_, _, seen) => if seen == s.word then 1 else 2
    case UpgradeLoad(_) => 2
    case UpgradeTry(_, seen) => if seen == s.word then 1 else 2
    case DropLoad => 2
    case DropTry(seen) => if seen == s.word then 1 else 2
    case Pass => 0
    case Done(_) => 0
  }

  /** Each step brings an operation left alone closer to its end: it takes at most two. */
  lemma AloneFinishes(s: State, k: nat)
    requires Can(s, Advance(k, false))
    ensures var t := Do(s, Advance(k, false));
      && k < |t.ops| && Left(t, k) < Left(s, k) <= 2 && (Left(t, k) == 0 <==> t.ops[k].Done? || t.ops[k].Pass?)
  {
    StepAnswers(s, k, false);
    hide Do, Odd, Plus2;
  }
}
