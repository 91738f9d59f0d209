/** When a run over work known from the start can run out of iterations, and when it cannot. */
module UpgradeLoopBudget {
  import opened Work
  import opened UpgradeLoop
  import opened UpgradeLoopLaws

  // ----- how long the pending work can keep a run going

  function Least(a: nat, b: nat): nat {
    if a <= b then a else b
  }

  /** Attempts one item can take in a run: no more than it has left, nor than the progress budget bears. */
  function Share(item: Item, bound: nat): nat {
    if item.state == PENDING then Least(Left(item), bound) else 0
  }

  function Capacity(items: seq<Item>, bound: nat): nat {
    if items == [] then 0
    else Capacity(items[..|items| - 1], bound) + Share(items[|items| - 1], bound)
  }

  lemma {:induction false} CapacityAfter(items: seq<Item>, i: nat, item: Item, bound: nat)
    requires i < |items|
    ensures Capacity(items[i := item], bound) + Share(items[i], bound) == Capacity(items, bound) + Share(item, bound)
  {
    var n := |items| - 1;
    if i == n {
      assert items[i := item][..n] == items[..n];
    } else {
      assert items[i := item][..n] == items[..n][i := item];
      CapacityAfter(items[..n], i, item, bound);
    }
  }

  lemma {:induction false} ShareWithin(items: seq<Item>, i: nat, bound: nat)
    requires i < |items|
    ensures Share(items[i], bound) <= Capacity(items, bound)
  {
    if i < |items| - 1 { ShareWithin(items[..|items| - 1], i, bound); }
  }

  /** Capacity counts no attempt that is not left, and all of them unless the progress budget limits one item. */
  lemma {:induction false} CapacityWithinRemaining(items: seq<Item>, bound: nat)
    ensures Capacity(items, bound) <= Remaining(items)
    ensures Capacity(items, bound) == Remaining(items) || Capacity(items, bound) >= bound
  {
    if items != [] { CapacityWithinRemaining(items[..|items| - 1], bound); }
  }

  /** Iterations the loop can still go on for: the next item may already have used up some of the progress budget. */
  function Steps(l: Loop, bound: nat): nat
    requires l.noProgress < bound
  {
    var next := NextPending(l.items, |l.items|);
    if next.None? then 0
    else
      var item := l.items[next.value];
      ShareWithin(l.items, next.value, bound);
      Capacity(l.items, bound) - Share(item, bound) + Share(item, bound - l.noProgress)
  }

  /** A pending item that is tried without success and stays pending is the next one again. */
  lemma {:induction false} NextStays(items: seq<Item>, i: nat, item: Item, n: nat)
    requires i < |items| && n <= |items| && items[i].state == item.state == PENDING
    requires item.itemId == items[i].itemId && item.priority == items[i].priority
    ensures NextPending(items[i := item], n) == NextPending(items, n)
  {
    if n > 0 { NextStays(items, i, item, n - 1); }
  }

  lemma StepsWithin(l: Loop, bound: nat)
    requires l.noProgress < bound
    ensures Steps(l, bound) <= Capacity(l.items, bound)
    ensures l.noProgress == 0 ==> Steps(l, bound) == Capacity(l.items, bound)
    ensures Steps(l, bound) == 0 <==> NextPending(l.items, |l.items|).None?
  {
    var next := NextPending(l.items, |l.items|);
    if next.None? {
      NoCapacity(l.items, bound);
    } else {
      ShareWithin(l.items, next.value, bound);
    }
  }

  lemma {:induction false} NoCapacity(items: seq<Item>, bound: nat)
    requires forall i :: 0 <= i < |items| ==> items[i].state != PENDING
    ensures Capacity(items, bound) == 0
  {
    if items != [] { NoCapacity(items[..|items| - 1], bound); }
  }

  // ----- one attempt

  lemma AttemptSteps(l: Loop, i: nat, iteration: nat, outcome: Outcome, policy: Policy)
    requires NextPending(l.items, |l.items|) == Some(i) && l.noProgress < policy.maxNoProgress
    requires AttemptTurn(l, i, iteration, outcome, policy).Continue?
    ensures
      var l' := Attempt(l, i, iteration, outcome, policy);
      l'.noProgress < policy.maxNoProgress && Steps(l', policy.maxNoProgress) < Steps(l, policy.maxNoProgress)
  {
    var l', bound := Attempt(l, i, iteration, outcome, policy), policy.maxNoProgress;
    hide Capacity, NextPending, LastError;
    CapacityAfter(l.items, i, l'.items[i], bound);
    ShareWithin(l.items, i, bound);
    if l'.items[i].state == PENDING {
      NextStays(l.items, i, l'.items[i], |l.items|);
    } else {
      StepsWithin(l', bound);
    }
  }

  /** Attempts never change what is in flight. */
  lemma FlightStays(l: Loop, i: nat, iteration: nat, outcome: Outcome, policy: Policy)
    requires i < |l.items| && l.items[i].state == PENDING
    ensures NoneInFlight(Attempt(l, i, iteration, outcome, policy).items) <==> NoneInFlight(l.items)
  {
    var items' := Attempt(l, i, iteration, outcome, policy).items;
    if !NoneInFlight(l.items) {
      var k :| 0 <= k < |l.items| && (l.items[k].state == RUNNING || l.items[k].state == VALIDATING);
      assert items'[k] == l.items[k];
    }
  }

  lemma QuietTurnSteps(l: Loop, policy: Policy, turn: Turn, iteration: nat)
    requires |l.items| == |l.accepted| && Quiet(l.fingerprints, [turn]) && l.noProgress < policy.maxNoProgress
    requires OneTurn(l, policy, turn, iteration).Continue?
    ensures
      var l' := OneTurn(l, policy, turn, iteration).loop;
      && l'.fingerprints == l.fingerprints && l'.noProgress < policy.maxNoProgress
      && Steps(l', policy.maxNoProgress) < Steps(l, policy.maxNoProgress)
      && (NoneInFlight(l.items) ==> NoneInFlight(l'.items))
  {
    assert turn in [turn];
    QuietAccept(l, turn.discovery.items);
    var i := NextPending(l.items, |l.items|).value;
    AttemptSteps(l, i, iteration, turn.outcome, policy);
    FlightStays(l, i, iteration, turn.outcome, policy);
  }

  // ----- runs that cannot run out

  /** The steps end before the iterations do, or with them and nothing is left in flight. */
  ghost predicate Ample(steps: nat, iterations: nat, items: seq<Item>) {
    steps < iterations || (steps == iterations && NoneInFlight(items))
  }

  lemma NoneOpen(items: seq<Item>)
    requires PendingIds(items) == []
    ensures forall x :: x in items ==> !Open(x.state)
  {
    forall i | 0 <= i < |items| ensures !Open(items[i].state) { ListedIfOpen(items, i); }
  }

  lemma ListedIfOpen(items: seq<Item>, i: nat)
    requires i < |items|
    ensures Open(items[i].state) ==> items[i].itemId in PendingIds(items)
  {
  }

  lemma NothingLeftOver(l: Loop, bound: nat, iterations: nat, cps: seq<Checkpoint>)
    requires l.noProgress < bound
    ensures Conclude(l, iterations, LOOP_RUNNING, "", cps).report.state == BUDGET_EXHAUSTED
      <==> !Ample(Steps(l, bound), 0, l.items)
  {
    StepsWithin(l, bound);
    var ids := PendingIds(l.items);
    if ids == [] {
      NoneOpen(l.items);
    } else {
      assert ids[0] in ids;
    }
  }

  lemma {:induction false} QuietRunFinishes(
    l: Loop, policy: Policy, turns: seq<Turn>, iteration: nat, cps: seq<Checkpoint>)
    requires ValidPolicy(policy) && |turns| >= policy.maxIterations
    requires 1 <= iteration <= policy.maxIterations + 1
    requires |l.items| == |l.accepted| && Quiet(l.fingerprints, turns) && l.noProgress < policy.maxNoProgress
    requires Ample(Steps(l, policy.maxNoProgress), policy.maxIterations + 1 - iteration, l.items)
    ensures RunFrom(l, policy, turns, iteration, cps).report.state != BUDGET_EXHAUSTED
    decreases policy.maxIterations + 1 - iteration
  {
    hide Steps, Conclude, OneTurn;
    if iteration > policy.maxIterations {
      NothingLeftOver(l, policy.maxNoProgress, policy.maxIterations, cps);
    } else {
      var r := OneTurn(l, policy, turns[iteration - 1], iteration);
      RunFromNext(l, policy, turns, iteration, cps);
      if r.Continue? {
        QuietTurnSteps(l, policy, turns[iteration - 1], iteration);
        QuietRunFinishes(r.loop, policy, turns, iteration + 1, cps + r.checkpoints);
      } else {
        StoppedRunConcludes(r.loop, iteration, r.state, r.reason, cps + r.checkpoints);
      }
    }
  }

  lemma StoppedRunConcludes(l: Loop, iterations: nat, state: LoopState, reason: string, cps: seq<Checkpoint>)
    requires state == HALTED || state == COMPLETED
    ensures Conclude(l, iterations, state, reason, cps).report.state != BUDGET_EXHAUSTED
  {
  }

  // ----- runs that do run out

  /** Fails as long as the item stays pending and the run goes on, and passes otherwise. */
  function WorstOutcome(item: Item, noProgress: nat, policy: Policy): Outcome {
    if Left(item) > 1 && noProgress + 1 < policy.maxNoProgress then Raised("") else Validated(true, [], None)
  }

  function WorstTurn(l: Loop, policy: Policy): Turn {
    var next := NextPending(l.items, |l.items|);
    Turn(Discovery([], None), if next.None? then Raised("") else WorstOutcome(l.items[next.value], l.noProgress, policy))
  }

  /** What the callbacks do to keep the loop going for as long as possible. */
  function Worst(l: Loop, policy: Policy, iteration: nat): (turns: seq<Turn>)
    requires |l.items| == |l.accepted| && iteration <= policy.maxIterations + 1
    ensures |turns| == policy.maxIterations + 1 - iteration
    ensures forall t :: t in turns ==> t.discovery == Discovery([], None)
    decreases policy.maxIterations + 1 - iteration
  {
    if iteration == policy.maxIterations + 1 then []
    else
      var turn := WorstTurn(l, policy);
      [turn] + Worst(OneTurn(l, policy, turn, iteration).loop, policy, iteration + 1)
  }

  lemma WorstAttempt(l: Loop, i: nat, iteration: nat, policy: Policy)
    requires NextPending(l.items, |l.items|) == Some(i) && l.noProgress < policy.maxNoProgress
    ensures
      var outcome := WorstOutcome(l.items[i], l.noProgress, policy);
      var l' := Attempt(l, i, iteration, outcome, policy);
      && AttemptTurn(l, i, iteration, outcome, policy).Continue? && l'.noProgress < policy.maxNoProgress
      && Steps(l', policy.maxNoProgress) + 1 == Steps(l, policy.maxNoProgress)
  {
    var outcome, bound := WorstOutcome(l.items[i], l.noProgress, policy), policy.maxNoProgress;
    var l' := Attempt(l, i, iteration, outcome, policy);
    hide Capacity, NextPending, LastError;
    CapacityAfter(l.items, i, l'.items[i], bound);
    ShareWithin(l.items, i, bound);
    if l'.items[i].state == PENDING {
      NextStays(l.items, i, l'.items[i], |l.items|);
    } else {
      StepsWithin(l', bound);
    }
  }

  lemma WorstTurnGoesOn(l: Loop, policy: Policy, iteration: nat)
    requires |l.items| == |l.accepted| && l.noProgress < policy.maxNoProgress
    requires NextPending(l.items, |l.items|).Some?
    ensures
      var r := OneTurn(l, policy, WorstTurn(l, policy), iteration);
      && r.Continue? && r.loop.noProgress < policy.maxNoProgress
      && Steps(r.loop, policy.maxNoProgress) + 1 == Steps(l, policy.maxNoProgress)
      && (NoneInFlight(r.loop.items) <==> NoneInFlight(l.items))
  {
    var i := NextPending(l.items, |l.items|).value;
    WorstAttempt(l, i, iteration, policy);
    FlightStays(l, i, iteration, WorstOutcome(l.items[i], l.noProgress, policy), policy);
    assert AcceptAll(l, []) == l;
  }

  lemma {:induction false} WorstRunExhausts(
    l: Loop, policy: Policy, turns: seq<Turn>, iteration: nat, cps: seq<Checkpoint>)
    requires ValidPolicy(policy) && |turns| == policy.maxIterations
    requires 1 <= iteration <= policy.maxIterations + 1
    requires |l.items| == |l.accepted| && l.noProgress < policy.maxNoProgress
    requires turns[iteration - 1..] == Worst(l, policy, iteration)
    requires !Ample(Steps(l, policy.maxNoProgress), policy.maxIterations + 1 - iteration, l.items)
    ensures RunFrom(l, policy, turns, iteration, cps).report.state == BUDGET_EXHAUSTED
    decreases policy.maxIterations + 1 - iteration
  {
    hide Steps, Conclude, OneTurn, WorstTurn;
    if iteration > policy.maxIterations {
      NothingLeftOver(l, policy.maxNoProgress, policy.maxIterations, cps);
    } else {
      StepsWithin(l, policy.maxNoProgress);
      RunFromNext(l, policy, turns, iteration, cps);
      WorstTurnGoesOn(l, policy, iteration);
      assert turns[iteration - 1] == turns[iteration - 1..][0] == WorstTurn(l, policy);
      assert turns[iteration..] == turns[iteration - 1..][1..];
      var r := OneTurn(l, policy, turns[iteration - 1], iteration);
      WorstRunExhausts(r.loop, policy, turns, iteration + 1, cps + r.checkpoints);
    }
  }

  // ----- exactly when the iterations are enough

  /** Whatever the callbacks do, as long as discovery yields nothing new, the iterations do not run out. */
  ghost predicate NeverExhausted(seed: seq<Item>, policy: Policy)
    requires ValidPolicy(policy)
  {
    forall turns ::
      |turns| >= policy.maxIterations && Quiet(AcceptAll(EMPTY_LOOP, seed).fingerprints, turns) ==>
      Run(seed, policy, turns).report.state != BUDGET_EXHAUSTED
  }

  /**
   * A quiet run can never end with its iterations used up exactly if they exceed what the pending work can
   * use, or just cover it and nothing was offered in flight: each item can use its attempts, up to the
   * progress budget.
   */
  lemma EnoughIterationsExactly(seed: seq<Item>, policy: Policy)
    requires ValidPolicy(policy)
    ensures
      var items := AcceptAll(EMPTY_LOOP, seed).items;
      NeverExhausted(seed, policy) <==> Ample(Capacity(items, policy.maxNoProgress), policy.maxIterations, items)
  {
    var l := AcceptAll(EMPTY_LOOP, seed);
    StepsWithin(l, policy.maxNoProgress);
    if Ample(Capacity(l.items, policy.maxNoProgress), policy.maxIterations, l.items) {
      forall turns | |turns| >= policy.maxIterations && Quiet(l.fingerprints, turns)
        ensures Run(seed, policy, turns).report.state != BUDGET_EXHAUSTED
      {
        QuietRunFinishes(l, policy, turns, 1, []);
      }
    } else {
      var turns := Worst(l, policy, 1);
      WorstRunExhausts(l, policy, turns, 1, []);
      assert Quiet(l.fingerprints, turns) && Run(seed, policy, turns).report.state == BUDGET_EXHAUSTED;
    }
  }

  /**
   * With an iteration for every attempt left in the seed, and one to spare if work was offered in flight,
   * the iterations are never what ends a quiet run.
   */
  lemma EnoughIterationsFinish(seed: seq<Item>, policy: Policy, turns: seq<Turn>)
    requires ValidPolicy(policy) && |turns| >= policy.maxIterations
    requires Quiet(AcceptAll(EMPTY_LOOP, seed).fingerprints, turns)
    requires Ample(Remaining(AcceptAll(EMPTY_LOOP, seed).items), policy.maxIterations, AcceptAll(EMPTY_LOOP, seed).items)
    ensures Run(seed, policy, turns).report.state != BUDGET_EXHAUSTED
  {
    CapacityWithinRemaining(AcceptAll(EMPTY_LOOP, seed).items, policy.maxNoProgress);
    EnoughIterationsExactly(seed, policy);
  }

  /** Under a progress budget larger than the iterations this condition on the attempts left is exact. */
  lemma EnoughAttemptsExactly(seed: seq<Item>, policy: Policy)
    requires ValidPolicy(policy) && policy.maxNoProgress > policy.maxIterations
    ensures
      var items := AcceptAll(EMPTY_LOOP, seed).items;
      NeverExhausted(seed, policy) <==> Ample(Remaining(items), policy.maxIterations, items)
  {
    hide NeverExhausted;
    CapacityWithinRemaining(AcceptAll(EMPTY_LOOP, seed).items, policy.maxNoProgress);
    EnoughIterationsExactly(seed, policy);
  }

  lemma TwoTakenIn(a: Item, b: Item)
    requires a.itemId != b.itemId && a.fingerprint != b.fingerprint
    ensures AcceptAll(EMPTY_LOOP, [a, b]).items == [a, b]
  {
    assert [a, b][..1] == [a] && [a][..0] == [];
    assert AcceptAll(EMPTY_LOOP, [a]).items == [a];
  }

  lemma OnlySecondPending(a: Item, b: Item)
    requires a.state != PENDING && b.state == PENDING
    ensures NextPending([a, b], 2) == Some(1) && Remaining([a, b]) == Left(b)
  {
    assert [a, b][..1] == [a] && [a][..0] == [];
    assert NextPending([a, b], 1) == None;
    assert Remaining([a]) == Remaining([]) == 0;
  }

  lemma OnlyFirstOpen(a: Item, b: Item)
    requires Open(a.state) && !Open(b.state)
    ensures PendingIds([a, b]) == [a.itemId]
  {
    assert [a, b][..1] == [a] && [a][..0] == [];
    assert PendingIds([a]) == [a.itemId];
  }

  /**
   * Without the spare iteration: next to an item offered as RUNNING or VALIDATING, another succeeds in the
   * one iteration there is for its one attempt, and the run still ends with its budget exhausted.
   */
  lemma InFlightExhausts(a: Item, b: Item, policy: Policy, turns: seq<Turn>)
    requires ValidPolicy(policy) && policy.maxIterations == 1 <= |turns|
    requires a.itemId != b.itemId && a.fingerprint != b.fingerprint
    requires (a.state == RUNNING || a.state == VALIDATING) && b.state == PENDING && Left(b) == 1
    requires turns[0] == Turn(Discovery([], None), Validated(true, [], None))
    ensures
      var f := Run([a, b], policy, turns);
      && Remaining([a, b]) == policy.maxIterations
      && f.report.state == BUDGET_EXHAUSTED && f.report.completed == [b.itemId] && f.report.pending == [a.itemId]
  {
    hide AcceptAll, NextPending, Remaining, PendingIds;
    var l := AcceptAll(EMPTY_LOOP, [a, b]);
    TwoTakenIn(a, b);
    OnlySecondPending(a, b);
    LastPasses(l, b, policy, turns[0]);
    var r := OneTurn(l, policy, turns[0], 1);
    OnlyFirstOpen(a, r.loop.items[1]);
    RunFromNext(l, policy, turns, 1, []);
  }

  lemma LastPasses(l: Loop, b: Item, policy: Policy, turn: Turn)
    requires |l.items| == |l.accepted| == 2 && l.items[1] == b && l.completed == [] && NextPending(l.items, 2) == Some(1)
    requires turn == Turn(Discovery([], None), Validated(true, [], None))
    ensures
      var r := OneTurn(l, policy, turn, 1);
      && r.Continue? && |r.loop.items| == 2 && r.loop.items[0] == l.items[0] && r.loop.items[1].state == SUCCEEDED
      && r.loop.items == [l.items[0], r.loop.items[1]] && r.loop.completed == [b.itemId]
  {
    assert AcceptAll(l, []) == l;
    hide NextPending, LastError, PendingIds;
  }
}
