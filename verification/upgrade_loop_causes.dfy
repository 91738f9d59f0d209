/** Why work is blocked and why a run halts: never without the cause its rules name. */
module UpgradeLoopCauses {
  import opened Work
  import opened UpgradeLoop
  import opened UpgradeLoopLaws

  // ----- blocked work

  predicate Exhausted(x: Item) {
    x.attempts >= x.maxAttempts
  }

  /** Only work without attempts left is blocked. */
  ghost predicate BlockedExhausted(l: Loop) {
    forall i :: 0 <= i < |l.items| && l.items[i].itemId in l.blocked ==> Exhausted(l.items[i])
  }

  /** The last attempt of the run was on this work, and had to halt the run. */
  predicate HaltedBy(l: Loop, id: ItemId) {
    && l.records != [] && l.records[|l.records| - 1].itemId == id
    && (l.records[|l.records| - 1].outcome == REGRESSION_BLOCKED || l.records[|l.records| - 1].outcome == ROLLBACK_FAILED)
  }

  ghost predicate BlockedForCause(l: Loop) {
    forall i :: 0 <= i < |l.items| && l.items[i].itemId in l.blocked ==>
      Exhausted(l.items[i]) || HaltedBy(l, l.items[i].itemId)
  }

  lemma AcceptBlocked(l: Loop, item: Item, u: set<Item>)
    requires Sound(l, u) && IdsIdentify(u) && item in u && BlockedExhausted(l)
    ensures BlockedExhausted(Accept(l, item))
  {
    if item.fingerprint !in l.fingerprints {
      forall i | 0 <= i < |l.items| ensures l.items[i].itemId != item.itemId { assert Booked(l, i); }
      assert Accept(l, item).items == l.items + [item];
    }
  }

  lemma {:induction false} AcceptAllBlocked(l: Loop, offered: seq<Item>, u: set<Item>)
    requires Sound(l, u) && IdsIdentify(u) && AllFrom(offered, u) && BlockedExhausted(l)
    ensures BlockedExhausted(AcceptAll(l, offered))
  {
    if offered != [] {
      var front := offered[..|offered| - 1];
      AcceptAllBlocked(l, front, u);
      AcceptAllSound(l, front, u);
      AcceptBlocked(AcceptAll(l, front), offered[|offered| - 1], u);
    }
  }

  /** The attempted item: blocked only for a cause, and with an end of the run unless it is exhausted. */
  lemma AttemptedBlocked(l: Loop, i: nat, iteration: nat, outcome: Outcome, policy: Policy)
    requires i < |l.items| && l.items[i].itemId !in l.blocked
    ensures
      var r := AttemptTurn(l, i, iteration, outcome, policy);
      r.loop.items[i].itemId in r.loop.blocked ==>
        Exhausted(r.loop.items[i]) || (r.Stop? && HaltedBy(r.loop, r.loop.items[i].itemId))
  {
  }

  lemma OthersBlocked(l: Loop, i: nat, iteration: nat, outcome: Outcome, policy: Policy, j: nat)
    requires i < |l.items| && j < |l.items| && l.items[j].itemId != l.items[i].itemId
    ensures
      var r := AttemptTurn(l, i, iteration, outcome, policy);
      r.loop.items[j] == l.items[j] && (l.items[j].itemId in r.loop.blocked <==> l.items[j].itemId in l.blocked)
  {
  }

  lemma AttemptBlocked(l: Loop, i: nat, iteration: nat, outcome: Outcome, policy: Policy, u: set<Item>)
    requires Sound(l, u) && i < |l.items| && l.items[i].state == PENDING && BlockedExhausted(l)
    ensures
      var r := AttemptTurn(l, i, iteration, outcome, policy);
      BlockedForCause(r.loop) && (r.Continue? ==> BlockedExhausted(r.loop))
  {
    var r := AttemptTurn(l, i, iteration, outcome, policy);
    assert Booked(l, i);
    AttemptedBlocked(l, i, iteration, outcome, policy);
    forall j | 0 <= j < |r.loop.items| && r.loop.items[j].itemId in r.loop.blocked
      ensures Exhausted(r.loop.items[j]) || (r.Stop? && HaltedBy(r.loop, r.loop.items[j].itemId))
    {
      if j != i { OthersBlocked(l, i, iteration, outcome, policy, j); }
    }
  }

  lemma OneTurnBlocked(l: Loop, policy: Policy, turn: Turn, iteration: nat, u: set<Item>)
    requires Sound(l, u) && IdsIdentify(u) && AllFrom(turn.discovery.items, u) && BlockedExhausted(l)
    ensures
      var r := OneTurn(l, policy, turn, iteration);
      BlockedForCause(r.loop) && (r.Continue? ==> BlockedExhausted(r.loop))
  {
    AcceptAllSound(l, turn.discovery.items, u);
    AcceptAllBlocked(l, turn.discovery.items, u);
    var l1 := AcceptAll(l, turn.discovery.items);
    var next := NextPending(l1.items, |l1.items|);
    if turn.discovery.error.None? && next.Some? {
      AttemptBlocked(l1, next.value, iteration, turn.outcome, policy, u);
    }
  }

  lemma SoundLength(l: Loop, u: set<Item>)
    requires Sound(l, u)
    ensures |l.items| == |l.accepted|
  {
  }

  lemma ExhaustedForCause(l: Loop)
    requires BlockedExhausted(l)
    ensures BlockedForCause(l)
  {
  }

  lemma {:induction false} RunFromBlocked(
    l: Loop, policy: Policy, turns: seq<Turn>, iteration: nat, cps: seq<Checkpoint>, u: set<Item>)
    requires ValidPolicy(policy) && |turns| >= policy.maxIterations
    requires 1 <= iteration <= policy.maxIterations + 1
    requires Sound(l, u) && IdsIdentify(u) && DrawnFrom([], turns, u) && BlockedExhausted(l)
    ensures BlockedForCause(RunFrom(l, policy, turns, iteration, cps).loop)
    decreases policy.maxIterations + 1 - iteration
  {
    hide Sound, OneTurn, BlockedExhausted, BlockedForCause, IdsIdentify;
    SoundLength(l, u);
    ExhaustedForCause(l);
    if iteration <= policy.maxIterations {
      RunFromNext(l, policy, turns, iteration, cps);
      OneTurnBlocked(l, policy, turns[iteration - 1], iteration, u);
      OneTurnSound(l, policy, turns[iteration - 1], iteration, u);
      var r := OneTurn(l, policy, turns[iteration - 1], iteration);
      if r.Continue? { RunFromBlocked(r.loop, policy, turns, iteration + 1, cps + r.checkpoints, u); }
    }
  }

  /**
   * Work is blocked only when its attempts are used up, or when the run's last attempt was on it and
   * ended in a guarded regression or a failed rollback.
   */
  lemma BlockedOnlyForCause(seed: seq<Item>, policy: Policy, turns: seq<Turn>, u: set<Item>)
    requires ValidPolicy(policy) && |turns| >= policy.maxIterations
    requires IdsIdentify(u) && DrawnFrom(seed, turns, u)
    ensures BlockedForCause(Run(seed, policy, turns).loop)
  {
    AcceptAllSound(EMPTY_LOOP, seed, u);
    RunFromBlocked(AcceptAll(EMPTY_LOOP, seed), policy, turns, 1, [], u);
  }

  // ----- halted runs

  ghost predicate NothingPendingIn(l: Loop) {
    forall x :: x in l.items ==> x.state != PENDING
  }

  /** The halt reason names something that is so. */
  ghost predicate TrueReason(l: Loop, reason: string, policy: Policy, turn: Turn) {
    || (turn.discovery.error.Some? && reason == "discovery_error:" + turn.discovery.error.value)
    || (reason == "blocked_work_remaining" && l.blocked != [] && NothingPendingIn(l))
    || (reason == "regression_guard" && RegressionStops(turn.outcome, policy))
    || (reason == "rollback_failed" && RollbackFails(turn.outcome, policy))
    || (reason == "no_progress_budget_exhausted" && Streak(l.records) == policy.maxNoProgress)
  }

  lemma AttemptHaltsForCause(l: Loop, i: nat, iteration: nat, turn: Turn, policy: Policy)
    requires ValidPolicy(policy) && Progressing(l, policy) && i < |l.items|
    ensures
      var r := AttemptTurn(l, i, iteration, turn.outcome, policy);
      r.Stop? ==> TrueReason(r.loop, r.reason, policy, turn)
  {
    hide LastError, Snapshot, StreaksWithin, Begin, NothingPendingIn;
    var after := Attempt(l, i, iteration, turn.outcome, policy);
    assert after.records[..|after.records| - 1] == l.records;
  }

  lemma OneTurnHaltsForCause(l: Loop, policy: Policy, turn: Turn, iteration: nat)
    requires ValidPolicy(policy) && |l.items| == |l.accepted| && Progressing(l, policy)
    ensures
      var r := OneTurn(l, policy, turn, iteration);
      r.Stop? && r.state == HALTED ==> TrueReason(r.loop, r.reason, policy, turn)
  {
    var l1 := AcceptAll(l, turn.discovery.items);
    var next := NextPending(l1.items, |l1.items|);
    if turn.discovery.error.None? && next.Some? {
      AttemptHaltsForCause(l1, next.value, iteration, turn, policy);
    }
  }

  ghost predicate HaltedForCause(f: Final, policy: Policy, turns: seq<Turn>) {
    f.report.state == HALTED ==>
      1 <= f.report.iterations <= |turns| && TrueReason(f.loop, f.report.haltReason, policy, turns[f.report.iterations - 1])
  }

  lemma ConcludeHalts(l: Loop, iterations: nat, state: LoopState, reason: string, cps: seq<Checkpoint>)
    ensures
      var f := Conclude(l, iterations, state, reason, cps);
      && f.loop == l && f.report.iterations == iterations
      && (state == HALTED ==> f.report.haltReason == reason)
      && (state != HALTED && f.report.state == HALTED ==>
            f.report.haltReason == "blocked_work_remaining" && l.blocked != [] && NothingPendingIn(l))
  {
    PendingListed(l.items);
  }

  lemma {:induction false} RunFromHaltsForCause(
    l: Loop, policy: Policy, turns: seq<Turn>, iteration: nat, cps: seq<Checkpoint>)
    requires ValidPolicy(policy) && |turns| >= policy.maxIterations
    requires 1 <= iteration <= policy.maxIterations + 1
    requires |l.items| == |l.accepted| && Progressing(l, policy)
    ensures HaltedForCause(RunFrom(l, policy, turns, iteration, cps), policy, turns)
    decreases policy.maxIterations + 1 - iteration
  {
    if iteration > policy.maxIterations {
      ConcludeHalts(l, policy.maxIterations, LOOP_RUNNING, "", cps);
    } else {
      RunFromNext(l, policy, turns, iteration, cps);
      OneTurnProgress(l, policy, turns[iteration - 1], iteration);
      OneTurnHaltsForCause(l, policy, turns[iteration - 1], iteration);
      var r := OneTurn(l, policy, turns[iteration - 1], iteration);
      if r.Continue? {
        RunFromHaltsForCause(r.loop, policy, turns, iteration + 1, cps + r.checkpoints);
      } else {
        ConcludeHalts(r.loop, iteration, r.state, r.reason, cps + r.checkpoints);
      }
    }
  }

  /**
   * A halted run names its true cause: the discovery error of its last iteration, blocked work with
   * nothing left to try, a regression or rollback that must stop it, or a progress budget just used up.
   */
  lemma HaltsForTheStatedReason(seed: seq<Item>, policy: Policy, turns: seq<Turn>)
    requires ValidPolicy(policy) && |turns| >= policy.maxIterations
    ensures HaltedForCause(Run(seed, policy, turns), policy, turns)
  {
    RunFromHaltsForCause(AcceptAll(EMPTY_LOOP, seed), policy, turns, 1, []);
  }
}
