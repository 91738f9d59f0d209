/** What becomes of every item, and how a run ends: decided by attempts and by what the callbacks did. */
module UpgradeLoopOutcomes {
  import opened Work
  import opened UpgradeLoop
  import opened UpgradeLoopLaws

  // ----- what records say

  /** The record names what happened, for an item that may be attempted up to the limit. */
  predicate Labelled(r: IterationRecord, o: Outcome, policy: Policy, limit: nat) {
    && (r.outcome == DONE <==> Passes(o, policy))
    && (r.outcome == ROLLBACK_FAILED <==> RollbackFails(o, policy))
    && (r.outcome == REGRESSION_BLOCKED <==> RegressionStops(o, policy))
    && (r.outcome == EXHAUSTED <==> o.Raised? && r.attempt >= limit)
    && (r.outcome == RETRY <==> o.Raised? && r.attempt < limit)
  }

  /** Index of the last record of an id. */
  function LastOf(records: seq<IterationRecord>, id: ItemId): (k: Option<nat>)
    ensures k.Some? ==> k.value < |records| && records[k.value].itemId == id
    ensures k.None? <==> forall r :: r in records ==> r.itemId != id
  {
    if records == [] then None
    else if records[|records| - 1].itemId == id then Some(|records| - 1)
    else
      assert records == records[..|records| - 1] + [records[|records| - 1]];
      LastOf(records[..|records| - 1], id)
  }

  /** The error of the latest attempt that raised or could not be rolled back, or what the item came with. */
  function ErrorOf(
    records: seq<IterationRecord>, turns: seq<Turn>, policy: Policy, id: ItemId, first: string): string
    requires |records| <= |turns|
  {
    if records == [] then first
    else
      var n := |records| - 1;
      var o := turns[n].outcome;
      if records[n].itemId == id && o.Raised? then o.error
      else if records[n].itemId == id && RollbackFails(o, policy) then "rollback failed: " + o.rollbackError.value
      else ErrorOf(records[..n], turns, policy, id, first)
  }

  // ----- the invariant

  /** Record k of item i counts its attempts and names what happened. */
  ghost predicate RecordTells(l: Loop, policy: Policy, turns: seq<Turn>, i: nat, k: nat)
    requires i < |l.items| == |l.accepted| && k < |l.records| <= |turns|
  {
    l.records[k].itemId == l.items[i].itemId ==>
      && l.records[k].attempt == l.accepted[i].attempts + Tries(l.records[..k + 1], l.items[i].itemId)
      && Labelled(l.records[k], turns[k].outcome, policy, l.items[i].maxAttempts)
  }

  /** Item i as its last attempt left it. */
  ghost predicate Fated(l: Loop, policy: Policy, turns: seq<Turn>, i: nat)
    requires i < |l.items| == |l.accepted| && |l.records| <= |turns|
  {
    var x, offered, last := l.items[i], l.accepted[i], LastOf(l.records, l.items[i].itemId);
    if last.None? then x == offered
    else
      var o := turns[last.value].outcome;
      && (x.state == SUCCEEDED <==> Passes(o, policy))
      && (x.state == BLOCKED <==> !Passes(o, policy) && (MustHalt(o, policy) || x.attempts >= x.maxAttempts))
      && (x.state != SUCCEEDED && x.state != BLOCKED ==> x.state == PENDING)
      && x.lastError == ErrorOf(l.records, turns, policy, x.itemId, offered.lastError)
  }

  ghost predicate Told(l: Loop, policy: Policy, turns: seq<Turn>) {
    && |l.items| == |l.accepted| && |l.records| <= |turns|
    && (forall i :: 0 <= i < |l.items| ==> Fated(l, policy, turns, i))
    && (forall i, k :: 0 <= i < |l.items| && 0 <= k < |l.records| ==> RecordTells(l, policy, turns, i, k))
  }

  lemma {:induction false} NoErrorYet(
    records: seq<IterationRecord>, turns: seq<Turn>, policy: Policy, id: ItemId, first: string)
    requires |records| <= |turns| && forall r :: r in records ==> r.itemId != id
    ensures ErrorOf(records, turns, policy, id, first) == first
  {
    if records != [] { NoErrorYet(records[..|records| - 1], turns, policy, id, first); }
  }

  lemma AcceptTold(l: Loop, item: Item, u: set<Item>, policy: Policy, turns: seq<Turn>)
    requires Sound(l, u) && IdsIdentify(u) && item in u && Told(l, policy, turns)
    ensures Told(Accept(l, item), policy, turns)
  {
    if item.fingerprint !in l.fingerprints {
      forall i | 0 <= i < |l.items| ensures l.items[i].itemId != item.itemId { assert Booked(l, i); }
      var after := Accept(l, item);
      assert after.items == l.items + [item] && after.accepted == l.accepted + [item];
      forall r | r in l.records ensures r.itemId != item.itemId { assert HasId(l.items, r.itemId); }
      forall i | 0 <= i < |after.items| ensures Fated(after, policy, turns, i) {
        if i < |l.items| { assert Fated(l, policy, turns, i); }
      }
      forall i, k | 0 <= i < |after.items| && 0 <= k < |l.records| ensures RecordTells(after, policy, turns, i, k) {
        if i < |l.items| { assert RecordTells(l, policy, turns, i, k); } else { assert l.records[k] in l.records; }
      }
    }
  }

  lemma {:induction false} AcceptAllTold(l: Loop, offered: seq<Item>, u: set<Item>, policy: Policy, turns: seq<Turn>)
    requires Sound(l, u) && IdsIdentify(u) && AllFrom(offered, u) && Told(l, policy, turns)
    ensures Told(AcceptAll(l, offered), policy, turns)
  {
    hide Sound, IdsIdentify, Told, Accept;
    SoundLengths(l, u);
    if offered != [] {
      var front := offered[..|offered| - 1];
      AcceptAllTold(l, front, u, policy, turns);
      AcceptAllSound(l, front, u);
      AcceptTold(AcceptAll(l, front), offered[|offered| - 1], u, policy, turns);
    }
  }

  lemma SoundLengths(l: Loop, u: set<Item>)
    requires Sound(l, u)
    ensures |l.items| == |l.accepted|
  {
  }

  /** The attempted item, and the record of the attempt. */
  lemma AttemptedTold(l: Loop, i: nat, policy: Policy, turns: seq<Turn>)
    requires i < |l.items| == |l.accepted| && |l.records| < |turns| && Booked(l, i) && l.items[i].state == PENDING
    requires Fated(l, policy, turns, i)
    ensures
      var n := |l.records|;
      var after := Attempt(l, i, n + 1, turns[n].outcome, policy);
      |after.records| == n + 1 && Fated(after, policy, turns, i) && RecordTells(after, policy, turns, i, n)
  {
    var n := |l.records|;
    var after := Attempt(l, i, n + 1, turns[n].outcome, policy);
    assert after.records[..n] == l.records && after.records[..n + 1] == after.records;
    if LastOf(l.records, l.items[i].itemId).None? {
      NoErrorYet(l.records, turns, policy, l.items[i].itemId, l.accepted[i].lastError);
    }
  }

  /** Another item is left as it was. */
  lemma OtherTold(l: Loop, i: nat, policy: Policy, turns: seq<Turn>, j: nat)
    requires i < |l.items| == |l.accepted| && j < |l.items| && |l.records| < |turns|
    requires l.items[j].itemId != l.items[i].itemId && Fated(l, policy, turns, j)
    ensures
      var n := |l.records|;
      var after := Attempt(l, i, n + 1, turns[n].outcome, policy);
      |after.records| == n + 1 && Fated(after, policy, turns, j) && RecordTells(after, policy, turns, j, n)
  {
    hide Judge, LastError;
    var n := |l.records|;
    var after := Attempt(l, i, n + 1, turns[n].outcome, policy);
    assert after.records[..n] == l.records;
  }

  lemma EarlierTold(l: Loop, i: nat, policy: Policy, turns: seq<Turn>, j: nat, k: nat)
    requires i < |l.items| == |l.accepted| && j < |l.items| && k < |l.records| < |turns|
    requires RecordTells(l, policy, turns, j, k)
    ensures
      var after := Attempt(l, i, |l.records| + 1, turns[|l.records|].outcome, policy);
      RecordTells(after, policy, turns, j, k)
  {
    hide Judge, LastError, Labelled;
    var after := Attempt(l, i, |l.records| + 1, turns[|l.records|].outcome, policy);
    assert after.records[..k + 1] == l.records[..k + 1] && after.records[k] == l.records[k];
  }

  lemma AttemptTold(l: Loop, i: nat, u: set<Item>, policy: Policy, turns: seq<Turn>)
    requires Sound(l, u) && i < |l.items| && l.items[i].state == PENDING && Told(l, policy, turns) && |l.records| < |turns|
    ensures Told(Attempt(l, i, |l.records| + 1, turns[|l.records|].outcome, policy), policy, turns)
  {
    hide Fated, RecordTells, Judge, LastError;
    var n := |l.records|;
    var after := Attempt(l, i, n + 1, turns[n].outcome, policy);
    assert Booked(l, i) && Fated(l, policy, turns, i);
    AttemptedTold(l, i, policy, turns);
    forall j | 0 <= j < |after.items|
      ensures Fated(after, policy, turns, j) && RecordTells(after, policy, turns, j, n)
    {
      assert Fated(l, policy, turns, j);
      if j != i { OtherTold(l, i, policy, turns, j); }
    }
    forall j, k | 0 <= j < |after.items| && 0 <= k < |after.records| ensures RecordTells(after, policy, turns, j, k) {
      if k < n {
        assert RecordTells(l, policy, turns, j, k);
        EarlierTold(l, i, policy, turns, j, k);
      }
    }
  }

  // ----- the end

  ghost predicate NothingToTry(l: Loop) {
    forall x :: x in l.items ==> x.state != PENDING
  }

  /** State and reason when iteration n is the last and its attempt was made. */
  ghost predicate EndsAfterAttempt(f: Final, policy: Policy, o: Outcome) {
    var r := f.report;
    if RollbackFails(o, policy) then r.state == HALTED && r.haltReason == "rollback_failed"
    else if RegressionStops(o, policy) then r.state == HALTED && r.haltReason == "regression_guard"
    else if Streak(r.records) >= policy.maxNoProgress then r.state == HALTED && r.haltReason == "no_progress_budget_exhausted"
    else
      && r.iterations == policy.maxIterations
      && if r.pending != [] then r.state == BUDGET_EXHAUSTED && r.haltReason == "iteration_budget_exhausted"
         else if r.blocked != [] then r.state == HALTED && r.haltReason == "blocked_work_remaining"
         else r.state == COMPLETED && r.haltReason == ""
  }

  /** State, reason and number of iterations, from what happened in the last one. */
  ghost predicate EndsAsDecided(f: Final, policy: Policy, turns: seq<Turn>) {
    var r := f.report;
    && 1 <= r.iterations <= policy.maxIterations <= |turns|
    && var turn := turns[r.iterations - 1];
       if turn.discovery.error.Some? then
         |r.records| == r.iterations - 1 && r.state == HALTED
         && r.haltReason == "discovery_error:" + turn.discovery.error.value
       else if |r.records| == r.iterations - 1 then
         NothingToTry(f.loop)
         && if r.blocked != [] then r.state == HALTED && r.haltReason == "blocked_work_remaining"
            else r.state == COMPLETED && r.haltReason == ""
       else |r.records| == r.iterations && EndsAfterAttempt(f, policy, turn.outcome)
  }

  /** The last checkpoint repeats the report. */
  ghost predicate LastTells(f: Final) {
    var r := f.report;
    && f.checkpoints != []
    && f.checkpoints[|f.checkpoints| - 1] == Checkpoint(r.iterations, r.state, None, r.completed, r.blocked, r.pending)
  }

  lemma UniqEmpty(ids: seq<ItemId>)
    ensures Uniq(ids) == [] <==> ids == []
  {
    if ids != [] { assert ids[0] in Uniq(ids); }
  }

  lemma ConcludeTells(l: Loop, iterations: nat, state: LoopState, reason: string, cps: seq<Checkpoint>)
    ensures
      var f := Conclude(l, iterations, state, reason, cps);
      && f.loop == l && f.report.records == l.records && f.report.iterations == iterations && LastTells(f)
      && f.report.pending == PendingIds(l.items) && (f.report.blocked == [] <==> l.blocked == [])
      && (state != LOOP_RUNNING ==> f.report.state == state && f.report.haltReason == reason)
      && (state == LOOP_RUNNING ==>
            if f.report.pending != [] then
              f.report.state == BUDGET_EXHAUSTED && f.report.haltReason == "iteration_budget_exhausted"
            else if l.blocked != [] then f.report.state == HALTED && f.report.haltReason == "blocked_work_remaining"
            else f.report.state == COMPLETED && f.report.haltReason == reason)
  {
    UniqEmpty(l.blocked);
  }

  /** How a turn that made an attempt goes on or stops. */
  lemma AttemptDecides(l: Loop, i: nat, iteration: nat, outcome: Outcome, policy: Policy)
    requires i < |l.items| && Progressing(l, policy)
    ensures
      var r := AttemptTurn(l, i, iteration, outcome, policy);
      && |r.loop.records| == |l.records| + 1
      && (r.Continue? <==>
            !RollbackFails(outcome, policy) && !RegressionStops(outcome, policy)
            && Streak(r.loop.records) < policy.maxNoProgress)
      && (r.Stop? ==>
            r.state == HALTED
            && r.reason == if RollbackFails(outcome, policy) then "rollback_failed"
                           else if RegressionStops(outcome, policy) then "regression_guard"
                           else "no_progress_budget_exhausted")
  {
    hide LastError, Snapshot, StreaksWithin, PendingIds;
    var after := Attempt(l, i, iteration, outcome, policy);
    assert after.records[..|after.records| - 1] == l.records;
  }

  lemma AttemptConcludes(l: Loop, i: nat, iteration: nat, outcome: Outcome, policy: Policy, cps: seq<Checkpoint>)
    requires i < |l.items| && Progressing(l, policy) && AttemptTurn(l, i, iteration, outcome, policy).Stop?
    ensures
      var r := AttemptTurn(l, i, iteration, outcome, policy);
      EndsAfterAttempt(Conclude(r.loop, iteration, r.state, r.reason, cps), policy, outcome)
  {
    hide AttemptTurn, Conclude, Progressing;
    var r := AttemptTurn(l, i, iteration, outcome, policy);
    AttemptDecides(l, i, iteration, outcome, policy);
    ConcludeTells(r.loop, iteration, r.state, r.reason, cps);
  }

  lemma AcceptKeepsProgress(l: Loop, offered: seq<Item>, policy: Policy)
    requires |l.items| == |l.accepted| && Progressing(l, policy)
    ensures Progressing(AcceptAll(l, offered), policy)
  {
    hide StreaksWithin, Streak;
  }

  /** One iteration ends the run as it must. */
  lemma TurnEnds(l: Loop, policy: Policy, turns: seq<Turn>, n: nat, cps: seq<Checkpoint>)
    requires ValidPolicy(policy) && |turns| >= policy.maxIterations && n < policy.maxIterations
    requires |l.items| == |l.accepted| && Progressing(l, policy) && |l.records| == n
    ensures
      var r := OneTurn(l, policy, turns[n], n + 1);
      && (r.Continue? ==> Progressing(r.loop, policy) && |r.loop.records| == n + 1 && GoesOn(turns[n], policy))
      && (r.Stop? ==>
            EndsAsDecided(Conclude(r.loop, n + 1, r.state, r.reason, cps), policy, turns)
            && LastTells(Conclude(r.loop, n + 1, r.state, r.reason, cps)))
  {
    hide Conclude, Streak, AcceptAll, AttemptTurn, Progressing;
    var l1 := AcceptAll(l, turns[n].discovery.items);
    var r := OneTurn(l, policy, turns[n], n + 1);
    var next := NextPending(l1.items, |l1.items|);
    OneTurnProgress(l, policy, turns[n], n + 1);
    AcceptKeepsProgress(l, turns[n].discovery.items, policy);
    if r.Stop? { ConcludeTells(r.loop, n + 1, r.state, r.reason, cps); }
    if turns[n].discovery.error.None? && next.Some? {
      AttemptDecides(l1, next.value, n + 1, turns[n].outcome, policy);
      if r.Stop? { AttemptConcludes(l1, next.value, n + 1, turns[n].outcome, policy, cps); }
    }
  }

  /** Nothing in this turn ends a run at once. */
  predicate GoesOn(t: Turn, policy: Policy) {
    t.discovery.error.None? && !RollbackFails(t.outcome, policy) && !RegressionStops(t.outcome, policy)
  }

  lemma BudgetEnds(l: Loop, policy: Policy, turns: seq<Turn>, cps: seq<Checkpoint>)
    requires ValidPolicy(policy) && |turns| >= policy.maxIterations
    requires Progressing(l, policy) && |l.records| == policy.maxIterations
    requires GoesOn(turns[policy.maxIterations - 1], policy)
    ensures
      var f := Conclude(l, policy.maxIterations, LOOP_RUNNING, "", cps);
      EndsAsDecided(f, policy, turns) && LastTells(f)
  {
    hide Conclude, Streak, StreaksWithin;
    ConcludeTells(l, policy.maxIterations, LOOP_RUNNING, "", cps);
  }

  lemma {:induction false} RunFromEndsAsDecided(l: Loop, policy: Policy, turns: seq<Turn>, n: nat, cps: seq<Checkpoint>)
    requires ValidPolicy(policy) && |turns| >= policy.maxIterations && n <= policy.maxIterations
    requires |l.items| == |l.accepted| && Progressing(l, policy) && |l.records| == n
    requires n == policy.maxIterations ==> GoesOn(turns[n - 1], policy)
    ensures
      var f := RunFrom(l, policy, turns, n + 1, cps);
      EndsAsDecided(f, policy, turns) && LastTells(f)
    decreases policy.maxIterations - n
  {
    hide EndsAsDecided, LastTells, Conclude, OneTurn, GoesOn, Progressing;
    if n == policy.maxIterations {
      BudgetEnds(l, policy, turns, cps);
    } else {
      RunFromNext(l, policy, turns, n + 1, cps);
      var r := OneTurn(l, policy, turns[n], n + 1);
      TurnEnds(l, policy, turns, n, cps + r.checkpoints);
      if r.Continue? { RunFromEndsAsDecided(r.loop, policy, turns, n + 1, cps + r.checkpoints); }
    }
  }

  lemma RunEndsFrom(l: Loop, policy: Policy, turns: seq<Turn>, n: nat)
    requires ValidPolicy(policy) && |turns| >= policy.maxIterations && n == 0
    requires |l.items| == |l.accepted| && l.records == [] && l.noProgress == 0
    ensures
      var f := RunFrom(l, policy, turns, n + 1, []);
      EndsAsDecided(f, policy, turns) && LastTells(f)
  {
    hide EndsAsDecided, LastTells, RunFrom;
    assert Progressing(l, policy);
    RunFromEndsAsDecided(l, policy, turns, n, []);
  }

  /**
   * Every run ends in the state, for the reason and after the number of iterations that its last iteration
   * decides: a failed discovery, nothing to try, a rollback that failed, a guarded regression, a progress
   * budget used up, or no iteration left. The last checkpoint says what the report says.
   */
  lemma RunEndsAsDecided(seed: seq<Item>, policy: Policy, turns: seq<Turn>)
    requires ValidPolicy(policy) && |turns| >= policy.maxIterations
    ensures EndsAsDecided(Run(seed, policy, turns), policy, turns) && LastTells(Run(seed, policy, turns))
  {
    hide EndsAsDecided, LastTells, RunFrom;
    RunEndsFrom(AcceptAll(EMPTY_LOOP, seed), policy, turns, 0);
  }

  // ----- every run

  lemma AttemptTurnTold(l: Loop, i: nat, u: set<Item>, policy: Policy, turns: seq<Turn>)
    requires Sound(l, u) && i < |l.items| && l.items[i].state == PENDING && Told(l, policy, turns) && |l.records| < |turns|
    requires |l.items| == |l.accepted|
    ensures
      var r := AttemptTurn(l, i, |l.records| + 1, turns[|l.records|].outcome, policy);
      Told(r.loop, policy, turns) && |r.loop.items| == |r.loop.accepted| && |r.loop.records| == |l.records| + 1
  {
    hide Sound, Told, Judge, LastError, HaltAfter, Snapshot;
    AttemptTold(l, i, u, policy, turns);
  }

  lemma TurnTold(l: Loop, u: set<Item>, policy: Policy, turns: seq<Turn>, n: nat)
    requires n < |turns| && Sound(l, u) && Told(l, policy, turns) && |l.records| == n
    requires IdsIdentify(u) && DrawnFrom([], turns, u) && |l.items| == |l.accepted|
    ensures
      var r := OneTurn(l, policy, turns[n], n + 1);
      && Sound(r.loop, u) && Told(r.loop, policy, turns) && |r.loop.items| == |r.loop.accepted|
      && (r.Continue? ==> |r.loop.records| == n + 1)
  {
    hide Sound, Told, IdsIdentify, AttemptTurn, AcceptAll;
    var l1 := AcceptAll(l, turns[n].discovery.items);
    AcceptAllSound(l, turns[n].discovery.items, u);
    AcceptAllTold(l, turns[n].discovery.items, u, policy, turns);
    OneTurnSound(l, policy, turns[n], n + 1, u);
    var next := NextPending(l1.items, |l1.items|);
    if turns[n].discovery.error.None? && next.Some? { AttemptTurnTold(l1, next.value, u, policy, turns); }
  }

  lemma {:induction false} RunFromTold(
    l: Loop, policy: Policy, turns: seq<Turn>, n: nat, cps: seq<Checkpoint>, u: set<Item>)
    requires ValidPolicy(policy) && |turns| >= policy.maxIterations && n <= policy.maxIterations
    requires Sound(l, u) && Told(l, policy, turns) && |l.records| == n
    requires IdsIdentify(u) && DrawnFrom([], turns, u) && |l.items| == |l.accepted|
    ensures Told(RunFrom(l, policy, turns, n + 1, cps).loop, policy, turns)
    decreases policy.maxIterations - n
  {
    hide Sound, Told, OneTurn, IdsIdentify;
    if n < policy.maxIterations {
      RunFromNext(l, policy, turns, n + 1, cps);
      var r := OneTurn(l, policy, turns[n], n + 1);
      TurnTold(l, u, policy, turns, n);
      if r.Continue? { RunFromTold(r.loop, policy, turns, n + 1, cps + r.checkpoints, u); }
    }
  }

  lemma RunToldFrom(seed: seq<Item>, policy: Policy, turns: seq<Turn>, u: set<Item>, n: nat)
    requires ValidPolicy(policy) && |turns| >= policy.maxIterations && n == 0
    requires IdsIdentify(u) && DrawnFrom(seed, turns, u)
    ensures Told(RunFrom(AcceptAll(EMPTY_LOOP, seed), policy, turns, n + 1, []).loop, policy, turns)
  {
    assert Told(EMPTY_LOOP, policy, turns);
    hide Told, RunFrom, IdsIdentify;
    AcceptAllSound(EMPTY_LOOP, seed, u);
    AcceptAllTold(EMPTY_LOOP, seed, u, policy, turns);
    RunFromTold(AcceptAll(EMPTY_LOOP, seed), policy, turns, n, [], u);
  }

  /**
   * In every run an item's state and error are what its last attempt made of them: SUCCEEDED exactly if
   * that passed, BLOCKED exactly if it did not and had to halt the run or was the last one allowed. And
   * every record counts the attempts on its item and names what the callbacks did.
   */
  lemma LastAttemptDecides(seed: seq<Item>, policy: Policy, turns: seq<Turn>, u: set<Item>)
    requires ValidPolicy(policy) && |turns| >= policy.maxIterations
    requires IdsIdentify(u) && DrawnFrom(seed, turns, u)
    ensures Told(Run(seed, policy, turns).loop, policy, turns)
  {
    hide Told, RunFrom, AcceptAll, IdsIdentify, DrawnFrom;
    RunToldFrom(seed, policy, turns, u, 0);
  }

  lemma LastIsLast(records: seq<IterationRecord>)
    requires records != []
    ensures LastOf(records, records[|records| - 1].itemId) == Some(|records| - 1)
  {
  }

  /**
   * Work whose attempt brought a regression the policy stops for, or could not be rolled back, ends
   * BLOCKED, and the report lists it as blocked only.
   */
  lemma GuardedWorkIsBlocked(seed: seq<Item>, policy: Policy, turns: seq<Turn>, u: set<Item>, k: nat)
    requires ValidPolicy(policy) && |turns| >= policy.maxIterations
    requires IdsIdentify(u) && DrawnFrom(seed, turns, u)
    requires k < |Run(seed, policy, turns).report.records| && k < |turns| && MustHalt(turns[k].outcome, policy)
    ensures
      var r := Run(seed, policy, turns).report;
      var id := r.records[k].itemId;
      && id in r.blocked && id !in r.completed && id !in r.pending
      && exists i :: 0 <= i < |Run(seed, policy, turns).loop.items|
           && Run(seed, policy, turns).loop.items[i].itemId == id && Run(seed, policy, turns).loop.items[i].state == BLOCKED
  {
    var f := Run(seed, policy, turns);
    RunSound(seed, policy, turns, u);
    RecordsTellTheOutcomes(seed, policy, turns);
    LastAttemptDecides(seed, policy, turns, u);
    RunPartitionsWork(seed, policy, turns, u);
    hide Run, Told, Sound, Truthful, DisjointLists;
    BlockedAtEnd(f, policy, turns, u, k);
  }

  lemma BlockedAtEnd(f: Final, policy: Policy, turns: seq<Turn>, u: set<Item>, k: nat)
    requires Sound(f.loop, u) && Told(f.loop, policy, turns) && GuardsHalt(f, policy, turns)
    requires k < |f.report.records| && MustHalt(turns[k].outcome, policy)
    requires forall i :: 0 <= i < |f.loop.items| ==> (ListedByState(f, i) <==> f.loop.accepted[i].state == PENDING)
    ensures
      var id := f.report.records[k].itemId;
      && id in f.report.blocked && id !in f.report.completed && id !in f.report.pending
      && exists i :: 0 <= i < |f.loop.items| && f.loop.items[i].itemId == id && f.loop.items[i].state == BLOCKED
  {
    var id := f.report.records[k].itemId;
    LastIsLast(f.report.records);
    assert f.loop.records[k] in f.loop.records;
    assert HasId(f.loop.items, id);
    var i :| 0 <= i < |f.loop.items| && f.loop.items[i].itemId == id;
    assert Fated(f.loop, policy, turns, i) && Booked(f.loop, i);
    assert f.loop.items[i].state == BLOCKED;
    TriesPositive(f.loop.records, k);
    assert ListedByState(f, i);
  }

  lemma {:induction false} TriesPositive(records: seq<IterationRecord>, k: nat)
    requires k < |records|
    ensures Tries(records, records[k].itemId) > 0
  {
    if k < |records| - 1 { TriesPositive(records[..|records| - 1], k); }
  }
}
