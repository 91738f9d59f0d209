/** What every run of the meta-loop keeps, whatever its callbacks do. */
module UpgradeLoopLaws {
  import opened Work
  import opened UpgradeLoop

  // ----- what the callbacks may offer

  /** Equal ids come only from equal content, as freshly drawn ids guarantee. */
  ghost predicate IdsIdentify(u: set<Item>) {
    forall x, y :: x in u && y in u && x.itemId == y.itemId ==> x.fingerprint == y.fingerprint
  }

  ghost predicate AllFrom(items: seq<Item>, u: set<Item>) {
    forall x :: x in items ==> x in u
  }

  /** Everything seeded or discovered lies in u. */
  ghost predicate DrawnFrom(seed: seq<Item>, turns: seq<Turn>, u: set<Item>) {
    AllFrom(seed, u) && forall t :: t in turns ==> AllFrom(t.discovery.items, u)
  }

  // ----- the bookkeeping invariant

  predicate SameWork(a: Item, b: Item) {
    a.fingerprint == b.fingerprint && a.itemId == b.itemId && a.priority == b.priority && a.maxAttempts == b.maxAttempts
  }

  ghost predicate HasId(items: seq<Item>, id: ItemId) {
    exists i :: 0 <= i < |items| && items[i].itemId == id
  }

  /** How many records belong to an id. */
  function Tries(records: seq<IterationRecord>, id: ItemId): nat {
    if records == [] then 0
    else Tries(records[..|records| - 1], id) + if records[|records| - 1].itemId == id then 1 else 0
  }

  lemma {:induction false} TriesZero(records: seq<IterationRecord>, id: ItemId)
    requires forall r :: r in records ==> r.itemId != id
    ensures Tries(records, id) == 0
  {
    if records != [] { TriesZero(records[..|records| - 1], id); }
  }

  /** Item i against the form in which it was accepted. Work offered in another state than PENDING is never touched. */
  ghost predicate Booked(l: Loop, i: nat)
    requires i < |l.items| == |l.accepted|
  {
    var now, offered := l.items[i], l.accepted[i];
    var done, stuck := now.itemId in l.completed, now.itemId in l.blocked;
    && SameWork(now, offered)
    && now.attempts == offered.attempts + Tries(l.records, now.itemId)
    && if offered.state != PENDING then now == offered && !done && !stuck
       else
         && (now.state == PENDING || now.state == SUCCEEDED || now.state == BLOCKED)
         && (now.state == SUCCEEDED <==> done)
         && (now.state == BLOCKED <==> stuck)
         && (now.state == PENDING ==> now.attempts == offered.attempts || now.attempts < now.maxAttempts)
         && now.attempts <= Max(now.maxAttempts, offered.attempts + 1)
  }

  ghost predicate Sound(l: Loop, u: set<Item>) {
    && |l.items| == |l.accepted|
    && (forall i :: 0 <= i < |l.items| ==> l.accepted[i] in u && l.items[i].fingerprint in l.fingerprints)
    && (forall i :: 0 <= i < |l.items| ==> Booked(l, i))
    && (forall i, j :: 0 <= i < j < |l.items| ==>
          l.items[i].itemId != l.items[j].itemId && l.items[i].fingerprint != l.items[j].fingerprint)
    && NoDup(l.completed) && NoDup(l.blocked)
    && (forall id :: id in l.completed ==> HasId(l.items, id))
    && (forall id :: id in l.blocked ==> HasId(l.items, id))
    && (forall r :: r in l.records ==> HasId(l.items, r.itemId))
  }

  lemma AcceptSound(l: Loop, item: Item, u: set<Item>)
    requires Sound(l, u) && IdsIdentify(u) && item in u
    ensures Sound(Accept(l, item), u)
  {
    if item.fingerprint !in l.fingerprints {
      forall i | 0 <= i < |l.items| ensures l.items[i].itemId != item.itemId {
        assert Booked(l, i);
      }
      var after := Accept(l, item);
      assert after.items == l.items + [item] && after.accepted == l.accepted + [item];
      TriesZero(l.records, item.itemId);
      forall i | 0 <= i < |after.items| ensures Booked(after, i) {
        if i < |l.items| { assert Booked(l, i); }
      }
      forall id | HasId(l.items, id) ensures HasId(after.items, id) {
        var i :| 0 <= i < |l.items| && l.items[i].itemId == id;
        assert after.items[i].itemId == id;
      }
    }
  }

  lemma {:induction false} AcceptAllSound(l: Loop, offered: seq<Item>, u: set<Item>)
    requires Sound(l, u) && IdsIdentify(u) && AllFrom(offered, u)
    ensures Sound(AcceptAll(l, offered), u)
  {
    if offered != [] {
      var front := offered[..|offered| - 1];
      AcceptAllSound(l, front, u);
      AcceptSound(AcceptAll(l, front), offered[|offered| - 1], u);
    }
  }

  lemma AttemptBooked(l: Loop, i: nat, iteration: nat, outcome: Outcome, policy: Policy, j: nat)
    requires i < |l.items| == |l.accepted| && j < |l.items| && l.items[i].state == PENDING
    requires Booked(l, i) && Booked(l, j) && (j != i ==> l.items[j].itemId != l.items[i].itemId)
    ensures Booked(Attempt(l, i, iteration, outcome, policy), j)
  {
    var after := Attempt(l, i, iteration, outcome, policy);
    assert after.records[..|after.records| - 1] == l.records;
  }

  lemma AttemptSound(l: Loop, i: nat, iteration: nat, outcome: Outcome, policy: Policy, u: set<Item>)
    requires Sound(l, u) && i < |l.items| && l.items[i].state == PENDING
    ensures Sound(Attempt(l, i, iteration, outcome, policy), u)
  {
    var after := Attempt(l, i, iteration, outcome, policy);
    assert Booked(l, i);
    forall j | 0 <= j < |after.items| ensures Booked(after, j) {
      assert Booked(l, j);
      AttemptBooked(l, i, iteration, outcome, policy, j);
    }
    forall x | HasId(l.items, x) ensures HasId(after.items, x) {
      var j :| 0 <= j < |l.items| && l.items[j].itemId == x;
      assert after.items[j].itemId == x;
    }
    assert after.items[i].itemId == l.items[i].itemId;
  }

  lemma OneTurnSound(l: Loop, policy: Policy, turn: Turn, iteration: nat, u: set<Item>)
    requires Sound(l, u) && IdsIdentify(u) && AllFrom(turn.discovery.items, u)
    ensures Sound(OneTurn(l, policy, turn, iteration).loop, u)
  {
    AcceptAllSound(l, turn.discovery.items, u);
    var l1 := AcceptAll(l, turn.discovery.items);
    var next := NextPending(l1.items, |l1.items|);
    if turn.discovery.error.None? && next.Some? {
      AttemptSound(l1, next.value, iteration, turn.outcome, policy, u);
    }
  }

  lemma {:induction false} RunFromSound(
    l: Loop, policy: Policy, turns: seq<Turn>, iteration: nat, cps: seq<Checkpoint>, u: set<Item>)
    requires ValidPolicy(policy) && |turns| >= policy.maxIterations
    requires 1 <= iteration <= policy.maxIterations + 1
    requires Sound(l, u) && IdsIdentify(u) && DrawnFrom([], turns, u)
    ensures Sound(RunFrom(l, policy, turns, iteration, cps).loop, u)
    decreases policy.maxIterations + 1 - iteration
  {
    if iteration <= policy.maxIterations {
      OneTurnSound(l, policy, turns[iteration - 1], iteration, u);
      match OneTurn(l, policy, turns[iteration - 1], iteration)
      case Continue(next, more) => RunFromSound(next, policy, turns, iteration + 1, cps + more, u);
      case Stop(_, _, _, _) =>
    }
  }

  lemma RunSound(seed: seq<Item>, policy: Policy, turns: seq<Turn>, u: set<Item>)
    requires ValidPolicy(policy) && |turns| >= policy.maxIterations
    requires IdsIdentify(u) && DrawnFrom(seed, turns, u)
    ensures Sound(Run(seed, policy, turns).loop, u)
  {
    AcceptAllSound(EMPTY_LOOP, seed, u);
    RunFromSound(AcceptAll(EMPTY_LOOP, seed), policy, turns, 1, [], u);
  }

  // ----- the report

  predicate DiscoveryFailed(report: Report) {
    "discovery_error:" <= report.haltReason
  }

  ghost predicate AllSucceeded(items: seq<Item>) {
    forall x :: x in items ==> x.state == SUCCEEDED
  }

  /** A run never stops as COMPLETED over unfinished or blocked work, nor as HALTED over finished work. */
  ghost predicate EndsRight(f: Final) {
    && f.report.completed == f.loop.completed
    && f.report.blocked == Uniq(f.loop.blocked)
    && f.report.pending == PendingIds(f.loop.items)
    && f.report.records == f.loop.records
    && f.report.state != LOOP_RUNNING
    && (f.report.state == COMPLETED ==>
          f.loop.blocked == [] && !DiscoveryFailed(f.report) && forall x :: x in f.loop.items ==> x.state != PENDING)
    && (f.report.state == BUDGET_EXHAUSTED ==> f.report.pending != [])
    && (f.report.state == HALTED ==>
          DiscoveryFailed(f.report) || f.loop.blocked != [] || exists x :: x in f.loop.items && x.state == PENDING)
  }

  lemma OneTurnEnds(l: Loop, policy: Policy, turn: Turn, iteration: nat, cps: seq<Checkpoint>)
    requires |l.items| == |l.accepted|
    requires OneTurn(l, policy, turn, iteration).Stop?
    ensures
      var r := OneTurn(l, policy, turn, iteration);
      EndsRight(Conclude(r.loop, iteration, r.state, r.reason, cps))
  {
    var l1 := AcceptAll(l, turn.discovery.items);
    var next := NextPending(l1.items, |l1.items|);
    if turn.discovery.error.None? && next.Some? {
      var after := Attempt(l1, next.value, iteration, turn.outcome, policy);
      assert after.items[next.value] in after.items;
    }
  }

  lemma {:induction false} RunFromEnds(l: Loop, policy: Policy, turns: seq<Turn>, iteration: nat, cps: seq<Checkpoint>)
    requires ValidPolicy(policy) && |turns| >= policy.maxIterations
    requires 1 <= iteration <= policy.maxIterations + 1
    requires |l.items| == |l.accepted|
    ensures EndsRight(RunFrom(l, policy, turns, iteration, cps))
    decreases policy.maxIterations + 1 - iteration
  {
    if iteration <= policy.maxIterations {
      match OneTurn(l, policy, turns[iteration - 1], iteration)
      case Continue(next, more) => RunFromEnds(next, policy, turns, iteration + 1, cps + more);
      case Stop(_, _, _, more) => OneTurnEnds(l, policy, turns[iteration - 1], iteration, cps + more);
    } else {
      PendingListed(l.items);
    }
  }

  lemma PendingListed(items: seq<Item>)
    ensures PendingIds(items) == [] ==> forall x :: x in items ==> !Open(x.state)
  {
    forall x | x in items && Open(x.state) ensures x.itemId in PendingIds(items) {
      var i :| 0 <= i < |items| && items[i] == x;
    }
  }

  lemma {:induction false} NothingPending(items: seq<Item>)
    requires forall x :: x in items ==> !Open(x.state)
    ensures PendingIds(items) == []
  {
    if items != [] { NothingPending(items[..|items| - 1]); }
  }

  lemma {:induction false} PendingNoDup(items: seq<Item>)
    requires forall i, j :: 0 <= i < j < |items| ==> items[i].itemId != items[j].itemId
    ensures NoDup(PendingIds(items))
  {
    if items != [] {
      var front := items[..|items| - 1];
      PendingNoDup(front);
      assert items[|items| - 1].itemId !in PendingIds(front);
    }
  }

  /** Item i is listed once, under its state, and is no longer in flight. */
  ghost predicate ListedByState(f: Final, i: nat)
    requires i < |f.loop.items|
  {
    var x := f.loop.items[i];
    && (x.itemId in f.report.completed <==> x.state == SUCCEEDED)
    && (x.itemId in f.report.blocked <==> x.state == BLOCKED)
    && (x.itemId in f.report.pending <==> x.state == PENDING)
    && (x.state == SUCCEEDED || x.state == BLOCKED || x.state == PENDING)
  }

  ghost predicate DisjointLists(r: Report) {
    && NoDup(r.completed) && NoDup(r.blocked) && NoDup(r.pending)
    && forall id :: (id in r.completed ==> id !in r.blocked && id !in r.pending) && (id in r.blocked ==> id !in r.pending)
  }

  lemma ListsOf(f: Final, u: set<Item>, i: nat)
    requires Sound(f.loop, u) && EndsRight(f) && i < |f.loop.items|
    ensures ListedByState(f, i) <==> f.loop.accepted[i].state == PENDING
    ensures
      var id := f.loop.items[i].itemId;
      id in f.report.pending ==> id !in f.report.completed && id !in f.report.blocked
  {
    assert Booked(f.loop, i);
  }

  lemma ListsDisjoint(f: Final, u: set<Item>)
    requires Sound(f.loop, u) && EndsRight(f)
    ensures DisjointLists(f.report)
  {
    PendingNoDup(f.loop.items);
    forall id
      ensures id in f.report.completed ==> id !in f.report.blocked && id !in f.report.pending
      ensures id in f.report.blocked ==> id !in f.report.pending
    {
      if HasId(f.loop.items, id) {
        var i :| 0 <= i < |f.loop.items| && f.loop.items[i].itemId == id;
        ListsOf(f, u, i);
        assert Booked(f.loop, i);
      }
    }
  }

  /**
   * The three lists of the report share nothing, repeat nothing and list only accepted items; and an
   * item is in the one list that matches its state exactly if it was accepted as PENDING.
   */
  lemma RunPartitionsWork(seed: seq<Item>, policy: Policy, turns: seq<Turn>, u: set<Item>)
    requires ValidPolicy(policy) && |turns| >= policy.maxIterations
    requires IdsIdentify(u) && DrawnFrom(seed, turns, u)
    ensures
      var f := Run(seed, policy, turns);
      && DisjointLists(f.report)
      && (forall id :: id in f.report.completed + f.report.blocked + f.report.pending ==> HasId(f.loop.items, id))
      && |f.loop.items| == |f.loop.accepted|
      && forall i :: 0 <= i < |f.loop.items| ==> (ListedByState(f, i) <==> f.loop.accepted[i].state == PENDING)
  {
    var f := Run(seed, policy, turns);
    RunSound(seed, policy, turns, u);
    RunFromEnds(AcceptAll(EMPTY_LOOP, seed), policy, turns, 1, []);
    ListsDisjoint(f, u);
    forall i | 0 <= i < |f.loop.items| ensures ListedByState(f, i) <==> f.loop.accepted[i].state == PENDING {
      ListsOf(f, u, i);
    }
  }

  /** Work in the states a caller is meant to hand it in: still to be done, or done before. */
  predicate Plain(x: Item) {
    x.state == PENDING || x.state == SUCCEEDED
  }

  ghost predicate AllPlain(items: seq<Item>) {
    forall x :: x in items ==> Plain(x)
  }

  lemma PlainLoopCompletes(f: Final, u: set<Item>)
    requires Sound(f.loop, u) && EndsRight(f) && AllPlain(f.loop.accepted)
    ensures f.report.state == COMPLETED <==> AllSucceeded(f.loop.items) && !DiscoveryFailed(f.report)
  {
    var items := f.loop.items;
    forall i | 0 <= i < |items|
      ensures items[i].state == PENDING || items[i].state == SUCCEEDED || items[i].state == BLOCKED
      ensures items[i].state == BLOCKED <==> items[i].itemId in f.loop.blocked
    {
      assert f.loop.accepted[i] in f.loop.accepted && Booked(f.loop, i);
    }
    if f.loop.blocked != [] {
      assert f.loop.blocked[0] in f.loop.blocked;
      assert HasId(items, f.loop.blocked[0]);
      var i :| 0 <= i < |items| && items[i].itemId == f.loop.blocked[0];
      assert items[i] in items;
    }
    if f.report.state == BUDGET_EXHAUSTED {
      assert f.report.pending[0] in f.report.pending;
      var i :| 0 <= i < |items| && items[i].itemId == f.report.pending[0] && Open(items[i].state);
      assert items[i] in items;
    }
  }

  lemma CompletedExactly(f: Final, u: set<Item>)
    requires Sound(f.loop, u) && EndsRight(f)
    ensures AllSucceeded(f.loop.items) && !DiscoveryFailed(f.report) <==>
      f.report.state == COMPLETED && AllPlain(f.loop.accepted)
  {
    if AllSucceeded(f.loop.items) {
      forall x | x in f.loop.accepted ensures Plain(x) {
        var i :| 0 <= i < |f.loop.accepted| && f.loop.accepted[i] == x;
        assert Booked(f.loop, i) && f.loop.items[i] in f.loop.items;
      }
    }
    if AllPlain(f.loop.accepted) { PlainLoopCompletes(f, u); }
  }

  /**
   * All accepted work has succeeded, and no discovery failed, exactly if the run reports COMPLETED and
   * everything it accepted was offered as PENDING or SUCCEEDED: COMPLETED by itself is not enough.
   */
  lemma CompletedIffAllSucceeded(seed: seq<Item>, policy: Policy, turns: seq<Turn>, u: set<Item>)
    requires ValidPolicy(policy) && |turns| >= policy.maxIterations
    requires IdsIdentify(u) && DrawnFrom(seed, turns, u)
    ensures
      var f := Run(seed, policy, turns);
      AllSucceeded(f.loop.items) && !DiscoveryFailed(f.report) <==>
      f.report.state == COMPLETED && AllPlain(f.loop.accepted)
  {
    RunSound(seed, policy, turns, u);
    RunFromEnds(AcceptAll(EMPTY_LOOP, seed), policy, turns, 1, []);
    CompletedExactly(Run(seed, policy, turns), u);
  }

  /**
   * What goes wrong otherwise: an item offered as RUNNING, VALIDATING or BLOCKED is never attempted and
   * the run still says COMPLETED, listing it as pending or, if it is BLOCKED, nowhere.
   */
  lemma OfferedRunningIsSkipped(policy: Policy, turns: seq<Turn>, item: Item)
    requires ValidPolicy(policy) && |turns| >= policy.maxIterations
    requires item.state != PENDING && turns[0].discovery == Discovery([], None)
    ensures
      var f := Run([item], policy, turns);
      && f.report.state == COMPLETED && f.report.records == []
      && f.report.completed == [] && f.report.blocked == []
      && f.report.pending == if Open(item.state) then [item.itemId] else []
  {
    AcceptedAlone(item);
    PendingOfOne(item);
    StopsAtOnce(AcceptAll(EMPTY_LOOP, [item]), policy, turns);
  }

  lemma AcceptedAlone(item: Item)
    ensures
      var l := AcceptAll(EMPTY_LOOP, [item]);
      l.items == [item] && |l.accepted| == 1 && l.completed == [] && l.blocked == [] && l.records == []
  {
    AcceptOne(EMPTY_LOOP, item);
  }

  /** A run that finds nothing to do in its first iteration. */
  lemma StopsAtOnce(l: Loop, policy: Policy, turns: seq<Turn>)
    requires ValidPolicy(policy) && |turns| >= policy.maxIterations && |l.items| == |l.accepted|
    requires turns[0].discovery == Discovery([], None) && l.blocked == []
    requires forall x :: x in l.items ==> x.state != PENDING
    ensures
      var report := RunFrom(l, policy, turns, 1, []).report;
      && report.state == COMPLETED && report.completed == l.completed && report.blocked == []
      && report.records == l.records && report.pending == PendingIds(l.items)
  {
    RunFromNext(l, policy, turns, 1, []);
    NothingToDo(l, policy, turns[0]);
  }

  lemma NothingToDo(l: Loop, policy: Policy, turn: Turn)
    requires |l.items| == |l.accepted| && turn.discovery == Discovery([], None) && l.blocked == []
    requires forall x :: x in l.items ==> x.state != PENDING
    ensures OneTurn(l, policy, turn, 1) == Stop(l, COMPLETED, "", [])
  {
  }

  lemma AcceptOne(l: Loop, item: Item)
    requires |l.items| == |l.accepted|
    ensures AcceptAll(l, [item]) == Accept(l, item)
  {
    assert [item][..0] == [];
  }

  lemma PendingOfOne(item: Item)
    ensures PendingIds([item]) == if Open(item.state) then [item.itemId] else []
  {
    assert [item][..0] == [];
  }

  /** Each item is attempted at most as often as its budget leaves, and always at least once may happen. */
  lemma AttemptsBounded(seed: seq<Item>, policy: Policy, turns: seq<Turn>, u: set<Item>, i: nat)
    requires ValidPolicy(policy) && |turns| >= policy.maxIterations
    requires IdsIdentify(u) && DrawnFrom(seed, turns, u)
    requires i < |Run(seed, policy, turns).loop.items|
    ensures
      var f := Run(seed, policy, turns);
      && |f.loop.accepted| == |f.loop.items|
      && Tries(f.report.records, f.loop.items[i].itemId)
           <= Max(1, f.loop.accepted[i].maxAttempts - f.loop.accepted[i].attempts)
      && Tries(f.report.records, f.loop.items[i].itemId) == f.loop.items[i].attempts - f.loop.accepted[i].attempts
  {
    RunSound(seed, policy, turns, u);
    RunFromEnds(AcceptAll(EMPTY_LOOP, seed), policy, turns, 1, []);
    assert Booked(Run(seed, policy, turns).loop, i);
  }

  // ----- the progress budget

  /** Length of the final stretch of attempts without a success. */
  function Streak(records: seq<IterationRecord>): (n: nat)
    ensures n <= |records|
  {
    if records == [] || records[|records| - 1].outcome == DONE then 0 else 1 + Streak(records[..|records| - 1])
  }

  /** Records i..j contain no success. */
  ghost predicate Dry(records: seq<IterationRecord>, i: nat, j: nat) {
    i <= j <= |records| && forall m :: i <= m < j ==> records[m].outcome != DONE
  }

  /** No stretch of attempts without a success, anywhere in the run, is longer than k. */
  ghost predicate StreaksWithin(records: seq<IterationRecord>, k: nat) {
    forall i: nat, j: nat :: Dry(records, i, j) ==> j - i <= k
  }

  lemma {:induction false} StreakIsWindow(records: seq<IterationRecord>, i: nat)
    requires Dry(records, i, |records|)
    ensures |records| - i <= Streak(records)
  {
    if i < |records| { StreakIsWindow(records[..|records| - 1], i); }
  }

  lemma StreaksGrow(records: seq<IterationRecord>, r: IterationRecord, k: nat)
    requires StreaksWithin(records, k) && Streak(records + [r]) <= k
    ensures StreaksWithin(records + [r], k)
  {
    var all := records + [r];
    forall i: nat, j: nat | Dry(all, i, j) ensures j - i <= k {
      if j == |all| {
        StreakIsWindow(all, i);
      } else {
        assert forall m :: i <= m < j ==> records[m] == all[m];
        assert Dry(records, i, j);
      }
    }
  }

  ghost predicate Progressing(l: Loop, policy: Policy) {
    l.noProgress == Streak(l.records) && StreaksWithin(l.records, policy.maxNoProgress)
    && l.noProgress < policy.maxNoProgress
  }

  lemma AttemptProgress(l: Loop, i: nat, iteration: nat, outcome: Outcome, policy: Policy)
    requires ValidPolicy(policy) && Progressing(l, policy) && i < |l.items|
    ensures
      var r := AttemptTurn(l, i, iteration, outcome, policy);
      StreaksWithin(r.loop.records, policy.maxNoProgress) && (r.Continue? ==> Progressing(r.loop, policy))
  {
    hide LastError, Snapshot, StreaksWithin;
    var after := Attempt(l, i, iteration, outcome, policy);
    var record := after.records[|l.records|];
    assert after.records == l.records + [record];
    assert after.records[..|l.records|] == l.records;
    StreaksGrow(l.records, record, policy.maxNoProgress);
  }

  lemma OneTurnProgress(l: Loop, policy: Policy, turn: Turn, iteration: nat)
    requires ValidPolicy(policy) && |l.items| == |l.accepted| && Progressing(l, policy)
    ensures
      var r := OneTurn(l, policy, turn, iteration);
      StreaksWithin(r.loop.records, policy.maxNoProgress) && (r.Continue? ==> Progressing(r.loop, policy))
  {
    var l1 := AcceptAll(l, turn.discovery.items);
    var next := NextPending(l1.items, |l1.items|);
    if turn.discovery.error.None? && next.Some? {
      AttemptProgress(l1, next.value, iteration, turn.outcome, policy);
    }
  }

  lemma {:induction false} RunFromProgress(
    l: Loop, policy: Policy, turns: seq<Turn>, iteration: nat, cps: seq<Checkpoint>)
    requires ValidPolicy(policy) && |turns| >= policy.maxIterations
    requires 1 <= iteration <= policy.maxIterations + 1
    requires |l.items| == |l.accepted| && Progressing(l, policy)
    ensures StreaksWithin(RunFrom(l, policy, turns, iteration, cps).report.records, policy.maxNoProgress)
    decreases policy.maxIterations + 1 - iteration
  {
    if iteration <= policy.maxIterations {
      OneTurnProgress(l, policy, turns[iteration - 1], iteration);
      match OneTurn(l, policy, turns[iteration - 1], iteration)
      case Continue(next, more) => RunFromProgress(next, policy, turns, iteration + 1, cps + more);
      case Stop(_, _, _, _) =>
    }
  }

  /** In every run, never more than the budgeted number of consecutive attempts without a success. */
  lemma NoProgressBudgetHolds(seed: seq<Item>, policy: Policy, turns: seq<Turn>)
    requires ValidPolicy(policy) && |turns| >= policy.maxIterations
    ensures StreaksWithin(Run(seed, policy, turns).report.records, policy.maxNoProgress)
  {
    RunFromProgress(AcceptAll(EMPTY_LOOP, seed), policy, turns, 1, []);
  }

  // ----- quiescent discovery: nothing new after the seed

  ghost predicate Quiet(fingerprints: set<Fingerprint>, turns: seq<Turn>) {
    forall t :: t in turns ==> forall x :: x in t.discovery.items ==> x.fingerprint in fingerprints
  }

  lemma {:induction false} QuietAccept(l: Loop, offered: seq<Item>)
    requires |l.items| == |l.accepted|
    requires forall x :: x in offered ==> x.fingerprint in l.fingerprints
    ensures AcceptAll(l, offered) == l
  {
    if offered != [] { QuietAccept(l, offered[..|offered| - 1]); }
  }

  /** Attempts a pending item may still take. */
  function Left(item: Item): nat {
    Max(1, item.maxAttempts - item.attempts)
  }

  /** Attempts the pending items may still take together. */
  function Remaining(items: seq<Item>): nat {
    if items == [] then 0
    else
      var last := items[|items| - 1];
      Remaining(items[..|items| - 1]) + if last.state == PENDING then Left(last) else 0
  }

  lemma {:induction false} RemainingAfter(items: seq<Item>, i: nat, item: Item)
    requires i < |items| && items[i].state == PENDING
    requires item.state == PENDING ==>
      (item.maxAttempts == items[i].maxAttempts
       && item.attempts == items[i].attempts + 1 && item.attempts < item.maxAttempts)
    ensures Remaining(items[i := item]) < Remaining(items)
  {
    var n := |items| - 1;
    if i == n {
      assert items[i := item][..n] == items[..n];
    } else {
      assert items[i := item][..n] == items[..n][i := item];
      RemainingAfter(items[..n], i, item);
    }
  }

  lemma {:induction false} NoneRemaining(items: seq<Item>)
    ensures Remaining(items) == 0 <==> forall x :: x in items ==> x.state != PENDING
  {
    if items != [] {
      NoneRemaining(items[..|items| - 1]);
      assert items == items[..|items| - 1] + [items[|items| - 1]];
    }
  }

  /** Every processed iteration uses up remaining attempts. */
  lemma QuietTurnConsumes(l: Loop, policy: Policy, turn: Turn, iteration: nat)
    requires |l.items| == |l.accepted| && Quiet(l.fingerprints, [turn])
    requires OneTurn(l, policy, turn, iteration).Continue?
    ensures
      var next := OneTurn(l, policy, turn, iteration).loop;
      next.fingerprints == l.fingerprints && Remaining(next.items) < Remaining(l.items)
  {
    assert turn in [turn];
    QuietAccept(l, turn.discovery.items);
    var i := NextPending(l.items, |l.items|).value;
    RemainingAfter(l.items, i, Attempt(l, i, iteration, turn.outcome, policy).items[i]);
  }

  ghost predicate NoneInFlight(items: seq<Item>) {
    forall x :: x in items ==> x.state != RUNNING && x.state != VALIDATING
  }

  // ----- priority order

  ghost predicate DistinctIds(items: seq<Item>) {
    forall i, j :: 0 <= i < j < |items| ==> items[i].itemId != items[j].itemId
  }

  /** Work a is scheduled before work b. */
  predicate Precedes(items: seq<Item>, a: ItemId, b: ItemId) {
    var i, j := IndexOf(items, a), IndexOf(items, b);
    i < |items| && j < |items| && Before(items[i], items[j])
  }

  lemma IndexOfHere(items: seq<Item>, i: nat)
    requires DistinctIds(items) && i < |items|
    ensures IndexOf(items, items[i].itemId) == i
  {
  }

  lemma {:induction false} IndexOfSame(items: seq<Item>, items': seq<Item>, id: ItemId)
    requires |items| == |items'| && forall k :: 0 <= k < |items| ==> items[k].itemId == items'[k].itemId
    ensures IndexOf(items, id) == IndexOf(items', id)
  {
  }

  /** Records follow the schedule, and whatever is still pending comes after everything tried. */
  ghost predicate Ranked(l: Loop) {
    && (forall i, j :: 0 <= i < j < |l.records| ==>
          l.records[i].itemId == l.records[j].itemId || Precedes(l.items, l.records[i].itemId, l.records[j].itemId))
    && (forall r, k :: r in l.records && 0 <= k < |l.items| && l.items[k].state == PENDING ==>
          r.itemId == l.items[k].itemId || Precedes(l.items, r.itemId, l.items[k].itemId))
  }

  lemma PrecedesKept(items: seq<Item>, items': seq<Item>, a: ItemId, b: ItemId)
    requires |items| == |items'|
    requires forall k :: 0 <= k < |items| ==> items[k].itemId == items'[k].itemId && items[k].priority == items'[k].priority
    requires Precedes(items, a, b)
    ensures Precedes(items', a, b)
  {
    IndexOfSame(items, items', a);
    IndexOfSame(items, items', b);
  }

  lemma AttemptKeepsPrecedence(
    l: Loop, i: nat, iteration: nat, outcome: Outcome, policy: Policy, a: ItemId, b: ItemId)
    requires i < |l.items| && Precedes(l.items, a, b)
    ensures Precedes(Attempt(l, i, iteration, outcome, policy).items, a, b)
  {
    PrecedesKept(l.items, Attempt(l, i, iteration, outcome, policy).items, a, b);
  }

  /** Everything tried so far, including the item chosen next, precedes item k if that is still pending. */
  lemma TriedPrecedesPending(l: Loop, i: nat, r: ItemId, k: nat)
    requires Ranked(l) && DistinctIds(l.items) && NextPending(l.items, |l.items|) == Some(i)
    requires k < |l.items| && l.items[k].state == PENDING
    requires r == l.items[i].itemId || exists x :: x in l.records && x.itemId == r
    ensures r == l.items[k].itemId || Precedes(l.items, r, l.items[k].itemId)
  {
    NextComesFirst(l.items, |l.items|, k);
    if k != i { BeforeTotal(l.items[i], l.items[k]); }
    IndexOfHere(l.items, i);
    IndexOfHere(l.items, k);
  }

  lemma AttemptRanked(l: Loop, i: nat, iteration: nat, outcome: Outcome, policy: Policy)
    requires Ranked(l) && DistinctIds(l.items)
    requires NextPending(l.items, |l.items|) == Some(i)
    ensures Ranked(Attempt(l, i, iteration, outcome, policy))
  {
    var after := Attempt(l, i, iteration, outcome, policy);
    forall p, q | 0 <= p < q < |after.records|
      ensures after.records[p].itemId == after.records[q].itemId
        || Precedes(after.items, after.records[p].itemId, after.records[q].itemId)
    {
      assert after.records[p] in l.records;
      if after.records[p].itemId != after.records[q].itemId {
        AttemptKeepsPrecedence(l, i, iteration, outcome, policy, after.records[p].itemId, after.records[q].itemId);
      }
    }
    forall r, k | r in after.records && 0 <= k < |after.items| && after.items[k].state == PENDING
      ensures r.itemId == after.items[k].itemId || Precedes(after.items, r.itemId, after.items[k].itemId)
    {
      TriedPrecedesPending(l, i, r.itemId, k);
      if r.itemId != after.items[k].itemId {
        AttemptKeepsPrecedence(l, i, iteration, outcome, policy, r.itemId, after.items[k].itemId);
      }
    }
  }

  lemma QuietTurnRanked(l: Loop, policy: Policy, turn: Turn, iteration: nat)
    requires |l.items| == |l.accepted| && Quiet(l.fingerprints, [turn])
    requires DistinctIds(l.items) && Ranked(l)
    ensures
      var next := OneTurn(l, policy, turn, iteration).loop;
      DistinctIds(next.items) && Ranked(next) && next.fingerprints == l.fingerprints
  {
    assert turn in [turn];
    QuietAccept(l, turn.discovery.items);
    var next := NextPending(l.items, |l.items|);
    if turn.discovery.error.None? && next.Some? {
      AttemptRanked(l, next.value, iteration, turn.outcome, policy);
      assert OneTurn(l, policy, turn, iteration).loop == Attempt(l, next.value, iteration, turn.outcome, policy);
    } else {
      assert OneTurn(l, policy, turn, iteration).loop == l;
    }
  }

  lemma {:induction false} QuietRunRanked(
    l: Loop, policy: Policy, turns: seq<Turn>, iteration: nat, cps: seq<Checkpoint>)
    requires ValidPolicy(policy) && |turns| >= policy.maxIterations
    requires 1 <= iteration <= policy.maxIterations + 1
    requires |l.items| == |l.accepted| && Quiet(l.fingerprints, turns)
    requires DistinctIds(l.items) && Ranked(l)
    ensures Ranked(RunFrom(l, policy, turns, iteration, cps).loop)
    decreases policy.maxIterations + 1 - iteration
  {
    if iteration <= policy.maxIterations {
      QuietTurnRanked(l, policy, turns[iteration - 1], iteration);
      var r := OneTurn(l, policy, turns[iteration - 1], iteration);
      if r.Continue? {
        QuietRunRanked(r.loop, policy, turns, iteration + 1, cps + r.checkpoints);
      }
    }
  }

  /**
   * With quiet discovery the attempts come in schedule order: by descending priority, then by id; and
   * work that precedes anything already tried is no longer pending when the run ends.
   */
  lemma RecordsInPriorityOrder(seed: seq<Item>, policy: Policy, turns: seq<Turn>, u: set<Item>)
    requires ValidPolicy(policy) && |turns| >= policy.maxIterations
    requires IdsIdentify(u) && DrawnFrom(seed, turns, u)
    requires Quiet(AcceptAll(EMPTY_LOOP, seed).fingerprints, turns)
    ensures Ranked(Run(seed, policy, turns).loop)
  {
    AcceptAllSound(EMPTY_LOOP, seed, u);
    QuietRunRanked(AcceptAll(EMPTY_LOOP, seed), policy, turns, 1, []);
  }

  /** In schedule order, all attempts of one item are adjacent. */
  lemma AttemptsContiguous(l: Loop, i: nat, j: nat, k: nat)
    requires Ranked(l) && i < j < k < |l.records| && l.records[i].itemId == l.records[k].itemId
    ensures l.records[j].itemId == l.records[i].itemId
  {
    if l.records[j].itemId != l.records[i].itemId {
      var p, q := IndexOf(l.items, l.records[i].itemId), IndexOf(l.items, l.records[j].itemId);
      BeforeTotal(l.items[p], l.items[q]);
    }
  }

  // ----- checkpoints

  /** Every recorded attempt but a failed rollback is followed by its own checkpoint before anything else happens. */
  ghost predicate Checkpointed(records: seq<IterationRecord>, cps: seq<Checkpoint>) {
    && |cps| == |records|
    && forall k :: 0 <= k < |cps| ==>
         cps[k].active == Some(records[k].itemId) && cps[k].iteration == records[k].iteration
         && cps[k].state == LOOP_RUNNING
         && (records[k].itemId in cps[k].completed || records[k].itemId in cps[k].blocked
             || records[k].itemId in cps[k].pending)
  }

  /** As Checkpointed, except that a last record of a failed rollback may have no checkpoint. */
  ghost predicate CheckpointedButRollback(records: seq<IterationRecord>, cps: seq<Checkpoint>) {
    && |cps| <= |records| && Checkpointed(records[..|cps|], cps)
    && (|cps| < |records| ==> |cps| == |records| - 1 && records[|cps|].outcome == ROLLBACK_FAILED)
  }

  /** The checkpoints of a finished run: those after attempts, then the final one. */
  ghost predicate FullyCheckpointed(f: Final) {
    var n := |f.checkpoints| - 1;
    && n >= 0 && CheckpointedButRollback(f.report.records, f.checkpoints[..n])
    && f.checkpoints[n].active == None && f.checkpoints[n].state == f.report.state
  }

  lemma ConcludeCheckpoints(l: Loop, iterations: nat, state: LoopState, reason: string, cps: seq<Checkpoint>)
    requires CheckpointedButRollback(l.records, cps)
    ensures FullyCheckpointed(Conclude(l, iterations, state, reason, cps))
  {
    var f := Conclude(l, iterations, state, reason, cps);
    assert f.checkpoints[..|f.checkpoints| - 1] == cps;
  }

  lemma {:induction false} RunFromCheckpoints(
    l: Loop, policy: Policy, turns: seq<Turn>, iteration: nat, cps: seq<Checkpoint>)
    requires ValidPolicy(policy) && |turns| >= policy.maxIterations
    requires 1 <= iteration <= policy.maxIterations + 1
    requires |l.items| == |l.accepted| && Checkpointed(l.records, cps)
    ensures FullyCheckpointed(RunFrom(l, policy, turns, iteration, cps))
    decreases policy.maxIterations + 1 - iteration
  {
    if iteration > policy.maxIterations {
      assert l.records[..|l.records|] == l.records;
      ConcludeCheckpoints(l, policy.maxIterations, LOOP_RUNNING, "", cps);
    } else {
      TurnCheckpoints(l, policy, turns[iteration - 1], iteration, cps);
      match OneTurn(l, policy, turns[iteration - 1], iteration)
      case Continue(next, more) =>
        assert next.records[..|next.records|] == next.records;
        RunFromCheckpoints(next, policy, turns, iteration + 1, cps + more);
      case Stop(last, state, reason, more) => ConcludeCheckpoints(last, iteration, state, reason, cps + more);
    }
  }

  /** The record of an attempt, and its checkpoint unless a rollback failed. */
  ghost predicate AttemptRecorded(l: Loop, r: TurnResult) {
    && |r.loop.records| == |l.records| + 1 && r.loop.records == l.records + [r.loop.records[|l.records|]]
    && if r.checkpoints == [] then r.Stop? && r.loop.records[|l.records|].outcome == ROLLBACK_FAILED
       else Checkpointed([r.loop.records[|l.records|]], r.checkpoints)
  }

  lemma AttemptTurnRecorded(l: Loop, i: nat, iteration: nat, outcome: Outcome, policy: Policy)
    requires i < |l.items|
    ensures AttemptRecorded(l, AttemptTurn(l, i, iteration, outcome, policy))
  {
    hide LastError, PendingIds;
    var after := Attempt(l, i, iteration, outcome, policy);
    assert after.items[i].itemId == l.items[i].itemId;
  }

  lemma OneMoreCheckpointed(l: Loop, r: TurnResult, cps: seq<Checkpoint>)
    requires Checkpointed(l.records, cps) && AttemptRecorded(l, r)
    ensures CheckpointedButRollback(r.loop.records, cps + r.checkpoints)
    ensures r.Continue? ==> |cps + r.checkpoints| == |r.loop.records|
  {
    assert r.loop.records[..|l.records|] == l.records && r.loop.records[..|r.loop.records|] == r.loop.records;
    assert cps + [] == cps;
  }

  lemma TurnCheckpoints(l: Loop, policy: Policy, turn: Turn, iteration: nat, cps: seq<Checkpoint>)
    requires |l.items| == |l.accepted| && Checkpointed(l.records, cps)
    ensures
      var r := OneTurn(l, policy, turn, iteration);
      CheckpointedButRollback(r.loop.records, cps + r.checkpoints)
      && (r.Continue? ==> |cps + r.checkpoints| == |r.loop.records|)
  {
    hide AcceptAll, AttemptTurn, AttemptRecorded, Checkpointed;
    var l1 := AcceptAll(l, turn.discovery.items);
    var next := NextPending(l1.items, |l1.items|);
    if turn.discovery.error.None? && next.Some? {
      AttemptTurnRecorded(l1, next.value, iteration, turn.outcome, policy);
      OneMoreCheckpointed(l1, AttemptTurn(l1, next.value, iteration, turn.outcome, policy), cps);
    } else {
      SameCheckpointed(l.records, cps);
    }
  }

  lemma SameCheckpointed(records: seq<IterationRecord>, cps: seq<Checkpoint>)
    requires Checkpointed(records, cps)
    ensures CheckpointedButRollback(records, cps + []) && |cps + []| == |records|
  {
    assert cps + [] == cps && records[..|records|] == records;
  }

  /** No checkpoint of a run is missing: one after every attempt, and one at the end. */
  lemma EveryAttemptIsCheckpointed(seed: seq<Item>, policy: Policy, turns: seq<Turn>)
    requires ValidPolicy(policy) && |turns| >= policy.maxIterations
    ensures FullyCheckpointed(Run(seed, policy, turns))
  {
    RunFromCheckpoints(AcceptAll(EMPTY_LOOP, seed), policy, turns, 1, []);
  }

  // ----- records against what the callbacks did

  /** The change was implemented, validation passed, and no regression has to stop the run. */
  predicate Passes(outcome: Outcome, policy: Policy) {
    outcome.Validated? && outcome.passed && (outcome.regressions == [] || !policy.stopOnRegression)
  }

  /** A regression the policy stops for, or a failed attempt that could not be rolled back. */
  predicate MustHalt(outcome: Outcome, policy: Policy) {
    && outcome.Validated?
    && ((outcome.regressions != [] && policy.stopOnRegression)
        || (!outcome.passed && outcome.rollbackError.Some?))
  }

  /** The change did not pass and could not be undone. */
  predicate RollbackFails(o: Outcome, policy: Policy) {
    o.Validated? && !Passes(o, policy) && o.rollbackError.Some?
  }

  /** The change brought a regression the policy stops for, and was undone. */
  predicate RegressionStops(o: Outcome, policy: Policy) {
    o.Validated? && o.regressions != [] && policy.stopOnRegression && o.rollbackError.None?
  }

  function DoneIds(records: seq<IterationRecord>): seq<ItemId> {
    if records == [] then []
    else
      var last := records[|records| - 1];
      DoneIds(records[..|records| - 1]) + if last.outcome == DONE then [last.itemId] else []
  }

  /** One record per iteration, each a success exactly when the callbacks of that iteration passed. */
  ghost predicate Truthful(l: Loop, policy: Policy, turns: seq<Turn>) {
    && |l.records| <= |turns|
    && l.completed == DoneIds(l.records)
    && forall k :: 0 <= k < |l.records| ==>
         l.records[k].iteration == k + 1
         && (l.records[k].outcome == DONE <==> Passes(turns[k].outcome, policy))
  }

  ghost predicate HaltsOnlyAtEnd(records: seq<IterationRecord>, policy: Policy, turns: seq<Turn>, n: nat) {
    |records| <= |turns| && forall k :: 0 <= k < |records| && MustHalt(turns[k].outcome, policy) ==> k >= n
  }

  /** What must halt the run is the last attempt of the run, and the run is HALTED. */
  ghost predicate GuardsHalt(f: Final, policy: Policy, turns: seq<Turn>) {
    && f.report.records == f.loop.records && |f.report.records| <= |turns|
    && forall k :: 0 <= k < |f.report.records| && MustHalt(turns[k].outcome, policy) ==>
         k == |f.report.records| - 1 && f.report.state == HALTED
  }

  lemma AttemptTruthful(l: Loop, i: nat, iteration: nat, policy: Policy, turns: seq<Turn>)
    requires i < |l.items| && 1 <= iteration <= |turns| && |l.records| == iteration - 1
    requires Truthful(l, policy, turns)
    ensures Truthful(Attempt(l, i, iteration, turns[iteration - 1].outcome, policy), policy, turns)
  {
    var after := Attempt(l, i, iteration, turns[iteration - 1].outcome, policy);
    assert after.records[..|l.records|] == l.records;
  }

  /** What one turn owes the records: their truth, and no attempt after one that must halt the run. */
  ghost predicate TurnTruthful(r: TurnResult, iteration: nat, policy: Policy, turns: seq<Turn>)
    requires 1 <= iteration <= |turns|
  {
    && Truthful(r.loop, policy, turns)
    && HaltsOnlyAtEnd(r.loop.records, policy, turns, if r.Continue? then iteration else iteration - 1)
    && (r.Continue? ==> |r.loop.records| == iteration)
    && (|r.loop.records| == iteration && MustHalt(turns[iteration - 1].outcome, policy) ==>
          r.Stop? && r.state == HALTED)
  }

  lemma AttemptTurnTruthful(l: Loop, i: nat, iteration: nat, policy: Policy, turns: seq<Turn>)
    requires i < |l.items| && 1 <= iteration <= |turns| && |l.records| == iteration - 1
    requires Truthful(l, policy, turns) && HaltsOnlyAtEnd(l.records, policy, turns, iteration - 1)
    ensures TurnTruthful(AttemptTurn(l, i, iteration, turns[iteration - 1].outcome, policy), iteration, policy, turns)
  {
    AttemptTruthful(l, i, iteration, policy, turns);
  }

  lemma OneTurnTruthful(l: Loop, policy: Policy, turns: seq<Turn>, iteration: nat)
    requires |l.items| == |l.accepted| && 1 <= iteration <= |turns| && |l.records| == iteration - 1
    requires Truthful(l, policy, turns) && HaltsOnlyAtEnd(l.records, policy, turns, iteration - 1)
    ensures TurnTruthful(OneTurn(l, policy, turns[iteration - 1], iteration), iteration, policy, turns)
  {
    var turn := turns[iteration - 1];
    var l1 := AcceptAll(l, turn.discovery.items);
    var next := NextPending(l1.items, |l1.items|);
    if turn.discovery.error.None? && next.Some? {
      AttemptTurnTruthful(l1, next.value, iteration, policy, turns);
    }
  }

  lemma {:induction false} RunFromTruthful(
    l: Loop, policy: Policy, turns: seq<Turn>, iteration: nat, cps: seq<Checkpoint>)
    requires ValidPolicy(policy) && |turns| >= policy.maxIterations
    requires 1 <= iteration <= policy.maxIterations + 1 && |l.records| == iteration - 1
    requires |l.items| == |l.accepted| && Truthful(l, policy, turns)
    requires HaltsOnlyAtEnd(l.records, policy, turns, iteration - 1)
    ensures
      var f := RunFrom(l, policy, turns, iteration, cps);
      Truthful(f.loop, policy, turns) && GuardsHalt(f, policy, turns)
    decreases policy.maxIterations + 1 - iteration
  {
    if iteration <= policy.maxIterations {
      OneTurnTruthful(l, policy, turns, iteration);
      match OneTurn(l, policy, turns[iteration - 1], iteration)
      case Continue(next, more) => RunFromTruthful(next, policy, turns, iteration + 1, cps + more);
      case Stop(_, _, _, _) =>
    }
  }

  /**
   * The records match the callbacks: one per iteration, a success exactly when that iteration passed,
   * the completed list is exactly the successes in order, and a regression the policy stops for, or a
   * rollback that fails, is the last thing a run does.
   */
  lemma RecordsTellTheOutcomes(seed: seq<Item>, policy: Policy, turns: seq<Turn>)
    requires ValidPolicy(policy) && |turns| >= policy.maxIterations
    ensures
      var f := Run(seed, policy, turns);
      Truthful(f.loop, policy, turns) && GuardsHalt(f, policy, turns)
  {
    RunFromTruthful(AcceptAll(EMPTY_LOOP, seed), policy, turns, 1, []);
  }
}
