/** The bounded meta-loop over upgrade work: prioritisation, retry, regression and progress budgets. */
module UpgradeLoop {
  import opened Work

  datatype Policy = Policy(maxIterations: nat, maxNoProgress: nat, stopOnRegression: bool)

  predicate ValidPolicy(p: Policy) {
    p.maxIterations >= 1 && p.maxNoProgress >= 1
  }

  /** What one discovery call yields: the items seen before it ended, and the error it raised, if any. */
  datatype Discovery = Discovery(items: seq<Item>, error: Option<string>)

  /** What the implement, validate and rollback callbacks do with one attempt. */
  datatype Outcome =
    | Raised(error: string)
    | Validated(passed: bool, regressions: seq<string>, rollbackError: Option<string>)

  /** Everything the callbacks do in one iteration. */
  datatype Turn = Turn(discovery: Discovery, outcome: Outcome)

  datatype RecordOutcome =
    | RETRY
    | EXHAUSTED
    | ROLLBACK_FAILED
    | REGRESSION_BLOCKED
    | VALIDATION_RETRY
    | DONE

  datatype IterationRecord = IterationRecord(iteration: nat, itemId: ItemId, attempt: nat, outcome: RecordOutcome)

  datatype Report = Report(
    state: LoopState,
    iterations: nat,
    completed: seq<ItemId>,
    blocked: seq<ItemId>,
    pending: seq<ItemId>,
    records: seq<IterationRecord>,
    haltReason: string)

  /**
   * The loop's working state. `items` is the insertion-ordered dictionary keyed by item id;
   * `accepted` remembers, position by position, each item as it was offered.
   */
  datatype Loop = Loop(
    items: seq<Item>,
    accepted: seq<Item>,
    fingerprints: set<Fingerprint>,
    completed: seq<ItemId>,
    blocked: seq<ItemId>,
    records: seq<IterationRecord>,
    noProgress: nat)

  const EMPTY_LOOP := Loop([], [], {}, [], [], [], 0)

  /** Where a run ends: its state, its report, and every checkpoint it emitted. */
  datatype Final = Final(loop: Loop, report: Report, checkpoints: seq<Checkpoint>)

  // ----- adding work

  /** Index of the item with this id, or |items|. */
  function IndexOf(items: seq<Item>, id: ItemId): (i: nat)
    ensures i <= |items|
    ensures i < |items| ==> items[i].itemId == id
    ensures forall k :: 0 <= k < i ==> items[k].itemId != id
  {
    if items == [] then 0
    else
      var front := IndexOf(items[..|items| - 1], id);
      if front < |items| - 1 then front
      else if items[|items| - 1].itemId == id then |items| - 1
      else |items|
  }

  /** Dictionary assignment: an id already present keeps its position and gets the new item. */
  function Put(items: seq<Item>, at: nat, item: Item): seq<Item>
    requires at <= |items|
  {
    if at < |items| then items[at := item] else items + [item]
  }

  function Accept(l: Loop, item: Item): Loop
    requires |l.items| == |l.accepted|
  {
    if item.fingerprint in l.fingerprints then l
    else
      var at := IndexOf(l.items, item.itemId);
      l.(fingerprints := l.fingerprints + {item.fingerprint},
         items := Put(l.items, at, item),
         accepted := Put(l.accepted, at, item))
  }

  function AcceptAll(l: Loop, offered: seq<Item>): (r: Loop)
    requires |l.items| == |l.accepted|
    ensures |r.items| == |r.accepted|
    ensures r.completed == l.completed && r.blocked == l.blocked
    ensures r.records == l.records && r.noProgress == l.noProgress
  {
    if offered == [] then l
    else Accept(AcceptAll(l, offered[..|offered| - 1]), offered[|offered| - 1])
  }

  // ----- choosing work

  /** The scheduling order: higher priority first, then smaller id. */
  predicate Before(a: Item, b: Item) {
    a.priority > b.priority || (a.priority == b.priority && LexLess(a.itemId, b.itemId))
  }

  lemma BeforeTransitive(a: Item, b: Item, c: Item)
    requires Before(a, b) && Before(b, c)
    ensures Before(a, c)
  {
    if a.priority == b.priority == c.priority { LexTransitive(a.itemId, b.itemId, c.itemId); }
  }

  lemma BeforeTotal(a: Item, b: Item)
    requires a.itemId != b.itemId
    ensures Before(a, b) != Before(b, a)
  {
    LexTotal(a.itemId, b.itemId);
  }

  /** Index of the pending item scheduled next among the first n, or None. */
  function NextPending(items: seq<Item>, n: nat): (r: Option<nat>)
    requires n <= |items|
    ensures r.Some? ==> r.value < n && items[r.value].state == PENDING
    ensures r.None? <==> forall i :: 0 <= i < n ==> items[i].state != PENDING
  {
    if n == 0 then None
    else
      var best := NextPending(items, n - 1);
      if items[n - 1].state == PENDING && (best.None? || Before(items[n - 1], items[best.value]))
      then Some(n - 1)
      else best
  }

  /** No pending item comes before the chosen one. */
  lemma {:induction false} NextComesFirst(items: seq<Item>, n: nat, k: nat)
    requires k < n <= |items| && items[k].state == PENDING
    ensures NextPending(items, n).Some? && !Before(items[k], items[NextPending(items, n).value])
  {
    var best := NextPending(items, n - 1);
    if k < n - 1 {
      NextComesFirst(items, n - 1, k);
      if NextPending(items, n).value == n - 1 && Before(items[k], items[n - 1]) {
        BeforeTransitive(items[k], items[n - 1], items[best.value]);
      }
    } else {
      NotBeforeItself(items[k]);
      if best.Some? && !Before(items[k], items[best.value]) { assert NextPending(items, n) == best; }
    }
  }

  lemma NotBeforeItself(a: Item)
    ensures !Before(a, a)
  {
    LexTotal(a.itemId, a.itemId);
  }

  /** Ids the report and the checkpoints list as pending, in insertion order. */
  function PendingIds(items: seq<Item>): (ids: seq<ItemId>)
    ensures forall id :: id in ids <==> exists i :: 0 <= i < |items| && items[i].itemId == id && Open(items[i].state)
  {
    if items == [] then []
    else
      var last := items[|items| - 1];
      assert forall i :: 0 <= i < |items| - 1 ==> items[..|items| - 1][i] == items[i];
      PendingIds(items[..|items| - 1]) + if Open(last.state) then [last.itemId] else []
  }

  /** Positions of the open items, in order. */
  function OpenAt(items: seq<Item>): (at: seq<nat>)
    ensures forall k :: 0 <= k < |at| ==> at[k] < |items| && Open(items[at[k]].state)
    ensures forall j, k :: 0 <= j < k < |at| ==> at[j] < at[k]
  {
    if items == [] then []
    else
      var n := |items| - 1;
      OpenAt(items[..n]) + if Open(items[n].state) then [n] else []
  }

  lemma {:induction false} OpenIsListed(items: seq<Item>, i: nat)
    requires i < |items| && Open(items[i].state)
    ensures i in OpenAt(items)
  {
    var n := |items| - 1;
    if i < n { OpenIsListed(items[..n], i); } else { assert OpenAt(items)[|OpenAt(items)| - 1] == n; }
  }

  /** Each open item is listed once, in insertion order. */
  lemma {:induction false} PendingIdsInOrder(items: seq<Item>)
    ensures |PendingIds(items)| == |OpenAt(items)|
    ensures forall k :: 0 <= k < |OpenAt(items)| ==> PendingIds(items)[k] == items[OpenAt(items)[k]].itemId
    ensures forall i :: 0 <= i < |items| && Open(items[i].state) ==> i in OpenAt(items)
  {
    if items != [] { PendingIdsInOrder(items[..|items| - 1]); }
    forall i | 0 <= i < |items| && Open(items[i].state) ensures i in OpenAt(items) { OpenIsListed(items, i); }
  }

  // ----- one attempt

  /** How an attempt ends: the item's next state, its record label, and whether the run must halt for it. */
  datatype Verdict = Verdict(state: WorkState, outcome: RecordOutcome, halt: Option<string>)

  function Begin(item: Item): Item {
    item.(state := RUNNING, attempts := item.attempts + 1)
  }

  /** The verdict on an item whose attempt counter already includes this attempt. */
  function Judge(item: Item, outcome: Outcome, policy: Policy): Verdict {
    var exhausted := item.attempts >= item.maxAttempts;
    match outcome
    case Raised(_) =>
      if exhausted then Verdict(BLOCKED, EXHAUSTED, None) else Verdict(PENDING, RETRY, None)
    case Validated(passed, regressions, rollbackError) =>
      var regressionHalt := regressions != [] && policy.stopOnRegression;
      if passed && !regressionHalt then Verdict(SUCCEEDED, DONE, None)
      else if rollbackError.Some? then Verdict(BLOCKED, ROLLBACK_FAILED, Some("rollback_failed"))
      else
        Verdict(
          if exhausted || regressionHalt then BLOCKED else PENDING,
          if regressionHalt then REGRESSION_BLOCKED else VALIDATION_RETRY,
          if regressionHalt then Some("regression_guard") else None)
  }

  /** The loop after item i was attempted in the given iteration. */
  function Attempt(l: Loop, i: nat, iteration: nat, outcome: Outcome, policy: Policy): Loop
    requires i < |l.items|
  {
    var item := Begin(l.items[i]);
    var verdict := Judge(item, outcome, policy);
    var record := IterationRecord(iteration, item.itemId, item.attempts, verdict.outcome);
    l.(items := l.items[i := item.(state := verdict.state, lastError := LastError(item, outcome, policy))],
       completed := if verdict.state == SUCCEEDED then l.completed + [item.itemId] else l.completed,
       blocked := if verdict.state == BLOCKED then l.blocked + [item.itemId] else l.blocked,
       records := l.records + [record],
       noProgress :=
         if verdict.outcome == DONE then 0
         else if verdict.outcome == ROLLBACK_FAILED then l.noProgress
         else l.noProgress + 1)
  }

  function LastError(item: Item, outcome: Outcome, policy: Policy): string {
    match outcome
    case Raised(error) => error
    case Validated(_, _, rollbackError) =>
      if Judge(item, outcome, policy).outcome == ROLLBACK_FAILED then "rollback failed: " + rollbackError.value
      else item.lastError
  }

  /** Why the run halts after an attempt, if it does. */
  function HaltAfter(l: Loop, verdict: Verdict, policy: Policy): Option<string> {
    if verdict.halt.Some? then verdict.halt
    else if verdict.outcome != DONE && l.noProgress >= policy.maxNoProgress then Some("no_progress_budget_exhausted")
    else None
  }

  function Snapshot(l: Loop, iteration: nat, state: LoopState, active: Option<ItemId>): Checkpoint {
    Checkpoint(iteration, state, active, l.completed, Uniq(l.blocked), PendingIds(l.items))
  }

  /** The checkpoint that follows an attempt; a failed rollback emits none. */
  function AttemptCheckpoints(l: Loop, iteration: nat, id: ItemId, verdict: Verdict): seq<Checkpoint> {
    if verdict.outcome == ROLLBACK_FAILED then [] else [Snapshot(l, iteration, LOOP_RUNNING, Some(id))]
  }

  // ----- a whole run

  /** Final state, report and last checkpoint when the iterations are over. */
  function Conclude(l: Loop, iterations: nat, state: LoopState, reason: string, cps: seq<Checkpoint>): Final {
    var pending := PendingIds(l.items);
    var (finalState, finalReason) :=
      if state != LOOP_RUNNING then (state, reason)
      else if pending != [] then (BUDGET_EXHAUSTED, "iteration_budget_exhausted")
      else if l.blocked != [] then (HALTED, "blocked_work_remaining")
      else (COMPLETED, reason);
    Final(
      l,
      Report(finalState, iterations, l.completed, Uniq(l.blocked), pending, l.records, finalReason),
      cps + [Snapshot(l, iterations, finalState, None)])
  }

  /** Either the run goes on with a new loop state, or it ends for a reason. */
  datatype TurnResult =
    | Continue(loop: Loop, checkpoints: seq<Checkpoint>)
    | Stop(loop: Loop, state: LoopState, reason: string, checkpoints: seq<Checkpoint>)

  /** One iteration, up to the point where it continues or stops the run. */
  function OneTurn(l: Loop, policy: Policy, turn: Turn, iteration: nat): (r: TurnResult)
    requires |l.items| == |l.accepted|
    ensures |r.loop.items| == |r.loop.accepted|
    ensures r.Stop? ==> r.state == HALTED || r.state == COMPLETED
  {
    var l1 := AcceptAll(l, turn.discovery.items);
    if turn.discovery.error.Some? then
      Stop(l1, HALTED, "discovery_error:" + turn.discovery.error.value, [])
    else
      var next := NextPending(l1.items, |l1.items|);
      if next.None? then
        if l1.blocked != [] then Stop(l1, HALTED, "blocked_work_remaining", [])
        else Stop(l1, COMPLETED, "", [])
      else
        AttemptTurn(l1, next.value, iteration, turn.outcome, policy)
  }

  function AttemptTurn(l: Loop, i: nat, iteration: nat, outcome: Outcome, policy: Policy): TurnResult
    requires i < |l.items|
  {
    var verdict := Judge(Begin(l.items[i]), outcome, policy);
    var after := Attempt(l, i, iteration, outcome, policy);
    var cps := AttemptCheckpoints(after, iteration, l.items[i].itemId, verdict);
    var halt := HaltAfter(after, verdict, policy);
    if halt.Some? then Stop(after, HALTED, halt.value, cps) else Continue(after, cps)
  }

  /** The run from a given iteration on, for whatever the callbacks do in each turn. */
  function RunFrom(l: Loop, policy: Policy, turns: seq<Turn>, iteration: nat, cps: seq<Checkpoint>): Final
    requires ValidPolicy(policy) && |turns| >= policy.maxIterations
    requires 1 <= iteration <= policy.maxIterations + 1
    requires |l.items| == |l.accepted|
    decreases policy.maxIterations + 1 - iteration
  {
    if iteration > policy.maxIterations then Conclude(l, policy.maxIterations, LOOP_RUNNING, "", cps)
    else
      match OneTurn(l, policy, turns[iteration - 1], iteration)
      case Continue(next, more) => RunFrom(next, policy, turns, iteration + 1, cps + more)
      case Stop(last, state, reason, more) => Conclude(last, iteration, state, reason, cps + more)
  }

  function Run(seed: seq<Item>, policy: Policy, turns: seq<Turn>): Final
    requires ValidPolicy(policy) && |turns| >= policy.maxIterations
  {
    RunFrom(AcceptAll(EMPTY_LOOP, seed), policy, turns, 1, [])
  }

  lemma RunFromNext(l: Loop, policy: Policy, turns: seq<Turn>, iteration: nat, cps: seq<Checkpoint>)
    requires ValidPolicy(policy) && |turns| >= policy.maxIterations
    requires 1 <= iteration <= policy.maxIterations && |l.items| == |l.accepted|
    ensures
      var r := OneTurn(l, policy, turns[iteration - 1], iteration);
      RunFrom(l, policy, turns, iteration, cps)
        == (if r.Continue? then RunFrom(r.loop, policy, turns, iteration + 1, cps + r.checkpoints)
            else Conclude(r.loop, iteration, r.state, r.reason, cps + r.checkpoints))
  {
  }

  lemma ConcludeAppends(l: Loop, iterations: nat, state: LoopState, reason: string, cps: seq<Checkpoint>)
    ensures
      var f, g := Conclude(l, iterations, state, reason, []), Conclude(l, iterations, state, reason, cps);
      g.loop == f.loop && g.report == f.report && g.checkpoints == cps + f.checkpoints
  {
  }

  // ----- the service object

  /** The loop object: a dictionary of items and the set of fingerprints ever accepted. */
  class ContinuousUpgradeLoop {
    const policy: Policy
    var items: seq<Item>
    var fingerprints: set<Fingerprint>
    ghost var accepted: seq<Item>

    ghost predicate Valid()
      reads this
    {
      ValidPolicy(policy) && |items| == |accepted|
    }

    /** The object's fields together with the locals of a run. */
    ghost function View(
      completed: seq<ItemId>, blocked: seq<ItemId>, records: seq<IterationRecord>, noProgress: nat): Loop
      reads this
    {
      Loop(items, accepted, fingerprints, completed, blocked, records, noProgress)
    }

    /** The fields hold the queue part of l. */
    ghost predicate Holds(l: Loop)
      reads this
    {
      items == l.items && accepted == l.accepted && fingerprints == l.fingerprints
    }

    constructor (policy: Policy)
      requires ValidPolicy(policy)
      ensures Valid() && this.policy == policy && Holds(EMPTY_LOOP)
    {
      this.policy := policy;
      items, fingerprints, accepted := [], {}, [];
    }

    method AddWork(item: Item, ghost l: Loop) returns (added: bool)
      requires Valid() && Holds(l)
      modifies this
      ensures Valid() && Holds(Accept(l, item))
      ensures added <==> item.fingerprint !in old(fingerprints)
    {
      if item.fingerprint in fingerprints {
        return false;
      }
      fingerprints := fingerprints + {item.fingerprint};
      var at := IndexOf(items, item.itemId);
      items := Put(items, at, item);
      accepted := Put(accepted, at, item);
      return true;
    }

    method AddEach(offered: seq<Item>, ghost l: Loop)
      requires Valid() && Holds(l)
      modifies this
      ensures Valid() && Holds(AcceptAll(l, offered))
    {
      for k := 0 to |offered|
        invariant Valid() && Holds(AcceptAll(l, offered[..k]))
      {
        assert offered[..k + 1][..k] == offered[..k];
        var _ := AddWork(offered[k], AcceptAll(l, offered[..k]));
      }
      assert offered[..|offered|] == offered;
    }

    method PickNext() returns (next: Option<nat>)
      requires Valid()
      ensures next == NextPending(items, |items|)
      ensures next.None? <==> forall k :: 0 <= k < |items| ==> items[k].state != PENDING
      ensures next.Some? ==> next.value < |items| && items[next.value].state == PENDING
      ensures next.Some? ==>
        forall k :: 0 <= k < |items| && items[k].state == PENDING ==> !Before(items[k], items[next.value])
      ensures next.Some? ==>
        forall k :: 0 <= k < |items| && items[k].state == PENDING ==>
          && items[k].priority <= items[next.value].priority
          && (items[k].priority == items[next.value].priority ==> !LexLess(items[k].itemId, items[next.value].itemId))
    {
      next := None;
      for k := 0 to |items|
        invariant next == NextPending(items, k)
      {
        if items[k].state == PENDING && (next.None? || Before(items[k], items[next.value])) {
          next := Some(k);
        }
      }
      forall k | 0 <= k < |items| && items[k].state == PENDING ensures !Before(items[k], items[next.value]) {
        NextComesFirst(items, |items|, k);
      }
    }

    /** Attempts item i once and books the result. */
    method TryItem(
      i: nat, iteration: nat, outcome: Outcome,
      completed: seq<ItemId>, blocked: seq<ItemId>, records: seq<IterationRecord>, noProgress: nat)
      returns (
        verdict: Verdict,
        completed': seq<ItemId>, blocked': seq<ItemId>, records': seq<IterationRecord>, noProgress': nat)
      requires Valid() && i < |items|
      modifies this`items
      ensures Valid() && verdict == Judge(Begin(old(items[i])), outcome, policy)
      ensures View(completed', blocked', records', noProgress')
        == Attempt(old(View(completed, blocked, records, noProgress)), i, iteration, outcome, policy)
    {
      completed', blocked', records', noProgress' := completed, blocked, records, noProgress;
      items := items[i := Begin(items[i])];
      var item := items[i];
      verdict := Judge(item, outcome, policy);
      items := items[i := item.(state := verdict.state, lastError := LastError(item, outcome, policy))];
      if verdict.state == SUCCEEDED { completed' := completed + [item.itemId]; }
      if verdict.state == BLOCKED { blocked' := blocked + [item.itemId]; }
      records' := records + [IterationRecord(iteration, item.itemId, item.attempts, verdict.outcome)];
      if verdict.outcome == DONE {
        noProgress' := 0;
      } else if verdict.outcome != ROLLBACK_FAILED {
        noProgress' := noProgress + 1;
      }
    }

    /** One iteration: discover, pick, attempt. Also says which item was attempted, and what was emitted. */
    method Iterate(
      turn: Turn, iteration: nat,
      completed: seq<ItemId>, blocked: seq<ItemId>, records: seq<IterationRecord>, noProgress: nat)
      returns (
        state: LoopState, haltReason: string, attempted: Option<nat>, emitted: seq<Checkpoint>,
        completed': seq<ItemId>, blocked': seq<ItemId>, records': seq<IterationRecord>, noProgress': nat)
      requires Valid()
      modifies this
      ensures Valid()
      ensures
        var before := old(View(completed, blocked, records, noProgress));
        var r, l1 := OneTurn(before, policy, turn, iteration), AcceptAll(before, turn.discovery.items);
        && View(completed', blocked', records', noProgress') == r.loop && emitted == r.checkpoints
        && attempted == (if turn.discovery.error.None? then NextPending(l1.items, |l1.items|) else None)
        && if r.Continue? then state == LOOP_RUNNING && haltReason == "" else state == r.state && haltReason == r.reason
    {
      completed', blocked', records', noProgress' := completed, blocked, records, noProgress;
      state, haltReason, attempted, emitted := LOOP_RUNNING, "", None, [];
      ghost var before := View(completed, blocked, records, noProgress);
      AddEach(turn.discovery.items, before);
      ghost var l1 := View(completed, blocked, records, noProgress);
      if turn.discovery.error.Some? {
        state, haltReason := HALTED, "discovery_error:" + turn.discovery.error.value;
        return;
      }
      attempted := PickNext();
      if attempted.None? {
        if blocked != [] {
          state, haltReason := HALTED, "blocked_work_remaining";
        } else {
          state := COMPLETED;
        }
        return;
      }
      var i, id := attempted.value, items[attempted.value].itemId;
      var verdict;
      verdict, completed', blocked', records', noProgress' :=
        TryItem(i, iteration, turn.outcome, completed, blocked, records, noProgress);
      if verdict.outcome != ROLLBACK_FAILED {
        emitted := [Checkpoint(iteration, LOOP_RUNNING, Some(id), completed', Uniq(blocked'), PendingIds(items))];
      }
      if verdict.halt.Some? {
        state, haltReason := HALTED, verdict.halt.value;
      } else if verdict.outcome != DONE && noProgress' >= policy.maxNoProgress {
        state, haltReason := HALTED, "no_progress_budget_exhausted";
      }
      assert OneTurn(before, policy, turn, iteration) == AttemptTurn(l1, i, iteration, turn.outcome, policy);
    }

    /** The report and the last checkpoint. */
    method Summarise(
      iterations: nat, state: LoopState, haltReason: string,
      completed: seq<ItemId>, blocked: seq<ItemId>, records: seq<IterationRecord>, ghost noProgress: nat)
      returns (report: Report, last: Checkpoint)
      ensures
        var f := Conclude(View(completed, blocked, records, noProgress), iterations, state, haltReason, []);
        report == f.report && f.checkpoints == [last]
      ensures NoDup(report.blocked)
    {
      var pending, finalState, finalReason := PendingIds(items), state, haltReason;
      if finalState == LOOP_RUNNING {
        if pending != [] {
          finalState, finalReason := BUDGET_EXHAUSTED, "iteration_budget_exhausted";
        } else if blocked != [] {
          finalState, finalReason := HALTED, "blocked_work_remaining";
        } else {
          finalState := COMPLETED;
        }
      }
      last := Checkpoint(iterations, finalState, None, completed, Uniq(blocked), pending);
      report := Report(finalState, iterations, completed, Uniq(blocked), pending, records, finalReason);
    }

    /** Iterates until the run halts, has nothing left to do, or is out of iterations. */
    method IterateAll(turns: seq<Turn>)
      returns (
        iterations: nat, state: LoopState, haltReason: string, checkpoints: seq<Checkpoint>,
        completed: seq<ItemId>, blocked: seq<ItemId>, records: seq<IterationRecord>, noProgress: nat)
      requires Valid() && |turns| >= policy.maxIterations
      modifies this
      ensures Valid()
      ensures Conclude(View(completed, blocked, records, noProgress), iterations, state, haltReason, checkpoints)
        == RunFrom(old(View([], [], [], 0)), policy, turns, 1, [])
    {
      records, completed, blocked, noProgress := [], [], [], 0;
      iterations, state, haltReason, checkpoints := 0, LOOP_RUNNING, "", [];
      ghost var goal := RunFrom(View([], [], [], 0), policy, turns, 1, []);
      while iterations < policy.maxIterations && state == LOOP_RUNNING
        invariant Valid() && iterations <= policy.maxIterations
        invariant state == LOOP_RUNNING ==>
          haltReason == ""
          && RunFrom(View(completed, blocked, records, noProgress), policy, turns, iterations + 1, checkpoints) == goal
        invariant state != LOOP_RUNNING ==>
          Conclude(View(completed, blocked, records, noProgress), iterations, state, haltReason, checkpoints) == goal
        decreases policy.maxIterations - iterations
      {
        iterations := iterations + 1;
        RunFromNext(View(completed, blocked, records, noProgress), policy, turns, iterations, checkpoints);
        var emitted, attempted;
        state, haltReason, attempted, emitted, completed, blocked, records, noProgress :=
          Iterate(turns[iterations - 1], iterations, completed, blocked, records, noProgress);
        checkpoints := checkpoints + emitted;
      }
    }

    /** Runs the loop against one behaviour of the callbacks. */
    method Run(seed: seq<Item>, turns: seq<Turn>) returns (report: Report, checkpoints: seq<Checkpoint>)
      requires Valid() && |turns| >= policy.maxIterations
      modifies this
      ensures Valid()
      ensures
        var final := RunFrom(AcceptAll(old(View([], [], [], 0)), seed), policy, turns, 1, []);
        report == final.report && checkpoints == final.checkpoints && Holds(final.loop)
    {
      AddEach(seed, View([], [], [], 0));
      var iterations, state, haltReason, completed, blocked, records, noProgress, last;
      iterations, state, haltReason, checkpoints, completed, blocked, records, noProgress := IterateAll(turns);
      ConcludeAppends(View(completed, blocked, records, noProgress), iterations, state, haltReason, checkpoints);
      report, last := Summarise(iterations, state, haltReason, completed, blocked, records, noProgress);
      checkpoints := checkpoints + [last];
    }
  }
}
