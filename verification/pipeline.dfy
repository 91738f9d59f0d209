/** The pipeline that joins loop and ledger: seeds, discovery, attempts and checkpoints of one run. */
module Pipeline {
  import opened Work
  import opened UpgradeLoop
  import opened Ledger

  /** A candidate on which the ledger cannot be written, or not even read. */
  datatype Refusal = Refusal(item: Item, readable: bool)

  /**
   * What happens in one iteration: the candidates that are restored or registered, one the ledger may
   * fail on after them, the error a source raises after that, the attempt, and how its checkpoint fares.
   */
  datatype SourceTurn = SourceTurn(
    candidates: seq<Item>, refused: Option<Refusal>, error: Option<string>, outcome: Outcome, saving: Access)

  /** The records in the ledger, and the pipeline's dictionary of items by id, in insertion order. */
  datatype Desk = Desk(records: Records, copies: seq<Item>)

  /** A run ends with a report, or is broken off when a checkpoint cannot be stored. */
  datatype Ended =
    | Ended(loop: Loop, report: Report, desk: Desk)
    | Broken(loop: Loop, iterations: nat, desk: Desk)

  // ----- restoring work

  function PutItem(copies: seq<Item>, item: Item): seq<Item> {
    Put(copies, IndexOf(copies, item.itemId), item)
  }

  function PutAll(copies: seq<Item>, items: seq<Item>): seq<Item> {
    if items == [] then copies else PutItem(PutAll(copies, items[..|items| - 1]), items[|items| - 1])
  }

  /** The ledger after restoring or registering the candidates one by one. */
  function RegisterAll(m: Records, candidates: seq<Item>, retryBlocked: bool): Records {
    if candidates == [] then m
    else
      Registered(RegisterAll(m, candidates[..|candidates| - 1], retryBlocked), candidates[|candidates| - 1], retryBlocked)
  }

  /** The items this hands back. */
  function RestoreAll(m: Records, candidates: seq<Item>, retryBlocked: bool): seq<Item> {
    if candidates == [] then []
    else
      var front := candidates[..|candidates| - 1];
      var next := Restored(RegisterAll(m, front, retryBlocked), candidates[|candidates| - 1], retryBlocked);
      RestoreAll(m, front, retryBlocked) + if next.Some? then [next.value] else []
  }

  /** Discovery stores every restored item, in the ledger and in the dictionary, even when it fails later. */
  function Discover(d: Desk, candidates: seq<Item>, retryBlocked: bool): Desk {
    Desk(RegisterAll(d.records, candidates, retryBlocked), PutAll(d.copies, RestoreAll(d.records, candidates, retryBlocked)))
  }

  // ----- one run

  function Record(d: Desk, cps: seq<Checkpoint>): Desk {
    if cps == [] then d
    else
      var before := Record(d, cps[..|cps| - 1]);
      before.(records := AfterCheckpoint(before.records, cps[|cps| - 1], before.copies))
  }

  /** A closed record needs no write, so that restoring it fails only when the ledger cannot be read. */
  predicate Refuses(m: Records, refusal: Refusal, retryBlocked: bool) {
    !refusal.readable || Restored(m, refusal.item, retryBlocked).Some?
  }

  /** The error discovery ends with, if any. */
  function Failure(d: Desk, turn: SourceTurn, retryBlocked: bool): Option<string> {
    if turn.refused.Some? && Refuses(RegisterAll(d.records, turn.candidates, retryBlocked), turn.refused.value, retryBlocked)
    then Some("UpgradeLedgerError")
    else turn.error
  }

  /** What the loop sees of an iteration: a discovery that fails yields nothing. */
  function Seen(d: Desk, turn: SourceTurn, retryBlocked: bool): Turn {
    var failure := Failure(d, turn, retryBlocked);
    Turn(
      Discovery(if failure.Some? then [] else RestoreAll(d.records, turn.candidates, retryBlocked), failure),
      turn.outcome)
  }

  /** The desk after the iteration whose result for the loop is r, before its checkpoint. */
  function Keep(l: Loop, d: Desk, turn: SourceTurn, retryBlocked: bool, r: TurnResult): Desk
    requires |l.items| == |l.accepted|
  {
    var d1 := Discover(d, turn.candidates, retryBlocked);
    var l1 := AcceptAll(l, Seen(d, turn, retryBlocked).discovery.items);
    var next := NextPending(l1.items, |l1.items|);
    if Failure(d, turn, retryBlocked).None? && next.Some? && next.value < |r.loop.items|
    then d1.(copies := PutItem(d1.copies, r.loop.items[next.value]))
    else d1
  }

  function Finish(l: Loop, d: Desk, iterations: nat, state: LoopState, reason: string, lastSaving: Access): Ended {
    var f := Conclude(l, iterations, state, reason, []);
    if lastSaving.Works? then Ended(f.loop, f.report, Record(d, f.checkpoints)) else Broken(l, iterations, d)
  }

  /** What the outside world does to a run: iteration by iteration, and to its last checkpoint. */
  datatype Script = Script(turns: seq<SourceTurn>, lastSaving: Access)

  predicate Enough(script: Script, policy: Policy) {
    ValidPolicy(policy) && |script.turns| >= policy.maxIterations
  }

  /** The checkpoint of the iteration cannot be stored: the loop does not catch the error. */
  predicate Breaks(turn: SourceTurn, r: TurnResult) {
    r.checkpoints != [] && !turn.saving.Works?
  }

  function RunFrom(l: Loop, d: Desk, policy: Policy, script: Script, iteration: nat, retryBlocked: bool): Ended
    requires Enough(script, policy) && 1 <= iteration <= policy.maxIterations + 1
    requires |l.items| == |l.accepted|
    decreases policy.maxIterations + 1 - iteration
  {
    if iteration > policy.maxIterations then Finish(l, d, policy.maxIterations, LOOP_RUNNING, "", script.lastSaving)
    else
      var turn := script.turns[iteration - 1];
      var r := OneTurn(l, policy, Seen(d, turn, retryBlocked), iteration);
      var d' := Keep(l, d, turn, retryBlocked, r);
      if Breaks(turn, r) then Broken(r.loop, iteration, d')
      else if r.Continue? then RunFrom(r.loop, Record(d', r.checkpoints), policy, script, iteration + 1, retryBlocked)
      else Finish(r.loop, Record(d', r.checkpoints), iteration, r.state, r.reason, script.lastSaving)
  }

  /** What is left of a run after some iterations. */
  function Rest(
    l: Loop, d: Desk, policy: Policy, script: Script, iterations: nat, state: LoopState, reason: string,
    retryBlocked: bool): Ended
    requires Enough(script, policy) && iterations <= policy.maxIterations
    requires |l.items| == |l.accepted|
  {
    if state == LOOP_RUNNING then RunFrom(l, d, policy, script, iterations + 1, retryBlocked)
    else Finish(l, d, iterations, state, reason, script.lastSaving)
  }

  /** Nothing is left once the run has stopped or used all its iterations. */
  lemma RestDone(
    l: Loop, d: Desk, policy: Policy, script: Script, iterations: nat, state: LoopState, reason: string,
    retryBlocked: bool)
    requires Enough(script, policy) && iterations <= policy.maxIterations
    requires |l.items| == |l.accepted|
    requires state == LOOP_RUNNING ==> iterations == policy.maxIterations && reason == ""
    ensures Rest(l, d, policy, script, iterations, state, reason, retryBlocked)
      == Finish(l, d, iterations, state, reason, script.lastSaving)
  {
  }

  lemma RestNext(
    l: Loop, d: Desk, policy: Policy, script: Script, iteration: nat, state: LoopState, reason: string,
    retryBlocked: bool)
    requires Enough(script, policy) && 1 <= iteration <= policy.maxIterations && |l.items| == |l.accepted|
    requires
      var r := OneTurn(l, policy, Seen(d, script.turns[iteration - 1], retryBlocked), iteration);
      if r.Continue? then state == LOOP_RUNNING && reason == "" else state == r.state && reason == r.reason
    ensures
      var turn := script.turns[iteration - 1];
      var r := OneTurn(l, policy, Seen(d, turn, retryBlocked), iteration);
      var d' := Keep(l, d, turn, retryBlocked, r);
      Rest(l, d, policy, script, iteration - 1, LOOP_RUNNING, "", retryBlocked)
        == if Breaks(turn, r) then Broken(r.loop, iteration, d')
           else Rest(r.loop, Record(d', r.checkpoints), policy, script, iteration, state, reason, retryBlocked)
  {
  }

  /** The desk once resumed and seeded items are in the dictionary. */
  function Seeded(loaded: Records, resumed: seq<Item>, seeds: seq<Item>, retryBlocked: bool): Desk {
    Desk(
      RegisterAll(loaded, seeds, retryBlocked),
      PutAll([], resumed + RestoreAll(loaded, seeds, retryBlocked)))
  }

  /** A run over a ledger just loaded, with the items it handed out for resumption. */
  function RunLocked(
    loaded: Records, resumed: seq<Item>, seeds: seq<Item>, policy: Policy, script: Script, retryBlocked: bool): Ended
    requires Enough(script, policy)
  {
    var seed := resumed + RestoreAll(loaded, seeds, retryBlocked);
    RunFrom(AcceptAll(EMPTY_LOOP, seed), Seeded(loaded, resumed, seeds, retryBlocked), policy, script, 1, retryBlocked)
  }

  lemma RunLockedIsRest(
    loaded: Records, resumed: seq<Item>, seeds: seq<Item>, policy: Policy, script: Script, retryBlocked: bool)
    requires Enough(script, policy)
    ensures
      var seed := resumed + RestoreAll(loaded, seeds, retryBlocked);
      RunLocked(loaded, resumed, seeds, policy, script, retryBlocked)
        == Rest(AcceptAll(EMPTY_LOOP, seed), Seeded(loaded, resumed, seeds, retryBlocked),
                policy, script, 0, LOOP_RUNNING, "", retryBlocked)
  {
  }

  /** The report as the pipeline returns it: blocked work found in the ledger counts. */
  function FinalReport(report: Report, persisted: seq<ItemId>): Report {
    if persisted == [] then report
    else
      var merged := report.(blocked := Uniq(report.blocked + persisted));
      if report.state == COMPLETED then merged.(state := HALTED, haltReason := "persisted_blocked_work_remaining") else merged
  }
}
