/** A pipeline run that ends is a run of the loop, on what discovery let through. */
module PipelineLoop {
  import opened Work
  import opened UpgradeLoop
  import opened Ledger
  import O = UpgradeLoopOutcomes
  import P = Pipeline

  /** The loop was told what the outside world did, discovery by discovery as the desk then was. */
  ghost predicate ToldSo(
    l: Loop, d: P.Desk, policy: Policy, script: P.Script, iteration: nat, retryBlocked: bool, turns: seq<Turn>)
    requires P.Enough(script, policy) && 1 <= iteration <= policy.maxIterations + 1
    requires |l.items| == |l.accepted| && |turns| == |script.turns|
    decreases policy.maxIterations + 1 - iteration
  {
    iteration > policy.maxIterations ||
    var turn := script.turns[iteration - 1];
    var seen := P.Seen(d, turn, retryBlocked);
    var r := OneTurn(l, policy, seen, iteration);
    && turns[iteration - 1] == seen
    && (!P.Breaks(turn, r) && r.Continue? ==>
          ToldSo(
            r.loop, P.Record(P.Keep(l, d, turn, retryBlocked, r), r.checkpoints),
            policy, script, iteration + 1, retryBlocked, turns))
  }

  lemma {:induction false} ToldSoLater(
    l: Loop, d: P.Desk, policy: Policy, script: P.Script, iteration: nat, retryBlocked: bool,
    turns: seq<Turn>, turns': seq<Turn>)
    requires P.Enough(script, policy) && 1 <= iteration <= policy.maxIterations + 1
    requires |l.items| == |l.accepted| && |turns| == |turns'| == |script.turns|
    requires turns[iteration - 1..] == turns'[iteration - 1..]
    requires ToldSo(l, d, policy, script, iteration, retryBlocked, turns)
    ensures ToldSo(l, d, policy, script, iteration, retryBlocked, turns')
    decreases policy.maxIterations + 1 - iteration
  {
    hide P.Seen, P.Breaks, P.Keep, P.Record, OneTurn;
    if iteration <= policy.maxIterations {
      var turn := script.turns[iteration - 1];
      var r := OneTurn(l, policy, P.Seen(d, turn, retryBlocked), iteration);
      assert turns[iteration - 1] == turns[iteration - 1..][0] == turns'[iteration - 1..][0] == turns'[iteration - 1];
      assert turns[iteration..] == turns[iteration - 1..][1..] && turns'[iteration..] == turns'[iteration - 1..][1..];
      if !P.Breaks(turn, r) && r.Continue? {
        ToldSoLater(
          r.loop, P.Record(P.Keep(l, d, turn, retryBlocked, r), r.checkpoints),
          policy, script, iteration + 1, retryBlocked, turns, turns');
      }
    }
  }

  /** Whatever the outside world does, there is something the loop was told. */
  lemma {:induction false} SomethingTold(
    l: Loop, d: P.Desk, policy: Policy, script: P.Script, iteration: nat, retryBlocked: bool) returns (turns: seq<Turn>)
    requires P.Enough(script, policy) && 1 <= iteration <= policy.maxIterations + 1 && |l.items| == |l.accepted|
    ensures |turns| == |script.turns| && ToldSo(l, d, policy, script, iteration, retryBlocked, turns)
    ensures forall i :: 0 <= i < |turns| ==> Passes(turns[i], script.turns[i])
    decreases policy.maxIterations + 1 - iteration
  {
    hide P.Breaks, P.Keep, P.Record, OneTurn;
    if iteration > policy.maxIterations {
      turns := seq(|script.turns|, i requires 0 <= i < |script.turns| => P.Seen(d, script.turns[i], retryBlocked));
    } else {
      var turn := script.turns[iteration - 1];
      var seen := P.Seen(d, turn, retryBlocked);
      var r := OneTurn(l, policy, seen, iteration);
      var d' := P.Record(P.Keep(l, d, turn, retryBlocked, r), r.checkpoints);
      var later := SomethingTold(r.loop, d', policy, script, iteration + 1, retryBlocked);
      turns := later[iteration - 1 := seen];
      assert turns[iteration..] == later[iteration..];
      ToldSoLater(r.loop, d', policy, script, iteration + 1, retryBlocked, later, turns);
    }
  }

  /**
   * A turn of the loop passes on a turn of the sources: the attempt as it is, and either the candidates of
   * a discovery that raised nothing, or no items and an error, of a source or of the ledger.
   */
  ghost predicate Passes(t: Turn, source: P.SourceTurn) {
    && t.outcome == source.outcome
    && (t.discovery.error.None? ==> source.error.None?)
    && (t.discovery.error.Some? ==>
          && t.discovery.items == []
          && (t.discovery.error == source.error || (source.refused.Some? && t.discovery.error == Some("UpgradeLedgerError"))))
  }

  /** Told the same, the loop on its own does the same. */
  lemma {:induction false} LoopDoesTheSame(
    l: Loop, d: P.Desk, policy: Policy, script: P.Script, iteration: nat, retryBlocked: bool,
    turns: seq<Turn>, cps: seq<Checkpoint>)
    requires P.Enough(script, policy) && 1 <= iteration <= policy.maxIterations + 1
    requires |l.items| == |l.accepted| && |turns| == |script.turns|
    requires ToldSo(l, d, policy, script, iteration, retryBlocked, turns)
    ensures
      var e, f := P.RunFrom(l, d, policy, script, iteration, retryBlocked), RunFrom(l, policy, turns, iteration, cps);
      e.Ended? ==> e.loop == f.loop && e.report == f.report
    decreases policy.maxIterations + 1 - iteration
  {
    hide P.Seen, P.Keep, P.Record, OneTurn;
    if iteration <= policy.maxIterations {
      var turn := script.turns[iteration - 1];
      var r := OneTurn(l, policy, P.Seen(d, turn, retryBlocked), iteration);
      if !P.Breaks(turn, r) && r.Continue? {
        LoopDoesTheSame(
          r.loop, P.Record(P.Keep(l, d, turn, retryBlocked, r), r.checkpoints),
          policy, script, iteration + 1, retryBlocked, turns, cps + r.checkpoints);
      }
    }
  }

  /**
   * A pipeline run that is not broken off reports just what the loop reports on its own, seeded with the
   * resumed and restored work and told what discovery let through. So all that holds of every run of the
   * loop holds of it; among others, how its last iteration decides state, reason and iterations.
   */
  lemma PipelineRunIsLoopRun(
    loaded: Records, resumed: seq<Item>, seeds: seq<Item>, policy: Policy, script: P.Script, retryBlocked: bool)
    returns (turns: seq<Turn>)
    requires P.Enough(script, policy)
    ensures |turns| == |script.turns| && forall i :: 0 <= i < |turns| ==> Passes(turns[i], script.turns[i])
    ensures
      var e := P.RunLocked(loaded, resumed, seeds, policy, script, retryBlocked);
      var f := Run(resumed + P.RestoreAll(loaded, seeds, retryBlocked), policy, turns);
      e.Ended? ==> e.loop == f.loop && e.report == f.report && O.EndsAsDecided(f, policy, turns)
  {
    hide P.RunFrom, RunFrom, ToldSo, Passes, O.EndsAsDecided, P.RestoreAll, P.Seeded, AcceptAll;
    var seed := resumed + P.RestoreAll(loaded, seeds, retryBlocked);
    var l, d, n := AcceptAll(EMPTY_LOOP, seed), P.Seeded(loaded, resumed, seeds, retryBlocked), 1;
    turns := SomethingTold(l, d, policy, script, n, retryBlocked);
    LoopDoesTheSame(l, d, policy, script, n, retryBlocked, turns, []);
    O.RunEndsAsDecided(seed, policy, turns);
  }
}
