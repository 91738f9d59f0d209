/** Every iteration, and so every run, keeps loop, dictionary and ledger linked. */
module PipelineRuns {
  import opened Work
  import opened Offers
  import opened UpgradeLoop
  import opened UpgradeLoopLaws
  import opened Ledger
  import opened Pipeline
  import opened PipelineLaws

  // ----- one iteration

  lemma SnapshotLists(l: Loop, iteration: nat, state: LoopState)
    ensures ListsLoop(Snapshot(l, iteration, state, None), l)
  {
  }

  lemma AttemptSnapshotLists(l: Loop, i: nat, iteration: nat, outcome: Outcome, policy: Policy)
    requires i < |l.items|
    ensures
      var l' := Attempt(l, i, iteration, outcome, policy);
      ListsLoop(Snapshot(l', iteration, LOOP_RUNNING, Some(l.items[i].itemId)), l')
  {
    var l' := Attempt(l, i, iteration, outcome, policy);
    AttemptChangesOne(l, i, iteration, outcome, policy);
    assert l'.items[i].itemId == l.items[i].itemId;
    if l'.items[i].state == SUCCEEDED {
      assert l'.completed[|l'.completed| - 1] == l.items[i].itemId;
    } else if l'.items[i].state == BLOCKED {
      assert l'.blocked[|l'.blocked| - 1] == l.items[i].itemId;
    }
  }

  /** At most one checkpoint, with the lists of the loop, is what an iteration emits. */
  ghost predicate Emits(cps: seq<Checkpoint>, l: Loop) {
    cps == [] || (|cps| == 1 && ListsLoop(cps[0], l))
  }

  lemma RecordOne(d: Desk, cp: Checkpoint)
    ensures Record(d, [cp]) == Stored(d, cp)
  {
    assert [cp][..0] == [];
  }

  lemma RecordLinked(l: Loop, d: Desk, s: Setting, known: seq<Item>, handed: seq<Item>, cps: seq<Checkpoint>)
    requires Linked(l, d, s, known, handed) && Emits(cps, l)
    ensures Linked(l, Record(d, cps), s, known, handed) && Record(d, cps).copies == d.copies
    ensures cps != [] ==> Settles(l, Record(d, cps), s, handed)
  {
    if cps != [] {
      assert cps == [cps[0]];
      RecordOne(d, cps[0]);
      StoredFits(l, d, s, known, handed, cps[0]);
      StoredMirrors(l, d, s, known, handed, cps[0]);
    }
  }

  lemma RecordFitsAll(l: Loop, d: Desk, s: Setting, handed: seq<Item>, cps: seq<Checkpoint>)
    requires Fits(l, d, s, handed) && Emits(cps, l)
    ensures Fits(l, Record(d, cps), s, handed)
  {
    RecordLinked(l, d, s, handed, handed, cps);
  }

  /** The reasons a run stops for, except a failed discovery. */
  predicate OtherReason(reason: string) {
    || reason == "" || reason == "blocked_work_remaining" || reason == "rollback_failed" || reason == "regression_guard"
    || reason == "no_progress_budget_exhausted" || reason == "iteration_budget_exhausted"
  }

  lemma OtherReasonsTold(reason: string)
    requires OtherReason(reason)
    ensures !("discovery_error:" <= reason)
  {
    assert reason != "" ==> reason[0] != "discovery_error:"[0];
  }

  lemma AttemptTurnEmits(l: Loop, i: nat, iteration: nat, outcome: Outcome, policy: Policy)
    requires i < |l.items|
    ensures
      var r := AttemptTurn(l, i, iteration, outcome, policy);
      && r.loop == Attempt(l, i, iteration, outcome, policy) && Emits(r.checkpoints, r.loop)
      && (r.Stop? ==> OtherReason(r.reason))
  {
    AttemptSnapshotLists(l, i, iteration, outcome, policy);
  }

  /** The iteration, case by case. */
  lemma TurnCases(l: Loop, d: Desk, policy: Policy, turn: SourceTurn, iteration: nat, retryBlocked: bool)
    requires |l.items| == |l.accepted|
    ensures
      var r := OneTurn(l, policy, Seen(d, turn, retryBlocked), iteration);
      var d1 := Discover(d, turn.candidates, retryBlocked);
      var l1 := AcceptAll(l, RestoreAll(d.records, turn.candidates, retryBlocked));
      var next := NextPending(l1.items, |l1.items|);
      if Failure(d, turn, retryBlocked).Some? then
        && Keep(l, d, turn, retryBlocked, r) == d1 && r.loop == l && r.checkpoints == []
        && r.Stop? && r.state == HALTED && "discovery_error:" <= r.reason
      else if next.None? then
        && Keep(l, d, turn, retryBlocked, r) == d1 && r.loop == l1 && r.checkpoints == []
        && r.Stop? && OtherReason(r.reason)
      else
        && r == AttemptTurn(l1, next.value, iteration, turn.outcome, policy)
        && Keep(l, d, turn, retryBlocked, r) == d1.(copies := PutItem(d1.copies, r.loop.items[next.value]))
  {
  }

  /** A discovery that fails leaves the loop alone, and on the desk what it had handed in before. */
  lemma FailedTurn(l: Loop, d: Desk, s: Setting, handed: seq<Item>, policy: Policy, turn: SourceTurn, iteration: nat)
    requires Fits(l, d, s, handed) && Candidates(s.owner, turn.candidates) && Failure(d, turn, s.retryBlocked).Some?
    ensures
      var r := OneTurn(l, policy, Seen(d, turn, s.retryBlocked), iteration);
      && r.Stop? && r.loop == l && r.checkpoints == [] && r.state == HALTED && "discovery_error:" <= r.reason
      && Linked(l, Keep(l, d, turn, s.retryBlocked, r), s, handed, handed + turn.candidates)
  {
    TurnCases(l, d, policy, turn, iteration, s.retryBlocked);
    DiscoverFits(d, turn.candidates, s, handed);
    LoopCarried(l, d, Discover(d, turn.candidates, s.retryBlocked), s, handed);
  }

  lemma TurnFits(l: Loop, d: Desk, s: Setting, handed: seq<Item>, policy: Policy, turn: SourceTurn, iteration: nat)
    requires Fits(l, d, s, handed) && Candidates(s.owner, turn.candidates) && Failure(d, turn, s.retryBlocked).None?
    ensures
      var r := OneTurn(l, policy, Seen(d, turn, s.retryBlocked), iteration);
      && Fits(r.loop, Keep(l, d, turn, s.retryBlocked, r), s, handed + turn.candidates)
      && Emits(r.checkpoints, r.loop) && (r.Stop? ==> OtherReason(r.reason))
  {
    var items := RestoreAll(d.records, turn.candidates, s.retryBlocked);
    var l1, d1 := AcceptAll(l, items), Discover(d, turn.candidates, s.retryBlocked);
    TurnCases(l, d, policy, turn, iteration, s.retryBlocked);
    TakeInAll(l, d, turn.candidates, s, handed);
    var next := NextPending(l1.items, |l1.items|);
    if next.Some? {
      AttemptTurnEmits(l1, next.value, iteration, turn.outcome, policy);
      AttemptFits(l1, d1, s, handed + turn.candidates, next.value, iteration, turn.outcome, policy);
    }
  }

  // ----- a whole run

  ghost predicate TurnsOwned(owner: Owners, turns: seq<SourceTurn>) {
    forall i :: 0 <= i < |turns| ==> Candidates(owner, turns[i].candidates)
  }

  /** Loop and desk between two iterations, with all taken in that was handed in by then. */
  ghost predicate Standing(l: Loop, d: Desk, s: Setting, seeds: seq<Item>, turns: seq<SourceTurn>, n: nat) {
    n <= |turns| && exists handed :: handed == HandedBy(seeds, turns, n) && Fits(l, d, s, handed)
  }

  /** Loop and desk when no more iteration follows. */
  ghost predicate Stopped(
    l: Loop, d: Desk, s: Setting, seeds: seq<Item>, turns: seq<SourceTurn>, n: nat, failed: bool)
  {
    && n <= |turns| && (failed || AllAdopted(l, d))
    && exists known ::
         known == Given(seeds, turns, n, failed) && Linked(l, d, s, known, HandedBy(seeds, turns, n)) && Knows(l, s, known)
  }

  lemma StandingIsStopped(l: Loop, d: Desk, s: Setting, seeds: seq<Item>, turns: seq<SourceTurn>, n: nat)
    requires Standing(l, d, s, seeds, turns, n)
    ensures Stopped(l, d, s, seeds, turns, n, false)
  {
    var known := Given(seeds, turns, n, false);
    assert Linked(l, d, s, known, HandedBy(seeds, turns, n));
  }

  lemma FinishParts(l: Loop, d: Desk, iterations: nat, state: LoopState, reason: string)
    requires EndsRight(Conclude(l, iterations, state, reason, []))
    ensures
      var e := Finish(l, d, iterations, state, reason, Works);
      && e.Ended? && e.loop == l && EndsRight(Final(e.loop, e.report, [])) && e.report.iterations == iterations
      && e.desk == Record(d, [Snapshot(l, iterations, e.report.state, None)])
      && (state == HALTED ==> e.report.haltReason == reason)
      && (OtherReason(reason) ==> OtherReason(e.report.haltReason))
  {
  }

  lemma FinishFits(
    l: Loop, d: Desk, s: Setting, seeds: seq<Item>, turns: seq<SourceTurn>, iterations: nat, state: LoopState,
    reason: string, lastSaving: Access, failed: bool)
    requires EndsRight(Conclude(l, iterations, state, reason, []))
    requires Stopped(l, d, s, seeds, turns, iterations, failed)
    requires if failed then state == HALTED && "discovery_error:" <= reason else OtherReason(reason)
    ensures RunEndFits(Finish(l, d, iterations, state, reason, lastSaving), s, seeds, turns)
  {
    var e := Finish(l, d, iterations, state, reason, lastSaving);
    if lastSaving.Works? {
      FinishParts(l, d, iterations, state, reason);
      if !failed { OtherReasonsTold(e.report.haltReason); }
      SnapshotLists(l, iterations, e.report.state);
      RecordLinked(
        l, d, s, Given(seeds, turns, iterations, failed), HandedBy(seeds, turns, iterations),
        [Snapshot(l, iterations, e.report.state, None)]);
    }
    assert OverWith(e, s, seeds, turns, iterations, failed);
  }

  /** The run, case by case. */
  lemma RunFromCases(l: Loop, d: Desk, policy: Policy, script: Script, iteration: nat, retryBlocked: bool, e: Ended)
    requires Enough(script, policy) && 1 <= iteration <= policy.maxIterations + 1 && |l.items| == |l.accepted|
    requires e == Pipeline.RunFrom(l, d, policy, script, iteration, retryBlocked)
    ensures iteration > policy.maxIterations ==>
      e == Finish(l, d, policy.maxIterations, LOOP_RUNNING, "", script.lastSaving)
    ensures iteration <= policy.maxIterations ==>
      var turn := script.turns[iteration - 1];
      var r := OneTurn(l, policy, Seen(d, turn, retryBlocked), iteration);
      var d' := Keep(l, d, turn, retryBlocked, r);
      e == if Breaks(turn, r) then Broken(r.loop, iteration, d')
           else if r.Continue? then
             Pipeline.RunFrom(r.loop, Record(d', r.checkpoints), policy, script, iteration + 1, retryBlocked)
           else Finish(r.loop, Record(d', r.checkpoints), iteration, r.state, r.reason, script.lastSaving)
  {
  }

  lemma BudgetEnds(l: Loop, n: nat)
    ensures EndsRight(Conclude(l, n, LOOP_RUNNING, "", [])) && OtherReason("")
  {
    PendingListed(l.items);
  }

  lemma StandingLength(l: Loop, d: Desk, s: Setting, seeds: seq<Item>, turns: seq<SourceTurn>, n: nat)
    requires Standing(l, d, s, seeds, turns, n)
    ensures |l.items| == |l.accepted|
  {
  }

  lemma RunOutFits(l: Loop, d: Desk, s: Setting, seeds: seq<Item>, policy: Policy, script: Script, iteration: nat, e: Ended)
    requires Enough(script, policy) && iteration == policy.maxIterations + 1
    requires Standing(l, d, s, seeds, script.turns, iteration - 1)
    requires e == Pipeline.RunFrom(l, d, policy, script, iteration, s.retryBlocked)
    ensures RunEndFits(e, s, seeds, script.turns)
  {
    hide *;
    StandingLength(l, d, s, seeds, script.turns, iteration - 1);
    RunFromCases(l, d, policy, script, iteration, s.retryBlocked, e);
    BudgetEnds(l, iteration - 1);
    StandingIsStopped(l, d, s, seeds, script.turns, iteration - 1);
    FinishFits(l, d, s, seeds, script.turns, iteration - 1, LOOP_RUNNING, "", script.lastSaving, false);
  }

  lemma {:induction false} RunFromFits(
    l: Loop, d: Desk, s: Setting, seeds: seq<Item>, policy: Policy, script: Script, n: nat, e: Ended)
    requires Enough(script, policy) && n <= policy.maxIterations && TurnsOwned(s.owner, script.turns)
    requires Standing(l, d, s, seeds, script.turns, n)
    requires e == Pipeline.RunFrom(l, d, policy, script, n + 1, s.retryBlocked)
    ensures RunEndFits(e, s, seeds, script.turns)
    decreases policy.maxIterations - n
  {
    hide *;
    if n == policy.maxIterations {
      RunOutFits(l, d, s, seeds, policy, script, n + 1, e);
    } else {
      var over, l', d' := RunStep(l, d, s, seeds, policy, script, n + 1, e);
      if !over { RunFromFits(l', d', s, seeds, policy, script, n + 1, e); }
    }
  }

  /** One iteration: the run is over after it, or stands after it as before. */
  lemma RunStep(
    l: Loop, d: Desk, s: Setting, seeds: seq<Item>, policy: Policy, script: Script, iteration: nat, e: Ended)
    returns (over: bool, l': Loop, d': Desk)
    requires Enough(script, policy) && 1 <= iteration <= policy.maxIterations
    requires Standing(l, d, s, seeds, script.turns, iteration - 1)
    requires TurnsOwned(s.owner, script.turns)
    requires e == Pipeline.RunFrom(l, d, policy, script, iteration, s.retryBlocked)
    ensures over ==> RunEndFits(e, s, seeds, script.turns)
    ensures !over ==>
      && Standing(l', d', s, seeds, script.turns, iteration)
      && e == Pipeline.RunFrom(l', d', policy, script, iteration + 1, s.retryBlocked)
  {
    var turn := script.turns[iteration - 1];
    if Failure(d, turn, s.retryBlocked).Some? {
      RunFailsAt(l, d, s, seeds, policy, script, iteration, e);
      over, l', d' := true, l, d;
    } else {
      over, l', d' := RunGoesOn(l, d, s, seeds, policy, script, iteration, e);
    }
  }

  /** An iteration whose discovery does not fail: the run is broken off, stops, or goes on in order. */
  lemma RunGoesOn(
    l: Loop, d: Desk, s: Setting, seeds: seq<Item>, policy: Policy, script: Script, iteration: nat, e: Ended)
    returns (over: bool, l': Loop, d': Desk)
    requires Enough(script, policy) && 1 <= iteration <= policy.maxIterations
    requires Standing(l, d, s, seeds, script.turns, iteration - 1)
    requires Candidates(s.owner, script.turns[iteration - 1].candidates)
    requires Failure(d, script.turns[iteration - 1], s.retryBlocked).None?
    requires e == Pipeline.RunFrom(l, d, policy, script, iteration, s.retryBlocked)
    ensures over ==> RunEndFits(e, s, seeds, script.turns)
    ensures !over ==>
      && Standing(l', d', s, seeds, script.turns, iteration)
      && e == Pipeline.RunFrom(l', d', policy, script, iteration + 1, s.retryBlocked)
  {
    var turn := script.turns[iteration - 1];
    var r := OneTurn(l, policy, Seen(d, turn, s.retryBlocked), iteration);
    var kept := Keep(l, d, turn, s.retryBlocked, r);
    RunFromCases(l, d, policy, script, iteration, s.retryBlocked, e);
    TurnStands(l, d, s, seeds, script.turns, policy, iteration);
    over, l', d' := Breaks(turn, r) || r.Stop?, r.loop, Record(kept, r.checkpoints);
    if Breaks(turn, r) {
      BrokenOff(e, s, seeds, script.turns, iteration);
    } else if r.Stop? {
      OneTurnEnds(l, policy, Seen(d, turn, s.retryBlocked), iteration, []);
      StandingIsStopped(l', d', s, seeds, script.turns, iteration);
      FinishFits(l', d', s, seeds, script.turns, iteration, r.state, r.reason, script.lastSaving, false);
    }
  }

  lemma BrokenOff(e: Ended, s: Setting, seeds: seq<Item>, turns: seq<SourceTurn>, n: nat)
    requires e.Broken? && e.iterations == n && Standing(e.loop, e.desk, s, seeds, turns, n)
    ensures RunEndFits(e, s, seeds, turns)
  {
    StandingIsStopped(e.loop, e.desk, s, seeds, turns, n);
    assert OverWith(e, s, seeds, turns, n, false);
  }

  lemma StandsAfter(l: Loop, d: Desk, s: Setting, seeds: seq<Item>, turns: seq<SourceTurn>, n: nat)
    requires 1 <= n <= |turns| && Fits(l, d, s, HandedBy(seeds, turns, n - 1) + turns[n - 1].candidates)
    ensures Standing(l, d, s, seeds, turns, n)
  {
  }

  lemma TurnStands(
    l: Loop, d: Desk, s: Setting, seeds: seq<Item>, turns: seq<SourceTurn>, policy: Policy, iteration: nat)
    requires 1 <= iteration <= |turns| && Standing(l, d, s, seeds, turns, iteration - 1)
    requires Candidates(s.owner, turns[iteration - 1].candidates)
    requires Failure(d, turns[iteration - 1], s.retryBlocked).None?
    ensures
      var turn := turns[iteration - 1];
      var r := OneTurn(l, policy, Seen(d, turn, s.retryBlocked), iteration);
      var kept := Keep(l, d, turn, s.retryBlocked, r);
      && Standing(r.loop, kept, s, seeds, turns, iteration)
      && Standing(r.loop, Record(kept, r.checkpoints), s, seeds, turns, iteration)
      && (r.Stop? ==> OtherReason(r.reason))
  {
    var turn := turns[iteration - 1];
    var r := OneTurn(l, policy, Seen(d, turn, s.retryBlocked), iteration);
    var kept := Keep(l, d, turn, s.retryBlocked, r);
    TurnFits(l, d, s, HandedBy(seeds, turns, iteration - 1), policy, turn, iteration);
    StandsAfter(r.loop, kept, s, seeds, turns, iteration);
    RecordStands(r.loop, kept, s, seeds, turns, iteration, r.checkpoints);
  }

  lemma RecordStands(
    l: Loop, d: Desk, s: Setting, seeds: seq<Item>, turns: seq<SourceTurn>, n: nat, cps: seq<Checkpoint>)
    requires Standing(l, d, s, seeds, turns, n) && Emits(cps, l)
    ensures Standing(l, Record(d, cps), s, seeds, turns, n)
  {
    RecordFitsAll(l, d, s, HandedBy(seeds, turns, n), cps);
  }

  lemma RunFailsAt(
    l: Loop, d: Desk, s: Setting, seeds: seq<Item>, policy: Policy, script: Script, iteration: nat, e: Ended)
    requires Enough(script, policy) && 1 <= iteration <= policy.maxIterations
    requires Standing(l, d, s, seeds, script.turns, iteration - 1)
    requires Candidates(s.owner, script.turns[iteration - 1].candidates)
    requires Failure(d, script.turns[iteration - 1], s.retryBlocked).Some?
    requires e == Pipeline.RunFrom(l, d, policy, script, iteration, s.retryBlocked)
    ensures RunEndFits(e, s, seeds, script.turns)
  {
    var turn := script.turns[iteration - 1];
    var r := OneTurn(l, policy, Seen(d, turn, s.retryBlocked), iteration);
    var d' := Keep(l, d, turn, s.retryBlocked, r);
    RunFromCases(l, d, policy, script, iteration, s.retryBlocked, e);
    FailedTurn(l, d, s, HandedBy(seeds, script.turns, iteration - 1), policy, turn, iteration);
    OneTurnEnds(l, policy, Seen(d, turn, s.retryBlocked), iteration, []);
    assert Record(d', []) == d';
    assert Given(seeds, script.turns, iteration, true) == HandedBy(seeds, script.turns, iteration - 1);
    assert Stopped(l, d', s, seeds, script.turns, iteration, true);
    FinishFits(l, d', s, seeds, script.turns, iteration, r.state, r.reason, script.lastSaving, true);
  }

  // ----- the beginning of a run

  lemma {:induction false} PutAllSplit(copies: seq<Item>, front: seq<Item>, back: seq<Item>)
    ensures PutAll(copies, front + back) == PutAll(PutAll(copies, front), back)
  {
    if back == [] {
      assert front + back == front;
    } else {
      var last := |back| - 1;
      assert (front + back)[..|front + back| - 1] == front + back[..last];
      PutAllSplit(copies, front, back[..last]);
    }
  }

  lemma {:induction false} AcceptAllSplit(l: Loop, front: seq<Item>, back: seq<Item>)
    requires |l.items| == |l.accepted|
    ensures AcceptAll(l, front + back) == AcceptAll(AcceptAll(l, front), back)
  {
    if back == [] {
      assert front + back == front;
    } else {
      var last := |back| - 1;
      assert (front + back)[..|front + back| - 1] == front + back[..last];
      AcceptAllSplit(l, front, back[..last]);
    }
  }

  lemma {:induction false} PutAllOwned(items: seq<Item>, owner: Owners)
    requires forall x :: x in items ==> Owned(owner, x)
    ensures DistinctIds(PutAll([], items)) && forall x :: x in PutAll([], items) ==> x in items
    ensures forall x :: x in items ==> HasFingerprint(PutAll([], items), x.fingerprint)
  {
    if items != [] {
      var front, last := items[..|items| - 1], items[|items| - 1];
      var before := PutAll([], front);
      PutAllOwned(front, owner);
      PutItemFits(before, last, last.fingerprint);
      forall x | x in items ensures HasFingerprint(PutAll([], items), x.fingerprint) {
        if x in front { PutKeepsOthers(before, last, owner, x.fingerprint); }
      }
    }
  }

  /** What the ledger handed out for resumption. */
  ghost predicate ResumedFrom(resumed: seq<Item>, s: Setting) {
    LedgerFits(s.start, s.owner) && Lists(resumed, Resumable(s.start, s.retryBlocked))
  }

  /** The desk as loaded, with everything the ledger handed out in the dictionary. */
  function Loaded(s: Setting, resumed: seq<Item>, onlyBlocked: bool): Desk {
    Desk(ResetAll(s.start, s.retryBlocked, onlyBlocked), PutAll([], resumed))
  }

  lemma LoadedCopy(s: Setting, resumed: seq<Item>, onlyBlocked: bool, x: Item)
    requires ResumedFrom(resumed, s) && x in resumed
    ensures CopyFits(Loaded(s, resumed, onlyBlocked).records, s.owner, x) && x.state == PENDING
    ensures x.fingerprint in s.start && FlightFits(Loaded(s, resumed, onlyBlocked), s, [], x)
  {
    assert x.fingerprint in s.start && Reopen(s.start[x.fingerprint], s.retryBlocked) == Some(x);
  }

  lemma LoadedRecord(s: Setting, resumed: seq<Item>, onlyBlocked: bool, f: Fingerprint)
    requires ResumedFrom(resumed, s) && f in s.start
    requires forall x :: x in resumed ==> HasFingerprint(PutAll([], resumed), x.fingerprint)
    requires forall x :: x in PutAll([], resumed) ==> x in resumed
    ensures RecordFits(Loaded(s, resumed, onlyBlocked), s, [], f) && Continues(Loaded(s, resumed, onlyBlocked), s, f)
  {
    if Reopen(s.start[f], s.retryBlocked).Some? {
      assert Resumable(s.start, s.retryBlocked)[f] in resumed;
    }
  }

  lemma ResumedOwned(s: Setting, resumed: seq<Item>)
    requires ResumedFrom(resumed, s)
    ensures DistinctIds(PutAll([], resumed)) && forall x :: x in PutAll([], resumed) ==> x in resumed
    ensures forall x :: x in resumed ==> HasFingerprint(PutAll([], resumed), x.fingerprint)
  {
    forall x | x in resumed ensures Owned(s.owner, x) { LoadedCopy(s, resumed, false, x); }
    PutAllOwned(resumed, s.owner);
  }

  lemma LoadedFits(s: Setting, resumed: seq<Item>, onlyBlocked: bool)
    requires ResumedFrom(resumed, s)
    ensures DeskFits(Loaded(s, resumed, onlyBlocked), s, [])
  {
    var d := Loaded(s, resumed, onlyBlocked);
    ResumedOwned(s, resumed);
    forall i | 0 <= i < |d.copies|
      ensures CopyFits(d.records, s.owner, d.copies[i]) && FlightFits(d, s, [], d.copies[i])
    {
      LoadedCopy(s, resumed, onlyBlocked, d.copies[i]);
    }
    forall f | f in s.start ensures RecordFits(d, s, [], f) && Continues(d, s, f) {
      LoadedRecord(s, resumed, onlyBlocked, f);
    }
  }

  lemma ResumedAcceptable(s: Setting, resumed: seq<Item>, onlyBlocked: bool, x: Item)
    requires ResumedFrom(resumed, s) && x in resumed && HasFingerprint(PutAll([], resumed), x.fingerprint)
    ensures Acceptable(Loaded(s, resumed, onlyBlocked), s, [], x)
  {
    LoadedCopy(s, resumed, onlyBlocked, x);
  }

  /** Taking in the resumed items, all of them PENDING. */
  lemma {:induction false} ResumedTakenIn(s: Setting, resumed: seq<Item>, d: Desk, n: nat)
    requires n <= |resumed| && forall x :: x in resumed ==> Acceptable(d, s, [], x)
    ensures
      var l := AcceptAll(EMPTY_LOOP, resumed[..n]);
      LoopFits(l, d, s, []) && forall k :: 0 <= k < n ==> resumed[k].fingerprint in l.fingerprints
  {
    hide LoopFits, Acceptable;
    if n == 0 {
      EmptyLoopFits(d, s);
    } else {
      ResumedTakenIn(s, resumed, d, n - 1);
      assert resumed[..n][..n - 1] == resumed[..n - 1] && resumed[n - 1] in resumed;
      AcceptFits(AcceptAll(EMPTY_LOOP, resumed[..n - 1]), d, s, [], resumed[n - 1]);
    }
  }

  lemma EmptyLoopFits(d: Desk, s: Setting)
    ensures LoopFits(EMPTY_LOOP, d, s, [])
  {
  }

  lemma ResumedFits(s: Setting, resumed: seq<Item>, onlyBlocked: bool)
    requires ResumedFrom(resumed, s)
    ensures Fits(AcceptAll(EMPTY_LOOP, resumed), Loaded(s, resumed, onlyBlocked), s, [])
  {
    LoadedFits(s, resumed, onlyBlocked);
    ResumedOwned(s, resumed);
    var l, d := AcceptAll(EMPTY_LOOP, resumed), Loaded(s, resumed, onlyBlocked);
    forall x | x in resumed ensures Acceptable(d, s, [], x) { ResumedAcceptable(s, resumed, onlyBlocked, x); }
    ResumedTakenIn(s, resumed, d, |resumed|);
    assert resumed[..|resumed|] == resumed;
    forall i | 0 <= i < |d.copies| ensures d.copies[i].fingerprint in l.fingerprints {
      assert d.copies[i] in PutAll([], resumed);
      var k :| 0 <= k < |resumed| && resumed[k] == d.copies[i];
    }
  }

  lemma SeededFits(s: Setting, resumed: seq<Item>, seeds: seq<Item>, onlyBlocked: bool)
    requires ResumedFrom(resumed, s) && Candidates(s.owner, seeds)
    ensures
      var loaded := ResetAll(s.start, s.retryBlocked, onlyBlocked);
      var l := AcceptAll(EMPTY_LOOP, resumed + RestoreAll(loaded, seeds, s.retryBlocked));
      Fits(l, Seeded(loaded, resumed, seeds, s.retryBlocked), s, seeds)
  {
    var loaded := ResetAll(s.start, s.retryBlocked, onlyBlocked);
    var restored := RestoreAll(loaded, seeds, s.retryBlocked);
    ResumedFits(s, resumed, onlyBlocked);
    TakeInAll(AcceptAll(EMPTY_LOOP, resumed), Loaded(s, resumed, onlyBlocked), seeds, s, []);
    PutAllSplit([], resumed, restored);
    AcceptAllSplit(EMPTY_LOOP, resumed, restored);
    assert [] + seeds == seeds;
  }

  /** A run may assume of its ledger, its resumed items and its candidates no more than this. */
  ghost predicate RunInputs(s: Setting, resumed: seq<Item>, seeds: seq<Item>, policy: Policy, script: Script) {
    && Enough(script, policy) && ResumedFrom(resumed, s)
    && Candidates(s.owner, seeds) && TurnsOwned(s.owner, script.turns)
  }

  /** The run over the ledger as loaded. */
  function RunOver(
    s: Setting, resumed: seq<Item>, seeds: seq<Item>, policy: Policy, script: Script, onlyBlocked: bool): Ended
    requires Enough(script, policy)
  {
    RunLocked(ResetAll(s.start, s.retryBlocked, onlyBlocked), resumed, seeds, policy, script, s.retryBlocked)
  }

  lemma SeededStands(
    s: Setting, resumed: seq<Item>, seeds: seq<Item>, turns: seq<SourceTurn>, onlyBlocked: bool, l: Loop, d: Desk)
    requires ResumedFrom(resumed, s) && Candidates(s.owner, seeds)
    requires d == Seeded(ResetAll(s.start, s.retryBlocked, onlyBlocked), resumed, seeds, s.retryBlocked)
    requires l == AcceptAll(
      EMPTY_LOOP, resumed + RestoreAll(ResetAll(s.start, s.retryBlocked, onlyBlocked), seeds, s.retryBlocked))
    ensures Standing(l, d, s, seeds, turns, 0)
  {
    hide Fits;
    SeededFits(s, resumed, seeds, onlyBlocked);
    assert HandedBy(seeds, turns, 0) == seeds;
  }

  lemma RunOverIs(
    s: Setting, resumed: seq<Item>, seeds: seq<Item>, policy: Policy, script: Script, onlyBlocked: bool, l: Loop, d: Desk)
    requires Enough(script, policy)
    requires d == Seeded(ResetAll(s.start, s.retryBlocked, onlyBlocked), resumed, seeds, s.retryBlocked)
    requires l == AcceptAll(
      EMPTY_LOOP, resumed + RestoreAll(ResetAll(s.start, s.retryBlocked, onlyBlocked), seeds, s.retryBlocked))
    ensures RunOver(s, resumed, seeds, policy, script, onlyBlocked)
      == Pipeline.RunFrom(l, d, policy, script, 1, s.retryBlocked)
  {
  }

  lemma InputParts(s: Setting, resumed: seq<Item>, seeds: seq<Item>, policy: Policy, script: Script)
    requires RunInputs(s, resumed, seeds, policy, script)
    ensures Enough(script, policy) && ResumedFrom(resumed, s) && Candidates(s.owner, seeds)
    ensures TurnsOwned(s.owner, script.turns) && 0 <= policy.maxIterations
  {
  }

  lemma RunFitsFrom(
    s: Setting, resumed: seq<Item>, seeds: seq<Item>, policy: Policy, script: Script, onlyBlocked: bool, n: nat, e: Ended)
    requires RunInputs(s, resumed, seeds, policy, script) && n == 0
    requires e == RunOver(s, resumed, seeds, policy, script, onlyBlocked)
    ensures RunEndFits(e, s, seeds, script.turns)
  {
    hide RunOver, Pipeline.RunFrom, Seeded, RunInputs, Standing, RunEndFits, ResetAll, RestoreAll, AcceptAll, Enough;
    InputParts(s, resumed, seeds, policy, script);
    var loaded := ResetAll(s.start, s.retryBlocked, onlyBlocked);
    var l := AcceptAll(EMPTY_LOOP, resumed + RestoreAll(loaded, seeds, s.retryBlocked));
    var d := Seeded(loaded, resumed, seeds, s.retryBlocked);
    SeededStands(s, resumed, seeds, script.turns, onlyBlocked, l, d);
    RunOverIs(s, resumed, seeds, policy, script, onlyBlocked, l, d);
    RunFromFits(l, d, s, seeds, policy, script, n, e);
  }

  lemma RunFits(s: Setting, resumed: seq<Item>, seeds: seq<Item>, policy: Policy, script: Script, onlyBlocked: bool)
    requires RunInputs(s, resumed, seeds, policy, script)
    ensures RunEndFits(RunOver(s, resumed, seeds, policy, script, onlyBlocked), s, seeds, script.turns)
  {
    RunFitsFrom(s, resumed, seeds, policy, script, onlyBlocked, 0, RunOver(s, resumed, seeds, policy, script, onlyBlocked));
  }
}
