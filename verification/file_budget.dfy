/** How often the runs over one ledger file execute one piece of work, however they end. */
module FileBudget {
  import opened Work
  import opened UpgradeLoop
  import opened Ledger
  import opened LedgerRefinement
  import opened Fleet
  import opened FleetBudget
  import FleetSafety
  import opened FleetSimulation
  import opened PipelineTheorems
  import L = PipelineLaws
  import P = Pipeline
  import R = PipelineRuns

  // ----- a run over the file does what it would do over the table

  /** The desks differ at most in which unfinished work the ledger holds as interrupted. */
  predicate Alike(d: P.Desk, d': P.Desk) {
    Abstract(d.records) == Abstract(d'.records) && d.copies == d'.copies
  }

  lemma {:induction false} RegisterAlike(m: Records, m': Records, candidates: seq<Item>, retryBlocked: bool)
    requires Abstract(m) == Abstract(m')
    ensures Abstract(P.RegisterAll(m, candidates, retryBlocked)) == Abstract(P.RegisterAll(m', candidates, retryBlocked))
    ensures P.RestoreAll(m, candidates, retryBlocked) == P.RestoreAll(m', candidates, retryBlocked)
  {
    if candidates != [] {
      var front, last := candidates[..|candidates| - 1], candidates[|candidates| - 1];
      RegisterAlike(m, m', front, retryBlocked);
      RestoreAbstract(P.RegisterAll(m, front, retryBlocked), last, retryBlocked);
      RestoreAbstract(P.RegisterAll(m', front, retryBlocked), last, retryBlocked);
    }
  }

  lemma SeenAlike(d: P.Desk, d': P.Desk, turn: P.SourceTurn, retryBlocked: bool)
    requires Alike(d, d')
    ensures P.Failure(d, turn, retryBlocked) == P.Failure(d', turn, retryBlocked)
    ensures P.Seen(d, turn, retryBlocked) == P.Seen(d', turn, retryBlocked)
    ensures Alike(P.Discover(d, turn.candidates, retryBlocked), P.Discover(d', turn.candidates, retryBlocked))
  {
    RegisterAlike(d.records, d'.records, turn.candidates, retryBlocked);
    if turn.refused.Some? {
      RestoreAbstract(P.RegisterAll(d.records, turn.candidates, retryBlocked), turn.refused.value.item, retryBlocked);
      RestoreAbstract(P.RegisterAll(d'.records, turn.candidates, retryBlocked), turn.refused.value.item, retryBlocked);
    }
  }

  lemma {:induction false} RecordAlike(d: P.Desk, d': P.Desk, cps: seq<Checkpoint>)
    requires Alike(d, d')
    ensures Alike(P.Record(d, cps), P.Record(d', cps))
  {
    if cps != [] {
      var front, cp := cps[..|cps| - 1], cps[|cps| - 1];
      RecordAlike(d, d', front);
      CheckpointAbstract(P.Record(d, front).records, cp, P.Record(d, front).copies);
      CheckpointAbstract(P.Record(d', front).records, cp, P.Record(d', front).copies);
    }
  }

  /** Two runs that end in the same way. */
  predicate EndsAlike(e: P.Ended, e': P.Ended) {
    && e.loop == e'.loop && Alike(e.desk, e'.desk) && e.Ended? == e'.Ended?
    && if e.Ended? then e.report == e'.report else e.iterations == e'.iterations
  }

  lemma KeepAlike(l: Loop, d: P.Desk, d': P.Desk, turn: P.SourceTurn, retryBlocked: bool, result: TurnResult)
    requires Alike(d, d') && |l.items| == |l.accepted|
    ensures Alike(P.Keep(l, d, turn, retryBlocked, result), P.Keep(l, d', turn, retryBlocked, result))
  {
    SeenAlike(d, d', turn, retryBlocked);
  }

  lemma FinishAlike(
    l: Loop, d: P.Desk, d': P.Desk, iterations: nat, state: LoopState, reason: string, lastSaving: Access)
    requires Alike(d, d')
    ensures EndsAlike(P.Finish(l, d, iterations, state, reason, lastSaving), P.Finish(l, d', iterations, state, reason, lastSaving))
  {
    RecordAlike(d, d', Conclude(l, iterations, state, reason, []).checkpoints);
  }

  lemma BrokenAlike(l: Loop, iterations: nat, d: P.Desk, d': P.Desk)
    requires Alike(d, d')
    ensures EndsAlike(P.Broken(l, iterations, d), P.Broken(l, iterations, d'))
  {
  }

  lemma TurnAlike(
    l: Loop, d: P.Desk, d': P.Desk, policy: Policy, turn: P.SourceTurn, iteration: nat, retryBlocked: bool,
    result: TurnResult, kept: P.Desk, kept': P.Desk)
    requires Alike(d, d') && |l.items| == |l.accepted|
    requires result == OneTurn(l, policy, P.Seen(d, turn, retryBlocked), iteration)
    requires kept == P.Keep(l, d, turn, retryBlocked, result) && kept' == P.Keep(l, d', turn, retryBlocked, result)
    ensures result == OneTurn(l, policy, P.Seen(d', turn, retryBlocked), iteration)
    ensures Alike(kept, kept') && Alike(P.Record(kept, result.checkpoints), P.Record(kept', result.checkpoints))
  {
    SeenAlike(d, d', turn, retryBlocked);
    KeepAlike(l, d, d', turn, retryBlocked, result);
    RecordAlike(kept, kept', result.checkpoints);
  }

  /** One iteration from alike desks: both runs are over after it, or stand alike. */
  lemma StepAlike(
    l: Loop, d: P.Desk, d': P.Desk, policy: Policy, script: P.Script, n: nat, retryBlocked: bool, e: P.Ended, e': P.Ended)
    returns (over: bool, l1: Loop, d1: P.Desk, d1': P.Desk)
    requires P.Enough(script, policy) && n < policy.maxIterations && |l.items| == |l.accepted| && Alike(d, d')
    requires e == P.RunFrom(l, d, policy, script, n + 1, retryBlocked)
    requires e' == P.RunFrom(l, d', policy, script, n + 1, retryBlocked)
    ensures over ==> EndsAlike(e, e')
    ensures !over ==>
      && Alike(d1, d1') && |l1.items| == |l1.accepted|
      && e == P.RunFrom(l1, d1, policy, script, n + 2, retryBlocked)
      && e' == P.RunFrom(l1, d1', policy, script, n + 2, retryBlocked)
  {
    hide P.RunFrom, P.Breaks, P.Finish, P.Seen, P.Keep, P.Record, OneTurn, Alike, EndsAlike;
    R.RunFromCases(l, d, policy, script, n + 1, retryBlocked, e);
    R.RunFromCases(l, d', policy, script, n + 1, retryBlocked, e');
    var turn := script.turns[n];
    var result := OneTurn(l, policy, P.Seen(d, turn, retryBlocked), n + 1);
    var kept, kept' := P.Keep(l, d, turn, retryBlocked, result), P.Keep(l, d', turn, retryBlocked, result);
    TurnAlike(l, d, d', policy, turn, n + 1, retryBlocked, result, kept, kept');
    over := P.Breaks(turn, result) || result.Stop?;
    l1, d1, d1' := result.loop, P.Record(kept, result.checkpoints), P.Record(kept', result.checkpoints);
    if P.Breaks(turn, result) {
      BrokenAlike(result.loop, n + 1, kept, kept');
    } else if result.Stop? {
      FinishAlike(l1, d1, d1', n + 1, result.state, result.reason, script.lastSaving);
    }
  }

  lemma {:induction false} RunAlike(
    l: Loop, d: P.Desk, d': P.Desk, policy: Policy, script: P.Script, n: nat, retryBlocked: bool, e: P.Ended, e': P.Ended)
    requires P.Enough(script, policy) && n <= policy.maxIterations && |l.items| == |l.accepted| && Alike(d, d')
    requires e == P.RunFrom(l, d, policy, script, n + 1, retryBlocked)
    requires e' == P.RunFrom(l, d', policy, script, n + 1, retryBlocked)
    ensures EndsAlike(e, e')
    decreases policy.maxIterations - n
  {
    hide *;
    if n == policy.maxIterations {
      R.RunFromCases(l, d, policy, script, n + 1, retryBlocked, e);
      R.RunFromCases(l, d', policy, script, n + 1, retryBlocked, e');
      FinishAlike(l, d, d', n, LOOP_RUNNING, "", script.lastSaving);
    } else {
      var over, l1, d1, d1' := StepAlike(l, d, d', policy, script, n, retryBlocked, e, e');
      if !over { RunAlike(l1, d1, d1', policy, script, n + 1, retryBlocked, e, e'); }
    }
  }

  /** The setting of the same run over a table. */
  function OverTable(run: FileRun, table: Records): L.Setting {
    run.s.(start := table)
  }

  ghost predicate Runnable(run: FileRun) {
    R.RunInputs(run.s, run.resumed, run.seeds, run.policy, run.script)
  }

  lemma AbstractAt(m: Records, m': Records, f: Fingerprint)
    requires Abstract(m) == Abstract(m')
    ensures f in m <==> f in m'
    ensures f in m ==> Settled(m[f]) == Settled(m'[f])
  {
    assert f in m <==> f in Abstract(m);
    assert f in m' <==> f in Abstract(m');
    if f in m { assert Abstract(m)[f] == Abstract(m')[f]; }
  }

  /** What the run may assume of the file it may assume of the table. */
  lemma TableInputs(run: FileRun, table: Records)
    requires Runnable(run) && Abstract(table) == Abstract(run.s.start)
    ensures R.RunInputs(OverTable(run, table), run.resumed, run.seeds, run.policy, run.script)
  {
    LoadAbstract(table, run.s.retryBlocked, false);
    LoadAbstract(run.s.start, run.s.retryBlocked, false);
    forall f | f in table ensures table[f].fingerprint == f && L.Owned(run.s.owner, table[f]) {
      AbstractAt(table, run.s.start, f);
      assert Settled(table[f]).itemId == table[f].itemId && Settled(run.s.start[f]).itemId == run.s.start[f].itemId;
    }
  }

  lemma SeededAlike(m: Records, m': Records, resumed: seq<Item>, seeds: seq<Item>, retryBlocked: bool)
    requires Abstract(m) == Abstract(m')
    ensures P.RestoreAll(m, seeds, retryBlocked) == P.RestoreAll(m', seeds, retryBlocked)
    ensures Alike(P.Seeded(m, resumed, seeds, retryBlocked), P.Seeded(m', resumed, seeds, retryBlocked))
  {
    RegisterAlike(m, m', seeds, retryBlocked);
  }

  lemma LoadedAlike(m: Records, m': Records, retryBlocked: bool)
    requires Abstract(m) == Abstract(m')
    ensures Abstract(ResetAll(m, retryBlocked, true)) == Abstract(ResetAll(m', retryBlocked, false))
  {
    LoadAbstract(m, retryBlocked, true);
    LoadAbstract(m', retryBlocked, false);
  }

  /** A run over the file ends as it does over a table with the same work. */
  lemma SameOverTable(run: FileRun, table: Records)
    requires Runnable(run) && Abstract(table) == Abstract(run.s.start)
    ensures P.Enough(run.script, run.policy)
    ensures EndsAlike(
      run.Over(), R.RunOver(OverTable(run, table), run.resumed, run.seeds, run.policy, run.script, false))
  {
    var retry := run.s.retryBlocked;
    var m, m' := ResetAll(run.s.start, retry, true), ResetAll(table, retry, false);
    LoadedAlike(run.s.start, table, retry);
    var l := AcceptAll(EMPTY_LOOP, run.resumed + P.RestoreAll(m, run.seeds, retry));
    SeededAlike(m, m', run.resumed, run.seeds, retry);
    SeededEndsAlike(
      run, table, l, P.Seeded(m, run.resumed, run.seeds, retry), P.Seeded(m', run.resumed, run.seeds, retry), 0);
  }

  lemma SeededEndsAlike(run: FileRun, table: Records, l: Loop, d: P.Desk, d': P.Desk, n: nat)
    requires P.Enough(run.script, run.policy) && n == 0 && |l.items| == |l.accepted| && Alike(d, d')
    requires
      var m := ResetAll(run.s.start, run.s.retryBlocked, true);
      && l == AcceptAll(EMPTY_LOOP, run.resumed + P.RestoreAll(m, run.seeds, run.s.retryBlocked))
      && d == P.Seeded(m, run.resumed, run.seeds, run.s.retryBlocked)
    requires
      var m := ResetAll(table, run.s.retryBlocked, false);
      && l == AcceptAll(EMPTY_LOOP, run.resumed + P.RestoreAll(m, run.seeds, run.s.retryBlocked))
      && d' == P.Seeded(m, run.resumed, run.seeds, run.s.retryBlocked)
    ensures EndsAlike(
      run.Over(), R.RunOver(OverTable(run, table), run.resumed, run.seeds, run.policy, run.script, false))
  {
    hide P.RunFrom, R.RunOver, P.Seeded, Alike, EndsAlike, AcceptAll, ResetAll;
    var w := OverTable(run, table);
    R.RunOverIs(run.s, run.resumed, run.seeds, run.policy, run.script, true, l, d);
    R.RunOverIs(w, run.resumed, run.seeds, run.policy, run.script, false, l, d');
    RunAlike(
      l, d, d', run.policy, run.script, n, w.retryBlocked, run.Over(),
      R.RunOver(w, run.resumed, run.seeds, run.policy, run.script, false));
  }

  // ----- the actions of one run

  /** Compared with s0 at most run r differs, and the lock is free, or held by r alive. */
  predicate Alone(s0: State, s: State, r: RunnerId) {
    && s.runners.Keys - {r} == s0.runners.Keys
    && (forall q :: q in s0.runners ==> q in s.runners && s.runners[q] == s0.runners[q])
    && (s.lock == None || (s.lock == Some(r) && r in s.runners && Alive(s.runners[r])))
  }

  /** A move changes its run only, and frees the lock when it ends it. */
  predicate Solo(s: State, s': State, r: RunnerId)
    requires r in s.runners
  {
    && r in s'.runners && s'.runners == s.runners[r := s'.runners[r]]
    && (s' == s || s'.lock == s.lock || s'.lock == None)
    && (Alive(s.runners[r]) && !Alive(s'.runners[r]) ==> s'.lock != Some(r))
    && (!Alive(s.runners[r]) ==> s' == s)
  }

  /** Records stay, and with them the attempts they came with. */
  predicate BaseStays(s: State, s': State) {
    forall f :: f in s.records && f in s.base ==> f in s'.records && f in s'.base && s'.base[f] == s.base[f]
  }

  lemma SaveSolo(s: State, r: RunnerId, move: Move, n: nat)
    requires r in s.runners && (move.SaveLoaded? || move.SaveItem?)
    ensures Solo(s, StepMove(s, r, move, n), r) && BaseStays(s, StepMove(s, r, move, n))
  {
    hide Current, ToStore, Reopen, Unblocks, Retries;
  }

  lemma RegisterSolo(s: State, r: RunnerId, move: Move, n: nat)
    requires r in s.runners && (move.Register? || move.RegisterFails?)
    ensures Solo(s, StepMove(s, r, move, n), r) && BaseStays(s, StepMove(s, r, move, n))
  {
    hide Current, Reopen, Unblocks, Retries;
  }

  lemma TurnSolo(s: State, r: RunnerId, move: Move, n: nat)
    requires r in s.runners && (move.Attempt? || move.Settle? || move.Lookup? || move.Stop? || move.Crash?)
    ensures Solo(s, StepMove(s, r, move, n), r) && BaseStays(s, StepMove(s, r, move, n))
  {
    hide Current, Reopen, Begin, Judge, LastError;
  }

  lemma TokenSolo(s: State, r: RunnerId, move: Move, n: nat)
    requires r in s.runners && (move.ReadControl? || move.InsertControl? || move.ListTasks? || move.LoadDone?)
    ensures Solo(s, StepMove(s, r, move, n), r) && BaseStays(s, StepMove(s, r, move, n))
  {
    hide Current, Resumable;
  }

  lemma ControlSolo(s: State, r: RunnerId, move: Move, n: nat)
    requires r in s.runners && (move.ReadHistory? || move.SaveControl?)
    ensures Solo(s, StepMove(s, r, move, n), r) && BaseStays(s, StepMove(s, r, move, n))
  {
    hide Current, LastN;
  }

  lemma MoveSolo(s: State, r: RunnerId, move: Move, n: nat)
    requires r in s.runners
    ensures Solo(s, StepMove(s, r, move, n), r) && BaseStays(s, StepMove(s, r, move, n))
  {
    hide Solo, BaseStays, StepMove;
    if move.SaveLoaded? || move.SaveItem? {
      SaveSolo(s, r, move, n);
    } else if move.Register? || move.RegisterFails? {
      RegisterSolo(s, r, move, n);
    } else if move.Attempt? || move.Settle? || move.Lookup? || move.Stop? || move.Crash? {
      TurnSolo(s, r, move, n);
    } else if move.ReadHistory? || move.SaveControl? {
      ControlSolo(s, r, move, n);
    } else {
      TokenSolo(s, r, move, n);
    }
  }

  lemma {:induction false} StaysAlone(s0: State, actions: seq<Action>, r: RunnerId, retryBlocked: bool, n: nat)
    requires OnlyBy(actions, r, retryBlocked) && s0.lock == None && r !in s0.runners
    ensures Alone(s0, Interleave(s0, actions, n), r) && BaseStays(s0, Interleave(s0, actions, n))
  {
    hide StepMove;
    if actions != [] {
      var front, a := actions[..|actions| - 1], actions[|actions| - 1];
      StaysAlone(s0, front, r, retryBlocked, n);
      var s := Interleave(s0, front, n);
      assert a in actions;
      if a.Do? && a.r in s.runners { MoveSolo(s, r, a.move, n); }
    }
  }

  lemma {:induction false} InterleaveMore(s0: State, actions: seq<Action>, more: seq<Action>, n: nat)
    ensures Interleave(s0, actions + more, n) == Interleave(Interleave(s0, actions, n), more, n)
  {
    if more == [] {
      assert actions + more == actions;
    } else {
      var front := more[..|more| - 1];
      InterleaveMore(s0, actions, front, n);
      assert (actions + more)[..|actions + more| - 1] == actions + front;
    }
  }

  // ----- counting executions

  /** How many attempts the records tell of work f. */
  function Attempts(records: seq<IterationRecord>, owner: L.Owners, f: Fingerprint): nat {
    if records == [] then 0
    else
      var id := records[|records| - 1].itemId;
      Attempts(records[..|records| - 1], owner, f) + if id in owner && owner[id] == f then 1 else 0
  }

  lemma {:induction false} ToldCounted(
    es0: seq<Execution>, es: seq<Execution>, r: RunnerId, records: seq<IterationRecord>, owner: L.Owners, f: Fingerprint)
    requires Tells(es0, es, r, records, owner)
    ensures Runs(es, f) == Runs(es0, f) + Attempts(records, owner, f)
  {
    if records == [] {
      assert es == es0;
    } else {
      var front, before := records[..|records| - 1], es[..|es| - 1];
      forall k | 0 <= k < |front| ensures TellsAt(es0, before, r, front, owner, k) {
        assert TellsAt(es0, es, r, records, owner, k);
      }
      ToldCounted(es0, before, r, front, owner, f);
      assert TellsAt(es0, es, r, records, owner, |front|);
    }
  }

  /** The attempts of the first k runs. */
  ghost function AllAttempts(runs: seq<FileRun>, k: nat, f: Fingerprint): nat
    requires OneAfterAnother(runs) && k <= |runs|
  {
    if k == 0 then 0
    else AllAttempts(runs, k - 1, f) + Attempts(runs[k - 1].Over().loop.records, runs[k - 1].s.owner, f)
  }

  /** How many of them were broken off. */
  ghost function BrokenOff(runs: seq<FileRun>, k: nat): nat
    requires OneAfterAnother(runs) && k <= |runs|
  {
    if k == 0 then 0 else BrokenOff(runs, k - 1) + if runs[k - 1].Over().Broken? then 1 else 0
  }

  /** What is in the file after them. */
  ghost function FileAfter(runs: seq<FileRun>, k: nat): Records
    requires OneAfterAnother(runs) && runs != [] && k <= |runs|
  {
    if k == 0 then runs[0].s.start else runs[k - 1].Over().desk.records
  }

  /** The pipeline passes no rollback, and these runs do not retry blocked work. */
  predicate Careful(runs: seq<FileRun>) {
    forall i :: 0 <= i < |runs| ==> !runs[i].s.retryBlocked && NeverRollsBack(runs[i].script.turns)
  }

  // ----- all runs

  /** The machine after k runs over the file: a table with the same work, the same executions, and no run alive. */
  ghost predicate Replays(runs: seq<FileRun>, k: nat, s: State)
    requires OneAfterAnother(runs) && runs != [] && k <= |runs|
  {
    && s.lock == None && (forall q: RunnerId :: q in s.runners <==> q < k)
    && Abstract(s.records) == Abstract(FileAfter(runs, k))
    && (forall f :: Runs(s.executions, f) == AllAttempts(runs, k, f))
    && |Unended(s.runners)| == BrokenOff(runs, k)
  }

  lemma OneMoreEnded(before: map<RunnerId, Runner>, after: map<RunnerId, Runner>, r: RunnerId)
    requires r !in before && r in after
    requires forall q :: q in after <==> q in before || q == r
    requires forall q :: q in before ==> q in after && after[q] == before[q]
    ensures |Unended(after)| == |Unended(before)| + if after[r].phase != Finished then 1 else 0
  {
    forall q ensures q in Unended(after) <==> q in Unended(before) || (q == r && after[r].phase != Finished) {
      if q in before { assert after[q] == before[q]; }
    }
    assert r !in Unended(before);
    if after[r].phase != Finished {
      assert Unended(after) == Unended(before) + {r};
    } else {
      assert Unended(after) == Unended(before);
    }
  }

  lemma NeverRetriesMore(actions: seq<Action>, more: seq<Action>, r: RunnerId)
    requires NeverRetries(actions) && OnlyBy(more, r, false)
    ensures NeverRetries(actions + more)
  {
  }

  lemma Unlocked(s: State, s': State, r: RunnerId)
    requires Alone(s, s', r) && r in s'.runners && !Alive(s'.runners[r]) && r !in s.runners
    ensures s'.lock == None && (forall q :: q in s'.runners <==> q in s.runners || q == r)
    ensures |Unended(s'.runners)| == |Unended(s.runners)| + if s'.runners[r].phase != Finished then 1 else 0
  {
    OneMoreEnded(s.runners, s'.runners, r);
  }

  lemma AttemptsCounted(runs: seq<FileRun>, k: nat, s: State, s': State, e: P.Ended, f: Fingerprint)
    requires OneAfterAnother(runs) && k < |runs| && Runs(s.executions, f) == AllAttempts(runs, k, f)
    requires RunDone(s', k, e, s.executions, runs[k].s.owner) && e.loop == runs[k].Over().loop
    ensures Runs(s'.executions, f) == AllAttempts(runs, k + 1, f)
  {
    hide OneAfterAnother, Tells;
    ToldCounted(s.executions, s'.executions, k, e.loop.records, runs[k].s.owner, f);
  }

  lemma EndCounted(runs: seq<FileRun>, k: nat, s: State, s': State, e: P.Ended)
    requires OneAfterAnother(runs) && k < |runs| && k !in s.runners && |Unended(s.runners)| == BrokenOff(runs, k)
    requires Alone(s, s', k) && RunDone(s', k, e, s.executions, runs[k].s.owner) && e.Ended? == runs[k].Over().Ended?
    ensures s'.lock == None && (forall q: RunnerId :: q in s'.runners <==> q in s.runners || q == k)
    ensures |Unended(s'.runners)| == BrokenOff(runs, k + 1)
  {
    hide OneAfterAnother, Tells, Unended, Alone;
    Unlocked(s, s', k);
  }

  lemma RecordsCounted(runs: seq<FileRun>, k: nat, s: State, s': State, e: P.Ended)
    requires OneAfterAnother(runs) && k < |runs|
    requires RunDone(s', k, e, s.executions, runs[k].s.owner) && EndsAlike(runs[k].Over(), e)
    ensures Abstract(s'.records) == Abstract(FileAfter(runs, k + 1))
    ensures e.loop == runs[k].Over().loop && e.Ended? == runs[k].Over().Ended?
  {
    hide Tells, Abstract, R.RunOver;
  }

  lemma RunCounted(runs: seq<FileRun>, k: nat, s: State, s': State, e: P.Ended)
    requires OneAfterAnother(runs) && k < |runs| && Replays(runs, k, s) && Alone(s, s', k)
    requires RunDone(s', k, e, s.executions, runs[k].s.owner) && EndsAlike(runs[k].Over(), e)
    ensures Replays(runs, k + 1, s')
  {
    hide OneAfterAnother, Unended, Alone, Abstract, Runs, AllAttempts, BrokenOff, Tells, FileAfter, RunDone, EndsAlike;
    RecordsCounted(runs, k, s, s', e);
    forall f ensures Runs(s'.executions, f) == AllAttempts(runs, k + 1, f) {
      AttemptsCounted(runs, k, s, s', e, f);
    }
    EndCounted(runs, k, s, s', e);
  }

  lemma RunAt(runs: seq<FileRun>, k: nat, s: State)
    requires OneAfterAnother(runs) && k < |runs| && Careful(runs) && Replays(runs, k, s)
    ensures Runnable(runs[k]) && Abstract(s.records) == Abstract(runs[k].s.start)
    ensures !runs[k].s.retryBlocked && NeverRollsBack(runs[k].script.turns) && s.lock == None && k !in s.runners
  {
  }

  /** One more run over the file, replayed over the table. */
  lemma RunReplayed(runs: seq<FileRun>, k: nat, s: State, n: nat)
    returns (more: seq<Action>, s': State)
    requires OneAfterAnother(runs) && k < |runs| && Careful(runs) && Replays(runs, k, s)
    ensures s' == Interleave(s, more, n) && OnlyBy(more, k, false) && Replays(runs, k + 1, s') && BaseStays(s, s')
  {
    var run, w := runs[k], OverTable(runs[k], s.records);
    RunAt(runs, k, s);
    assert w.owner == run.s.owner && w.start == s.records && !w.retryBlocked;
    hide *;
    SameOverTable(run, s.records);
    TableInputs(run, s.records);
    more := RunSimulated(s, k, w, run.resumed, run.seeds, run.policy, run.script, n);
    s' := Interleave(s, more, n);
    StaysAlone(s, more, k, false, n);
    RunCounted(runs, k, s, s', R.RunOver(w, run.resumed, run.seeds, run.policy, run.script, false));
  }

  lemma NothingReplayed(runs: seq<FileRun>, k: nat, s0: State, n: nat)
    requires OneAfterAnother(runs) && runs != [] && Init(s0, n) && s0.records == runs[0].s.start && k == 0
    ensures Replays(runs, k, s0)
  {
    hide OneAfterAnother, Abstract;
    assert Unended(s0.runners) == {};
    assert forall q: RunnerId :: q in s0.runners <==> q < k;
    assert forall f :: Runs(s0.executions, f) == 0;
  }

  /** Any number of runs over one file are an interleaving of the machine. */
  lemma {:induction false} RunsReplayed(runs: seq<FileRun>, k: nat, s0: State, n: nat)
    returns (actions: seq<Action>)
    requires OneAfterAnother(runs) && runs != [] && k <= |runs| && Careful(runs)
    requires Init(s0, n) && s0.records == runs[0].s.start
    ensures Replays(runs, k, Interleave(s0, actions, n)) && NeverRetries(actions)
    ensures BaseStays(s0, Interleave(s0, actions, n))
  {
    hide Replays, Init, OneAfterAnother, Careful;
    if k == 0 {
      actions := [];
      NothingReplayed(runs, k, s0, n);
    } else {
      actions := RunsReplayed(runs, k - 1, s0, n);
      var more, s' := RunReplayed(runs, k - 1, Interleave(s0, actions, n), n);
      InterleaveMore(s0, actions, more, n);
      NeverRetriesMore(actions, more, k - 1);
      actions := actions + more;
    }
  }

  /** The empty machine over a table with these records. */
  function Machine(m: Records): State {
    State(m, None, None, map[], [], [], [], [], map f | f in m :: m[f].attempts, map[])
  }

  /** The attempts work f came with. */
  ghost function CameWith(runs: seq<FileRun>, f: Fingerprint): nat
    requires runs != []
  {
    if f in runs[0].s.start then runs[0].s.start[f].attempts else 0
  }

  /**
   * All runs over one ledger file, however they end, execute one piece of work at most as often as its
   * budget allows, plus once for every run that was broken off; work without a record is never executed.
   */
  lemma FileExecutionsBounded(runs: seq<FileRun>, f: Fingerprint)
    requires OneAfterAnother(runs) && runs != [] && Careful(runs)
    ensures
      var m, executed, broken := FileAfter(runs, |runs|), AllAttempts(runs, |runs|, f), BrokenOff(runs, |runs|);
      if f !in m then executed == 0
      else
        && executed <= Max(1, m[f].maxAttempts - CameWith(runs, f)) + broken
        && (f in runs[0].s.start ==>
              m[f].attempts - CameWith(runs, f) <= executed <= m[f].attempts - CameWith(runs, f) + broken)
  {
    var m := FileAfter(runs, |runs|);
    var s0, n := Machine(runs[0].s.start), 1;
    assert Init(s0, n) by { assert Runnable(runs[0]); }
    var actions := RunsReplayed(runs, |runs|, s0, n);
    ExecutionsBounded(s0, actions, n, f);
    AbstractAt(Interleave(s0, actions, n).records, m, f);
    WaitingAmongBroken(s0, actions, n, f);
  }

  lemma WaitingAmongBroken(s0: State, actions: seq<Action>, n: nat, f: Fingerprint)
    requires n >= 1 && Init(s0, n)
    ensures |Waiting(Interleave(s0, actions, n).runners, f)| <= |Unended(Interleave(s0, actions, n).runners)|
  {
    FleetSafety.InterleavingKeeps(s0, actions, n);
    WaitingUnended(Interleave(s0, actions, n), n, f);
  }
}
