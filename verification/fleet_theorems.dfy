/** The guarantees of the fenced ledger, over every interleaving from an unused fence. */
module FleetTheorems {
  import opened Work
  import opened UpgradeLoop
  import opened Ledger
  import opened Fence
  import opened Fleet
  import opened FleetSafety

  /** A state reached from an unused fence by some interleaving. */
  ghost predicate Reached(s: State, maxCheckpoints: nat) {
    exists s0, actions :: Init(s0, maxCheckpoints) && Interleave(s0, actions, maxCheckpoints) == s
  }

  lemma ReachedInv(s: State, n: nat)
    requires n >= 1 && Reached(s, n)
    ensures Inv(s, n)
  {
    var s0, actions :| Init(s0, n) && Interleave(s0, actions, n) == s;
    InterleavingKeeps(s0, actions, n);
  }

  // ----- fencing

  /**
   * Every committed write carried the newest generation at its moment, so nothing written under a
   * token commits after a newer token was issued; committed generations never decrease; generations
   * are issued once each, without gaps, and the stored one counts them; no two runs share one.
   */
  lemma FencingIsMonotonic(s: State, n: nat)
    requires n >= 1 && Reached(s, n)
    ensures forall c :: c in s.commits ==> c.generation == c.newest
    ensures forall i, j :: 0 <= i < j < |s.commits| ==> s.commits[i].generation <= s.commits[j].generation
    ensures forall i :: 0 <= i < |s.issued| ==> s.issued[i] == i + 1
    ensures Newest(s) == |s.issued|
    ensures DistinctTokens(s.runners)
  {
    ReachedInv(s, n);
  }

  /** No committed checkpoint is lost: the control row holds the last of all of them, in order. */
  lemma NoCheckpointIsLost(s: State, n: nat)
    requires n >= 1 && Reached(s, n)
    ensures s.control.Some? ==> s.control.value.checkpoints == LastN(s.checkpoints, n)
    ensures s.control.None? ==> s.checkpoints == []
  {
    ReachedInv(s, n);
  }

  // ----- success is final

  predicate RecordedDone(s: State, f: Fingerprint) {
    f in s.records && s.records[f].state == SUCCEEDED
  }

  lemma SaveItemKeepsSuccess(s: State, r: RunnerId, g: Fingerprint, f: Fingerprint)
    requires Fits(s, r) && RecordedDone(s, f)
    ensures RecordedDone(StepSaveItem(s, r, g), f)
  {
    var x := s.runners[r];
    if x.phase.Saving? && g in x.phase.todo && g in x.copies && Current(s, x) && g == f {
      assert KeepsSuccess(x, f);
    }
  }

  lemma SaveLoadedKeepsSuccess(s: State, r: RunnerId, g: Fingerprint, f: Fingerprint)
    requires Fits(s, r) && RecordedDone(s, f)
    ensures RecordedDone(StepSaveLoaded(s, r, g), f)
  {
  }

  lemma RegisterKeepsSuccess(s: State, r: RunnerId, adopt: bool, committed: bool, f: Fingerprint)
    requires Fits(s, r) && RecordedDone(s, f)
    ensures RecordedDone(StepRegister(s, r, adopt), f) && RecordedDone(StepRegisterFails(s, r, committed), f)
  {
  }

  lemma OtherMovesWriteNoRecord(s: State, r: RunnerId, move: Move, n: nat)
    requires r in s.runners
    requires !move.SaveItem? && !move.SaveLoaded? && !move.Register? && !move.RegisterFails?
    ensures StepMove(s, r, move, n).records == s.records
  {
  }

  lemma MoveKeepsSuccess(s: State, r: RunnerId, move: Move, n: nat, f: Fingerprint)
    requires Fits(s, r) && RecordedDone(s, f)
    ensures RecordedDone(StepMove(s, r, move, n), f)
  {
    match move
    case SaveItem(g) => SaveItemKeepsSuccess(s, r, g, f);
    case SaveLoaded(g) => SaveLoadedKeepsSuccess(s, r, g, f);
    case Register(adopt) => RegisterKeepsSuccess(s, r, adopt, false, f);
    case RegisterFails(committed) => RegisterKeepsSuccess(s, r, false, committed, f);
    case _ => OtherMovesWriteNoRecord(s, r, move, n);
  }

  lemma StepKeepsSuccess(s: State, a: Action, n: nat, f: Fingerprint)
    requires Inv(s, n) && RecordedDone(s, f)
    ensures RecordedDone(Step(s, a, n), f)
  {
    if a.Do? && a.r in s.runners {
      assert Fits(s, a.r);
      MoveKeepsSuccess(s, a.r, a.move, n, f);
    }
  }

  lemma {:induction false} InterleaveSplit(s: State, front: seq<Action>, back: seq<Action>, n: nat)
    ensures Interleave(s, front + back, n) == Interleave(Interleave(s, front, n), back, n)
  {
    if back == [] {
      assert front + back == front;
    } else {
      var last := |back| - 1;
      assert (front + back)[..|front + back| - 1] == front + back[..last];
      InterleaveSplit(s, front, back[..last], n);
    }
  }

  lemma {:induction false} SuccessStays(s: State, actions: seq<Action>, n: nat, f: Fingerprint)
    requires Inv(s, n) && n >= 1 && RecordedDone(s, f)
    ensures RecordedDone(Interleave(s, actions, n), f) && Inv(Interleave(s, actions, n), n)
  {
    if actions != [] {
      var front := actions[..|actions| - 1];
      SuccessStays(s, front, n, f);
      StepKeepsSuccess(Interleave(s, front, n), actions[|actions| - 1], n, f);
      StepKeeps(Interleave(s, front, n), actions[|actions| - 1], n);
    }
  }

  /** Once a fingerprint is recorded as SUCCEEDED it stays so, through restarts, crashes and stale runs. */
  lemma SuccessIsFinal(s0: State, front: seq<Action>, back: seq<Action>, n: nat, f: Fingerprint)
    requires n >= 1 && Init(s0, n) && RecordedDone(Interleave(s0, front, n), f)
    ensures RecordedDone(Interleave(s0, front + back, n), f)
  {
    InterleavingKeeps(s0, front, n);
    InterleaveSplit(s0, front, back, n);
    SuccessStays(Interleave(s0, front, n), back, n, f);
  }

  /** Work recorded as SUCCEEDED is only ever executed by a run whose token is no longer the newest. */
  lemma DoneWorkRunsOnlyStale(s: State, n: nat, e: Execution)
    requires n >= 1 && Reached(s, n) && e in s.executions && e.stored == SUCCEEDED
    ensures e.generation < e.newest
  {
    ReachedInv(s, n);
  }

  // ----- stale runs

  /** Executions a run began after a newer token existed. */
  function StaleExecutions(es: seq<Execution>, r: RunnerId): nat {
    if es == [] then 0
    else
      var last := es[|es| - 1];
      StaleExecutions(es[..|es| - 1], r) + if last.runner == r && last.generation < last.newest then 1 else 0
  }

  ghost predicate StaleCounted(s: State) {
    forall r :: StaleExecutions(s.executions, r) == if r in s.runners then s.runners[r].staleRuns else 0
  }

  lemma AttemptStaleCounted(s: State, r: RunnerId, f: Fingerprint)
    requires r in s.runners && StaleCounted(s) && WellFormed(s, s.runners[r])
    ensures StaleCounted(StepAttempt(s, r, f))
  {
    var s' := StepAttempt(s, r, f);
    if s' != s {
      assert s'.executions[..|s'.executions| - 1] == s.executions;
    }
  }

  predicate TouchesOneRun(s: State, s': State, r: RunnerId) {
    s'.runners.Keys == s.runners.Keys && forall q :: q in s.runners && q != r ==> s'.runners[q] == s.runners[q]
  }

  lemma AcquisitionTouchesOneRun(s: State, r: RunnerId)
    requires r in s.runners
    ensures TouchesOneRun(s, StepReadControl(s, r), r) && TouchesOneRun(s, StepInsertControl(s, r), r)
  {
  }

  lemma StepTouchesOneRun(s: State, r: RunnerId, move: Move, n: nat)
    requires Shared(s, n) && n >= 1 && Fits(s, r)
    ensures TouchesOneRun(s, StepMove(s, r, move, n), r)
  {
    if Ordinary(move) { MoveShared(s, r, move, n); } else { AcquisitionTouchesOneRun(s, r); }
  }

  lemma IdleStaleCounted(s: State, s': State, r: RunnerId)
    requires r in s.runners && StaleCounted(s) && NoAttempt(s, s', r) && TouchesOneRun(s, s', r)
    ensures StaleCounted(s')
  {
  }

  lemma MoveStaleCounted(s: State, r: RunnerId, move: Move, n: nat)
    requires Shared(s, n) && n >= 1 && Fits(s, r) && StaleCounted(s)
    ensures StaleCounted(StepMove(s, r, move, n))
  {
    if move.Attempt? {
      AttemptStaleCounted(s, r, move.f);
    } else {
      StepTouchesOneRun(s, r, move, n);
      IdleStaleCounted(s, StepMove(s, r, move, n), r);
    }
  }

  lemma StepStaleCounted(s: State, a: Action, n: nat)
    requires Inv(s, n) && n >= 1 && StaleCounted(s)
    ensures StaleCounted(Step(s, a, n))
  {
    if a.Do? && a.r in s.runners {
      assert Fits(s, a.r);
      MoveStaleCounted(s, a.r, a.move, n);
    }
  }

  lemma {:induction false} InterleaveStaleCounted(s0: State, actions: seq<Action>, n: nat)
    requires n >= 1 && Init(s0, n)
    ensures StaleCounted(Interleave(s0, actions, n))
  {
    if actions != [] {
      var front := actions[..|actions| - 1];
      InterleaveStaleCounted(s0, front, n);
      InterleavingKeeps(s0, front, n);
      StepStaleCounted(Interleave(s0, front, n), actions[|actions| - 1], n);
    }
  }

  /** A run whose token has gone stale begins at most one more execution. */
  lemma StaleRunExecutesAtMostOnce(s: State, n: nat, r: RunnerId)
    requires n >= 1 && Reached(s, n)
    ensures StaleExecutions(s.executions, r) <= 1
  {
    var s0, actions :| Init(s0, n) && Interleave(s0, actions, n) == s;
    InterleavingKeeps(s0, actions, n);
    InterleaveStaleCounted(s0, actions, n);
    if r in s.runners { assert Fits(s, r); }
  }

  // ----- while no lock is lost

  /** The run that is alive holds the lock, and its token, if it has one, is the newest. */
  ghost predicate Exclusive(s: State) {
    && (forall r :: r in s.runners && Alive(s.runners[r]) ==>
          s.lock == Some(r) && (s.runners[r].generation >= 1 ==> Current(s, s.runners[r])))
    && (forall e :: e in s.executions ==> e.generation == e.newest)
  }

  /** The only run that can be alive makes a move: it stays the newest, and begins executions as such. */
  lemma OwnMoveExclusive(s: State, r: RunnerId, move: Move, n: nat)
    requires Inv(s, n) && Exclusive(s) && r in s.runners
    ensures
      var s' := StepMove(s, r, move, n);
      && r in s'.runners
      && (Alive(s'.runners[r]) ==>
            s'.lock == Some(r) && (s'.runners[r].generation >= 1 ==> Current(s', s'.runners[r])))
  {
    assert Fits(s, r);
    if Ordinary(move) { MoveFits(s, r, move, n); }
  }

  lemma AttemptExclusive(s: State, r: RunnerId, f: Fingerprint, n: nat)
    requires Inv(s, n) && Exclusive(s) && r in s.runners
    ensures forall e :: e in StepAttempt(s, r, f).executions ==> e.generation == e.newest
  {
    assert Fits(s, r);
  }

  lemma MoveExecutes(s: State, r: RunnerId, move: Move, n: nat)
    requires Inv(s, n) && Exclusive(s) && r in s.runners
    ensures forall e :: e in StepMove(s, r, move, n).executions ==> e.generation == e.newest
  {
    hide StepAttempt, Inv;
    if move.Attempt? { AttemptExclusive(s, r, move.f, n); }
  }

  lemma OtherExclusive(s: State, r: RunnerId, q: RunnerId, move: Move, n: nat)
    requires Inv(s, n) && n >= 1 && Exclusive(s) && r in s.runners && q != r
    ensures
      var s' := StepMove(s, r, move, n);
      q in s'.runners && Alive(s'.runners[q]) ==>
        s'.lock == Some(q) && (s'.runners[q].generation >= 1 ==> Current(s', s'.runners[q]))
  {
    assert Fits(s, r);
    hide StepMove, Alive, Current, Fits;
    StepTouchesOneRun(s, r, move, n);
    if q in s.runners && Alive(s.runners[q]) { DeadRunsStay(s, r, q, move, n); }
  }

  lemma MoveExclusive(s: State, r: RunnerId, move: Move, n: nat)
    requires Inv(s, n) && n >= 1 && Exclusive(s) && r in s.runners
    ensures Exclusive(StepMove(s, r, move, n))
  {
    hide StepMove, Alive, Current, Inv;
    MoveExecutes(s, r, move, n);
    OwnMoveExclusive(s, r, move, n);
    forall q | q != r { OtherExclusive(s, r, q, move, n); }
  }

  /** While another run is alive, no move of r is enabled. */
  lemma DeadRunsStay(s: State, r: RunnerId, q: RunnerId, move: Move, n: nat)
    requires Exclusive(s) && r in s.runners && q in s.runners && q != r && Alive(s.runners[q])
    ensures StepMove(s, r, move, n) == s
  {
    assert !Alive(s.runners[r]);
  }

  lemma StepExclusive(s: State, a: Action, n: nat)
    requires Inv(s, n) && n >= 1 && Exclusive(s) && a != LoseLock
    ensures Exclusive(Step(s, a, n))
  {
    if a.Do? && a.r in s.runners {
      MoveExclusive(s, a.r, a.move, n);
    }
  }

  lemma {:induction false} InterleaveExclusive(s0: State, actions: seq<Action>, n: nat)
    requires n >= 1 && Init(s0, n) && LoseLock !in actions
    ensures Exclusive(Interleave(s0, actions, n))
  {
    if actions != [] {
      var front := actions[..|actions| - 1];
      InterleaveExclusive(s0, front, n);
      InterleavingKeeps(s0, front, n);
      StepExclusive(Interleave(s0, front, n), actions[|actions| - 1], n);
    }
  }

  /** As long as no run loses its lock, work recorded as SUCCEEDED is never executed again, crashes or not. */
  lemma ExclusiveRunsNeverRepeatSuccess(s0: State, actions: seq<Action>, n: nat, e: Execution)
    requires n >= 1 && Init(s0, n) && LoseLock !in actions
    requires e in Interleave(s0, actions, n).executions
    ensures e.stored != SUCCEEDED
  {
    InterleaveExclusive(s0, actions, n);
    InterleavingKeeps(s0, actions, n);
  }
}
