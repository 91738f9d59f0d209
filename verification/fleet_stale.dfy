/** When exactly a run that lost its lock executes work another run has finished. */
module FleetStale {
  import opened Work
  import opened UpgradeLoop
  import opened Ledger
  import opened Fence
  import opened Fleet
  import opened FleetSafety
  import opened FleetTheorems

  /** The commit stored f as SUCCEEDED. */
  predicate StoresDone(c: Commit, f: Fingerprint) {
    c.stored.Some? && c.stored.value.fingerprint == f && c.stored.value.state == SUCCEEDED
  }

  /** A run with a newer generation than g stored f as SUCCEEDED. */
  ghost predicate DoneSince(commits: seq<Commit>, g: nat, f: Fingerprint) {
    exists i :: 0 <= i < |commits| && commits[i].generation > g && StoresDone(commits[i], f)
  }

  /** Work a run would attempt without storing it first. */
  predicate MayRun(x: Runner, f: Fingerprint) {
    f in x.loop && x.loop[f].state == PENDING && !InTodo(x, f)
  }

  /** Whatever the run would attempt although it is finished was finished under a newer generation. */
  ghost predicate Overtaken(s: State, x: Runner) {
    Alive(x) ==> forall f :: MayRun(x, f) && RecordedDone(s, f) ==> DoneSince(s.commits, x.generation, f)
  }

  /** What was ever stored as SUCCEEDED is recorded so. */
  ghost predicate DoneStays(s: State) {
    forall i, f :: 0 <= i < |s.commits| && StoresDone(s.commits[i], f) ==> RecordedDone(s, f)
  }

  ghost predicate Explained(s: State) {
    DoneStays(s) && forall r :: r in s.runners ==> Overtaken(s, s.runners[r])
  }

  // ----- what a move writes

  /** Nothing is written, or one commit is, by the newest generation. */
  ghost predicate WritesOne(s: State, s': State, x: Runner, stored: Option<Item>) {
    || (s'.commits == s.commits && s'.records == s.records)
    || (&& Current(s, x) && s'.commits == s.commits + [Commit(x.generation, Newest(s), stored)]
        && s'.records == if stored.Some? then s.records[stored.value.fingerprint := stored.value] else s.records)
  }

  lemma SaveControlWritesOne(s: State, r: RunnerId, checkpoint: Checkpoint, n: nat)
    requires r in s.runners
    ensures WritesOne(s, StepSaveControl(s, r, checkpoint, n), s.runners[r], None)
  {
    hide LastN;
  }

  lemma MoveWritesOne(s: State, r: RunnerId, move: Move, n: nat)
    requires Shared(s, n) && n >= 1 && Fits(s, r)
    ensures WritesOne(s, StepMove(s, r, move, n), s.runners[r], if move.SaveControl? then None else ItemOf(s.runners[r], move))
  {
    var x := s.runners[r];
    hide Shared, Fits, MovesOnly;
    if move.SaveControl? {
      SaveControlWritesOne(s, r, move.checkpoint, n);
    } else if move.SaveLoaded? || move.Register? || move.RegisterFails? || move.SaveItem? {
      StoresItem(s, r, move, n);
    } else {
      OthersWriteNothing(s, r, move, n);
    }
  }

  lemma TurnsCommitNothing(s: State, r: RunnerId, move: Move, n: nat)
    requires r in s.runners && (move.Attempt? || move.Settle? || move.Lookup? || move.ListTasks? || move.ReadHistory?)
    ensures StepMove(s, r, move, n).commits == s.commits && StepMove(s, r, move, n).records == s.records
  {
    hide NoAttempt, Orderly, BeginAttempt, SettleAttempt, Resumable, Reopen;
  }

  lemma OthersWriteNothing(s: State, r: RunnerId, move: Move, n: nat)
    requires r in s.runners && !move.SaveControl?
    requires !move.SaveLoaded? && !move.Register? && !move.RegisterFails? && !move.SaveItem?
    ensures StepMove(s, r, move, n).commits == s.commits && StepMove(s, r, move, n).records == s.records
  {
    if move.Attempt? || move.Settle? || move.Lookup? || move.ListTasks? || move.ReadHistory? {
      TurnsCommitNothing(s, r, move, n);
    }
  }

  lemma DoneSinceStays(s: State, s': State, g: nat, f: Fingerprint)
    requires s.commits <= s'.commits && DoneSince(s.commits, g, f)
    ensures DoneSince(s'.commits, g, f)
  {
    var i :| 0 <= i < |s.commits| && s.commits[i].generation > g && StoresDone(s.commits[i], f);
    assert s'.commits[i] == s.commits[i];
  }

  /** Work finished by the write is finished under the writer's generation. */
  lemma NewlyDone(s: State, s': State, x: Runner, stored: Option<Item>, f: Fingerprint)
    requires WritesOne(s, s', x, stored) && RecordedDone(s', f) && !RecordedDone(s, f)
    ensures Current(s, x) && forall g: nat :: g < x.generation ==> DoneSince(s'.commits, g, f)
  {
    var last := |s.commits|;
    assert s'.commits[last] == Commit(x.generation, Newest(s), stored) && StoresDone(s'.commits[last], f);
  }

  lemma WriteKeepsDone(s: State, s': State, x: Runner, stored: Option<Item>)
    requires WritesOne(s, s', x, stored) && DoneStays(s) && forall f :: RecordedDone(s, f) ==> RecordedDone(s', f)
    ensures DoneStays(s')
  {
    forall i, f | 0 <= i < |s'.commits| && StoresDone(s'.commits[i], f) ensures RecordedDone(s', f) {
      if i < |s.commits| { assert s'.commits[i] == s.commits[i]; }
    }
  }

  // ----- the run that moves, and the others

  /** A run that is not the newest takes up no work it would not have attempted before. */
  lemma StaleTakesNothing(s: State, r: RunnerId, move: Move, n: nat, f: Fingerprint)
    requires Fits(s, r) && !Current(s, s.runners[r]) && Ordinary(move)
    requires r in StepMove(s, r, move, n).runners && Alive(StepMove(s, r, move, n).runners[r])
    requires MayRun(StepMove(s, r, move, n).runners[r], f)
    ensures MayRun(s.runners[r], f)
  {
    hide StepMove;
    if move.Attempt? || move.Settle? {
      StaleTurnTakesNothing(s, r, move, n, f);
    } else if move.SaveLoaded? || move.Register? || move.RegisterFails? || move.SaveItem? || move.SaveControl? {
      StaleWriteTakesNothing(s, r, move, n, f);
    } else if move.ListTasks? || move.LoadDone? {
      StaleLoadTakesNothing(s, r, move, n, f);
    } else if move.Lookup? {
      LookupMove(s, r, move.item, n);
      StaleLookupTakesNothing(s, r, move.item, f);
    } else {
      StaleReadTakesNothing(s, r, move, n, f);
    }
  }

  lemma LookupMove(s: State, r: RunnerId, item: Item, n: nat)
    requires r in s.runners
    ensures StepMove(s, r, Lookup(item), n) == StepLookup(s, r, item)
  {
    hide StepLookup;
  }

  lemma StaleTurnTakesNothing(s: State, r: RunnerId, move: Move, n: nat, f: Fingerprint)
    requires Fits(s, r) && !Current(s, s.runners[r]) && (move.Attempt? || move.Settle?)
    requires r in StepMove(s, r, move, n).runners && MayRun(StepMove(s, r, move, n).runners[r], f)
    ensures MayRun(s.runners[r], f)
  {
    hide AllStored, Coherent, ToStore, Reopen, Judge;
  }

  lemma StaleWriteTakesNothing(s: State, r: RunnerId, move: Move, n: nat, f: Fingerprint)
    requires Fits(s, r) && !Current(s, s.runners[r]) && (move.SaveLoaded? || move.Register? || move.RegisterFails? || move.SaveItem? || move.SaveControl?)
    requires r in StepMove(s, r, move, n).runners && Alive(StepMove(s, r, move, n).runners[r])
    requires MayRun(StepMove(s, r, move, n).runners[r], f)
    ensures MayRun(s.runners[r], f)
  {
    hide AllStored, Coherent, ToStore, Resumable, Reopen, LastN, Store;
  }

  lemma StaleLoadTakesNothing(s: State, r: RunnerId, move: Move, n: nat, f: Fingerprint)
    requires Fits(s, r) && !Current(s, s.runners[r]) && (move.ListTasks? || move.LoadDone?)
    requires r in StepMove(s, r, move, n).runners && Alive(StepMove(s, r, move, n).runners[r])
    requires MayRun(StepMove(s, r, move, n).runners[r], f)
    ensures MayRun(s.runners[r], f)
  {
    hide AllStored, Coherent, Resumable, Reopen, Current;
  }

  lemma StaleReadTakesNothing(s: State, r: RunnerId, move: Move, n: nat, f: Fingerprint)
    requires r in s.runners && (move.ReadHistory? || move.Stop? || move.Crash?)
    requires Fits(s, r) && Alive(StepMove(s, r, move, n).runners[r]) && MayRun(StepMove(s, r, move, n).runners[r], f)
    ensures MayRun(s.runners[r], f)
  {
    hide Coherent, Current, Resumable, Reopen;
  }

  lemma StaleLookupTakesNothing(s: State, r: RunnerId, item: Item, f: Fingerprint)
    requires r in s.runners && MayRun(StepLookup(s, r, item).runners[r], f)
    ensures MayRun(s.runners[r], f)
  {
    hide Reopen;
  }

  lemma MoverOvertaken(s: State, r: RunnerId, move: Move, n: nat)
    requires Inv(s, n) && n >= 1 && Explained(s) && r in s.runners && Ordinary(move)
    requires forall f :: RecordedDone(s, f) ==> RecordedDone(StepMove(s, r, move, n), f)
    ensures r in StepMove(s, r, move, n).runners
    ensures Overtaken(StepMove(s, r, move, n), StepMove(s, r, move, n).runners[r])
  {
    var s', x := StepMove(s, r, move, n), s.runners[r];
    assert Fits(s, r) && Overtaken(s, x);
    MoveFits(s, r, move, n);
    MoveShared(s, r, move, n);
    MoveWritesOne(s, r, move, n);
    var x' := s'.runners[r];
    assert Fits(s', r);
    forall f | Alive(x') && MayRun(x', f) && RecordedDone(s', f) ensures DoneSince(s'.commits, x'.generation, f) {
      if Current(s', x') {
        CurrentRunsNoDone(s', r, f);
      } else {
        StaleMoverExplained(s, r, move, n, f);
      }
    }
  }

  /** The newest run would attempt nothing that is finished. */
  lemma CurrentRunsNoDone(s: State, r: RunnerId, f: Fingerprint)
    requires Fits(s, r) && Current(s, s.runners[r]) && Alive(s.runners[r]) && MayRun(s.runners[r], f)
    ensures f in s.records && s.records[f].state == PENDING
  {
  }

  lemma StaleMoverExplained(s: State, r: RunnerId, move: Move, n: nat, f: Fingerprint)
    requires Inv(s, n) && n >= 1 && r in s.runners && Ordinary(move) && Overtaken(s, s.runners[r])
    requires
      var s' := StepMove(s, r, move, n);
      && r in s'.runners && Alive(s'.runners[r]) && !Current(s', s'.runners[r])
      && MayRun(s'.runners[r], f) && RecordedDone(s', f)
    ensures DoneSince(StepMove(s, r, move, n).commits, s.runners[r].generation, f)
  {
    assert Fits(s, r);
    MoveShared(s, r, move, n);
    MoveWritesOne(s, r, move, n);
    hide StepMove, StepMove, Inv, WellFormed;
    StaleBefore(s, r, move, n);
    StaleTakesNothing(s, r, move, n, f);
  }

  /** An ordinary move issues no token: what is stale after it was stale before. */
  lemma StaleBefore(s: State, r: RunnerId, move: Move, n: nat)
    requires Shared(s, n) && Fits(s, r) && n >= 1 && Ordinary(move)
    requires
      var s' := StepMove(s, r, move, n);
      r in s'.runners && Alive(s'.runners[r]) && !Current(s', s'.runners[r])
    ensures !Current(s, s.runners[r]) && Alive(s.runners[r])
  {
    MoveShared(s, r, move, n);
  }

  lemma OtherOvertaken(s: State, s': State, x: Runner, stored: Option<Item>, y: Runner)
    requires Overtaken(s, y) && WritesOne(s, s', x, stored) && y.generation != x.generation && y.generation <= Newest(s)
    ensures Overtaken(s', y)
  {
    forall f | Alive(y) && MayRun(y, f) && RecordedDone(s', f) ensures DoneSince(s'.commits, y.generation, f) {
      if RecordedDone(s, f) {
        DoneSinceStays(s, s', y.generation, f);
      } else {
        NewlyDone(s, s', x, stored, f);
      }
    }
  }

  // ----- every interleaving

  /** Nothing was written, and no run took up any work. */
  lemma IdleExplained(s: State, s': State)
    requires Explained(s) && s'.records == s.records && s'.commits == s.commits
    requires forall q :: q in s'.runners ==> s'.runners[q].loop == map[] || (q in s.runners && s'.runners[q] == s.runners[q])
    ensures Explained(s')
  {
    forall i, f | 0 <= i < |s'.commits| && StoresDone(s'.commits[i], f) ensures RecordedDone(s', f) {
      assert RecordedDone(s, f);
    }
    forall q | q in s'.runners ensures Overtaken(s', s'.runners[q]) {
      if s'.runners[q].loop != map[] { assert Overtaken(s, s.runners[q]); }
    }
  }

  lemma IssuingExplained(s: State, r: RunnerId, move: Move, n: nat)
    requires Inv(s, n) && n >= 1 && Explained(s) && r in s.runners && !Ordinary(move)
    ensures Explained(StepMove(s, r, move, n))
  {
    var s' := StepMove(s, r, move, n);
    assert Fits(s, r);
    OthersWriteNothing(s, r, move, n);
    StepTouchesOneRun(s, r, move, n);
    MemoryKept(s, r, move, n);
    hide StepMove, Inv, Explained, Fits;
    IdleExplained(s, s');
  }

  /** Asking for a token, a run remembers nothing yet. */
  lemma MemoryKept(s: State, r: RunnerId, move: Move, n: nat)
    requires Fits(s, r) && !Ordinary(move)
    ensures
      var s' := StepMove(s, r, move, n);
      r in s'.runners && (s' == s || s'.runners[r].loop == map[])
  {
    var x := s.runners[r];
    if x.phase.Locked? || x.phase.Inserting? { assert x.loop == map[]; }
  }

  lemma OrdinaryExplained(s: State, r: RunnerId, move: Move, n: nat)
    requires Inv(s, n) && n >= 1 && Explained(s) && r in s.runners && Ordinary(move)
    ensures Explained(StepMove(s, r, move, n))
  {
    var s', x := StepMove(s, r, move, n), s.runners[r];
    var stored := if move.SaveControl? then None else ItemOf(x, move);
    assert Fits(s, r);
    forall f | RecordedDone(s, f) ensures RecordedDone(s', f) { MoveKeepsSuccess(s, r, move, n, f); }
    MoveWritesOne(s, r, move, n);
    WriteKeepsDone(s, s', x, stored);
    MoverOvertaken(s, r, move, n);
    StepTouchesOneRun(s, r, move, n);
    forall q | q in s'.runners ensures Overtaken(s', s'.runners[q]) {
      if q != r {
        assert Fits(s, q) && Overtaken(s, s.runners[q]);
        OtherExplained(s, s', x, stored, r, q);
      }
    }
  }

  lemma OtherExplained(s: State, s': State, x: Runner, stored: Option<Item>, r: RunnerId, q: RunnerId)
    requires r in s.runners && q in s.runners && q != r && x == s.runners[r] && q in s'.runners
    requires DistinctTokens(s.runners) && s.runners[q].generation <= Newest(s) && s'.runners[q] == s.runners[q]
    requires Overtaken(s, s.runners[q]) && WritesOne(s, s', x, stored)
    ensures Overtaken(s', s'.runners[q])
  {
    if s'.commits != s.commits || s'.records != s.records { OtherOvertaken(s, s', x, stored, s.runners[q]); }
  }

  lemma StepExplained(s: State, a: Action, n: nat)
    requires Inv(s, n) && n >= 1 && Explained(s)
    ensures Explained(Step(s, a, n))
  {
    if a.Do? && a.r in s.runners {
      hide Inv, Explained;
      if Ordinary(a.move) { OrdinaryExplained(s, a.r, a.move, n); } else { IssuingExplained(s, a.r, a.move, n); }
    } else {
      IdleExplained(s, Step(s, a, n));
    }
  }

  lemma {:induction false} InterleaveExplained(s0: State, actions: seq<Action>, n: nat)
    requires n >= 1 && Init(s0, n)
    ensures Explained(Interleave(s0, actions, n))
  {
    if actions != [] {
      var front := actions[..|actions| - 1];
      InterleaveExplained(s0, front, n);
      InterleavingKeeps(s0, front, n);
      StepExplained(Interleave(s0, front, n), actions[|actions| - 1], n);
    }
  }

  /**
   * Work a run may attempt next is recorded as SUCCEEDED exactly if a run with a newer generation stored
   * it so after this run took it up; the execution is then recorded as one of finished work. The run
   * could have told: while its token is the newest, what the fence asserts, its work is recorded PENDING.
   */
  lemma DoneWorkRunsExactlyIfOvertaken(s: State, n: nat, r: RunnerId, f: Fingerprint)
    requires n >= 1 && Reached(s, n) && r in s.runners
    requires s.runners[r].phase == Looping && f in s.runners[r].loop && s.runners[r].loop[f].state == PENDING
    ensures
      var es := StepAttempt(s, r, f).executions;
      && |es| == |s.executions| + 1 && es[|s.executions|].runner == r && es[|s.executions|].fingerprint == f
      && (es[|s.executions|].stored == SUCCEEDED <==> DoneSince(s.commits, s.runners[r].generation, f))
      && (Current(s, s.runners[r]) ==> es[|s.executions|].stored == PENDING)
  {
    var s0, actions :| Init(s0, n) && Interleave(s0, actions, n) == s;
    InterleavingKeeps(s0, actions, n);
    InterleaveExplained(s0, actions, n);
    var x := s.runners[r];
    assert Fits(s, r) && Overtaken(s, x) && MayRun(x, f);
    if DoneSince(s.commits, x.generation, f) {
      var i :| 0 <= i < |s.commits| && s.commits[i].generation > x.generation && StoresDone(s.commits[i], f);
      assert RecordedDone(s, f);
    }
    if Current(s, x) { CurrentRunsNoDone(s, r, f); }
  }
}
