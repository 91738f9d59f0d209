/** What every interleaving of runners keeps: fencing, no lost checkpoint, and final success. */
module FleetSafety {
  import opened Work
  import opened UpgradeLoop
  import opened Ledger
  import opened Fence
  import opened Fleet

  // ----- the invariant

  /** A record that is SUCCEEDED would be stored as SUCCEEDED again. */
  predicate KeepsSuccess(x: Runner, f: Fingerprint)
    requires f in x.copies
  {
    || f in x.completed
    || (f !in x.blocked && !(f in x.loop && Open(x.loop[f].state)) && x.copies[f].state == SUCCEEDED)
  }

  /** Dictionaries and lists of a run fit together, whether or not its token is still current. */
  ghost predicate KeysFit(x: Runner) {
    && (forall f :: f in x.loop ==> f in x.copies && x.loop[f].fingerprint == f)
    && (forall f :: f in x.copies ==> x.copies[f].fingerprint == f)
    && (forall f :: f in x.completed ==> f in x.loop && x.loop[f].state == SUCCEEDED)
    && (forall f :: f in x.blocked ==> f in x.loop && x.loop[f].state == BLOCKED)
  }

  /** Token, unrecorded execution and stale executions fit the phase. */
  ghost predicate PhaseFits(newest: nat, x: Runner) {
    && x.generation <= newest
    && x.staleRuns <= 1
    && (x.phase.Locked? || x.phase.Inserting? ==> x.generation == 0)
    && (Alive(x) && !x.phase.Locked? && !x.phase.Inserting? ==> x.generation >= 1)
    && (x.phase.Locked? || x.phase.Inserting? || x.phase.Ready? ==> x.copies == map[])
    && (!x.phase.Executing? && !x.phase.Saving? && !x.phase.Failed? ==> x.unrecorded.None? && x.staleRuns == 0)
    && (x.staleRuns == 1 && !x.phase.Failed? ==> x.generation < newest)
    && (x.phase.Loading? ==> forall f :: f in x.phase.queue ==> x.phase.queue[f].fingerprint == f)
    && (x.phase.Executing? ==>
          var f := x.phase.active;
          x.unrecorded == Some(f) && f in x.loop && x.loop[f].state == RUNNING && f in x.copies && x.copies[f] == x.loop[f])
    && (x.phase.Saving? ==>
          && (forall f :: f in x.phase.todo ==> f in x.copies)
          && (x.unrecorded.Some? ==> x.unrecorded.value in x.phase.todo)
          && (x.staleRuns == 1 ==> x.phase.todo != {})
          && (x.phase.origin.Some? ==> x.phase.origin.value in x.copies && OriginListed(x, x.phase.origin.value)))
  }

  /** Whatever a run remembers was stored at some time, and records are never removed. */
  ghost predicate AllStored(records: map<Fingerprint, Item>, x: Runner) {
    && (forall f :: f in x.copies ==> f in records)
    && (x.phase.Loading? ==> forall f :: f in x.phase.queue ==> f in records)
  }

  ghost predicate WellFormed(s: State, x: Runner) {
    KeysFit(x) && PhaseFits(Newest(s), x) && AllStored(s.records, x)
  }

  /** The item a checkpoint is for is in one of the checkpoint's lists. */
  predicate OriginListed(x: Runner, f: Fingerprint) {
    f in x.completed || f in x.blocked || (f in x.loop && Open(x.loop[f].state))
  }

  /** Item f of the current runner has not been stored since the checkpoint in progress began. */
  predicate InTodo(x: Runner, f: Fingerprint) {
    x.phase.Saving? && f in x.phase.todo
  }

  /** What the runner with the newest token remembers agrees with what is stored. */
  ghost predicate Agrees(records: map<Fingerprint, Item>, x: Runner) {
    && (forall f :: f in x.copies && f in records && records[f].state == SUCCEEDED ==> KeepsSuccess(x, f))
    && (forall f :: f in x.loop && f in records && x.loop[f].state == PENDING && !InTodo(x, f) ==>
          records[f].state == PENDING)
  }

  /** What it read and has not used yet is still so. */
  ghost predicate ReadsAgree(records: map<Fingerprint, Item>, control: Option<Control>, x: Runner) {
    && (x.phase.Loading? ==>
          forall f :: f in x.phase.queue ==>
            f !in x.copies && f in records && Reopen(records[f], x.retryBlocked) == Some(x.phase.queue[f]))
    && (x.phase.Restoring? && x.phase.item.fingerprint in records ==>
          Reopen(records[x.phase.item.fingerprint], x.retryBlocked) == Some(x.phase.item))
    && (x.phase.Executing? ==> x.phase.active in records && records[x.phase.active].state == PENDING)
    && (x.phase.Recording? ==> control.Some? && x.phase.seen == control.value.checkpoints)
  }

  ghost predicate Coherent(s: State, x: Runner) {
    Agrees(s.records, x) && ReadsAgree(s.records, s.control, x)
  }

  /** The histories: generations issued one by one, writes only under the newest, checkpoints kept. */
  ghost predicate Recorded(s: State, maxCheckpoints: nat) {
    && |s.issued| == Newest(s)
    && (forall i :: 0 <= i < |s.issued| ==> s.issued[i] == i + 1)
    && (forall i :: 0 <= i < |s.commits| ==> s.commits[i].generation == s.commits[i].newest <= Newest(s))
    && (forall i, j :: 0 <= i < j < |s.commits| ==> s.commits[i].generation <= s.commits[j].generation)
    && (s.control.None? ==> s.checkpoints == [])
    && (s.control.Some? ==> s.control.value.checkpoints == LastN(s.checkpoints, maxCheckpoints))
    && (forall e :: e in s.executions && e.stored == SUCCEEDED ==> e.generation < e.newest)
  }

  ghost predicate KeyedByFingerprint(records: map<Fingerprint, Item>) {
    forall f :: f in records ==> records[f].fingerprint == f
  }

  /** The part of the invariant that speaks of the shared state alone. */
  ghost predicate Shared(s: State, maxCheckpoints: nat) {
    Recorded(s, maxCheckpoints) && KeyedByFingerprint(s.records) && s.base.Keys == s.records.Keys
  }

  /** The part of the invariant that speaks of run r alone. */
  ghost predicate Fits(s: State, r: RunnerId) {
    r in s.runners && WellFormed(s, s.runners[r])
    && (Current(s, s.runners[r]) && Alive(s.runners[r]) ==> Coherent(s, s.runners[r]))
  }

  /** No two runs hold the same generation. */
  ghost predicate DistinctTokens(runners: map<RunnerId, Runner>) {
    forall q, r :: q in runners && r in runners && q != r && runners[q].generation > 0 ==>
      runners[q].generation != runners[r].generation
  }

  ghost predicate Inv(s: State, maxCheckpoints: nat) {
    Shared(s, maxCheckpoints) && DistinctTokens(s.runners) && forall r :: r in s.runners ==> Fits(s, r)
  }

  // ----- what a step does to the run that makes it

  /** Taking in an item that was just stored keeps the memory of the current run in agreement. */
  lemma TakeAgrees(records: map<Fingerprint, Item>, x: Runner, item: Item, adopt: bool, phase: Phase)
    requires KeysFit(x) && Agrees(records, x) && !x.phase.Saving? && !phase.Saving?
    requires item.fingerprint in records ==> Reopen(records[item.fingerprint], x.retryBlocked) == Some(item)
    requires item.fingerprint !in records ==> item.fingerprint !in x.copies
    ensures
      var x' := Take(x, item, adopt).(phase := phase);
      KeysFit(x') && Agrees(records[item.fingerprint := item], x')
  {
  }

  lemma AttemptAgrees(records: map<Fingerprint, Item>, newest: nat, x: Runner, f: Fingerprint, current: bool)
    requires x.phase.Looping? && f in x.loop && x.loop[f].state == PENDING
    requires KeysFit(x) && PhaseFits(newest, x) && (!current ==> x.generation < newest)
    ensures
      var x' := BeginAttempt(x, f, current);
      KeysFit(x') && PhaseFits(newest, x') && (Agrees(records, x) ==> Agrees(records, x'))
  {
  }

  lemma SettleAgrees(
    records: map<Fingerprint, Item>, newest: nat, x: Runner, outcome: Outcome, policy: Policy)
    requires x.phase.Executing? && KeysFit(x) && PhaseFits(newest, x)
    ensures
      var x' := SettleAttempt(x, x.phase.active, outcome, policy);
      KeysFit(x') && PhaseFits(newest, x')
      && (Agrees(records, x) && x.phase.active in records && records[x.phase.active].state == PENDING ==>
            Agrees(records, x'))
  {
  }

  lemma ItemSavedAgrees(records: map<Fingerprint, Item>, newest: nat, x: Runner, f: Fingerprint)
    requires x.phase.Saving? && f in x.phase.todo && f in x.copies && x.generation == newest
    requires KeysFit(x) && PhaseFits(newest, x) && Agrees(records, x)
    ensures
      var x' := ItemSaved(x, f);
      KeysFit(x') && PhaseFits(newest, x') && Agrees(records[f := ToStore(x, f, x.phase.origin)], x')
  {
  }

  /** From one phase without obligations of its own to another, the memory unchanged. */
  lemma PhaseChangeAgrees(records: map<Fingerprint, Item>, newest: nat, x: Runner, phase: Phase)
    requires KeysFit(x) && PhaseFits(newest, x) && x.generation >= 1
    requires x.phase.Looping? || x.phase.Restoring? || x.phase.Recording?
      || (x.phase.Saving? && x.phase.todo == {}) || (x.phase.Loading? && x.phase.queue == map[])
    requires phase.Looping? || phase.Restoring? || phase.Recording? || phase.Finished? || phase.Failed?
      || phase == Saving(x.copies.Keys, None)
    ensures
      var x' := x.(phase := phase);
      KeysFit(x') && PhaseFits(newest, x') && (Agrees(records, x) ==> Agrees(records, x'))
  {
  }

  lemma ListTasksFits(s: State, r: RunnerId)
    requires Fits(s, r) && KeyedByFingerprint(s.records)
    ensures Fits(StepListTasks(s, r), r)
  {
  }

  lemma SaveLoadedFits(s: State, r: RunnerId, f: Fingerprint)
    requires Fits(s, r)
    ensures Fits(StepSaveLoaded(s, r, f), r)
  {
    var x := s.runners[r];
    if x.phase.Loading? && f in x.phase.queue && Current(s, x) {
      TakeAgrees(s.records, x, x.phase.queue[f], true, Loading(x.phase.queue - {f}));
    }
  }

  /** A lookup changes nothing, or brings the run to restoring what the record allows. */
  lemma LookupRestores(s: State, r: RunnerId, item: Item)
    requires r in s.runners && KeyedByFingerprint(s.records)
    ensures
      var x, s' := s.runners[r], StepLookup(s, r, item);
      s' == s
      || (x.phase.Looping? && s'.runners[r].phase.Restoring?
          && s' == SetRunner(s, r, x.(phase := s'.runners[r].phase))
          && Restorable(s.records, x, s'.runners[r].phase.item))
  {
  }

  predicate Restorable(records: map<Fingerprint, Item>, x: Runner, item: Item) {
    item.fingerprint in records ==> Reopen(records[item.fingerprint], x.retryBlocked) == Some(item)
  }

  lemma LookupFits(s: State, r: RunnerId, item: Item)
    requires Fits(s, r) && KeyedByFingerprint(s.records)
    ensures Fits(StepLookup(s, r, item), r)
  {
    hide KeysFit, Agrees, StepLookup;
    var x, s' := s.runners[r], StepLookup(s, r, item);
    LookupRestores(s, r, item);
    if s' != s { PhaseChangeAgrees(s.records, Newest(s), x, s'.runners[r].phase); }
  }

  lemma LoadDoneFits(s: State, r: RunnerId)
    requires Fits(s, r)
    ensures Fits(StepLoadDone(s, r), r)
  {
    var x := s.runners[r];
    if x.phase.Loading? && x.phase.queue == map[] { PhaseChangeAgrees(s.records, Newest(s), x, Looping); }
  }

  lemma RegisterFits(s: State, r: RunnerId, adopt: bool)
    requires Fits(s, r)
    ensures Fits(StepRegister(s, r, adopt), r)
  {
    var x := s.runners[r];
    if x.phase.Restoring? {
      if Current(s, x) {
        TakeAgrees(s.records, x, x.phase.item, adopt, Looping);
      } else {
        PhaseChangeAgrees(s.records, Newest(s), x, Saving(x.copies.Keys, None));
      }
    }
  }

  lemma RegisterFailsFits(s: State, r: RunnerId, committed: bool)
    requires Fits(s, r)
    ensures Fits(StepRegisterFails(s, r, committed), r)
  {
    var x := s.runners[r];
    if x.phase.Restoring? { PhaseChangeAgrees(s.records, Newest(s), x, Saving(x.copies.Keys, None)); }
  }

  lemma AttemptFits(s: State, r: RunnerId, f: Fingerprint)
    requires Fits(s, r)
    ensures Fits(StepAttempt(s, r, f), r)
  {
    var x := s.runners[r];
    if x.phase == Looping && f in x.loop && x.loop[f].state == PENDING {
      AttemptAgrees(s.records, Newest(s), x, f, Current(s, x));
    }
  }

  lemma SettleFits(s: State, r: RunnerId, outcome: Outcome, policy: Policy)
    requires Fits(s, r)
    ensures Fits(StepSettle(s, r, outcome, policy), r)
  {
    var x := s.runners[r];
    if x.phase.Executing? { SettleAgrees(s.records, Newest(s), x, outcome, policy); }
  }

  lemma SaveItemFits(s: State, r: RunnerId, f: Fingerprint)
    requires Fits(s, r)
    ensures Fits(StepSaveItem(s, r, f), r)
  {
    var x := s.runners[r];
    if x.phase.Saving? && f in x.phase.todo && Current(s, x) { ItemSavedAgrees(s.records, Newest(s), x, f); }
  }

  lemma ReadHistoryFits(s: State, r: RunnerId)
    requires Fits(s, r)
    ensures Fits(StepReadHistory(s, r), r)
  {
    var x, s' := s.runners[r], StepReadHistory(s, r);
    if x.phase.Saving? && x.phase.todo == {} { PhaseChangeAgrees(s.records, Newest(s), x, s'.runners[r].phase); }
  }

  lemma StopFits(s: State, r: RunnerId)
    requires Fits(s, r)
    ensures Fits(StepStop(s, r), r)
  {
    var x := s.runners[r];
    if x.phase.Looping? { PhaseChangeAgrees(s.records, Newest(s), x, Saving(x.copies.Keys, None)); }
  }

  lemma SaveControlFits(s: State, r: RunnerId, checkpoint: Checkpoint, n: nat)
    requires Fits(s, r)
    ensures Fits(StepSaveControl(s, r, checkpoint, n), r)
  {
    hide KeysFit, Agrees, LastN;
    var x, s' := s.runners[r], StepSaveControl(s, r, checkpoint, n);
    if x.phase.Recording? {
      var phase := s'.runners[r].phase;
      assert phase == if !Current(s, x) then Failed else if x.phase.origin.None? then Finished else Looping;
      assert s'.runners[r] == x.(phase := phase) && s'.records == s.records;
      PhaseChangeAgrees(s.records, Newest(s), x, phase);
    }
  }

  lemma CrashFits(s: State, r: RunnerId)
    requires Fits(s, r)
    ensures Fits(StepCrash(s, r), r)
  {
  }

  /** Moves that do not issue a token. */
  predicate Ordinary(move: Move) {
    move != ReadControl && move != InsertControl
  }

  lemma MoveFits(s: State, r: RunnerId, move: Move, n: nat)
    requires Fits(s, r) && KeyedByFingerprint(s.records) && Ordinary(move)
    ensures Fits(StepMove(s, r, move, n), r)
  {
    match move
    case ListTasks => ListTasksFits(s, r);
    case SaveLoaded(f) => SaveLoadedFits(s, r, f);
    case LoadDone => LoadDoneFits(s, r);
    case Lookup(item) => LookupFits(s, r, item);
    case Register(adopt) => RegisterFits(s, r, adopt);
    case RegisterFails(committed) => RegisterFailsFits(s, r, committed);
    case Attempt(f) => AttemptFits(s, r, f);
    case Settle(outcome, policy) => SettleFits(s, r, outcome, policy);
    case Stop => StopFits(s, r);
    case SaveItem(f) => SaveItemFits(s, r, f);
    case ReadHistory => ReadHistoryFits(s, r);
    case SaveControl(checkpoint) => SaveControlFits(s, r, checkpoint, n);
    case Crash => CrashFits(s, r);
    case _ =>
  }

  // ----- what a step does to the shared state

  /** All a step of run r may do: touch only run r, and write only under the newest generation. */
  ghost predicate MovesOnly(s: State, s': State, r: RunnerId) {
    && r in s.runners && s'.runners.Keys == s.runners.Keys
    && (forall q :: q in s.runners && q != r ==> s'.runners[q] == s.runners[q])
    && (forall f :: f in s.records ==> f in s'.records)
    && Newest(s) == Newest(s')
    && s'.runners[r].generation == s.runners[r].generation
    && ((s'.records == s.records && s'.control == s.control) || Current(s, s.runners[r]))
  }

  /** A fenced write extends the commit log in order. */
  lemma StoreShared(s: State, x: Runner, item: Item, n: nat)
    requires Shared(s, n) && Current(s, x)
    ensures Shared(Store(s, x.generation, item), n)
  {
  }

  /** Nothing but runs and the lock differ. */
  predicate SameShared(s: State, s': State) {
    s' == s.(runners := s'.runners, lock := s'.lock)
  }

  lemma SharedKept(s: State, s': State, n: nat)
    requires Shared(s, n) && SameShared(s, s')
    ensures Shared(s', n)
  {
  }

  /** The item a storing move is about. */
  function ItemOf(x: Runner, move: Move): Option<Item> {
    if move.SaveLoaded? && x.phase.Loading? && move.f in x.phase.queue then Some(x.phase.queue[move.f])
    else if move.SaveItem? && x.phase.Saving? && move.f in x.copies then Some(ToStore(x, move.f, x.phase.origin))
    else if (move.Register? || move.RegisterFails?) && x.phase.Restoring? then Some(x.phase.item)
    else None
  }

  /** A storing move stores its item, or nothing. */
  lemma StoresItem(s: State, r: RunnerId, move: Move, n: nat)
    requires r in s.runners && (move.SaveLoaded? || move.Register? || move.RegisterFails? || move.SaveItem?)
    ensures
      var x, s' := s.runners[r], StepMove(s, r, move, n);
      SameShared(s, s')
      || (Current(s, x) && ItemOf(x, move).Some? && SameShared(Store(s, x.generation, ItemOf(x, move).value), s'))
  {
    hide ToStore, ItemSaved, ItemLoaded, Take, Unblocks;
  }

  lemma WritesShared(s: State, r: RunnerId, move: Move, n: nat)
    requires Shared(s, n) && r in s.runners
    requires move.SaveLoaded? || move.Register? || move.RegisterFails? || move.SaveItem?
    ensures Shared(StepMove(s, r, move, n), n) && MovesOnly(s, StepMove(s, r, move, n), r)
  {
    var x, s' := s.runners[r], StepMove(s, r, move, n);
    StoresItem(s, r, move, n);
    WritesMoveOnly(s, r, move, n);
    hide StepMove, MovesOnly, Shared;
    if SameShared(s, s') {
      SharedKept(s, s', n);
    } else {
      StoreShared(s, x, ItemOf(x, move).value, n);
      SharedKept(Store(s, x.generation, ItemOf(x, move).value), s', n);
    }
  }

  lemma WritesMoveOnly(s: State, r: RunnerId, move: Move, n: nat)
    requires r in s.runners && (move.SaveLoaded? || move.Register? || move.RegisterFails? || move.SaveItem?)
    ensures MovesOnly(s, StepMove(s, r, move, n), r)
  {
    hide MovesOnly, StepMove;
    if move.SaveLoaded? || move.SaveItem? { SavesMoveOnly(s, r, move, n); } else { RegistersMoveOnly(s, r, move, n); }
  }

  lemma SavesMoveOnly(s: State, r: RunnerId, move: Move, n: nat)
    requires r in s.runners && (move.SaveLoaded? || move.SaveItem?)
    ensures MovesOnly(s, StepMove(s, r, move, n), r)
  {
    hide ToStore, Unblocks;
  }

  lemma RegistersMoveOnly(s: State, r: RunnerId, move: Move, n: nat)
    requires r in s.runners && (move.Register? || move.RegisterFails?)
    ensures MovesOnly(s, StepMove(s, r, move, n), r)
  {
    hide Unblocks, Reopen;
  }

  lemma SaveControlShared(s: State, r: RunnerId, checkpoint: Checkpoint, n: nat)
    requires Shared(s, n) && Fits(s, r) && n >= 1
    ensures Shared(StepSaveControl(s, r, checkpoint, n), n) && MovesOnly(s, StepSaveControl(s, r, checkpoint, n), r)
  {
    var x, s' := s.runners[r], StepSaveControl(s, r, checkpoint, n);
    if x.phase.Recording? && Current(s, x) {
      ControlShared(s, x, checkpoint, n);
      SharedKept(AfterControl(s, x, checkpoint, n), s', n);
    } else {
      SharedKept(s, s', n);
    }
  }

  /** The shared state after a let-through checkpoint write. */
  function AfterControl(s: State, x: Runner, checkpoint: Checkpoint, n: nat): State
    requires x.phase.Recording?
  {
    s.(control := Some(Stamp(LastN(x.phase.seen + [checkpoint], n), x.generation)),
       commits := s.commits + [Commit(x.generation, Newest(s), None)],
       checkpoints := s.checkpoints + [checkpoint])
  }

  lemma ControlShared(s: State, x: Runner, checkpoint: Checkpoint, n: nat)
    requires Shared(s, n) && n >= 1 && x.phase.Recording? && Current(s, x)
    requires s.control.Some? && x.phase.seen == s.control.value.checkpoints
    ensures Shared(AfterControl(s, x, checkpoint, n), n)
  {
    LastNAppend(s.checkpoints, checkpoint, n);
  }

  /** An execution on work that is recorded as SUCCEEDED can only be one by a stale run. */
  lemma AttemptShared(s: State, r: RunnerId, f: Fingerprint, n: nat)
    requires Shared(s, n) && Fits(s, r)
    ensures Shared(StepAttempt(s, r, f), n) && MovesOnly(s, StepAttempt(s, r, f), r)
  {
  }

  lemma ReadsAreLocal(s: State, r: RunnerId)
    requires r in s.runners
    ensures Unshared(s, StepListTasks(s, r), r) && Unshared(s, StepReadHistory(s, r), r)
  {
  }

  lemma EndsAreLocal(s: State, r: RunnerId)
    requires r in s.runners
    ensures Unshared(s, StepStop(s, r), r) && Unshared(s, StepLoadDone(s, r), r)
  {
  }

  lemma CrashIsLocal(s: State, r: RunnerId)
    requires r in s.runners
    ensures Unshared(s, StepCrash(s, r), r)
  {
  }

  lemma LookupIsLocal(s: State, r: RunnerId, item: Item)
    requires r in s.runners
    ensures Unshared(s, StepLookup(s, r, item), r)
  {
  }

  lemma SettleIsLocal(s: State, r: RunnerId, outcome: Outcome, policy: Policy)
    requires r in s.runners
    ensures Unshared(s, StepSettle(s, r, outcome, policy), r)
  {
  }

  ghost predicate Unshared(s: State, s': State, r: RunnerId) {
    SameShared(s, s') && MovesOnly(s, s', r)
  }

  lemma LocalShared(s: State, r: RunnerId, move: Move, n: nat)
    requires Shared(s, n) && r in s.runners
    requires move.ListTasks? || move.LoadDone? || move.Lookup? || move.Settle? || move.Stop? || move.ReadHistory? || move.Crash?
    ensures Shared(StepMove(s, r, move, n), n) && MovesOnly(s, StepMove(s, r, move, n), r)
  {
    var s' := StepMove(s, r, move, n);
    assert Unshared(s, s', r) by {
      if move.Lookup? {
        LookupIsLocal(s, r, move.item);
      } else if move.Settle? {
        SettleIsLocal(s, r, move.outcome, move.policy);
      } else if move.ListTasks? || move.ReadHistory? {
        ReadsAreLocal(s, r);
      } else if move.Crash? {
        CrashIsLocal(s, r);
      } else {
        EndsAreLocal(s, r);
      }
    }
    SharedKept(s, s', n);
  }

  lemma MoveShared(s: State, r: RunnerId, move: Move, n: nat)
    requires Shared(s, n) && Fits(s, r) && n >= 1 && Ordinary(move)
    ensures Shared(StepMove(s, r, move, n), n) && MovesOnly(s, StepMove(s, r, move, n), r)
  {
    if move.SaveLoaded? || move.Register? || move.RegisterFails? || move.SaveItem? {
      WritesShared(s, r, move, n);
    } else if move.SaveControl? {
      SaveControlShared(s, r, move.checkpoint, n);
    } else if move.Attempt? {
      AttemptShared(s, r, move.f, n);
    } else {
      LocalShared(s, r, move, n);
    }
  }

  // ----- every step keeps the invariant

  lemma OthersFit(s: State, s': State, q: RunnerId)
    requires Fits(s, q) && q in s'.runners && s'.runners[q] == s.runners[q]
    requires (forall f :: f in s.records ==> f in s'.records) && Newest(s) <= Newest(s')
    requires Current(s', s.runners[q]) ==> Current(s, s.runners[q]) && s'.records == s.records && s'.control == s.control
    ensures Fits(s', q)
  {
  }

  lemma StepByOne(s: State, s': State, r: RunnerId, n: nat)
    requires Inv(s, n) && MovesOnly(s, s', r) && Shared(s', n) && Fits(s', r)
    ensures Inv(s', n)
  {
    forall q | q in s'.runners ensures Fits(s', q) {
      if q != r {
        assert Fits(s, q);
        if Current(s, s.runners[r]) { assert !Current(s, s.runners[q]); }
        OthersFit(s, s', q);
      }
    }
  }

  lemma IssuedShared(s: State, r: RunnerId, n: nat)
    requires Shared(s, n) && r in s.runners && n >= 1
    ensures Shared(Issued(s, r), n)
  {
    assert Issued(s, r).issued == s.issued + [Newest(s) + 1];
    assert LastN<Checkpoint>([], n) == [];
  }

  /** A new generation makes every earlier token stale and starts its holder with an empty memory. */
  lemma IssuedKeeps(s: State, r: RunnerId, n: nat)
    requires Inv(s, n) && r in s.runners && n >= 1
    requires s.runners[r].phase == Locked || s.runners[r].phase == Inserting
    ensures Inv(Issued(s, r), n)
  {
    var s' := Issued(s, r);
    IssuedShared(s, r, n);
    forall q | q in s'.runners ensures Fits(s', q) && (q != r ==> s'.runners[q].generation <= Newest(s)) {
      assert Fits(s, q);
      if q != r { OthersFit(s, s', q); }
    }
  }

  lemma ReadControlKeeps(s: State, r: RunnerId, n: nat)
    requires Inv(s, n) && r in s.runners && n >= 1
    ensures Inv(StepReadControl(s, r), n)
  {
    hide NoAttempt, Orderly, AllStored, Coherent, Recorded;
    var s' := StepReadControl(s, r);
    if s.runners[r].phase == Locked && s.control.Some? {
      IssuedKeeps(s, r, n);
    } else {
      assert Fits(s, r);
      SharedKept(s, s', n);
      StepByOne(s, s', r, n);
    }
  }

  lemma InsertControlKeeps(s: State, r: RunnerId, n: nat)
    requires Inv(s, n) && r in s.runners && n >= 1
    ensures Inv(StepInsertControl(s, r), n)
  {
    var s' := StepInsertControl(s, r);
    if s.runners[r].phase == Inserting && s.control.None? {
      IssuedKeeps(s, r, n);
    } else {
      assert Fits(s, r);
      SharedKept(s, s', n);
      StepByOne(s, s', r, n);
    }
  }

  lemma LockKeeps(s: State, r: RunnerId, retryBlocked: bool, n: nat)
    requires Inv(s, n)
    ensures Inv(StepLock(s, r, retryBlocked), n)
  {
    var s' := StepLock(s, r, retryBlocked);
    if s' != s {
      SharedKept(s, s', n);
      assert Fits(s', r);
      forall q | q in s.runners ensures Fits(s', q) {
        assert Fits(s, q);
        OthersFit(s, s', q);
      }
      forall q | q in s'.runners ensures Fits(s', q) {}
    }
  }

  lemma LoseLockKeeps(s: State, n: nat)
    requires Inv(s, n)
    ensures Inv(s.(lock := None), n)
  {
    var s' := s.(lock := None);
    SharedKept(s, s', n);
    forall q | q in s'.runners ensures Fits(s', q) {
      assert Fits(s, q);
      OthersFit(s, s', q);
    }
  }

  lemma StepKeeps(s: State, a: Action, n: nat)
    requires Inv(s, n) && n >= 1
    ensures Inv(Step(s, a, n), n)
  {
    match a
    case Lock(r, retryBlocked) => LockKeeps(s, r, retryBlocked, n);
    case LoseLock => LoseLockKeeps(s, n);
    case Do(r, move) =>
      if r in s.runners {
        if Ordinary(move) {
          assert Fits(s, r);
          MoveFits(s, r, move, n);
          MoveShared(s, r, move, n);
          StepByOne(s, StepMove(s, r, move, n), r, n);
        } else if move == ReadControl {
          ReadControlKeeps(s, r, n);
        } else {
          InsertControlKeeps(s, r, n);
        }
      }
  }

  lemma {:induction false} InterleavingKeeps(s: State, actions: seq<Action>, n: nat)
    requires Init(s, n) && n >= 1
    ensures Inv(Interleave(s, actions, n), n)
  {
    if actions != [] {
      InterleavingKeeps(s, actions[..|actions| - 1], n);
      StepKeeps(Interleave(s, actions[..|actions| - 1], n), actions[|actions| - 1], n);
    }
  }
}
