/** How often one piece of work is executed, over all runs, crashes and stale tokens together. */
module FleetBudget {
  import opened Work
  import opened UpgradeLoop
  import opened Ledger
  import opened Fence
  import opened Fleet
  import opened FleetSafety
  import opened FleetTheorems

  /** Executions of one fingerprint, by any run. */
  function Runs(es: seq<Execution>, f: Fingerprint): nat {
    if es == [] then 0
    else Runs(es[..|es| - 1], f) + if es[|es| - 1].fingerprint == f then 1 else 0
  }

  /** Runs with an execution of f whose result was never stored. */
  ghost function Waiting(runners: map<RunnerId, Runner>, f: Fingerprint): set<RunnerId> {
    set r | r in runners && runners[r].unrecorded == Some(f)
  }

  /** Runs that have not ended normally. */
  ghost function Unended(runners: map<RunnerId, Runner>): set<RunnerId> {
    set r | r in runners && runners[r].phase != Finished
  }

  // ----- the invariant

  /** No attempt was made beyond what the registered item allows, and open work can take another. */
  predicate HasRoom(item: Item, base: nat) {
    item.attempts == base || item.attempts < item.maxAttempts
  }

  predicate WithinBudget(item: Item, base: nat) {
    && base <= item.attempts <= Max(item.maxAttempts, base + 1)
    && (Open(item.state) ==> HasRoom(item, base))
  }

  /** The stored attempt counter accounts for every execution but those still waiting to be stored. */
  ghost predicate Tally(s: State, f: Fingerprint) {
    && f in s.records && f in s.base
    && WithinBudget(s.records[f], s.base[f])
    && Runs(s.executions, f) + s.base[f] == s.records[f].attempts + |Waiting(s.runners, f)|
  }

  /** Item f in the memory of a run counts attempts like its record, plus the one the run is in. */
  predicate PacedAt(records: map<Fingerprint, Item>, base: map<Fingerprint, nat>, x: Runner, f: Fingerprint)
    requires f in x.copies
  {
    && f in records && f in base
    && x.copies[f].attempts == records[f].attempts + (if x.unrecorded == Some(f) then 1 else 0)
    && x.copies[f].maxAttempts == records[f].maxAttempts
    && base[f] <= x.copies[f].attempts <= Max(x.copies[f].maxAttempts, base[f] + 1)
    && (f in x.loop ==>
          x.loop[f].attempts == x.copies[f].attempts && x.loop[f].maxAttempts == x.copies[f].maxAttempts)
    && (x.phase != Executing(f) && Open(ToStore(x, f, None).state) ==> HasRoom(x.copies[f], base[f]))
  }

  ghost predicate Paced(records: map<Fingerprint, Item>, base: map<Fingerprint, nat>, x: Runner) {
    forall f :: f in x.copies ==> PacedAt(records, base, x, f)
  }

  /** What the invariant says of one run: it does not retry blocked work, and forgets no execution. */
  ghost predicate Thrifty(s: State, r: RunnerId) {
    && r in s.runners && !s.runners[r].retryBlocked
    && (s.runners[r].unrecorded.Some? ==> s.runners[r].unrecorded.value in s.records)
    && (Current(s, s.runners[r]) && Alive(s.runners[r]) ==> Paced(s.records, s.base, s.runners[r]))
  }

  ghost predicate Tallied(s: State) {
    && (forall f :: f in s.records ==> Tally(s, f))
    && (forall f :: f !in s.records ==> Runs(s.executions, f) == 0)
  }

  ghost predicate Budget(s: State) {
    Tallied(s) && forall r :: r in s.runners ==> Thrifty(s, r)
  }

  // ----- the memory of the run that moves

  lemma TakePaced(records: map<Fingerprint, Item>, base: map<Fingerprint, nat>, x: Runner, item: Item, adopt: bool, phase: Phase)
    requires Paced(records, base, x) && KeysFit(x) && x.unrecorded.None? && !x.phase.Executing? && !phase.Executing?
    requires var f := item.fingerprint;
      if f in records then f in base && Reopen(records[f], false) == Some(item) && WithinBudget(records[f], base[f])
      else f !in x.copies
    ensures
      var f := item.fingerprint;
      Paced(records[f := item], if f in records then base else base[f := item.attempts], Take(x, item, adopt).(phase := phase))
  {
    var f, x' := item.fingerprint, Take(x, item, adopt).(phase := phase);
    forall g | g in x'.copies
      ensures PacedAt(records[f := item], if f in records then base else base[f := item.attempts], x', g)
    {
      if g in x.copies { assert PacedAt(records, base, x, g); }
    }
  }

  lemma AttemptPaced(records: map<Fingerprint, Item>, base: map<Fingerprint, nat>, x: Runner, f: Fingerprint, current: bool)
    requires Paced(records, base, x) && KeysFit(x) && x.phase.Looping? && x.unrecorded.None?
    requires f in x.loop && x.loop[f].state == PENDING
    ensures Paced(records, base, BeginAttempt(x, f, current))
  {
    var x' := BeginAttempt(x, f, current);
    assert ToStore(x, f, None).state == PENDING;
    forall g | g in x'.copies ensures PacedAt(records, base, x', g) {
      assert PacedAt(records, base, x, g);
    }
  }

  lemma SettlePaced(records: map<Fingerprint, Item>, base: map<Fingerprint, nat>, x: Runner, outcome: Outcome, policy: Policy)
    requires Paced(records, base, x) && KeysFit(x) && x.phase.Executing? && x.phase.active in x.loop
    ensures Paced(records, base, SettleAttempt(x, x.phase.active, outcome, policy))
  {
    var x' := SettleAttempt(x, x.phase.active, outcome, policy);
    forall g | g in x'.copies ensures PacedAt(records, base, x', g) {
      assert g in x.copies && PacedAt(records, base, x, g);
    }
  }

  lemma ItemSavedPaced(records: map<Fingerprint, Item>, base: map<Fingerprint, nat>, x: Runner, f: Fingerprint)
    requires Paced(records, base, x) && KeysFit(x) && x.phase.Saving? && f in x.copies && f in records
    ensures Paced(records[f := ToStore(x, f, x.phase.origin)], base, ItemSaved(x, f))
  {
    forall g | g in x.copies
      ensures PacedAt(records[f := ToStore(x, f, x.phase.origin)], base, ItemSaved(x, f), g)
    {
      assert PacedAt(records, base, x, g);
    }
  }

  // ----- the books

  lemma SameWaiting(runners: map<RunnerId, Runner>, runners': map<RunnerId, Runner>, f: Fingerprint)
    requires forall r :: r in runners ==> r in runners' && runners'[r].unrecorded == runners[r].unrecorded
    requires forall r :: r in runners' && r !in runners ==> runners'[r].unrecorded.None?
    ensures Waiting(runners', f) == Waiting(runners, f)
  {
  }

  /** A step that stores nothing and executes nothing keeps the books. */
  lemma IdleTallied(s: State, s': State)
    requires Tallied(s) && s'.records == s.records && s'.base == s.base && s'.executions == s.executions
    requires forall r :: r in s.runners ==> r in s'.runners && s'.runners[r].unrecorded == s.runners[r].unrecorded
    requires forall r :: r in s'.runners && r !in s.runners ==> s'.runners[r].unrecorded.None?
    ensures Tallied(s')
  {
    forall f | f in s'.records ensures Tally(s', f) {
      assert Tally(s, f);
      SameWaiting(s.runners, s'.runners, f);
    }
  }

  lemma AttemptWaits(s: State, r: RunnerId, f: Fingerprint, g: Fingerprint)
    requires r in s.runners && s.runners[r].unrecorded.None? && StepAttempt(s, r, f) != s
    ensures
      Waiting(StepAttempt(s, r, f).runners, g) == (if g == f then Waiting(s.runners, f) + {r} else Waiting(s.runners, g))
    ensures r !in Waiting(s.runners, g)
  {
  }

  lemma AttemptTallied(s: State, r: RunnerId, f: Fingerprint)
    requires Tallied(s) && r in s.runners && s.runners[r].unrecorded.None? && f in s.records
    requires StepAttempt(s, r, f) != s
    ensures Tallied(StepAttempt(s, r, f))
  {
    var s' := StepAttempt(s, r, f);
    assert s'.executions[..|s'.executions| - 1] == s.executions;
    forall g | g in s'.records ensures Tally(s', g) {
      assert Tally(s, g);
      AttemptWaits(s, r, f, g);
    }
  }

  /** Storing item f of run r: the counter grows by one exactly when r's unrecorded execution is settled by it. */
  lemma StoreTallied(s: State, r: RunnerId, item: Item, x': Runner)
    requires Tallied(s) && r in s.runners
    requires
      var x, f := s.runners[r], item.fingerprint;
      if f in s.records && f in s.base && x.unrecorded == Some(f) then
        x'.unrecorded == None && item.attempts == s.records[f].attempts + 1 && WithinBudget(item, s.base[f])
      else
        && x'.unrecorded == x.unrecorded && x.unrecorded != Some(f)
        && (f in s.records && f in s.base ==> item.attempts == s.records[f].attempts && WithinBudget(item, s.base[f]))
    requires forall q :: q in s.runners && s.runners[q].unrecorded.Some? ==> s.runners[q].unrecorded.value in s.records
    ensures Tallied(SetRunner(Store(s, s.runners[r].generation, item), r, x'))
  {
    var x, f := s.runners[r], item.fingerprint;
    var s' := SetRunner(Store(s, x.generation, item), r, x');
    forall g | g in s'.records ensures Tally(s', g) {
      if g in s.records { assert Tally(s, g); }
      if g == f && g in s.records && x.unrecorded == Some(f) {
        assert r in Waiting(s.runners, f);
        assert Waiting(s'.runners, f) == Waiting(s.runners, f) - {r};
      } else {
        assert Waiting(s'.runners, g) == Waiting(s.runners, g);
        if g !in s.records { assert Waiting(s.runners, g) == {}; }
      }
    }
  }

  // ----- every move keeps the books and the memory of its run

  /** What a move of run r may rely on. */
  ghost predicate Ready(s: State, r: RunnerId) {
    && Fits(s, r) && Thrifty(s, r) && Tallied(s)
    && forall q :: q in s.runners && s.runners[q].unrecorded.Some? ==> s.runners[q].unrecorded.value in s.records
  }

  /** What it owes. */
  ghost predicate Accounted(s': State, r: RunnerId) {
    Thrifty(s', r) && Tallied(s')
  }

  lemma SaveLoadedBudget(s: State, r: RunnerId, f: Fingerprint)
    requires Ready(s, r)
    ensures Accounted(StepSaveLoaded(s, r, f), r)
  {
    var x, s' := s.runners[r], StepSaveLoaded(s, r, f);
    if x.phase.Loading? && f in x.phase.queue && Current(s, x) {
      assert Tally(s, f);
      TakePaced(s.records, s.base, x, x.phase.queue[f], true, Loading(x.phase.queue - {f}));
      StoreTallied(s, r, x.phase.queue[f], ItemLoaded(x, f));
    } else {
      IdleTallied(s, s');
    }
  }

  /** Registering an item, once the fence lets it through. */
  lemma RegisteredBudget(s: State, r: RunnerId, x': Runner, adopt: bool)
    requires Ready(s, r) && s.runners[r].phase.Restoring? && Current(s, s.runners[r])
    requires x' == Take(s.runners[r], s.runners[r].phase.item, adopt).(phase := Looping)
    ensures Accounted(SetRunner(Store(s, s.runners[r].generation, s.runners[r].phase.item), r, x'), r)
  {
    hide Runs, Waiting, Unblocks;
    var x := s.runners[r];
    if x.phase.item.fingerprint in s.records { assert Tally(s, x.phase.item.fingerprint); }
    TakePaced(s.records, s.base, x, x.phase.item, adopt, Looping);
    StoreTallied(s, r, x.phase.item, x');
  }

  lemma RegisterBudget(s: State, r: RunnerId, adopt: bool)
    requires Ready(s, r)
    ensures Accounted(StepRegister(s, r, adopt), r)
  {
    var x, s' := s.runners[r], StepRegister(s, r, adopt);
    if x.phase.Restoring? && Current(s, x) {
      RegisteredBudget(s, r, Take(x, x.phase.item, adopt).(phase := Looping), adopt);
    } else {
      IdleTallied(s, s');
    }
  }

  /** Storing an item again under the same counters, while the memory keeps the older copy. */
  lemma StoredPaced(records: map<Fingerprint, Item>, base: map<Fingerprint, nat>, x: Runner, item: Item, phase: Phase)
    requires Paced(records, base, x) && !x.phase.Executing? && !phase.Executing?
    requires var f := item.fingerprint;
      if f in records then f in base && Reopen(records[f], false) == Some(item) else f !in x.copies
    ensures
      var f := item.fingerprint;
      Paced(records[f := item], if f in records then base else base[f := item.attempts], x.(phase := phase))
  {
    var f := item.fingerprint;
    forall g | g in x.copies
      ensures PacedAt(
        records[f := item], if f in records then base else base[f := item.attempts], x.(phase := phase), g)
    {
      assert PacedAt(records, base, x, g);
    }
  }

  lemma RegisterFailsBudget(s: State, r: RunnerId, committed: bool)
    requires Ready(s, r)
    ensures Accounted(StepRegisterFails(s, r, committed), r)
  {
    var x, s' := s.runners[r], StepRegisterFails(s, r, committed);
    if x.phase.Restoring? && committed && Current(s, x) {
      if x.phase.item.fingerprint in s.records { assert Tally(s, x.phase.item.fingerprint); }
      StoredPaced(s.records, s.base, x, x.phase.item, Saving(x.copies.Keys, None));
      StoreTallied(s, r, x.phase.item, s'.runners[r]);
    } else {
      IdleTallied(s, s');
      if Current(s, x) && x.phase.Restoring? { PhasePaced(s.records, s.base, x, Saving(x.copies.Keys, None)); }
    }
  }

  lemma PhasePaced(records: map<Fingerprint, Item>, base: map<Fingerprint, nat>, x: Runner, phase: Phase)
    requires Paced(records, base, x) && !x.phase.Executing?
    ensures Paced(records, base, x.(phase := phase))
  {
    forall f | f in x.copies ensures PacedAt(records, base, x.(phase := phase), f) {
      assert PacedAt(records, base, x, f);
    }
  }

  lemma AttemptBudget(s: State, r: RunnerId, f: Fingerprint)
    requires Ready(s, r)
    ensures Accounted(StepAttempt(s, r, f), r)
  {
    var x, s' := s.runners[r], StepAttempt(s, r, f);
    if x.phase == Looping && f in x.loop && x.loop[f].state == PENDING {
      AttemptTallied(s, r, f);
      if Current(s, x) { AttemptPaced(s.records, s.base, x, f, true); }
    }
  }

  lemma SettleBudget(s: State, r: RunnerId, outcome: Outcome, policy: Policy)
    requires Ready(s, r)
    ensures Accounted(StepSettle(s, r, outcome, policy), r)
  {
    var x, s' := s.runners[r], StepSettle(s, r, outcome, policy);
    if x.phase.Executing? && Current(s, x) { SettlePaced(s.records, s.base, x, outcome, policy); }
    IdleTallied(s, s');
  }

  /** Storing one item of a checkpoint, once the fence lets it through. */
  lemma SavedItemBudget(s: State, r: RunnerId, f: Fingerprint)
    requires Ready(s, r) && s.runners[r].phase.Saving? && f in s.runners[r].copies && Current(s, s.runners[r])
    ensures
      var x := s.runners[r];
      Accounted(SetRunner(Store(s, x.generation, ToStore(x, f, x.phase.origin)), r, ItemSaved(x, f)), r)
  {
    hide Runs, Waiting, Unblocks;
    var x := s.runners[r];
    assert PacedAt(s.records, s.base, x, f);
    assert Tally(s, f);
    ItemSavedPaced(s.records, s.base, x, f);
    assert Open(ToStore(x, f, x.phase.origin).state) ==> Open(ToStore(x, f, None).state);
    StoreTallied(s, r, ToStore(x, f, x.phase.origin), ItemSaved(x, f));
  }

  lemma SaveItemBudget(s: State, r: RunnerId, f: Fingerprint)
    requires Ready(s, r)
    ensures Accounted(StepSaveItem(s, r, f), r)
  {
    hide Runs, Waiting, NoAttempt, Orderly, Store, ToStore, ItemSaved, Paced;
    var x := s.runners[r];
    if x.phase.Saving? && f in x.phase.todo && f in x.copies && Current(s, x) {
      SavedItemBudget(s, r, f);
    } else {
      IdleTallied(s, StepSaveItem(s, r, f));
    }
  }

  /** Moves that store nothing of the memory, and change of it at most the phase. */
  predicate OnlyPhase(s: State, s': State, r: RunnerId)
    requires r in s.runners
  {
    && s'.records == s.records && s'.base == s.base && s'.executions == s.executions
    && s'.runners.Keys == s.runners.Keys
    && s'.runners[r].(phase := s.runners[r].phase, generation := s.runners[r].generation) == s.runners[r]
    && (s'.runners[r].generation != s.runners[r].generation ==> s.runners[r].phase == Locked || s.runners[r].phase == Inserting)
    && (Alive(s'.runners[r]) ==> Alive(s.runners[r]))
    && (s.runners[r].phase.Executing? && Alive(s'.runners[r]) ==> s'.runners[r] == s.runners[r])
    && (Current(s', s'.runners[r]) ==>
          s'.runners[r].generation != s.runners[r].generation || Current(s, s.runners[r]))
  }

  ghost predicate OthersSame(s: State, s': State, r: RunnerId) {
    forall q :: q in s.runners && q != r ==> q in s'.runners && s'.runners[q] == s.runners[q]
  }

  lemma PhaseMoveBudget(s: State, s': State, r: RunnerId)
    requires Ready(s, r) && OnlyPhase(s, s', r) && OthersSame(s, s', r)
    ensures Accounted(s', r)
  {
    IdleTallied(s, s');
    var x, x' := s.runners[r], s'.runners[r];
    if Current(s', x') && Alive(x') {
      if x'.generation != x.generation {
        assert x'.copies == map[];
      } else if x' != x {
        PhasePaced(s.records, s.base, x, x'.phase);
        forall f | f in x'.copies ensures PacedAt(s.records, s.base, x', f) {
          assert PacedAt(s.records, s.base, x.(phase := x'.phase), f);
        }
      }
    }
  }

  lemma ReadMovesOnlyPhase(s: State, r: RunnerId)
    requires Fits(s, r)
    ensures OnlyPhase(s, StepListTasks(s, r), r) && OnlyPhase(s, StepReadHistory(s, r), r)
  {
  }

  lemma LookupOnlyPhase(s: State, r: RunnerId, item: Item)
    requires Fits(s, r)
    ensures OnlyPhase(s, StepLookup(s, r, item), r)
  {
    hide KeysFit, AllStored, Coherent, Reopen;
    assert s.runners[r].(phase := s.runners[r].phase, generation := s.runners[r].generation) == s.runners[r];
  }

  lemma EndMovesOnlyPhase(s: State, r: RunnerId)
    requires Fits(s, r)
    ensures OnlyPhase(s, StepStop(s, r), r) && OnlyPhase(s, StepLoadDone(s, r), r)
  {
    hide KeysFit, AllStored, Coherent;
    assert s.runners[r].(phase := s.runners[r].phase, generation := s.runners[r].generation) == s.runners[r];
  }

  lemma CrashOnlyPhase(s: State, r: RunnerId)
    requires Fits(s, r)
    ensures OnlyPhase(s, StepCrash(s, r), r)
  {
    hide KeysFit, AllStored, Coherent;
    assert s.runners[r].(phase := s.runners[r].phase, generation := s.runners[r].generation) == s.runners[r];
  }

  lemma SaveControlOnlyPhase(s: State, r: RunnerId, checkpoint: Checkpoint, n: nat)
    requires Fits(s, r)
    ensures OnlyPhase(s, StepSaveControl(s, r, checkpoint, n), r)
  {
    var x, s' := s.runners[r], StepSaveControl(s, r, checkpoint, n);
    SaveControlPhase(s, r, checkpoint, n);
    hide StepSaveControl, KeysFit, AllStored, Coherent;
    assert s'.runners[r] == x.(phase := s'.runners[r].phase);
  }

  lemma SaveControlPhase(s: State, r: RunnerId, checkpoint: Checkpoint, n: nat)
    requires r in s.runners
    ensures
      var x, s' := s.runners[r], StepSaveControl(s, r, checkpoint, n);
      && s'.runners.Keys == s.runners.Keys && s'.runners[r] == x.(phase := s'.runners[r].phase)
      && s'.records == s.records && s'.base == s.base && s'.executions == s.executions && Newest(s') == Newest(s)
      && (s' != s ==> x.phase.Recording?)
  {
    hide LastN, Issue;
    var x := s.runners[r];
    if !x.phase.Recording? {
      assert x.(phase := x.phase) == x;
    } else if Current(s, x) {
      assert StepSaveControl(s, r, checkpoint, n).runners[r].phase
        == if x.phase.origin.None? then Finished else Looping;
    }
  }

  lemma IssuedOnlyPhase(s: State, r: RunnerId)
    requires Fits(s, r) && (s.runners[r].phase == Locked || s.runners[r].phase == Inserting)
    ensures OnlyPhase(s, Issued(s, r), r)
  {
  }

  lemma AcquisitionOnlyPhase(s: State, r: RunnerId)
    requires Fits(s, r)
    ensures OnlyPhase(s, StepReadControl(s, r), r) && OnlyPhase(s, StepInsertControl(s, r), r)
  {
    if s.runners[r].phase == Locked || s.runners[r].phase == Inserting { IssuedOnlyPhase(s, r); }
  }

  // ----- every interleaving

  /** Moves that store an item, execute one, or judge one. */
  predicate Working(move: Move) {
    move.SaveLoaded? || move.Register? || move.RegisterFails? || move.Attempt? || move.Settle? || move.SaveItem?
  }

  lemma WorkingBudget(s: State, r: RunnerId, move: Move, n: nat)
    requires Ready(s, r) && Working(move)
    ensures Accounted(StepMove(s, r, move, n), r)
  {
    hide Accounted, Ready, StepSaveLoaded, StepRegister, StepRegisterFails, StepAttempt, StepSettle, StepSaveItem;
    if move.SaveLoaded? {
      SaveLoadedBudget(s, r, move.f);
    } else if move.Register? {
      RegisterBudget(s, r, move.adopt);
    } else if move.RegisterFails? {
      RegisterFailsBudget(s, r, move.committed);
    } else if move.Attempt? {
      AttemptBudget(s, r, move.f);
    } else if move.Settle? {
      SettleBudget(s, r, move.outcome, move.policy);
    } else {
      SaveItemBudget(s, r, move.f);
    }
  }

  lemma OtherMovesOnlyPhase(s: State, r: RunnerId, move: Move, n: nat)
    requires Fits(s, r) && !Working(move)
    ensures OnlyPhase(s, StepMove(s, r, move, n), r)
  {
    if move.Lookup? {
      LookupOnlyPhase(s, r, move.item);
    } else if move.SaveControl? {
      SaveControlOnlyPhase(s, r, move.checkpoint, n);
    } else if move.ReadControl? || move.InsertControl? {
      AcquisitionOnlyPhase(s, r);
    } else if move.ListTasks? || move.ReadHistory? {
      ReadMovesOnlyPhase(s, r);
    } else if move.Crash? {
      CrashOnlyPhase(s, r);
    } else {
      EndMovesOnlyPhase(s, r);
    }
  }

  lemma MoveBudget(s: State, r: RunnerId, move: Move, n: nat)
    requires Shared(s, n) && n >= 1 && Ready(s, r)
    ensures Accounted(StepMove(s, r, move, n), r)
  {
    if Working(move) {
      WorkingBudget(s, r, move, n);
    } else {
      StepTouchesOneRun(s, r, move, n);
      OtherMovesOnlyPhase(s, r, move, n);
      PhaseMoveBudget(s, StepMove(s, r, move, n), r);
    }
  }

  /** A step writes records only under the newest generation, and makes at most its own run the newest. */
  predicate WritesAsNewest(s: State, s': State, r: RunnerId)
    requires r in s.runners
  {
    && Newest(s) <= Newest(s')
    && ((s'.records == s.records && s'.base == s.base) || (Current(s, s.runners[r]) && Newest(s') == Newest(s)))
  }

  lemma StoringMovesWriteAsNewest(s: State, r: RunnerId, move: Move, n: nat)
    requires r in s.runners
    requires move.SaveLoaded? || move.Register? || move.RegisterFails? || move.SaveItem?
    ensures WritesAsNewest(s, StepMove(s, r, move, n), r)
  {
  }

  lemma TurnsWriteNothing(s: State, r: RunnerId, move: Move, n: nat)
    requires r in s.runners && (move.Attempt? || move.Settle? || move.Lookup? || move.ListTasks? || move.ReadHistory?)
    ensures WritesAsNewest(s, StepMove(s, r, move, n), r)
  {
    hide BeginAttempt, SettleAttempt, Resumable, Reopen;
  }

  lemma AcquisitionWritesNothing(s: State, r: RunnerId)
    requires r in s.runners
    ensures WritesAsNewest(s, StepReadControl(s, r), r) && WritesAsNewest(s, StepInsertControl(s, r), r)
  {
  }

  lemma EndingsWriteNothing(s: State, r: RunnerId)
    requires r in s.runners
    ensures WritesAsNewest(s, StepLoadDone(s, r), r) && WritesAsNewest(s, StepStop(s, r), r)
    ensures WritesAsNewest(s, StepCrash(s, r), r)
  {
  }

  lemma OtherMovesWriteNothing(s: State, r: RunnerId, move: Move, n: nat)
    requires r in s.runners && (!Ordinary(move) || move.LoadDone? || move.Stop? || move.SaveControl? || move.Crash?)
    ensures WritesAsNewest(s, StepMove(s, r, move, n), r)
  {
    hide StepReadControl, StepInsertControl, StepLoadDone, StepStop, StepCrash, StepSaveControl, Current;
    if move.SaveControl? {
      SaveControlPhase(s, r, move.checkpoint, n);
    } else if !Ordinary(move) {
      AcquisitionWritesNothing(s, r);
    } else {
      EndingsWriteNothing(s, r);
    }
  }

  lemma RecordsStay(s: State, r: RunnerId, move: Move, n: nat)
    requires Shared(s, n) && Fits(s, r) && n >= 1
    ensures forall f :: f in s.records ==> f in StepMove(s, r, move, n).records
  {
    if Ordinary(move) { MoveShared(s, r, move, n); }
  }

  /** A run that did not move stays thrifty. */
  lemma OtherThrifty(s: State, s': State, r: RunnerId, q: RunnerId)
    requires Thrifty(s, q) && q != r && r in s.runners && DistinctTokens(s.runners)
    requires q in s'.runners && s'.runners[q] == s.runners[q] && s.runners[q].generation <= Newest(s)
    requires WritesAsNewest(s, s', r) && (forall f :: f in s.records ==> f in s'.records)
    ensures Thrifty(s', q)
  {
  }

  lemma DoBudget(s: State, r: RunnerId, move: Move, n: nat)
    requires Inv(s, n) && n >= 1 && Budget(s) && r in s.runners
    ensures Budget(StepMove(s, r, move, n))
  {
    var s' := StepMove(s, r, move, n);
    assert Fits(s, r) && Thrifty(s, r);
    assert Ready(s, r) by {
      forall q | q in s.runners && s.runners[q].unrecorded.Some? ensures s.runners[q].unrecorded.value in s.records {
        assert Thrifty(s, q);
      }
    }
    MoveBudget(s, r, move, n);
    StepTouchesOneRun(s, r, move, n);
    RecordsStay(s, r, move, n);
    if move.SaveLoaded? || move.Register? || move.RegisterFails? || move.SaveItem? {
      StoringMovesWriteAsNewest(s, r, move, n);
    } else if move.Attempt? || move.Settle? || move.Lookup? || move.ListTasks? || move.ReadHistory? {
      TurnsWriteNothing(s, r, move, n);
    } else {
      OtherMovesWriteNothing(s, r, move, n);
    }
    forall q | q in s'.runners ensures Thrifty(s', q) {
      if q != r {
        assert Thrifty(s, q) && Fits(s, q);
        OtherThrifty(s, s', r, q);
      }
    }
  }

  lemma LockBudget(s: State, a: Action, n: nat)
    requires Budget(s) && (a.Lock? ==> !a.retryBlocked) && (a.Do? ==> a.r !in s.runners)
    ensures Budget(Step(s, a, n))
  {
    var s' := Step(s, a, n);
    hide Tallied, Paced;
    IdleTallied(s, s');
    forall q | q in s'.runners ensures Thrifty(s', q) {
      if q in s.runners { assert Thrifty(s, q); }
    }
  }

  lemma StepBudget(s: State, a: Action, n: nat)
    requires Inv(s, n) && n >= 1 && Budget(s) && (a.Lock? ==> !a.retryBlocked)
    ensures Budget(Step(s, a, n))
  {
    hide Inv, Budget;
    if a.Do? && a.r in s.runners {
      DoBudget(s, a.r, a.move, n);
    } else {
      LockBudget(s, a, n);
    }
  }

  predicate NeverRetries(actions: seq<Action>) {
    forall a :: a in actions && a.Lock? ==> !a.retryBlocked
  }

  lemma {:induction false} InterleaveBudget(s0: State, actions: seq<Action>, n: nat)
    requires n >= 1 && Init(s0, n) && NeverRetries(actions)
    ensures Budget(Interleave(s0, actions, n))
  {
    if actions == [] {
      forall f | f in s0.records ensures Tally(s0, f) {
        assert Waiting(s0.runners, f) == {};
      }
    } else {
      var front := actions[..|actions| - 1];
      InterleaveBudget(s0, front, n);
      InterleavingKeeps(s0, front, n);
      StepBudget(Interleave(s0, front, n), actions[|actions| - 1], n);
    }
  }

  lemma WaitingUnended(s: State, n: nat, f: Fingerprint)
    requires Inv(s, n)
    ensures |Waiting(s.runners, f)| <= |Unended(s.runners)|
  {
    var a, b := Waiting(s.runners, f), Unended(s.runners);
    forall r | r in a ensures r in b { assert Fits(s, r); }
    assert b == a + (b - a);
  }

  /** How often f was executed: no more than its budget allows, plus once for every run that did not end normally. */
  ghost predicate RunsBounded(s: State, f: Fingerprint) {
    if f in s.records then
      && f in s.base
      && Runs(s.executions, f) <= Max(1, s.records[f].maxAttempts - s.base[f]) + |Unended(s.runners)|
      && Runs(s.executions, f) == s.records[f].attempts - s.base[f] + |Waiting(s.runners, f)|
    else Runs(s.executions, f) == 0
  }

  lemma BudgetBoundsRuns(s: State, n: nat, f: Fingerprint)
    requires Inv(s, n) && Budget(s)
    ensures RunsBounded(s, f)
  {
    if f in s.records {
      assert Tally(s, f);
      WaitingUnended(s, n, f);
    }
  }

  /**
   * Without retries of blocked work, all runs together execute one piece of work at most as often as
   * its attempt budget allows, plus once for every run that did not end normally: crashed, refused by
   * the fence, or still going. The stored counter misses exactly the executions whose result was never
   * stored, and what has no record was never executed.
   */
  lemma ExecutionsBounded(s0: State, actions: seq<Action>, n: nat, f: Fingerprint)
    requires n >= 1 && Init(s0, n) && NeverRetries(actions)
    ensures RunsBounded(Interleave(s0, actions, n), f)
  {
    InterleaveBudget(s0, actions, n);
    InterleavingKeeps(s0, actions, n);
    BudgetBoundsRuns(Interleave(s0, actions, n), n, f);
  }
}
