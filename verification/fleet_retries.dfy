/** How often one piece of work is executed when runs may retry blocked work. */
module FleetRetries {
  import opened Work
  import opened UpgradeLoop
  import opened Ledger
  import opened Fence
  import opened Fleet
  import opened FleetSafety
  import opened FleetTheorems
  import opened FleetBudget

  /** The most attempts one life of an item has room for, from its registration or from a retry on. */
  function Cap(item: Item, base: nat): nat {
    Max(item.maxAttempts, base + 1)
  }

  /** What a number of retries grants. */
  function Granted(cap: nat, retries: nat): nat {
    if retries == 0 then 0 else cap + Granted(cap, retries - 1)
  }

  lemma {:induction false} GrantedIsProduct(cap: nat, retries: nat)
    ensures Granted(cap, retries) == cap * retries
  {
    if retries > 0 { GrantedIsProduct(cap, retries - 1); }
  }

  // ----- the invariant

  predicate RoomLeft(item: Item, base: nat) {
    item.attempts <= base || item.attempts < item.maxAttempts
  }

  predicate Capped(item: Item, base: nat) {
    item.attempts <= Cap(item, base) && (Open(item.state) ==> RoomLeft(item, base))
  }

  /** The stored attempt counter, executions waiting to be stored, and retries account for every execution. */
  ghost predicate Covered(s: State, f: Fingerprint) {
    && f in s.records && f in s.base && Capped(s.records[f], s.base[f])
    && Runs(s.executions, f) + s.base[f]
        <= s.records[f].attempts + |Waiting(s.runners, f)| + Granted(Cap(s.records[f], s.base[f]), Retries(s, f))
  }

  /** Item f in the memory of a run counts no fewer attempts than its record. */
  predicate AheadAt(records: map<Fingerprint, Item>, base: map<Fingerprint, nat>, x: Runner, f: Fingerprint)
    requires f in x.copies
  {
    && f in records && f in base
    && x.copies[f].attempts >= records[f].attempts + (if x.unrecorded == Some(f) then 1 else 0)
    && x.copies[f].maxAttempts == records[f].maxAttempts && x.copies[f].attempts <= Cap(x.copies[f], base[f])
    && (f in x.loop ==> x.loop[f].maxAttempts == records[f].maxAttempts)
    && (f in x.loop && x.loop[f].state == PENDING ==>
          x.loop[f].attempts >= x.copies[f].attempts && RoomLeft(x.loop[f], base[f]))
    && (x.phase != Executing(f) && Open(ToStore(x, f, None).state) ==> RoomLeft(x.copies[f], base[f]))
  }

  ghost predicate Ahead(records: map<Fingerprint, Item>, base: map<Fingerprint, nat>, x: Runner) {
    forall f :: f in x.copies ==> AheadAt(records, base, x, f)
  }

  ghost predicate Careful(s: State, r: RunnerId) {
    && r in s.runners
    && (s.runners[r].unrecorded.Some? ==> s.runners[r].unrecorded.value in s.records)
    && (Current(s, s.runners[r]) && Alive(s.runners[r]) ==> Ahead(s.records, s.base, s.runners[r]))
  }

  ghost predicate AllCovered(s: State) {
    && (forall f :: f in s.records ==> Covered(s, f))
    && (forall f :: f !in s.records ==> Runs(s.executions, f) == 0)
  }

  ghost predicate Frugal(s: State) {
    AllCovered(s) && forall r :: r in s.runners ==> Careful(s, r)
  }

  // ----- the memory of the run that moves

  /** An item that is new, or reopened from its record. */
  predicate Fresh(records: map<Fingerprint, Item>, base: map<Fingerprint, nat>, x: Runner, item: Item) {
    var f := item.fingerprint;
    if f in records then f in base && Reopen(records[f], x.retryBlocked) == Some(item) && Capped(records[f], base[f])
    else f !in x.copies
  }

  function BaseWith(records: map<Fingerprint, Item>, base: map<Fingerprint, nat>, item: Item): map<Fingerprint, nat> {
    if item.fingerprint in records then base else base[item.fingerprint := item.attempts]
  }

  lemma TakeAhead(records: map<Fingerprint, Item>, base: map<Fingerprint, nat>, x: Runner, item: Item, adopt: bool, phase: Phase)
    requires Ahead(records, base, x) && KeysFit(x) && Agrees(records, x) && x.unrecorded.None?
    requires !x.phase.Executing? && !x.phase.Saving? && !phase.Executing? && Fresh(records, base, x, item)
    ensures Ahead(records[item.fingerprint := item], BaseWith(records, base, item), Take(x, item, adopt).(phase := phase))
  {
    var f, x' := item.fingerprint, Take(x, item, adopt).(phase := phase);
    forall g | g in x'.copies ensures AheadAt(records[f := item], BaseWith(records, base, item), x', g) {
      if g in x.copies { assert AheadAt(records, base, x, g); }
    }
  }

  lemma AttemptAhead(records: map<Fingerprint, Item>, base: map<Fingerprint, nat>, x: Runner, f: Fingerprint, current: bool)
    requires Ahead(records, base, x) && KeysFit(x) && x.phase.Looping? && x.unrecorded.None?
    requires f in x.loop && x.loop[f].state == PENDING
    ensures Ahead(records, base, BeginAttempt(x, f, current))
  {
    var x' := BeginAttempt(x, f, current);
    forall g | g in x'.copies ensures AheadAt(records, base, x', g) {
      assert AheadAt(records, base, x, g);
    }
  }

  lemma SettleAhead(records: map<Fingerprint, Item>, base: map<Fingerprint, nat>, x: Runner, outcome: Outcome, policy: Policy)
    requires Ahead(records, base, x) && KeysFit(x) && x.phase.Executing? && x.phase.active in x.loop
    requires x.phase.active in x.copies && x.copies[x.phase.active] == x.loop[x.phase.active]
    ensures Ahead(records, base, SettleAttempt(x, x.phase.active, outcome, policy))
  {
    var x' := SettleAttempt(x, x.phase.active, outcome, policy);
    forall g | g in x'.copies ensures AheadAt(records, base, x', g) {
      assert g in x.copies && AheadAt(records, base, x, g);
    }
  }

  lemma ItemSavedAhead(records: map<Fingerprint, Item>, base: map<Fingerprint, nat>, x: Runner, f: Fingerprint)
    requires Ahead(records, base, x) && KeysFit(x) && x.phase.Saving? && f in x.copies && f in records
    ensures Ahead(records[f := ToStore(x, f, x.phase.origin)], base, ItemSaved(x, f))
  {
    forall g | g in x.copies
      ensures AheadAt(records[f := ToStore(x, f, x.phase.origin)], base, ItemSaved(x, f), g)
    {
      assert AheadAt(records, base, x, g);
    }
  }

  /** Storing an item again, while the memory keeps the older copy. */
  lemma StoredAhead(records: map<Fingerprint, Item>, base: map<Fingerprint, nat>, x: Runner, item: Item, phase: Phase)
    requires Ahead(records, base, x) && !x.phase.Executing? && !phase.Executing? && x.unrecorded.None?
    requires Fresh(records, base, x, item)
    ensures Ahead(records[item.fingerprint := item], BaseWith(records, base, item), x.(phase := phase))
  {
    var f := item.fingerprint;
    forall g | g in x.copies
      ensures AheadAt(records[f := item], BaseWith(records, base, item), x.(phase := phase), g)
    {
      assert AheadAt(records, base, x, g);
    }
  }

  lemma PhaseAhead(records: map<Fingerprint, Item>, base: map<Fingerprint, nat>, x: Runner, phase: Phase)
    requires Ahead(records, base, x) && !x.phase.Executing?
    ensures Ahead(records, base, x.(phase := phase))
  {
    forall f | f in x.copies ensures AheadAt(records, base, x.(phase := phase), f) {
      assert AheadAt(records, base, x, f);
    }
  }

  // ----- the books

  /** A step that stores nothing and executes nothing keeps the books. */
  lemma IdleCovered(s: State, s': State)
    requires AllCovered(s) && s'.records == s.records && s'.base == s.base && s'.executions == s.executions
    requires s'.retries == s.retries
    requires forall r :: r in s.runners ==> r in s'.runners && s'.runners[r].unrecorded == s.runners[r].unrecorded
    requires forall r :: r in s'.runners && r !in s.runners ==> s'.runners[r].unrecorded.None?
    ensures AllCovered(s')
  {
    forall f | f in s'.records ensures Covered(s', f) {
      assert Covered(s, f);
      SameWaiting(s.runners, s'.runners, f);
    }
  }

  lemma AttemptCoveredAt(s: State, r: RunnerId, f: Fingerprint, g: Fingerprint)
    requires r in s.runners && s.runners[r].unrecorded.None? && StepAttempt(s, r, f) != s
    ensures g in s.records && Covered(s, g) ==> Covered(StepAttempt(s, r, f), g)
    ensures g != f ==> Runs(StepAttempt(s, r, f).executions, g) == Runs(s.executions, g)
  {
    var s' := StepAttempt(s, r, f);
    assert s'.executions[..|s'.executions| - 1] == s.executions;
    AttemptWaits(s, r, f, g);
  }

  lemma AttemptCovered(s: State, r: RunnerId, f: Fingerprint)
    requires AllCovered(s) && r in s.runners && s.runners[r].unrecorded.None? && f in s.records
    requires StepAttempt(s, r, f) != s
    ensures AllCovered(StepAttempt(s, r, f))
  {
    hide Covered, Runs;
    forall g {
      AttemptCoveredAt(s, r, f, g);
    }
  }

  /** What storing an item of run r may do to its counter: grow, stay, or be set back by a retry. */
  ghost predicate Counts(s: State, x: Runner, item: Item, x': Runner) {
    var f := item.fingerprint;
    && (if f in s.records && x.unrecorded == Some(f) then x'.unrecorded == None
        else x'.unrecorded == x.unrecorded && x.unrecorded != Some(f))
    && (f in s.records ==>
          && f in s.base && item.maxAttempts == s.records[f].maxAttempts && Capped(item, s.base[f])
          && ((Unblocks(s, item) && x.unrecorded != Some(f))
              || item.attempts >= s.records[f].attempts + (if x.unrecorded == Some(f) then 1 else 0)))
  }

  lemma StoredWaiting(s: State, r: RunnerId, item: Item, x': Runner, g: Fingerprint)
    requires r in s.runners && Counts(s, s.runners[r], item, x')
    ensures
      var after := Waiting(s.runners[r := x'], g);
      if g == item.fingerprint && g in s.records && s.runners[r].unrecorded == Some(g)
      then r in Waiting(s.runners, g) && after == Waiting(s.runners, g) - {r}
      else after == Waiting(s.runners, g)
  {
  }

  lemma StoreCoversItem(s: State, r: RunnerId, item: Item, x': Runner)
    requires AllCovered(s) && r in s.runners && Counts(s, s.runners[r], item, x') && item.fingerprint in s.records
    ensures Covered(SetRunner(Store(s, s.runners[r].generation, item), r, x'), item.fingerprint)
  {
    var f := item.fingerprint;
    assert Covered(s, f);
    StoredWaiting(s, r, item, x', f);
  }

  lemma StoreCovered(s: State, r: RunnerId, item: Item, x': Runner)
    requires AllCovered(s) && r in s.runners && Counts(s, s.runners[r], item, x')
    requires forall q :: q in s.runners && s.runners[q].unrecorded.Some? ==> s.runners[q].unrecorded.value in s.records
    ensures AllCovered(SetRunner(Store(s, s.runners[r].generation, item), r, x'))
  {
    var s' := SetRunner(Store(s, s.runners[r].generation, item), r, x');
    forall g | g in s'.records ensures Covered(s', g) {
      StoredWaiting(s, r, item, x', g);
      if g in s.records {
        assert Covered(s, g);
        if g == item.fingerprint { StoreCoversItem(s, r, item, x'); }
      } else {
        assert Waiting(s.runners, g) == {};
      }
    }
  }

  // ----- every move keeps the books and the memory of its run

  /** What a move of run r may rely on. */
  ghost predicate Set(s: State, r: RunnerId) {
    && Fits(s, r) && Careful(s, r) && AllCovered(s)
    && forall q :: q in s.runners && s.runners[q].unrecorded.Some? ==> s.runners[q].unrecorded.value in s.records
  }

  /** What it owes. */
  ghost predicate Settles(s': State, r: RunnerId) {
    Careful(s', r) && AllCovered(s')
  }

  /** Reopening keeps within the cap, and loses attempts only of blocked work. */
  lemma ReopenedCounts(s: State, x: Runner, item: Item, x': Runner)
    requires item.fingerprint in s.records ==> Covered(s, item.fingerprint)
    requires item.fingerprint in s.records ==> Reopen(s.records[item.fingerprint], x.retryBlocked) == Some(item)
    requires x.unrecorded.None? && x'.unrecorded.None?
    ensures Counts(s, x, item, x')
  {
  }

  lemma SaveLoadedSettles(s: State, r: RunnerId, f: Fingerprint)
    requires Set(s, r)
    ensures Settles(StepSaveLoaded(s, r, f), r)
  {
    var x, s' := s.runners[r], StepSaveLoaded(s, r, f);
    if x.phase.Loading? && f in x.phase.queue && Current(s, x) {
      assert Covered(s, f);
      TakeAhead(s.records, s.base, x, x.phase.queue[f], true, Loading(x.phase.queue - {f}));
      ReopenedCounts(s, x, x.phase.queue[f], ItemLoaded(x, f));
      StoreCovered(s, r, x.phase.queue[f], ItemLoaded(x, f));
    } else {
      IdleCovered(s, s');
    }
  }

  /** Registering an item, once the fence lets it through. */
  lemma RegisteredSettles(s: State, r: RunnerId, x': Runner, adopt: bool)
    requires Set(s, r) && s.runners[r].phase.Restoring? && Current(s, s.runners[r])
    requires x' == Take(s.runners[r], s.runners[r].phase.item, adopt).(phase := Looping)
    ensures Settles(SetRunner(Store(s, s.runners[r].generation, s.runners[r].phase.item), r, x'), r)
  {
    var x := s.runners[r];
    if x.phase.item.fingerprint in s.records { assert Covered(s, x.phase.item.fingerprint); }
    TakeAhead(s.records, s.base, x, x.phase.item, adopt, Looping);
    ReopenedCounts(s, x, x.phase.item, x');
    StoreCovered(s, r, x.phase.item, x');
  }

  lemma RegisterSettles(s: State, r: RunnerId, adopt: bool)
    requires Set(s, r)
    ensures Settles(StepRegister(s, r, adopt), r)
  {
    var x, s' := s.runners[r], StepRegister(s, r, adopt);
    if x.phase.Restoring? && Current(s, x) {
      RegisteredSettles(s, r, Take(x, x.phase.item, adopt).(phase := Looping), adopt);
    } else {
      IdleCovered(s, s');
    }
  }

  lemma RegisterFailsSettles(s: State, r: RunnerId, committed: bool)
    requires Set(s, r)
    ensures Settles(StepRegisterFails(s, r, committed), r)
  {
    var x, s' := s.runners[r], StepRegisterFails(s, r, committed);
    if x.phase.Restoring? && committed && Current(s, x) {
      if x.phase.item.fingerprint in s.records { assert Covered(s, x.phase.item.fingerprint); }
      StoredAhead(s.records, s.base, x, x.phase.item, Saving(x.copies.Keys, None));
      ReopenedCounts(s, x, x.phase.item, s'.runners[r]);
      StoreCovered(s, r, x.phase.item, s'.runners[r]);
    } else {
      IdleCovered(s, s');
      if Current(s, x) && x.phase.Restoring? { PhaseAhead(s.records, s.base, x, Saving(x.copies.Keys, None)); }
    }
  }

  lemma AttemptSettles(s: State, r: RunnerId, f: Fingerprint)
    requires Set(s, r)
    ensures Settles(StepAttempt(s, r, f), r)
  {
    var x, s' := s.runners[r], StepAttempt(s, r, f);
    if x.phase == Looping && f in x.loop && x.loop[f].state == PENDING {
      AttemptCovered(s, r, f);
      if Current(s, x) { AttemptAhead(s.records, s.base, x, f, true); }
    }
  }

  lemma SettledAhead(s: State, r: RunnerId, outcome: Outcome, policy: Policy)
    requires Set(s, r) && s.runners[r].phase.Executing? && Current(s, s.runners[r])
    ensures s.runners[r].phase.active in s.runners[r].loop
    ensures Ahead(s.records, s.base, SettleAttempt(s.runners[r], s.runners[r].phase.active, outcome, policy))
  {
    hide AllCovered, AllStored, Coherent, SettleAttempt;
    SettleAhead(s.records, s.base, s.runners[r], outcome, policy);
  }

  lemma SettleSettles(s: State, r: RunnerId, outcome: Outcome, policy: Policy)
    requires Set(s, r)
    ensures Settles(StepSettle(s, r, outcome, policy), r)
  {
    hide Fits, AllCovered, Ahead, Judge, LastError;
    if s.runners[r].phase.Executing? && Current(s, s.runners[r]) { SettledAhead(s, r, outcome, policy); }
    IdleCovered(s, StepSettle(s, r, outcome, policy));
  }

  lemma SavedCounts(s: State, x: Runner, f: Fingerprint)
    requires x.phase.Saving? && f in x.copies && AheadAt(s.records, s.base, x, f) && KeyedByFingerprint(s.records)
    requires x.copies[f].fingerprint == f && (x.phase.origin.Some? ==> OriginListed(x, x.phase.origin.value))
    ensures Counts(s, x, ToStore(x, f, x.phase.origin), ItemSaved(x, f))
  {
    assert Open(ToStore(x, f, x.phase.origin).state) ==> Open(ToStore(x, f, None).state);
  }

  lemma SaveItemSettles(s: State, r: RunnerId, f: Fingerprint)
    requires Set(s, r) && KeyedByFingerprint(s.records)
    ensures Settles(StepSaveItem(s, r, f), r)
  {
    var x, s' := s.runners[r], StepSaveItem(s, r, f);
    if x.phase.Saving? && f in x.phase.todo && f in x.copies && Current(s, x) {
      assert Covered(s, f) && AheadAt(s.records, s.base, x, f);
      ItemSavedAhead(s.records, s.base, x, f);
      SavedCounts(s, x, f);
      StoreCovered(s, r, ToStore(x, f, x.phase.origin), ItemSaved(x, f));
    } else {
      IdleCovered(s, s');
    }
  }

  lemma PhaseMoveSettles(s: State, s': State, r: RunnerId)
    requires Set(s, r) && OnlyPhase(s, s', r) && OthersSame(s, s', r) && s'.retries == s.retries
    ensures Settles(s', r)
  {
    IdleCovered(s, s');
    var x, x' := s.runners[r], s'.runners[r];
    if Current(s', x') && Alive(x') {
      if x'.generation != x.generation {
        assert x'.copies == map[];
      } else if x' != x {
        PhaseAhead(s.records, s.base, x, x'.phase);
        forall f | f in x'.copies ensures AheadAt(s.records, s.base, x', f) {
          assert AheadAt(s.records, s.base, x.(phase := x'.phase), f);
        }
      }
    }
  }

  lemma RetriesKept(s: State, r: RunnerId, move: Move, n: nat)
    requires r in s.runners && !Working(move)
    ensures StepMove(s, r, move, n).retries == s.retries
  {
    hide Resumable, Reopen, LastN;
  }

  lemma WorkingSettles(s: State, r: RunnerId, move: Move, n: nat)
    requires Set(s, r) && Working(move) && KeyedByFingerprint(s.records)
    ensures Settles(StepMove(s, r, move, n), r)
  {
    hide Set, Settles;
    if move.SaveLoaded? {
      SaveLoadedSettles(s, r, move.f);
    } else if move.Register? {
      RegisterSettles(s, r, move.adopt);
    } else if move.RegisterFails? {
      RegisterFailsSettles(s, r, move.committed);
    } else if move.Attempt? {
      AttemptSettles(s, r, move.f);
    } else if move.Settle? {
      SettleSettles(s, r, move.outcome, move.policy);
    } else {
      SaveItemSettles(s, r, move.f);
    }
  }

  lemma MoveSettles(s: State, r: RunnerId, move: Move, n: nat)
    requires Shared(s, n) && n >= 1 && Set(s, r)
    ensures Settles(StepMove(s, r, move, n), r)
  {
    if Working(move) {
      WorkingSettles(s, r, move, n);
    } else {
      StepTouchesOneRun(s, r, move, n);
      OtherMovesOnlyPhase(s, r, move, n);
      RetriesKept(s, r, move, n);
      PhaseMoveSettles(s, StepMove(s, r, move, n), r);
    }
  }

  // ----- every interleaving

  /** A run that did not move stays careful. */
  lemma OtherCareful(s: State, s': State, r: RunnerId, q: RunnerId)
    requires Careful(s, q) && q != r && r in s.runners && DistinctTokens(s.runners)
    requires q in s'.runners && s'.runners[q] == s.runners[q] && s.runners[q].generation <= Newest(s)
    requires WritesAsNewest(s, s', r) && (forall f :: f in s.records ==> f in s'.records)
    ensures Careful(s', q)
  {
  }

  lemma MoveWritesAsNewest(s: State, r: RunnerId, move: Move, n: nat)
    requires r in s.runners
    ensures WritesAsNewest(s, StepMove(s, r, move, n), r)
  {
    hide StepMove, WritesAsNewest;
    if move.SaveLoaded? || move.Register? || move.RegisterFails? || move.SaveItem? {
      StoringMovesWriteAsNewest(s, r, move, n);
    } else if move.Attempt? || move.Settle? || move.Lookup? || move.ListTasks? || move.ReadHistory? {
      TurnsWriteNothing(s, r, move, n);
    } else {
      OtherMovesWriteNothing(s, r, move, n);
    }
  }

  lemma DoFrugal(s: State, r: RunnerId, move: Move, n: nat)
    requires Inv(s, n) && n >= 1 && Frugal(s) && r in s.runners
    ensures Frugal(StepMove(s, r, move, n))
  {
    var s' := StepMove(s, r, move, n);
    assert Fits(s, r) && Careful(s, r);
    assert Set(s, r) by {
      forall q | q in s.runners && s.runners[q].unrecorded.Some? ensures s.runners[q].unrecorded.value in s.records {
        assert Careful(s, q);
      }
    }
    MoveSettles(s, r, move, n);
    StepTouchesOneRun(s, r, move, n);
    RecordsStay(s, r, move, n);
    MoveWritesAsNewest(s, r, move, n);
    forall q | q in s'.runners ensures Careful(s', q) {
      if q != r {
        assert Careful(s, q) && Fits(s, q);
        OtherCareful(s, s', r, q);
      }
    }
  }

  lemma LockFrugal(s: State, a: Action, n: nat)
    requires Frugal(s) && (a.Do? ==> a.r !in s.runners)
    ensures Frugal(Step(s, a, n))
  {
    var s' := Step(s, a, n);
    hide AllCovered, Ahead;
    IdleCovered(s, s');
    forall q | q in s'.runners ensures Careful(s', q) {
      if q in s.runners { assert Careful(s, q); } else { NothingAhead(s'.records, s'.base, s'.runners[q]); }
    }
  }

  lemma NothingAhead(records: map<Fingerprint, Item>, base: map<Fingerprint, nat>, x: Runner)
    requires x.copies == map[]
    ensures Ahead(records, base, x)
  {
  }

  lemma {:induction false} InterleaveFrugal(s0: State, actions: seq<Action>, n: nat)
    requires n >= 1 && Init(s0, n)
    ensures Frugal(Interleave(s0, actions, n))
  {
    if actions == [] {
      forall f | f in s0.records ensures Covered(s0, f) {
        assert Waiting(s0.runners, f) == {};
      }
    } else {
      var front, a := actions[..|actions| - 1], actions[|actions| - 1];
      InterleaveFrugal(s0, front, n);
      InterleavingKeeps(s0, front, n);
      var s := Interleave(s0, front, n);
      hide Frugal, Inv;
      if a.Do? && a.r in s.runners { DoFrugal(s, a.r, a.move, n); } else { LockFrugal(s, a, n); }
    }
  }

  /** How often f was executed: within one budget for its registration and one for each retry, plus once for each abnormal end. */
  ghost predicate RunsWithinRetries(s: State, f: Fingerprint) {
    if f in s.records then
      && f in s.base
      && Runs(s.executions, f) + s.base[f]
          <= Max(s.records[f].maxAttempts, s.base[f] + 1) * (1 + Retries(s, f)) + |Unended(s.runners)|
    else Runs(s.executions, f) == 0
  }

  lemma FrugalBounds(s: State, n: nat, f: Fingerprint)
    requires Inv(s, n) && Frugal(s)
    ensures RunsWithinRetries(s, f)
  {
    if f in s.records {
      assert Covered(s, f);
      WaitingUnended(s, n, f);
      hide Inv, Frugal;
      var cap, k := Cap(s.records[f], s.base[f]), 1 + Retries(s, f);
      GrantedIsProduct(cap, k);
      assert Granted(cap, k) == cap + Granted(cap, k - 1);
    }
  }

  /**
   * All runs together, retrying or not, execute one piece of work at most as often as its attempt budget
   * allows for its registration and once more for each time it was made pending again after it was
   * blocked, plus once for every run that did not end normally. What has no record was never executed.
   */
  lemma ExecutionsBoundedByRetries(s0: State, actions: seq<Action>, n: nat, f: Fingerprint)
    requires n >= 1 && Init(s0, n)
    ensures RunsWithinRetries(Interleave(s0, actions, n), f)
  {
    InterleaveFrugal(s0, actions, n);
    InterleavingKeeps(s0, actions, n);
    FrugalBounds(Interleave(s0, actions, n), n, f);
  }
}
