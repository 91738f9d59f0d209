/** Interleavings that show what the fence does not promise. */
module FleetWitness {
  import opened Work
  import opened UpgradeLoop
  import opened Ledger
  import opened Fence
  import opened Fleet
  import opened FleetTheorems
  import opened FleetBudget

  /** One more action of an interleaving. */
  lemma Act(s0: State, actions: seq<Action>, s: State, a: Action, n: nat) returns (actions': seq<Action>, s': State)
    requires s == Interleave(s0, actions, n)
    ensures s' == Step(s, a, n) == Interleave(s0, actions', n)
  {
    actions', s' := actions + [a], Step(s, a, n);
    assert actions'[..|actions|] == actions;
  }

  /** A ledger with one record and a control row. */
  predicate Single(s: State, record: Item) {
    s.records == map[record.fingerprint := record] && s.control.Some?
  }

  /** The run between two steps, with one item in its loop and its dictionary, and the newest token. */
  predicate Holding(s: State, r: RunnerId, item: Item) {
    && r in s.runners && s.lock == Some(r) && Single(s, item) && s.runners[r].phase == Looping
    && s.runners[r].generation == s.control.value.generation >= 1
    && s.runners[r].loop == s.runners[r].copies == map[item.fingerprint := item]
    && s.runners[r].completed == s.runners[r].blocked == {}
  }

  predicate SameOthers(s: State, s': State, r: RunnerId) {
    s'.runners.Keys == s.runners.Keys + {r} && forall q :: q in s.runners && q != r ==> s'.runners[q] == s.runners[q]
  }

  predicate Began(s: State, r: RunnerId, retryBlocked: bool, record: Item) {
    && r in s.runners && s.lock == Some(r) && Single(s, record)
    && s.runners[r] == Runner(Phase.Ready, s.control.value.generation, retryBlocked, map[], map[], {}, {}, None, 0)
    && s.control.value.generation >= 1
  }

  lemma Begins(s: State, r: RunnerId, retryBlocked: bool, record: Item, n: nat)
    requires s.lock == None && r !in s.runners && Single(s, record)
    ensures
      var s' := StepReadControl(StepLock(s, r, retryBlocked), r);
      Began(s', r, retryBlocked, record) && SameOthers(s, s', r) && s'.executions == s.executions
  {
  }

  lemma ListsOne(s: State, r: RunnerId, retryBlocked: bool, record: Item, item: Item)
    requires Began(s, r, retryBlocked, record) && Reopen(record, retryBlocked) == Some(item)
    ensures
      var s' := StepListTasks(s, r);
      s' == SetRunner(s, r, s.runners[r].(phase := Loading(map[item.fingerprint := item])))
  {
    assert Resumable(s.records, retryBlocked) == map[item.fingerprint := item];
  }

  lemma Loads(s: State, r: RunnerId, retryBlocked: bool, record: Item, item: Item)
    requires Began(s, r, retryBlocked, record) && Reopen(record, retryBlocked) == Some(item)
    ensures
      var s' := StepLoadDone(StepSaveLoaded(StepListTasks(s, r), r, item.fingerprint), r);
      Holding(s', r, item) && SameOthers(s, s', r) && s'.executions == s.executions
  {
    var f, x, queue := item.fingerprint, s.runners[r], map[item.fingerprint := item];
    ListsOne(s, r, retryBlocked, record, item);
    var s1 := StepListTasks(s, r);
    assert queue - {f} == map[];
    var s2 := StepSaveLoaded(s1, r, f);
    assert s2 == SetRunner(Store(s1, x.generation, item), r, ItemLoaded(s1.runners[r], f));
    assert s2.records == queue && s2.runners[r].loop == queue;
  }

  /** One move of a run. */
  lemma Moves(s0: State, actions: seq<Action>, s: State, r: RunnerId, move: Move, n: nat)
    returns (actions': seq<Action>, s': State)
    requires s == Interleave(s0, actions, n) && r in s.runners
    ensures s' == StepMove(s, r, move, n) == Interleave(s0, actions', n) && r in s'.runners
  {
    actions', s' := Act(s0, actions, s, Do(r, move), n);
  }

  lemma TakeToken(s0: State, actions: seq<Action>, s: State, r: RunnerId, retryBlocked: bool, record: Item, n: nat)
    returns (actions': seq<Action>, s': State)
    requires s == Interleave(s0, actions, n) && s.lock == None && r !in s.runners && Single(s, record)
    ensures s' == Interleave(s0, actions', n)
    ensures Began(s', r, retryBlocked, record) && SameOthers(s, s', r) && s'.executions == s.executions
  {
    Begins(s, r, retryBlocked, record, n);
    actions', s' := Act(s0, actions, s, Action.Lock(r, retryBlocked), n);
    hide Began, StepReadControl, Interleave;
    actions', s' := Moves(s0, actions', s', r, ReadControl, n);
  }

  lemma LoadWork(
    s0: State, actions: seq<Action>, s: State, r: RunnerId, retryBlocked: bool, record: Item, item: Item, n: nat)
    returns (actions': seq<Action>, s': State)
    requires s == Interleave(s0, actions, n) && Began(s, r, retryBlocked, record) && Reopen(record, retryBlocked) == Some(item)
    ensures s' == Interleave(s0, actions', n)
    ensures Holding(s', r, item) && SameOthers(s, s', r) && s'.executions == s.executions
  {
    Loads(s, r, retryBlocked, record, item);
    assert r in s.runners;
    hide Began, Holding, StepMove, StepListTasks, StepSaveLoaded, StepLoadDone, Interleave, Reopen;
    LoadMoves(s, r, item.fingerprint, n);
    actions', s' := Moves(s0, actions, s, r, ListTasks, n);
    LoadMoves(s', r, item.fingerprint, n);
    actions', s' := Moves(s0, actions', s', r, SaveLoaded(item.fingerprint), n);
    LoadMoves(s', r, item.fingerprint, n);
    actions', s' := Moves(s0, actions', s', r, LoadDone, n);
  }

  lemma LoadMoves(s: State, r: RunnerId, f: Fingerprint, n: nat)
    requires r in s.runners
    ensures StepMove(s, r, ListTasks, n) == StepListTasks(s, r)
    ensures StepMove(s, r, SaveLoaded(f), n) == StepSaveLoaded(s, r, f)
    ensures StepMove(s, r, LoadDone, n) == StepLoadDone(s, r)
  {
    hide StepListTasks, StepSaveLoaded, StepLoadDone;
  }

  /** A run takes the lock and a token, and loads the record. */
  lemma StartRun(s0: State, actions: seq<Action>, s: State, r: RunnerId, retryBlocked: bool, record: Item, item: Item, n: nat)
    returns (actions': seq<Action>, s': State)
    requires s == Interleave(s0, actions, n) && s.lock == None && r !in s.runners && Single(s, record)
    requires Reopen(record, retryBlocked) == Some(item)
    ensures s' == Interleave(s0, actions', n)
    ensures Holding(s', r, item) && SameOthers(s, s', r) && s'.executions == s.executions
  {
    hide Began, Holding, Interleave, Reopen;
    actions', s' := TakeToken(s0, actions, s, r, retryBlocked, record, n);
    actions', s' := LoadWork(s0, actions', s', r, retryBlocked, record, item, n);
  }

  // ----- one attempt

  /** The item after an attempt. */
  function Outcomed(item: Item, outcome: Outcome, policy: Policy): Item {
    var live := Begin(item);
    live.(state := Judge(live, outcome, policy).state, lastError := LastError(live, outcome, policy))
  }

  /** The run inside the checkpoint after its attempt, everything of it stored but the control row. */
  predicate Checkpointing(s: State, r: RunnerId, item: Item) {
    && r in s.runners && s.lock == Some(r) && Single(s, item) && s.runners[r].phase == Saving({}, Some(item.fingerprint))
    && s.runners[r].generation == s.control.value.generation >= 1
    && s.runners[r].loop == s.runners[r].copies == map[item.fingerprint := item]
    && s.runners[r].completed == (if item.state == SUCCEEDED then {item.fingerprint} else {})
    && s.runners[r].blocked == (if item.state == BLOCKED then {item.fingerprint} else {})
  }

  /** The run at the beginning of the checkpoint after its attempt. */
  predicate Judged(s: State, r: RunnerId, item: Item) {
    && r in s.runners && s.lock == Some(r) && s.records.Keys == {item.fingerprint} && s.control.Some?
    && s.runners[r].phase == Saving({item.fingerprint}, Some(item.fingerprint))
    && s.runners[r].generation == s.control.value.generation >= 1
    && s.runners[r].loop == s.runners[r].copies == map[item.fingerprint := item]
    && s.runners[r].completed == (if item.state == SUCCEEDED then {item.fingerprint} else {})
    && s.runners[r].blocked == (if item.state == BLOCKED then {item.fingerprint} else {})
    && (item.state == SUCCEEDED || item.state == BLOCKED || item.state == PENDING)
  }

  /** The run after the attempt on its only item was judged. */
  lemma JudgedRunner(x: Runner, item: Item, outcome: Outcome, policy: Policy)
    requires x.loop == x.copies == map[item.fingerprint := item] && x.completed == x.blocked == {}
    ensures
      var f, live := item.fingerprint, Outcomed(item, outcome, policy);
      var x' := SettleAttempt(BeginAttempt(x, f, true), f, outcome, policy);
      && x'.phase == Saving({f}, Some(f)) && x'.generation == x.generation && x'.loop == x'.copies == map[f := live]
      && x'.completed == (if live.state == SUCCEEDED then {f} else {})
      && x'.blocked == (if live.state == BLOCKED then {f} else {})
      && (live.state == SUCCEEDED || live.state == BLOCKED || live.state == PENDING)
  {
    hide LastError;
    var f := item.fingerprint;
    assert BeginAttempt(x, f, true).copies.Keys + {f} == {f};
  }

  lemma Settled(s: State, r: RunnerId, item: Item, outcome: Outcome, policy: Policy)
    requires Holding(s, r, item) && item.state == PENDING
    ensures
      var f := item.fingerprint;
      var s' := StepSettle(StepAttempt(s, r, f), r, outcome, policy);
      && Judged(s', r, Outcomed(item, outcome, policy)) && SameOthers(s, s', r)
      && s'.executions == s.executions + [Execution(r, f, Newest(s), Newest(s), PENDING)]
  {
    hide NoAttempt, Orderly, Judge, LastError, SettleAttempt;
    var x, f := s.runners[r], item.fingerprint;
    JudgedRunner(x, item, outcome, policy);
    assert StepAttempt(s, r, f).runners[r] == BeginAttempt(x, f, true);
  }

  lemma SavedLast(s: State, r: RunnerId, item: Item)
    requires Judged(s, r, item)
    ensures
      var s' := StepSaveItem(s, r, item.fingerprint);
      Checkpointing(s', r, item) && SameOthers(s, s', r) && s'.executions == s.executions
  {
    var f := item.fingerprint;
    assert ToStore(s.runners[r], f, Some(f)) == item;
    assert {f} - {f} == {};
    assert s.records[f := item] == map[f := item];
  }

  lemma RunAttempt(
    s0: State, actions: seq<Action>, s: State, r: RunnerId, item: Item, outcome: Outcome, policy: Policy, n: nat)
    returns (actions': seq<Action>, s': State)
    requires s == Interleave(s0, actions, n) && Holding(s, r, item) && item.state == PENDING
    ensures s' == Interleave(s0, actions', n) && Checkpointing(s', r, Outcomed(item, outcome, policy))
    ensures SameOthers(s, s', r)
    ensures s'.executions == s.executions + [Execution(r, item.fingerprint, Newest(s), Newest(s), PENDING)]
  {
    var f, after := item.fingerprint, Outcomed(item, outcome, policy);
    assert r in s.runners && after.fingerprint == f;
    hide Holding, Judged, Checkpointing, StepMove, StepAttempt, StepSettle, StepSaveItem, Interleave, Outcomed;
    Settled(s, r, item, outcome, policy);
    actions', s' := Moves(s0, actions, s, r, Attempt(f), n);
    TurnMoves(s, r, f, outcome, policy, n);
    TurnMoves(s', r, f, outcome, policy, n);
    actions', s' := Moves(s0, actions', s', r, Settle(outcome, policy), n);
    SavedLast(s', r, after);
    TurnMoves(s', r, f, outcome, policy, n);
    actions', s' := Moves(s0, actions', s', r, SaveItem(f), n);
  }

  lemma TurnMoves(s: State, r: RunnerId, f: Fingerprint, outcome: Outcome, policy: Policy, n: nat)
    requires r in s.runners
    ensures StepMove(s, r, Attempt(f), n) == StepAttempt(s, r, f)
    ensures StepMove(s, r, Settle(outcome, policy), n) == StepSettle(s, r, outcome, policy)
    ensures StepMove(s, r, SaveItem(f), n) == StepSaveItem(s, r, f)
  {
    hide StepAttempt, StepSettle, StepSaveItem;
  }

  // ----- finished work executed again

  function Unused(item: Item): State {
    State(
      map[item.fingerprint := item], Some(Control(0, [])), None, map[], [], [], [], [],
      map[item.fingerprint := item.attempts], map[])
  }

  lemma LoseIt(s0: State, actions: seq<Action>, s: State, n: nat) returns (actions': seq<Action>, s': State)
    requires s == Interleave(s0, actions, n)
    ensures s' == s.(lock := None) == Interleave(s0, actions', n)
  {
    actions', s' := Act(s0, actions, s, LoseLock, n);
  }

  /** A run that holds f as PENDING attempts it although it is recorded as SUCCEEDED. */
  lemma RunsFinished(s: State, r: RunnerId, item: Item)
    requires r in s.runners && s.runners[r].phase == Looping && s.runners[r].loop == map[item.fingerprint := item]
    requires item.state == PENDING && RecordedDone(s, item.fingerprint)
    ensures
      var e := Execution(r, item.fingerprint, s.runners[r].generation, Newest(s), SUCCEEDED);
      e in StepAttempt(s, r, item.fingerprint).executions
  {
    var es := StepAttempt(s, r, item.fingerprint).executions;
    assert es[|s.executions|].stored == SUCCEEDED;
  }

  /**
   * From every ledger with one PENDING record there is an interleaving in which the work is executed
   * again after it was recorded as SUCCEEDED: its first run loses the lock without noticing.
   */
  lemma FinishedWorkRunsAgain(item: Item, policy: Policy, n: nat) returns (s0: State, actions: seq<Action>)
    requires n >= 1 && item.state == PENDING
    ensures Init(s0, n)
    ensures exists e :: e in Interleave(s0, actions, n).executions && e.fingerprint == item.fingerprint && e.stored == SUCCEEDED
  {
    var s;
    s0, actions, s := FirstIsOvertaken(item, policy, n);
    RunsFinished(s, 1, item);
    var e := Execution(1, item.fingerprint, s.runners[1].generation, Newest(s), SUCCEEDED);
    TurnMoves(s, 1, item.fingerprint, Validated(true, [], None), policy, n);
    hide Interleave, StepAttempt, StepMove;
    actions, s := Moves(s0, actions, s, 1, Attempt(item.fingerprint), n);
    assert e in s.executions;
  }

  /** The first run holds the work as PENDING, and the second has stored it as SUCCEEDED. */
  lemma FirstIsOvertaken(item: Item, policy: Policy, n: nat) returns (s0: State, actions: seq<Action>, s: State)
    requires n >= 1 && item.state == PENDING
    ensures Init(s0, n) && s == Interleave(s0, actions, n) && RecordedDone(s, item.fingerprint)
    ensures 1 in s.runners && s.runners[1].phase == Looping && s.runners[1].loop == map[item.fingerprint := item]
  {
    s0, actions := Unused(item), [];
    s := s0;
    assert s == Interleave(s0, actions, n) && Single(s, item) && Reopen(item, false) == Some(item);
    assert Init(s0, n);
    hide Interleave, Holding, Checkpointing, Init;
    actions, s := StartRun(s0, actions, s, 1, false, item, item, n);
    HoldingSays(s, 1, item);
    actions, s := LoseIt(s0, actions, s, n);
    actions, s := StartRun(s0, actions, s, 2, false, item, item, n);
    actions, s := RunAttempt(s0, actions, s, 2, item, Validated(true, [], None), policy, n);
    PassedSays(s, 2, item, policy);
  }

  lemma HoldingSays(s: State, r: RunnerId, item: Item)
    requires Holding(s, r, item)
    ensures r in s.runners && Single(s, item) && s.runners[r].phase == Looping
    ensures s.runners[r].loop == map[item.fingerprint := item]
  {
  }

  lemma PassedSays(s: State, r: RunnerId, item: Item, policy: Policy)
    requires Checkpointing(s, r, Outcomed(item, Validated(true, [], None), policy))
    ensures RecordedDone(s, item.fingerprint)
  {
  }

  // ----- work retried for ever

  /** What a run remembers after its only attempt, in a later phase. */
  predicate Remembers(s: State, r: RunnerId, item: Item) {
    && r in s.runners && s.lock == Some(r) && Single(s, item)
    && s.runners[r].generation == s.control.value.generation >= 1
    && s.runners[r].loop == s.runners[r].copies == map[item.fingerprint := item]
    && s.runners[r].completed == {} && s.runners[r].blocked == {item.fingerprint}
  }

  predicate InPhase(s: State, r: RunnerId, phase: Phase) {
    r in s.runners && s.runners[r].phase == phase
  }

  /** A checkpoint whose items are stored is completed; the last one ends the run. */
  lemma Completes(s: State, r: RunnerId, item: Item, origin: Option<Fingerprint>, cp: Checkpoint, n: nat)
    requires Remembers(s, r, item) && InPhase(s, r, Saving({}, origin))
    ensures
      var s' := StepSaveControl(StepReadHistory(s, r), r, cp, n);
      && SameOthers(s, s', r) && s'.executions == s.executions && Single(s', item)
      && (if origin.Some? then Remembers(s', r, item) && InPhase(s', r, Looping)
          else s'.lock == None && InPhase(s', r, Finished))
  {
    hide LastN;
    var s1 := StepReadHistory(s, r);
    assert s1.runners[r].phase == Recording(s.control.value.checkpoints, origin);
  }

  lemma StopsAndSaves(s: State, r: RunnerId, item: Item)
    requires Remembers(s, r, item) && InPhase(s, r, Looping) && item.state == BLOCKED
    ensures
      var s' := StepSaveItem(StepStop(s, r), r, item.fingerprint);
      && SameOthers(s, s', r) && s'.executions == s.executions
      && Remembers(s', r, item) && InPhase(s', r, Saving({}, None))
  {
    var f := item.fingerprint;
    var s1 := StepStop(s, r);
    assert s1.runners[r].phase == Saving({f}, None);
    assert ToStore(s1.runners[r], f, None) == item;
    assert {f} - {f} == {};
    assert s.records[f := item] == map[f := item];
  }

  lemma EndMoves(s: State, r: RunnerId, f: Fingerprint, cp: Checkpoint, n: nat)
    requires r in s.runners
    ensures StepMove(s, r, ReadHistory, n) == StepReadHistory(s, r)
    ensures StepMove(s, r, SaveControl(cp), n) == StepSaveControl(s, r, cp, n)
    ensures StepMove(s, r, Move.Stop, n) == StepStop(s, r)
    ensures StepMove(s, r, SaveItem(f), n) == StepSaveItem(s, r, f)
  {
    hide StepReadHistory, StepSaveControl, StepStop, StepSaveItem, NoAttempt, Orderly;
  }

  lemma Complete(
    s0: State, actions: seq<Action>, s: State, r: RunnerId, item: Item, origin: Option<Fingerprint>, cp: Checkpoint, n: nat)
    returns (actions': seq<Action>, s': State)
    requires s == Interleave(s0, actions, n) && Remembers(s, r, item) && InPhase(s, r, Saving({}, origin))
    ensures s' == Interleave(s0, actions', n)
    ensures SameOthers(s, s', r) && s'.executions == s.executions && Single(s', item)
    ensures
      if origin.Some? then Remembers(s', r, item) && InPhase(s', r, Looping)
      else s'.lock == None && InPhase(s', r, Finished)
  {
    assert r in s.runners;
    hide Remembers, StepMove, StepReadHistory, StepSaveControl, Interleave;
    Completes(s, r, item, origin, cp, n);
    EndMoves(s, r, item.fingerprint, cp, n);
    actions', s' := Moves(s0, actions, s, r, ReadHistory, n);
    EndMoves(s', r, item.fingerprint, cp, n);
    actions', s' := Moves(s0, actions', s', r, SaveControl(cp), n);
  }

  lemma StopAndSave(s0: State, actions: seq<Action>, s: State, r: RunnerId, item: Item, cp: Checkpoint, n: nat)
    returns (actions': seq<Action>, s': State)
    requires s == Interleave(s0, actions, n)
    requires Remembers(s, r, item) && InPhase(s, r, Looping) && item.state == BLOCKED
    ensures s' == Interleave(s0, actions', n)
    ensures SameOthers(s, s', r) && s'.executions == s.executions
    ensures Remembers(s', r, item) && InPhase(s', r, Saving({}, None))
  {
    assert r in s.runners;
    hide Remembers, StepMove, StepStop, StepSaveItem, Interleave;
    StopsAndSaves(s, r, item);
    EndMoves(s, r, item.fingerprint, cp, n);
    actions', s' := Moves(s0, actions, s, r, Move.Stop, n);
    EndMoves(s', r, item.fingerprint, cp, n);
    actions', s' := Moves(s0, actions', s', r, SaveItem(item.fingerprint), n);
  }

  /** Work that a run told to retry will execute once and leave blocked. */
  predicate Retriable(record: Item) {
    record.maxAttempts <= 1 && (record.state == BLOCKED || (record.state == PENDING && record.attempts == 0))
  }

  /** One more run: it reopens the work, fails at it, and ends normally with the work blocked again. */
  lemma RetryOnce(
    s0: State, actions: seq<Action>, s: State, r: RunnerId, record: Item, policy: Policy, cp: Checkpoint, n: nat)
    returns (actions': seq<Action>, s': State, record': Item)
    requires s == Interleave(s0, actions, n) && s.lock == None && r !in s.runners && Single(s, record) && Retriable(record)
    ensures s' == Interleave(s0, actions', n) && s'.lock == None && SameOthers(s, s', r) && InPhase(s', r, Finished)
    ensures Single(s', record') && Retriable(record') && record'.fingerprint == record.fingerprint
    ensures Runs(s'.executions, record.fingerprint) == Runs(s.executions, record.fingerprint) + 1
  {
    var item := Reopen(record, true).value;
    record' := Outcomed(item, Raised(""), policy);
    assert Retriable(record') && record'.state == BLOCKED && record'.fingerprint == item.fingerprint == record.fingerprint;
    assert item.state == PENDING && Reopen(record, true) == Some(item);
    hide Interleave, Holding, Checkpointing, Remembers, Retriable, Reopen, Outcomed, Runs;
    actions', s' := StartRun(s0, actions, s, r, true, record, item, n);
    var e := Execution(r, item.fingerprint, Newest(s'), Newest(s'), PENDING);
    actions', s' := RunAttempt(s0, actions', s', r, item, Raised(""), policy, n);
    RunsNext(s.executions, e);
    StillRemembers(s', r, record');
    actions', s' := Complete(s0, actions', s', r, record', Some(record'.fingerprint), cp, n);
    actions', s' := StopAndSave(s0, actions', s', r, record', cp, n);
    actions', s' := Complete(s0, actions', s', r, record', None, cp, n);
  }

  lemma RunsNext(es: seq<Execution>, e: Execution)
    ensures Runs(es + [e], e.fingerprint) == Runs(es, e.fingerprint) + 1
  {
    assert (es + [e])[..|es|] == es;
  }

  lemma StillRemembers(s: State, r: RunnerId, item: Item)
    requires Checkpointing(s, r, item) && item.state == BLOCKED
    ensures Remembers(s, r, item) && InPhase(s, r, Saving({}, Some(item.fingerprint)))
  {
  }

  /**
   * Runs that retry blocked work and all end normally execute one piece of work as often as one likes:
   * no bound holds that does not count the retries.
   */
  lemma {:induction false} RetriesAreUnbounded(item: Item, policy: Policy, cp: Checkpoint, n: nat, k: nat)
    returns (s0: State, actions: seq<Action>, s: State, record: Item)
    requires n >= 1 && Retriable(item)
    ensures s0 == Unused(item) && Init(s0, n) && s == Interleave(s0, actions, n)
    ensures s.lock == None && Single(s, record) && Retriable(record) && record.fingerprint == item.fingerprint
    ensures forall q: RunnerId :: q in s.runners <==> q < k
    ensures forall q :: q in s.runners ==> s.runners[q].phase == Finished
    ensures Runs(s.executions, item.fingerprint) == k
  {
    if k == 0 {
      s0, actions, s, record := Unused(item), [], Unused(item), item;
    } else {
      hide Retriable, Runs, Init, Interleave, Unused;
      s0, actions, s, record := RetriesAreUnbounded(item, policy, cp, n, k - 1);
      ghost var before := s;
      actions, s, record := RetryOnce(s0, actions, s, k - 1, record, policy, cp, n);
      forall q: RunnerId ensures q in s.runners <==> q < k {
        assert q in before.runners <==> q < k - 1;
      }
      forall q | q in s.runners ensures s.runners[q].phase == Finished {
        if q != k - 1 { assert s.runners[q] == before.runners[q]; }
      }
    }
  }
}
