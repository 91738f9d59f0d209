/**
 * Any number of runners over one fenced ledger, interleaved at the granularity of database
 * transactions and executions, with crashes and lost locks at any point. Ids are fresh per item, so
 * the dictionaries keyed by item id are keyed by fingerprint here.
 */
module Fleet {
  import opened Work
  import opened UpgradeLoop
  import opened Ledger
  import opened Fence

  type RunnerId = nat

  /** Where a run stands between two atomic steps. */
  datatype Phase =
    | Locked                                                   // lock held, no token asked for yet
    | Inserting                                                // saw no control row, about to insert one
    | Ready                                                    // token held, nothing read
    | Loading(queue: map<Fingerprint, Item>)                   // resumable items still to be written back
    | Looping                                                  // between restores, attempts and checkpoints
    | Restoring(item: Item)                                    // a looked-up item about to be written
    | Executing(active: Fingerprint)                           // inside the executor
    | Saving(todo: set<Fingerprint>, origin: Option<Fingerprint>)    // inside a checkpoint, item by item
    | Recording(seen: seq<Checkpoint>, origin: Option<Fingerprint>)  // history read, control row next
    | Finished
    | Failed

  /**
   * One run. `loop` holds the loop's own items and `copies` the objects the pipeline checkpoints;
   * `unrecorded` is an execution whose result is not stored yet, `staleRuns` counts executions begun
   * after a newer token existed.
   */
  datatype Runner = Runner(
    phase: Phase,
    generation: nat,
    retryBlocked: bool,
    loop: map<Fingerprint, Item>,
    copies: map<Fingerprint, Item>,
    completed: set<Fingerprint>,
    blocked: set<Fingerprint>,
    unrecorded: Option<Fingerprint>,
    staleRuns: nat)

  /** A committed write: under which generation, the newest generation at that moment, and the item, if it is one. */
  datatype Commit = Commit(generation: nat, newest: nat, stored: Option<Item>)

  /** A call of the executor: by whom, on what, under which and against which newest generation and stored state. */
  datatype Execution = Execution(
    runner: RunnerId, fingerprint: Fingerprint, generation: nat, newest: nat, stored: WorkState)

  /**
   * The database, the lock, the runs, and the history of what happened: `base` holds the attempts an item
   * came with, `retries` how often blocked work was made pending again.
   */
  datatype State = State(
    records: map<Fingerprint, Item>,
    control: Option<Control>,
    lock: Option<RunnerId>,
    runners: map<RunnerId, Runner>,
    issued: seq<nat>,
    commits: seq<Commit>,
    checkpoints: seq<Checkpoint>,
    executions: seq<Execution>,
    base: map<Fingerprint, nat>,
    retries: map<Fingerprint, nat>)

  /** One atomic step of one run. */
  datatype Move =
    | ReadControl
    | InsertControl
    | ListTasks
    | SaveLoaded(f: Fingerprint)
    | LoadDone
    | Lookup(item: Item)
    | Register(adopt: bool)
    | RegisterFails(committed: bool)
    | Attempt(f: Fingerprint)
    | Settle(outcome: Outcome, policy: Policy)
    | Stop
    | SaveItem(f: Fingerprint)
    | ReadHistory
    | SaveControl(checkpoint: Checkpoint)
    | Crash

  /** A run starts by taking the free lock; a lock can be lost at any time; a started run makes a move. */
  datatype Action = Lock(r: RunnerId, retryBlocked: bool) | LoseLock | Do(r: RunnerId, move: Move)

  // ----- shared pieces of the steps

  function Newest(s: State): nat {
    if s.control.None? then 0 else s.control.value.generation
  }

  /** The runner's token is the newest one. */
  predicate Current(s: State, x: Runner) {
    x.generation >= 1 && Admits(s.control, x.generation)
  }

  predicate Alive(x: Runner) {
    x.phase != Finished && x.phase != Failed
  }

  function SetRunner(s: State, r: RunnerId, x: Runner): State {
    s.(runners := s.runners[r := x])
  }

  /** The run is over; a lock it still holds is freed with its session. */
  function End(s: State, r: RunnerId, phase: Phase): State
    requires r in s.runners
  {
    SetRunner(s, r, s.runners[r].(phase := phase)).(lock := if s.lock == Some(r) then None else s.lock)
  }

  function Issued(s: State, r: RunnerId): State
    requires r in s.runners
  {
    var control := Issue(s.control);
    SetRunner(s, r, s.runners[r].(phase := Ready, generation := control.generation))
      .(control := Some(control), issued := s.issued + [control.generation])
  }

  function Retries(s: State, f: Fingerprint): nat {
    if f in s.retries then s.retries[f] else 0
  }

  /** Storing the item makes blocked work pending again. */
  predicate Unblocks(s: State, item: Item) {
    item.fingerprint in s.records && s.records[item.fingerprint].state == BLOCKED && item.state == PENDING
  }

  /** A fenced write of one work record, already let through. */
  function Store(s: State, generation: nat, item: Item): State {
    var f := item.fingerprint;
    s.(records := s.records[f := item],
       commits := s.commits + [Commit(generation, Newest(s), Some(item))],
       base := if f in s.records then s.base else s.base[f := item.attempts],
       retries := if Unblocks(s, item) then s.retries[f := Retries(s, f) + 1] else s.retries)
  }

  /** What a checkpoint of x stores for item f. */
  function ToStore(x: Runner, f: Fingerprint, origin: Option<Fingerprint>): Item
    requires f in x.copies
  {
    x.copies[f].(state := StateToStore(
      x.copies[f], f in x.completed, f in x.blocked, f in x.loop && Open(x.loop[f].state), origin == Some(f)))
  }

  /** Takes an item into the pipeline's dictionary and, when it is new to the loop, into the loop. */
  function Take(x: Runner, item: Item, adopt: bool): Runner {
    x.(copies := x.copies[item.fingerprint := item],
       loop := if adopt && item.fingerprint !in x.loop then x.loop[item.fingerprint := item] else x.loop)
  }

  /** The run inside the executor; a run whose token is stale does not notice. */
  function BeginAttempt(x: Runner, f: Fingerprint, current: bool): Runner
    requires f in x.loop
  {
    var live := Begin(x.loop[f]);
    x.(phase := Executing(f), loop := x.loop[f := live], copies := x.copies[f := live], unrecorded := Some(f),
       staleRuns := if current then x.staleRuns else x.staleRuns + 1)
  }

  /** The run after its attempt was judged, at the start of the checkpoint that follows. */
  function SettleAttempt(x: Runner, f: Fingerprint, outcome: Outcome, policy: Policy): Runner
    requires f in x.loop
  {
    var verdict := Judge(x.loop[f], outcome, policy);
    var live := x.loop[f].(state := verdict.state, lastError := LastError(x.loop[f], outcome, policy));
    x.(phase := Saving(x.copies.Keys + {f}, Some(f)), loop := x.loop[f := live], copies := x.copies[f := live],
       completed := if verdict.state == SUCCEEDED then x.completed + {f} else x.completed,
       blocked := if verdict.state == BLOCKED then x.blocked + {f} else x.blocked)
  }

  /** The run after one item of a checkpoint was stored. */
  function ItemSaved(x: Runner, f: Fingerprint): Runner
    requires x.phase.Saving?
  {
    x.(phase := Saving(x.phase.todo - {f}, x.phase.origin),
       unrecorded := if x.unrecorded == Some(f) then None else x.unrecorded)
  }

  /** The run after one resumable item was stored again. */
  function ItemLoaded(x: Runner, f: Fingerprint): Runner
    requires x.phase.Loading? && f in x.phase.queue
  {
    Take(x, x.phase.queue[f], true).(phase := Loading(x.phase.queue - {f}))
  }

  /** The step begins no execution. */
  predicate NoAttempt(s: State, s': State, r: RunnerId)
    requires r in s.runners
  {
    r in s'.runners && s'.executions == s.executions && s'.runners[r].staleRuns == s.runners[r].staleRuns
  }

  /** An ended run stays ended; a live one keeps its lock; a token changes only when a generation is issued. */
  predicate Orderly(s: State, s': State, r: RunnerId)
    requires r in s.runners
  {
    && r in s'.runners
    && (!Alive(s.runners[r]) ==> s' == s)
    && (Alive(s'.runners[r]) ==> s'.lock == s.lock)
    && s'.runners[r].generation == (if Newest(s') == Newest(s) then s.runners[r].generation else Newest(s'))
    && (s.control.Some? ==> s'.control.Some?)
  }

  // ----- the steps

  function StepLock(s: State, r: RunnerId, retryBlocked: bool): State {
    if r in s.runners || s.lock.Some? then s
    else SetRunner(s, r, Runner(Locked, 0, retryBlocked, map[], map[], {}, {}, None, 0)).(lock := Some(r))
  }

  /** The first statement of token acquisition: the row is locked and updated, or seen to be missing. */
  function StepReadControl(s: State, r: RunnerId): (s': State)
    requires r in s.runners
    ensures NoAttempt(s, s', r) && Orderly(s, s', r)
  {
    if s.runners[r].phase != Locked then s
    else if s.control.None? then SetRunner(s, r, s.runners[r].(phase := Inserting))
    else Issued(s, r)
  }

  /** Of two runners that both saw no row, the second insert violates the primary key. */
  function StepInsertControl(s: State, r: RunnerId): (s': State)
    requires r in s.runners
    ensures NoAttempt(s, s', r) && Orderly(s, s', r)
  {
    if s.runners[r].phase != Inserting then s
    else if s.control.None? then Issued(s, r)
    else End(s, r, Failed)
  }

  function StepListTasks(s: State, r: RunnerId): (s': State)
    requires r in s.runners
    ensures NoAttempt(s, s', r) && Orderly(s, s', r)
  {
    var x := s.runners[r];
    if x.phase != Ready then s
    else SetRunner(s, r, x.(phase := Loading(Resumable(s.records, x.retryBlocked))))
  }

  function StepSaveLoaded(s: State, r: RunnerId, f: Fingerprint): (s': State)
    requires r in s.runners
    ensures NoAttempt(s, s', r) && Orderly(s, s', r)
  {
    var x := s.runners[r];
    if !x.phase.Loading? || f !in x.phase.queue then s
    else if !Current(s, x) then End(s, r, Failed)
    else
      SetRunner(Store(s, x.generation, x.phase.queue[f]), r, ItemLoaded(x, f))
  }

  function StepLoadDone(s: State, r: RunnerId): (s': State)
    requires r in s.runners
    ensures NoAttempt(s, s', r) && Orderly(s, s', r)
  {
    var x := s.runners[r];
    if x.phase.Loading? && x.phase.queue == map[] then SetRunner(s, r, x.(phase := Looping)) else s
  }

  /** An unfenced read of one record decides what restoring a seeded or discovered item means. */
  function StepLookup(s: State, r: RunnerId, item: Item): (s': State)
    requires r in s.runners
    ensures NoAttempt(s, s', r) && Orderly(s, s', r)
  {
    var x := s.runners[r];
    if x.phase != Looping then s
    else if item.fingerprint !in s.records then SetRunner(s, r, x.(phase := Restoring(item)))
    else
      match Reopen(s.records[item.fingerprint], x.retryBlocked)
      case None => s
      case Some(reopened) => SetRunner(s, r, x.(phase := Restoring(reopened)))
  }

  /** A refused restore ends discovery, and with it the run, through a last checkpoint. */
  function StepRegister(s: State, r: RunnerId, adopt: bool): (s': State)
    requires r in s.runners
    ensures NoAttempt(s, s', r) && Orderly(s, s', r)
  {
    var x := s.runners[r];
    if !x.phase.Restoring? then s
    else if !Current(s, x) then SetRunner(s, r, x.(phase := Saving(x.copies.Keys, None)))
    else
      SetRunner(Store(s, x.generation, x.phase.item), r, Take(x, x.phase.item, adopt).(phase := Looping))
  }

  /** The database fails under a restore, before or after the transaction committed. */
  function StepRegisterFails(s: State, r: RunnerId, committed: bool): (s': State)
    requires r in s.runners
    ensures NoAttempt(s, s', r) && Orderly(s, s', r)
  {
    var x := s.runners[r];
    if !x.phase.Restoring? then s
    else
      var stored := if committed && Current(s, x) then Store(s, x.generation, x.phase.item) else s;
      SetRunner(stored, r, x.(phase := Saving(x.copies.Keys, None)))
  }

  /** Any pending item may be next: the loop's choice among them is one of these. */
  function StepAttempt(s: State, r: RunnerId, f: Fingerprint): (s': State)
    requires r in s.runners
    ensures Orderly(s, s', r)
  {
    var x := s.runners[r];
    if x.phase != Looping || f !in x.loop || x.loop[f].state != PENDING then s
    else
      SetRunner(s, r, BeginAttempt(x, f, Current(s, x)))
        .(executions := s.executions +
            [Execution(r, f, x.generation, Newest(s), if f in s.records then s.records[f].state else PENDING)])
  }

  function StepSettle(s: State, r: RunnerId, outcome: Outcome, policy: Policy): (s': State)
    requires r in s.runners
    ensures NoAttempt(s, s', r) && Orderly(s, s', r)
  {
    var x := s.runners[r];
    if !x.phase.Executing? || x.phase.active !in x.loop then s
    else
      SetRunner(s, r, SettleAttempt(x, x.phase.active, outcome, policy))
  }

  function StepStop(s: State, r: RunnerId): (s': State)
    requires r in s.runners
    ensures NoAttempt(s, s', r) && Orderly(s, s', r)
  {
    var x := s.runners[r];
    if x.phase == Looping then SetRunner(s, r, x.(phase := Saving(x.copies.Keys, None))) else s
  }

  function StepSaveItem(s: State, r: RunnerId, f: Fingerprint): (s': State)
    requires r in s.runners
    ensures NoAttempt(s, s', r) && Orderly(s, s', r)
  {
    var x := s.runners[r];
    if !x.phase.Saving? || f !in x.phase.todo || f !in x.copies then s
    else if !Current(s, x) then End(s, r, Failed)
    else
      SetRunner(Store(s, x.generation, ToStore(x, f, x.phase.origin)), r, ItemSaved(x, f))
  }

  function StepReadHistory(s: State, r: RunnerId): (s': State)
    requires r in s.runners
    ensures NoAttempt(s, s', r) && Orderly(s, s', r)
  {
    var x := s.runners[r];
    if !x.phase.Saving? || x.phase.todo != {} then s
    else
      var seen := if s.control.None? then [] else s.control.value.checkpoints;
      SetRunner(s, r, x.(phase := Recording(seen, x.phase.origin)))
  }

  /** The control row is rebuilt from the history read before, without a generation; the fence stamps it. */
  function StepSaveControl(s: State, r: RunnerId, checkpoint: Checkpoint, maxCheckpoints: nat): (s': State)
    requires r in s.runners
    ensures NoAttempt(s, s', r) && Orderly(s, s', r)
  {
    var x := s.runners[r];
    if !x.phase.Recording? then s
    else if !Current(s, x) then End(s, r, Failed)
    else
      var stored := s.(
        control := Some(Stamp(LastN(x.phase.seen + [checkpoint], maxCheckpoints), x.generation)),
        commits := s.commits + [Commit(x.generation, Newest(s), None)],
        checkpoints := s.checkpoints + [checkpoint]);
      if x.phase.origin.None? then End(stored, r, Finished)
      else SetRunner(stored, r, x.(phase := Looping))
  }

  function StepCrash(s: State, r: RunnerId): (s': State)
    requires r in s.runners
    ensures NoAttempt(s, s', r) && Orderly(s, s', r)
  {
    if Alive(s.runners[r]) then End(s, r, Failed) else s
  }

  /** One atomic step; a move that is not enabled changes nothing. */
  function StepMove(s: State, r: RunnerId, move: Move, maxCheckpoints: nat): (s': State)
    requires r in s.runners
    ensures Orderly(s, s', r) && (!move.Attempt? ==> NoAttempt(s, s', r))
  {
    match move
    case ReadControl => StepReadControl(s, r)
    case InsertControl => StepInsertControl(s, r)
    case ListTasks => StepListTasks(s, r)
    case SaveLoaded(f) => StepSaveLoaded(s, r, f)
    case LoadDone => StepLoadDone(s, r)
    case Lookup(item) => StepLookup(s, r, item)
    case Register(adopt) => StepRegister(s, r, adopt)
    case RegisterFails(committed) => StepRegisterFails(s, r, committed)
    case Attempt(f) => StepAttempt(s, r, f)
    case Settle(outcome, policy) => StepSettle(s, r, outcome, policy)
    case Stop => StepStop(s, r)
    case SaveItem(f) => StepSaveItem(s, r, f)
    case ReadHistory => StepReadHistory(s, r)
    case SaveControl(checkpoint) => StepSaveControl(s, r, checkpoint, maxCheckpoints)
    case Crash => StepCrash(s, r)
  }

  function Step(s: State, a: Action, maxCheckpoints: nat): State {
    match a
    case Lock(r, retryBlocked) => StepLock(s, r, retryBlocked)
    case LoseLock => s.(lock := None)
    case Do(r, move) => if r in s.runners then StepMove(s, r, move, maxCheckpoints) else s
  }

  /** A whole interleaving. */
  function Interleave(s: State, actions: seq<Action>, maxCheckpoints: nat): State {
    if actions == [] then s
    else Step(Interleave(s, actions[..|actions| - 1], maxCheckpoints), actions[|actions| - 1], maxCheckpoints)
  }

  /** No run has started; the ledger may hold records and an unfenced control row from earlier use. */
  predicate Init(s: State, maxCheckpoints: nat) {
    && s.lock == None && s.runners == map[] && s.issued == [] && s.commits == [] && s.executions == []
    && s.retries == map[]
    && (s.control.None? ==> s.checkpoints == [])
    && (s.control.Some? ==>
          s.control.value.generation == 0 && s.control.value.checkpoints == s.checkpoints
          && |s.checkpoints| <= maxCheckpoints)
    && (forall f :: f in s.records ==> s.records[f].fingerprint == f)
    && s.base.Keys == s.records.Keys
    && (forall f :: f in s.records ==> s.base[f] == s.records[f].attempts)
  }
}
