/** Both ledgers refine one abstract map, in which interrupted work is simply pending. */
module LedgerRefinement {
  import opened Work
  import opened Ledger

  datatype Call =
    | RestoreOrRegister(item: Item, retryBlocked: bool)
    | LoadResumable(retryBlocked: bool)
    | RecordCheckpoint(cp: Checkpoint, items: seq<Item>)

  datatype Answer = OneItem(item: Option<Item>) | AllItems(items: Records) | Nothing

  /** What a ledger keeps, and what it answers. */
  datatype Store = Store(records: Records, history: seq<Checkpoint>)

  /** One call to a ledger that writes back every resumed record, or only reopened blocked ones. */
  function Serve(s: Store, call: Call, onlyBlocked: bool, maxCheckpoints: nat): (Store, Answer) {
    match call
    case RestoreOrRegister(item, retryBlocked) =>
      (s.(records := Registered(s.records, item, retryBlocked)), OneItem(Restored(s.records, item, retryBlocked)))
    case LoadResumable(retryBlocked) =>
      (s.(records := ResetAll(s.records, retryBlocked, onlyBlocked)), AllItems(Resumable(s.records, retryBlocked)))
    case RecordCheckpoint(cp, items) =>
      (Store(AfterCheckpoint(s.records, cp, items), LastN(s.history + [cp], maxCheckpoints)), Nothing)
  }

  /** The answers of a whole sequence of calls, and what is kept in the end. */
  function ServeAll(s: Store, calls: seq<Call>, onlyBlocked: bool, maxCheckpoints: nat): (Store, seq<Answer>) {
    if calls == [] then (s, [])
    else
      var (before, answers) := ServeAll(s, calls[..|calls| - 1], onlyBlocked, maxCheckpoints);
      var (after, answer) := Serve(before, calls[|calls| - 1], onlyBlocked, maxCheckpoints);
      (after, answers + [answer])
  }

  // ----- the abstract ledger

  function Settled(item: Item): Item {
    if Open(item.state) then item.(state := PENDING) else item
  }

  function Abstract(m: Records): Records {
    map f | f in m :: Settled(m[f])
  }

  function AbstractStore(s: Store): Store {
    s.(records := Abstract(s.records))
  }

  /** The abstract ledger forgets RUNNING and VALIDATING as soon as they are stored. */
  function AbstractServe(s: Store, call: Call, maxCheckpoints: nat): (Store, Answer) {
    var (after, answer) := Serve(s, call, false, maxCheckpoints);
    (AbstractStore(after), answer)
  }

  function AbstractServeAll(s: Store, calls: seq<Call>, maxCheckpoints: nat): (Store, seq<Answer>) {
    if calls == [] then (s, [])
    else
      var (before, answers) := AbstractServeAll(s, calls[..|calls| - 1], maxCheckpoints);
      var (after, answer) := AbstractServe(before, calls[|calls| - 1], maxCheckpoints);
      (after, answers + [answer])
  }

  lemma {:induction false} CheckpointAbstract(m: Records, cp: Checkpoint, items: seq<Item>)
    ensures Abstract(AfterCheckpoint(m, cp, items)) == Abstract(AfterCheckpoint(Abstract(m), cp, items))
  {
    if items == [] {
      assert Abstract(Abstract(m)) == Abstract(m);
    } else {
      var front, last := items[..|items| - 1], items[|items| - 1];
      CheckpointAbstract(m, cp, front);
      UpdateAbstract(AfterCheckpoint(m, cp, front), ToPersist(last, cp));
      UpdateAbstract(AfterCheckpoint(Abstract(m), cp, front), ToPersist(last, cp));
    }
  }

  lemma UpdateAbstract(m: Records, item: Item)
    ensures Abstract(m[item.fingerprint := item]) == Abstract(m)[item.fingerprint := Settled(item)]
  {
  }

  lemma RestoreAbstract(m: Records, item: Item, retryBlocked: bool)
    ensures Abstract(Registered(m, item, retryBlocked)) == Abstract(Registered(Abstract(m), item, retryBlocked))
    ensures Restored(m, item, retryBlocked) == Restored(Abstract(m), item, retryBlocked)
  {
    assert Abstract(Abstract(m)) == Abstract(m);
    var next := if item.fingerprint !in m then Some(item) else Reopen(m[item.fingerprint], retryBlocked);
    if next.Some? {
      UpdateAbstract(m, next.value);
      UpdateAbstract(Abstract(m), next.value);
    }
  }

  lemma LoadAbstract(m: Records, retryBlocked: bool, onlyBlocked: bool)
    ensures Abstract(ResetAll(m, retryBlocked, onlyBlocked)) == Abstract(ResetAll(Abstract(m), retryBlocked, false))
    ensures Resumable(m, retryBlocked) == Resumable(Abstract(m), retryBlocked)
  {
    forall f | f in m
      ensures Settled(Reset(m[f], retryBlocked, onlyBlocked)) == Settled(Reset(Settled(m[f]), retryBlocked, false))
      ensures Reopen(m[f], retryBlocked) == Reopen(Settled(m[f]), retryBlocked)
    {
    }
    ResumableSame(m, Abstract(m), retryBlocked);
    ResetSame(m, retryBlocked, onlyBlocked);
  }

  lemma ResumableSame(m: Records, m': Records, retryBlocked: bool)
    requires m.Keys == m'.Keys && forall f :: f in m ==> Reopen(m[f], retryBlocked) == Reopen(m'[f], retryBlocked)
    ensures Resumable(m, retryBlocked) == Resumable(m', retryBlocked)
  {
  }

  lemma ResetSame(m: Records, retryBlocked: bool, onlyBlocked: bool)
    requires forall f :: f in m ==>
      Settled(Reset(m[f], retryBlocked, onlyBlocked)) == Settled(Reset(Settled(m[f]), retryBlocked, false))
    ensures Abstract(ResetAll(m, retryBlocked, onlyBlocked)) == Abstract(ResetAll(Abstract(m), retryBlocked, false))
  {
  }

  lemma ServeAbstract(s: Store, call: Call, onlyBlocked: bool, maxCheckpoints: nat)
    ensures
      var (after, answer) := Serve(s, call, onlyBlocked, maxCheckpoints);
      (AbstractStore(after), answer) == AbstractServe(AbstractStore(s), call, maxCheckpoints)
  {
    match call
    case RestoreOrRegister(item, retryBlocked) => RestoreAbstract(s.records, item, retryBlocked);
    case LoadResumable(retryBlocked) => LoadAbstract(s.records, retryBlocked, onlyBlocked);
    case RecordCheckpoint(cp, items) => CheckpointAbstract(s.records, cp, items);
  }

  lemma {:induction false} ServeAllAbstract(s: Store, calls: seq<Call>, onlyBlocked: bool, maxCheckpoints: nat)
    ensures
      var (after, answers) := ServeAll(s, calls, onlyBlocked, maxCheckpoints);
      (AbstractStore(after), answers) == AbstractServeAll(AbstractStore(s), calls, maxCheckpoints)
  {
    if calls != [] {
      var front := calls[..|calls| - 1];
      ServeAllAbstract(s, front, onlyBlocked, maxCheckpoints);
      ServeAbstract(ServeAll(s, front, onlyBlocked, maxCheckpoints).0, calls[|calls| - 1], onlyBlocked, maxCheckpoints);
    }
  }

  lemma TerminalAbstract(m: Records)
    ensures BlockedIds(m) == BlockedIds(Abstract(m))
    ensures InState(m, SUCCEEDED) == InState(Abstract(m), SUCCEEDED) && InState(m, BLOCKED) == InState(Abstract(m), BLOCKED)
  {
    forall id ensures id in BlockedIds(m) <==> id in BlockedIds(Abstract(m)) {
      if id in BlockedIds(m) {
        var f :| f in m && m[f].state == BLOCKED && m[f].itemId != "" && m[f].itemId == id;
        assert Abstract(m)[f] == m[f];
      }
      if id in BlockedIds(Abstract(m)) {
        var f :| f in m && Abstract(m)[f].state == BLOCKED && Abstract(m)[f].itemId != "" && Abstract(m)[f].itemId == id;
        assert Abstract(m)[f] == m[f];
      }
    }
  }

  /**
   * From contents that differ at most in which unfinished work was interrupted, and over any sequence
   * of calls, the file ledger and the table ledger give the same answers, agree on blocked ids and
   * terminal counts, and keep the same checkpoint history.
   */
  lemma LedgersAgree(file: Store, table: Store, calls: seq<Call>, maxCheckpoints: nat)
    requires AbstractStore(file) == AbstractStore(table)
    ensures
      var (inFile, answers) := ServeAll(file, calls, true, maxCheckpoints);
      var (inTable, answers') := ServeAll(table, calls, false, maxCheckpoints);
      && answers == answers' && inFile.history == inTable.history
      && Abstract(inFile.records) == Abstract(inTable.records)
      && BlockedIds(inFile.records) == BlockedIds(inTable.records)
      && InState(inFile.records, SUCCEEDED) == InState(inTable.records, SUCCEEDED)
      && InState(inFile.records, BLOCKED) == InState(inTable.records, BLOCKED)
  {
    ServeAllAbstract(file, calls, true, maxCheckpoints);
    ServeAllAbstract(table, calls, false, maxCheckpoints);
    TerminalAbstract(ServeAll(file, calls, true, maxCheckpoints).0.records);
    TerminalAbstract(ServeAll(table, calls, false, maxCheckpoints).0.records);
  }
}
