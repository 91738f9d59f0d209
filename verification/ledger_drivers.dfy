/** Callers of the two ledger classes: whatever they ask, both answer the same. */
module LedgerDrivers {
  import opened Work
  import opened Offers
  import opened Ledger
  import opened LedgerRefinement
  import J = JsonLedger
  import S = StoreLedger

  /** What a file ledger that can be read keeps. */
  ghost function InFile(ledger: J.JsonUpgradeLedger): Store
    reads ledger
    requires J.Contents(ledger.file).Ok?
  {
    Store(J.Contents(ledger.file).value.records, J.Contents(ledger.file).value.checkpoints)
  }

  /** What a table ledger keeps. */
  ghost function InTable(ledger: S.EngineeringStoreUpgradeLedger): Store
    reads ledger.table
  {
    Store(ledger.Contents(), S.History(ledger.table.rows, ledger.namespace))
  }

  lemma ListedBack(items: seq<Item>, m: Records)
    requires Lists(items, m) && Keyed(m)
    ensures ByFingerprint(items) == m
  {
    forall f
      ensures f in ByFingerprint(items) <==> f in m
      ensures f in m ==> ByFingerprint(items)[f] == m[f]
    {
      ByFingerprintAt(items, f);
      if f in m {
        var i :| 0 <= i < |items| && items[i] == m[f];
        assert items[i].fingerprint == f;
      }
      if HasFingerprint(items, f) {
        var i :| 0 <= i < |items| && items[i].fingerprint == f;
        assert items[i] in items;
      }
    }
  }

  /** Records stay under their fingerprints, whatever is asked. */
  lemma ServeKeyed(s: Store, call: Call, onlyBlocked: bool, maxCheckpoints: nat)
    requires Keyed(s.records)
    ensures Keyed(Serve(s, call, onlyBlocked, maxCheckpoints).0.records)
  {
    if call.RecordCheckpoint? { CheckpointKeyed(s.records, call.cp, call.items); }
  }

  lemma {:induction false} CheckpointKeyed(m: Records, cp: Checkpoint, items: seq<Item>)
    requires Keyed(m)
    ensures Keyed(AfterCheckpoint(m, cp, items))
  {
    if items != [] { CheckpointKeyed(m, cp, items[..|items| - 1]); }
  }

  method AskFile(ledger: J.JsonUpgradeLedger, call: Call) returns (answer: Answer)
    requires ledger.maxCheckpoints >= 1 && J.Contents(ledger.file).Ok? && Keyed(InFile(ledger).records)
    modifies ledger
    ensures J.Contents(ledger.file).Ok? && Keyed(InFile(ledger).records)
    ensures (InFile(ledger), answer) == Serve(old(InFile(ledger)), call, true, ledger.maxCheckpoints)
  {
    ServeKeyed(InFile(ledger), call, true, ledger.maxCheckpoints);
    if call.RestoreOrRegister? {
      var r := ledger.RestoreOrRegister(call.item, call.retryBlocked, Works);
      answer := OneItem(r.value);
    } else if call.LoadResumable? {
      var r := ledger.LoadResumable(call.retryBlocked, Works);
      ListedBack(r.value, Resumable(old(InFile(ledger)).records, call.retryBlocked));
      answer := AllItems(ByFingerprint(r.value));
    } else {
      var r := ledger.RecordCheckpoint(call.cp, call.items, Works);
      answer := Nothing;
    }
  }

  method AskTable(ledger: S.EngineeringStoreUpgradeLedger, call: Call, now: int) returns (answer: Answer)
    requires ledger.maxCheckpoints >= 1 && S.Readable(ledger.table.rows, ledger.namespace)
    modifies ledger.table
    ensures S.Readable(ledger.table.rows, ledger.namespace)
    ensures (InTable(ledger), answer) == Serve(old(InTable(ledger)), call, false, ledger.maxCheckpoints)
  {
    hide S.SameBut, S.StatusTells, S.Unclaimable, S.KeepsTimes, HandsOut, HandsAllOut, Again;
    if call.RestoreOrRegister? {
      var r := ledger.RestoreOrRegister(call.item, call.retryBlocked, now);
      answer := OneItem(r.value);
    } else if call.LoadResumable? {
      S.ViewKeyed(ledger.table.rows, ledger.namespace);
      var r := ledger.LoadResumable(call.retryBlocked, now);
      ListedBack(r.value, Resumable(old(ledger.Contents()), call.retryBlocked));
      answer := AllItems(ByFingerprint(r.value));
    } else {
      var r := ledger.RecordCheckpoint(call.cp, call.items, now);
      answer := Nothing;
    }
  }

  /**
   * Both ledgers, asked the same from contents that differ at most in which unfinished work was
   * interrupted: every answer is the same, and so are blocked work, finished work and history in the end.
   */
  method AskBoth(file: J.JsonUpgradeLedger, table: S.EngineeringStoreUpgradeLedger, calls: seq<Call>, now: int)
    returns (fromFile: seq<Answer>, fromTable: seq<Answer>)
    requires file.maxCheckpoints == table.maxCheckpoints >= 1
    requires J.Contents(file.file).Ok? && Keyed(InFile(file).records) && S.Readable(table.table.rows, table.namespace)
    requires AbstractStore(InFile(file)) == AbstractStore(InTable(table))
    modifies file, table.table
    ensures fromFile == fromTable && |fromFile| == |calls|
    ensures J.Contents(file.file).Ok? && InFile(file).history == InTable(table).history
    ensures Abstract(InFile(file).records) == Abstract(InTable(table).records)
    ensures BlockedIds(InFile(file).records) == BlockedIds(InTable(table).records)
    ensures InState(InFile(file).records, SUCCEEDED) == InState(InTable(table).records, SUCCEEDED)
  {
    fromFile, fromTable := [], [];
    ghost var inFile, inTable, n := InFile(file), InTable(table), file.maxCheckpoints;
    for k := 0 to |calls|
      invariant |fromFile| == k && J.Contents(file.file).Ok? && Keyed(InFile(file).records)
      invariant S.Readable(table.table.rows, table.namespace)
      invariant (InFile(file), fromFile) == ServeAll(inFile, calls[..k], true, n)
      invariant (InTable(table), fromTable) == ServeAll(inTable, calls[..k], false, n)
    {
      assert calls[..k + 1][..k] == calls[..k];
      var answer := AskFile(file, calls[k]);
      var answer' := AskTable(table, calls[k], now);
      fromFile, fromTable := fromFile + [answer], fromTable + [answer'];
    }
    assert calls[..|calls|] == calls;
    LedgersAgree(inFile, inTable, calls, n);
  }
}
