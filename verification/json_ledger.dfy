/** The ledger kept in one JSON file, replaced as a whole by every write. */
module JsonLedger {
  import opened Work
  import opened Ledger

  const SCHEMA_VERSION := 1

  /** A readable ledger file with its two collections. */
  datatype Document = Document(records: Records, checkpoints: seq<Checkpoint>)

  /** What is on disk. A decoded file can have another schema version, or lack the two collections. */
  datatype LedgerFile = Missing | Unreadable | Decoded(schema: int, structured: bool, document: Document)

  function Contents(file: LedgerFile): (r: LedgerResult<Document>)
    ensures r.Ok? <==> file.Missing? || (file.Decoded? && file.schema == 1 && file.structured)
    ensures r.Ok? ==> if file.Missing? then r.value.records == map[] && r.value.checkpoints == [] else r.value == file.document
  {
    match file
    case Missing => Ok(Document(map[], []))
    case Unreadable => Err("unable to read upgrade ledger")
    case Decoded(schema, structured, document) =>
      if schema != SCHEMA_VERSION then Err("unsupported upgrade ledger schema")
      else if !structured then Err("invalid upgrade ledger structure")
      else Ok(document)
  }

  /** Blocked work is reopened among the listed records. */
  predicate Reopens(m: Records, order: seq<Fingerprint>, retryBlocked: bool)
    requires forall f :: f in order ==> f in m
  {
    order != [] &&
    (Reopens(m, order[..|order| - 1], retryBlocked) || (retryBlocked && m[order[|order| - 1]].state == BLOCKED))
  }

  lemma {:induction false} ReopensSome(m: Records, order: seq<Fingerprint>, retryBlocked: bool)
    requires forall f :: f in order ==> f in m
    ensures Reopens(m, order, retryBlocked) <==> retryBlocked && exists f :: f in order && m[f].state == BLOCKED
  {
    if order != [] {
      ReopensSome(m, order[..|order| - 1], retryBlocked);
      assert order == order[..|order| - 1] + [order[|order| - 1]];
    }
  }

  lemma ReopensBlocked(m: Records, order: seq<Fingerprint>, retryBlocked: bool)
    requires Order(order, m.Keys)
    ensures Reopens(m, order, retryBlocked) <==> retryBlocked && !NoneBlocked(m)
    ensures !Reopens(m, order, retryBlocked) ==> ResetAll(m, retryBlocked, true) == m
  {
    ReopensSome(m, order, retryBlocked);
  }

  /** Every record that may be resumed belongs under its key. */
  ghost predicate Resumables(m: Records, retryBlocked: bool) {
    forall f :: f in m && Reopen(m[f], retryBlocked).Some? ==> m[f].fingerprint == f
  }

  class JsonUpgradeLedger {
    const maxCheckpoints: nat
    var file: LedgerFile

    constructor (file: LedgerFile, maxCheckpoints: nat)
      requires maxCheckpoints >= 1
      ensures this.file == file && this.maxCheckpoints == maxCheckpoints
    {
      this.file, this.maxCheckpoints := file, maxCheckpoints;
    }

    /** What can be read of the file: a read that fails says no more than an unreadable file. */
    function Read(access: Access): LedgerResult<Document>
      reads this
    {
      if access.ReadFails? then Contents(Unreadable) else Contents(file)
    }

    /** Replaces the file; a write that fails leaves the old file in place. */
    method Replace(document: Document, access: Access) returns (ok: bool)
      modifies this
      ensures ok == access.Works?
      ensures file == if access.Works? then Decoded(SCHEMA_VERSION, true, document) else old(file)
    {
      if access.Works? { file := Decoded(SCHEMA_VERSION, true, document); }
      return access.Works?;
    }

    method RestoreOrRegister(item: Item, retryBlocked: bool, access: Access) returns (r: LedgerResult<Option<Item>>)
      modifies this
      ensures r.Err? ==> file == old(file)
      ensures r.Ok? <==>
        old(Read(access)).Ok? && (access.Works? || Restored(old(Contents(file)).value.records, item, retryBlocked).None?)
      ensures r.Ok? ==>
        var before := old(Contents(file)).value;
        && r.value == Restored(before.records, item, retryBlocked)
        && Contents(file) == Ok(before.(records := Registered(before.records, item, retryBlocked)))
        && HandsOut(before.records, item, retryBlocked, r.value, Contents(file).value.records)
    {
      var data := Read(access);
      if data.Err? { return Err(data.reason); }
      var records := data.value.records;
      if item.fingerprint !in records {
        var ok := Replace(data.value.(records := records[item.fingerprint := item]), access);
        return if ok then Ok(Some(item)) else Err("unable to write upgrade ledger");
      }
      var record := records[item.fingerprint];
      if record.state == SUCCEEDED || (record.state == BLOCKED && !retryBlocked) { return Ok(None); }
      var attempts := if record.state == BLOCKED then 0 else record.attempts;
      var restored := record.(state := PENDING, attempts := attempts);
      var ok := Replace(data.value.(records := records[restored.fingerprint := restored]), access);
      return if ok then Ok(Some(restored)) else Err("unable to write upgrade ledger");
    }

    /** What one more record adds. */
    static lemma ReopenedNext(m: Records, front: seq<Fingerprint>, f: Fingerprint, retryBlocked: bool)
      requires (forall g :: g in front ==> g in m) && f in m && f !in front
      ensures
        var next := Reopen(m[f], retryBlocked);
        && ResetUpTo(m, front, retryBlocked, true)[f] == m[f]
        && Resumed(m, front + [f], retryBlocked)
          == Resumed(m, front, retryBlocked) + (if next.Some? then [next.value] else [])
        && ResetUpTo(m, front + [f], retryBlocked, true)
          == ResetUpTo(m, front, retryBlocked, true)[f := Reset(m[f], retryBlocked, true)]
        && Reopens(m, front + [f], retryBlocked)
          == (Reopens(m, front, retryBlocked) || (retryBlocked && m[f].state == BLOCKED))
    {
      hide Reopen, Reset;
      assert (front + [f])[..|front|] == front;
      ResetAt(m, front, retryBlocked, true, f);
    }

    static lemma KeyedNext(m: Records, front: seq<Fingerprint>, f: Fingerprint, retryBlocked: bool)
      requires f in m
      ensures ResumableKeyed(m, front + [f], retryBlocked) <==>
        ResumableKeyed(m, front, retryBlocked) && (Reopen(m[f], retryBlocked).Some? ==> m[f].fingerprint == f)
    {
      hide Reopen;
      assert forall g :: g in front + [f] <==> g in front || g == f;
    }

    static lemma KeyedFront(m: Records, order: seq<Fingerprint>, k: nat, retryBlocked: bool)
      requires k <= |order| && ResumableKeyed(m, order, retryBlocked)
      ensures ResumableKeyed(m, order[..k], retryBlocked)
    {
      hide Reopen;
    }

    static lemma NothingReopened(m: Records, retryBlocked: bool)
      ensures Resumed(m, [], retryBlocked) == [] && ResetUpTo(m, [], retryBlocked, true) == m
      ensures ResumableKeyed(m, [], retryBlocked) && !Reopens(m, [], retryBlocked)
    {
    }

    static lemma FrontOf(order: seq<Fingerprint>, k: nat)
      requires NoDup(order) && k < |order|
      ensures order[..k + 1] == order[..k] + [order[k]] && order[k] !in order[..k] && order[k] in order
    {
    }

    /** Goes through the records, reopening what may be resumed, until one does not belong under its key. */
    static method Reopened(before: Records, order: seq<Fingerprint>, retryBlocked: bool)
      returns (items: seq<Item>, records: Records, changed: bool, ok: bool)
      requires Order(order, before.Keys)
      ensures ok <==> ResumableKeyed(before, order, retryBlocked)
      ensures ok ==> items == Resumed(before, order, retryBlocked)
      ensures ok ==> records == ResetUpTo(before, order, retryBlocked, true) && changed == Reopens(before, order, retryBlocked)
    {
      hide Resumed, ResetUpTo, ResumableKeyed, Reopens, NoDup;
      items, records, changed := [], before, false;
      assert order[..0] == [];
      NothingReopened(before, retryBlocked);
      for k := 0 to |order|
        invariant items == Resumed(before, order[..k], retryBlocked)
        invariant records == ResetUpTo(before, order[..k], retryBlocked, true)
        invariant ResumableKeyed(before, order[..k], retryBlocked)
        invariant changed == Reopens(before, order[..k], retryBlocked)
      {
        var f := order[k];
        FrontOf(order, k);
        ReopenedNext(before, order[..k], f, retryBlocked);
        KeyedNext(before, order[..k], f, retryBlocked);
        var record := records[f];
        if record.state == SUCCEEDED || (record.state == BLOCKED && !retryBlocked) {
          assert records[f := record] == records;
        } else {
          var attempts := record.attempts;
          if record.state == BLOCKED {
            attempts := 0;
            records := records[f := record.(state := PENDING, attempts := 0)];
            changed := true;
          } else {
            assert records[f := record] == records;
          }
          var item := record.(state := PENDING, attempts := attempts);
          if item.fingerprint != f {
            if ResumableKeyed(before, order, retryBlocked) { KeyedFront(before, order, k + 1, retryBlocked); }
            return items, records, changed, false;
          }
          items := items + [item];
        }
      }
      assert order[..|order|] == order;
      return items, records, changed, true;
    }

    /** All resumable items, once each; the file is rewritten only when blocked work was reopened. */
    method LoadResumable(retryBlocked: bool, access: Access) returns (r: LedgerResult<seq<Item>>)
      modifies this
      ensures r.Err? ==> file == old(file)
      ensures r.Ok? <==>
        && old(Read(access)).Ok?
        && Resumables(old(Contents(file)).value.records, retryBlocked)
        && (access.Works? || !retryBlocked || NoneBlocked(old(Contents(file)).value.records))
      ensures r.Ok? ==>
        var before := old(Contents(file)).value;
        && Lists(r.value, Resumable(before.records, retryBlocked))
        && Contents(file) == Ok(before.(records := ResetAll(before.records, retryBlocked, true)))
        && HandsAllOut(before.records, retryBlocked, true, r.value, Contents(file).value.records)
    {
      var data := Read(access);
      if data.Err? { return Err(data.reason); }
      var before := data.value.records;
      var order := ListKeys(before.Keys);
      var items, records, changed, ok := Reopened(before, order, retryBlocked);
      if !ok { return Err("ledger fingerprint mismatch"); }
      ResumedLists(before, order, retryBlocked);
      ResetWhole(before, order, retryBlocked, true);
      ReopensBlocked(before, order, retryBlocked);
      HandedAllOut(before, retryBlocked, true, items);
      if changed {
        var replaced := Replace(data.value.(records := records), access);
        if !replaced { return Err("unable to write upgrade ledger"); }
      }
      return Ok(items);
    }

    /** Stores every item and appends the checkpoint, in one replacement of the file. */
    method RecordCheckpoint(cp: Checkpoint, items: seq<Item>, access: Access) returns (r: LedgerResult<()>)
      requires maxCheckpoints >= 1
      modifies this
      ensures r.Ok? <==> old(Contents(file)).Ok? && access.Works?
      ensures r.Err? ==> file == old(file)
      ensures r.Ok? ==>
        var before := old(Contents(file)).value;
        Contents(file) == Ok(Document(
          AfterCheckpoint(before.records, cp, items), LastN(before.checkpoints + [cp], maxCheckpoints)))
    {
      var data := Read(access);
      if data.Err? { return Err(data.reason); }
      var records := data.value.records;
      for k := 0 to |items|
        invariant records == AfterCheckpoint(data.value.records, cp, items[..k])
      {
        assert items[..k + 1][..k] == items[..k];
        var item := items[k];
        var state := item.state;
        if item.itemId in cp.completed {
          state := SUCCEEDED;
        } else if item.itemId in cp.blocked {
          state := BLOCKED;
        } else if item.itemId in cp.pending {
          state := PENDING;
        } else if cp.active == Some(item.itemId) {
          state := RUNNING;
        }
        records := records[item.fingerprint := item.(state := state)];
      }
      assert items[..|items|] == items;
      var ok := Replace(Document(records, LastN(data.value.checkpoints + [cp], maxCheckpoints)), access);
      return if ok then Ok(()) else Err("unable to write upgrade ledger");
    }

    method StateFor(f: Fingerprint, access: Access) returns (r: LedgerResult<Option<WorkState>>)
      ensures r.Ok? <==> Read(access).Ok?
      ensures r.Ok? ==> (r.value.None? <==> f !in Contents(file).value.records)
      ensures r.Ok? && r.value.Some? ==> r.value.value == Contents(file).value.records[f].state
    {
      var data := Read(access);
      if data.Err? { return Err(data.reason); }
      return Ok(if f in data.value.records then Some(data.value.records[f].state) else None);
    }

    method BlockedItemIds(access: Access) returns (r: LedgerResult<seq<ItemId>>)
      ensures r.Ok? <==> Read(access).Ok?
      ensures r.Ok? ==> forall id :: id in r.value <==> id in BlockedIds(Contents(file).value.records)
    {
      var data := Read(access);
      if data.Err? { return Err(data.reason); }
      var ids := ListBlocked(data.value.records);
      return Ok(ids);
    }

    /** How many records are SUCCEEDED, and how many BLOCKED. */
    method TerminalCounts(access: Access) returns (r: LedgerResult<(nat, nat)>)
      ensures r.Ok? <==> Read(access).Ok?
      ensures r.Ok? ==>
        r.value == (|InState(Contents(file).value.records, SUCCEEDED)|, |InState(Contents(file).value.records, BLOCKED)|)
    {
      var data := Read(access);
      if data.Err? { return Err(data.reason); }
      var succeeded, blocked := CountTerminal(data.value.records);
      return Ok((succeeded, blocked));
    }
  }
}
