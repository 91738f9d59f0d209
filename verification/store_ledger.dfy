/** The ledger kept as one task per record, plus a control task, in a table shared with other work. */
module StoreLedger {
  import opened Work
  import opened Ledger
  import F = Fence

  type Rows = map<F.TaskId, F.Task>

  // ----- decoding rows

  predicate IsMarked(m: F.Metadata, namespace: string, control: bool) {
    && !m.Malformed? && m.schema == F.SCHEMA_VERSION && m.namespace == namespace
    && (if control then m.ControlMarker? else m.WorkMarker?)
  }

  function WorkKeys(rows: Rows, namespace: string): (keys: set<Fingerprint>)
    ensures forall f :: f in keys <==> F.WorkTask(namespace, f) in rows
  {
    assert forall f :: F.WorkTask(namespace, f) in rows ==> F.WorkTask(namespace, f).fingerprint == f;
    set id | id in rows && id.WorkTask? && id.namespace == namespace :: id.fingerprint
  }

  /** The record a work row carries, when its marker, identity and content agree. */
  function ReadRow(rows: Rows, namespace: string, f: Fingerprint): (r: LedgerResult<Item>)
    requires F.WorkTask(namespace, f) in rows
    ensures
      var m := rows[F.WorkTask(namespace, f)].metadata;
      r.Ok? <==>
        && m.WorkMarker? && m.schema == 1 && m.namespace == namespace && m.fingerprint == f
        && m.record.Some? && m.record.value.fingerprint == f
    ensures r.Ok? ==> r.value.fingerprint == f && rows[F.WorkTask(namespace, f)].metadata.record == Some(r.value)
  {
    var m := rows[F.WorkTask(namespace, f)].metadata;
    if !IsMarked(m, namespace, false) then Err("EngineeringStore upgrade marker mismatch")
    else if m.fingerprint != f then Err("EngineeringStore upgrade task identity mismatch")
    else if m.record.None? then Err("invalid EngineeringStore upgrade work record")
    else if m.record.value.fingerprint != f then Err("EngineeringStore upgrade content fingerprint mismatch")
    else Ok(m.record.value)
  }

  /** The records of one namespace, as far as they can be read. */
  function View(rows: Rows, namespace: string): Records {
    map f | f in WorkKeys(rows, namespace) && ReadRow(rows, namespace, f).Ok? :: ReadRow(rows, namespace, f).value
  }

  predicate ControlReadable(rows: Rows, namespace: string) {
    F.ControlTask(namespace) in rows ==> IsMarked(rows[F.ControlTask(namespace)].metadata, namespace, true)
  }

  predicate Marked(rows: Rows, namespace: string) {
    && ControlReadable(rows, namespace)
    && forall f :: f in WorkKeys(rows, namespace) ==> IsMarked(rows[F.WorkTask(namespace, f)].metadata, namespace, false)
  }

  /** Every row of the namespace can be read. */
  predicate Readable(rows: Rows, namespace: string) {
    && ControlReadable(rows, namespace)
    && forall f :: f in WorkKeys(rows, namespace) ==> ReadRow(rows, namespace, f).Ok?
  }

  function History(rows: Rows, namespace: string): seq<Checkpoint> {
    var id := F.ControlTask(namespace);
    if id in rows && rows[id].metadata.ControlMarker? then rows[id].metadata.checkpoints else []
  }

  /** All rows are the same, but those of the namespace's work with one of these fingerprints. */
  ghost predicate SameBut(rows: Rows, rows': Rows, namespace: string, touched: set<Fingerprint>) {
    forall id: F.TaskId :: !(id.WorkTask? && id.namespace == namespace && id.fingerprint in touched) ==>
      (id in rows <==> id in rows') && (id in rows ==> rows'[id] == rows[id])
  }

  function Fingerprints(items: seq<Item>): set<Fingerprint> {
    set x | x in items :: x.fingerprint
  }

  /** Every row keeps its creation time, and a new row is created now. */
  ghost predicate KeepsTimes(rows: Rows, rows': Rows, now: int) {
    && (forall id :: id in rows ==> id in rows' && rows'[id].createdAt == rows[id].createdAt)
    && (forall id :: id in rows' && id !in rows ==> rows'[id].createdAt == now)
  }

  /** No row of the namespace can be claimed as executable work. */
  ghost predicate Unclaimable(rows: Rows, namespace: string) {
    forall f :: f in WorkKeys(rows, namespace) ==> rows[F.WorkTask(namespace, f)].status != F.CREATED
  }

  /** A row is SUCCEEDED exactly if its record is, and PAUSED otherwise. */
  ghost predicate StatusTells(rows: Rows, namespace: string) {
    forall f :: f in View(rows, namespace) ==>
      rows[F.WorkTask(namespace, f)].status
        == if View(rows, namespace)[f].state == SUCCEEDED then F.TASK_SUCCEEDED else F.PAUSED
  }

  /** A control row no worker can claim, written by a ledger, which knows no fence. */
  ghost predicate AtRest(control: F.Task) {
    control.status == F.PAUSED && control.metadata.ControlMarker? && control.metadata.generation.Absent?
  }

  /** What no call of the ledger takes away from the table. */
  ghost predicate Carried(rows: Rows, rows': Rows, namespace: string, now: int) {
    && KeepsTimes(rows, rows', now)
    && (Unclaimable(rows, namespace) ==> Unclaimable(rows', namespace))
    && (StatusTells(rows, namespace) ==> StatusTells(rows', namespace))
    && (Readable(rows, namespace) ==> Readable(rows', namespace))
  }

  // ----- writing rows

  function Saved(rows: Rows, namespace: string, item: Item, now: int): Rows {
    var id := F.WorkTask(namespace, item.fingerprint);
    var status := if item.state == SUCCEEDED then F.TASK_SUCCEEDED else F.PAUSED;
    var marker := F.WorkMarker(F.SCHEMA_VERSION, namespace, item.fingerprint, Some(item));
    rows[id := F.Task(id, status, if id in rows then rows[id].createdAt else now, marker)]
  }

  lemma SavedRow(rows: Rows, namespace: string, item: Item, now: int, f: Fingerprint)
    ensures
      var rows' := Saved(rows, namespace, item, now);
      && (f in WorkKeys(rows', namespace) <==> f in WorkKeys(rows, namespace) || f == item.fingerprint)
      && (f == item.fingerprint ==> ReadRow(rows', namespace, f) == Ok(item))
      && (f != item.fingerprint && f in WorkKeys(rows, namespace) ==>
            ReadRow(rows', namespace, f) == ReadRow(rows, namespace, f))
  {
  }

  /** Workers that claim CREATED tasks can never pick up a ledger record, whatever is saved. */
  lemma SavedUnclaimable(rows: Rows, namespace: string, item: Item, now: int)
    ensures Carried(rows, Saved(rows, namespace, item, now), namespace, now)
  {
    var rows' := Saved(rows, namespace, item, now);
    forall f | f in WorkKeys(rows', namespace)
      ensures Unclaimable(rows, namespace) ==> rows'[F.WorkTask(namespace, f)].status != F.CREATED
      ensures Readable(rows, namespace) ==> ReadRow(rows', namespace, f).Ok?
      ensures StatusTells(rows, namespace) && f in View(rows', namespace) ==>
        rows'[F.WorkTask(namespace, f)].status
          == if View(rows', namespace)[f].state == SUCCEEDED then F.TASK_SUCCEEDED else F.PAUSED
    {
      SavedRow(rows, namespace, item, now, f);
      if f != item.fingerprint { assert f in WorkKeys(rows, namespace); }
    }
  }

  /** Saving an item changes its record and nothing else. */
  lemma SavedView(rows: Rows, namespace: string, item: Item, now: int)
    ensures View(Saved(rows, namespace, item, now), namespace) == View(rows, namespace)[item.fingerprint := item]
    ensures SameBut(rows, Saved(rows, namespace, item, now), namespace, {item.fingerprint})
    ensures Carried(rows, Saved(rows, namespace, item, now), namespace, now)
  {
    hide Carried, IsMarked, ReadRow;
    SavedUnclaimable(rows, namespace, item, now);
    var rows' := Saved(rows, namespace, item, now);
    forall f
      ensures f in View(rows', namespace) <==> f in View(rows, namespace)[item.fingerprint := item]
      ensures f in View(rows', namespace) ==>
        View(rows', namespace)[f] == View(rows, namespace)[item.fingerprint := item][f]
    {
      SavedRow(rows, namespace, item, now, f);
    }
  }

  function SavedAll(rows: Rows, namespace: string, cp: Checkpoint, items: seq<Item>, now: int): Rows {
    if items == [] then rows
    else Saved(SavedAll(rows, namespace, cp, items[..|items| - 1], now), namespace, ToPersist(items[|items| - 1], cp), now)
  }

  lemma {:induction false} SavedAllView(rows: Rows, namespace: string, cp: Checkpoint, items: seq<Item>, now: int)
    ensures View(SavedAll(rows, namespace, cp, items, now), namespace) == AfterCheckpoint(View(rows, namespace), cp, items)
    ensures SameBut(rows, SavedAll(rows, namespace, cp, items, now), namespace, Fingerprints(items))
    ensures Carried(rows, SavedAll(rows, namespace, cp, items, now), namespace, now)
  {
    if items != [] {
      var front := items[..|items| - 1];
      assert Fingerprints(front) <= Fingerprints(items) && items[|items| - 1] in items;
      SavedAllView(rows, namespace, cp, front, now);
      SavedView(SavedAll(rows, namespace, cp, front, now), namespace, ToPersist(items[|items| - 1], cp), now);
    }
  }

  function ResavedUpTo(
    rows: Rows, namespace: string, m: Records, order: seq<Fingerprint>, retryBlocked: bool, now: int): Rows
    requires forall f :: f in order ==> f in m
  {
    if order == [] then rows
    else
      var before := ResavedUpTo(rows, namespace, m, order[..|order| - 1], retryBlocked, now);
      var next := Reopen(m[order[|order| - 1]], retryBlocked);
      if next.Some? then Saved(before, namespace, next.value, now) else before
  }

  lemma {:induction false} ResavedOthers(
    rows: Rows, namespace: string, m: Records, order: seq<Fingerprint>, retryBlocked: bool, now: int)
    requires (forall f :: f in order ==> f in m) && Keyed(m)
    ensures
      var rows' := ResavedUpTo(rows, namespace, m, order, retryBlocked, now);
      SameBut(rows, rows', namespace, Resumable(m, retryBlocked).Keys) && Carried(rows, rows', namespace, now)
  {
    if order != [] {
      var front, next := order[..|order| - 1], Reopen(m[order[|order| - 1]], retryBlocked);
      ResavedOthers(rows, namespace, m, front, retryBlocked, now);
      if next.Some? { SavedView(ResavedUpTo(rows, namespace, m, front, retryBlocked, now), namespace, next.value, now); }
    }
  }

  /** One more record loaded. */
  lemma ResavedNext(
    before: Rows, namespace: string, m: Records, front: seq<Fingerprint>, f: Fingerprint, retryBlocked: bool, now: int)
    requires (forall g :: g in front ==> g in m) && f in m && f !in front && m[f].fingerprint == f
    requires View(before, namespace) == ResetUpTo(m, front, retryBlocked, false)
    ensures
      var next := Reopen(m[f], retryBlocked);
      View(if next.Some? then Saved(before, namespace, next.value, now) else before, namespace)
        == ResetUpTo(m, front, retryBlocked, false)[f := Reset(m[f], retryBlocked, false)]
  {
    var next := Reopen(m[f], retryBlocked);
    if next.Some? {
      SavedView(before, namespace, next.value, now);
    } else {
      ResetAt(m, front, retryBlocked, false, f);
    }
  }

  lemma {:induction false} ResavedView(
    rows: Rows, namespace: string, m: Records, order: seq<Fingerprint>, retryBlocked: bool, now: int)
    requires (forall f :: f in order ==> f in m) && Keyed(m) && m == View(rows, namespace) && NoDup(order)
    ensures View(ResavedUpTo(rows, namespace, m, order, retryBlocked, now), namespace)
      == ResetUpTo(m, order, retryBlocked, false)
  {
    if order != [] {
      var front, last := order[..|order| - 1], order[|order| - 1];
      ResavedView(rows, namespace, m, front, retryBlocked, now);
      ResavedNext(
        ResavedUpTo(rows, namespace, m, front, retryBlocked, now), namespace, m, front, last, retryBlocked, now);
    }
  }

  /** The pass over the listed records stopped at the k-th one, which cannot be read. */
  ghost predicate StoppedAt(
    rows: Rows, rows': Rows, namespace: string, m: Records, order: seq<Fingerprint>, retryBlocked: bool, now: int, k: nat)
  {
    && k < |order| && order[k] !in m && (forall f :: f in order[..k] ==> f in m)
    && rows' == ResavedUpTo(rows, namespace, m, order[..k], retryBlocked, now)
  }

  /** Some of the records were saved as they were resumed, the others are as before. */
  ghost predicate PartlyReset(m: Records, m': Records, retryBlocked: bool) {
    m'.Keys == m.Keys && forall f :: f in m ==> m'[f] == m[f] || m'[f] == Reset(m[f], retryBlocked, false)
  }

  lemma StoppedReset(
    rows: Rows, rows': Rows, namespace: string, order: seq<Fingerprint>, retryBlocked: bool, now: int, k: nat)
    requires NoDup(order) && StoppedAt(rows, rows', namespace, View(rows, namespace), order, retryBlocked, now, k)
    ensures PartlyReset(View(rows, namespace), View(rows', namespace), retryBlocked)
  {
    hide View, ResavedUpTo;
    var m := View(rows, namespace);
    ViewKeyed(rows, namespace);
    ResavedView(rows, namespace, m, order[..k], retryBlocked, now);
    forall f | f in m
      ensures View(rows', namespace)[f] == m[f] || View(rows', namespace)[f] == Reset(m[f], retryBlocked, false)
    {
      ResetAt(m, order[..k], retryBlocked, false, f);
    }
  }

  lemma ViewKeyed(rows: Rows, namespace: string)
    ensures Keyed(View(rows, namespace))
    ensures forall f :: f in View(rows, namespace) ==> F.WorkTask(namespace, f) in rows
  {
  }

  class EngineeringStoreUpgradeLedger {
    const table: F.EngineeringTable
    const namespace: string
    const maxCheckpoints: nat

    constructor (table: F.EngineeringTable, namespace: string, maxCheckpoints: nat)
      requires maxCheckpoints >= 1
      ensures this.table == table && this.namespace == namespace && this.maxCheckpoints == maxCheckpoints
    {
      this.table, this.namespace, this.maxCheckpoints := table, namespace, maxCheckpoints;
    }

    ghost function Contents(): Records
      reads table
    {
      View(table.rows, namespace)
    }

    method SaveItem(item: Item, now: int)
      modifies table
      ensures table.rows == Saved(old(table.rows), namespace, item, now)
    {
      table.rows := Saved(table.rows, namespace, item, now);
    }

    /** Only the item's own record is written; a record that cannot be read is left alone. */
    method RestoreOrRegister(item: Item, retryBlocked: bool, now: int) returns (r: LedgerResult<Option<Item>>)
      modifies table
      ensures r.Err? ==> table.rows == old(table.rows)
      ensures r.Ok? <==>
        item.fingerprint !in WorkKeys(old(table.rows), namespace) || item.fingerprint in old(Contents())
      ensures r.Ok? ==>
        && r.value == Restored(old(Contents()), item, retryBlocked)
        && Contents() == Registered(old(Contents()), item, retryBlocked)
        && HandsOut(old(Contents()), item, retryBlocked, r.value, Contents())
        && SameBut(old(table.rows), table.rows, namespace, {item.fingerprint})
        && Carried(old(table.rows), table.rows, namespace, now)
    {
      ViewKeyed(table.rows, namespace);
      if F.WorkTask(namespace, item.fingerprint) !in table.rows {
        SavedView(table.rows, namespace, item, now);
        SaveItem(item, now);
        return Ok(Some(item));
      }
      var record := ReadRow(table.rows, namespace, item.fingerprint);
      if record.Err? { return Err(record.reason); }
      var state := record.value.state;
      if state == SUCCEEDED || (state == BLOCKED && !retryBlocked) { return Ok(None); }
      var attempts := if state == BLOCKED then 0 else record.value.attempts;
      var restored := record.value.(state := PENDING, attempts := attempts);
      SavedView(table.rows, namespace, restored, now);
      SaveItem(restored, now);
      return Ok(Some(restored));
    }

    /** Lists the keys of the namespace, once every marker was found valid. */
    method RecordTasks() returns (r: LedgerResult<seq<Fingerprint>>)
      ensures r.Ok? <==> Marked(table.rows, namespace)
      ensures r.Ok? ==> Order(r.value, WorkKeys(table.rows, namespace))
    {
      if !Marked(table.rows, namespace) { return Err("EngineeringStore upgrade marker mismatch"); }
      var order := ListKeys(WorkKeys(table.rows, namespace));
      return Ok(order);
    }

    /** Reads the listed records as they were, and saves those that may be resumed, until one cannot be read. */
    method Resave(order: seq<Fingerprint>, retryBlocked: bool, now: int) returns (r: LedgerResult<seq<Item>>)
      requires forall f :: f in order ==> f in WorkKeys(table.rows, namespace)
      modifies table
      ensures SameBut(old(table.rows), table.rows, namespace, Resumable(old(Contents()), retryBlocked).Keys)
      ensures Carried(old(table.rows), table.rows, namespace, now)
      ensures r.Ok? <==> forall f :: f in order ==> f in old(Contents())
      ensures r.Ok? ==> r.value == Resumed(old(Contents()), order, retryBlocked)
      ensures r.Ok? ==>
        table.rows == ResavedUpTo(old(table.rows), namespace, old(Contents()), order, retryBlocked, now)
      ensures r.Err? ==>
        exists k :: StoppedAt(old(table.rows), table.rows, namespace, old(Contents()), order, retryBlocked, now, k)
    {
      var before := table.rows;
      ghost var m := View(before, namespace);
      ViewKeyed(before, namespace);
      var items: seq<Item> := [];
      for k := 0 to |order|
        invariant forall f :: f in order[..k] ==> f in m
        invariant table.rows == ResavedUpTo(before, namespace, m, order[..k], retryBlocked, now)
        invariant items == Resumed(m, order[..k], retryBlocked)
      {
        var f := order[k];
        assert order[..k + 1][..k] == order[..k] && order[..k + 1] == order[..k] + [f];
        assert f in order && f in WorkKeys(before, namespace);
        var record := ReadRow(before, namespace, f);
        if record.Err? {
          ResavedOthers(before, namespace, m, order[..k], retryBlocked, now);
          assert StoppedAt(before, table.rows, namespace, m, order, retryBlocked, now, k);
          return Err(record.reason);
        }
        if record.value.state != SUCCEEDED && (record.value.state != BLOCKED || retryBlocked) {
          var attempts := if record.value.state == BLOCKED then 0 else record.value.attempts;
          var item := record.value.(state := PENDING, attempts := attempts);
          SaveItem(item, now);
          items := items + [item];
        }
      }
      assert order[..|order|] == order;
      ResavedOthers(before, namespace, m, order, retryBlocked, now);
      return Ok(items);
    }

    /** All resumable items, once each, every one of them saved again. */
    method LoadResumable(retryBlocked: bool, now: int) returns (r: LedgerResult<seq<Item>>)
      modifies table
      ensures SameBut(old(table.rows), table.rows, namespace, Resumable(old(Contents()), retryBlocked).Keys)
      ensures Carried(old(table.rows), table.rows, namespace, now)
      ensures r.Ok? <==> Readable(old(table.rows), namespace)
      ensures r.Ok? ==>
        && Readable(table.rows, namespace)
        && Lists(r.value, Resumable(old(Contents()), retryBlocked))
        && Contents() == ResetAll(old(Contents()), retryBlocked, false)
        && HandsAllOut(old(Contents()), retryBlocked, false, r.value, Contents())
      ensures r.Err? ==>
        && (!Marked(old(table.rows), namespace) ==> table.rows == old(table.rows))
        && PartlyReset(old(Contents()), Contents(), retryBlocked)
    {
      ghost var before := table.rows;
      var listed := RecordTasks();
      if listed.Err? { return Err(listed.reason); }
      r := Resave(listed.value, retryBlocked, now);
      if r.Err? {
        ghost var k :|
          StoppedAt(before, table.rows, namespace, View(before, namespace), listed.value, retryBlocked, now, k);
        StoppedReset(before, table.rows, namespace, listed.value, retryBlocked, now, k);
      } else {
        LoadedView(before, namespace, View(before, namespace), listed.value, retryBlocked, now);
        ViewKeyed(before, namespace);
        HandedAllOut(View(before, namespace), retryBlocked, false, r.value);
      }
    }

    /** Saves the items one after the other, in the states a checkpoint gives them. */
    method SaveItems(cp: Checkpoint, items: seq<Item>, now: int)
      modifies table
      ensures Contents() == AfterCheckpoint(old(Contents()), cp, items)
      ensures SameBut(old(table.rows), table.rows, namespace, Fingerprints(items))
      ensures Carried(old(table.rows), table.rows, namespace, now)
    {
      var before := table.rows;
      for k := 0 to |items|
        invariant table.rows == SavedAll(before, namespace, cp, items[..k], now)
      {
        assert items[..k + 1][..k] == items[..k];
        var item := items[k];
        var state := item.state;
        if item.itemId in cp.completed {
          state := SUCCEEDED;
        } else if item.itemId in cp.blocked {
          state := BLOCKED;
        } else if item.itemId in cp.pending {
          state := PENDING;
        } else if cp.active == Some(item.itemId) {
          state := RUNNING;
        }
        SaveItem(item.(state := state), now);
      }
      assert items[..|items|] == items;
      SavedAllView(before, namespace, cp, items, now);
    }

    /** Appends a checkpoint to the control task, which is never claimable and has no fence generation of its own. */
    method SaveControl(cp: Checkpoint, now: int) returns (r: LedgerResult<()>)
      requires maxCheckpoints >= 1
      modifies table
      ensures r.Ok? <==> ControlReadable(old(table.rows), namespace)
      ensures r.Err? ==> table.rows == old(table.rows)
      ensures r.Ok? ==>
        && History(table.rows, namespace) == LastN(History(old(table.rows), namespace) + [cp], maxCheckpoints)
        && ControlReadable(table.rows, namespace)
        && F.ControlTask(namespace) in table.rows && AtRest(table.rows[F.ControlTask(namespace)])
        && table.rows - {F.ControlTask(namespace)} == old(table.rows) - {F.ControlTask(namespace)}
        && Contents() == old(Contents()) && Carried(old(table.rows), table.rows, namespace, now)
    {
      hide Unclaimable, StatusTells, Readable, View;
      var id := F.ControlTask(namespace);
      var history, createdAt := [], now;
      if id in table.rows {
        var marker := table.rows[id].metadata;
        if !IsMarked(marker, namespace, true) { return Err("EngineeringStore upgrade marker mismatch"); }
        history, createdAt := marker.checkpoints, table.rows[id].createdAt;
      }
      var marker := F.ControlMarker(F.SCHEMA_VERSION, namespace, LastN(history + [cp], maxCheckpoints), F.Absent);
      ControlView(table.rows, namespace, F.Task(id, F.PAUSED, createdAt, marker), now);
      table.rows := table.rows[id := F.Task(id, F.PAUSED, createdAt, marker)];
      return Ok(());
    }

    /** Saves the items, then the control task with the checkpoint appended; no other row is touched. */
    method RecordCheckpoint(cp: Checkpoint, items: seq<Item>, now: int) returns (r: LedgerResult<()>)
      requires maxCheckpoints >= 1
      modifies table
      ensures r.Ok? <==> ControlReadable(old(table.rows), namespace)
      ensures Contents() == AfterCheckpoint(old(Contents()), cp, items)
      ensures Carried(old(table.rows), table.rows, namespace, now)
      ensures SameBut(
                old(table.rows) - {F.ControlTask(namespace)}, table.rows - {F.ControlTask(namespace)},
                namespace, Fingerprints(items))
      ensures r.Ok? ==>
        && History(table.rows, namespace) == LastN(History(old(table.rows), namespace) + [cp], maxCheckpoints)
        && ControlReadable(table.rows, namespace)
        && F.ControlTask(namespace) in table.rows && AtRest(table.rows[F.ControlTask(namespace)])
      ensures r.Err? ==> SameBut(old(table.rows), table.rows, namespace, Fingerprints(items))
    {
      hide View, Unclaimable, StatusTells, Readable, AfterCheckpoint;
      SaveItems(cp, items, now);
      r := SaveControl(cp, now);
    }

    method StateFor(f: Fingerprint) returns (r: LedgerResult<Option<WorkState>>)
      ensures r.Ok? <==> f !in WorkKeys(table.rows, namespace) || f in Contents()
      ensures r.Ok? ==> r.value == if f in Contents() then Some(Contents()[f].state) else None
    {
      ViewKeyed(table.rows, namespace);
      if F.WorkTask(namespace, f) !in table.rows { return Ok(None); }
      var record := ReadRow(table.rows, namespace, f);
      return if record.Err? then Err(record.reason) else Ok(Some(record.value.state));
    }

    /** All records of the namespace, if every one can be read. */
    method ReadAll() returns (r: LedgerResult<Records>)
      ensures r.Ok? <==> Readable(table.rows, namespace)
      ensures r.Ok? ==> r.value == Contents()
    {
      var listed := RecordTasks();
      if listed.Err? { return Err(listed.reason); }
      for k := 0 to |listed.value|
        invariant forall f :: f in listed.value[..k] ==>
          f in WorkKeys(table.rows, namespace) && ReadRow(table.rows, namespace, f).Ok?
      {
        assert listed.value[k] in WorkKeys(table.rows, namespace);
        var record := ReadRow(table.rows, namespace, listed.value[k]);
        if record.Err? { return Err(record.reason); }
      }
      assert listed.value[..|listed.value|] == listed.value;
      return Ok(View(table.rows, namespace));
    }

    method BlockedItemIds() returns (r: LedgerResult<seq<ItemId>>)
      ensures r.Ok? <==> Readable(table.rows, namespace)
      ensures r.Ok? ==> forall id :: id in r.value <==> id in BlockedIds(Contents())
    {
      var records := ReadAll();
      if records.Err? { return Err(records.reason); }
      var ids := ListBlocked(records.value);
      return Ok(ids);
    }

    method TerminalCounts() returns (r: LedgerResult<(nat, nat)>)
      ensures r.Ok? <==> Readable(table.rows, namespace)
      ensures r.Ok? ==> r.value == (|InState(Contents(), SUCCEEDED)|, |InState(Contents(), BLOCKED)|)
    {
      var records := ReadAll();
      if records.Err? { return Err(records.reason); }
      var succeeded, blocked := CountTerminal(records.value);
      return Ok((succeeded, blocked));
    }
  }

  lemma LoadedView(
    rows: Rows, namespace: string, m: Records, order: seq<Fingerprint>, retryBlocked: bool, now: int)
    requires m == View(rows, namespace) && Marked(rows, namespace)
    requires Order(order, WorkKeys(rows, namespace)) && forall f :: f in order ==> f in m
    ensures
      var rows' := ResavedUpTo(rows, namespace, m, order, retryBlocked, now);
      && Readable(rows, namespace) && Readable(rows', namespace)
      && Lists(Resumed(m, order, retryBlocked), Resumable(m, retryBlocked))
      && View(rows', namespace) == ResetAll(m, retryBlocked, false)
  {
    ViewKeyed(rows, namespace);
    ResavedOthers(rows, namespace, m, order, retryBlocked, now);
    ResavedView(rows, namespace, m, order, retryBlocked, now);
    ResetWhole(m, order, retryBlocked, false);
    ResumedLists(m, order, retryBlocked);
  }

  /** Writing the control task leaves the records alone. */
  lemma ControlView(rows: Rows, namespace: string, task: F.Task, now: int)
    requires task.id == F.ControlTask(namespace) && IsMarked(task.metadata, namespace, true)
    requires task.createdAt == if task.id in rows then rows[task.id].createdAt else now
    ensures View(rows[task.id := task], namespace) == View(rows, namespace)
    ensures Carried(rows, rows[task.id := task], namespace, now)
  {
    var rows' := rows[task.id := task];
    assert WorkKeys(rows', namespace) == WorkKeys(rows, namespace);
    assert forall f :: f in WorkKeys(rows, namespace) ==> rows'[F.WorkTask(namespace, f)] == rows[F.WorkTask(namespace, f)];
    assert View(rows', namespace) == View(rows, namespace) by { hide IsMarked; }
    hide View, ReadRow, IsMarked;
  }
}
