/** The rules both durable ledgers share: what is reopened, what a checkpoint stores. */
module Ledger {
  import opened Work
  import opened Offers

  type Records = map<Fingerprint, Item>

  datatype LedgerResult<+T> = Ok(value: T) | Err(reason: string)

  /** What the storage lets one ledger call do. */
  datatype Access = Works | ReadFails | WriteFails

  // ----- one record

  /** The item handed out again for a stored record, or None for a record that stays closed. */
  function Reopen(record: Item, retryBlocked: bool): Option<Item> {
    if record.state == SUCCEEDED then None
    else if record.state == BLOCKED && !retryBlocked then None
    else Some(record.(state := PENDING, attempts := if record.state == BLOCKED then 0 else record.attempts))
  }

  /** The state a checkpoint stores for an item, from the lists the item is in. */
  function StateToStore(item: Item, completed: bool, blocked: bool, pending: bool, active: bool): WorkState {
    if completed then SUCCEEDED
    else if blocked then BLOCKED
    else if pending then PENDING
    else if active then RUNNING
    else item.state
  }

  function ToPersist(item: Item, cp: Checkpoint): Item {
    var id := item.itemId;
    item.(state := StateToStore(item, id in cp.completed, id in cp.blocked, id in cp.pending, cp.active == Some(id)))
  }

  // ----- all records

  /** What restoring or registering an item leaves in the ledger. */
  function Registered(m: Records, item: Item, retryBlocked: bool): Records {
    if item.fingerprint !in m then m[item.fingerprint := item]
    else
      match Reopen(m[item.fingerprint], retryBlocked)
      case None => m
      case Some(restored) => m[restored.fingerprint := restored]
  }

  /** What restoring or registering an item hands to the caller. */
  function Restored(m: Records, item: Item, retryBlocked: bool): Option<Item> {
    if item.fingerprint !in m then Some(item) else Reopen(m[item.fingerprint], retryBlocked)
  }

  /** Everything handed out again after a restart. */
  function Resumable(m: Records, retryBlocked: bool): Records {
    map f | f in m && Reopen(m[f], retryBlocked).Some? :: Reopen(m[f], retryBlocked).value
  }

  /** The ledger after a checkpoint stored the given items one after the other. */
  function AfterCheckpoint(m: Records, cp: Checkpoint, items: seq<Item>): Records {
    if items == [] then m
    else
      var last := items[|items| - 1];
      AfterCheckpoint(m, cp, items[..|items| - 1])[last.fingerprint := ToPersist(last, cp)]
  }

  function InState(m: Records, state: WorkState): set<Fingerprint> {
    set f | f in m && m[f].state == state
  }

  /** Ids of blocked work, as far as they are known. */
  function BlockedIds(m: Records): set<ItemId> {
    set f | f in m && m[f].state == BLOCKED && m[f].itemId != "" :: m[f].itemId
  }

  ghost predicate NoneBlocked(m: Records) {
    forall f :: f in m ==> m[f].state != BLOCKED
  }

  predicate Keyed(m: Records) {
    forall f :: f in m ==> m[f].fingerprint == f
  }

  /** The list holds every item of the map once. */
  ghost predicate Lists(items: seq<Item>, m: Records) {
    && DistinctFingerprints(items)
    && (forall x :: x in items ==> x.fingerprint in m && m[x.fingerprint] == x)
    && (forall f :: f in m ==> m[f] in items)
  }

  // ----- what a ledger owes its caller

  /** A record that is withheld: finished work, and blocked work unless it may be retried. */
  predicate Withheld(record: Item, retryBlocked: bool) {
    record.state == SUCCEEDED || (record.state == BLOCKED && !retryBlocked)
  }

  /** The recorded work once more, still to be done; blocked work gets all its attempts back. */
  ghost predicate Again(record: Item, x: Item) {
    && x.state == PENDING && x.attempts == (if record.state == BLOCKED then 0 else record.attempts)
    && x.(state := record.state, attempts := record.attempts) == record
  }

  /** One item is handed out, or withheld; only its own record changes. */
  ghost predicate HandsOut(m: Records, item: Item, retryBlocked: bool, handed: Option<Item>, m': Records) {
    if item.fingerprint !in m then handed == Some(item) && m' == m[item.fingerprint := item]
    else
      var record := m[item.fingerprint];
      if Withheld(record, retryBlocked) then handed == None && m' == m
      else handed.Some? && Again(record, handed.value) && m' == m[record.fingerprint := handed.value]
  }

  /**
   * All that is not withheld is handed out once; reopened blocked work is stored so, other work that is
   * handed out only by a ledger that writes back whatever it hands out.
   */
  ghost predicate HandsAllOut(m: Records, retryBlocked: bool, onlyBlocked: bool, items: seq<Item>, m': Records) {
    && DistinctFingerprints(items)
    && (forall x :: x in items ==>
          && x.fingerprint in m && !Withheld(m[x.fingerprint], retryBlocked) && Again(m[x.fingerprint], x)
          && x.fingerprint in m'
          && m'[x.fingerprint] == if onlyBlocked && m[x.fingerprint].state != BLOCKED then m[x.fingerprint] else x)
    && m'.Keys == m.Keys
    && forall f :: f in m ==> if Withheld(m[f], retryBlocked) then m'[f] == m[f] else exists x :: x in items && x.fingerprint == f
  }

  lemma HandedAllOut(m: Records, retryBlocked: bool, onlyBlocked: bool, items: seq<Item>)
    requires Lists(items, Resumable(m, retryBlocked))
    requires forall f :: f in m && !Withheld(m[f], retryBlocked) ==> m[f].fingerprint == f
    ensures HandsAllOut(m, retryBlocked, onlyBlocked, items, ResetAll(m, retryBlocked, onlyBlocked))
  {
    forall f | f in m && !Withheld(m[f], retryBlocked) ensures exists x :: x in items && x.fingerprint == f {
      assert f in Resumable(m, retryBlocked) && Resumable(m, retryBlocked)[f] in items;
    }
  }

  /** What a checkpoint stores for an item of the caller: all of it, in the state of the first list it is in. */
  ghost predicate Stores(cp: Checkpoint, item: Item, stored: Item) {
    && stored.(state := item.state) == item
    && stored.state ==
         if item.itemId in cp.completed then SUCCEEDED
         else if item.itemId in cp.blocked then BLOCKED
         else if item.itemId in cp.pending then PENDING
         else if cp.active == Some(item.itemId) then RUNNING
         else item.state
  }

  lemma PersistedStores(cp: Checkpoint, item: Item)
    ensures Stores(cp, item, ToPersist(item, cp)) && ToPersist(item, cp).fingerprint == item.fingerprint
  {
  }

  /** A checkpoint stores each of the caller's items under its fingerprint, and leaves every other record alone. */
  lemma {:induction false} CheckpointStores(m: Records, cp: Checkpoint, items: seq<Item>)
    requires DistinctFingerprints(items)
    ensures
      var m' := AfterCheckpoint(m, cp, items);
      && (forall i :: 0 <= i < |items| ==> items[i].fingerprint in m' && Stores(cp, items[i], m'[items[i].fingerprint]))
      && (forall f :: !HasFingerprint(items, f) ==> (f in m' <==> f in m) && (f in m ==> m'[f] == m[f]))
  {
    hide Stores, ToPersist;
    if items != [] {
      var n := |items| - 1;
      CheckpointStores(m, cp, items[..n]);
      PersistedStores(cp, items[n]);
      forall f | !HasFingerprint(items, f) ensures !HasFingerprint(items[..n], f) && f != items[n].fingerprint {
        assert forall i :: 0 <= i < n ==> items[..n][i] == items[i];
      }
      assert forall i :: 0 <= i < n ==> items[..n][i] == items[i];
    }
  }

  // ----- going through a ledger record by record

  /** Each key once: the order in which a ledger lists its records. */
  ghost predicate Order(order: seq<Fingerprint>, keys: set<Fingerprint>) {
    NoDup(order) && (forall f :: f in order <==> f in keys)
  }

  method ListKeys(keys: set<Fingerprint>) returns (order: seq<Fingerprint>)
    ensures Order(order, keys)
  {
    order := [];
    var todo := keys;
    while todo != {}
      invariant todo <= keys && NoDup(order)
      invariant forall f :: f in order <==> f in keys - todo
      decreases |todo|
    {
      var f :| f in todo;
      assert f !in order;
      todo, order := todo - {f}, order + [f];
    }
  }

  /**
   * A record after it was loaded. One ledger writes back every resumed record, the other only
   * blocked records that were reopened.
   */
  function Reset(record: Item, retryBlocked: bool, onlyBlocked: bool): Item {
    var next := Reopen(record, retryBlocked);
    if next.Some? && (record.state == BLOCKED || !onlyBlocked) then next.value else record
  }

  function ResetAll(m: Records, retryBlocked: bool, onlyBlocked: bool): Records {
    map f | f in m :: Reset(m[f], retryBlocked, onlyBlocked)
  }

  function ResetUpTo(m: Records, order: seq<Fingerprint>, retryBlocked: bool, onlyBlocked: bool): (r: Records)
    requires forall f :: f in order ==> f in m
    ensures r.Keys == m.Keys
  {
    if order == [] then m
    else
      var f := order[|order| - 1];
      ResetUpTo(m, order[..|order| - 1], retryBlocked, onlyBlocked)[f := Reset(m[f], retryBlocked, onlyBlocked)]
  }

  lemma {:induction false} ResetAt(
    m: Records, order: seq<Fingerprint>, retryBlocked: bool, onlyBlocked: bool, f: Fingerprint)
    requires (forall g :: g in order ==> g in m) && f in m
    ensures ResetUpTo(m, order, retryBlocked, onlyBlocked)[f]
      == if f in order then Reset(m[f], retryBlocked, onlyBlocked) else m[f]
  {
    if order != [] {
      assert order == order[..|order| - 1] + [order[|order| - 1]];
      ResetAt(m, order[..|order| - 1], retryBlocked, onlyBlocked, f);
    }
  }

  lemma ResetWhole(m: Records, order: seq<Fingerprint>, retryBlocked: bool, onlyBlocked: bool)
    requires Order(order, m.Keys)
    ensures ResetUpTo(m, order, retryBlocked, onlyBlocked) == ResetAll(m, retryBlocked, onlyBlocked)
  {
    var r := ResetUpTo(m, order, retryBlocked, onlyBlocked);
    forall f | f in m ensures r[f] == Reset(m[f], retryBlocked, onlyBlocked) {
      ResetAt(m, order, retryBlocked, onlyBlocked, f);
    }
  }

  /** The resumable items among the listed records. */
  function Resumed(m: Records, order: seq<Fingerprint>, retryBlocked: bool): seq<Item>
    requires forall f :: f in order ==> f in m
  {
    if order == [] then []
    else
      var next := Reopen(m[order[|order| - 1]], retryBlocked);
      Resumed(m, order[..|order| - 1], retryBlocked) + if next.Some? then [next.value] else []
  }

  /** Records that may be resumed belong under their key. */
  ghost predicate ResumableKeyed(m: Records, order: seq<Fingerprint>, retryBlocked: bool) {
    forall f :: f in order && f in m && Reopen(m[f], retryBlocked).Some? ==> m[f].fingerprint == f
  }

  lemma {:induction false} ResumedHolds(m: Records, order: seq<Fingerprint>, retryBlocked: bool)
    requires forall f :: f in order ==> f in m
    requires NoDup(order) && ResumableKeyed(m, order, retryBlocked)
    ensures
      var items := Resumed(m, order, retryBlocked);
      && DistinctFingerprints(items)
      && (forall x :: x in items ==>
            x.fingerprint in order && x.fingerprint in m && Reopen(m[x.fingerprint], retryBlocked) == Some(x))
      && (forall f :: f in order && Reopen(m[f], retryBlocked).Some? ==> Reopen(m[f], retryBlocked).value in items)
  {
    if order != [] {
      ResumedHolds(m, order[..|order| - 1], retryBlocked);
    }
  }

  lemma ResumedLists(m: Records, order: seq<Fingerprint>, retryBlocked: bool)
    requires Order(order, m.Keys) && ResumableKeyed(m, order, retryBlocked)
    ensures Lists(Resumed(m, order, retryBlocked), Resumable(m, retryBlocked))
  {
    ResumedHolds(m, order, retryBlocked);
  }

  /** Ids of the blocked work among the listed records. */
  function BlockedListed(m: Records, order: seq<Fingerprint>): seq<ItemId>
    requires forall f :: f in order ==> f in m
  {
    if order == [] then []
    else
      var last := m[order[|order| - 1]];
      BlockedListed(m, order[..|order| - 1]) + if last.state == BLOCKED && last.itemId != "" then [last.itemId] else []
  }

  function CountListed(m: Records, order: seq<Fingerprint>, state: WorkState): nat
    requires forall f :: f in order ==> f in m
  {
    if order == [] then 0
    else CountListed(m, order[..|order| - 1], state) + if m[order[|order| - 1]].state == state then 1 else 0
  }

  lemma {:induction false} BlockedListedHas(m: Records, order: seq<Fingerprint>, id: ItemId)
    requires forall f :: f in order ==> f in m
    ensures id in BlockedListed(m, order) <==>
      exists f :: f in order && m[f].state == BLOCKED && m[f].itemId == id && id != ""
  {
    if order != [] {
      BlockedListedHas(m, order[..|order| - 1], id);
      assert order == order[..|order| - 1] + [order[|order| - 1]];
    }
  }

  /** Whatever the order of listing, the blocked ids are those of the blocked records. */
  lemma BlockedListedAll(m: Records, order: seq<Fingerprint>)
    requires Order(order, m.Keys)
    ensures forall id :: id in BlockedListed(m, order) <==> id in BlockedIds(m)
  {
    forall id ensures id in BlockedListed(m, order) <==> id in BlockedIds(m) { BlockedListedHas(m, order, id); }
  }

  ghost function ListedInState(m: Records, order: seq<Fingerprint>, state: WorkState): set<Fingerprint>
    requires forall f :: f in order ==> f in m
  {
    set f | f in order && m[f].state == state
  }

  lemma ListedInStateNext(m: Records, front: seq<Fingerprint>, last: Fingerprint, state: WorkState)
    requires (forall f :: f in front ==> f in m) && last in m && last !in front
    ensures
      var before := ListedInState(m, front, state);
      ListedInState(m, front + [last], state) == (if m[last].state == state then before + {last} else before)
  {
  }

  lemma {:induction false} CountListedIs(m: Records, order: seq<Fingerprint>, state: WorkState)
    requires NoDup(order) && forall f :: f in order ==> f in m
    ensures CountListed(m, order, state) == |ListedInState(m, order, state)|
  {
    if order != [] {
      var front, last := order[..|order| - 1], order[|order| - 1];
      CountListedIs(m, front, state);
      ListedInStateNext(m, front, last, state);
      assert order == front + [last];
    }
  }

  lemma CountListedAll(m: Records, order: seq<Fingerprint>, state: WorkState)
    requires Order(order, m.Keys)
    ensures CountListed(m, order, state) == |InState(m, state)|
  {
    CountListedIs(m, order, state);
    assert ListedInState(m, order, state) == InState(m, state);
  }

  method ListBlocked(m: Records) returns (ids: seq<ItemId>)
    ensures forall id :: id in ids <==> id in BlockedIds(m)
  {
    var order := ListKeys(m.Keys);
    ids := [];
    for k := 0 to |order|
      invariant ids == BlockedListed(m, order[..k])
    {
      assert order[..k + 1][..k] == order[..k];
      if m[order[k]].state == BLOCKED && m[order[k]].itemId != "" { ids := ids + [m[order[k]].itemId]; }
    }
    assert order[..|order|] == order;
    BlockedListedAll(m, order);
  }

  method CountTerminal(m: Records) returns (succeeded: nat, blocked: nat)
    ensures succeeded == |InState(m, SUCCEEDED)| && blocked == |InState(m, BLOCKED)|
  {
    var order := ListKeys(m.Keys);
    succeeded, blocked := 0, 0;
    for k := 0 to |order|
      invariant succeeded == CountListed(m, order[..k], SUCCEEDED)
      invariant blocked == CountListed(m, order[..k], BLOCKED)
    {
      assert order[..k + 1][..k] == order[..k];
      if m[order[k]].state == SUCCEEDED { succeeded := succeeded + 1; }
      if m[order[k]].state == BLOCKED { blocked := blocked + 1; }
    }
    assert order[..|order|] == order;
    CountListedAll(m, order, SUCCEEDED);
    CountListedAll(m, order, BLOCKED);
  }
}
