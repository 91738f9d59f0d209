/** What a pipeline run leaves in the ledger, and what its report says about it. */
module PipelineLaws {
  import opened Work
  import opened Offers
  import opened UpgradeLoop
  import opened UpgradeLoopLaws
  import opened Ledger
  import opened Pipeline

  /** Which content an id stands for. Ids are drawn fresh, so no id stands for two. */
  type Owners = map<ItemId, Fingerprint>

  /** What does not change during a run: the owners of ids, the ledger it found, and whether it retries blocked work. */
  datatype Setting = Setting(owner: Owners, start: Records, retryBlocked: bool)

  predicate Owned(owner: Owners, x: Item) {
    x.itemId != "" && x.itemId in owner && owner[x.itemId] == x.fingerprint
  }

  predicate Candidates(owner: Owners, candidates: seq<Item>) {
    forall c :: c in candidates ==> Owned(owner, c)
  }

  // ----- what is handed in

  /** The items of one content among those handed in, in order. */
  function Handings(handed: seq<Item>, f: Fingerprint): seq<Item> {
    if handed == [] then []
    else
      var last := handed[|handed| - 1];
      Handings(handed[..|handed| - 1], f) + if last.fingerprint == f then [last] else []
  }

  lemma HandingsNext(handed: seq<Item>, c: Item, f: Fingerprint)
    ensures Handings(handed + [c], f) == Handings(handed, f) + if c.fingerprint == f then [c] else []
  {
    assert (handed + [c])[..|handed|] == handed;
  }

  lemma AppendLast(handed: seq<Item>, more: seq<Item>)
    requires more != []
    ensures handed + more == handed + more[..|more| - 1] + [more[|more| - 1]]
  {
  }

  lemma {:induction false} HandingsSplit(front: seq<Item>, back: seq<Item>, f: Fingerprint)
    ensures Handings(front + back, f) == Handings(front, f) + Handings(back, f)
  {
    if back == [] {
      assert front + back == front;
    } else {
      var n := |back| - 1;
      HandingsSplit(front, back[..n], f);
      AppendLast(front, back);
      HandingsNext(front + back[..n], back[n], f);
    }
  }

  lemma {:induction false} HandingsFrom(handed: seq<Item>, f: Fingerprint)
    ensures forall x :: x in Handings(handed, f) <==> x in handed && x.fingerprint == f
  {
    if handed != [] {
      HandingsFrom(handed[..|handed| - 1], f);
      assert handed == handed[..|handed| - 1] + [handed[|handed| - 1]];
    }
  }

  predicate InFlight(state: WorkState) {
    state == RUNNING || state == VALIDATING
  }

  /** Content the ledger did not have was handed in once, as if it were in the middle of an attempt. */
  predicate OnceInFlight(s: Setting, handed: seq<Item>, f: Fingerprint) {
    f !in s.start && |Handings(handed, f)| == 1 && InFlight(Handings(handed, f)[0].state)
  }

  // ----- the desk

  /** Item c belongs to its record. */
  ghost predicate CopyFits(m: Records, owner: Owners, c: Item) {
    Owned(owner, c) && c.fingerprint in m && m[c.fingerprint].itemId == c.itemId
  }

  /** A copy is in the middle of an attempt only if it was handed in so, and not again; its record is open then. */
  ghost predicate FlightFits(d: Desk, s: Setting, handed: seq<Item>, c: Item) {
    && (InFlight(c.state) <==> OnceInFlight(s, handed, c.fingerprint))
    && (InFlight(c.state) ==> c.fingerprint in d.records && Open(d.records[c.fingerprint].state))
  }

  /** Record f belongs to its id, is closed or in the dictionary, and comes from the old ledger or was handed in. */
  ghost predicate RecordFits(d: Desk, s: Setting, handed: seq<Item>, f: Fingerprint)
    requires f in d.records
  {
    && d.records[f].fingerprint == f && Owned(s.owner, d.records[f])
    && (Open(d.records[f].state) ==> HasFingerprint(d.copies, f))
    && (f in s.start || Handings(handed, f) != [])
  }

  /** A record is still there; if it was closed when the run began, it is as it was, and not in the dictionary. */
  ghost predicate Continues(d: Desk, s: Setting, f: Fingerprint)
    requires f in s.start
  {
    && f in d.records
    && (Reopen(s.start[f], s.retryBlocked).None? ==> d.records[f] == s.start[f] && !HasFingerprint(d.copies, f))
  }

  /** Whatever is handed in is recorded, and in the dictionary if it was new. */
  ghost predicate Recorded(d: Desk, s: Setting, f: Fingerprint) {
    f in d.records && (f !in s.start ==> HasFingerprint(d.copies, f))
  }

  ghost predicate DeskFits(d: Desk, s: Setting, handed: seq<Item>) {
    && DistinctIds(d.copies)
    && (forall i :: 0 <= i < |d.copies| ==>
          CopyFits(d.records, s.owner, d.copies[i]) && FlightFits(d, s, handed, d.copies[i]))
    && (forall f :: f in d.records ==> RecordFits(d, s, handed, f))
    && (forall f :: f in s.start ==> Continues(d, s, f))
    && (forall f :: Handings(handed, f) != [] ==> Recorded(d, s, f))
  }

  /** Work f, handed in as done, is recorded as done. */
  ghost predicate DoneKept(d: Desk, f: Fingerprint) {
    && f in d.records && d.records[f].state == SUCCEEDED
    && forall i :: 0 <= i < |d.copies| && d.copies[i].fingerprint == f ==> d.copies[i].state == SUCCEEDED
  }

  /** Work f is not recorded as done. */
  ghost predicate UndoneKept(d: Desk, f: Fingerprint) {
    && f in d.records && d.records[f].state != SUCCEEDED
    && forall i :: 0 <= i < |d.copies| && d.copies[i].fingerprint == f ==> d.copies[i].state != SUCCEEDED
  }

  // ----- putting items in the dictionary

  lemma PutItemFits(copies: seq<Item>, item: Item, f: Fingerprint)
    requires DistinctIds(copies)
    ensures DistinctIds(PutItem(copies, item))
    ensures forall i :: 0 <= i < |PutItem(copies, item)| ==>
      PutItem(copies, item)[i] == item || (PutItem(copies, item)[i] in copies && PutItem(copies, item)[i].itemId != item.itemId)
    ensures HasFingerprint(PutItem(copies, item), item.fingerprint)
    ensures HasFingerprint(PutItem(copies, item), f) ==> f == item.fingerprint || HasFingerprint(copies, f)
  {
    var at, r := IndexOf(copies, item.itemId), PutItem(copies, item);
    assert r[at] == item;
    if HasFingerprint(r, f) && f != item.fingerprint {
      var i :| 0 <= i < |r| && r[i].fingerprint == f;
      assert i != at && copies[i] == r[i];
    }
  }

  /** An item owned like all others replaces only the copy of the same content. */
  lemma PutKeepsOthers(copies: seq<Item>, item: Item, owner: Owners, f: Fingerprint)
    requires DistinctIds(copies) && Owned(owner, item) && forall i :: 0 <= i < |copies| ==> Owned(owner, copies[i])
    requires HasFingerprint(copies, f)
    ensures HasFingerprint(PutItem(copies, item), f)
  {
    var i :| 0 <= i < |copies| && copies[i].fingerprint == f;
    var at, r := IndexOf(copies, item.itemId), PutItem(copies, item);
    assert r[at] == item;
    if i != at { assert r[i] == copies[i]; }
  }

  lemma CopiesOwned(d: Desk, s: Setting, handed: seq<Item>)
    requires DeskFits(d, s, handed)
    ensures forall i :: 0 <= i < |d.copies| ==> Owned(s.owner, d.copies[i])
  {
    forall i | 0 <= i < |d.copies| ensures Owned(s.owner, d.copies[i]) { assert CopyFits(d.records, s.owner, d.copies[i]); }
  }

  /** Restoring one candidate. */
  function Handle(d: Desk, c: Item, retryBlocked: bool): Desk {
    var next := Restored(d.records, c, retryBlocked);
    Desk(Registered(d.records, c, retryBlocked), if next.Some? then PutItem(d.copies, next.value) else d.copies)
  }

  /** What is handed back has the candidate's content and, if recorded, the record's id. */
  lemma RestoredOwned(d: Desk, c: Item, s: Setting, handed: seq<Item>)
    requires DeskFits(d, s, handed) && Owned(s.owner, c) && Restored(d.records, c, s.retryBlocked).Some?
    ensures
      var x := Restored(d.records, c, s.retryBlocked).value;
      && x.fingerprint == c.fingerprint && Owned(s.owner, x)
      && Registered(d.records, c, s.retryBlocked) == d.records[c.fingerprint := x]
      && (c.fingerprint in d.records ==> x.itemId == d.records[c.fingerprint].itemId && x.state == PENDING)
      && (c.fingerprint !in d.records ==> x == c)
  {
    if c.fingerprint in d.records { assert RecordFits(d, s, handed, c.fingerprint); }
  }

  lemma HandleRecord(d: Desk, c: Item, s: Setting, handed: seq<Item>, f: Fingerprint)
    requires DeskFits(d, s, handed) && Owned(s.owner, c) && Restored(d.records, c, s.retryBlocked).Some?
    ensures
      var d' := Handle(d, c, s.retryBlocked);
      && (f in d'.records ==> RecordFits(d', s, handed + [c], f))
      && (f in s.start ==> Continues(d', s, f))
      && (Handings(handed + [c], f) != [] ==> Recorded(d', s, f))
  {
    var x := Restored(d.records, c, s.retryBlocked).value;
    RestoredOwned(d, c, s, handed);
    CopiesOwned(d, s, handed);
    PutItemFits(d.copies, x, f);
    HandingsNext(handed, c, f);
    if f in d.records {
      assert RecordFits(d, s, handed, f);
      if HasFingerprint(d.copies, f) { PutKeepsOthers(d.copies, x, s.owner, f); }
    }
    if f in s.start { assert Continues(d, s, f); }
    if Handings(handed, f) != [] { assert Recorded(d, s, f); }
  }

  /** There is a record of everything that was handed in, was in the ledger, or is in the dictionary, and of nothing else. */
  lemma KnownIsRecorded(d: Desk, s: Setting, handed: seq<Item>, f: Fingerprint)
    requires DeskFits(d, s, handed)
    ensures f in d.records <==> f in s.start || Handings(handed, f) != []
    ensures HasFingerprint(d.copies, f) ==> f in d.records
  {
    if f in d.records { assert RecordFits(d, s, handed, f); }
    if f in s.start { assert Continues(d, s, f); }
    if Handings(handed, f) != [] { assert Recorded(d, s, f); }
    if HasFingerprint(d.copies, f) {
      var i :| 0 <= i < |d.copies| && d.copies[i].fingerprint == f;
      assert CopyFits(d.records, s.owner, d.copies[i]);
    }
  }

  /** A restored item is in flight exactly if it is new and handed in so. */
  lemma RestoredFlight(d: Desk, c: Item, s: Setting, handed: seq<Item>)
    requires DeskFits(d, s, handed) && Owned(s.owner, c) && Restored(d.records, c, s.retryBlocked).Some?
    ensures FlightFits(
      Handle(d, c, s.retryBlocked), s, handed + [c], Restored(d.records, c, s.retryBlocked).value)
  {
    hide DeskFits, Handings, Owned;
    RestoredOwned(d, c, s, handed);
    HandingsNext(handed, c, c.fingerprint);
    KnownIsRecorded(d, s, handed, c.fingerprint);
  }

  /** Other copies are as they were. */
  lemma OtherFlight(d: Desk, c: Item, s: Setting, handed: seq<Item>, y: Item)
    requires DeskFits(d, s, handed) && Owned(s.owner, c) && Restored(d.records, c, s.retryBlocked).Some?
    requires y in d.copies && y.fingerprint != c.fingerprint
    ensures FlightFits(Handle(d, c, s.retryBlocked), s, handed + [c], y)
  {
    assert FlightFits(d, s, handed, y);
    hide DeskFits, Handings, Owned;
    RestoredOwned(d, c, s, handed);
    HandingsNext(handed, c, y.fingerprint);
  }

  lemma HandleFits(d: Desk, c: Item, s: Setting, handed: seq<Item>)
    requires DeskFits(d, s, handed) && Owned(s.owner, c) && Restored(d.records, c, s.retryBlocked).Some?
    ensures DeskFits(Handle(d, c, s.retryBlocked), s, handed + [c])
  {
    var d' := Handle(d, c, s.retryBlocked);
    var x := Restored(d.records, c, s.retryBlocked).value;
    RestoredOwned(d, c, s, handed);
    PutItemFits(d.copies, x, x.fingerprint);
    forall i | 0 <= i < |d'.copies|
      ensures CopyFits(d'.records, s.owner, d'.copies[i]) && FlightFits(d', s, handed + [c], d'.copies[i])
    {
      var y := d'.copies[i];
      if y == x {
        RestoredFlight(d, c, s, handed);
      } else {
        CopyApart(d, s, handed, c, y);
        OtherFlight(d, c, s, handed, y);
      }
    }
    forall f
      ensures f in d'.records ==> RecordFits(d', s, handed + [c], f)
      ensures f in s.start ==> Continues(d', s, f)
      ensures Handings(handed + [c], f) != [] ==> Recorded(d', s, f)
    {
      HandleRecord(d, c, s, handed, f);
    }
  }

  /** A copy with another id than a restored item has other content. */
  lemma CopyApart(d: Desk, s: Setting, handed: seq<Item>, c: Item, y: Item)
    requires DeskFits(d, s, handed) && Owned(s.owner, c) && Restored(d.records, c, s.retryBlocked).Some?
    requires y in d.copies && y.itemId != Restored(d.records, c, s.retryBlocked).value.itemId
    ensures y.fingerprint != c.fingerprint && CopyFits(Handle(d, c, s.retryBlocked).records, s.owner, y)
  {
    RestoredOwned(d, c, s, handed);
    assert CopyFits(d.records, s.owner, y);
  }

  /** A closed record: nothing happens, and the content was not handed in as in flight. */
  lemma HandleClosed(d: Desk, c: Item, s: Setting, handed: seq<Item>)
    requires DeskFits(d, s, handed) && Restored(d.records, c, s.retryBlocked).None?
    ensures DeskFits(d, s, handed + [c]) && Handle(d, c, s.retryBlocked) == d
    ensures c.fingerprint in d.records && (c.fingerprint !in s.start ==> Handings(handed, c.fingerprint) != [])
  {
    assert RecordFits(d, s, handed, c.fingerprint);
    forall i | 0 <= i < |d.copies| ensures FlightFits(d, s, handed + [c], d.copies[i]) {
      assert FlightFits(d, s, handed, d.copies[i]);
      HandingsNext(handed, c, d.copies[i].fingerprint);
    }
    forall f
      ensures f in d.records ==> RecordFits(d, s, handed + [c], f)
      ensures Handings(handed + [c], f) != [] ==> Recorded(d, s, f)
    {
      HandingsNext(handed, c, f);
      if f in d.records { assert RecordFits(d, s, handed, f); }
      if f == c.fingerprint && f !in s.start { assert Recorded(d, s, f); }
      if f in s.start { assert Continues(d, s, f); }
    }
  }

  /** From d to d' no item leaves the desk or changes its id, and what is recorded as done, or not, stays so. */
  ghost predicate Carries(d: Desk, d': Desk) {
    && (forall f :: f in d.records ==> f in d'.records && d'.records[f].itemId == d.records[f].itemId)
    && (forall f :: HasFingerprint(d.copies, f) ==> HasFingerprint(d'.copies, f))
    && (forall f :: DoneKept(d, f) ==> DoneKept(d', f))
    && (forall f :: UndoneKept(d, f) ==> UndoneKept(d', f))
  }

  lemma HandleKeeps(d: Desk, c: Item, s: Setting, handed: seq<Item>, f: Fingerprint)
    requires DeskFits(d, s, handed) && Owned(s.owner, c) && Restored(d.records, c, s.retryBlocked).Some?
    ensures
      var d' := Handle(d, c, s.retryBlocked);
      (DoneKept(d, f) ==> DoneKept(d', f)) && (UndoneKept(d, f) ==> UndoneKept(d', f))
  {
    var x := Restored(d.records, c, s.retryBlocked).value;
    RestoredOwned(d, c, s, handed);
    PutItemFits(d.copies, x, f);
  }

  lemma HandleCarries(d: Desk, c: Item, s: Setting, handed: seq<Item>)
    requires DeskFits(d, s, handed) && Owned(s.owner, c)
    ensures Carries(d, Handle(d, c, s.retryBlocked))
  {
    var next, d' := Restored(d.records, c, s.retryBlocked), Handle(d, c, s.retryBlocked);
    if next.Some? {
      RestoredOwned(d, c, s, handed);
      CopiesOwned(d, s, handed);
      forall f | HasFingerprint(d.copies, f) ensures HasFingerprint(d'.copies, f) {
        PutKeepsOthers(d.copies, next.value, s.owner, f);
      }
      forall f
        ensures DoneKept(d, f) ==> DoneKept(d', f)
        ensures UndoneKept(d, f) ==> UndoneKept(d', f)
      {
        HandleKeeps(d, c, s, handed, f);
      }
    }
  }

  lemma DiscoverNext(d: Desk, candidates: seq<Item>, retryBlocked: bool)
    requires candidates != []
    ensures
      var front, c := candidates[..|candidates| - 1], candidates[|candidates| - 1];
      var before := Discover(d, front, retryBlocked);
      var next := Restored(before.records, c, retryBlocked);
      && Discover(d, candidates, retryBlocked) == Handle(before, c, retryBlocked)
      && RestoreAll(d.records, candidates, retryBlocked)
          == RestoreAll(d.records, front, retryBlocked) + if next.Some? then [next.value] else []
  {
    var items := RestoreAll(d.records, candidates[..|candidates| - 1], retryBlocked);
    var next := Restored(
      RegisterAll(d.records, candidates[..|candidates| - 1], retryBlocked), candidates[|candidates| - 1], retryBlocked);
    if next.Some? { assert (items + [next.value])[..|items|] == items; } else { assert items + [] == items; }
  }

  lemma CarriesTransitive(d: Desk, d': Desk, d'': Desk)
    requires Carries(d, d') && Carries(d', d'')
    ensures Carries(d, d'')
  {
  }

  lemma HandleOne(d: Desk, c: Item, s: Setting, handed: seq<Item>)
    requires DeskFits(d, s, handed) && Owned(s.owner, c)
    ensures DeskFits(Handle(d, c, s.retryBlocked), s, handed + [c]) && Carries(d, Handle(d, c, s.retryBlocked))
  {
    HandleCarries(d, c, s, handed);
    if Restored(d.records, c, s.retryBlocked).Some? { HandleFits(d, c, s, handed); } else { HandleClosed(d, c, s, handed); }
  }

  /** Discovery keeps the desk in order, however it ends. */
  lemma {:induction false} DiscoverFits(d: Desk, candidates: seq<Item>, s: Setting, handed: seq<Item>)
    requires DeskFits(d, s, handed) && Candidates(s.owner, candidates)
    ensures
      var d' := Discover(d, candidates, s.retryBlocked);
      DeskFits(d', s, handed + candidates) && Carries(d, d')
  {
    if candidates == [] {
      assert handed + candidates == handed;
    } else {
      var front, c := candidates[..|candidates| - 1], candidates[|candidates| - 1];
      var before := Discover(d, front, s.retryBlocked);
      DiscoverFits(d, front, s, handed);
      DiscoverNext(d, candidates, s.retryBlocked);
      HandleOne(before, c, s, handed + front);
      AppendLast(handed, candidates);
      CarriesTransitive(d, before, Handle(before, c, s.retryBlocked));
    }
  }

  // ----- the loop on the desk

  ghost function Accepted(l: Loop): set<Item> {
    set x | x in l.accepted
  }

  /** Item x is as it was first handed in, or restored from the ledger the run found. */
  predicate Original(s: Setting, known: seq<Item>, x: Item) {
    if x.fingerprint in s.start then x.state == PENDING
    else Handings(known, x.fingerprint) != [] && Handings(known, x.fingerprint)[0] == x
  }

  /** Work that was not accepted as PENDING is recorded as done if and only if it was accepted so. */
  ghost predicate StateKept(d: Desk, x: Item) {
    x.state != PENDING ==> if x.state == SUCCEEDED then DoneKept(d, x.fingerprint) else UndoneKept(d, x.fingerprint)
  }

  /** Item i of the loop belongs to its record, is on the desk, and was accepted as it was first handed in. */
  ghost predicate LoopItemFits(l: Loop, d: Desk, s: Setting, known: seq<Item>, i: nat)
    requires i < |l.items| == |l.accepted|
  {
    && CopyFits(d.records, s.owner, l.items[i]) && HasFingerprint(d.copies, l.items[i].fingerprint)
    && l.accepted[i].fingerprint == l.items[i].fingerprint
    && Original(s, known, l.accepted[i]) && StateKept(d, l.accepted[i])
  }

  ghost predicate LoopFits(l: Loop, d: Desk, s: Setting, known: seq<Item>) {
    && Sound(l, Accepted(l))
    && (forall i :: 0 <= i < |l.items| ==> LoopItemFits(l, d, s, known, i))
    && (forall f :: f in l.fingerprints ==> HasFingerprint(l.items, f))
  }

  /** The loop took in all new content among what it was given. */
  ghost predicate Knows(l: Loop, s: Setting, known: seq<Item>) {
    forall f :: f !in s.start && Handings(known, f) != [] ==> f in l.fingerprints
  }

  /** Everything on the desk was taken in by the loop. */
  ghost predicate AllAdopted(l: Loop, d: Desk) {
    forall i :: 0 <= i < |d.copies| ==> d.copies[i].fingerprint in l.fingerprints
  }

  lemma LoopCarried(l: Loop, d: Desk, d': Desk, s: Setting, known: seq<Item>)
    requires LoopFits(l, d, s, known) && Carries(d, d')
    ensures LoopFits(l, d', s, known)
  {
    forall i | 0 <= i < |l.items| ensures LoopItemFits(l, d', s, known, i) { assert LoopItemFits(l, d, s, known, i); }
  }

  lemma LoopGivenMore(l: Loop, d: Desk, s: Setting, known: seq<Item>, c: Item)
    requires LoopFits(l, d, s, known)
    ensures LoopFits(l, d, s, known + [c])
  {
    forall i | 0 <= i < |l.items| ensures LoopItemFits(l, d, s, known + [c], i) {
      assert LoopItemFits(l, d, s, known, i);
      HandingsNext(known, c, l.items[i].fingerprint);
    }
  }

  lemma AcceptAppends(l: Loop, d: Desk, s: Setting, known: seq<Item>, x: Item)
    requires LoopFits(l, d, s, known) && Owned(s.owner, x) && x.fingerprint !in l.fingerprints
    ensures Accept(l, x).items == l.items + [x] && Accept(l, x).accepted == l.accepted + [x]
  {
    forall i | 0 <= i < |l.items| ensures l.items[i].itemId != x.itemId {
      assert LoopItemFits(l, d, s, known, i);
    }
  }

  lemma AcceptedOwned(l: Loop, d: Desk, s: Setting, known: seq<Item>, y: Item)
    requires LoopFits(l, d, s, known) && y in Accepted(l)
    ensures Owned(s.owner, y)
  {
    var i :| 0 <= i < |l.accepted| && l.accepted[i] == y;
    assert Booked(l, i) && LoopItemFits(l, d, s, known, i);
  }

  lemma SoundWithin(l: Loop, u: set<Item>, u': set<Item>)
    requires Sound(l, u) && forall i :: 0 <= i < |l.accepted| ==> l.accepted[i] in u'
    ensures Sound(l, u')
  {
    forall i | 0 <= i < |l.items| ensures Booked(l, i) {}
  }

  lemma AcceptStaysSound(l: Loop, d: Desk, s: Setting, known: seq<Item>, x: Item)
    requires LoopFits(l, d, s, known) && Owned(s.owner, x) && x.fingerprint !in l.fingerprints
    ensures Sound(Accept(l, x), Accepted(Accept(l, x)))
  {
    var u := Accepted(l) + {x};
    forall y | y in u ensures Owned(s.owner, y) {
      if y in Accepted(l) { AcceptedOwned(l, d, s, known, y); }
    }
    SoundWithin(l, Accepted(l), u);
    AcceptSound(l, x, u);
    SoundWithin(Accept(l, x), u, Accepted(Accept(l, x)));
  }

  /** An item that may enter the loop. */
  ghost predicate Acceptable(d: Desk, s: Setting, known: seq<Item>, x: Item) {
    && CopyFits(d.records, s.owner, x) && HasFingerprint(d.copies, x.fingerprint)
    && Original(s, known, x) && StateKept(d, x)
  }

  lemma AcceptFits(l: Loop, d: Desk, s: Setting, known: seq<Item>, x: Item)
    requires LoopFits(l, d, s, known) && (x.fingerprint !in l.fingerprints ==> Acceptable(d, s, known, x))
    ensures LoopFits(Accept(l, x), d, s, known)
    ensures Accept(l, x).fingerprints == l.fingerprints + {x.fingerprint}
  {
    if x.fingerprint !in l.fingerprints {
      var l' := Accept(l, x);
      AcceptAppends(l, d, s, known, x);
      AcceptStaysSound(l, d, s, known, x);
      forall i | 0 <= i < |l'.items| ensures LoopItemFits(l', d, s, known, i) {
        if i < |l.items| { assert LoopItemFits(l, d, s, known, i); }
      }
      forall f | f in l'.fingerprints ensures HasFingerprint(l'.items, f) {
        if f in l.fingerprints {
          var i :| 0 <= i < |l.items| && l.items[i].fingerprint == f;
          assert l'.items[i].fingerprint == f;
        } else {
          assert l'.items[|l.items|].fingerprint == f;
        }
      }
    }
  }

  /** What holds of loop and desk between two iterations. */
  ghost predicate Fits(l: Loop, d: Desk, s: Setting, handed: seq<Item>) {
    LoopFits(l, d, s, handed) && DeskFits(d, s, handed) && Knows(l, s, handed) && AllAdopted(l, d)
  }

  lemma RestoredKept(d: Desk, s: Setting, handed: seq<Item>, c: Item)
    requires DeskFits(d, s, handed) && Owned(s.owner, c) && Restored(d.records, c, s.retryBlocked).Some?
    ensures StateKept(Handle(d, c, s.retryBlocked), Restored(d.records, c, s.retryBlocked).value)
  {
    hide Handings, Continues, Recorded, RecordFits, FlightFits;
    var x := Restored(d.records, c, s.retryBlocked).value;
    RestoredOwned(d, c, s, handed);
    PutItemFits(d.copies, x, x.fingerprint);
  }

  lemma RestoredCopy(d: Desk, s: Setting, handed: seq<Item>, c: Item)
    requires DeskFits(d, s, handed) && Owned(s.owner, c) && Restored(d.records, c, s.retryBlocked).Some?
    ensures
      var x, d' := Restored(d.records, c, s.retryBlocked).value, Handle(d, c, s.retryBlocked);
      && CopyFits(d'.records, s.owner, x) && HasFingerprint(d'.copies, x.fingerprint) && StateKept(d', x)
  {
    hide Handings, StateKept, Continues, Recorded, FlightFits;
    var x := Restored(d.records, c, s.retryBlocked).value;
    RestoredOwned(d, c, s, handed);
    PutItemFits(d.copies, x, x.fingerprint);
    RestoredKept(d, s, handed, c);
  }

  lemma RestoredAcceptable(l: Loop, d: Desk, s: Setting, handed: seq<Item>, c: Item)
    requires Fits(l, d, s, handed) && Owned(s.owner, c) && Restored(d.records, c, s.retryBlocked).Some?
    ensures
      var x := Restored(d.records, c, s.retryBlocked).value;
      x.fingerprint !in l.fingerprints ==> Acceptable(Handle(d, c, s.retryBlocked), s, handed + [c], x)
  {
    hide LoopFits, DeskFits, AllAdopted, Handings, Handle, StateKept;
    RestoredOwned(d, c, s, handed);
    RestoredCopy(d, s, handed, c);
    HandingsNext(handed, c, c.fingerprint);
    KnownIsRecorded(d, s, handed, c.fingerprint);
  }

  /** What the loop makes of one restored candidate. */
  function TakeIn(l: Loop, d: Desk, c: Item, retryBlocked: bool): Loop
    requires |l.items| == |l.accepted|
  {
    var next := Restored(d.records, c, retryBlocked);
    if next.Some? then Accept(l, next.value) else l
  }

  lemma TakeInFits(l: Loop, d: Desk, s: Setting, handed: seq<Item>, c: Item)
    requires Fits(l, d, s, handed) && Owned(s.owner, c)
    ensures LoopFits(TakeIn(l, d, c, s.retryBlocked), Handle(d, c, s.retryBlocked), s, handed + [c])
    ensures
      var next := Restored(d.records, c, s.retryBlocked);
      TakeIn(l, d, c, s.retryBlocked).fingerprints
        == l.fingerprints + if next.Some? then {c.fingerprint} else {}
  {
    var d', next := Handle(d, c, s.retryBlocked), Restored(d.records, c, s.retryBlocked);
    HandleCarries(d, c, s, handed);
    LoopCarried(l, d, d', s, handed);
    LoopGivenMore(l, d', s, handed, c);
    if next.Some? {
      RestoredOwned(d, c, s, handed);
      RestoredAcceptable(l, d, s, handed, c);
      AcceptFits(l, d', s, handed + [c], next.value);
    }
  }

  lemma OneMoreAdopted(copies: seq<Item>, x: Item, fingerprints: set<Fingerprint>)
    requires DistinctIds(copies) && forall i :: 0 <= i < |copies| ==> copies[i].fingerprint in fingerprints
    ensures forall i :: 0 <= i < |PutItem(copies, x)| ==> PutItem(copies, x)[i].fingerprint in fingerprints + {x.fingerprint}
  {
    PutItemFits(copies, x, x.fingerprint);
  }

  lemma TakeInAdopts(l: Loop, d: Desk, s: Setting, handed: seq<Item>, c: Item)
    requires Fits(l, d, s, handed) && Owned(s.owner, c)
    ensures AllAdopted(TakeIn(l, d, c, s.retryBlocked), Handle(d, c, s.retryBlocked))
  {
    hide LoopFits, Knows;
    var next := Restored(d.records, c, s.retryBlocked);
    TakeInFits(l, d, s, handed, c);
    if next.Some? {
      RestoredOwned(d, c, s, handed);
      OneMoreAdopted(d.copies, next.value, l.fingerprints);
    }
  }

  lemma TakeInKnows(l: Loop, d: Desk, s: Setting, handed: seq<Item>, c: Item)
    requires Fits(l, d, s, handed) && Owned(s.owner, c)
    ensures Knows(TakeIn(l, d, c, s.retryBlocked), s, handed + [c])
  {
    TakeInFits(l, d, s, handed, c);
    if Restored(d.records, c, s.retryBlocked).None? { HandleClosed(d, c, s, handed); }
    forall f | f !in s.start && Handings(handed + [c], f) != []
      ensures f in TakeIn(l, d, c, s.retryBlocked).fingerprints
    {
      HandingsNext(handed, c, f);
    }
  }

  lemma TakeInOne(l: Loop, d: Desk, s: Setting, handed: seq<Item>, c: Item, l': Loop, d': Desk, handed': seq<Item>)
    requires Fits(l, d, s, handed) && Owned(s.owner, c)
    requires l' == TakeIn(l, d, c, s.retryBlocked) && d' == Handle(d, c, s.retryBlocked) && handed' == handed + [c]
    ensures Fits(l', d', s, handed')
  {
    hide LoopFits, DeskFits, Knows, AllAdopted;
    TakeInFits(l, d, s, handed, c);
    HandleOne(d, c, s, handed);
    TakeInAdopts(l, d, s, handed, c);
    TakeInKnows(l, d, s, handed, c);
  }

  lemma AcceptAllNext(l: Loop, items: seq<Item>, next: Option<Item>)
    requires |l.items| == |l.accepted|
    ensures
      var all := items + if next.Some? then [next.value] else [];
      AcceptAll(l, all) == if next.Some? then Accept(AcceptAll(l, items), next.value) else AcceptAll(l, items)
  {
    if next.Some? { assert (items + [next.value])[..|items|] == items; } else { assert items + [] == items; }
  }

  /** Discovering one candidate more is taking it in after the others. */
  lemma DiscoverTakesIn(l: Loop, d: Desk, candidates: seq<Item>, retryBlocked: bool)
    requires candidates != [] && |l.items| == |l.accepted|
    ensures
      var front, c := candidates[..|candidates| - 1], candidates[|candidates| - 1];
      var before := Discover(d, front, retryBlocked);
      && Discover(d, candidates, retryBlocked) == Handle(before, c, retryBlocked)
      && AcceptAll(l, RestoreAll(d.records, candidates, retryBlocked))
          == TakeIn(AcceptAll(l, RestoreAll(d.records, front, retryBlocked)), before, c, retryBlocked)
  {
    var front, c := candidates[..|candidates| - 1], candidates[|candidates| - 1];
    var next := Restored(Discover(d, front, retryBlocked).records, c, retryBlocked);
    DiscoverNext(d, candidates, retryBlocked);
    AcceptAllNext(l, RestoreAll(d.records, front, retryBlocked), next);
  }

  lemma TakeInLast(l: Loop, d: Desk, candidates: seq<Item>, s: Setting, handed: seq<Item>)
    requires candidates != [] && Candidates(s.owner, candidates) && |l.items| == |l.accepted|
    requires
      var front := candidates[..|candidates| - 1];
      Fits(AcceptAll(l, RestoreAll(d.records, front, s.retryBlocked)), Discover(d, front, s.retryBlocked), s, handed + front)
    ensures
      var items := RestoreAll(d.records, candidates, s.retryBlocked);
      Fits(AcceptAll(l, items), Discover(d, candidates, s.retryBlocked), s, handed + candidates)
  {
    var front, c := candidates[..|candidates| - 1], candidates[|candidates| - 1];
    var l1, d1 := AcceptAll(l, RestoreAll(d.records, front, s.retryBlocked)), Discover(d, front, s.retryBlocked);
    DiscoverTakesIn(l, d, candidates, s.retryBlocked);
    AppendLast(handed, candidates);
    TakeInOne(
      l1, d1, s, handed + front, c,
      AcceptAll(l, RestoreAll(d.records, candidates, s.retryBlocked)), Discover(d, candidates, s.retryBlocked),
      handed + candidates);
  }

  /** A discovery that does not fail: loop and desk take in the same work, one candidate after the other. */
  lemma {:induction false} TakeInAll(l: Loop, d: Desk, candidates: seq<Item>, s: Setting, handed: seq<Item>)
    requires Fits(l, d, s, handed) && Candidates(s.owner, candidates)
    ensures
      var items := RestoreAll(d.records, candidates, s.retryBlocked);
      Fits(AcceptAll(l, items), Discover(d, candidates, s.retryBlocked), s, handed + candidates)
  {
    if candidates == [] {
      assert handed + candidates == handed;
    } else {
      TakeInAll(l, d, candidates[..|candidates| - 1], s, handed);
      TakeInLast(l, d, candidates, s, handed);
    }
  }

  // ----- an attempt

  lemma CopiesDistinct(d: Desk, s: Setting, handed: seq<Item>, i: nat, j: nat)
    requires DeskFits(d, s, handed) && i < j < |d.copies|
    ensures d.copies[i].fingerprint != d.copies[j].fingerprint
  {
    assert CopyFits(d.records, s.owner, d.copies[i]) && CopyFits(d.records, s.owner, d.copies[j]);
  }

  /** Putting a newer state of an item on the desk. */
  lemma PutFits(d: Desk, x: Item, s: Setting, handed: seq<Item>)
    requires DeskFits(d, s, handed)
    requires CopyFits(d.records, s.owner, x) && FlightFits(d, s, handed, x) && HasFingerprint(d.copies, x.fingerprint)
    ensures DeskFits(d.(copies := PutItem(d.copies, x)), s, handed)
    ensures forall f :: HasFingerprint(d.copies, f) ==> HasFingerprint(PutItem(d.copies, x), f)
  {
    var d' := d.(copies := PutItem(d.copies, x));
    CopiesOwned(d, s, handed);
    forall f | HasFingerprint(d.copies, f) ensures HasFingerprint(d'.copies, f) {
      PutKeepsOthers(d.copies, x, s.owner, f);
    }
    PutItemFits(d.copies, x, x.fingerprint);
    forall i | 0 <= i < |d'.copies|
      ensures CopyFits(d'.records, s.owner, d'.copies[i]) && FlightFits(d', s, handed, d'.copies[i])
    {
      if d'.copies[i] != x { assert d'.copies[i] in d.copies && FlightFits(d, s, handed, d'.copies[i]); }
    }
    forall f | f in d'.records ensures RecordFits(d', s, handed, f) { assert RecordFits(d, s, handed, f); }
    forall f | f in s.start ensures Continues(d', s, f) {
      assert Continues(d, s, f);
      PutItemFits(d.copies, x, f);
    }
    forall f | Handings(handed, f) != [] ensures Recorded(d', s, f) { assert Recorded(d, s, f); }
  }

  /** An attempt changes one item, and leaves it at rest. */
  lemma AttemptChangesOne(l: Loop, i: nat, iteration: nat, outcome: Outcome, policy: Policy)
    requires i < |l.items|
    ensures
      var l' := Attempt(l, i, iteration, outcome, policy);
      && l'.accepted == l.accepted && l'.fingerprints == l.fingerprints && l'.items == l.items[i := l'.items[i]]
      && SameWork(l'.items[i], l.items[i]) && !InFlight(l'.items[i].state)
  {
  }

  /** What was accepted as PENDING was not handed in as in flight. */
  lemma PendingNotInFlight(s: Setting, handed: seq<Item>, x: Item)
    requires Original(s, handed, x) && !InFlight(x.state)
    ensures !OnceInFlight(s, handed, x.fingerprint)
  {
  }

  lemma OtherStateKept(d: Desk, s: Setting, handed: seq<Item>, x: Item, y: Item)
    requires DeskFits(d, s, handed) && StateKept(d, y) && y.fingerprint != x.fingerprint
    ensures StateKept(d.(copies := PutItem(d.copies, x)), y)
  {
    PutItemFits(d.copies, x, y.fingerprint);
  }

  lemma AttemptedAtRest(l: Loop, d: Desk, s: Setting, handed: seq<Item>, i: nat, x: Item)
    requires LoopFits(l, d, s, handed) && i < |l.items| && l.items[i].state == PENDING
    requires SameWork(x, l.items[i]) && !InFlight(x.state)
    ensures l.accepted[i].state == PENDING && CopyFits(d.records, s.owner, x) && FlightFits(d, s, handed, x)
    ensures HasFingerprint(d.copies, x.fingerprint)
  {
    assert LoopItemFits(l, d, s, handed, i) && Booked(l, i);
    PendingNotInFlight(s, handed, l.accepted[i]);
  }

  lemma ReplacedItem(l: Loop, l': Loop, d: Desk, s: Setting, handed: seq<Item>, i: nat, j: nat)
    requires LoopFits(l, d, s, handed) && DeskFits(d, s, handed) && i < |l.items| && j < |l.items|
    requires l.accepted[i].state == PENDING && l'.accepted == l.accepted
    requires |l'.items| == |l.items| && l'.items == l.items[i := l'.items[i]] && SameWork(l'.items[i], l.items[i])
    requires forall f :: HasFingerprint(d.copies, f) ==> HasFingerprint(PutItem(d.copies, l'.items[i]), f)
    ensures LoopItemFits(l', d.(copies := PutItem(d.copies, l'.items[i])), s, handed, j)
  {
    assert LoopItemFits(l, d, s, handed, j);
    if j != i { OtherStateKept(d, s, handed, l'.items[i], l.accepted[j]); }
  }

  lemma SameContents(items: seq<Item>, items': seq<Item>, i: nat, f: Fingerprint)
    requires i < |items| == |items'| && items' == items[i := items'[i]] && items'[i].fingerprint == items[i].fingerprint
    requires HasFingerprint(items, f)
    ensures HasFingerprint(items', f)
  {
    var j :| 0 <= j < |items| && items[j].fingerprint == f;
    assert items'[j].fingerprint == f;
  }

  /** The changed item on the desk. */
  lemma ReplacedDesk(l: Loop, d: Desk, s: Setting, handed: seq<Item>, i: nat, x: Item)
    requires LoopFits(l, d, s, handed) && DeskFits(d, s, handed) && AllAdopted(l, d)
    requires i < |l.items| && l.items[i].state == PENDING && SameWork(x, l.items[i]) && !InFlight(x.state)
    ensures
      var d' := d.(copies := PutItem(d.copies, x));
      && DeskFits(d', s, handed) && AllAdopted(l, d')
      && forall f :: HasFingerprint(d.copies, f) ==> HasFingerprint(d'.copies, f)
  {
    AttemptedAtRest(l, d, s, handed, i, x);
    PutFits(d, x, s, handed);
    PutItemFits(d.copies, x, x.fingerprint);
    assert l.items[i].fingerprint in l.fingerprints;
  }

  /** The changed item in the loop. */
  lemma ReplacedLoop(l: Loop, l': Loop, d: Desk, s: Setting, handed: seq<Item>, i: nat)
    requires LoopFits(l, d, s, handed) && DeskFits(d, s, handed) && i < |l.items| && l.accepted[i].state == PENDING
    requires l'.accepted == l.accepted && l'.fingerprints == l.fingerprints && |l'.items| == |l.items|
    requires l'.items == l.items[i := l'.items[i]] && SameWork(l'.items[i], l.items[i])
    requires forall f :: HasFingerprint(d.copies, f) ==> HasFingerprint(PutItem(d.copies, l'.items[i]), f)
    ensures
      var d' := d.(copies := PutItem(d.copies, l'.items[i]));
      && (forall j :: 0 <= j < |l'.items| ==> LoopItemFits(l', d', s, handed, j))
      && (forall f :: f in l'.fingerprints ==> HasFingerprint(l'.items, f))
  {
    var d' := d.(copies := PutItem(d.copies, l'.items[i]));
    forall j | 0 <= j < |l'.items| ensures LoopItemFits(l', d', s, handed, j) {
      ReplacedItem(l, l', d, s, handed, i, j);
    }
    forall f | f in l'.fingerprints ensures HasFingerprint(l'.items, f) {
      SameContents(l.items, l'.items, i, f);
    }
  }

  lemma AttemptFits(
    l: Loop, d: Desk, s: Setting, handed: seq<Item>, i: nat, iteration: nat, outcome: Outcome, policy: Policy)
    requires Fits(l, d, s, handed) && i < |l.items| && l.items[i].state == PENDING
    ensures
      var l' := Attempt(l, i, iteration, outcome, policy);
      Fits(l', d.(copies := PutItem(d.copies, l'.items[i])), s, handed)
  {
    var l' := Attempt(l, i, iteration, outcome, policy);
    AttemptChangesOne(l, i, iteration, outcome, policy);
    AttemptSound(l, i, iteration, outcome, policy, Accepted(l));
    assert Booked(l, i);
    ReplacedDesk(l, d, s, handed, i, l'.items[i]);
    ReplacedLoop(l, l', d, s, handed, i);
  }

  // ----- a checkpoint

  /** A checkpoint with the loop's lists; what it is for is in one of them. */
  ghost predicate ListsLoop(cp: Checkpoint, l: Loop) {
    && cp.completed == l.completed && cp.blocked == Uniq(l.blocked) && cp.pending == PendingIds(l.items)
    && (cp.active.Some? ==>
          cp.active.value in cp.completed || cp.active.value in cp.blocked || cp.active.value in cp.pending)
  }

  /** Loop and desk after a discovery that may have failed: the loop was given only a part of what was handed in. */
  ghost predicate Linked(l: Loop, d: Desk, s: Setting, known: seq<Item>, handed: seq<Item>) {
    LoopFits(l, d, s, known) && DeskFits(d, s, handed) && known <= handed
  }

  /** The lists loop item i is in. */
  lemma ListedIn(l: Loop, u: set<Item>, cp: Checkpoint, i: nat)
    requires Sound(l, u) && ListsLoop(cp, l) && i < |l.items|
    ensures
      var x, offered := l.items[i], l.accepted[i];
      && (x.itemId in cp.completed <==> x.state == SUCCEEDED && offered.state == PENDING)
      && (x.itemId in cp.blocked <==> x.state == BLOCKED && offered.state == PENDING)
      && (x.itemId in cp.pending <==> Open(x.state))
      && (offered.state != PENDING ==> x.state == offered.state)
      && (offered.state == PENDING ==> !InFlight(x.state))
  {
    assert Booked(l, i);
  }

  /** What a checkpoint stores for the copy of loop item i. */
  lemma StoresLoopState(l: Loop, u: set<Item>, cp: Checkpoint, i: nat, c: Item)
    requires Sound(l, u) && ListsLoop(cp, l) && i < |l.items| && c.itemId == l.items[i].itemId
    ensures l.accepted[i].state == PENDING ==> ToPersist(c, cp).state == l.items[i].state
    ensures InFlight(l.accepted[i].state) ==> ToPersist(c, cp).state == PENDING
    ensures !Open(l.accepted[i].state) ==> ToPersist(c, cp).state == c.state
  {
    ListedIn(l, u, cp, i);
  }

  /** A copy the loop knows nothing of is stored as it is. */
  lemma StoresUnlisted(l: Loop, d: Desk, s: Setting, known: seq<Item>, cp: Checkpoint, c: Item)
    requires LoopFits(l, d, s, known) && ListsLoop(cp, l) && Owned(s.owner, c) && c.fingerprint !in l.fingerprints
    ensures ToPersist(c, cp).state == c.state
  {
    forall i | 0 <= i < |l.items| ensures l.items[i].itemId != c.itemId {
      assert LoopItemFits(l, d, s, known, i);
    }
    assert !HasId(l.items, c.itemId);
  }

  lemma OriginalOfMore(s: Setting, known: seq<Item>, handed: seq<Item>, x: Item)
    requires Original(s, known, x) && known <= handed
    ensures Original(s, handed, x)
  {
    HandingsSplit(known, handed[|known|..], x.fingerprint);
    assert handed == known + handed[|known|..];
  }

  /** The loop item of a copy the loop knows of. */
  lemma ItemOfCopy(l: Loop, d: Desk, s: Setting, known: seq<Item>, c: Item)
    requires LoopFits(l, d, s, known) && CopyFits(d.records, s.owner, c) && c.fingerprint in l.fingerprints
    ensures exists i :: 0 <= i < |l.items| && l.items[i].fingerprint == c.fingerprint && l.items[i].itemId == c.itemId
  {
    var i :| 0 <= i < |l.items| && l.items[i].fingerprint == c.fingerprint;
    assert LoopItemFits(l, d, s, known, i);
  }

  lemma StoresFlightOf(
    l: Loop, u: set<Item>, d: Desk, s: Setting, handed: seq<Item>, cp: Checkpoint, i: nat, c: Item)
    requires Sound(l, u) && ListsLoop(cp, l) && FlightFits(d, s, handed, c)
    requires i < |l.items| && c.itemId == l.items[i].itemId && c.fingerprint == l.accepted[i].fingerprint
    requires Original(s, handed, l.accepted[i])
    ensures !InFlight(ToPersist(c, cp).state) && (InFlight(c.state) ==> Open(ToPersist(c, cp).state))
  {
    StoresLoopState(l, u, cp, i, c);
    if !InFlight(l.accepted[i].state) {
      PendingNotInFlight(s, handed, l.accepted[i]);
      ListedIn(l, u, cp, i);
    }
  }

  /** A copy in flight is stored as PENDING if the loop has it, and as it is otherwise. */
  lemma StoresFlight(l: Loop, d: Desk, s: Setting, known: seq<Item>, handed: seq<Item>, cp: Checkpoint, c: Item)
    requires Linked(l, d, s, known, handed) && ListsLoop(cp, l)
    requires CopyFits(d.records, s.owner, c) && FlightFits(d, s, handed, c)
    ensures InFlight(ToPersist(c, cp).state) <==> InFlight(c.state) && c.fingerprint !in l.fingerprints
    ensures InFlight(c.state) ==> Open(ToPersist(c, cp).state)
  {
    if c.fingerprint in l.fingerprints {
      ItemOfCopy(l, d, s, known, c);
      var i :| 0 <= i < |l.items| && l.items[i].fingerprint == c.fingerprint && l.items[i].itemId == c.itemId;
      assert LoopItemFits(l, d, s, known, i);
      OriginalOfMore(s, known, handed, l.accepted[i]);
      StoresFlightOf(l, Accepted(l), d, s, handed, cp, i, c);
    } else {
      StoresUnlisted(l, d, s, known, cp, c);
    }
  }

  lemma {:induction false} CheckpointedAt(m: Records, cp: Checkpoint, copies: seq<Item>, f: Fingerprint)
    requires DistinctFingerprints(copies)
    ensures
      var r := AfterCheckpoint(m, cp, copies);
      && (HasFingerprint(copies, f) ==> f in r)
      && (!HasFingerprint(copies, f) ==> (f in r <==> f in m) && (f in m ==> r[f] == m[f]))
      && forall i :: 0 <= i < |copies| && copies[i].fingerprint == f ==> f in r && r[f] == ToPersist(copies[i], cp)
  {
    if copies != [] {
      var front := copies[..|copies| - 1];
      CheckpointedAt(m, cp, front, f);
      if HasFingerprint(front, f) {
        var i :| 0 <= i < |front| && front[i].fingerprint == f;
        assert copies[i].fingerprint == f;
      }
      if copies[|copies| - 1].fingerprint != f && HasFingerprint(copies, f) {
        var i :| 0 <= i < |copies| && copies[i].fingerprint == f;
        assert front[i].fingerprint == f;
      }
    }
  }

  /** The desk after a checkpoint. */
  function Stored(d: Desk, cp: Checkpoint): Desk {
    d.(records := AfterCheckpoint(d.records, cp, d.copies))
  }

  lemma StoredAt(d: Desk, s: Setting, handed: seq<Item>, cp: Checkpoint, f: Fingerprint)
    requires DeskFits(d, s, handed)
    ensures
      var d' := Stored(d, cp);
      && (!HasFingerprint(d.copies, f) ==>
            (f in d'.records <==> f in d.records) && (f in d.records ==> d'.records[f] == d.records[f]))
      && (f in d.records ==> f in d'.records)
      && forall i :: 0 <= i < |d.copies| && d.copies[i].fingerprint == f ==>
           f in d'.records && d'.records[f] == ToPersist(d.copies[i], cp)
  {
    forall i, j | 0 <= i < j < |d.copies| ensures d.copies[i].fingerprint != d.copies[j].fingerprint {
      CopiesDistinct(d, s, handed, i, j);
    }
    CheckpointedAt(d.records, cp, d.copies, f);
  }

  lemma StoredCopy(l: Loop, d: Desk, s: Setting, known: seq<Item>, handed: seq<Item>, cp: Checkpoint, c: Item)
    requires Linked(l, d, s, known, handed) && ListsLoop(cp, l) && c in d.copies
    ensures CopyFits(Stored(d, cp).records, s.owner, c) && FlightFits(Stored(d, cp), s, handed, c)
  {
    var i :| 0 <= i < |d.copies| && d.copies[i] == c;
    assert CopyFits(d.records, s.owner, c) && FlightFits(d, s, handed, c);
    StoredAt(d, s, handed, cp, c.fingerprint);
    StoresFlight(l, d, s, known, handed, cp, c);
  }

  /** After a checkpoint just those records are in flight whose work was handed in so and is not in the loop. */
  ghost predicate FlightEnds(l: Loop, d: Desk, s: Setting, handed: seq<Item>, f: Fingerprint)
    requires f in d.records
  {
    InFlight(d.records[f].state) <==> OnceInFlight(s, handed, f) && f !in l.fingerprints
  }

  lemma StoredRecord(l: Loop, d: Desk, s: Setting, known: seq<Item>, handed: seq<Item>, cp: Checkpoint, f: Fingerprint)
    requires Linked(l, d, s, known, handed) && ListsLoop(cp, l) && f in Stored(d, cp).records
    ensures RecordFits(Stored(d, cp), s, handed, f) && FlightEnds(l, Stored(d, cp), s, handed, f)
  {
    StoredAt(d, s, handed, cp, f);
    KnownIsRecorded(d, s, handed, f);
    if HasFingerprint(d.copies, f) {
      var i :| 0 <= i < |d.copies| && d.copies[i].fingerprint == f;
      assert CopyFits(d.records, s.owner, d.copies[i]) && FlightFits(d, s, handed, d.copies[i]);
      StoresFlight(l, d, s, known, handed, cp, d.copies[i]);
    } else {
      assert RecordFits(d, s, handed, f);
      if Handings(handed, f) != [] { assert Recorded(d, s, f); }
    }
  }

  lemma StoredFits(l: Loop, d: Desk, s: Setting, known: seq<Item>, handed: seq<Item>, cp: Checkpoint)
    requires Linked(l, d, s, known, handed) && ListsLoop(cp, l)
    ensures DeskFits(Stored(d, cp), s, handed)
    ensures forall f :: f in Stored(d, cp).records ==> FlightEnds(l, Stored(d, cp), s, handed, f)
  {
    var d' := Stored(d, cp);
    forall i | 0 <= i < |d'.copies|
      ensures CopyFits(d'.records, s.owner, d'.copies[i]) && FlightFits(d', s, handed, d'.copies[i])
    {
      StoredCopy(l, d, s, known, handed, cp, d.copies[i]);
    }
    forall f | f in d'.records ensures RecordFits(d', s, handed, f) && FlightEnds(l, d', s, handed, f) {
      StoredRecord(l, d, s, known, handed, cp, f);
    }
    forall f | f in s.start ensures Continues(d', s, f) {
      assert Continues(d, s, f);
      StoredAt(d, s, handed, cp, f);
    }
    forall f | Handings(handed, f) != [] ensures Recorded(d', s, f) {
      assert Recorded(d, s, f);
      StoredAt(d, s, handed, cp, f);
    }
  }

  /** The ledger holds loop item i in the loop's state, and interrupted work as PENDING; work accepted as BLOCKED it may have reopened. */
  ghost predicate Mirrored(l: Loop, d: Desk, i: nat)
    requires i < |l.items| == |l.accepted|
  {
    var f := l.items[i].fingerprint;
    && f in d.records
    && (Plain(l.accepted[i]) ==> d.records[f].state == l.items[i].state)
    && (InFlight(l.accepted[i].state) ==> d.records[f].state == PENDING)
  }

  ghost predicate Mirrors(l: Loop, d: Desk) {
    |l.items| == |l.accepted| && forall i :: 0 <= i < |l.items| ==> Mirrored(l, d, i)
  }

  lemma StoredItem(l: Loop, d: Desk, s: Setting, known: seq<Item>, handed: seq<Item>, cp: Checkpoint, i: nat)
    requires Linked(l, d, s, known, handed) && ListsLoop(cp, l) && i < |l.items|
    ensures LoopItemFits(l, Stored(d, cp), s, known, i) && Mirrored(l, Stored(d, cp), i)
  {
    var f, x := l.items[i].fingerprint, l.accepted[i];
    assert LoopItemFits(l, d, s, known, i) && Booked(l, i);
    var k :| 0 <= k < |d.copies| && d.copies[k].fingerprint == f;
    assert CopyFits(d.records, s.owner, d.copies[k]);
    StoredAt(d, s, handed, cp, f);
    StoresLoopState(l, Accepted(l), cp, i, d.copies[k]);
  }

  lemma StoredMirrors(l: Loop, d: Desk, s: Setting, known: seq<Item>, handed: seq<Item>, cp: Checkpoint)
    requires Linked(l, d, s, known, handed) && ListsLoop(cp, l)
    ensures LoopFits(l, Stored(d, cp), s, known) && Mirrors(l, Stored(d, cp))
  {
    forall i | 0 <= i < |l.items| ensures LoopItemFits(l, Stored(d, cp), s, known, i) && Mirrored(l, Stored(d, cp), i) {
      StoredItem(l, d, s, known, handed, cp, i);
    }
  }

  /** What a stored checkpoint leaves. */
  ghost predicate Settles(l: Loop, d: Desk, s: Setting, handed: seq<Item>) {
    Mirrors(l, d) && forall f :: f in d.records ==> FlightEnds(l, d, s, handed, f)
  }

  // ----- the end of a run

  /** Everything handed in up to an iteration: the seeds, then what discovery after discovery restored. */
  function HandedBy(seeds: seq<Item>, turns: seq<SourceTurn>, n: nat): seq<Item>
    requires n <= |turns|
  {
    if n == 0 then seeds else HandedBy(seeds, turns, n - 1) + turns[n - 1].candidates
  }

  /** The part of it the loop was given: all but the candidates of a discovery that failed. */
  function Given(seeds: seq<Item>, turns: seq<SourceTurn>, n: nat, failed: bool): seq<Item>
    requires n <= |turns|
  {
    if failed && n > 0 then HandedBy(seeds, turns, n - 1) else HandedBy(seeds, turns, n)
  }

  function Iterations(e: Ended): nat {
    if e.Ended? then e.report.iterations else e.iterations
  }

  /** Loop and ledger when a run is over, with the loop given all that was handed in or not. */
  ghost predicate OverWith(e: Ended, s: Setting, seeds: seq<Item>, turns: seq<SourceTurn>, n: nat, failed: bool) {
    && n == Iterations(e) <= |turns|
    && Linked(e.loop, e.desk, s, Given(seeds, turns, n, failed), HandedBy(seeds, turns, n))
    && (e.Ended? ==> failed == DiscoveryFailed(e.report) && ReportFits(e, s, seeds, turns))
  }

  /** What a run adds that ends with a report. */
  ghost predicate ReportFits(e: Ended, s: Setting, seeds: seq<Item>, turns: seq<SourceTurn>)
    requires e.Ended? && e.report.iterations <= |turns|
  {
    && EndsRight(Final(e.loop, e.report, []))
    && Knows(e.loop, s, Given(seeds, turns, e.report.iterations, DiscoveryFailed(e.report)))
    && Settles(e.loop, e.desk, s, HandedBy(seeds, turns, e.report.iterations))
    && (!DiscoveryFailed(e.report) ==> AllAdopted(e.loop, e.desk))
  }

  ghost predicate RunEndFits(e: Ended, s: Setting, seeds: seq<Item>, turns: seq<SourceTurn>) {
    exists n, failed :: OverWith(e, s, seeds, turns, n, failed)
  }

  /** Records under their fingerprints, each with an id of its own. */
  ghost predicate LedgerFits(m: Records, owner: Owners) {
    forall f :: f in m ==> m[f].fingerprint == f && Owned(owner, m[f])
  }
}
