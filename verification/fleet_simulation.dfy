/** Every run of the pipeline over the fenced table is a sequence of moves of the fleet machine. */
module FleetSimulation {
  import opened Work
  import opened Offers
  import opened UpgradeLoop
  import opened UpgradeLoopLaws
  import opened Ledger
  import opened Fleet
  import opened FleetWitness
  import L = PipelineLaws
  import P = Pipeline
  import R = PipelineRuns

  // ----- the moves of one run

  /** All these actions are those of run r. */
  predicate OnlyBy(actions: seq<Action>, r: RunnerId, retryBlocked: bool) {
    forall a :: a in actions ==> a == Action.Lock(r, retryBlocked) || (a.Do? && a.r == r)
  }

  /** Actions of run r alone lead from s0 to s. */
  predicate Leads(s0: State, actions: seq<Action>, r: RunnerId, retryBlocked: bool, s: State, n: nat) {
    s == Interleave(s0, actions, n) && OnlyBy(actions, r, retryBlocked)
  }

  /** One more move of run r. */
  lemma Goes(s0: State, actions: seq<Action>, s: State, r: RunnerId, move: Move, retryBlocked: bool, n: nat)
    returns (actions': seq<Action>, s': State)
    requires Leads(s0, actions, r, retryBlocked, s, n) && r in s.runners
    ensures s' == StepMove(s, r, move, n) && Leads(s0, actions', r, retryBlocked, s', n) && r in s'.runners
  {
    hide StepMove;
    actions', s' := actions + [Do(r, move)], StepMove(s, r, move, n);
    assert actions'[..|actions|] == actions;
  }

  // ----- dictionaries by fingerprint

  /** Replacing item i, or adding one of new content. */
  lemma PutDistinct(items: seq<Item>, at: nat, x: Item, f: Fingerprint)
    requires DistinctFingerprints(items) && at <= |items|
    requires forall i :: 0 <= i < |items| ==> (items[i].fingerprint == x.fingerprint <==> i == at)
    ensures DistinctFingerprints(Put(items, at, x))
    ensures HasFingerprint(Put(items, at, x), f) <==> HasFingerprint(items, f) || f == x.fingerprint
  {
    var items' := Put(items, at, x);
    assert items'[at] == x;
    if HasFingerprint(items, f) {
      var i :| 0 <= i < |items| && items[i].fingerprint == f;
      assert items'[i].fingerprint == f;
    }
    if HasFingerprint(items', f) {
      var i :| 0 <= i < |items'| && items'[i].fingerprint == f;
      if i != at { assert items[i] == items'[i]; }
    }
  }

  lemma PutAt(items: seq<Item>, at: nat, x: Item, f: Fingerprint)
    requires DistinctFingerprints(items) && at <= |items|
    requires forall i :: 0 <= i < |items| ==> (items[i].fingerprint == x.fingerprint <==> i == at)
    ensures
      var before, after := ByFingerprint(items), ByFingerprint(Put(items, at, x));
      && (f in after <==> f in before || f == x.fingerprint)
      && (f in after ==> after[f] == if f == x.fingerprint then x else before[f])
  {
    var items' := Put(items, at, x);
    PutDistinct(items, at, x, f);
    ByFingerprintAt(items, f);
    ByFingerprintAt(items', f);
    assert items'[at] == x;
    if HasFingerprint(items, f) && f != x.fingerprint {
      var i :| 0 <= i < |items| && items[i].fingerprint == f;
      assert items'[i] == items[i];
    }
  }

  lemma PutByFingerprint(items: seq<Item>, at: nat, x: Item)
    requires DistinctFingerprints(items) && at <= |items|
    requires forall i :: 0 <= i < |items| ==> (items[i].fingerprint == x.fingerprint <==> i == at)
    ensures ByFingerprint(Put(items, at, x)) == ByFingerprint(items)[x.fingerprint := x]
  {
    hide ByFingerprint, Put;
    forall f
      ensures f in ByFingerprint(Put(items, at, x)) <==> f in ByFingerprint(items) || f == x.fingerprint
      ensures f in ByFingerprint(Put(items, at, x)) ==>
        ByFingerprint(Put(items, at, x))[f] == if f == x.fingerprint then x else ByFingerprint(items)[f]
    {
      PutAt(items, at, x, f);
    }
  }

  /** The contents of the listed items. */
  function Listed(items: seq<Item>, ids: seq<ItemId>): set<Fingerprint> {
    set i | 0 <= i < |items| && items[i].itemId in ids :: items[i].fingerprint
  }

  // ----- the run against loop and desk

  /** The memory of run r is that of loop and dictionary, its ledger is the table, its token is the newest. */
  ghost predicate Mirrors(l: Loop, d: P.Desk, s: State, r: RunnerId, retryBlocked: bool) {
    && r in s.runners && s.runners[r].retryBlocked == retryBlocked && Current(s, s.runners[r])
    && s.records == d.records
    && s.runners[r].loop == ByFingerprint(l.items) && s.runners[r].copies == ByFingerprint(d.copies)
    && s.runners[r].completed == Listed(l.items, l.completed) && s.runners[r].blocked == Listed(l.items, l.blocked)
  }

  lemma CopyAt(d: P.Desk, w: L.Setting, handed: seq<Item>, x: Item)
    requires L.DeskFits(d, w, handed) && L.Owned(w.owner, x)
    requires x.fingerprint in d.records ==> d.records[x.fingerprint].itemId == x.itemId
    ensures DistinctFingerprints(d.copies)
    ensures
      var at := IndexOf(d.copies, x.itemId);
      forall i :: 0 <= i < |d.copies| ==> (d.copies[i].fingerprint == x.fingerprint <==> i == at)
  {
    forall i, j | 0 <= i < j < |d.copies| ensures d.copies[i].fingerprint != d.copies[j].fingerprint {
      L.CopiesDistinct(d, w, handed, i, j);
    }
    forall i | 0 <= i < |d.copies| ensures d.copies[i].fingerprint == x.fingerprint <==> i == IndexOf(d.copies, x.itemId) {
      assert L.CopyFits(d.records, w.owner, d.copies[i]);
      if d.copies[i].itemId == x.itemId { IndexOfHere(d.copies, i); }
    }
  }

  lemma LoopDistinct(l: Loop, d: P.Desk, w: L.Setting, known: seq<Item>)
    requires L.LoopFits(l, d, w, known)
    ensures DistinctFingerprints(l.items) && DistinctIds(l.items) && |l.items| == |l.accepted|
    ensures forall f :: f in l.fingerprints <==> HasFingerprint(l.items, f)
  {
  }

  // ----- restoring a candidate

  lemma AcceptListed(l: Loop, d: P.Desk, w: L.Setting, known: seq<Item>, x: Item)
    requires L.LoopFits(l, d, w, known) && L.Owned(w.owner, x) && x.fingerprint !in l.fingerprints
    ensures Accept(l, x).items == l.items + [x]
    ensures Listed(l.items + [x], l.completed) == Listed(l.items, l.completed)
    ensures Listed(l.items + [x], l.blocked) == Listed(l.items, l.blocked)
  {
    L.AcceptAppends(l, d, w, known, x);
    forall i | 0 <= i < |l.items| ensures l.items[i].itemId != x.itemId {
      assert L.LoopItemFits(l, d, w, known, i);
    }
    assert x.itemId !in l.completed && x.itemId !in l.blocked by {
      assert !HasId(l.items, x.itemId);
    }
    ListedAppend(l.items, x, l.completed);
    ListedAppend(l.items, x, l.blocked);
  }

  lemma ListedAppend(items: seq<Item>, x: Item, ids: seq<ItemId>)
    requires x.itemId !in ids
    ensures Listed(items + [x], ids) == Listed(items, ids)
  {
    var all := items + [x];
    forall f ensures f in Listed(all, ids) <==> f in Listed(items, ids) {
      if f in Listed(items, ids) {
        var i :| 0 <= i < |items| && items[i].itemId in ids && items[i].fingerprint == f;
        assert all[i] == items[i];
      }
      if f in Listed(all, ids) {
        var i :| 0 <= i < |all| && all[i].itemId in ids && all[i].fingerprint == f;
        assert all[i] == items[i];
      }
    }
  }

  /** Looking up and storing one candidate, which the loop takes in if `adopt` says so. */
  function Candidate(s: State, r: RunnerId, c: Item, adopt: bool): State
    requires r in s.runners
  {
    StepRegister(StepLookup(s, r, c), r, adopt)
  }

  lemma CandidateStores(s: State, r: RunnerId, c: Item, adopt: bool)
    requires r in s.runners && s.runners[r].phase == Looping && Current(s, s.runners[r])
    ensures
      var s', next := Candidate(s, r, c, adopt), Restored(s.records, c, s.runners[r].retryBlocked);
      && r in s'.runners && s'.runners[r].phase == Looping && Current(s', s'.runners[r])
      && s'.records == Registered(s.records, c, s.runners[r].retryBlocked)
      && s'.runners[r] == (if next.Some? then Take(s.runners[r], next.value, adopt) else s.runners[r])
      && s'.executions == s.executions
  {
    var x, next := s.runners[r], Restored(s.records, c, s.runners[r].retryBlocked);
    if next.Some? {
      assert StepLookup(s, r, c) == SetRunner(s, r, x.(phase := Restoring(next.value)));
      assert Take(x.(phase := Restoring(next.value)), next.value, adopt).(phase := Looping) == Take(x, next.value, adopt);
    }
  }

  /** A candidate changes the machine as it changes loop and desk. */
  lemma CandidateSimulated(
    l: Loop, d: P.Desk, w: L.Setting, known: seq<Item>, handed: seq<Item>, s: State, r: RunnerId, c: Item, adopt: bool)
    requires L.LoopFits(l, d, w, known) && L.DeskFits(d, w, handed) && L.Owned(w.owner, c)
    requires Mirrors(l, d, s, r, w.retryBlocked) && s.runners[r].phase == Looping
    ensures
      var s', d' := Candidate(s, r, c, adopt), L.Handle(d, c, w.retryBlocked);
      && Mirrors(if adopt then L.TakeIn(l, d, c, w.retryBlocked) else l, d', s', r, w.retryBlocked)
      && s'.runners[r].phase == Looping && s'.executions == s.executions
  {
    var next := Restored(d.records, c, w.retryBlocked);
    CandidateStores(s, r, c, adopt);
    if next.Some? {
      var x := next.value;
      L.RestoredOwned(d, c, w, handed);
      CopyAt(d, w, handed, x);
      PutByFingerprint(d.copies, IndexOf(d.copies, x.itemId), x);
      LoopDistinct(l, d, w, known);
      ByFingerprintAt(l.items, x.fingerprint);
      if adopt && x.fingerprint !in l.fingerprints {
        AcceptListed(l, d, w, known, x);
        ByFingerprintNext(l.items, x);
      }
    }
  }

  lemma CandidateMoves(s: State, r: RunnerId, c: Item, adopt: bool, n: nat)
    requires r in s.runners
    ensures StepMove(s, r, Lookup(c), n) == StepLookup(s, r, c)
    ensures StepMove(s, r, Register(adopt), n) == StepRegister(s, r, adopt)
  {
    hide StepLookup, StepRegister, NoAttempt, Orderly;
  }

  /** The loop after a discovery it was given, or not. */
  function Given(l: Loop, d: P.Desk, candidates: seq<Item>, retryBlocked: bool, adopt: bool): Loop
    requires |l.items| == |l.accepted|
  {
    if adopt then AcceptAll(l, P.RestoreAll(d.records, candidates, retryBlocked)) else l
  }

  lemma GivenFits(l: Loop, d: P.Desk, w: L.Setting, handed: seq<Item>, candidates: seq<Item>, adopt: bool)
    requires L.Fits(l, d, w, handed) && L.Candidates(w.owner, candidates)
    ensures
      var l', d' := Given(l, d, candidates, w.retryBlocked, adopt), P.Discover(d, candidates, w.retryBlocked);
      && L.LoopFits(l', d', w, if adopt then handed + candidates else handed) && L.DeskFits(d', w, handed + candidates)
  {
    if adopt {
      L.TakeInAll(l, d, candidates, w, handed);
    } else {
      L.DiscoverFits(d, candidates, w, handed);
      L.LoopCarried(l, d, P.Discover(d, candidates, w.retryBlocked), w, handed);
    }
  }

  lemma {:induction false} DiscoverSimulated(
    s0: State, actions: seq<Action>, s: State, r: RunnerId, l: Loop, d: P.Desk, w: L.Setting, handed: seq<Item>,
    candidates: seq<Item>, adopt: bool, n: nat)
    returns (actions': seq<Action>, s': State)
    requires Leads(s0, actions, r, w.retryBlocked, s, n) && L.Fits(l, d, w, handed) && L.Candidates(w.owner, candidates)
    requires Mirrors(l, d, s, r, w.retryBlocked) && s.runners[r].phase == Looping
    ensures Leads(s0, actions', r, w.retryBlocked, s', n) && s'.executions == s.executions
    ensures
      var l', d' := Given(l, d, candidates, w.retryBlocked, adopt), P.Discover(d, candidates, w.retryBlocked);
      Mirrors(l', d', s', r, w.retryBlocked) && s'.runners[r].phase == Looping
  {
    if candidates == [] {
      actions', s' := actions, s;
    } else {
      var front, c := candidates[..|candidates| - 1], candidates[|candidates| - 1];
      actions', s' := DiscoverSimulated(s0, actions, s, r, l, d, w, handed, front, adopt, n);
      actions', s' := LastSimulated(s0, actions', s', r, l, d, w, handed, candidates, adopt, n);
    }
  }

  lemma LastSimulated(
    s0: State, actions: seq<Action>, s: State, r: RunnerId, l: Loop, d: P.Desk, w: L.Setting, handed: seq<Item>,
    candidates: seq<Item>, adopt: bool, n: nat)
    returns (actions': seq<Action>, s': State)
    requires Leads(s0, actions, r, w.retryBlocked, s, n) && L.Fits(l, d, w, handed) && L.Candidates(w.owner, candidates)
    requires candidates != []
    requires
      var front := candidates[..|candidates| - 1];
      && Mirrors(Given(l, d, front, w.retryBlocked, adopt), P.Discover(d, front, w.retryBlocked), s, r, w.retryBlocked)
      && s.runners[r].phase == Looping
    ensures Leads(s0, actions', r, w.retryBlocked, s', n) && s'.executions == s.executions
    ensures
      var l', d' := Given(l, d, candidates, w.retryBlocked, adopt), P.Discover(d, candidates, w.retryBlocked);
      Mirrors(l', d', s', r, w.retryBlocked) && s'.runners[r].phase == Looping
  {
    var front, c := candidates[..|candidates| - 1], candidates[|candidates| - 1];
    var l1, d1 := Given(l, d, front, w.retryBlocked, adopt), P.Discover(d, front, w.retryBlocked);
    assert L.Owned(w.owner, c) by { assert c in candidates; }
    GivenFits(l, d, w, handed, front, adopt);
    L.DiscoverTakesIn(l, d, candidates, w.retryBlocked);
    CandidateSimulated(l1, d1, w, if adopt then handed + front else handed, handed + front, s, r, c, adopt);
    hide Mirrors, StepMove, StepLookup, StepRegister, Leads, L.LoopFits, L.DeskFits, L.Fits;
    CandidateMoves(s, r, c, adopt, n);
    actions', s' := Goes(s0, actions, s, r, Lookup(c), w.retryBlocked, n);
    CandidateMoves(s', r, c, adopt, n);
    actions', s' := Goes(s0, actions', s', r, Register(adopt), w.retryBlocked, n);
  }

  // ----- an attempt

  lemma ListedPut(items: seq<Item>, i: nat, x: Item, ids: seq<ItemId>)
    requires DistinctIds(items) && i < |items| && x.itemId == items[i].itemId && x.fingerprint == items[i].fingerprint
    ensures Listed(items[i := x], ids) == Listed(items, ids)
    ensures Listed(items[i := x], ids + [x.itemId]) == Listed(items, ids) + {x.fingerprint}
  {
    var items' := items[i := x];
    forall k | 0 <= k < |items| ensures items'[k].itemId == items[k].itemId && items'[k].fingerprint == items[k].fingerprint {}
    forall f ensures f in Listed(items', ids) <==> f in Listed(items, ids) {
      ListedSame(items, items', ids, f);
      ListedSame(items', items, ids, f);
    }
    forall f ensures f in Listed(items', ids + [x.itemId]) <==> f in Listed(items, ids) || f == x.fingerprint {
      ListedSame(items, items', ids, f);
      if f == x.fingerprint { assert items'[i].itemId in ids + [x.itemId]; }
      if f in Listed(items, ids) {
        var k :| 0 <= k < |items| && items[k].itemId in ids && items[k].fingerprint == f;
        assert items'[k].itemId in ids + [x.itemId];
      }
      if f in Listed(items', ids + [x.itemId]) {
        var k :| 0 <= k < |items'| && items'[k].itemId in ids + [x.itemId] && items'[k].fingerprint == f;
        if k != i { assert items[k].itemId in ids; }
      }
    }
  }

  lemma ListedSame(items: seq<Item>, items': seq<Item>, ids: seq<ItemId>, f: Fingerprint)
    requires |items| == |items'|
    requires forall k :: 0 <= k < |items| ==> items'[k].itemId == items[k].itemId && items'[k].fingerprint == items[k].fingerprint
    ensures f in Listed(items, ids) ==> f in Listed(items', ids)
  {
    if f in Listed(items, ids) {
      var k :| 0 <= k < |items| && items[k].itemId in ids && items[k].fingerprint == f;
      assert items'[k].itemId in ids;
    }
  }

  /** The machine after an attempt, at the start of the checkpoint that follows. */
  function AttemptedBy(s: State, r: RunnerId, f: Fingerprint, outcome: Outcome, policy: Policy): State
    requires r in s.runners
  {
    StepSettle(StepAttempt(s, r, f), r, outcome, policy)
  }

  lemma AttemptSteps(s: State, r: RunnerId, f: Fingerprint, outcome: Outcome, policy: Policy)
    requires r in s.runners && s.runners[r].phase == Looping && Current(s, s.runners[r])
    requires f in s.runners[r].loop && s.runners[r].loop[f].state == PENDING && f in s.runners[r].copies
    ensures
      var x, s' := s.runners[r], AttemptedBy(s, r, f, outcome, policy);
      var live := Outcomed(x.loop[f], outcome, policy);
      && r in s'.runners && Current(s', s'.runners[r]) && s'.records == s.records
      && s'.runners[r].retryBlocked == x.retryBlocked && s'.runners[r].phase == Saving(x.copies.Keys, Some(f))
      && s'.runners[r].loop == x.loop[f := live] && s'.runners[r].copies == x.copies[f := live]
      && s'.runners[r].completed == (if live.state == SUCCEEDED then x.completed + {f} else x.completed)
      && s'.runners[r].blocked == (if live.state == BLOCKED then x.blocked + {f} else x.blocked)
      && |s'.executions| == |s.executions| + 1 && s.executions <= s'.executions
      && s'.executions[|s.executions|].runner == r && s'.executions[|s.executions|].fingerprint == f
  {
    var x := s.runners[r];
    var s1 := StepAttempt(s, r, f);
    assert s1.runners[r] == BeginAttempt(x, f, true);
    assert x.loop[f := Begin(x.loop[f])][f := Outcomed(x.loop[f], outcome, policy)] == x.loop[f := Outcomed(x.loop[f], outcome, policy)];
    assert x.copies[f := Begin(x.loop[f])][f := Outcomed(x.loop[f], outcome, policy)]
      == x.copies[f := Outcomed(x.loop[f], outcome, policy)];
    assert x.copies.Keys + {f} == x.copies.Keys;
  }

  /** Attempting a pending item changes the machine as it changes loop and desk. */
  lemma AttemptSimulated(
    l: Loop, d: P.Desk, w: L.Setting, handed: seq<Item>, s: State, r: RunnerId, i: nat, iteration: nat, outcome: Outcome,
    policy: Policy)
    requires L.Fits(l, d, w, handed) && i < |l.items| && l.items[i].state == PENDING
    requires Mirrors(l, d, s, r, w.retryBlocked) && s.runners[r].phase == Looping
    ensures
      var f := l.items[i].fingerprint;
      var l', s' := UpgradeLoop.Attempt(l, i, iteration, outcome, policy), AttemptedBy(s, r, f, outcome, policy);
      && Mirrors(l', d.(copies := P.PutItem(d.copies, l'.items[i])), s', r, w.retryBlocked)
      && s'.runners[r].phase == Saving(ByFingerprint(d.copies).Keys, Some(f))
      && |s'.executions| == |s.executions| + 1 && s.executions <= s'.executions
      && s'.executions[|s.executions|].runner == r && s'.executions[|s.executions|].fingerprint == f
  {
    var f, item := l.items[i].fingerprint, l.items[i];
    var l' := UpgradeLoop.Attempt(l, i, iteration, outcome, policy);
    var live := Outcomed(item, outcome, policy);
    LoopDistinct(l, d, w, handed);
    ByFingerprintAt(l.items, f);
    assert L.LoopItemFits(l, d, w, handed, i) && L.CopyFits(d.records, w.owner, item);
    CopyAt(d, w, handed, live);
    ByFingerprintAt(d.copies, f);
    AttemptSteps(s, r, f, outcome, policy);
    PutByFingerprint(l.items, i, live);
    PutByFingerprint(d.copies, IndexOf(d.copies, live.itemId), live);
    ListedPut(l.items, i, live, l.completed);
    ListedPut(l.items, i, live, l.blocked);
    AttemptIs(l, i, iteration, outcome, policy);
  }

  lemma AttemptIs(l: Loop, i: nat, iteration: nat, outcome: Outcome, policy: Policy)
    requires i < |l.items|
    ensures
      var l', live := UpgradeLoop.Attempt(l, i, iteration, outcome, policy), Outcomed(l.items[i], outcome, policy);
      && l'.items == Put(l.items, i, live) == l.items[i := live] && l'.items[i] == live
      && live.itemId == l.items[i].itemId && live.fingerprint == l.items[i].fingerprint
      && l'.completed == (if live.state == SUCCEEDED then l.completed + [live.itemId] else l.completed)
      && l'.blocked == (if live.state == BLOCKED then l.blocked + [live.itemId] else l.blocked)
  {
  }

  // ----- a checkpoint

  /** The content a checkpoint is for. */
  ghost predicate SameOrigin(cp: Checkpoint, origin: Option<Fingerprint>, l: Loop) {
    if origin.None? then cp.active.None?
    else exists i :: 0 <= i < |l.items| && cp.active == Some(l.items[i].itemId) && origin == Some(l.items[i].fingerprint)
  }

  /** A list of ids of loop items holds a copy's id exactly if the machine's list holds its content. */
  lemma SameListed(l: Loop, d: P.Desk, w: L.Setting, known: seq<Item>, c: Item, ids: seq<ItemId>)
    requires L.LoopFits(l, d, w, known) && L.CopyFits(d.records, w.owner, c)
    requires forall id :: id in ids ==> HasId(l.items, id)
    ensures c.itemId in ids <==> c.fingerprint in Listed(l.items, ids)
  {
    if c.itemId in ids {
      var i :| 0 <= i < |l.items| && l.items[i].itemId == c.itemId;
      assert L.LoopItemFits(l, d, w, known, i);
      assert l.items[i].itemId in ids && l.items[i].fingerprint == c.fingerprint;
    }
    if c.fingerprint in Listed(l.items, ids) {
      var i :| 0 <= i < |l.items| && l.items[i].itemId in ids && l.items[i].fingerprint == c.fingerprint;
      assert L.LoopItemFits(l, d, w, known, i);
    }
  }

  lemma SamePending(l: Loop, d: P.Desk, w: L.Setting, known: seq<Item>, c: Item)
    requires L.LoopFits(l, d, w, known) && L.CopyFits(d.records, w.owner, c)
    ensures
      var loop := ByFingerprint(l.items);
      c.itemId in PendingIds(l.items) <==> c.fingerprint in loop && Open(loop[c.fingerprint].state)
  {
    LoopDistinct(l, d, w, known);
    ByFingerprintAt(l.items, c.fingerprint);
    if c.itemId in PendingIds(l.items) {
      var i :| 0 <= i < |l.items| && l.items[i].itemId == c.itemId && Open(l.items[i].state);
      assert L.LoopItemFits(l, d, w, known, i);
    }
    if HasFingerprint(l.items, c.fingerprint) {
      var i :| 0 <= i < |l.items| && l.items[i].fingerprint == c.fingerprint;
      assert L.LoopItemFits(l, d, w, known, i);
    }
  }

  lemma SameActive(l: Loop, d: P.Desk, w: L.Setting, known: seq<Item>, c: Item, cp: Checkpoint, origin: Option<Fingerprint>)
    requires L.LoopFits(l, d, w, known) && L.CopyFits(d.records, w.owner, c) && SameOrigin(cp, origin, l)
    ensures cp.active == Some(c.itemId) <==> origin == Some(c.fingerprint)
  {
    if origin.Some? {
      var i :| 0 <= i < |l.items| && cp.active == Some(l.items[i].itemId) && origin == Some(l.items[i].fingerprint);
      assert L.LoopItemFits(l, d, w, known, i);
    }
  }

  /** The machine stores a copy as the checkpoint does. */
  lemma StoresSame(
    l: Loop, d: P.Desk, w: L.Setting, known: seq<Item>, handed: seq<Item>, s: State, r: RunnerId, c: Item, cp: Checkpoint,
    origin: Option<Fingerprint>)
    requires L.Linked(l, d, w, known, handed) && L.ListsLoop(cp, l) && SameOrigin(cp, origin, l)
    requires Mirrors(l, d.(records := s.records), s, r, w.retryBlocked) && c in d.copies
    ensures c.fingerprint in s.runners[r].copies && s.runners[r].copies[c.fingerprint] == c
    ensures ToStore(s.runners[r], c.fingerprint, origin) == ToPersist(c, cp)
  {
    var k :| 0 <= k < |d.copies| && d.copies[k] == c;
    assert L.CopyFits(d.records, w.owner, c);
    forall i, j | 0 <= i < j < |d.copies| ensures d.copies[i].fingerprint != d.copies[j].fingerprint {
      L.CopiesDistinct(d, w, handed, i, j);
    }
    ByFingerprintAt(d.copies, c.fingerprint);
    SameListed(l, d, w, known, c, l.completed);
    SameListed(l, d, w, known, c, l.blocked);
    SamePending(l, d, w, known, c);
    SameActive(l, d, w, known, c, cp, origin);
  }

  function Contents(items: seq<Item>): set<Fingerprint> {
    set i | 0 <= i < |items| :: items[i].fingerprint
  }

  /** The run inside a checkpoint with the first k copies stored. */
  ghost predicate Saved(
    l: Loop, d: P.Desk, s: State, r: RunnerId, retryBlocked: bool, cp: Checkpoint, origin: Option<Fingerprint>, k: nat)
    requires k <= |d.copies|
  {
    && Mirrors(l, d.(records := s.records), s, r, retryBlocked)
    && s.runners[r].phase == Saving(Contents(d.copies[k..]), origin)
    && s.records == AfterCheckpoint(d.records, cp, d.copies[..k])
  }

  lemma SaveOne(s: State, r: RunnerId, f: Fingerprint)
    requires r in s.runners && s.runners[r].phase.Saving? && f in s.runners[r].phase.todo && f in s.runners[r].copies
    requires Current(s, s.runners[r]) && s.runners[r].copies[f].fingerprint == f
    ensures
      var x, s' := s.runners[r], StepSaveItem(s, r, f);
      && r in s'.runners && Current(s', s'.runners[r]) && s'.executions == s.executions
      && s'.records == s.records[f := ToStore(x, f, x.phase.origin)] && s'.runners[r] == ItemSaved(x, f)
  {
  }

  lemma ContentsNext(items: seq<Item>, k: nat)
    requires DistinctFingerprints(items) && k < |items|
    ensures items[k].fingerprint in Contents(items[k..])
    ensures Contents(items[k..]) - {items[k].fingerprint} == Contents(items[k + 1..])
  {
    var rest, less := items[k..], items[k + 1..];
    assert rest[0] == items[k];
    forall f ensures f in Contents(rest) && f != items[k].fingerprint <==> f in Contents(less) {
      if f in Contents(less) {
        var i :| 0 <= i < |less| && less[i].fingerprint == f;
        assert rest[i + 1] == less[i] == items[k + 1 + i];
      }
      if f in Contents(rest) && f != items[k].fingerprint {
        var i :| 0 <= i < |rest| && rest[i].fingerprint == f;
        assert less[i - 1] == rest[i];
      }
    }
  }

  lemma CopiesApart(d: P.Desk, w: L.Setting, handed: seq<Item>)
    requires L.DeskFits(d, w, handed)
    ensures DistinctFingerprints(d.copies)
  {
    forall i, j | 0 <= i < j < |d.copies| ensures d.copies[i].fingerprint != d.copies[j].fingerprint {
      L.CopiesDistinct(d, w, handed, i, j);
    }
  }

  lemma SavedNext(
    l: Loop, d: P.Desk, w: L.Setting, known: seq<Item>, handed: seq<Item>, s: State, r: RunnerId, cp: Checkpoint,
    origin: Option<Fingerprint>, k: nat)
    requires L.Linked(l, d, w, known, handed) && L.ListsLoop(cp, l) && SameOrigin(cp, origin, l) && k < |d.copies|
    requires Saved(l, d, s, r, w.retryBlocked, cp, origin, k)
    ensures
      var s' := StepSaveItem(s, r, d.copies[k].fingerprint);
      Saved(l, d, s', r, w.retryBlocked, cp, origin, k + 1) && s'.executions == s.executions
  {
    var c := d.copies[k];
    hide L.LoopFits, L.DeskFits, L.ListsLoop, SameOrigin, AfterCheckpoint, ToPersist, ToStore, StepSaveItem;
    CopiesApart(d, w, handed);
    ContentsNext(d.copies, k);
    StoresSame(l, d, w, known, handed, s, r, c, cp, origin);
    SaveOne(s, r, c.fingerprint);
    StoredNext(d.records, cp, d.copies, k);
  }

  lemma StoredNext(m: Records, cp: Checkpoint, copies: seq<Item>, k: nat)
    requires k < |copies|
    ensures AfterCheckpoint(m, cp, copies[..k + 1])
      == AfterCheckpoint(m, cp, copies[..k])[copies[k].fingerprint := ToPersist(copies[k], cp)]
  {
    assert copies[..k + 1][..k] == copies[..k];
  }

  lemma SaveMoves(s: State, r: RunnerId, f: Fingerprint, cp: Checkpoint, n: nat)
    requires r in s.runners
    ensures StepMove(s, r, SaveItem(f), n) == StepSaveItem(s, r, f)
    ensures StepMove(s, r, ReadHistory, n) == StepReadHistory(s, r)
    ensures StepMove(s, r, SaveControl(cp), n) == StepSaveControl(s, r, cp, n)
  {
    hide StepSaveItem, StepReadHistory, StepSaveControl, NoAttempt, Orderly;
  }

  lemma {:induction false} SaveAll(
    s0: State, actions: seq<Action>, s: State, r: RunnerId, l: Loop, d: P.Desk, w: L.Setting, known: seq<Item>,
    handed: seq<Item>, cp: Checkpoint, origin: Option<Fingerprint>, k: nat, n: nat)
    returns (actions': seq<Action>, s': State)
    requires Leads(s0, actions, r, w.retryBlocked, s, n) && k <= |d.copies|
    requires L.Linked(l, d, w, known, handed) && L.ListsLoop(cp, l) && SameOrigin(cp, origin, l)
    requires Saved(l, d, s, r, w.retryBlocked, cp, origin, k)
    ensures Leads(s0, actions', r, w.retryBlocked, s', n) && s'.executions == s.executions
    ensures Saved(l, d, s', r, w.retryBlocked, cp, origin, |d.copies|)
    decreases |d.copies| - k
  {
    actions', s' := actions, s;
    if k < |d.copies| {
      assert r in s.runners;
      hide Saved, StepMove, StepSaveItem, Leads, L.Linked, L.ListsLoop, SameOrigin;
      SavedNext(l, d, w, known, handed, s, r, cp, origin, k);
      SaveMoves(s, r, d.copies[k].fingerprint, cp, n);
      actions', s' := Goes(s0, actions, s, r, SaveItem(d.copies[k].fingerprint), w.retryBlocked, n);
      actions', s' := SaveAll(s0, actions', s', r, l, d, w, known, handed, cp, origin, k + 1, n);
    }
  }

  /** With all items stored, the control row completes the checkpoint, and the last one the run. */
  lemma ControlStored(
    l: Loop, d: P.Desk, s: State, r: RunnerId, retryBlocked: bool, cp: Checkpoint, origin: Option<Fingerprint>, n: nat)
    requires Saved(l, d, s, r, retryBlocked, cp, origin, |d.copies|)
    ensures
      var s' := StepSaveControl(StepReadHistory(s, r), r, cp, n);
      && s'.executions == s.executions && s'.records == L.Stored(d, cp).records && r in s'.runners
      && (origin.Some? ==> Mirrors(l, L.Stored(d, cp), s', r, retryBlocked) && s'.runners[r].phase == Looping)
      && (origin.None? ==> s'.runners[r].phase == Finished)
  {
    hide LastN;
    assert d.copies[|d.copies|..] == [] && d.copies[..|d.copies|] == d.copies;
    assert s.runners[r].phase.todo == {};
    var s1 := StepReadHistory(s, r);
    assert s1.runners[r].phase == Recording(s.control.value.checkpoints, origin);
  }

  /** A checkpoint of the pipeline is a sequence of moves. */
  lemma CheckpointSimulated(
    s0: State, actions: seq<Action>, s: State, r: RunnerId, l: Loop, d: P.Desk, w: L.Setting, known: seq<Item>,
    handed: seq<Item>, cp: Checkpoint, origin: Option<Fingerprint>, n: nat)
    returns (actions': seq<Action>, s': State)
    requires Leads(s0, actions, r, w.retryBlocked, s, n)
    requires L.Linked(l, d, w, known, handed) && L.ListsLoop(cp, l) && SameOrigin(cp, origin, l)
    requires Mirrors(l, d, s, r, w.retryBlocked) && s.runners[r].phase == Saving(ByFingerprint(d.copies).Keys, origin)
    ensures Leads(s0, actions', r, w.retryBlocked, s', n) && s'.executions == s.executions
    ensures s'.records == L.Stored(d, cp).records && r in s'.runners
    ensures origin.Some? ==> Mirrors(l, L.Stored(d, cp), s', r, w.retryBlocked) && s'.runners[r].phase == Looping
    ensures origin.None? ==> s'.runners[r].phase == Finished
  {
    SavesNothingYet(l, d, w, handed, s, r, cp, origin);
    actions', s' := SaveAll(s0, actions, s, r, l, d, w, known, handed, cp, origin, 0, n);
    ControlStored(l, d, s', r, w.retryBlocked, cp, origin, n);
    assert r in s'.runners;
    hide Saved, Mirrors, StepMove, StepReadHistory, StepSaveControl, Leads, L.Linked, L.ListsLoop, L.Stored;
    SaveMoves(s', r, "", cp, n);
    actions', s' := Goes(s0, actions', s', r, ReadHistory, w.retryBlocked, n);
    SaveMoves(s', r, "", cp, n);
    actions', s' := Goes(s0, actions', s', r, SaveControl(cp), w.retryBlocked, n);
  }

  lemma SavesNothingYet(
    l: Loop, d: P.Desk, w: L.Setting, handed: seq<Item>, s: State, r: RunnerId, cp: Checkpoint, origin: Option<Fingerprint>)
    requires L.DeskFits(d, w, handed) && Mirrors(l, d, s, r, w.retryBlocked)
    requires s.runners[r].phase == Saving(ByFingerprint(d.copies).Keys, origin)
    ensures Saved(l, d, s, r, w.retryBlocked, cp, origin, 0)
  {
    assert d.copies[0..] == d.copies && d.copies[..0] == [];
    CopiesApart(d, w, handed);
    forall f ensures f in ByFingerprint(d.copies) <==> f in Contents(d.copies) {
      ByFingerprintAt(d.copies, f);
    }
  }

  // ----- one iteration

  /** Execution k since es0 is the attempt of record k. */
  predicate TellsAt(
    es0: seq<Execution>, es: seq<Execution>, r: RunnerId, records: seq<IterationRecord>, owner: L.Owners, k: nat)
    requires k < |records| && |es| == |es0| + |records|
  {
    && es[|es0| + k].runner == r && records[k].itemId in owner
    && es[|es0| + k].fingerprint == owner[records[k].itemId]
  }

  /** The machine's executions since es0 are the attempts of the records, in order. */
  ghost predicate Tells(es0: seq<Execution>, es: seq<Execution>, r: RunnerId, records: seq<IterationRecord>, owner: L.Owners) {
    && |es| == |es0| + |records| && es0 <= es
    && forall k :: 0 <= k < |records| ==> TellsAt(es0, es, r, records, owner, k)
  }

  lemma TellsNext(
    es0: seq<Execution>, es: seq<Execution>, es': seq<Execution>, r: RunnerId, records: seq<IterationRecord>,
    record: IterationRecord, owner: L.Owners)
    requires Tells(es0, es, r, records, owner) && es <= es' && |es'| == |es| + 1 && es'[|es|].runner == r
    requires record.itemId in owner && es'[|es|].fingerprint == owner[record.itemId]
    ensures Tells(es0, es', r, records + [record], owner)
  {
    var all := records + [record];
    forall k | 0 <= k < |all| ensures TellsAt(es0, es', r, all, owner, k) {
      if k < |records| { assert TellsAt(es0, es, r, records, owner, k); }
    }
  }

  /** The pipeline passes no rollback to its loop, so none fails. */
  predicate NoRollback(outcome: Outcome) {
    outcome.Validated? ==> outcome.rollbackError.None?
  }

  lemma AttemptMoves(s: State, r: RunnerId, f: Fingerprint, outcome: Outcome, policy: Policy, keep: nat)
    requires r in s.runners
    ensures StepMove(s, r, Move.Attempt(f), keep) == StepAttempt(s, r, f)
    ensures StepMove(s, r, Settle(outcome, policy), keep) == StepSettle(s, r, outcome, policy)
  {
    hide StepAttempt, StepSettle, NoAttempt, Orderly;
  }

  lemma Attempting(
    s0: State, actions: seq<Action>, s: State, r: RunnerId, f: Fingerprint, outcome: Outcome, policy: Policy,
    retryBlocked: bool, keep: nat)
    returns (actions': seq<Action>, s': State)
    requires Leads(s0, actions, r, retryBlocked, s, keep) && r in s.runners
    ensures s' == AttemptedBy(s, r, f, outcome, policy) && Leads(s0, actions', r, retryBlocked, s', keep)
  {
    hide StepMove, StepAttempt, StepSettle, Leads;
    AttemptMoves(s, r, f, outcome, policy, keep);
    actions', s' := Goes(s0, actions, s, r, Move.Attempt(f), retryBlocked, keep);
    AttemptMoves(s', r, f, outcome, policy, keep);
    actions', s' := Goes(s0, actions', s', r, Settle(outcome, policy), retryBlocked, keep);
  }

  lemma AttemptRecords(l: Loop, i: nat, iteration: nat, outcome: Outcome, policy: Policy)
    requires i < |l.items| && NoRollback(outcome)
    ensures
      var r, l' := AttemptTurn(l, i, iteration, outcome, policy), UpgradeLoop.Attempt(l, i, iteration, outcome, policy);
      && r.loop == l' && r.checkpoints == [Snapshot(l', iteration, LOOP_RUNNING, Some(l.items[i].itemId))]
      && |l'.records| == |l.records| + 1 && l'.records == l.records + [l'.records[|l.records|]]
      && l'.records[|l.records|].itemId == l.items[i].itemId
  {
    hide LastError, HaltAfter, PendingIds, Uniq;
  }

  /** The attempt of an iteration, without its checkpoint. */
  lemma TurnAttempted(
    s0: State, actions: seq<Action>, s: State, r: RunnerId, l: Loop, d: P.Desk, w: L.Setting, handed: seq<Item>, i: nat,
    iteration: nat, outcome: Outcome, policy: Policy, keep: nat, es0: seq<Execution>)
    returns (actions': seq<Action>, s': State)
    requires Leads(s0, actions, r, w.retryBlocked, s, keep) && L.Fits(l, d, w, handed) && NoRollback(outcome)
    requires i < |l.items| && l.items[i].state == PENDING
    requires Mirrors(l, d, s, r, w.retryBlocked) && s.runners[r].phase == Looping
    requires Tells(es0, s.executions, r, l.records, w.owner)
    ensures Leads(s0, actions', r, w.retryBlocked, s', keep)
    ensures
      var l' := UpgradeLoop.Attempt(l, i, iteration, outcome, policy);
      var d' := d.(copies := P.PutItem(d.copies, l'.items[i]));
      && Mirrors(l', d', s', r, w.retryBlocked) && Tells(es0, s'.executions, r, l'.records, w.owner)
      && s'.runners[r].phase == Saving(ByFingerprint(d'.copies).Keys, Some(l.items[i].fingerprint))
  {
    var f := l.items[i].fingerprint;
    var l' := UpgradeLoop.Attempt(l, i, iteration, outcome, policy);
    assert r in s.runners;
    assert L.LoopItemFits(l, d, w, handed, i) && L.Owned(w.owner, l.items[i]);
    AttemptSimulated(l, d, w, handed, s, r, i, iteration, outcome, policy);
    AttemptRecords(l, i, iteration, outcome, policy);
    SameKeys(l, d, w, handed, i, l'.items[i]);
    hide AttemptedBy, Mirrors, UpgradeLoop.Attempt, Leads, Tells, L.Fits;
    actions', s' := Attempting(s0, actions, s, r, f, outcome, policy, w.retryBlocked, keep);
    TellsNext(es0, s.executions, s'.executions, r, l.records, l'.records[|l.records|], w.owner);
  }

  lemma SameKeys(l: Loop, d: P.Desk, w: L.Setting, handed: seq<Item>, i: nat, x: Item)
    requires L.Fits(l, d, w, handed) && i < |l.items|
    requires x.itemId == l.items[i].itemId && x.fingerprint == l.items[i].fingerprint
    ensures ByFingerprint(P.PutItem(d.copies, x)).Keys == ByFingerprint(d.copies).Keys
  {
    assert L.LoopItemFits(l, d, w, handed, i);
    CopyAt(d, w, handed, x);
    PutByFingerprint(d.copies, IndexOf(d.copies, x.itemId), x);
    ByFingerprintAt(d.copies, x.fingerprint);
  }

  lemma Crashes(s0: State, actions: seq<Action>, s: State, r: RunnerId, retryBlocked: bool, keep: nat)
    returns (actions': seq<Action>, s': State)
    requires Leads(s0, actions, r, retryBlocked, s, keep) && r in s.runners && Alive(s.runners[r])
    ensures Leads(s0, actions', r, retryBlocked, s', keep) && s'.records == s.records && s'.executions == s.executions
    ensures r in s'.runners && s'.runners[r].phase == Phase.Failed
  {
    assert StepMove(s, r, Crash, keep) == StepCrash(s, r);
    hide Leads, StepMove;
    actions', s' := Goes(s0, actions, s, r, Crash, retryBlocked, keep);
  }

  lemma Stops(s0: State, actions: seq<Action>, s: State, r: RunnerId, retryBlocked: bool, keep: nat)
    returns (actions': seq<Action>, s': State)
    requires Leads(s0, actions, r, retryBlocked, s, keep) && r in s.runners && s.runners[r].phase == Looping
    ensures Leads(s0, actions', r, retryBlocked, s', keep)
    ensures s' == SetRunner(s, r, s.runners[r].(phase := Saving(s.runners[r].copies.Keys, None)))
  {
    assert StepMove(s, r, Move.Stop, keep) == StepStop(s, r);
    hide Leads, StepMove;
    actions', s' := Goes(s0, actions, s, r, Move.Stop, retryBlocked, keep);
  }

  lemma LastCheckpoint(
    s0: State, actions: seq<Action>, s: State, r: RunnerId, l: Loop, d: P.Desk, w: L.Setting, known: seq<Item>,
    handed: seq<Item>, cp: Checkpoint, keep: nat)
    returns (actions': seq<Action>, s': State)
    requires Leads(s0, actions, r, w.retryBlocked, s, keep) && L.Linked(l, d, w, known, handed)
    requires Mirrors(l, d, s, r, w.retryBlocked) && s.runners[r].phase == Looping && L.ListsLoop(cp, l) && cp.active.None?
    ensures Leads(s0, actions', r, w.retryBlocked, s', keep) && s'.executions == s.executions && r in s'.runners
    ensures s'.records == L.Stored(d, cp).records && s'.runners[r].phase == Finished
  {
    assert r in s.runners && SameOrigin(cp, None, l);
    MirrorsStopped(l, d, s, r, w.retryBlocked);
    hide Mirrors, L.Linked, L.ListsLoop, Leads, L.Stored, SetRunner, SameOrigin;
    actions', s' := Stops(s0, actions, s, r, w.retryBlocked, keep);
    actions', s' := CheckpointSimulated(s0, actions', s', r, l, d, w, known, handed, cp, None, keep);
  }

  /** The end of a run: its last checkpoint, or a crash when that cannot be stored. */
  lemma FinishSimulated(
    s0: State, actions: seq<Action>, s: State, r: RunnerId, l: Loop, d: P.Desk, w: L.Setting, known: seq<Item>,
    handed: seq<Item>, iterations: nat, state: LoopState, reason: string, lastSaving: Access, keep: nat)
    returns (actions': seq<Action>, s': State)
    requires Leads(s0, actions, r, w.retryBlocked, s, keep) && L.Linked(l, d, w, known, handed)
    requires Mirrors(l, d, s, r, w.retryBlocked) && s.runners[r].phase == Looping
    ensures Leads(s0, actions', r, w.retryBlocked, s', keep) && s'.executions == s.executions && r in s'.runners
    ensures
      var e := P.Finish(l, d, iterations, state, reason, lastSaving);
      && s'.records == e.desk.records && e.loop == l
      && s'.runners[r].phase == if e.Ended? then Finished else Phase.Failed
  {
    hide P.Finish, P.Record, L.Linked, L.ListsLoop, L.Stored, Leads;
    FinishBreaks(l, d, iterations, state, reason, lastSaving);
    if lastSaving.Works? {
      FinishStores(l, d, iterations, state, reason);
      var e := P.Finish(l, d, iterations, state, reason, lastSaving);
      var cp := Snapshot(l, iterations, e.report.state, None);
      R.SnapshotLists(l, iterations, e.report.state);
      actions', s' := LastCheckpoint(s0, actions, s, r, l, d, w, known, handed, cp, keep);
    } else {
      actions', s' := Crashes(s0, actions, s, r, w.retryBlocked, keep);
    }
  }

  lemma MirrorsStopped(l: Loop, d: P.Desk, s: State, r: RunnerId, retryBlocked: bool)
    requires Mirrors(l, d, s, r, retryBlocked)
    ensures
      var s' := SetRunner(s, r, s.runners[r].(phase := Saving(s.runners[r].copies.Keys, None)));
      && Mirrors(l, d, s', r, retryBlocked) && s'.runners[r].phase == Saving(ByFingerprint(d.copies).Keys, None)
      && s'.executions == s.executions
  {
  }

  lemma FinishBreaks(l: Loop, d: P.Desk, iterations: nat, state: LoopState, reason: string, lastSaving: Access)
    ensures !lastSaving.Works? ==> P.Finish(l, d, iterations, state, reason, lastSaving) == P.Broken(l, iterations, d)
    ensures lastSaving.Works? ==> lastSaving == Works
  {
  }

  lemma FinishStores(l: Loop, d: P.Desk, iterations: nat, state: LoopState, reason: string)
    ensures
      var e := P.Finish(l, d, iterations, state, reason, Works);
      e.Ended? && e.loop == l && e.desk == L.Stored(d, Snapshot(l, iterations, e.report.state, None))
  {
    var e := P.Finish(l, d, iterations, state, reason, Works);
    R.RecordOne(d, Snapshot(l, iterations, e.report.state, None));
  }

  /** Where an iteration leaves the machine: broken off with the desk stored, or looping as loop and desk are then. */
  ghost predicate TurnDone(
    s: State, r: RunnerId, l: Loop, d: P.Desk, retryBlocked: bool, turn: P.SourceTurn, result: TurnResult)
    requires |l.items| == |l.accepted|
  {
    var kept := P.Keep(l, d, turn, retryBlocked, result);
    && r in s.runners
    && if P.Breaks(turn, result) then s.records == kept.records && s.runners[r].phase == Phase.Failed
       else Mirrors(result.loop, P.Record(kept, result.checkpoints), s, r, retryBlocked) && s.runners[r].phase == Looping
  }

  lemma FitsLinked(l: Loop, d: P.Desk, w: L.Setting, handed: seq<Item>)
    requires L.Fits(l, d, w, handed)
    ensures L.Linked(l, d, w, handed, handed)
  {
  }

  lemma OriginOf(l: Loop, i: nat, iteration: nat)
    requires i < |l.items|
    ensures SameOrigin(
      Snapshot(l, iteration, LOOP_RUNNING, Some(l.items[i].itemId)), Some(l.items[i].fingerprint), l)
  {
  }

  lemma AttemptCheckpointed(
    s0: State, actions: seq<Action>, s: State, r: RunnerId, l: Loop, d: P.Desk, w: L.Setting, handed: seq<Item>, i: nat,
    iteration: nat, keep: nat)
    returns (actions': seq<Action>, s': State)
    requires Leads(s0, actions, r, w.retryBlocked, s, keep) && L.Fits(l, d, w, handed) && i < |l.items|
    requires L.ListsLoop(Snapshot(l, iteration, LOOP_RUNNING, Some(l.items[i].itemId)), l)
    requires Mirrors(l, d, s, r, w.retryBlocked)
    requires s.runners[r].phase == Saving(ByFingerprint(d.copies).Keys, Some(l.items[i].fingerprint))
    ensures Leads(s0, actions', r, w.retryBlocked, s', keep) && s'.executions == s.executions && r in s'.runners
    ensures
      var cps := [Snapshot(l, iteration, LOOP_RUNNING, Some(l.items[i].itemId))];
      Mirrors(l, P.Record(d, cps), s', r, w.retryBlocked) && s'.runners[r].phase == Looping
  {
    hide *;
    var cp, origin := Snapshot(l, iteration, LOOP_RUNNING, Some(l.items[i].itemId)), Some(l.items[i].fingerprint);
    FitsLinked(l, d, w, handed);
    R.RecordOne(d, cp);
    OriginOf(l, i, iteration);
    actions', s' := CheckpointSimulated(s0, actions, s, r, l, d, w, handed, handed, cp, origin, keep);
  }

  lemma SavingIsAlive(l: Loop, d: P.Desk, s: State, r: RunnerId, retryBlocked: bool)
    requires Mirrors(l, d, s, r, retryBlocked)
    ensures r in s.runners && s.records == d.records && (s.runners[r].phase.Saving? ==> Alive(s.runners[r]))
  {
  }

  /** The checkpoint after an attempt, stored or not. */
  lemma AttemptStored(
    s0: State, actions: seq<Action>, s: State, r: RunnerId, l: Loop, d: P.Desk, w: L.Setting, handed: seq<Item>, i: nat,
    iteration: nat, saving: Access, keep: nat)
    returns (actions': seq<Action>, s': State)
    requires Leads(s0, actions, r, w.retryBlocked, s, keep) && L.Fits(l, d, w, handed) && i < |l.items|
    requires L.ListsLoop(Snapshot(l, iteration, LOOP_RUNNING, Some(l.items[i].itemId)), l)
    requires Mirrors(l, d, s, r, w.retryBlocked)
    requires s.runners[r].phase == Saving(ByFingerprint(d.copies).Keys, Some(l.items[i].fingerprint))
    ensures Leads(s0, actions', r, w.retryBlocked, s', keep) && s'.executions == s.executions && r in s'.runners
    ensures
      var cps := [Snapshot(l, iteration, LOOP_RUNNING, Some(l.items[i].itemId))];
      if saving.Works? then Mirrors(l, P.Record(d, cps), s', r, w.retryBlocked) && s'.runners[r].phase == Looping
      else s'.records == d.records && s'.runners[r].phase == Phase.Failed
  {
    hide *;
    SavingIsAlive(l, d, s, r, w.retryBlocked);
    if saving.Works? {
      actions', s' := AttemptCheckpointed(s0, actions, s, r, l, d, w, handed, i, iteration, keep);
    } else {
      actions', s' := Crashes(s0, actions, s, r, w.retryBlocked, keep);
    }
  }

  lemma AttemptTurnSimulated(
    s0: State, actions: seq<Action>, s: State, r: RunnerId, l: Loop, d: P.Desk, w: L.Setting, handed: seq<Item>, i: nat,
    iteration: nat, outcome: Outcome, saving: Access, policy: Policy, keep: nat, es0: seq<Execution>)
    returns (actions': seq<Action>, s': State)
    requires Leads(s0, actions, r, w.retryBlocked, s, keep) && L.Fits(l, d, w, handed) && NoRollback(outcome)
    requires i < |l.items| && l.items[i].state == PENDING
    requires Mirrors(l, d, s, r, w.retryBlocked) && s.runners[r].phase == Looping
    requires Tells(es0, s.executions, r, l.records, w.owner)
    ensures Leads(s0, actions', r, w.retryBlocked, s', keep) && r in s'.runners
    ensures
      var result := AttemptTurn(l, i, iteration, outcome, policy);
      var kept := d.(copies := P.PutItem(d.copies, result.loop.items[i]));
      && result.checkpoints != [] && Tells(es0, s'.executions, r, result.loop.records, w.owner)
      && if saving.Works? then
           Mirrors(result.loop, P.Record(kept, result.checkpoints), s', r, w.retryBlocked) && s'.runners[r].phase == Looping
         else s'.records == kept.records && s'.runners[r].phase == Phase.Failed
  {
    var l' := UpgradeLoop.Attempt(l, i, iteration, outcome, policy);
    var kept := d.(copies := P.PutItem(d.copies, l'.items[i]));
    L.AttemptFits(l, d, w, handed, i, iteration, outcome, policy);
    R.AttemptSnapshotLists(l, i, iteration, outcome, policy);
    AttemptRecords(l, i, iteration, outcome, policy);
    AttemptIs(l, i, iteration, outcome, policy);
    hide Mirrors, L.Fits, L.ListsLoop, Leads, Tells, UpgradeLoop.Attempt, AttemptTurn, Snapshot;
    actions', s' := TurnAttempted(s0, actions, s, r, l, d, w, handed, i, iteration, outcome, policy, keep, es0);
    actions', s' := AttemptStored(s0, actions', s', r, l', kept, w, handed, i, iteration, saving, keep);
  }

  /** An iteration of the pipeline is a sequence of moves. */
  lemma TurnSimulated(
    s0: State, actions: seq<Action>, s: State, r: RunnerId, l: Loop, d: P.Desk, w: L.Setting, handed: seq<Item>,
    policy: Policy, turn: P.SourceTurn, iteration: nat, keep: nat, es0: seq<Execution>)
    returns (actions': seq<Action>, s': State)
    requires Leads(s0, actions, r, w.retryBlocked, s, keep) && L.Fits(l, d, w, handed)
    requires L.Candidates(w.owner, turn.candidates) && NoRollback(turn.outcome)
    requires Mirrors(l, d, s, r, w.retryBlocked) && s.runners[r].phase == Looping
    requires Tells(es0, s.executions, r, l.records, w.owner)
    ensures Leads(s0, actions', r, w.retryBlocked, s', keep)
    ensures
      var result := OneTurn(l, policy, P.Seen(d, turn, w.retryBlocked), iteration);
      TurnDone(s', r, l, d, w.retryBlocked, turn, result) && Tells(es0, s'.executions, r, result.loop.records, w.owner)
  {
    R.TurnCases(l, d, policy, turn, iteration, w.retryBlocked);
    var adopt := P.Failure(d, turn, w.retryBlocked).None?;
    actions', s' := DiscoverSimulated(s0, actions, s, r, l, d, w, handed, turn.candidates, adopt, keep);
    var d1 := P.Discover(d, turn.candidates, w.retryBlocked);
    assert P.Record(d1, []) == d1;
    if adopt {
      var l1 := AcceptAll(l, P.RestoreAll(d.records, turn.candidates, w.retryBlocked));
      var next := NextPending(l1.items, |l1.items|);
      L.TakeInAll(l, d, turn.candidates, w, handed);
      hide Mirrors, L.Fits, Leads, Tells, AttemptTurn, OneTurn, P.Keep, P.Seen;
      if next.Some? {
        actions', s' := AttemptTurnSimulated(
          s0, actions', s', r, l1, d1, w, handed + turn.candidates, next.value, iteration, turn.outcome, turn.saving, policy,
          keep, es0);
      }
    }
  }

  // ----- a whole run

  predicate NeverRollsBack(turns: seq<P.SourceTurn>) {
    forall i :: 0 <= i < |turns| ==> NoRollback(turns[i].outcome)
  }

  /** The run is over in the machine as it is over in the pipeline. */
  ghost predicate RunDone(s: State, r: RunnerId, e: P.Ended, es0: seq<Execution>, owner: L.Owners) {
    && r in s.runners && s.records == e.desk.records && Tells(es0, s.executions, r, e.loop.records, owner)
    && s.runners[r].phase == if e.Ended? then Finished else Phase.Failed
  }

  lemma BrokenDone(
    s: State, r: RunnerId, l: Loop, d: P.Desk, w: L.Setting, turn: P.SourceTurn, result: TurnResult, e: P.Ended,
    es0: seq<Execution>, iteration: nat)
    requires |l.items| == |l.accepted| && TurnDone(s, r, l, d, w.retryBlocked, turn, result) && P.Breaks(turn, result)
    requires e == P.Broken(result.loop, iteration, P.Keep(l, d, turn, w.retryBlocked, result))
    requires Tells(es0, s.executions, r, result.loop.records, w.owner)
    ensures RunDone(s, r, e, es0, w.owner)
  {
  }

  lemma TurnGoesOn(
    s: State, r: RunnerId, l: Loop, d: P.Desk, retryBlocked: bool, turn: P.SourceTurn, result: TurnResult)
    requires |l.items| == |l.accepted| && TurnDone(s, r, l, d, retryBlocked, turn, result) && !P.Breaks(turn, result)
    ensures Mirrors(result.loop, P.Record(P.Keep(l, d, turn, retryBlocked, result), result.checkpoints), s, r, retryBlocked)
    ensures r in s.runners && s.runners[r].phase == Looping
  {
  }

  /** The iterations that are left, and the end. */
  lemma {:induction false} RunFromSimulated(
    s0: State, actions: seq<Action>, s: State, r: RunnerId, l: Loop, d: P.Desk, w: L.Setting, seeds: seq<Item>,
    policy: Policy, script: P.Script, n: nat, e: P.Ended, keep: nat, es0: seq<Execution>)
    returns (actions': seq<Action>, s': State)
    requires Leads(s0, actions, r, w.retryBlocked, s, keep)
    requires P.Enough(script, policy) && n <= policy.maxIterations
    requires R.TurnsOwned(w.owner, script.turns) && NeverRollsBack(script.turns)
    requires R.Standing(l, d, w, seeds, script.turns, n)
    requires e == P.RunFrom(l, d, policy, script, n + 1, w.retryBlocked)
    requires Mirrors(l, d, s, r, w.retryBlocked) && s.runners[r].phase == Looping
    requires Tells(es0, s.executions, r, l.records, w.owner)
    ensures Leads(s0, actions', r, w.retryBlocked, s', keep) && RunDone(s', r, e, es0, w.owner)
    decreases policy.maxIterations - n
  {
    hide *;
    if n == policy.maxIterations {
      actions', s' := RunOutSimulated(s0, actions, s, r, l, d, w, seeds, policy, script, n, e, keep, es0);
    } else {
      actions', s' := TurnThenRest(s0, actions, s, r, l, d, w, seeds, policy, script, n, e, keep, es0);
    }
  }

  lemma RunOutSimulated(
    s0: State, actions: seq<Action>, s: State, r: RunnerId, l: Loop, d: P.Desk, w: L.Setting, seeds: seq<Item>,
    policy: Policy, script: P.Script, n: nat, e: P.Ended, keep: nat, es0: seq<Execution>)
    returns (actions': seq<Action>, s': State)
    requires Leads(s0, actions, r, w.retryBlocked, s, keep) && P.Enough(script, policy) && n == policy.maxIterations
    requires R.Standing(l, d, w, seeds, script.turns, n)
    requires e == P.RunFrom(l, d, policy, script, n + 1, w.retryBlocked)
    requires Mirrors(l, d, s, r, w.retryBlocked) && s.runners[r].phase == Looping
    requires Tells(es0, s.executions, r, l.records, w.owner)
    ensures Leads(s0, actions', r, w.retryBlocked, s', keep) && RunDone(s', r, e, es0, w.owner)
  {
    hide *;
    StandingFits(l, d, w, seeds, script.turns, n);
    R.RunFromCases(l, d, policy, script, n + 1, w.retryBlocked, e);
    var handed := L.HandedBy(seeds, script.turns, n);
    FitsLinked(l, d, w, handed);
    actions', s' := FinishSimulated(
      s0, actions, s, r, l, d, w, handed, handed, n, LOOP_RUNNING, "", script.lastSaving, keep);
    FinishDone(s', r, l, e, es0, w.owner);
  }

  lemma StandingFits(l: Loop, d: P.Desk, w: L.Setting, seeds: seq<Item>, turns: seq<P.SourceTurn>, n: nat)
    requires R.Standing(l, d, w, seeds, turns, n)
    ensures n <= |turns| && L.Fits(l, d, w, L.HandedBy(seeds, turns, n)) && |l.items| == |l.accepted|
  {
  }

  lemma {:induction false} TurnThenRest(
    s0: State, actions: seq<Action>, s: State, r: RunnerId, l: Loop, d: P.Desk, w: L.Setting, seeds: seq<Item>,
    policy: Policy, script: P.Script, n: nat, e: P.Ended, keep: nat, es0: seq<Execution>)
    returns (actions': seq<Action>, s': State)
    requires Leads(s0, actions, r, w.retryBlocked, s, keep)
    requires P.Enough(script, policy) && n < policy.maxIterations
    requires R.TurnsOwned(w.owner, script.turns) && NeverRollsBack(script.turns)
    requires R.Standing(l, d, w, seeds, script.turns, n)
    requires e == P.RunFrom(l, d, policy, script, n + 1, w.retryBlocked)
    requires Mirrors(l, d, s, r, w.retryBlocked) && s.runners[r].phase == Looping
    requires Tells(es0, s.executions, r, l.records, w.owner)
    ensures Leads(s0, actions', r, w.retryBlocked, s', keep) && RunDone(s', r, e, es0, w.owner)
    decreases policy.maxIterations - n, 0
  {
    var turn := script.turns[n];
    StandingFits(l, d, w, seeds, script.turns, n);
    R.RunFromCases(l, d, policy, script, n + 1, w.retryBlocked, e);
    var handed := L.HandedBy(seeds, script.turns, n);
    var result := OneTurn(l, policy, P.Seen(d, turn, w.retryBlocked), n + 1);
    var kept := P.Keep(l, d, turn, w.retryBlocked, result);
    hide Mirrors, TurnDone, RunDone, L.Fits, L.Linked, R.Standing, Leads, Tells, P.RunFrom, P.Finish, P.Keep, P.Seen, OneTurn;
    actions', s' := TurnSimulated(s0, actions, s, r, l, d, w, handed, policy, turn, n + 1, keep, es0);
    if P.Breaks(turn, result) {
      BrokenDone(s', r, l, d, w, turn, result, e, es0, n + 1);
    } else {
      TurnGoesOn(s', r, l, d, w.retryBlocked, turn, result);
      var l1, d1 := result.loop, P.Record(kept, result.checkpoints);
      if result.Continue? {
        GoesOnStanding(l, d, w, seeds, policy, script, n);
        actions', s' := RunFromSimulated(s0, actions', s', r, l1, d1, w, seeds, policy, script, n + 1, e, keep, es0);
      } else {
        var known := StopsLinked(l, d, w, seeds, policy, script, n);
        actions', s' := FinishSimulated(
          s0, actions', s', r, l1, d1, w, known, L.HandedBy(seeds, script.turns, n + 1), n + 1, result.state, result.reason,
          script.lastSaving, keep);
        FinishDone(s', r, l1, e, es0, w.owner);
      }
    }
  }

  lemma FinishDone(s: State, r: RunnerId, l: Loop, e: P.Ended, es0: seq<Execution>, owner: L.Owners)
    requires r in s.runners && s.records == e.desk.records && e.loop == l && Tells(es0, s.executions, r, l.records, owner)
    requires s.runners[r].phase == if e.Ended? then Finished else Phase.Failed
    ensures RunDone(s, r, e, es0, owner)
  {
  }

  /** After an iteration that goes on, loop and desk stand as before. */
  lemma GoesOnStanding(
    l: Loop, d: P.Desk, w: L.Setting, seeds: seq<Item>, policy: Policy, script: P.Script, n: nat)
    requires P.Enough(script, policy) && n < policy.maxIterations && R.TurnsOwned(w.owner, script.turns)
    requires R.Standing(l, d, w, seeds, script.turns, n) && |l.items| == |l.accepted|
    ensures
      var turn := script.turns[n];
      var result := OneTurn(l, policy, P.Seen(d, turn, w.retryBlocked), n + 1);
      var kept := P.Keep(l, d, turn, w.retryBlocked, result);
      result.Continue? ==> R.Standing(result.loop, P.Record(kept, result.checkpoints), w, seeds, script.turns, n + 1)
  {
    if P.Failure(d, script.turns[n], w.retryBlocked).None? {
      hide R.Standing;
      R.TurnStands(l, d, w, seeds, script.turns, policy, n + 1);
    } else {
      R.TurnCases(l, d, policy, script.turns[n], n + 1, w.retryBlocked);
    }
  }

  lemma StopsInOrder(l: Loop, d: P.Desk, w: L.Setting, seeds: seq<Item>, policy: Policy, script: P.Script, n: nat)
    requires P.Enough(script, policy) && n < policy.maxIterations && R.TurnsOwned(w.owner, script.turns)
    requires R.Standing(l, d, w, seeds, script.turns, n) && |l.items| == |l.accepted|
    requires P.Failure(d, script.turns[n], w.retryBlocked).None?
    ensures
      var turn := script.turns[n];
      var result := OneTurn(l, policy, P.Seen(d, turn, w.retryBlocked), n + 1);
      var kept := P.Keep(l, d, turn, w.retryBlocked, result);
      L.Linked(result.loop, P.Record(kept, result.checkpoints), w, L.HandedBy(seeds, script.turns, n + 1), L.HandedBy(seeds, script.turns, n + 1))
  {
    hide R.Standing, L.Fits, L.Linked, OneTurn, P.Keep, P.Seen, P.Record;
    var turn := script.turns[n];
    var result := OneTurn(l, policy, P.Seen(d, turn, w.retryBlocked), n + 1);
    var d' := P.Record(P.Keep(l, d, turn, w.retryBlocked, result), result.checkpoints);
    R.TurnStands(l, d, w, seeds, script.turns, policy, n + 1);
    StandingFits(result.loop, d', w, seeds, script.turns, n + 1);
    FitsLinked(result.loop, d', w, L.HandedBy(seeds, script.turns, n + 1));
  }

  lemma StopsFailed(l: Loop, d: P.Desk, w: L.Setting, seeds: seq<Item>, policy: Policy, script: P.Script, n: nat)
    requires P.Enough(script, policy) && n < policy.maxIterations && R.TurnsOwned(w.owner, script.turns)
    requires R.Standing(l, d, w, seeds, script.turns, n) && |l.items| == |l.accepted|
    requires P.Failure(d, script.turns[n], w.retryBlocked).Some?
    ensures n < |script.turns|
    ensures
      var turn := script.turns[n];
      var result := OneTurn(l, policy, P.Seen(d, turn, w.retryBlocked), n + 1);
      var kept := P.Keep(l, d, turn, w.retryBlocked, result);
      L.Linked(result.loop, P.Record(kept, result.checkpoints), w, L.HandedBy(seeds, script.turns, n), L.HandedBy(seeds, script.turns, n + 1))
  {
    hide L.Fits, L.Linked, R.Standing, OneTurn, P.Keep, P.Seen;
    var turn := script.turns[n];
    var result := OneTurn(l, policy, P.Seen(d, turn, w.retryBlocked), n + 1);
    StandingFits(l, d, w, seeds, script.turns, n);
    R.FailedTurn(l, d, w, L.HandedBy(seeds, script.turns, n), policy, turn, n + 1);
    assert P.Record(P.Keep(l, d, turn, w.retryBlocked, result), []) == P.Keep(l, d, turn, w.retryBlocked, result);
  }

  /** After an iteration that stops the run, loop and desk are linked, whether its discovery failed or not. */
  lemma StopsLinked(
    l: Loop, d: P.Desk, w: L.Setting, seeds: seq<Item>, policy: Policy, script: P.Script, n: nat)
    returns (known: seq<Item>)
    requires P.Enough(script, policy) && n < policy.maxIterations && R.TurnsOwned(w.owner, script.turns)
    requires R.Standing(l, d, w, seeds, script.turns, n) && |l.items| == |l.accepted|
    ensures
      var turn := script.turns[n];
      var result := OneTurn(l, policy, P.Seen(d, turn, w.retryBlocked), n + 1);
      var kept := P.Keep(l, d, turn, w.retryBlocked, result);
      L.Linked(result.loop, P.Record(kept, result.checkpoints), w, known, L.HandedBy(seeds, script.turns, n + 1))
  {
    hide L.Linked, R.Standing, OneTurn, P.Keep, P.Seen, P.Record;
    if P.Failure(d, script.turns[n], w.retryBlocked).None? {
      StopsInOrder(l, d, w, seeds, policy, script, n);
      known := L.HandedBy(seeds, script.turns, n + 1);
    } else {
      StopsFailed(l, d, w, seeds, policy, script, n);
      known := L.HandedBy(seeds, script.turns, n);
    }
  }

  // ----- the beginning of a run

  /** The run has a token and remembers nothing. */
  predicate Begun(s: State, r: RunnerId, retryBlocked: bool, m: Records) {
    && r in s.runners && s.records == m && Current(s, s.runners[r])
    && s.runners[r] == Runner(Phase.Ready, Newest(s), retryBlocked, map[], map[], {}, {}, None, 0)
  }

  lemma LockTaken(s: State, r: RunnerId, retryBlocked: bool)
    requires s.lock == None && r !in s.runners
    ensures
      var s1 := StepLock(s, r, retryBlocked);
      var s2 := StepReadControl(s1, r);
      && r in s1.runners && r in s2.runners
      && (if s.control.Some? then Begun(s2, r, retryBlocked, s.records) && s2.executions == s.executions
          else Begun(StepInsertControl(s2, r), r, retryBlocked, s.records) && StepInsertControl(s2, r).executions == s.executions)
  {
  }

  lemma TokenMoves(s: State, r: RunnerId, f: Fingerprint, keep: nat)
    requires r in s.runners
    ensures StepMove(s, r, ReadControl, keep) == StepReadControl(s, r)
    ensures StepMove(s, r, InsertControl, keep) == StepInsertControl(s, r)
  {
    hide StepReadControl, StepInsertControl, NoAttempt, Orderly;
  }

  /** Lock and token, whether or not the control row exists. */
  lemma TokenTaken(s0: State, actions: seq<Action>, s: State, r: RunnerId, retryBlocked: bool, keep: nat)
    returns (actions': seq<Action>, s': State)
    requires Leads(s0, actions, r, retryBlocked, s, keep) && s.lock == None && r !in s.runners
    ensures Leads(s0, actions', r, retryBlocked, s', keep) && Begun(s', r, retryBlocked, s.records) && s'.executions == s.executions
  {
    LockTaken(s, r, retryBlocked);
    actions', s' := actions + [Action.Lock(r, retryBlocked)], StepLock(s, r, retryBlocked);
    assert actions'[..|actions|] == actions;
    hide Begun, StepMove, StepLock, StepReadControl, StepInsertControl, Leads;
    TokenMoves(s', r, "", keep);
    actions', s' := Goes(s0, actions', s', r, ReadControl, retryBlocked, keep);
    if s.control.None? {
      TokenMoves(s', r, "", keep);
      actions', s' := Goes(s0, actions', s', r, InsertControl, retryBlocked, keep);
    }
  }

  /** The records after the first items were written back. */
  function WrittenBack(m: Records, items: seq<Item>): Records {
    if items == [] then m
    else WrittenBack(m, items[..|items| - 1])[items[|items| - 1].fingerprint := items[|items| - 1]]
  }

  lemma {:induction false} WrittenBackAt(m: Records, items: seq<Item>, f: Fingerprint)
    requires DistinctFingerprints(items)
    ensures f in WrittenBack(m, items) <==> f in m || HasFingerprint(items, f)
    ensures f in m && !HasFingerprint(items, f) ==> WrittenBack(m, items)[f] == m[f]
    ensures forall i :: 0 <= i < |items| && items[i].fingerprint == f ==> f in WrittenBack(m, items) && WrittenBack(m, items)[f] == items[i]
  {
    if items != [] {
      WrittenBackAt(m, items[..|items| - 1], f);
      FingerprintAppended(items[..|items| - 1], items[|items| - 1], f);
      assert items == items[..|items| - 1] + [items[|items| - 1]];
    }
  }

  lemma WrittenBackAll(m: Records, resumed: seq<Item>, retryBlocked: bool)
    requires Keyed(m) && Lists(resumed, Resumable(m, retryBlocked))
    ensures DistinctFingerprints(resumed) && WrittenBack(m, resumed) == ResetAll(m, retryBlocked, false)
  {
    forall f
      ensures f in WrittenBack(m, resumed) <==> f in m
      ensures f in m && f in WrittenBack(m, resumed) ==> WrittenBack(m, resumed)[f] == Reset(m[f], retryBlocked, false)
    {
      WrittenBackAt(m, resumed, f);
      if f in m && Reopen(m[f], retryBlocked).Some? {
        assert Resumable(m, retryBlocked)[f] in resumed;
        var i :| 0 <= i < |resumed| && resumed[i] == Resumable(m, retryBlocked)[f];
        assert resumed[i].fingerprint == f;
      }
      if HasFingerprint(resumed, f) {
        var i :| 0 <= i < |resumed| && resumed[i].fingerprint == f;
        assert resumed[i] in resumed;
      }
    }
  }

  /** The run loading, with the first k resumable items written back. */
  predicate LoadedUpTo(s: State, r: RunnerId, retryBlocked: bool, m: Records, resumed: seq<Item>, k: nat)
    requires k <= |resumed|
  {
    && r in s.runners && Current(s, s.runners[r]) && s.runners[r].retryBlocked == retryBlocked
    && s.records == WrittenBack(m, resumed[..k])
    && s.runners[r].phase == Loading(Resumable(m, retryBlocked) - Contents(resumed[..k]))
    && s.runners[r].loop == s.runners[r].copies == ByFingerprint(resumed[..k])
    && s.runners[r].completed == s.runners[r].blocked == {}
  }

  lemma LoadStep(s: State, r: RunnerId, f: Fingerprint)
    requires r in s.runners && s.runners[r].phase.Loading? && f in s.runners[r].phase.queue && Current(s, s.runners[r])
    requires s.runners[r].phase.queue[f].fingerprint == f
    ensures
      var x, s' := s.runners[r], StepSaveLoaded(s, r, f);
      && r in s'.runners && Current(s', s'.runners[r]) && s'.executions == s.executions
      && s'.records == s.records[f := x.phase.queue[f]] && s'.runners[r] == ItemLoaded(x, f)
  {
  }

  lemma WrittenNext(m: Records, resumed: seq<Item>, k: nat)
    requires k < |resumed|
    ensures WrittenBack(m, resumed[..k + 1]) == WrittenBack(m, resumed[..k])[resumed[k].fingerprint := resumed[k]]
    ensures ByFingerprint(resumed[..k + 1]) == ByFingerprint(resumed[..k])[resumed[k].fingerprint := resumed[k]]
  {
    assert resumed[..k + 1][..k] == resumed[..k];
  }

  lemma LoadedNext(s: State, r: RunnerId, retryBlocked: bool, m: Records, resumed: seq<Item>, k: nat)
    requires Keyed(m) && Lists(resumed, Resumable(m, retryBlocked)) && k < |resumed|
    requires LoadedUpTo(s, r, retryBlocked, m, resumed, k)
    ensures
      var s' := StepSaveLoaded(s, r, resumed[k].fingerprint);
      LoadedUpTo(s', r, retryBlocked, m, resumed, k + 1) && s'.executions == s.executions
  {
    hide Reopen, WrittenBack, ByFingerprint, StepSaveLoaded, Current;
    var x, f := resumed[k], resumed[k].fingerprint;
    assert resumed[k] in resumed;
    assert DistinctFingerprints(resumed[..k]);
    ByFingerprintAt(resumed[..k], f);
    NotYet(resumed, k);
    LoadStep(s, r, f);
    WrittenNext(m, resumed, k);
    assert Resumable(m, retryBlocked) - Contents(resumed[..k]) - {f} == Resumable(m, retryBlocked) - Contents(resumed[..k + 1]);
  }

  lemma NotYet(items: seq<Item>, k: nat)
    requires DistinctFingerprints(items) && k < |items|
    ensures items[k].fingerprint !in Contents(items[..k]) && !HasFingerprint(items[..k], items[k].fingerprint)
    ensures Contents(items[..k + 1]) == Contents(items[..k]) + {items[k].fingerprint}
  {
    forall f ensures f in Contents(items[..k + 1]) <==> f in Contents(items[..k]) || f == items[k].fingerprint {
      if f == items[k].fingerprint { assert items[..k + 1][k] == items[k]; }
      if f in Contents(items[..k]) {
        var i :| 0 <= i < k && items[..k][i].fingerprint == f;
        assert items[..k + 1][i] == items[..k][i];
      }
      if f in Contents(items[..k + 1]) && f != items[k].fingerprint {
        var i :| 0 <= i < k + 1 && items[..k + 1][i].fingerprint == f;
        assert items[..k][i] == items[i];
      }
    }
  }

  lemma ListsNothingYet(s: State, r: RunnerId, w: L.Setting, resumed: seq<Item>)
    requires Begun(s, r, w.retryBlocked, w.start)
    ensures
      var s' := StepListTasks(s, r);
      LoadedUpTo(s', r, w.retryBlocked, w.start, resumed, 0) && s'.executions == s.executions
  {
    assert resumed[..0] == [];
    assert Resumable(w.start, w.retryBlocked) - Contents([]) == Resumable(w.start, w.retryBlocked);
  }

  lemma {:induction false} LoadAll(
    s0: State, actions: seq<Action>, s: State, r: RunnerId, retryBlocked: bool, m: Records, resumed: seq<Item>, k: nat,
    n: nat)
    returns (actions': seq<Action>, s': State)
    requires Leads(s0, actions, r, retryBlocked, s, n) && k <= |resumed|
    requires Keyed(m) && Lists(resumed, Resumable(m, retryBlocked)) && LoadedUpTo(s, r, retryBlocked, m, resumed, k)
    ensures Leads(s0, actions', r, retryBlocked, s', n) && s'.executions == s.executions
    ensures LoadedUpTo(s', r, retryBlocked, m, resumed, |resumed|)
    decreases |resumed| - k
  {
    actions', s' := actions, s;
    if k < |resumed| {
      assert r in s.runners;
      hide LoadedUpTo, StepMove, StepSaveLoaded, Leads, Keyed, Lists, Resumable;
      LoadedNext(s, r, retryBlocked, m, resumed, k);
      LoadMoves(s, r, resumed[k].fingerprint, n);
      actions', s' := Goes(s0, actions, s, r, SaveLoaded(resumed[k].fingerprint), retryBlocked, n);
      actions', s' := LoadAll(s0, actions', s', r, retryBlocked, m, resumed, k + 1, n);
    }
  }

  lemma ResumedApart(w: L.Setting, resumed: seq<Item>)
    requires R.ResumedFrom(resumed, w)
    ensures DistinctIds(resumed) && DistinctFingerprints(resumed)
    ensures Keyed(w.start) && Keyed(Resumable(w.start, w.retryBlocked))
  {
    forall i, j | 0 <= i < j < |resumed| ensures resumed[i].itemId != resumed[j].itemId {
      R.LoadedCopy(w, resumed, false, resumed[i]);
      R.LoadedCopy(w, resumed, false, resumed[j]);
    }
  }

  lemma NewTakenIn(l: Loop, items: seq<Item>, x: Item)
    requires |l.items| == |l.accepted| && l.items == items && !HasId(items, x.itemId) && x.fingerprint !in l.fingerprints
    ensures P.PutItem(items, x) == items + [x] && Accept(l, x).items == items + [x]
    ensures Accept(l, x).fingerprints == l.fingerprints + {x.fingerprint}
  {
    assert IndexOf(items, x.itemId) == |items|;
  }

  lemma LastIsNew(items: seq<Item>)
    requires items != [] && DistinctIds(items) && DistinctFingerprints(items)
    ensures
      var front, last := items[..|items| - 1], items[|items| - 1];
      && DistinctIds(front) && DistinctFingerprints(front) && items == front + [last]
      && !HasFingerprint(front, last.fingerprint) && !HasId(front, last.itemId)
  {
  }

  /** Items with ids and contents of their own are taken in one after the other. */
  lemma {:induction false} TakenInPlainly(items: seq<Item>)
    requires DistinctIds(items) && DistinctFingerprints(items)
    ensures P.PutAll([], items) == items && AcceptAll(EMPTY_LOOP, items).items == items
    ensures forall f :: f in AcceptAll(EMPTY_LOOP, items).fingerprints <==> HasFingerprint(items, f)
  {
    hide P.PutItem, Accept, DistinctIds, DistinctFingerprints, HasId;
    if items != [] {
      var front, last := items[..|items| - 1], items[|items| - 1];
      LastIsNew(items);
      TakenInPlainly(front);
      NewTakenIn(AcceptAll(EMPTY_LOOP, front), front, last);
      forall f ensures HasFingerprint(items, f) <==> HasFingerprint(front, f) || f == last.fingerprint {
        FingerprintAppended(front, last, f);
      }
    }
  }

  lemma AllResumed(m: Records, resumed: seq<Item>)
    requires Lists(resumed, m) && Keyed(m)
    ensures m - Contents(resumed) == map[]
  {
    forall f | f in m ensures f in Contents(resumed) {
      var i :| 0 <= i < |resumed| && resumed[i] == m[f];
    }
  }

  lemma LoadEnds(s: State, r: RunnerId)
    requires r in s.runners && s.runners[r].phase == Loading(map[]) && Current(s, s.runners[r])
    ensures
      var s' := StepLoadDone(s, r);
      && s' == SetRunner(s, r, s.runners[r].(phase := Looping)) && Current(s', s'.runners[r])
  {
  }

  /** With all resumable items written back the run stands as loop and desk do after loading. */
  lemma LoadedMirrors(s: State, r: RunnerId, w: L.Setting, resumed: seq<Item>)
    requires R.ResumedFrom(resumed, w) && LoadedUpTo(s, r, w.retryBlocked, w.start, resumed, |resumed|)
    ensures
      var s' := StepLoadDone(s, r);
      && Mirrors(AcceptAll(EMPTY_LOOP, resumed), R.Loaded(w, resumed, false), s', r, w.retryBlocked)
      && s'.runners[r].phase == Looping && s'.executions == s.executions
  {
    hide WrittenBack, AcceptAll, P.PutAll, ResetAll, Reopen, ByFingerprint, Current, Resumable, StepLoadDone, Lists, Contents;
    ResumedApart(w, resumed);
    TakenInPlainly(resumed);
    WrittenBackAll(w.start, resumed, w.retryBlocked);
    assert resumed[..|resumed|] == resumed;
    AllResumed(Resumable(w.start, w.retryBlocked), resumed);
    LoadEnds(s, r);
    assert Listed(resumed, []) == {};
  }

  /** Token and resumption. */
  lemma LoadSimulated(s0: State, actions: seq<Action>, s: State, r: RunnerId, w: L.Setting, resumed: seq<Item>, keep: nat)
    returns (actions': seq<Action>, s': State)
    requires Leads(s0, actions, r, w.retryBlocked, s, keep) && s.lock == None && r !in s.runners
    requires R.ResumedFrom(resumed, w) && s.records == w.start
    ensures Leads(s0, actions', r, w.retryBlocked, s', keep) && s'.executions == s.executions
    ensures Mirrors(AcceptAll(EMPTY_LOOP, resumed), R.Loaded(w, resumed, false), s', r, w.retryBlocked)
    ensures s'.runners[r].phase == Looping
  {
    ResumedApart(w, resumed);
    actions', s' := TokenTaken(s0, actions, s, r, w.retryBlocked, keep);
    assert r in s'.runners;
    ListsNothingYet(s', r, w, resumed);
    assert Lists(resumed, Resumable(w.start, w.retryBlocked));
    hide Begun, Mirrors, LoadedUpTo, StepMove, StepListTasks, StepLoadDone, Leads, Keyed, Lists, R.ResumedFrom, AcceptAll;
    LoadMoves(s', r, "", keep);
    actions', s' := Goes(s0, actions', s', r, ListTasks, w.retryBlocked, keep);
    actions', s' := LoadAll(s0, actions', s', r, w.retryBlocked, w.start, resumed, 0, keep);
    LoadedMirrors(s', r, w, resumed);
    LoadMoves(s', r, "", keep);
    actions', s' := Goes(s0, actions', s', r, LoadDone, w.retryBlocked, keep);
  }

  lemma SeededIs(w: L.Setting, resumed: seq<Item>, seeds: seq<Item>)
    ensures
      var loaded := ResetAll(w.start, w.retryBlocked, false);
      var l := AcceptAll(EMPTY_LOOP, resumed);
      && Given(l, R.Loaded(w, resumed, false), seeds, w.retryBlocked, true)
        == AcceptAll(EMPTY_LOOP, resumed + P.RestoreAll(loaded, seeds, w.retryBlocked))
      && P.Discover(R.Loaded(w, resumed, false), seeds, w.retryBlocked) == P.Seeded(loaded, resumed, seeds, w.retryBlocked)
  {
    var restored := P.RestoreAll(ResetAll(w.start, w.retryBlocked, false), seeds, w.retryBlocked);
    R.PutAllSplit([], resumed, restored);
    R.AcceptAllSplit(EMPTY_LOOP, resumed, restored);
  }

  /** Token, resumption and seeds. */
  lemma SeedingSimulated(
    s0: State, actions: seq<Action>, s: State, r: RunnerId, w: L.Setting, resumed: seq<Item>, seeds: seq<Item>, l: Loop,
    d: P.Desk, keep: nat)
    returns (actions': seq<Action>, s': State)
    requires Leads(s0, actions, r, w.retryBlocked, s, keep) && s.lock == None && r !in s.runners
    requires R.ResumedFrom(resumed, w) && s.records == w.start && L.Candidates(w.owner, seeds)
    requires d == P.Seeded(ResetAll(w.start, w.retryBlocked, false), resumed, seeds, w.retryBlocked)
    requires l == AcceptAll(
      EMPTY_LOOP, resumed + P.RestoreAll(ResetAll(w.start, w.retryBlocked, false), seeds, w.retryBlocked))
    ensures Leads(s0, actions', r, w.retryBlocked, s', keep) && s'.executions == s.executions
    ensures Mirrors(l, d, s', r, w.retryBlocked) && s'.runners[r].phase == Looping
  {
    actions', s' := LoadSimulated(s0, actions, s, r, w, resumed, keep);
    R.ResumedFits(w, resumed, false);
    SeededIs(w, resumed, seeds);
    hide Mirrors, L.Fits, Leads, R.ResumedFrom, R.Loaded, P.Seeded, AcceptAll, P.Discover, Given;
    actions', s' := DiscoverSimulated(
      s0, actions', s', r, AcceptAll(EMPTY_LOOP, resumed), R.Loaded(w, resumed, false), w, [], seeds, true, keep);
  }

  lemma NothingTold(es: seq<Execution>, r: RunnerId, l: Loop, items: seq<Item>, owner: L.Owners)
    requires l == AcceptAll(EMPTY_LOOP, items)
    ensures Tells(es, es, r, l.records, owner)
  {
  }

  /** What a run starts its iterations with, and how it ends. */
  ghost predicate Starts(
    w: L.Setting, resumed: seq<Item>, seeds: seq<Item>, policy: Policy, script: P.Script, l: Loop, d: P.Desk, n: nat,
    e: P.Ended)
    requires P.Enough(script, policy)
  {
    && n == 0 && |l.items| == |l.accepted|
    && d == P.Seeded(ResetAll(w.start, w.retryBlocked, false), resumed, seeds, w.retryBlocked)
    && l == AcceptAll(EMPTY_LOOP, resumed + P.RestoreAll(ResetAll(w.start, w.retryBlocked, false), seeds, w.retryBlocked))
    && R.Standing(l, d, w, seeds, script.turns, n)
    && e == P.RunFrom(l, d, policy, script, n + 1, w.retryBlocked)
  }

  lemma RunStarts(
    w: L.Setting, resumed: seq<Item>, seeds: seq<Item>, policy: Policy, script: P.Script, l: Loop, d: P.Desk, n: nat,
    e: P.Ended)
    requires P.Enough(script, policy) && R.ResumedFrom(resumed, w) && L.Candidates(w.owner, seeds) && n == 0
    requires d == P.Seeded(ResetAll(w.start, w.retryBlocked, false), resumed, seeds, w.retryBlocked)
    requires l == AcceptAll(
      EMPTY_LOOP, resumed + P.RestoreAll(ResetAll(w.start, w.retryBlocked, false), seeds, w.retryBlocked))
    requires e == R.RunOver(w, resumed, seeds, policy, script, false)
    ensures Starts(w, resumed, seeds, policy, script, l, d, n, e)
  {
    R.RunOverIs(w, resumed, seeds, policy, script, false, l, d);
    R.SeededStands(w, resumed, seeds, script.turns, false, l, d);
    hide R.RunOver, P.RunFrom, R.Standing, P.Seeded;
    assert |l.items| == |l.accepted|;
  }

  lemma StartedSimulated(
    s: State, r: RunnerId, w: L.Setting, resumed: seq<Item>, seeds: seq<Item>, policy: Policy, script: P.Script, keep: nat,
    l: Loop, d: P.Desk, n: nat, e: P.Ended)
    returns (actions: seq<Action>)
    requires P.Enough(script, policy) && R.ResumedFrom(resumed, w) && L.Candidates(w.owner, seeds)
    requires R.TurnsOwned(w.owner, script.turns) && NeverRollsBack(script.turns)
    requires s.lock == None && r !in s.runners && s.records == w.start
    requires Starts(w, resumed, seeds, policy, script, l, d, n, e)
    ensures OnlyBy(actions, r, w.retryBlocked) && RunDone(Interleave(s, actions, keep), r, e, s.executions, w.owner)
  {
    assert Leads(s, [], r, w.retryBlocked, s, keep);
    hide P.RunFrom, RunDone, Mirrors, R.Standing, Leads, Tells, P.Seeded, AcceptAll, NeverRollsBack, R.ResumedFrom;
    var s': State;
    actions, s' := SeedingSimulated(s, [], s, r, w, resumed, seeds, l, d, keep);
    NothingTold(
      s.executions, r, l, resumed + P.RestoreAll(ResetAll(w.start, w.retryBlocked, false), seeds, w.retryBlocked), w.owner);
    actions, s' := RunFromSimulated(s, actions, s', r, l, d, w, seeds, policy, script, n, e, keep, s.executions);
  }

  /**
   * A whole run of the pipeline over the fenced table, with every failure it may meet, is a sequence of moves
   * of one run of the machine: it leaves the same records, and executes what the records tell, in order.
   */
  lemma RunSimulated(
    s: State, r: RunnerId, w: L.Setting, resumed: seq<Item>, seeds: seq<Item>, policy: Policy, script: P.Script, keep: nat)
    returns (actions: seq<Action>)
    requires R.RunInputs(w, resumed, seeds, policy, script) && NeverRollsBack(script.turns)
    requires s.lock == None && r !in s.runners && s.records == w.start
    ensures OnlyBy(actions, r, w.retryBlocked)
    ensures RunDone(
      Interleave(s, actions, keep), r, R.RunOver(w, resumed, seeds, policy, script, false), s.executions, w.owner)
  {
    R.InputParts(w, resumed, seeds, policy, script);
    var loaded := ResetAll(w.start, w.retryBlocked, false);
    var l := AcceptAll(EMPTY_LOOP, resumed + P.RestoreAll(loaded, seeds, w.retryBlocked));
    var d, n := P.Seeded(loaded, resumed, seeds, w.retryBlocked), 0;
    var e := R.RunOver(w, resumed, seeds, policy, script, false);
    hide *;
    RunStarts(w, resumed, seeds, policy, script, l, d, n, e);
    actions := StartedSimulated(s, r, w, resumed, seeds, policy, script, keep, l, d, n, e);
  }
}
