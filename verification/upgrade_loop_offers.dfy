/** Which of the offered work a run keeps, when ids are shared and when they are not. */
module UpgradeLoopOffers {
  import opened Work
  import opened Offers
  import opened UpgradeLoop
  import opened UpgradeLoopLaws

  /** Everything offered to the loop up to an iteration: the seed, then discovery after discovery. */
  function OfferedBy(seed: seq<Item>, turns: seq<Turn>, n: nat): seq<Item>
    requires n <= |turns|
  {
    if n == 0 then seed else OfferedBy(seed, turns, n - 1) + turns[n - 1].discovery.items
  }

  predicate SameIdentity(a: Item, b: Item) {
    a.itemId == b.itemId && a.fingerprint == b.fingerprint
  }

  /** A later first offer has the id of first offer i. */
  ghost predicate Overtaken(firsts: seq<Item>, i: nat)
    requires i < |firsts|
  {
    exists j :: i < j < |firsts| && firsts[j].itemId == firsts[i].itemId
  }

  ghost predicate IsFirst(firsts: seq<Item>, x: Item) {
    exists i :: 0 <= i < |firsts| && SameIdentity(firsts[i], x)
  }

  /** The loop's dictionary against the first offers: an item is there exactly if its id was not taken later. */
  ghost predicate Follows(l: Loop, offered: seq<Item>) {
    var firsts := FirstOfEach(offered);
    && |l.items| == |l.accepted| && DistinctIds(l.items)
    && (forall f :: f in l.fingerprints <==> HasFingerprint(offered, f))
    && (forall i :: 0 <= i < |l.items| ==> IsFirst(firsts, l.items[i]))
    && (forall i :: 0 <= i < |firsts| ==> (HasFingerprint(l.items, firsts[i].fingerprint) <==> !Overtaken(firsts, i)))
    && (DistinctIds(firsts) ==> l.accepted == firsts)
  }

  lemma OvertakenAppend(firsts: seq<Item>, x: Item, i: nat)
    requires i < |firsts|
    ensures Overtaken(firsts + [x], i) <==> Overtaken(firsts, i) || firsts[i].itemId == x.itemId
  {
    var all := firsts + [x];
    assert all[|firsts|] == x;
    if Overtaken(firsts, i) {
      var j :| i < j < |firsts| && firsts[j].itemId == firsts[i].itemId;
      assert all[j] == firsts[j];
    }
    if Overtaken(all, i) && firsts[i].itemId != x.itemId {
      var j :| i < j < |all| && all[j].itemId == all[i].itemId;
      assert firsts[j].itemId == firsts[i].itemId;
    }
  }

  /** The dictionary after a new item: the item of the same id gives way. */
  lemma PutReplaces(items: seq<Item>, x: Item, f: Fingerprint)
    requires DistinctIds(items)
    ensures
      var items' := Put(items, IndexOf(items, x.itemId), x);
      && DistinctIds(items') && x in items'
      && (forall y :: y in items' ==> y == x || (y in items && y.itemId != x.itemId))
      && (forall y :: y in items && y.itemId != x.itemId ==> y in items')
  {
    var at, items' := IndexOf(items, x.itemId), Put(items, IndexOf(items, x.itemId), x);
    assert items'[at] == x;
    forall y | y in items' ensures y == x || (y in items && y.itemId != x.itemId) {
      var k :| 0 <= k < |items'| && items'[k] == y;
      if k != at { assert items[k] == y; }
    }
    forall y | y in items && y.itemId != x.itemId ensures y in items' {
      var k :| 0 <= k < |items| && items[k] == y;
      assert items'[k] == y;
    }
  }

  lemma HasItem(items: seq<Item>, f: Fingerprint)
    ensures HasFingerprint(items, f) <==> exists y :: y in items && y.fingerprint == f
  {
    if HasFingerprint(items, f) {
      var i :| 0 <= i < |items| && items[i].fingerprint == f;
      assert items[i] in items;
    }
  }

  /** A kept first offer keeps its id: contents and ids of first offers belong together. */
  lemma KeptUnderItsId(items: seq<Item>, firsts: seq<Item>, i: nat, y: Item)
    requires DistinctFingerprints(firsts) && i < |firsts| && y.fingerprint == firsts[i].fingerprint && IsFirst(firsts, y)
    ensures y.itemId == firsts[i].itemId
  {
    var k :| 0 <= k < |firsts| && SameIdentity(firsts[k], y);
  }

  /** First offer i after one more first offer was taken in. */
  lemma KeptAfter(items: seq<Item>, items': seq<Item>, firsts: seq<Item>, x: Item, i: nat)
    requires DistinctFingerprints(firsts + [x]) && DistinctIds(items) && i < |firsts|
    requires forall k :: 0 <= k < |items| ==> IsFirst(firsts, items[k])
    requires HasFingerprint(items, firsts[i].fingerprint) <==> !Overtaken(firsts, i)
    requires items' == Put(items, IndexOf(items, x.itemId), x)
    ensures HasFingerprint(items', firsts[i].fingerprint) <==> !Overtaken(firsts + [x], i)
  {
    var f := firsts[i].fingerprint;
    assert (firsts + [x])[i] == firsts[i] && (firsts + [x])[|firsts|] == x;
    assert DistinctFingerprints(firsts) by {
      forall j, k | 0 <= j < k < |firsts| ensures firsts[j].fingerprint != firsts[k].fingerprint {
        assert (firsts + [x])[j].fingerprint != (firsts + [x])[k].fingerprint;
      }
    }
    OvertakenAppend(firsts, x, i);
    PutReplaces(items, x, f);
    HasItem(items, f);
    HasItem(items', f);
    forall y | y in items && y.fingerprint == f ensures y.itemId == firsts[i].itemId {
      KeptUnderItsId(items, firsts, i, y);
    }
  }

  /** What one more offer adds to the first offers. */
  lemma FirstsAfter(offered: seq<Item>, x: Item)
    ensures
      var firsts := FirstOfEach(offered);
      && DistinctFingerprints(FirstOfEach(offered + [x]))
      && (HasFingerprint(firsts, x.fingerprint) <==> HasFingerprint(offered, x.fingerprint))
      && FirstOfEach(offered + [x]) == (if HasFingerprint(offered, x.fingerprint) then firsts else firsts + [x])
      && forall f :: HasFingerprint(offered + [x], f) <==> HasFingerprint(offered, f) || x.fingerprint == f
  {
    assert (offered + [x])[..|offered|] == offered;
    FirstOfEachHolds(offered);
    FirstOfEachHolds(offered + [x]);
    forall f ensures HasFingerprint(offered + [x], f) <==> HasFingerprint(offered, f) || x.fingerprint == f {
      FingerprintAppended(offered, x, f);
    }
  }

  /** The first offers that are kept after a new one was taken in. */
  lemma NewKept(l: Loop, firsts: seq<Item>, x: Item, i: nat)
    requires |l.items| == |l.accepted| && DistinctIds(l.items) && x.fingerprint !in l.fingerprints
    requires DistinctFingerprints(firsts + [x]) && i < |firsts| + 1
    requires forall k :: 0 <= k < |l.items| ==> IsFirst(firsts, l.items[k])
    requires forall k :: 0 <= k < |firsts| ==> (HasFingerprint(l.items, firsts[k].fingerprint) <==> !Overtaken(firsts, k))
    ensures HasFingerprint(Accept(l, x).items, (firsts + [x])[i].fingerprint) <==> !Overtaken(firsts + [x], i)
  {
    if i < |firsts| {
      KeptAfter(l.items, Accept(l, x).items, firsts, x, i);
    } else {
      PutReplaces(l.items, x, x.fingerprint);
      HasItem(Accept(l, x).items, x.fingerprint);
    }
  }

  lemma NewFollows(l: Loop, offered: seq<Item>, x: Item)
    requires Follows(l, offered) && x.fingerprint !in l.fingerprints
    ensures Follows(Accept(l, x), offered + [x])
  {
    hide FirstOfEach, Overtaken, IsFirst, HasFingerprint, DistinctFingerprints;
    var firsts := FirstOfEach(offered);
    FirstsAfter(offered, x);
    PutReplaces(l.items, x, x.fingerprint);
    TakenIsFirst(l, firsts, x);
    forall i | 0 <= i < |firsts| + 1
      ensures HasFingerprint(Accept(l, x).items, (firsts + [x])[i].fingerprint) <==> !Overtaken(firsts + [x], i)
    {
      NewKept(l, firsts, x, i);
    }
    if DistinctIds(firsts + [x]) { AcceptedInOrder(l, firsts, x); }
  }

  lemma AcceptFollows(l: Loop, offered: seq<Item>, x: Item)
    requires Follows(l, offered)
    ensures Follows(Accept(l, x), offered + [x])
  {
    if x.fingerprint in l.fingerprints {
      hide FirstOfEach, Overtaken, IsFirst, HasFingerprint, DistinctFingerprints, DistinctIds;
      FirstsAfter(offered, x);
    } else {
      NewFollows(l, offered, x);
    }
  }

  lemma TakenIsFirst(l: Loop, firsts: seq<Item>, x: Item)
    requires |l.items| == |l.accepted| && DistinctIds(l.items) && x.fingerprint !in l.fingerprints
    requires forall i :: 0 <= i < |l.items| ==> IsFirst(firsts, l.items[i])
    ensures forall i :: 0 <= i < |Accept(l, x).items| ==> IsFirst(firsts + [x], Accept(l, x).items[i])
  {
    var l' := Accept(l, x);
    PutReplaces(l.items, x, x.fingerprint);
    forall i | 0 <= i < |l'.items| ensures IsFirst(firsts + [x], l'.items[i]) {
      var y := l'.items[i];
      assert y in l'.items;
      if y == x {
        assert SameIdentity((firsts + [x])[|firsts|], y);
      } else {
        var j :| 0 <= j < |l.items| && l.items[j] == y;
        var k :| 0 <= k < |firsts| && SameIdentity(firsts[k], y);
        assert SameIdentity((firsts + [x])[k], y);
      }
    }
  }

  lemma AcceptedInOrder(l: Loop, firsts: seq<Item>, x: Item)
    requires |l.items| == |l.accepted| && x.fingerprint !in l.fingerprints
    requires forall i :: 0 <= i < |l.items| ==> IsFirst(firsts, l.items[i])
    requires DistinctIds(firsts) ==> l.accepted == firsts
    requires DistinctIds(firsts + [x])
    ensures Accept(l, x).accepted == firsts + [x]
  {
    forall i, j | 0 <= i < j < |firsts| ensures firsts[i].itemId != firsts[j].itemId {
      assert (firsts + [x])[i].itemId != (firsts + [x])[j].itemId;
    }
    forall i | 0 <= i < |l.items| ensures l.items[i].itemId != x.itemId {
      var k :| 0 <= k < |firsts| && SameIdentity(firsts[k], l.items[i]);
      assert (firsts + [x])[k].itemId != (firsts + [x])[|firsts|].itemId;
    }
  }

  lemma {:induction false} AcceptAllFollows(l: Loop, before: seq<Item>, offered: seq<Item>)
    requires Follows(l, before)
    ensures Follows(AcceptAll(l, offered), before + offered)
  {
    hide FirstOfEach, Overtaken, IsFirst, DistinctIds, HasFingerprint, Accept;
    if offered == [] {
      assert before + offered == before;
    } else {
      var front, last := offered[..|offered| - 1], offered[|offered| - 1];
      AcceptAllFollows(l, before, front);
      AcceptFollows(AcceptAll(l, front), before + front, last);
      assert before + offered == before + front + [last];
    }
  }

  lemma AttemptFollows(l: Loop, offered: seq<Item>, i: nat, iteration: nat, outcome: Outcome, policy: Policy)
    requires Follows(l, offered) && i < |l.items|
    ensures Follows(Attempt(l, i, iteration, outcome, policy), offered)
  {
    var l', firsts := Attempt(l, i, iteration, outcome, policy), FirstOfEach(offered);
    forall k | 0 <= k < |l'.items| ensures SameIdentity(l.items[k], l'.items[k]) && IsFirst(firsts, l'.items[k]) {
      var j :| 0 <= j < |firsts| && SameIdentity(firsts[j], l.items[k]);
      assert SameIdentity(firsts[j], l'.items[k]);
    }
    forall f ensures HasFingerprint(l'.items, f) <==> HasFingerprint(l.items, f) {
      SameFingerprints(l.items, l'.items, f);
    }
  }

  lemma SameFingerprints(items: seq<Item>, items': seq<Item>, f: Fingerprint)
    requires |items| == |items'| && forall k :: 0 <= k < |items| ==> SameIdentity(items[k], items'[k])
    ensures HasFingerprint(items', f) <==> HasFingerprint(items, f)
  {
  }

  lemma OneTurnFollows(l: Loop, offered: seq<Item>, policy: Policy, turn: Turn, iteration: nat)
    requires Follows(l, offered)
    ensures Follows(OneTurn(l, policy, turn, iteration).loop, offered + turn.discovery.items)
  {
    hide FirstOfEach, Overtaken, IsFirst, HasFingerprint, DistinctIds, AcceptAll, Attempt, Judge, LastError, Snapshot;
    AcceptAllFollows(l, offered, turn.discovery.items);
    var l1 := AcceptAll(l, turn.discovery.items);
    var next := NextPending(l1.items, |l1.items|);
    if turn.discovery.error.None? && next.Some? {
      AttemptFollows(l1, offered + turn.discovery.items, next.value, iteration, turn.outcome, policy);
    }
  }

  /** The part of the turns a run got to see. */
  predicate Saw(f: Final, turns: seq<Turn>) {
    f.report.iterations <= |turns|
  }

  lemma {:induction false} RunFromFollows(
    l: Loop, seed: seq<Item>, policy: Policy, turns: seq<Turn>, iteration: nat, cps: seq<Checkpoint>)
    requires ValidPolicy(policy) && |turns| >= policy.maxIterations
    requires 1 <= iteration <= policy.maxIterations + 1
    requires |l.items| == |l.accepted| && Follows(l, OfferedBy(seed, turns, iteration - 1))
    ensures
      var f := RunFrom(l, policy, turns, iteration, cps);
      Saw(f, turns) && Follows(f.loop, OfferedBy(seed, turns, f.report.iterations))
    decreases policy.maxIterations + 1 - iteration
  {
    hide Follows, OneTurn;
    if iteration <= policy.maxIterations {
      RunFromNext(l, policy, turns, iteration, cps);
      OneTurnFollows(l, OfferedBy(seed, turns, iteration - 1), policy, turns[iteration - 1], iteration);
      var r := OneTurn(l, policy, turns[iteration - 1], iteration);
      if r.Continue? { RunFromFollows(r.loop, seed, policy, turns, iteration + 1, cps + r.checkpoints); }
    }
  }

  lemma RunFollows(seed: seq<Item>, policy: Policy, turns: seq<Turn>)
    requires ValidPolicy(policy) && |turns| >= policy.maxIterations
    ensures
      var f := Run(seed, policy, turns);
      Saw(f, turns) && Follows(f.loop, OfferedBy(seed, turns, f.report.iterations))
  {
    FirstOfEachHolds([]);
    assert Follows(EMPTY_LOOP, []);
    AcceptAllFollows(EMPTY_LOOP, [], seed);
    assert [] + seed == seed;
    RunFromFollows(AcceptAll(EMPTY_LOOP, seed), seed, policy, turns, 1, []);
  }

  /**
   * Offered content is still among the items of a run when it ends exactly if no other content was first
   * offered later under the same id; otherwise it is lost, whatever states and callbacks are.
   */
  lemma WorkKeptIffIdNotTaken(seed: seq<Item>, policy: Policy, turns: seq<Turn>, i: nat)
    requires ValidPolicy(policy) && |turns| >= policy.maxIterations
    ensures
      var f := Run(seed, policy, turns);
      && Saw(f, turns)
      && var firsts := FirstOfEach(OfferedBy(seed, turns, f.report.iterations));
      i < |firsts| ==>
        (HasFingerprint(f.loop.items, firsts[i].fingerprint) <==>
         forall j :: i < j < |firsts| ==> firsts[j].itemId != firsts[i].itemId)
  {
    RunFollows(seed, policy, turns);
    var f := Run(seed, policy, turns);
    var firsts := FirstOfEach(OfferedBy(seed, turns, f.report.iterations));
    if i < |firsts| { assert HasFingerprint(f.loop.items, firsts[i].fingerprint) <==> !Overtaken(firsts, i); }
  }

  /** A run keeps all work it was offered exactly if no two contents were first offered under one id. */
  lemma AllWorkKeptIffIdsDistinct(seed: seq<Item>, policy: Policy, turns: seq<Turn>)
    requires ValidPolicy(policy) && |turns| >= policy.maxIterations
    ensures
      var f := Run(seed, policy, turns);
      && Saw(f, turns)
      && var offered := OfferedBy(seed, turns, f.report.iterations);
      && ((forall g :: HasFingerprint(offered, g) ==> HasFingerprint(f.loop.items, g)) <==>
          DistinctIds(FirstOfEach(offered)))
      && (DistinctIds(FirstOfEach(offered)) ==> f.loop.accepted == FirstOfEach(offered))
  {
    RunFollows(seed, policy, turns);
    var f := Run(seed, policy, turns);
    var offered := OfferedBy(seed, turns, f.report.iterations);
    var firsts := FirstOfEach(offered);
    FirstOfEachHolds(offered);
    if DistinctIds(firsts) {
      forall g | HasFingerprint(offered, g) ensures HasFingerprint(f.loop.items, g) {
        var i :| 0 <= i < |firsts| && firsts[i].fingerprint == g;
        assert HasFingerprint(f.loop.items, firsts[i].fingerprint) <==> !Overtaken(firsts, i);
      }
    } else {
      var i, j :| 0 <= i < j < |firsts| && firsts[i].itemId == firsts[j].itemId;
      assert Overtaken(firsts, i) && HasFingerprint(firsts, firsts[i].fingerprint);
    }
  }

  /**
   * All offered work has succeeded, and no discovery failed, exactly if the run reports COMPLETED and
   * each content was first offered as PENDING or SUCCEEDED.
   */
  lemma CompletedIffOfferedPlainly(seed: seq<Item>, policy: Policy, turns: seq<Turn>, u: set<Item>)
    requires ValidPolicy(policy) && |turns| >= policy.maxIterations
    requires IdsIdentify(u) && DrawnFrom(seed, turns, u)
    ensures
      var f := Run(seed, policy, turns);
      && Saw(f, turns)
      && (AllSucceeded(f.loop.items) && !DiscoveryFailed(f.report) <==>
          f.report.state == COMPLETED && AllPlain(FirstOfEach(OfferedBy(seed, turns, f.report.iterations))))
  {
    var f := Run(seed, policy, turns);
    AllWorkKeptIffIdsDistinct(seed, policy, turns);
    var offered := OfferedBy(seed, turns, f.report.iterations);
    OfferedFrom(seed, turns, u, f.report.iterations);
    FirstOfEachHolds(offered);
    assert DistinctIds(FirstOfEach(offered));
    CompletedIffAllSucceeded(seed, policy, turns, u);
  }

  lemma {:induction false} OfferedFrom(seed: seq<Item>, turns: seq<Turn>, u: set<Item>, n: nat)
    requires n <= |turns| && DrawnFrom(seed, turns, u)
    ensures AllFrom(OfferedBy(seed, turns, n), u)
  {
    if n > 0 {
      OfferedFrom(seed, turns, u, n - 1);
      assert turns[n - 1] in turns;
    }
  }

  /** Of two different contents seeded under one id the first is gone when the run ends, in any case. */
  lemma CollidingIdsLoseWork(policy: Policy, turns: seq<Turn>, a: Item, b: Item)
    requires ValidPolicy(policy) && |turns| >= policy.maxIterations
    requires a.itemId == b.itemId && a.fingerprint != b.fingerprint
    ensures !HasFingerprint(Run([a, b], policy, turns).loop.items, a.fingerprint)
  {
    var f := Run([a, b], policy, turns);
    WorkKeptIffIdNotTaken([a, b], policy, turns, 0);
    FirstTwoFirst(a, b, turns, f.report.iterations);
  }

  lemma FirstOfTwo(a: Item, b: Item)
    requires a.fingerprint != b.fingerprint
    ensures FirstOfEach([a, b]) == [a, b]
  {
    assert [a, b][..1] == [a] && [a][..0] == [];
    assert FirstOfEach([a]) == [a];
  }

  lemma {:induction false} FirstTwoFirst(a: Item, b: Item, turns: seq<Turn>, n: nat)
    requires n <= |turns| && a.fingerprint != b.fingerprint
    ensures [a, b] <= FirstOfEach(OfferedBy([a, b], turns, n))
  {
    hide FirstOfEach;
    if n == 0 {
      FirstOfTwo(a, b);
    } else {
      FirstTwoFirst(a, b, turns, n - 1);
      FirstOfEachGrows(OfferedBy([a, b], turns, n - 1), turns[n - 1].discovery.items);
    }
  }

  lemma {:induction false} FirstOfEachGrows(before: seq<Item>, more: seq<Item>)
    ensures FirstOfEach(before) <= FirstOfEach(before + more)
  {
    if more == [] {
      assert before + more == before;
    } else {
      var n := |more| - 1;
      FirstOfEachGrows(before, more[..n]);
      assert (before + more)[..|before + more| - 1] == before + more[..n];
    }
  }
}
