/** Sequences of offered work: what is offered first under each fingerprint. */
module Offers {
  import opened Work

  ghost predicate HasFingerprint(items: seq<Item>, f: Fingerprint) {
    exists i :: 0 <= i < |items| && items[i].fingerprint == f
  }

  ghost predicate DistinctFingerprints(items: seq<Item>) {
    forall i, j :: 0 <= i < j < |items| ==> items[i].fingerprint != items[j].fingerprint
  }

  /** The first item of each content, in order. */
  function FirstOfEach(items: seq<Item>): seq<Item> {
    if items == [] then []
    else
      var front, last := FirstOfEach(items[..|items| - 1]), items[|items| - 1];
      if exists i :: 0 <= i < |front| && front[i].fingerprint == last.fingerprint then front else front + [last]
  }

  lemma FingerprintAppended(items: seq<Item>, item: Item, f: Fingerprint)
    ensures HasFingerprint(items + [item], f) <==> HasFingerprint(items, f) || item.fingerprint == f
  {
    var all := items + [item];
    assert all[|items|] == item;
    if HasFingerprint(items, f) {
      var i :| 0 <= i < |items| && items[i].fingerprint == f;
      assert all[i] == items[i];
    }
    if HasFingerprint(all, f) && item.fingerprint != f {
      var i :| 0 <= i < |all| && all[i].fingerprint == f;
      assert items[i].fingerprint == f;
    }
  }

  /** They hold each content once, just the contents offered, and nothing but offered items. */
  lemma {:induction false} FirstOfEachHolds(items: seq<Item>)
    ensures DistinctFingerprints(FirstOfEach(items))
    ensures forall f :: HasFingerprint(FirstOfEach(items), f) <==> HasFingerprint(items, f)
    ensures forall x :: x in FirstOfEach(items) ==> x in items
  {
    if items != [] {
      var n := |items| - 1;
      var front, seed := FirstOfEach(items[..n]), FirstOfEach(items);
      FirstOfEachHolds(items[..n]);
      forall f ensures HasFingerprint(seed, f) <==> HasFingerprint(items, f) {
        FingerprintAppended(items[..n], items[n], f);
        FingerprintAppended(front, items[n], f);
        assert items == items[..n] + [items[n]];
      }
    }
  }

  /** The item at this place is the first of its content. */
  ghost predicate FirstAt(items: seq<Item>, i: nat) {
    i < |items| && forall j :: 0 <= j < i ==> items[j].fingerprint != items[i].fingerprint
  }

  /** The places of the items that are the first of their content, in order. */
  ghost predicate FirstPlaces(items: seq<Item>, places: seq<nat>) {
    && (forall a, b :: 0 <= a < b < |places| ==> places[a] < places[b])
    && (forall i: nat :: i in places <==> FirstAt(items, i))
  }

  lemma FirstPlacesNext(items: seq<Item>, x: Item, places: seq<nat>)
    requires FirstPlaces(items, places)
    ensures FirstPlaces(items + [x], if HasFingerprint(items, x.fingerprint) then places else places + [|items|])
  {
    var all, known := items + [x], HasFingerprint(items, x.fingerprint);
    assert forall j :: 0 <= j < |items| ==> all[j] == items[j];
    assert FirstAt(all, |items|) <==> !known;
    var places' := if known then places else places + [|items|];
    forall i: nat ensures i in places' <==> FirstAt(all, i) {
      assert i in places' <==> i in places || (!known && i == |items|);
      assert i < |items| ==> (FirstAt(all, i) <==> FirstAt(items, i));
      assert i >= |items| ==> !FirstAt(items, i);
    }
    forall a, b | 0 <= a < b < |places'| ensures places'[a] < places'[b] {
      assert places'[a] in places && FirstAt(items, places'[a]);
    }
  }

  lemma NoPlaces()
    ensures FirstPlaces([], []) && FirstOfEach([]) == []
  {
  }

  lemma FirstOfEachNext(items: seq<Item>, x: Item)
    ensures FirstOfEach(items + [x])
      == if HasFingerprint(items, x.fingerprint) then FirstOfEach(items) else FirstOfEach(items) + [x]
  {
    assert (items + [x])[..|items|] == items;
    FirstOfEachHolds(items);
    assert HasFingerprint(FirstOfEach(items), x.fingerprint) <==> HasFingerprint(items, x.fingerprint);
  }

  /** They are the items at those places, in their order. */
  lemma {:induction false} FirstOfEachInOrder(items: seq<Item>) returns (places: seq<nat>)
    ensures FirstPlaces(items, places) && |FirstOfEach(items)| == |places|
    ensures forall k :: 0 <= k < |places| ==> places[k] < |items| && FirstOfEach(items)[k] == items[places[k]]
  {
    hide FirstPlaces, FirstOfEach, HasFingerprint;
    NoPlaces();
    places := [];
    if items != [] {
      var n, x := |items| - 1, items[|items| - 1];
      var front := FirstOfEachInOrder(items[..n]);
      assert items == items[..n] + [x];
      FirstOfEachNext(items[..n], x);
      FirstPlacesNext(items[..n], x, front);
      places := front;
      if !HasFingerprint(items[..n], x.fingerprint) {
        places := front + [n];
        assert forall k :: 0 <= k < |front| ==> places[k] == front[k];
      }
      assert forall k :: 0 <= k < n ==> items[..n][k] == items[k];
    }
  }

  // ----- dictionaries by fingerprint

  /** The items by fingerprint; of several with one fingerprint, the last. */
  function ByFingerprint(items: seq<Item>): map<Fingerprint, Item> {
    if items == [] then map[]
    else ByFingerprint(items[..|items| - 1])[items[|items| - 1].fingerprint := items[|items| - 1]]
  }

  lemma {:induction false} ByFingerprintAt(items: seq<Item>, f: Fingerprint)
    requires DistinctFingerprints(items)
    ensures f in ByFingerprint(items) <==> HasFingerprint(items, f)
    ensures forall i :: 0 <= i < |items| && items[i].fingerprint == f ==>
      f in ByFingerprint(items) && ByFingerprint(items)[f] == items[i]
  {
    if items != [] {
      ByFingerprintAt(items[..|items| - 1], f);
      FingerprintAppended(items[..|items| - 1], items[|items| - 1], f);
      assert items == items[..|items| - 1] + [items[|items| - 1]];
    }
  }

  lemma ByFingerprintNext(items: seq<Item>, x: Item)
    ensures ByFingerprint(items + [x]) == ByFingerprint(items)[x.fingerprint := x]
  {
    assert (items + [x])[..|items|] == items;
  }
}
