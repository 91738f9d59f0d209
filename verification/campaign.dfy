/** Maintenance campaigns: recommendations become work with an identity that survives from campaign to campaign. */
module Campaign {
  import opened Work
  import opened Offers
  import opened UpgradeLoop
  import opened Ledger
  import opened UpgradeLoopLaws
  import P = Pipeline
  import L = PipelineLaws
  import R = PipelineRuns
  import T = PipelineTheorems

  /** A recommendation, with the attributes it happens to have. Its id is drawn anew in every campaign. */
  datatype Recommendation = Recommendation(
    id: Option<string>,
    kind: Option<string>,
    reason: Option<string>,
    repository: Option<string>,
    priority: Option<int>,
    risk: Option<string>)

  function Or<T>(value: Option<T>, default: T): (r: T)
    ensures value == Some(r) || (value == None && r == default)
  {
    if value.Some? then value.value else default
  }

  predicate IsSpace(c: char) {
    c == ' ' || c == '\t' || c == '\n' || c == '\r'
  }

  function StripLeft(s: string): string {
    if s != [] && IsSpace(s[0]) then StripLeft(s[1..]) else s
  }

  function StripRight(s: string): string {
    if s != [] && IsSpace(s[|s| - 1]) then StripRight(s[..|s| - 1]) else s
  }

  function Strip(s: string): string {
    StripRight(StripLeft(s))
  }

  /** Just the spaces at both ends are gone. */
  lemma {:induction false} StripTrims(s: string) returns (from: nat, to: nat)
    ensures from <= to <= |s| && Strip(s) == s[from..to]
    ensures forall i :: 0 <= i < from || to <= i < |s| ==> IsSpace(s[i])
    ensures from < to ==> !IsSpace(s[from]) && !IsSpace(s[to - 1])
  {
    if s != [] && IsSpace(s[0]) {
      var a, b := StripTrims(s[1..]);
      from, to := a + 1, b + 1;
    } else {
      from := 0;
      to := RightTrims(s);
    }
  }

  lemma {:induction false} RightTrims(s: string) returns (to: nat)
    ensures to <= |s| && StripRight(s) == s[..to]
    ensures forall i :: to <= i < |s| ==> IsSpace(s[i])
    ensures to > 0 ==> !IsSpace(s[to - 1])
  {
    to := |s|;
    if s != [] && IsSpace(s[|s| - 1]) { to := RightTrims(s[..|s| - 1]); }
  }

  function Upper(s: string): (r: string)
    ensures |r| == |s|
    ensures forall i :: 0 <= i < |s| ==>
      if 'a' <= s[i] <= 'z' then r[i] as int == s[i] as int - 32 else r[i] == s[i]
  {
    if s == [] then []
    else [if 'a' <= s[0] <= 'z' then s[0] - 'a' + 'A' else s[0]] + Upper(s[1..])
  }

  datatype WorkKind = UPGRADE | UPDATE | REPAIR

  // ----- what is hashed

  /** The part of a recommendation that identifies it across campaigns. */
  datatype StableContent = StableContent(
    kind: WorkKind, title: string, repository: string, recommendationType: string, priority: int, risk: string)

  /** The payload of the plain adapter carries the id, that of the campaign adapter a digest of the stable content. */
  datatype Payload<D> =
    | PlainPayload(recommendationId: string, repository: string, recommendationType: string)
    | CampaignPayload(repository: string, recommendationType: string, recommendationKey: D)

  /** What the fingerprint of a work item hashes: kind, stripped title and payload. */
  datatype Content<D> = Content(kind: WorkKind, title: string, payload: Payload<D>)

  /** A work item before it is hashed; None when its title is blank, which is refused. */
  datatype Draft<D> = Draft(title: string, kind: WorkKind, payload: Payload<D>, priority: int, risk: string)

  function KindOf(recommendationType: string): WorkKind {
    if recommendationType == "PATCH_DEPENDENCY" then UPDATE
    else if recommendationType == "REPAIR_CI" then REPAIR
    else UPGRADE
  }

  function PlainWork<D(==)>(r: Recommendation): Option<Draft<D>> {
    var recommendationType := Upper(Or(r.kind, ""));
    var title := Or(r.reason, "maintenance recommendation");
    if Strip(title) == "" then None
    else
      Some(Draft(
        title, KindOf(recommendationType),
        PlainPayload(Or(r.id, ""), Or(r.repository, ""), recommendationType), Or(r.priority, 1), Or(r.risk, "low")))
  }

  function Stable<D>(base: Draft<D>): StableContent
    requires base.payload.PlainPayload?
  {
    StableContent(
      base.kind, Strip(base.title), base.payload.repository, base.payload.recommendationType, base.priority, base.risk)
  }

  /** The campaign's work for a recommendation, under some digest of stable content. */
  function CampaignWork<D(!new,==)>(r: Recommendation, key: StableContent -> D): Option<Draft<D>> {
    var base: Option<Draft<D>> := PlainWork(r);
    if base.None? then None
    else
      var b, stable := base.value, Stable(base.value);
      Some(Draft(
        b.title, b.kind, CampaignPayload(stable.repository, stable.recommendationType, key(stable)), b.priority, b.risk))
  }

  function ContentOf<D>(d: Draft<D>): Content<D> {
    Content(d.kind, Strip(d.title), d.payload)
  }

  /** A digest without collisions. */
  ghost predicate Injective<A(!new), B>(digest: A -> B) {
    forall x, y :: digest(x) == digest(y) ==> x == y
  }

  predicate Blank(r: Recommendation) {
    Strip(Or(r.reason, "maintenance recommendation")) == ""
  }

  /** Two recommendations that differ in nothing but their ids, the space around a title, and the case of a type. */
  ghost predicate SameText(r: Recommendation, r': Recommendation) {
    && Upper(Or(r.kind, "")) == Upper(Or(r'.kind, ""))
    && Strip(Or(r.reason, "maintenance recommendation")) == Strip(Or(r'.reason, "maintenance recommendation"))
    && Or(r.repository, "") == Or(r'.repository, "")
    && Or(r.priority, 1) == Or(r'.priority, 1) && Or(r.risk, "low") == Or(r'.risk, "low")
  }

  /**
   * Two recommendations become the same work exactly when they say the same; ids play no part. Only a
   * recommendation with a blank title becomes none.
   */
  lemma SameWorkIffSameText<D(!new)>(r: Recommendation, r': Recommendation, key: StableContent -> D)
    ensures
      var d, d' := CampaignWork(r, key), CampaignWork(r', key);
      Injective(key) && d.Some? && d'.Some? ==>
        (ContentOf(d.value) == ContentOf(d'.value) <==> SameText(r, r'))
    ensures CampaignWork(r, key).None? <==> Blank(r)
    ensures forall id :: CampaignWork(r.(id := id), key) == CampaignWork(r, key)
  {
    var d, d' := CampaignWork(r, key), CampaignWork(r', key);
    if Injective(key) && d.Some? && d'.Some? && ContentOf(d.value) == ContentOf(d'.value) {
      var base: Option<Draft<D>>, base': Option<Draft<D>> := PlainWork(r), PlainWork(r');
      assert key(Stable(base.value)) == key(Stable(base'.value));
    }
  }

  /** The kind of work follows the type of the recommendation, whatever its case. */
  lemma WorkCarriesAdvice<D(!new)>(r: Recommendation, key: StableContent -> D)
    ensures
      var d, upper := CampaignWork(r, key), Upper(Or(r.kind, ""));
      d.Some? ==>
        && (d.value.kind == UPDATE <==> upper == "PATCH_DEPENDENCY")
        && (d.value.kind == REPAIR <==> upper == "REPAIR_CI")
        && d.value.title == Or(r.reason, "maintenance recommendation") && d.value.risk == Or(r.risk, "low")
        && d.value.payload.repository == Or(r.repository, "") && d.value.payload.recommendationType == upper
  {
  }

  /** Why the plain adapter cannot be used: with the id in the payload, new ids always mean new work. */
  lemma PlainWorkFollowsIds(r: Recommendation, r': Recommendation)
    requires Or(r.id, "") != Or(r'.id, "")
    ensures
      var a: Option<Draft<()>>, b: Option<Draft<()>> := PlainWork(r), PlainWork(r');
      a.Some? && b.Some? ==> ContentOf(a.value) != ContentOf(b.value)
  {
  }

  // ----- one campaign

  /** The item of a recommendation under a fresh id. */
  function ItemOf<D(!new,==)>(
    r: Recommendation, id: ItemId, key: StableContent -> D, digest: Content<D> -> Fingerprint): Option<Item>
  {
    var d := CampaignWork(r, key);
    if d.None? then None
    else Some(Item(digest(ContentOf(d.value)), id, d.value.priority, 2, PENDING, 0, ""))
  }

  /** The items of all recommendations, or None when some title is blank. */
  function ItemsOf<D(!new,==)>(
    rs: seq<Recommendation>, ids: seq<ItemId>, key: StableContent -> D, digest: Content<D> -> Fingerprint)
    : (items: Option<seq<Item>>)
    requires |ids| == |rs|
    ensures items.Some? ==> |items.value| == |rs|
  {
    if rs == [] then Some([])
    else
      var n := |rs| - 1;
      var front, item := ItemsOf(rs[..n], ids[..n], key, digest), ItemOf(rs[n], ids[n], key, digest);
      if front.None? || item.None? then None else Some(front.value + [item.value])
  }

  /** With digests that do not collide, two recommendations get one fingerprint exactly if they say the same. */
  lemma SameFingerprintIffSameAdvice<D(!new)>(
    r: Recommendation, id: ItemId, r': Recommendation, id': ItemId,
    key: StableContent -> D, digest: Content<D> -> Fingerprint)
    requires Injective(key) && Injective(digest)
    ensures
      var item, item' := ItemOf(r, id, key, digest), ItemOf(r', id', key, digest);
      item.Some? && item'.Some? ==> (item.value.fingerprint == item'.value.fingerprint <==> SameText(r, r'))
  {
    var d, d' := CampaignWork(r, key), CampaignWork(r', key);
    SameWorkIffSameText(r, r', key);
    if d.Some? && d'.Some? && digest(ContentOf(d.value)) == digest(ContentOf(d'.value)) {
      assert ContentOf(d.value) == ContentOf(d'.value);
    }
  }

  /** New work that was never attempted, under its own id and with the priority asked for. */
  ghost predicate Advised(r: Recommendation, id: ItemId, x: Item) {
    && x.state == PENDING && x.attempts == 0 && x.maxAttempts == 2 && x.lastError == ""
    && x.itemId == id && x.priority == if r.priority.Some? then r.priority.value else 1
  }

  lemma ItemAdvised<D(!new)>(r: Recommendation, id: ItemId, key: StableContent -> D, digest: Content<D> -> Fingerprint)
    ensures
      var item := ItemOf(r, id, key, digest);
      (item.None? <==> Blank(r)) && (item.Some? ==> Advised(r, id, item.value))
  {
  }

  lemma {:induction false} ItemsAdvised<D(!new)>(
    rs: seq<Recommendation>, ids: seq<ItemId>, key: StableContent -> D, digest: Content<D> -> Fingerprint)
    requires |ids| == |rs|
    ensures
      var items := ItemsOf(rs, ids, key, digest);
      && (items.None? <==> exists k :: 0 <= k < |rs| && Blank(rs[k]))
      && (items.Some? ==> forall k :: 0 <= k < |rs| ==> Advised(rs[k], ids[k], items.value[k]))
  {
    hide ItemOf, Blank, Advised;
    if rs != [] {
      var n := |rs| - 1;
      ItemsAdvised(rs[..n], ids[..n], key, digest);
      ItemAdvised(rs[n], ids[n], key, digest);
      assert forall k :: 0 <= k < n ==> rs[..n][k] == rs[k] && ids[..n][k] == ids[k];
      if exists k :: 0 <= k < |rs[..n]| && Blank(rs[..n][k]) {
        var k :| 0 <= k < |rs[..n]| && Blank(rs[..n][k]);
        assert Blank(rs[k]);
      }
    }
  }

  /** The seed of a campaign whose recommendations all have titles. */
  function SeedOf<D(!new,==)>(
    rs: seq<Recommendation>, ids: seq<ItemId>, key: StableContent -> D, digest: Content<D> -> Fingerprint): seq<Item>
    requires |ids| == |rs| && ItemsOf(rs, ids, key, digest).Some?
  {
    FirstOfEach(ItemsOf(rs, ids, key, digest).value)
  }

  lemma SeedAdvised<D(!new)>(
    rs: seq<Recommendation>, ids: seq<ItemId>, key: StableContent -> D, digest: Content<D> -> Fingerprint)
    requires |ids| == |rs| && ItemsOf(rs, ids, key, digest).Some?
    ensures
      var seed := SeedOf(rs, ids, key, digest);
      && DistinctFingerprints(seed)
      && forall x :: x in seed ==> exists k :: 0 <= k < |rs| && Advised(rs[k], ids[k], x)
  {
    hide Advised, Blank;
    var items := ItemsOf(rs, ids, key, digest).value;
    FirstOfEachHolds(items);
    ItemsAdvised(rs, ids, key, digest);
    forall x | x in SeedOf(rs, ids, key, digest) ensures exists k :: 0 <= k < |rs| && Advised(rs[k], ids[k], x) {
      var k :| 0 <= k < |items| && items[k] == x;
      assert Advised(rs[k], ids[k], x);
    }
  }

  /** Builds the seed in one pass over the recommendations; one blank title refuses the whole campaign. */
  method BuildSeed<D(!new,==)>(
    rs: seq<Recommendation>, ids: seq<ItemId>, key: StableContent -> D, digest: Content<D> -> Fingerprint)
    returns (seed: Option<seq<Item>>)
    requires |ids| == |rs|
    ensures
      var items := ItemsOf(rs, ids, key, digest);
      seed == if items.None? then None else Some(FirstOfEach(items.value))
    ensures seed.None? <==> exists k :: 0 <= k < |rs| && Blank(rs[k])
    ensures seed.Some? ==>
      && DistinctFingerprints(seed.value)
      && forall x :: x in seed.value ==> exists k :: 0 <= k < |rs| && Advised(rs[k], ids[k], x)
  {
    hide Blank, Advised, ItemOf;
    ItemsAdvised(rs, ids, key, digest);
    var kept: seq<Item>, known: set<Fingerprint> := [], {};
    for k := 0 to |rs|
      invariant ItemsOf(rs[..k], ids[..k], key, digest).Some?
      invariant kept == FirstOfEach(ItemsOf(rs[..k], ids[..k], key, digest).value)
      invariant forall f :: f in known <==> HasFingerprint(kept, f)
    {
      assert rs[..k + 1][..k] == rs[..k] && ids[..k + 1][..k] == ids[..k];
      var item := ItemOf(rs[k], ids[k], key, digest);
      if item.None? {
        BlankSpoils(rs, ids, key, digest, k);
        return None;
      }
      ghost var items := ItemsOf(rs[..k], ids[..k], key, digest).value;
      assert (items + [item.value])[..|items|] == items;
      assert HasFingerprint(kept, item.value.fingerprint) <==> item.value.fingerprint in known;
      if item.value.fingerprint !in known {
        KnownGrows(kept, item.value, known);
        kept, known := kept + [item.value], known + {item.value.fingerprint};
      }
    }
    assert rs[..|rs|] == rs && ids[..|ids|] == ids;
    SeedAdvised(rs, ids, key, digest);
    return Some(kept);
  }

  lemma KnownGrows(items: seq<Item>, item: Item, known: set<Fingerprint>)
    requires forall f :: f in known <==> HasFingerprint(items, f)
    ensures forall f :: f in known + {item.fingerprint} <==> HasFingerprint(items + [item], f)
  {
    forall f ensures f in known + {item.fingerprint} <==> HasFingerprint(items + [item], f) {
      FingerprintAppended(items, item, f);
    }
  }

  lemma {:induction false} BlankSpoils<D(!new)>(
    rs: seq<Recommendation>, ids: seq<ItemId>, key: StableContent -> D, digest: Content<D> -> Fingerprint, k: nat)
    requires |ids| == |rs| && k < |rs| && ItemOf(rs[k], ids[k], key, digest).None?
    ensures ItemsOf(rs, ids, key, digest).None?
  {
    hide ItemOf;
    var n := |rs| - 1;
    if k < n { BlankSpoils(rs[..n], ids[..n], key, digest, k); }
  }

  lemma {:induction false} ItemsAt<D(!new)>(
    rs: seq<Recommendation>, ids: seq<ItemId>, key: StableContent -> D, digest: Content<D> -> Fingerprint, k: nat)
    requires |ids| == |rs| && k < |rs| && ItemsOf(rs, ids, key, digest).Some?
    ensures ItemOf(rs[k], ids[k], key, digest) == Some(ItemsOf(rs, ids, key, digest).value[k])
  {
    hide ItemOf;
    var n := |rs| - 1;
    if k < n { ItemsAt(rs[..n], ids[..n], key, digest, k); }
  }

  // ----- what a campaign seeds

  lemma SameTextSameFingerprint<D(!new)>(
    rs: seq<Recommendation>, ids: seq<ItemId>, key: StableContent -> D, digest: Content<D> -> Fingerprint, i: nat)
    requires |ids| == |rs| && i < |rs| && ItemsOf(rs, ids, key, digest).Some? && Injective(key) && Injective(digest)
    ensures FirstAt(ItemsOf(rs, ids, key, digest).value, i) <==> forall j :: 0 <= j < i ==> !SameText(rs[j], rs[i])
  {
    var items := ItemsOf(rs, ids, key, digest).value;
    ItemsAt(rs, ids, key, digest, i);
    forall j | 0 <= j < i ensures items[j].fingerprint == items[i].fingerprint <==> SameText(rs[j], rs[i]) {
      ItemsAt(rs, ids, key, digest, j);
      SameFingerprintIffSameAdvice(rs[j], ids[j], rs[i], ids[i], key, digest);
    }
  }

  /**
   * With digests that do not collide, the seed holds, in order, just the recommendations that say something
   * no earlier one said, each as new work that was never attempted.
   */
  lemma SeedIsFirstAdvice<D(!new)>(
    rs: seq<Recommendation>, ids: seq<ItemId>, key: StableContent -> D, digest: Content<D> -> Fingerprint)
    returns (firsts: seq<nat>)
    requires |ids| == |rs| && ItemsOf(rs, ids, key, digest).Some? && Injective(key) && Injective(digest)
    ensures forall a, b :: 0 <= a < b < |firsts| ==> firsts[a] < firsts[b]
    ensures forall i: nat :: i in firsts <==> i < |rs| && forall j :: 0 <= j < i ==> !SameText(rs[j], rs[i])
    ensures |SeedOf(rs, ids, key, digest)| == |firsts|
    ensures
      forall k :: 0 <= k < |firsts| ==>
        firsts[k] < |rs| && Advised(rs[firsts[k]], ids[firsts[k]], SeedOf(rs, ids, key, digest)[k])
  {
    firsts := FirstOfEachInOrder(ItemsOf(rs, ids, key, digest).value);
    ItemsAdvised(rs, ids, key, digest);
    forall i: nat
      ensures i in firsts <==> i < |rs| && forall j :: 0 <= j < i ==> !SameText(rs[j], rs[i])
    {
      if i < |rs| { SameTextSameFingerprint(rs, ids, key, digest, i); }
    }
  }

  lemma SeedPlain<D(!new)>(
    rs: seq<Recommendation>, ids: seq<ItemId>, key: StableContent -> D, digest: Content<D> -> Fingerprint)
    requires |ids| == |rs| && ItemsOf(rs, ids, key, digest).Some?
    ensures AllPlain(SeedOf(rs, ids, key, digest))
  {
    SeedAdvised(rs, ids, key, digest);
  }

  lemma {:induction false} HandedIsPlain(seeds: seq<Item>, turns: seq<P.SourceTurn>, n: nat)
    requires n <= |turns| && AllPlain(seeds) && forall i :: 0 <= i < |turns| ==> AllPlain(turns[i].candidates)
    ensures AllPlain(L.HandedBy(seeds, turns, n))
  {
    if n > 0 { HandedIsPlain(seeds, turns, n - 1); }
  }

  lemma PlainHandings(s: L.Setting, handed: seq<Item>)
    requires AllPlain(handed)
    ensures T.HandedInPlainly(s, handed)
  {
    forall f | f !in s.start && L.Handings(handed, f) != [] ensures Plain(L.Handings(handed, f)[0]) {
      HandingsHanded(handed, f);
    }
  }

  lemma {:induction false} HandingsHanded(handed: seq<Item>, f: Fingerprint)
    ensures forall x :: x in L.Handings(handed, f) ==> x in handed
  {
    if handed != [] { HandingsHanded(handed[..|handed| - 1], f); }
  }

  /**
   * No advice is lost: a campaign whose sources hand in plain work says COMPLETED exactly if in the end every
   * record of the ledger, old or new, is SUCCEEDED, and no discovery failed.
   */
  lemma CampaignCompletedIffAllDone<D(!new)>(
    rs: seq<Recommendation>, ids: seq<ItemId>, key: StableContent -> D, digest: Content<D> -> Fingerprint,
    s: L.Setting, resumed: seq<Item>, policy: Policy, script: P.Script, onlyBlocked: bool, persisted: seq<ItemId>)
    requires |ids| == |rs| && ItemsOf(rs, ids, key, digest).Some?
    requires R.RunInputs(s, resumed, SeedOf(rs, ids, key, digest), policy, script)
    requires forall i :: 0 <= i < |script.turns| ==> AllPlain(script.turns[i].candidates)
    ensures
      var e := R.RunOver(s, resumed, SeedOf(rs, ids, key, digest), policy, script, onlyBlocked);
      e.Ended? && T.ListsBlocked(persisted, e.desk.records) ==>
        (P.FinalReport(e.report, persisted).state == COMPLETED <==>
         T.AllDone(e.desk.records) && !DiscoveryFailed(e.report))
  {
    var seed := SeedOf(rs, ids, key, digest);
    assert P.Enough(script, policy);
    hide *;
    var e := R.RunOver(s, resumed, seed, policy, script, onlyBlocked);
    SeedPlain(rs, ids, key, digest);
    T.CompletedIffLedgerSucceeded(s, resumed, seed, policy, script, onlyBlocked, persisted);
    if e.Ended? && T.ListsBlocked(persisted, e.desk.records) {
      HandedIsPlain(seed, script.turns, e.report.iterations);
      PlainHandings(s, L.HandedBy(seed, script.turns, e.report.iterations));
    }
  }

  // ----- two campaigns

  ghost predicate SameAdvice(rs: seq<Recommendation>, rs': seq<Recommendation>) {
    forall k' :: 0 <= k' < |rs'| ==> exists k :: 0 <= k < |rs| && SameText(rs[k], rs'[k'])
  }

  lemma SameAdviceSameFingerprint<D(!new)>(
    r: Recommendation, id: ItemId, r': Recommendation, id': ItemId,
    key: StableContent -> D, digest: Content<D> -> Fingerprint)
    requires SameText(r, r') && ItemOf(r, id, key, digest).Some? && ItemOf(r', id', key, digest).Some?
    ensures ItemOf(r, id, key, digest).value.fingerprint == ItemOf(r', id', key, digest).value.fingerprint
  {
    assert ContentOf(CampaignWork(r, key).value) == ContentOf(CampaignWork(r', key).value);
  }

  lemma ContentsCovered(items: seq<Item>, items': seq<Item>, c: Item)
    requires forall k' :: 0 <= k' < |items'| ==> HasFingerprint(items, items'[k'].fingerprint)
    requires c in FirstOfEach(items')
    ensures HasFingerprint(FirstOfEach(items), c.fingerprint)
  {
    FirstOfEachHolds(items);
    FirstOfEachHolds(items');
    var k' :| 0 <= k' < |items'| && items'[k'] == c;
  }

  /** The seed of the later campaign repeats contents of the earlier one. */
  lemma SameAdviceSameContents<D(!new)>(
    rs: seq<Recommendation>, ids: seq<ItemId>, rs': seq<Recommendation>, ids': seq<ItemId>,
    key: StableContent -> D, digest: Content<D> -> Fingerprint)
    requires |ids| == |rs| && |ids'| == |rs'| && SameAdvice(rs, rs')
    requires ItemsOf(rs, ids, key, digest).Some? && ItemsOf(rs', ids', key, digest).Some?
    ensures
      forall c :: c in SeedOf(rs', ids', key, digest) ==> HasFingerprint(SeedOf(rs, ids, key, digest), c.fingerprint)
  {
    var items, items' := ItemsOf(rs, ids, key, digest).value, ItemsOf(rs', ids', key, digest).value;
    forall k' | 0 <= k' < |items'| ensures HasFingerprint(items, items'[k'].fingerprint) {
      var k :| 0 <= k < |rs| && SameText(rs[k], rs'[k']);
      ItemsAt(rs, ids, key, digest, k);
      ItemsAt(rs', ids', key, digest, k');
      SameAdviceSameFingerprint(rs[k], ids[k], rs'[k'], ids'[k'], key, digest);
      assert items[k].fingerprint == items'[k'].fingerprint;
    }
    forall c | c in FirstOfEach(items') ensures HasFingerprint(FirstOfEach(items), c.fingerprint) {
      ContentsCovered(items, items', c);
    }
  }

  lemma SameContentsKnown(m: Records, seed: seq<Item>, seed': seq<Item>)
    requires T.OnlyKnown(m, seed) && forall c :: c in seed' ==> HasFingerprint(seed, c.fingerprint)
    ensures T.OnlyKnown(m, seed')
  {
    forall c | c in seed' ensures c.fingerprint in m {
      var i :| 0 <= i < |seed| && seed[i].fingerprint == c.fingerprint;
      assert seed[i] in seed;
    }
  }

  /**
   * A campaign with the advice of an earlier one, under new recommendation ids and new item ids, whose
   * sources discover only work the ledger knows, executes only what the earlier campaign left PENDING,
   * or lost in flight when its discovery failed.
   */
  lemma RepeatedCampaignExecutesOnlyPending<D(!new)>(
    rs: seq<Recommendation>, ids: seq<ItemId>, rs': seq<Recommendation>, ids': seq<ItemId>,
    key: StableContent -> D, digest: Content<D> -> Fingerprint,
    s: L.Setting, resumed: seq<Item>, policy: Policy, script: P.Script, onlyBlocked: bool,
    s': L.Setting, resumed': seq<Item>, policy': Policy, script': P.Script)
    requires |ids| == |rs| && |ids'| == |rs'| && SameAdvice(rs, rs')
    requires ItemsOf(rs, ids, key, digest).Some? && ItemsOf(rs', ids', key, digest).Some?
    requires R.RunInputs(s, resumed, SeedOf(rs, ids, key, digest), policy, script)
    requires R.RunInputs(s', resumed', SeedOf(rs', ids', key, digest), policy', script') && !s'.retryBlocked
    requires R.RunOver(s, resumed, SeedOf(rs, ids, key, digest), policy, script, onlyBlocked).Ended?
    requires s'.start == R.RunOver(s, resumed, SeedOf(rs, ids, key, digest), policy, script, onlyBlocked).desk.records
    requires forall i :: 0 <= i < |script'.turns| ==> T.OnlyKnown(s'.start, script'.turns[i].candidates)
    ensures
      var seed, seed' := SeedOf(rs, ids, key, digest), SeedOf(rs', ids', key, digest);
      var n := R.RunOver(s, resumed, seed, policy, script, onlyBlocked).report.iterations;
      && n <= |script.turns|
      && T.ExecutedLeftovers(
           R.RunOver(s', resumed', seed', policy', script', onlyBlocked).loop.records, s', s, seed, script.turns, n)
  {
    hide R.RunInputs, R.RunOver;
    var seed, seed' := SeedOf(rs, ids, key, digest), SeedOf(rs', ids', key, digest);
    SameAdviceSameContents(rs, ids, rs', ids', key, digest);
    T.SeedsAreRecorded(s, resumed, seed, policy, script, onlyBlocked);
    SameContentsKnown(s'.start, seed, seed');
    T.RepeatedRunExecutesOnlyPending(
      s, resumed, seed, policy, script, onlyBlocked, s', resumed', seed', policy', script');
  }
}
