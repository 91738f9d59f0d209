/** What a caller may conclude from a pipeline's report, and what a later run repeats. */
module PipelineTheorems {
  import opened Work
  import opened Offers
  import opened UpgradeLoop
  import opened UpgradeLoopLaws
  import opened Ledger
  import opened Pipeline
  import opened PipelineLaws
  import opened PipelineRuns

  /** The ledger knows this id, and in this state only. */
  ghost predicate RecordedAs(m: Records, id: ItemId, state: WorkState) {
    (exists f :: f in m && m[f].itemId == id) && forall f :: f in m && m[f].itemId == id ==> m[f].state == state
  }

  /** The ids the ledger reports as blocked, in some order. */
  ghost predicate ListsBlocked(persisted: seq<ItemId>, m: Records) {
    forall id :: id in persisted <==> id in BlockedIds(m)
  }

  lemma RecordedUnder(m: Records, owner: Owners, f: Fingerprint)
    requires LedgerFits(m, owner) && f in m
    ensures RecordedAs(m, m[f].itemId, m[f].state)
  {
    forall g | g in m && m[g].itemId == m[f].itemId ensures g == f { assert Owned(owner, m[g]); }
  }

  lemma LedgerStaysFit(d: Desk, s: Setting, handed: seq<Item>)
    requires DeskFits(d, s, handed)
    ensures LedgerFits(d.records, s.owner)
  {
    forall f | f in d.records ensures d.records[f].fingerprint == f && Owned(s.owner, d.records[f]) {
      assert RecordFits(d, s, handed, f);
    }
  }

  // ----- the report

  ghost predicate ReportTrue(r: Report, m: Records) {
    && (forall id :: id in r.completed ==> RecordedAs(m, id, SUCCEEDED))
    && (forall id :: id in r.blocked ==> RecordedAs(m, id, BLOCKED))
    && (forall id :: id in r.pending ==> RecordedAs(m, id, PENDING))
  }

  lemma ItemRecorded(e: Ended, s: Setting, known: seq<Item>, i: nat)
    requires LoopFits(e.loop, e.desk, s, known) && Mirrors(e.loop, e.desk) && LedgerFits(e.desk.records, s.owner)
    requires i < |e.loop.items|
    ensures
      var x, offered := e.loop.items[i], e.loop.accepted[i];
      && (Plain(offered) ==> RecordedAs(e.desk.records, x.itemId, x.state))
      && (InFlight(offered.state) ==> RecordedAs(e.desk.records, x.itemId, PENDING))
  {
    var x := e.loop.items[i];
    assert LoopItemFits(e.loop, e.desk, s, known, i) && Mirrored(e.loop, e.desk, i);
    RecordedUnder(e.desk.records, s.owner, x.fingerprint);
  }

  lemma TerminalRecorded(e: Ended, s: Setting, known: seq<Item>, id: ItemId)
    requires LoopFits(e.loop, e.desk, s, known) && Mirrors(e.loop, e.desk) && LedgerFits(e.desk.records, s.owner)
    requires e.Ended? && EndsRight(Final(e.loop, e.report, []))
    ensures id in e.report.completed ==> RecordedAs(e.desk.records, id, SUCCEEDED)
    ensures id in e.report.blocked ==> RecordedAs(e.desk.records, id, BLOCKED)
  {
    if id in e.report.completed || id in e.report.blocked {
      assert HasId(e.loop.items, id);
      var i :| 0 <= i < |e.loop.items| && e.loop.items[i].itemId == id;
      assert Booked(e.loop, i);
      ItemRecorded(e, s, known, i);
    }
  }

  /** What the loop lists as pending is pending, or was handed in as in flight. */
  lemma ListedPending(l: Loop, d: Desk, s: Setting, known: seq<Item>, i: nat)
    requires LoopFits(l, d, s, known) && i < |l.items| && Open(l.items[i].state)
    ensures l.items[i].state == l.accepted[i].state == PENDING || InFlight(l.accepted[i].state)
  {
    assert Booked(l, i);
  }

  lemma PendingRecorded(e: Ended, s: Setting, known: seq<Item>, id: ItemId)
    requires LoopFits(e.loop, e.desk, s, known) && Mirrors(e.loop, e.desk) && LedgerFits(e.desk.records, s.owner)
    requires e.Ended? && EndsRight(Final(e.loop, e.report, [])) && id in e.report.pending
    ensures RecordedAs(e.desk.records, id, PENDING)
  {
    hide LoopFits, Mirrors, LedgerFits, RecordedAs;
    var i :| 0 <= i < |e.loop.items| && e.loop.items[i].itemId == id && Open(e.loop.items[i].state);
    SameLength(e.loop, e.desk, s, known);
    ListedPending(e.loop, e.desk, s, known, i);
    ItemRecorded(e, s, known, i);
  }

  lemma SameLength(l: Loop, d: Desk, s: Setting, known: seq<Item>)
    requires LoopFits(l, d, s, known)
    ensures |l.items| == |l.accepted|
  {
  }

  lemma PersistedRecorded(m: Records, owner: Owners, id: ItemId)
    requires LedgerFits(m, owner) && id in BlockedIds(m)
    ensures RecordedAs(m, id, BLOCKED)
  {
    var f :| f in m && m[f].state == BLOCKED && m[f].itemId == id;
    RecordedUnder(m, owner, f);
  }

  lemma EndReportTrue(e: Ended, s: Setting, known: seq<Item>, persisted: seq<ItemId>)
    requires LoopFits(e.loop, e.desk, s, known) && Mirrors(e.loop, e.desk) && LedgerFits(e.desk.records, s.owner)
    requires e.Ended? && EndsRight(Final(e.loop, e.report, [])) && ListsBlocked(persisted, e.desk.records)
    ensures ReportTrue(FinalReport(e.report, persisted), e.desk.records)
  {
    hide LoopFits;
    var r := FinalReport(e.report, persisted);
    forall id | id in r.completed ensures RecordedAs(e.desk.records, id, SUCCEEDED) {
      TerminalRecorded(e, s, known, id);
    }
    forall id | id in r.blocked ensures RecordedAs(e.desk.records, id, BLOCKED) {
      TerminalRecorded(e, s, known, id);
      if id !in e.report.blocked { PersistedRecorded(e.desk.records, s.owner, id); }
    }
    forall id | id in r.pending ensures RecordedAs(e.desk.records, id, PENDING) {
      PendingRecorded(e, s, known, id);
    }
  }

  /**
   * After any run that returns a report every id it lists is in the ledger in exactly that state,
   * although discovery keeps replacing the objects the checkpoints are written from.
   */
  lemma ReportMatchesLedger(
    s: Setting, resumed: seq<Item>, seeds: seq<Item>, policy: Policy, script: Script, onlyBlocked: bool,
    persisted: seq<ItemId>)
    requires RunInputs(s, resumed, seeds, policy, script)
    ensures
      var e := RunOver(s, resumed, seeds, policy, script, onlyBlocked);
      e.Ended? && ListsBlocked(persisted, e.desk.records) ==> ReportTrue(FinalReport(e.report, persisted), e.desk.records)
  {
    var e := RunOver(s, resumed, seeds, policy, script, onlyBlocked);
    RunFits(s, resumed, seeds, policy, script, onlyBlocked);
    var n, failed :| OverWith(e, s, seeds, script.turns, n, failed);
    if e.Ended? && ListsBlocked(persisted, e.desk.records) {
      LedgerStaysFit(e.desk, s, HandedBy(seeds, script.turns, n));
      EndReportTrue(e, s, Given(seeds, script.turns, n, failed), persisted);
    }
  }

  /**
   * What a caller gets, against the loop's report and the ledger at the end: blocked records turn a completed
   * loop into a halted run and are listed after the loop's own; everything else is the loop's.
   */
  ghost predicate Returned(r: Report, told: Report, m: Records) {
    && (if told.state == COMPLETED && BlockedIds(m) != {} then
          r.state == HALTED && r.haltReason == "persisted_blocked_work_remaining"
        else r.state == told.state && r.haltReason == told.haltReason)
    && r.iterations == told.iterations && r.records == told.records
    && r.completed == told.completed && r.pending == told.pending
    && told.blocked <= r.blocked && NoDup(r.blocked)
    && forall id :: id in r.blocked <==> id in told.blocked || id in BlockedIds(m)
  }

  lemma UniqKeeps(front: seq<ItemId>, back: seq<ItemId>)
    requires NoDup(front)
    ensures front <= Uniq(front + back) && NoDup(Uniq(front + back))
    ensures forall id :: id in Uniq(front + back) <==> id in front || id in back
  {
    UniqPrefix(front, back);
  }

  lemma {:induction false} UniqPrefix(front: seq<ItemId>, back: seq<ItemId>)
    requires NoDup(front)
    ensures front <= Uniq(front + back)
  {
    if back == [] {
      assert front + back == front;
    } else {
      UniqPrefix(front, back[..|back| - 1]);
      assert (front + back)[..|front + back| - 1] == front + back[..|back| - 1];
    }
  }

  lemma MergedIsReturned(told: Report, persisted: seq<ItemId>, m: Records)
    requires ListsBlocked(persisted, m) && NoDup(told.blocked)
    ensures Returned(FinalReport(told, persisted), told, m)
  {
    if persisted == [] {
      assert forall id :: id !in BlockedIds(m);
    } else {
      assert persisted[0] in BlockedIds(m);
      UniqKeeps(told.blocked, persisted);
    }
  }

  /** The report of a whole run lists just the blocked ids of the ledger, the loop's own first. */
  lemma BlockedIdsReported(
    s: Setting, resumed: seq<Item>, seeds: seq<Item>, policy: Policy, script: Script, onlyBlocked: bool, r: Report)
    requires RunInputs(s, resumed, seeds, policy, script)
    ensures
      var e := RunOver(s, resumed, seeds, policy, script, onlyBlocked);
      e.Ended? && Returned(r, e.report, e.desk.records) ==> forall id :: id in r.blocked <==> id in BlockedIds(e.desk.records)
  {
    var e := RunOver(s, resumed, seeds, policy, script, onlyBlocked);
    RunFits(s, resumed, seeds, policy, script, onlyBlocked);
    var n, failed :| OverWith(e, s, seeds, script.turns, n, failed);
    if e.Ended? && Returned(r, e.report, e.desk.records) {
      LedgerStaysFit(e.desk, s, HandedBy(seeds, script.turns, n));
      forall id | id in e.report.blocked ensures id in BlockedIds(e.desk.records) {
        TerminalRecorded(e, s, Given(seeds, script.turns, n, failed), id);
        RecordedBlocked(e.desk.records, s.owner, id);
      }
    }
  }

  lemma RecordedBlocked(m: Records, owner: Owners, id: ItemId)
    requires LedgerFits(m, owner) && RecordedAs(m, id, BLOCKED)
    ensures id in BlockedIds(m)
  {
    var f :| f in m && m[f].itemId == id;
    assert Owned(owner, m[f]);
  }

  // ----- COMPLETED

  ghost predicate AllDone(m: Records) {
    forall f :: f in m ==> m[f].state == SUCCEEDED
  }

  /** Content the ledger did not have was first handed in as PENDING or SUCCEEDED. */
  ghost predicate HandedInPlainly(s: Setting, handed: seq<Item>) {
    forall f :: f !in s.start && Handings(handed, f) != [] ==> Plain(Handings(handed, f)[0])
  }

  /** The loop item of content the run took in, and what it was handed in as. */
  lemma TakenItem(l: Loop, d: Desk, s: Setting, handed: seq<Item>, f: Fingerprint)
    requires LoopFits(l, d, s, handed) && f in l.fingerprints
    ensures exists i :: 0 <= i < |l.items| && l.items[i].fingerprint == f && l.accepted[i].fingerprint == f
    ensures f !in s.start ==> Handings(handed, f) != []
    ensures HandedInPlainly(s, handed) ==>
      exists i :: 0 <= i < |l.items| && l.items[i].fingerprint == f && Plain(l.accepted[i])
  {
    var i :| 0 <= i < |l.items| && l.items[i].fingerprint == f;
    assert LoopItemFits(l, d, s, handed, i);
  }

  /** Nothing the ledger has is open after a run that completed on work handed in plainly. */
  lemma CompletedNoneOpen(e: Ended, s: Setting, handed: seq<Item>, f: Fingerprint)
    requires Linked(e.loop, e.desk, s, handed, handed) && Mirrors(e.loop, e.desk) && AllAdopted(e.loop, e.desk)
    requires e.Ended? && EndsRight(Final(e.loop, e.report, [])) && e.report.state == COMPLETED
    requires HandedInPlainly(s, handed) && f in e.desk.records
    ensures !Open(e.desk.records[f].state)
  {
    assert RecordFits(e.desk, s, handed, f);
    if HasFingerprint(e.desk.copies, f) {
      var k :| 0 <= k < |e.desk.copies| && e.desk.copies[k].fingerprint == f;
      TakenItem(e.loop, e.desk, s, handed, f);
      var i :| 0 <= i < |e.loop.items| && e.loop.items[i].fingerprint == f && Plain(e.loop.accepted[i]);
      assert Mirrored(e.loop, e.desk, i) && Booked(e.loop, i) && e.loop.items[i] in e.loop.items;
    }
  }

  /** When every record is SUCCEEDED, the work was handed in plainly. */
  lemma DoneMeansPlain(e: Ended, s: Setting, handed: seq<Item>, f: Fingerprint)
    requires LoopFits(e.loop, e.desk, s, handed) && Knows(e.loop, s, handed) && AllDone(e.desk.records)
    requires f !in s.start && Handings(handed, f) != []
    ensures Plain(Handings(handed, f)[0])
  {
    TakenItem(e.loop, e.desk, s, handed, f);
    var i :| 0 <= i < |e.loop.items| && e.loop.items[i].fingerprint == f && e.loop.accepted[i].fingerprint == f;
    assert LoopItemFits(e.loop, e.desk, s, handed, i);
  }

  lemma DoneLoopCompletes(e: Ended, s: Setting, handed: seq<Item>)
    requires LoopFits(e.loop, e.desk, s, handed) && Mirrors(e.loop, e.desk) && AllDone(e.desk.records)
    requires e.Ended? && EndsRight(Final(e.loop, e.report, [])) && !DiscoveryFailed(e.report)
    ensures e.report.state == COMPLETED
  {
    forall i | 0 <= i < |e.loop.items| ensures Plain(e.loop.accepted[i]) && e.loop.items[i].state == SUCCEEDED {
      assert LoopItemFits(e.loop, e.desk, s, handed, i) && Mirrored(e.loop, e.desk, i);
    }
    PlainLoopCompletes(Final(e.loop, e.report, []), Accepted(e.loop));
  }

  lemma BlockedHasId(m: Records, owner: Owners, f: Fingerprint)
    requires f in m && Owned(owner, m[f])
    ensures m[f].state == BLOCKED ==> m[f].itemId in BlockedIds(m)
  {
  }

  lemma CompletedAllDone(e: Ended, s: Setting, handed: seq<Item>, persisted: seq<ItemId>)
    requires Linked(e.loop, e.desk, s, handed, handed) && Mirrors(e.loop, e.desk) && AllAdopted(e.loop, e.desk)
    requires e.Ended? && EndsRight(Final(e.loop, e.report, [])) && LedgerFits(e.desk.records, s.owner)
    requires ListsBlocked(persisted, e.desk.records) && FinalReport(e.report, persisted).state == COMPLETED
    requires HandedInPlainly(s, handed)
    ensures AllDone(e.desk.records)
  {
    forall f | f in e.desk.records ensures e.desk.records[f].state == SUCCEEDED {
      CompletedNoneOpen(e, s, handed, f);
      BlockedHasId(e.desk.records, s.owner, f);
    }
  }

  lemma HasFirst(ids: seq<ItemId>)
    ensures ids != [] ==> ids[0] in ids
  {
  }

  lemma NoneListed(m: Records, persisted: seq<ItemId>)
    requires AllDone(m) && ListsBlocked(persisted, m)
    ensures persisted == []
  {
    assert forall id :: id !in BlockedIds(m);
    HasFirst(persisted);
  }

  lemma EndCompleted(e: Ended, s: Setting, seeds: seq<Item>, turns: seq<SourceTurn>, persisted: seq<ItemId>)
    requires e.Ended? && OverWith(e, s, seeds, turns, e.report.iterations, DiscoveryFailed(e.report))
    requires ListsBlocked(persisted, e.desk.records) && !DiscoveryFailed(e.report)
    ensures AllDone(e.desk.records) <==>
      && FinalReport(e.report, persisted).state == COMPLETED
      && HandedInPlainly(s, HandedBy(seeds, turns, e.report.iterations))
  {
    var handed, m := HandedBy(seeds, turns, e.report.iterations), e.desk.records;
    LedgerStaysFit(e.desk, s, handed);
    if AllDone(m) {
      DoneLoopCompletes(e, s, handed);
      NoneListed(m, persisted);
      forall f | f !in s.start && Handings(handed, f) != [] ensures Plain(Handings(handed, f)[0]) {
        DoneMeansPlain(e, s, handed, f);
      }
    } else if FinalReport(e.report, persisted).state == COMPLETED && HandedInPlainly(s, handed) {
      CompletedAllDone(e, s, handed, persisted);
    }
  }

  lemma FailedIsNotCompleted(report: Report, persisted: seq<ItemId>, f: Final)
    requires EndsRight(f) && f.report == report && DiscoveryFailed(report)
    ensures FinalReport(report, persisted).state != COMPLETED
  {
  }

  /**
   * Every record of the ledger, old or new, is SUCCEEDED, and no discovery failed, exactly if the report
   * says COMPLETED and all work new to the ledger was first handed in as PENDING or SUCCEEDED.
   */
  lemma CompletedIffLedgerSucceeded(
    s: Setting, resumed: seq<Item>, seeds: seq<Item>, policy: Policy, script: Script, onlyBlocked: bool,
    persisted: seq<ItemId>)
    requires RunInputs(s, resumed, seeds, policy, script)
    ensures
      var e := RunOver(s, resumed, seeds, policy, script, onlyBlocked);
      e.Ended? && ListsBlocked(persisted, e.desk.records) ==>
        && e.report.iterations <= |script.turns|
        && (AllDone(e.desk.records) && !DiscoveryFailed(e.report) <==>
            && FinalReport(e.report, persisted).state == COMPLETED
            && HandedInPlainly(s, HandedBy(seeds, script.turns, e.report.iterations)))
  {
    var e := RunOver(s, resumed, seeds, policy, script, onlyBlocked);
    RunFits(s, resumed, seeds, policy, script, onlyBlocked);
    var n, failed :| OverWith(e, s, seeds, script.turns, n, failed);
    if e.Ended? && ListsBlocked(persisted, e.desk.records) {
      if failed {
        FailedIsNotCompleted(e.report, persisted, Final(e.loop, e.report, []));
      } else {
        EndCompleted(e, s, seeds, script.turns, persisted);
      }
    }
  }

  // ----- work left in the middle of an attempt

  /** Content new to the ledger, handed in once only, as in flight, by a discovery that then failed. */
  ghost predicate LostInFlight(s: Setting, seeds: seq<Item>, turns: seq<SourceTurn>, n: nat, f: Fingerprint)
    requires n <= |turns|
  {
    n > 0 && OnceInFlight(s, HandedBy(seeds, turns, n), f) && Handings(HandedBy(seeds, turns, n - 1), f) == []
  }

  lemma NotTaken(e: Ended, s: Setting, known: seq<Item>, f: Fingerprint)
    requires LoopFits(e.loop, e.desk, s, known) && Knows(e.loop, s, known) && f !in s.start
    ensures f in e.loop.fingerprints <==> Handings(known, f) != []
  {
    if f in e.loop.fingerprints { TakenItem(e.loop, e.desk, s, known, f); }
  }

  /**
   * When a run has returned a report, a record is RUNNING or VALIDATING exactly if its work was lost in
   * flight: handed in once, as if it were in the middle of an attempt, by a discovery that failed.
   */
  lemma InFlightExactlyIfLost(
    s: Setting, resumed: seq<Item>, seeds: seq<Item>, policy: Policy, script: Script, onlyBlocked: bool, f: Fingerprint)
    requires RunInputs(s, resumed, seeds, policy, script)
    ensures
      var e := RunOver(s, resumed, seeds, policy, script, onlyBlocked);
      e.Ended? && f in e.desk.records ==>
        && e.report.iterations <= |script.turns|
        && (InFlight(e.desk.records[f].state) <==>
            DiscoveryFailed(e.report) && LostInFlight(s, seeds, script.turns, e.report.iterations, f))
  {
    var e := RunOver(s, resumed, seeds, policy, script, onlyBlocked);
    RunFits(s, resumed, seeds, policy, script, onlyBlocked);
    var n, failed :| OverWith(e, s, seeds, script.turns, n, failed);
    if e.Ended? && f in e.desk.records {
      assert FlightEnds(e.loop, e.desk, s, HandedBy(seeds, script.turns, n), f);
      if f !in s.start { NotTaken(e, s, Given(seeds, script.turns, n, failed), f); }
    }
  }

  // ----- during a run

  /** Loop and desk before the next iteration, after n of them, if the run gets so far. */
  function ReachedBefore(
    l: Loop, d: Desk, policy: Policy, script: Script, n: nat, retryBlocked: bool): (r: Option<(Loop, Desk)>)
    requires Enough(script, policy) && n <= policy.maxIterations && |l.items| == |l.accepted|
    ensures r.Some? ==> |r.value.0.items| == |r.value.0.accepted|
  {
    if n == 0 then Some((l, d))
    else
      match ReachedBefore(l, d, policy, script, n - 1, retryBlocked)
      case None => None
      case Some((l1, d1)) =>
        var turn := script.turns[n - 1];
        var r := OneTurn(l1, policy, Seen(d1, turn, retryBlocked), n);
        if r.Stop? || Breaks(turn, r) then None
        else Some((r.loop, Record(Keep(l1, d1, turn, retryBlocked, r), r.checkpoints)))
  }

  /** From there the run goes on as from the beginning. */
  lemma {:induction false} ReachedInRun(
    l: Loop, d: Desk, policy: Policy, script: Script, n: nat, retryBlocked: bool, start: nat)
    requires Enough(script, policy) && n <= policy.maxIterations && |l.items| == |l.accepted| && start == 1
    ensures
      var r := ReachedBefore(l, d, policy, script, n, retryBlocked);
      r.Some? ==>
        Pipeline.RunFrom(l, d, policy, script, start, retryBlocked)
          == Pipeline.RunFrom(r.value.0, r.value.1, policy, script, n + 1, retryBlocked)
  {
    hide Pipeline.RunFrom, OneTurn, Keep, Seen, Record, Breaks, Finish;
    if n > 0 {
      ReachedInRun(l, d, policy, script, n - 1, retryBlocked, start);
      var before := ReachedBefore(l, d, policy, script, n - 1, retryBlocked);
      if before.Some? {
        var (l1, d1) := before.value;
        RunFromCases(
          l1, d1, policy, script, n, retryBlocked, Pipeline.RunFrom(l1, d1, policy, script, n, retryBlocked));
      }
    }
  }

  lemma {:induction false} ReachedStands(
    l: Loop, d: Desk, s: Setting, seeds: seq<Item>, policy: Policy, script: Script, n: nat)
    requires Enough(script, policy) && n <= policy.maxIterations && |l.items| == |l.accepted|
    requires Standing(l, d, s, seeds, script.turns, 0) && TurnsOwned(s.owner, script.turns)
    ensures
      var r := ReachedBefore(l, d, policy, script, n, s.retryBlocked);
      r.Some? ==> Standing(r.value.0, r.value.1, s, seeds, script.turns, n)
  {
    hide Standing, OneTurn, Keep, Seen, Record, Breaks;
    if n > 0 {
      ReachedStands(l, d, s, seeds, policy, script, n - 1);
      var before := ReachedBefore(l, d, policy, script, n - 1, s.retryBlocked);
      if before.Some? { StandsOn(before.value.0, before.value.1, s, seeds, policy, script, n); }
    }
  }

  lemma StandsOn(l: Loop, d: Desk, s: Setting, seeds: seq<Item>, policy: Policy, script: Script, n: nat)
    requires Enough(script, policy) && 1 <= n <= policy.maxIterations && TurnsOwned(s.owner, script.turns)
    requires Standing(l, d, s, seeds, script.turns, n - 1) && |l.items| == |l.accepted|
    ensures
      var r := OneTurn(l, policy, Seen(d, script.turns[n - 1], s.retryBlocked), n);
      r.Continue? ==>
        Standing(r.loop, Record(Keep(l, d, script.turns[n - 1], s.retryBlocked, r), r.checkpoints), s, seeds, script.turns, n)
  {
    if Failure(d, script.turns[n - 1], s.retryBlocked).None? {
      hide Standing, OneTurn, Keep, Seen, Record;
      TurnStands(l, d, s, seeds, script.turns, policy, n);
    } else {
      TurnCases(l, d, policy, script.turns[n - 1], n, s.retryBlocked);
    }
  }

  /** None of the work the loop holds is recorded as in the middle of an attempt. */
  ghost predicate LoopAtRest(l: Loop, m: Records) {
    forall f :: f in l.fingerprints && f in m ==> !InFlight(m[f].state)
  }

  lemma TurnStoresNoFlight(l: Loop, d: Desk, s: Setting, handed: seq<Item>, policy: Policy, turn: SourceTurn, n: nat)
    requires Fits(l, d, s, handed) && Candidates(s.owner, turn.candidates)
    ensures
      var r := OneTurn(l, policy, Seen(d, turn, s.retryBlocked), n);
      r.checkpoints != [] ==> LoopAtRest(r.loop, Record(Keep(l, d, turn, s.retryBlocked, r), r.checkpoints).records)
  {
    if Failure(d, turn, s.retryBlocked).None? {
      hide Fits, Linked, OneTurn, Keep, Seen, Record, Emits;
      TurnFits(l, d, s, handed, policy, turn, n);
      var r := OneTurn(l, policy, Seen(d, turn, s.retryBlocked), n);
      var kept := Keep(l, d, turn, s.retryBlocked, r);
      FitsAreLinked(r.loop, kept, s, handed + turn.candidates);
      RecordLinked(r.loop, kept, s, handed + turn.candidates, handed + turn.candidates, r.checkpoints);
    } else {
      TurnCases(l, d, policy, turn, n, s.retryBlocked);
    }
  }

  lemma FitsAreLinked(l: Loop, d: Desk, s: Setting, handed: seq<Item>)
    requires Fits(l, d, s, handed)
    ensures Linked(l, d, s, handed, handed)
  {
  }

  /**
   * Every checkpoint stored during a run, not only the last one, leaves no work the loop holds RUNNING or
   * VALIDATING in the ledger: not even the item it is for.
   */
  lemma CheckpointsStoreNoFlight(
    s: Setting, resumed: seq<Item>, seeds: seq<Item>, policy: Policy, script: Script, onlyBlocked: bool, n: nat,
    l: Loop, d: Desk)
    requires RunInputs(s, resumed, seeds, policy, script) && n < policy.maxIterations
    requires
      var loaded := ResetAll(s.start, s.retryBlocked, onlyBlocked);
      ReachedBefore(
        AcceptAll(EMPTY_LOOP, resumed + RestoreAll(loaded, seeds, s.retryBlocked)),
        Seeded(loaded, resumed, seeds, s.retryBlocked), policy, script, n, s.retryBlocked) == Some((l, d))
    ensures |l.items| == |l.accepted|
    ensures
      var r := OneTurn(l, policy, Seen(d, script.turns[n], s.retryBlocked), n + 1);
      r.checkpoints != [] ==>
        LoopAtRest(r.loop, Record(Keep(l, d, script.turns[n], s.retryBlocked, r), r.checkpoints).records)
    ensures RunOver(s, resumed, seeds, policy, script, onlyBlocked)
      == Pipeline.RunFrom(l, d, policy, script, n + 1, s.retryBlocked)
  {
    hide Pipeline.RunFrom, RunOver, ReachedBefore, OneTurn, Keep, Seen, Record, Seeded, AcceptAll, LoopAtRest, Fits;
    var loaded := ResetAll(s.start, s.retryBlocked, onlyBlocked);
    var l0 := AcceptAll(EMPTY_LOOP, resumed + RestoreAll(loaded, seeds, s.retryBlocked));
    var d0 := Seeded(loaded, resumed, seeds, s.retryBlocked);
    SeededStands(s, resumed, seeds, script.turns, onlyBlocked, l0, d0);
    RunOverIs(s, resumed, seeds, policy, script, onlyBlocked, l0, d0);
    ReachedInRun(l0, d0, policy, script, n, s.retryBlocked, 1);
    ReachedStands(l0, d0, s, seeds, policy, script, n);
    TurnStoresNoFlight(l, d, s, HandedBy(seeds, script.turns, n), policy, script.turns[n], n + 1);
  }

  // ----- what is executed

  /** Every attempt was on work the ledger did not have, or had open when the run began. */
  ghost predicate ExecutedOpenWork(records: seq<IterationRecord>, s: Setting) {
    forall r :: r in records ==>
      r.itemId in s.owner && (s.owner[r.itemId] in s.start ==> Reopen(s.start[s.owner[r.itemId]], s.retryBlocked).Some?)
  }

  lemma LoopExecuted(l: Loop, d: Desk, s: Setting, known: seq<Item>, handed: seq<Item>)
    requires Linked(l, d, s, known, handed)
    ensures ExecutedOpenWork(l.records, s)
  {
    forall r | r in l.records
      ensures r.itemId in s.owner
      ensures s.owner[r.itemId] in s.start ==> Reopen(s.start[s.owner[r.itemId]], s.retryBlocked).Some?
    {
      assert HasId(l.items, r.itemId);
      var i :| 0 <= i < |l.items| && l.items[i].itemId == r.itemId;
      assert LoopItemFits(l, d, s, known, i);
      if s.owner[r.itemId] in s.start { assert Continues(d, s, s.owner[r.itemId]); }
    }
  }

  /**
   * A run, even one that is broken off, never executes work that is SUCCEEDED in the ledger, nor BLOCKED
   * work unless told to retry it; and it leaves a ledger another run can start from, in which everything
   * is recorded that was handed in.
   */
  lemma RunExecutesOpenWork(
    s: Setting, resumed: seq<Item>, seeds: seq<Item>, policy: Policy, script: Script, onlyBlocked: bool)
    requires RunInputs(s, resumed, seeds, policy, script)
    ensures
      var e := RunOver(s, resumed, seeds, policy, script, onlyBlocked);
      && ExecutedOpenWork(e.loop.records, s) && LedgerFits(e.desk.records, s.owner)
      && Iterations(e) <= |script.turns| && OnlyKnown(e.desk.records, HandedBy(seeds, script.turns, Iterations(e)))
  {
    var e := RunOver(s, resumed, seeds, policy, script, onlyBlocked);
    RunFits(s, resumed, seeds, policy, script, onlyBlocked);
    var n, failed :| OverWith(e, s, seeds, script.turns, n, failed);
    var handed := HandedBy(seeds, script.turns, n);
    LoopExecuted(e.loop, e.desk, s, Given(seeds, script.turns, n, failed), handed);
    LedgerStaysFit(e.desk, s, handed);
    AllRecorded(e.desk, s, handed);
  }

  ghost predicate OnlyKnown(m: Records, candidates: seq<Item>) {
    forall c :: c in candidates ==> c.fingerprint in m
  }

  lemma AllRecorded(d: Desk, s: Setting, handed: seq<Item>)
    requires DeskFits(d, s, handed)
    ensures OnlyKnown(d.records, handed)
  {
    forall c | c in handed ensures c.fingerprint in d.records {
      HandingsFrom(handed, c.fingerprint);
      assert c in Handings(handed, c.fingerprint);
      assert Recorded(d, s, c.fingerprint);
    }
  }

  /** Whatever was seeded is in the ledger when the run is over. */
  lemma SeedsAreRecorded(
    s: Setting, resumed: seq<Item>, seeds: seq<Item>, policy: Policy, script: Script, onlyBlocked: bool)
    requires RunInputs(s, resumed, seeds, policy, script)
    ensures OnlyKnown(RunOver(s, resumed, seeds, policy, script, onlyBlocked).desk.records, seeds)
  {
    RunExecutesOpenWork(s, resumed, seeds, policy, script, onlyBlocked);
    SeedsHandedIn(seeds, script.turns, Iterations(RunOver(s, resumed, seeds, policy, script, onlyBlocked)));
  }

  lemma {:induction false} SeedsHandedIn(seeds: seq<Item>, turns: seq<SourceTurn>, n: nat)
    requires n <= |turns|
    ensures seeds <= HandedBy(seeds, turns, n)
  {
    if n > 0 { SeedsHandedIn(seeds, turns, n - 1); }
  }

  // ----- running again

  /** The ids of recorded work only. */
  ghost function Known(s: Setting): Setting {
    s.(owner := map id | id in s.owner && s.owner[id] in s.start :: s.owner[id])
  }

  /** Only content the ledger knows is handed in. */
  ghost predicate NothingNew(s: Setting, seeds: seq<Item>, turns: seq<SourceTurn>) {
    OnlyKnown(s.start, seeds) && forall i :: 0 <= i < |turns| ==> OnlyKnown(s.start, turns[i].candidates)
  }

  lemma KnownInputs(s: Setting, resumed: seq<Item>, seeds: seq<Item>, policy: Policy, script: Script)
    requires RunInputs(s, resumed, seeds, policy, script) && NothingNew(s, seeds, script.turns)
    ensures RunInputs(Known(s), resumed, seeds, policy, script)
  {
    forall i | 0 <= i < |script.turns| ensures Candidates(Known(s).owner, script.turns[i].candidates) {
      assert Candidates(s.owner, script.turns[i].candidates) && OnlyKnown(s.start, script.turns[i].candidates);
    }
  }

  /** Every attempt was on recorded work that was open, or that was blocked and is to be retried. */
  ghost predicate ExecutedRecorded(records: seq<IterationRecord>, s: Setting) {
    forall r :: r in records ==>
      && r.itemId in s.owner && s.owner[r.itemId] in s.start
      && Reopen(s.start[s.owner[r.itemId]], s.retryBlocked).Some?
  }

  /** A run that is handed only content the ledger already knows executes nothing but what it has open. */
  lemma RerunExecutesRecorded(
    s: Setting, resumed: seq<Item>, seeds: seq<Item>, policy: Policy, script: Script, onlyBlocked: bool)
    requires RunInputs(s, resumed, seeds, policy, script) && NothingNew(s, seeds, script.turns)
    ensures ExecutedRecorded(RunOver(s, resumed, seeds, policy, script, onlyBlocked).loop.records, s)
  {
    KnownInputs(s, resumed, seeds, policy, script);
    RunExecutesOpenWork(Known(s), resumed, seeds, policy, script, onlyBlocked);
    var e := RunOver(s, resumed, seeds, policy, script, onlyBlocked);
    assert RunOver(Known(s), resumed, seeds, policy, script, onlyBlocked) == e;
    forall r | r in e.loop.records
      ensures r.itemId in s.owner && s.owner[r.itemId] in s.start
      ensures Reopen(s.start[s.owner[r.itemId]], s.retryBlocked).Some?
    {
      assert r.itemId in Known(s).owner;
    }
  }

  /** Every attempt was on work that was recorded as PENDING, or lost in flight by the run before. */
  ghost predicate ExecutedLeftovers(
    records: seq<IterationRecord>, s': Setting, s: Setting, seeds: seq<Item>, turns: seq<SourceTurn>, n: nat)
    requires n <= |turns|
  {
    forall r :: r in records ==>
      && r.itemId in s'.owner && s'.owner[r.itemId] in s'.start
      && (s'.start[s'.owner[r.itemId]].state == PENDING || LostInFlight(s, seeds, turns, n, s'.owner[r.itemId]))
  }

  /**
   * Repeating a run that returned a report, with contents it recorded, as seeds or from the sources,
   * executes only what the first run left PENDING, or lost in flight when its discovery failed.
   */
  lemma RepeatedRunExecutesOnlyPending(
    s: Setting, resumed: seq<Item>, seeds: seq<Item>, policy: Policy, script: Script, onlyBlocked: bool,
    s': Setting, resumed': seq<Item>, seeds': seq<Item>, policy': Policy, script': Script)
    requires RunInputs(s, resumed, seeds, policy, script)
    requires RunInputs(s', resumed', seeds', policy', script') && !s'.retryBlocked && NothingNew(s', seeds', script'.turns)
    requires RunOver(s, resumed, seeds, policy, script, onlyBlocked).Ended?
    requires s'.start == RunOver(s, resumed, seeds, policy, script, onlyBlocked).desk.records
    ensures
      var e := RunOver(s, resumed, seeds, policy, script, onlyBlocked);
      && e.report.iterations <= |script.turns|
      && ExecutedLeftovers(
           RunOver(s', resumed', seeds', policy', script', onlyBlocked).loop.records, s', s, seeds, script.turns,
           e.report.iterations)
  {
    var e := RunOver(s, resumed, seeds, policy, script, onlyBlocked);
    var e' := RunOver(s', resumed', seeds', policy', script', onlyBlocked);
    RunExecutesOpenWork(s, resumed, seeds, policy, script, onlyBlocked);
    RerunExecutesRecorded(s', resumed', seeds', policy', script', onlyBlocked);
    forall r | r in e'.loop.records
      ensures
        && r.itemId in s'.owner && s'.owner[r.itemId] in s'.start
        && (s'.start[s'.owner[r.itemId]].state == PENDING
            || LostInFlight(s, seeds, script.turns, e.report.iterations, s'.owner[r.itemId]))
    {
      InFlightExactlyIfLost(s, resumed, seeds, policy, script, onlyBlocked, s'.owner[r.itemId]);
    }
  }

  // ----- many runs, broken off or not

  /** A run never touches a record that was closed when it began, however it ends. */
  lemma ClosedRecordsStay(
    s: Setting, resumed: seq<Item>, seeds: seq<Item>, policy: Policy, script: Script, onlyBlocked: bool, f: Fingerprint)
    requires RunInputs(s, resumed, seeds, policy, script)
    requires f in s.start && Reopen(s.start[f], s.retryBlocked).None?
    ensures
      var m := RunOver(s, resumed, seeds, policy, script, onlyBlocked).desk.records;
      f in m && m[f] == s.start[f]
  {
    var e := RunOver(s, resumed, seeds, policy, script, onlyBlocked);
    RunFits(s, resumed, seeds, policy, script, onlyBlocked);
    var n, failed :| OverWith(e, s, seeds, script.turns, n, failed);
    assert Continues(e.desk, s, f);
  }

  datatype FileRun = FileRun(s: Setting, resumed: seq<Item>, seeds: seq<Item>, policy: Policy, script: Script) {
    function Over(): Ended
      requires Enough(script, policy)
    {
      RunOver(s, resumed, seeds, policy, script, true)
    }
  }

  /**
   * Runs over one ledger file, each from what the one before left. A run that is killed between two
   * replacements of the file leaves what a run leaves that is broken off at the next one.
   */
  ghost predicate OneAfterAnother(runs: seq<FileRun>) {
    && (forall i :: 0 <= i < |runs| ==> RunInputs(runs[i].s, runs[i].resumed, runs[i].seeds, runs[i].policy, runs[i].script))
    && (forall i :: 0 < i < |runs| ==> runs[i].s.start == runs[i - 1].Over().desk.records)
  }

  /** Work recorded as SUCCEEDED when a run begins is so after every later run, and none of them executes it. */
  lemma {:induction false} SuccessSurvivesRuns(runs: seq<FileRun>, i: nat, k: nat, f: Fingerprint)
    requires OneAfterAnother(runs) && i <= k < |runs|
    requires f in runs[i].s.start && runs[i].s.start[f].state == SUCCEEDED
    ensures
      var e := runs[k].Over();
      && f in e.desk.records && e.desk.records[f] == runs[i].s.start[f]
      && forall r :: r in e.loop.records ==> r.itemId in runs[k].s.owner && runs[k].s.owner[r.itemId] != f
  {
    if i < k { SuccessSurvivesRuns(runs, i, k - 1, f); }
    var run := runs[k];
    assert f in run.s.start && run.s.start[f] == runs[i].s.start[f];
    ClosedRecordsStay(run.s, run.resumed, run.seeds, run.policy, run.script, true, f);
    RunExecutesOpenWork(run.s, run.resumed, run.seeds, run.policy, run.script, true);
  }

  // ----- what happens to work that is not handed in plainly

  /** The first discovery yields nothing and does not fail, and the last checkpoint is stored. */
  predicate QuietStart(script: Script) {
    && |script.turns| > 0 && script.lastSaving.Works?
    && script.turns[0].candidates == [] && script.turns[0].refused.None? && script.turns[0].error.None?
  }

  lemma IdleTurn(l: Loop, d: Desk, policy: Policy, turn: SourceTurn, retryBlocked: bool)
    requires |l.items| == |l.accepted| && l.blocked == [] && forall x :: x in l.items ==> x.state != PENDING
    requires turn.candidates == [] && turn.refused.None? && turn.error.None?
    ensures
      var r := OneTurn(l, policy, Seen(d, turn, retryBlocked), 1);
      r == Stop(l, COMPLETED, "", []) && Keep(l, d, turn, retryBlocked, r) == d
  {
  }

  lemma IdleEnd(l: Loop, d: Desk)
    requires l.blocked == []
    ensures
      var e := Finish(l, d, 1, COMPLETED, "", Works);
      && e.Ended? && e.report.state == COMPLETED && e.report.records == l.records && e.report.completed == l.completed
      && e.report.blocked == [] && e.report.pending == PendingIds(l.items)
      && e.desk == Record(d, [Checkpoint(1, COMPLETED, None, l.completed, [], PendingIds(l.items))])
  {
    assert Uniq<ItemId>([]) == [];
  }

  /** A run over work none of which is pending ends at once, as COMPLETED. */
  lemma IdleRun(l: Loop, d: Desk, policy: Policy, script: Script, retryBlocked: bool, e: Ended)
    requires Enough(script, policy) && QuietStart(script)
    requires |l.items| == |l.accepted| && l.blocked == [] && forall x :: x in l.items ==> x.state != PENDING
    requires e == Pipeline.RunFrom(l, d, policy, script, 1, retryBlocked)
    ensures e == Finish(l, d, 1, COMPLETED, "", Works)
  {
    RunFromCases(l, d, policy, script, 1, retryBlocked, e);
    IdleTurn(l, d, policy, script.turns[0], retryBlocked);
    assert Record(d, []) == d;
  }

  lemma OneStored(m: Records, item: Item, cp: Checkpoint)
    ensures Record(Desk(m, [item]), [cp]).records == m[item.fingerprint := ToPersist(item, cp)]
  {
    RecordOne(Desk(m, [item]), cp);
    assert [item][..0] == [];
    assert AfterCheckpoint(m, cp, [item][..0]) == m;
  }

  lemma OneRestored(item: Item)
    ensures RegisterAll(map[], [item], false) == map[item.fingerprint := item]
    ensures RestoreAll(map[], [item], false) == [item] && PutAll([], [item]) == [item]
  {
    var m: Records := map[];
    assert [item][..0] == [];
    assert RegisterAll(m, [], false) == m && RestoreAll(m, [], false) == [];
  }

  lemma OneSeed(item: Item)
    ensures RestoreAll(map[], [item], false) == [item]
    ensures Seeded(map[], [], [item], false) == Desk(map[item.fingerprint := item], [item])
    ensures AcceptAll(EMPTY_LOOP, [] + [item]) == Accept(EMPTY_LOOP, item) && Accept(EMPTY_LOOP, item).items == [item]
  {
    OneRestored(item);
    assert [] + [item] == [item];
    AcceptOne(EMPTY_LOOP, item);
  }

  lemma OnlyOpenRecord(item: Item, f: Fingerprint)
    requires item.state == PENDING
    ensures ListsBlocked([], map[f := item])
  {
  }

  lemma StuckEnd(l: Loop, item: Item)
    requires l == Accept(EMPTY_LOOP, item) && InFlight(item.state)
    ensures
      var e := Finish(l, Desk(map[item.fingerprint := item], [item]), 1, COMPLETED, "", Works);
      && e.Ended? && e.report.state == COMPLETED && e.report.records == []
      && e.desk.records == map[item.fingerprint := item.(state := PENDING)]
  {
    var m := map[item.fingerprint := item];
    IdleEnd(l, Desk(m, [item]));
    PendingOfOne(item);
    OneStored(m, item, Checkpoint(1, COMPLETED, None, [], [], [item.itemId]));
  }

  /**
   * A seed handed in as RUNNING or VALIDATING is registered, never attempted, stored as PENDING by the
   * last checkpoint, and the run still reports COMPLETED.
   */
  lemma RunningSeedIsLost(item: Item, policy: Policy, script: Script)
    requires Enough(script, policy) && QuietStart(script) && InFlight(item.state)
    ensures
      var e := RunLocked(map[], [], [item], policy, script, false);
      && e.Ended? && FinalReport(e.report, []).state == COMPLETED && e.report.records == []
      && e.desk.records == map[item.fingerprint := item.(state := PENDING)] && ListsBlocked([], e.desk.records)
  {
    var l, d := Accept(EMPTY_LOOP, item), Desk(map[item.fingerprint := item], [item]);
    OneSeed(item);
    IdleRun(l, d, policy, script, false, RunLocked(map[], [], [item], policy, script, false));
    StuckEnd(l, item);
    OnlyOpenRecord(item.(state := PENDING), item.fingerprint);
  }

  lemma PutTwice(item: Item, again: Item)
    requires again.itemId == item.itemId
    ensures PutAll([], [item, again]) == [again]
  {
    assert [item][..0] == [] && [item, again][..1] == [item];
    assert PutAll([], [item]) == [item];
    var at := IndexOf([item], again.itemId);
    assert at == 0 && Put([item], at, again) == [again];
  }

  lemma RestoredTwice(item: Item, again: Item)
    requires item.state == BLOCKED && again == item.(state := PENDING, attempts := 0)
    ensures RestoreAll(map[], [item, item], true) == [item, again]
    ensures RegisterAll(map[], [item, item], true) == map[item.fingerprint := again]
  {
    var m: Records := map[];
    assert [item, item][..1] == [item] && [item][..0] == [];
    assert RegisterAll(m, [], true) == m && RestoreAll(m, [], true) == [];
    assert RegisterAll(m, [item], true) == m[item.fingerprint := item] && RestoreAll(m, [item], true) == [item];
    assert RegisterAll(m, [item, item], true) == m[item.fingerprint := again];
  }

  lemma AcceptedOnce(item: Item, again: Item)
    requires again.fingerprint == item.fingerprint
    ensures AcceptAll(EMPTY_LOOP, [item, again]) == Accept(EMPTY_LOOP, item)
  {
    assert [item][..0] == [] && [item, again][..1] == [item];
    assert AcceptAll(EMPTY_LOOP, [item]) == Accept(EMPTY_LOOP, item);
  }

  lemma TwoSeeds(item: Item)
    requires item.state == BLOCKED
    ensures
      var again := item.(state := PENDING, attempts := 0);
      && RestoreAll(map[], [item, item], true) == [item, again]
      && Seeded(map[], [], [item, item], true) == Desk(map[item.fingerprint := again], [again])
      && AcceptAll(EMPTY_LOOP, [] + [item, again]) == Accept(EMPTY_LOOP, item)
      && Accept(EMPTY_LOOP, item).items == [item]
  {
    var again := item.(state := PENDING, attempts := 0);
    RestoredTwice(item, again);
    PutTwice(item, again);
    AcceptOne(EMPTY_LOOP, item);
    AcceptedOnce(item, again);
    hide RestoreAll, RegisterAll, PutAll, AcceptAll, Accept;
    assert [] + [item, again] == [item, again];
  }

  /**
   * A BLOCKED item seeded twice is reopened in the ledger, but the loop keeps it BLOCKED: a run that is
   * told to retry blocked work reports COMPLETED with empty lists, and leaves the record PENDING.
   */
  lemma BlockedSeedIsLost(item: Item, policy: Policy, script: Script)
    requires Enough(script, policy) && QuietStart(script) && item.state == BLOCKED
    ensures
      var e := RunLocked(map[], [], [item, item], policy, script, true);
      && e.Ended? && FinalReport(e.report, []).state == COMPLETED && e.report.records == []
      && e.report.completed == e.report.blocked == e.report.pending == []
      && e.desk.records == map[item.fingerprint := item.(state := PENDING, attempts := 0)]
      && ListsBlocked([], e.desk.records)
  {
    var again := item.(state := PENDING, attempts := 0);
    var l, d := Accept(EMPTY_LOOP, item), Desk(map[item.fingerprint := again], [again]);
    TwoSeeds(item);
    IdleRun(l, d, policy, script, true, RunLocked(map[], [], [item, item], policy, script, true));
    LostEnd(l, item, again);
    OnlyOpenRecord(again, item.fingerprint);
  }

  lemma LostEnd(l: Loop, item: Item, again: Item)
    requires l == Accept(EMPTY_LOOP, item) && item.state == BLOCKED && again.state == PENDING
    ensures
      var e := Finish(l, Desk(map[again.fingerprint := again], [again]), 1, COMPLETED, "", Works);
      && e.Ended? && e.report.state == COMPLETED && e.report.records == []
      && e.report.completed == e.report.blocked == e.report.pending == []
      && e.desk.records == map[again.fingerprint := again]
  {
    var m := map[again.fingerprint := again];
    IdleEnd(l, Desk(m, [again]));
    PendingOfOne(item);
    OneStored(m, again, Checkpoint(1, COMPLETED, None, [], [], []));
  }

  lemma FailedFirstTurn(item: Item, policy: Policy, turn: SourceTurn)
    requires turn.candidates == [item] && turn.refused.None? && turn.error.Some?
    ensures
      var d := Desk(map[], []);
      var r := OneTurn(EMPTY_LOOP, policy, Seen(d, turn, false), 1);
      && r.Stop? && r.loop == EMPTY_LOOP && r.checkpoints == [] && r.state == HALTED
      && Keep(EMPTY_LOOP, d, turn, false, r) == Desk(map[item.fingerprint := item], [item])
  {
    OneRestored(item);
    TurnCases(EMPTY_LOOP, Desk(map[], []), policy, turn, 1, false);
  }

  lemma FailedEnd(item: Item, reason: string)
    ensures
      var e := Finish(EMPTY_LOOP, Desk(map[item.fingerprint := item], [item]), 1, HALTED, reason, Works);
      e.Ended? && e.desk.records == map[item.fingerprint := item]
  {
    var m, cp := map[item.fingerprint := item], Checkpoint(1, HALTED, None, [], [], []);
    assert Uniq<ItemId>([]) == [] && PendingIds([]) == [];
    OneStored(m, item, cp);
    assert ToPersist(item, cp) == item;
  }

  lemma NothingSeeded()
    ensures RestoreAll(map[], [], false) == [] && Seeded(map[], [], [], false) == Desk(map[], [])
    ensures AcceptAll(EMPTY_LOOP, [] + []) == EMPTY_LOOP
  {
    var none: seq<Item> := [];
    assert none + none == none;
  }

  /** A new item that a source yields as RUNNING, before a source fails, is left RUNNING in the ledger. */
  lemma FailingSourceLeavesRunning(item: Item, policy: Policy, script: Script)
    requires Enough(script, policy) && script.lastSaving.Works? && item.state == RUNNING
    requires script.turns[0].candidates == [item] && script.turns[0].refused.None? && script.turns[0].error.Some?
    ensures
      var e := RunLocked(map[], [], [], policy, script, false);
      e.Ended? && e.desk.records == map[item.fingerprint := item]
  {
    var d := Desk(map[item.fingerprint := item], [item]);
    NothingSeeded();
    FirstFails(policy, script, d, RunLocked(map[], [], [], policy, script, false));
    FailedFirstTurn(item, policy, script.turns[0]);
    var r := OneTurn(EMPTY_LOOP, policy, Seen(Desk(map[], []), script.turns[0], false), 1);
    FailedEnd(item, r.reason);
  }

  /** A run that ends in its first iteration. */
  lemma FirstFails(policy: Policy, script: Script, d: Desk, e: Ended)
    requires Enough(script, policy) && e == Pipeline.RunFrom(EMPTY_LOOP, Desk(map[], []), policy, script, 1, false)
    ensures
      var r := OneTurn(EMPTY_LOOP, policy, Seen(Desk(map[], []), script.turns[0], false), 1);
      r.Stop? && r.checkpoints == [] && Keep(EMPTY_LOOP, Desk(map[], []), script.turns[0], false, r) == d ==>
      e == Finish(r.loop, d, 1, r.state, r.reason, script.lastSaving)
  {
    RunFromCases(EMPTY_LOOP, Desk(map[], []), policy, script, 1, false, e);
    assert Record(d, []) == d;
  }
}
