/** The pipeline object over the file ledger, any access to which may fail. */
module PipelineService {
  import opened Work
  import opened UpgradeLoop
  import opened Ledger
  import J = JsonLedger
  import P = Pipeline
  import T = PipelineTheorems

  datatype RunResult = Finished(report: Report) | LedgerFailed | Closed | LeaseHeld

  /** The resumable work can be loaded: the file is readable, well keyed, and written if blocked work is reopened. */
  ghost predicate Loads(m: Records, readable: bool, retryBlocked: bool, access: Access) {
    && readable && !access.ReadFails? && J.Resumables(m, retryBlocked)
    && (access.Works? || !retryBlocked || NoneBlocked(m))
  }

  class ContinuousEngineeringPipeline {
    const ledger: J.JsonUpgradeLedger
    const policy: Policy
    const retryBlocked: bool
    var itemsById: seq<Item>
    var closed: bool

    ghost predicate Valid()
      reads this, ledger
    {
      ValidPolicy(policy) && ledger.maxCheckpoints >= 1
    }

    /** The file is missing or holds a ledger: no more than what is true of it once it was loaded. */
    ghost predicate Readable()
      reads this, ledger
    {
      J.Contents(ledger.file).Ok?
    }

    ghost function Desk(): P.Desk
      reads this, ledger
    {
      P.Desk(if Readable() then J.Contents(ledger.file).value.records else map[], itemsById)
    }

    constructor (ledger: J.JsonUpgradeLedger, policy: Policy, retryBlocked: bool)
      requires ValidPolicy(policy) && ledger.maxCheckpoints >= 1
      ensures Valid() && itemsById == [] && !closed
      ensures this.ledger == ledger && this.policy == policy && this.retryBlocked == retryBlocked
    {
      this.ledger, this.policy, this.retryBlocked, itemsById, closed := ledger, policy, retryBlocked, [], false;
    }

    /** A candidate is restored or registered; a closed one needs no write; a failure changes nothing. */
    method Restore(item: Item, access: Access) returns (restored: LedgerResult<Option<Item>>)
      requires Valid()
      modifies ledger
      ensures Valid() && Readable() == old(Readable())
      ensures restored.Ok? <==>
        && old(Readable()) && !access.ReadFails?
        && (access.Works? || Restored(old(Desk()).records, item, retryBlocked).None?)
      ensures restored.Ok? ==>
        && restored.value == Restored(old(Desk()).records, item, retryBlocked)
        && Desk() == old(Desk()).(records := Registered(old(Desk()).records, item, retryBlocked))
      ensures restored.Err? ==> ledger.file == old(ledger.file)
    {
      restored := ledger.RestoreOrRegister(item, retryBlocked, access);
    }

    /** Restores the given items one by one and returns those that may be worked on. */
    method RestoreEach(items: seq<Item>) returns (restored: seq<Item>)
      requires Valid() && Readable()
      modifies ledger
      ensures Valid() && Readable()
      ensures restored == P.RestoreAll(old(Desk()).records, items, retryBlocked)
      ensures Desk() == old(Desk()).(records := P.RegisterAll(old(Desk()).records, items, retryBlocked))
    {
      restored := [];
      for k := 0 to |items|
        invariant Valid() && Readable()
        invariant restored == P.RestoreAll(old(Desk()).records, items[..k], retryBlocked)
        invariant Desk() == old(Desk()).(records := P.RegisterAll(old(Desk()).records, items[..k], retryBlocked))
      {
        assert items[..k + 1][..k] == items[..k];
        var next := Restore(items[k], Works);
        if next.value.Some? { restored := restored + [next.value.value]; }
      }
      assert items[..|items|] == items;
    }

    method Remember(items: seq<Item>)
      requires Valid() && Readable()
      modifies this`itemsById
      ensures Valid() && Desk() == old(Desk()).(copies := P.PutAll(old(itemsById), items))
    {
      for k := 0 to |items|
        invariant Valid() && itemsById == P.PutAll(old(itemsById), items[..k])
      {
        assert items[..k + 1][..k] == items[..k];
        itemsById := P.PutItem(itemsById, items[k]);
      }
      assert items[..|items|] == items;
    }

    /** The ledger cannot be read, or has to be written for the item: for new work, and for work it does not withhold. */
    ghost predicate Fails(refused: P.Refusal)
      reads this, ledger
    {
      var m := Desk().records;
      !refused.readable || refused.item.fingerprint !in m || !Withheld(m[refused.item.fingerprint], retryBlocked)
    }

    /** Whether the ledger fails on one more item; nothing changes in either case. */
    method Refuse(refused: Option<P.Refusal>) returns (fails: bool)
      requires Valid() && Readable()
      modifies ledger
      ensures Valid() && Readable() && Desk() == old(Desk())
      ensures fails == (refused.Some? && P.Refuses(old(Desk()).records, refused.value, retryBlocked))
      ensures fails == (refused.Some? && Fails(refused.value))
    {
      if refused.None? { return false; }
      var r := Restore(refused.value.item, if refused.value.readable then WriteFails else ReadFails);
      return r.Err?;
    }

    /** Candidates reach the ledger and the dictionary even when the ledger or a source fails after them. */
    method Discover(turn: P.SourceTurn) returns (discovery: Discovery)
      requires Valid() && Readable()
      modifies this`itemsById, ledger
      ensures Valid() && Readable() && Desk() == P.Discover(old(Desk()), turn.candidates, retryBlocked)
      ensures Turn(discovery, turn.outcome) == P.Seen(old(Desk()), turn, retryBlocked)
      ensures
        discovery.error == if turn.refused.Some? && Fails(turn.refused.value) then Some("UpgradeLedgerError") else turn.error
      ensures discovery.error.Some? ==> discovery.items == []
    {
      var items := RestoreEach(turn.candidates);
      Remember(items);
      var fails := Refuse(turn.refused);
      var error := if fails then Some("UpgradeLedgerError") else turn.error;
      discovery := Discovery(if error.Some? then [] else items, error);
    }

    /** Stores checkpoints from the dictionary; if the ledger fails nothing is stored. */
    method SaveCheckpoints(cps: seq<Checkpoint>, saving: Access) returns (ok: bool)
      requires Valid() && Readable()
      modifies ledger
      ensures Valid() && Readable()
      ensures ok <==> cps == [] || saving.Works?
      ensures Desk() == if ok then P.Record(old(Desk()), cps) else old(Desk())
    {
      for k := 0 to |cps|
        invariant Valid() && Readable() && Desk() == P.Record(old(Desk()), cps[..k])
        invariant k > 0 ==> saving.Works?
      {
        assert cps[..k + 1][..k] == cps[..k];
        var r := ledger.RecordCheckpoint(cps[k], itemsById, saving);
        if r.Err? { return false; }
      }
      assert cps[..|cps|] == cps;
      return true;
    }

    /** One iteration of the loop, with discovery before it and checkpoints after its attempt. */
    method Iterate(
      loop: ContinuousUpgradeLoop, turn: P.SourceTurn, iteration: nat,
      completed: seq<ItemId>, blocked: seq<ItemId>, records: seq<IterationRecord>, noProgress: nat)
      returns (
        raised: bool, state: LoopState, haltReason: string,
        completed': seq<ItemId>, blocked': seq<ItemId>, records': seq<IterationRecord>, noProgress': nat)
      requires Valid() && Readable() && loop.Valid() && loop.policy == policy
      modifies this`itemsById, ledger, loop
      ensures Valid() && Readable() && loop.Valid()
      ensures
        var before := old(loop.View(completed, blocked, records, noProgress));
        var r := OneTurn(before, policy, P.Seen(old(Desk()), turn, retryBlocked), iteration);
        var kept := P.Keep(before, old(Desk()), turn, retryBlocked, r);
        && loop.View(completed', blocked', records', noProgress') == r.loop
        && raised == P.Breaks(turn, r) && Desk() == (if raised then kept else P.Record(kept, r.checkpoints))
        && if r.Continue? then state == LOOP_RUNNING && haltReason == "" else state == r.state && haltReason == r.reason
    {
      var discovery := Discover(turn);
      var attempted, emitted;
      state, haltReason, attempted, emitted, completed', blocked', records', noProgress' :=
        loop.Iterate(Turn(discovery, turn.outcome), iteration, completed, blocked, records, noProgress);
      if attempted.Some? {
        itemsById := P.PutItem(itemsById, loop.items[attempted.value]);
      }
      var ok := SaveCheckpoints(emitted, turn.saving);
      raised := !ok;
    }

    /** After one more iteration, what is left of the run is the rest of it, unless it was broken off. */
    method IterateOnce(
      loop: ContinuousUpgradeLoop, script: P.Script, iteration: nat,
      completed: seq<ItemId>, blocked: seq<ItemId>, records: seq<IterationRecord>, noProgress: nat)
      returns (
        raised: bool, state: LoopState, haltReason: string,
        completed': seq<ItemId>, blocked': seq<ItemId>, records': seq<IterationRecord>, noProgress': nat)
      requires Valid() && Readable() && loop.Valid() && loop.policy == policy
      requires P.Enough(script, policy) && 1 <= iteration <= policy.maxIterations
      modifies this`itemsById, ledger, loop
      ensures Valid() && Readable() && loop.Valid() && (state == LOOP_RUNNING ==> haltReason == "")
      ensures
        P.Rest(old(loop.View(completed, blocked, records, noProgress)), old(Desk()),
               policy, script, iteration - 1, LOOP_RUNNING, "", retryBlocked)
        == if raised then P.Broken(loop.View(completed', blocked', records', noProgress'), iteration, Desk())
           else P.Rest(loop.View(completed', blocked', records', noProgress'), Desk(),
                       policy, script, iteration, state, haltReason, retryBlocked)
    {
      ghost var l, d := loop.View(completed, blocked, records, noProgress), Desk();
      raised, state, haltReason, completed', blocked', records', noProgress' :=
        Iterate(loop, script.turns[iteration - 1], iteration, completed, blocked, records, noProgress);
      P.RestNext(l, d, policy, script, iteration, state, haltReason, retryBlocked);
    }

    method IterateAll(loop: ContinuousUpgradeLoop, script: P.Script)
      returns (
        raised: bool, iterations: nat, state: LoopState, haltReason: string,
        completed: seq<ItemId>, blocked: seq<ItemId>, records: seq<IterationRecord>, noProgress: nat)
      requires Valid() && Readable() && loop.Valid() && loop.policy == policy && P.Enough(script, policy)
      modifies this`itemsById, ledger, loop
      ensures Valid() && Readable() && loop.Valid()
      ensures iterations <= policy.maxIterations
      ensures !raised && state == LOOP_RUNNING ==> iterations == policy.maxIterations && haltReason == ""
      ensures
        P.Rest(old(loop.View([], [], [], 0)), old(Desk()), policy, script, 0, LOOP_RUNNING, "", retryBlocked)
        == if raised then P.Broken(loop.View(completed, blocked, records, noProgress), iterations, Desk())
           else P.Rest(loop.View(completed, blocked, records, noProgress), Desk(),
                       policy, script, iterations, state, haltReason, retryBlocked)
    {
      hide P.Rest;
      records, completed, blocked, noProgress := [], [], [], 0;
      raised, iterations, state, haltReason := false, 0, LOOP_RUNNING, "";
      ghost var l, d := loop.View([], [], [], 0), Desk();
      ghost var goal := P.Rest(l, d, policy, script, 0, LOOP_RUNNING, "", retryBlocked);
      while iterations < policy.maxIterations && state == LOOP_RUNNING && !raised
        invariant Valid() && Readable() && loop.Valid() && iterations <= policy.maxIterations
        invariant !raised && state == LOOP_RUNNING ==> haltReason == ""
        invariant l == loop.View(completed, blocked, records, noProgress) && d == Desk()
        invariant goal ==
          if raised then P.Broken(l, iterations, d)
          else P.Rest(l, d, policy, script, iterations, state, haltReason, retryBlocked)
        decreases policy.maxIterations - iterations
      {
        iterations := iterations + 1;
        raised, state, haltReason, completed, blocked, records, noProgress :=
          IterateOnce(loop, script, iterations, completed, blocked, records, noProgress);
        l, d := loop.View(completed, blocked, records, noProgress), Desk();
      }
    }

    /** The loop to its end, with the last checkpoint. */
    method Drive(loop: ContinuousUpgradeLoop, script: P.Script) returns (report: Option<Report>)
      requires Valid() && Readable() && loop.Valid() && loop.policy == policy && P.Enough(script, policy)
      modifies this`itemsById, ledger, loop
      ensures Valid() && Readable()
      ensures
        var e := P.Rest(old(loop.View([], [], [], 0)), old(Desk()), policy, script, 0, LOOP_RUNNING, "", retryBlocked);
        Desk() == e.desk && report == if e.Ended? then Some(e.report) else None
      ensures report.Some? ==> NoDup(report.value.blocked)
    {
      var raised, iterations, state, haltReason, completed, blocked, records, noProgress := IterateAll(loop, script);
      if raised { return None; }
      P.RestDone(
        loop.View(completed, blocked, records, noProgress), Desk(), policy, script, iterations, state, haltReason, retryBlocked);
      var full, last := loop.Summarise(iterations, state, haltReason, completed, blocked, records, noProgress);
      var ok := SaveCheckpoints([last], script.lastSaving);
      report := if ok then Some(full) else None;
    }

    /** Blocked work from earlier runs is reported, and keeps a run from being complete. */
    static method MergeBlocked(report: Report, persisted: seq<ItemId>) returns (r: Report)
      ensures r == P.FinalReport(report, persisted)
      ensures
        if report.state == COMPLETED && persisted != [] then
          r.state == HALTED && r.haltReason == "persisted_blocked_work_remaining"
        else r.state == report.state && r.haltReason == report.haltReason
      ensures r.state == COMPLETED <==> report.state == COMPLETED && persisted == []
      ensures forall id :: id in r.blocked <==> id in report.blocked || id in persisted
      ensures NoDup(report.blocked) ==> report.blocked <= r.blocked && NoDup(r.blocked)
      ensures r.iterations == report.iterations
      ensures r.completed == report.completed && r.pending == report.pending && r.records == report.records
    {
      if NoDup(report.blocked) { T.UniqKeeps(report.blocked, persisted); }
      if persisted == [] { return report; }
      r := report.(blocked := Uniq(report.blocked + persisted));
      if report.state == COMPLETED {
        r := r.(state := HALTED, haltReason := "persisted_blocked_work_remaining");
      }
    }

    /** What the ledger hands out and the seeds that may be worked on, all in the dictionary, unless the ledger fails. */
    method Resume(loading: Access, seeds: seq<Item>, refused: Option<P.Refusal>)
      returns (seed: Option<seq<Item>>, ghost resumed: seq<Item>)
      requires Valid() && itemsById == []
      modifies this`itemsById, ledger
      ensures Valid()
      ensures
        var m, loads := old(Desk()).records, Loads(old(Desk()).records, old(Readable()), retryBlocked, loading);
        var loaded := ResetAll(m, retryBlocked, true);
        && (!loads ==> seed.None? && ledger.file == old(ledger.file) && itemsById == [])
        && (loads ==>
              && Readable() && Lists(resumed, Resumable(m, retryBlocked))
              && Desk().records == P.RegisterAll(loaded, seeds, retryBlocked)
              && (seed.None? <==> refused.Some? && P.Refuses(Desk().records, refused.value, retryBlocked))
              && (seed.None? ==> itemsById == [])
              && (seed.Some? ==>
                    && seed.value == resumed + P.RestoreAll(loaded, seeds, retryBlocked)
                    && Desk() == P.Seeded(loaded, resumed, seeds, retryBlocked)))
    {
      var load := ledger.LoadResumable(retryBlocked, loading);
      if load.Err? { return None, []; }
      resumed := load.value;
      var restored := RestoreEach(seeds);
      var fails := Refuse(refused);
      if fails { return None, resumed; }
      seed := Some(load.value + restored);
      Remember(seed.value);
    }

    /** The loop over what was resumed and seeded, and a report that knows of blocked work from before. */
    method RunSeeded(
      ghost loaded: Records, ghost resumed: seq<Item>, ghost seeds: seq<Item>, seed: seq<Item>,
      script: P.Script, lastReading: Access)
      returns (r: RunResult, ghost persisted: seq<ItemId>)
      requires Valid() && Readable() && P.Enough(script, policy)
      requires seed == resumed + P.RestoreAll(loaded, seeds, retryBlocked)
      requires Desk() == P.Seeded(loaded, resumed, seeds, retryBlocked)
      modifies this`itemsById, ledger
      ensures Valid() && Readable()
      ensures
        var e := P.RunLocked(loaded, resumed, seeds, policy, script, retryBlocked);
        && Desk() == e.desk && (r == LedgerFailed <==> e.Broken? || lastReading.ReadFails?)
        && (r != LedgerFailed ==>
              && T.ListsBlocked(persisted, e.desk.records) && r == Finished(P.FinalReport(e.report, persisted))
              && T.Returned(r.report, e.report, e.desk.records))
    {
      persisted := [];
      var loop := new ContinuousUpgradeLoop(policy);
      loop.AddEach(seed, EMPTY_LOOP);
      var report := Drive(loop, script);
      P.RunLockedIsRest(loaded, resumed, seeds, policy, script, retryBlocked);
      if report.None? { return LedgerFailed, []; }
      var blockedIds := ledger.BlockedItemIds(lastReading);
      if blockedIds.Err? { return LedgerFailed, []; }
      persisted := blockedIds.value;
      T.MergedIsReturned(report.value, persisted, Desk().records);
      var merged := MergeBlocked(report.value, blockedIds.value);
      r := Finished(merged);
    }

    /** What a run owes for the ledger it found: its records, and whether it could be read. */
    ghost predicate Ran(
      r: RunResult, found: J.LedgerFile, m: Records, readable: bool, loading: Access, seeds: seq<Item>,
      refused: Option<P.Refusal>, script: P.Script, lastReading: Access, resumed: seq<Item>, persisted: seq<ItemId>)
      requires P.Enough(script, policy)
      reads this, ledger
    {
      var loads, loaded := Loads(m, readable, retryBlocked, loading), ResetAll(m, retryBlocked, true);
      var refuses := refused.Some? && P.Refuses(P.RegisterAll(loaded, seeds, retryBlocked), refused.value, retryBlocked);
      var e := P.RunLocked(loaded, resumed, seeds, policy, script, retryBlocked);
      && (!loads ==> r == LedgerFailed && ledger.file == found)
      && (loads && refuses ==> r == LedgerFailed && Desk() == P.Desk(P.RegisterAll(loaded, seeds, retryBlocked), []))
      && (loads && !refuses ==>
            && Lists(resumed, Resumable(m, retryBlocked)) && Desk() == e.desk
            && (r == LedgerFailed <==> e.Broken? || lastReading.ReadFails?)
            && (r.Finished? ==>
                  && T.ListsBlocked(persisted, e.desk.records) && r.report == P.FinalReport(e.report, persisted)
                  && T.Returned(r.report, e.report, e.desk.records)))
    }

    /** The run proper: resume and seed, then the loop; any failing access to the ledger outside discovery ends it. */
    method RunLocked(
      loading: Access, seeds: seq<Item>, refused: Option<P.Refusal>, script: P.Script, lastReading: Access)
      returns (r: RunResult, ghost resumed: seq<Item>, ghost persisted: seq<ItemId>)
      requires Valid() && itemsById == [] && P.Enough(script, policy)
      modifies this`itemsById, ledger
      ensures Valid() && (r == LedgerFailed || r.Finished?)
      ensures
        Ran(r, old(ledger.file), old(Desk()).records, old(Readable()), loading, seeds, refused, script, lastReading,
            resumed, persisted)
    {
      persisted := [];
      ghost var loaded := ResetAll(Desk().records, retryBlocked, true);
      var seed;
      seed, resumed := Resume(loading, seeds, refused);
      if seed.None? { return LedgerFailed, resumed, []; }
      r, persisted := RunSeeded(loaded, resumed, seeds, seed.value, script, lastReading);
    }

    /** Nothing is touched by a run of a closed pipeline, or while another run holds the lease. */
    method Run(
      leaseFree: bool, loading: Access, seeds: seq<Item>, refused: Option<P.Refusal>, script: P.Script, lastReading: Access)
      returns (r: RunResult, ghost resumed: seq<Item>, ghost persisted: seq<ItemId>)
      requires Valid() && itemsById == [] && P.Enough(script, policy)
      modifies this`itemsById, ledger
      ensures Valid() && (r == Closed <==> closed) && (r == LeaseHeld <==> !closed && !leaseFree)
      ensures r == Closed || r == LeaseHeld ==> ledger.file == old(ledger.file) && itemsById == []
      ensures r == LedgerFailed || r.Finished? ==>
        Ran(r, old(ledger.file), old(Desk()).records, old(Readable()), loading, seeds, refused, script, lastReading,
            resumed, persisted)
    {
      resumed, persisted := [], [];
      if closed { return Closed, resumed, persisted; }
      if !leaseFree { return LeaseHeld, resumed, persisted; }
      r, resumed, persisted := RunLocked(loading, seeds, refused, script, lastReading);
    }

    /** The close callback is due on the first close only. */
    method Close() returns (callbackDue: bool)
      modifies this`closed
      ensures closed && callbackDue == !old(closed)
    {
      callbackDue := !closed;
      closed := true;
    }
  }
}
