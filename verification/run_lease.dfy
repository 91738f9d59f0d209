/** The exclusive lease file, and the schedulers that run one campaign per lease. */
module RunLease {
  import opened Work

  type SchedulerId = nat

  /** A lease object is made anew for every cycle, so a token names a scheduler and one of its cycles. */
  datatype Token = Token(owner: SchedulerId, cycle: nat)

  /** The lease file: just created, or holding a payload. */
  datatype LeaseFile = Blank | Holds(token: Token)

  /** What a cycle reports; `failed` is set when campaign or outbox raised. */
  datatype CycleResult = CycleResult(index: nat, leaseAcquired: bool, campaignRan: bool, failed: bool)

  /** How campaign and outbox end. A campaign that returns nothing is not told from one that raised, if the outbox raises. */
  datatype CampaignEnd = CampaignRaised | CampaignReturned(nothing: bool, outboxRaised: bool)

  predicate Failed(end: CampaignEnd) {
    end.CampaignRaised? || end.outboxRaised
  }

  /** Whether the cycle reports that its campaign ran. */
  predicate ReportsRun(end: CampaignEnd) {
    end.CampaignReturned? && !(end.nothing && end.outboxRaised)
  }

  /** Where a scheduler stands between two atomic steps. */
  datatype Phase =
    | Between
    | Acquiring
    | Created        // the file exists and is this lease's, its payload is not written yet
    | CleaningUp     // writing the payload failed
    | Holding        // acquire has returned
    | Campaigning
    | Releasing(end: CampaignEnd)
    | Removing(end: CampaignEnd)    // the payload was read back and carries the token
    | Ended

  datatype Scheduler = Scheduler(phase: Phase, maxCycles: nat, results: seq<CycleResult>)

  datatype State = State(file: Option<LeaseFile>, schedulers: map<SchedulerId, Scheduler>)

  datatype Move =
    | BeginCycle
    | StopBetween
    | CreateFile
    | GiveUp
    | WritePayload(ok: bool, written: bool)
    | CleanUp(unlinked: bool)
    | StartCampaign
    | EndCampaign(end: CampaignEnd)
    | ReadBack(readable: bool)
    | Remove(unlinked: bool)
    | Crash

  datatype Action = Join(s: SchedulerId, maxCycles: nat) | Do(s: SchedulerId, move: Move)

  /** The token of the lease object of the current cycle. */
  function TokenOf(s: SchedulerId, x: Scheduler): Token {
    Token(s, |x.results|)
  }

  /** A cycle that got no lease. */
  function SkipCycle(x: Scheduler): Scheduler {
    x.(phase := Between, results := x.results + [CycleResult(|x.results|, false, false, false)])
  }

  function EndCycle(x: Scheduler, end: CampaignEnd): Scheduler {
    x.(phase := Between, results := x.results + [CycleResult(|x.results|, true, ReportsRun(end), Failed(end))])
  }

  /** The file and the scheduler after one atomic step; a step that is not enabled changes nothing. */
  function StepOne(file: Option<LeaseFile>, s: SchedulerId, x: Scheduler, move: Move): (Option<LeaseFile>, Scheduler) {
    match move
    case BeginCycle =>
      if x.phase == Between && |x.results| < x.maxCycles then (file, x.(phase := Acquiring)) else (file, x)
    case StopBetween =>
      if x.phase == Between then (file, x.(phase := Ended)) else (file, x)
    case CreateFile =>
      // exclusive creation: never over an existing file
      if x.phase == Acquiring && file.None? then (Some(Blank), x.(phase := Created)) else (file, x)
    case GiveUp =>
      if x.phase == Acquiring then (file, SkipCycle(x)) else (file, x)
    case WritePayload(ok, written) =>
      if x.phase != Created then (file, x)
      else if ok then (Some(Holds(TokenOf(s, x))), x.(phase := Holding))
      else (Some(if written then Holds(TokenOf(s, x)) else Blank), x.(phase := CleaningUp))
    case CleanUp(unlinked) =>
      if x.phase != CleaningUp then (file, x)
      else (if unlinked then None else file, SkipCycle(x))
    case StartCampaign =>
      if x.phase == Holding then (file, x.(phase := Campaigning)) else (file, x)
    case EndCampaign(end) =>
      if x.phase == Campaigning then (file, x.(phase := Releasing(end))) else (file, x)
    case ReadBack(readable) =>
      if !x.phase.Releasing? then (file, x)
      else if readable && file == Some(Holds(TokenOf(s, x))) then (file, x.(phase := Removing(x.phase.end)))
      else (file, EndCycle(x, x.phase.end))
    case Remove(unlinked) =>
      // whatever is at the path by now is removed
      if !x.phase.Removing? then (file, x)
      else (if unlinked then None else file, EndCycle(x, x.phase.end))
    case Crash => (file, x.(phase := Ended))
  }

  function Step(st: State, a: Action): State {
    match a
    case Join(s, maxCycles) =>
      if s in st.schedulers then st else st.(schedulers := st.schedulers[s := Scheduler(Between, maxCycles, [])])
    case Do(s, move) =>
      if s !in st.schedulers then st
      else
        var (file, x) := StepOne(st.file, s, st.schedulers[s], move);
        State(file, st.schedulers[s := x])
  }

  function Run(st: State, actions: seq<Action>): State {
    if actions == [] then st else Step(Run(st, actions[..|actions| - 1]), actions[|actions| - 1])
  }

  // ----- exclusion

  /** The file at the path is this scheduler's, from its creation to its removal. */
  predicate Owns(x: Scheduler) {
    x.phase == Created || x.phase == CleaningUp || HasLease(x)
  }

  /** From the return of acquire to the end of release. */
  predicate HasLease(x: Scheduler) {
    x.phase == Holding || x.phase == Campaigning || x.phase.Releasing? || x.phase.Removing?
  }

  predicate WithinCycles(x: Scheduler) {
    && |x.results| <= x.maxCycles
    && (x.phase != Between && x.phase != Ended ==> |x.results| < x.maxCycles)
    && forall i :: 0 <= i < |x.results| ==>
         x.results[i].index == i && (x.results[i].campaignRan || x.results[i].failed ==> x.results[i].leaseAcquired)
  }

  predicate FileFits(file: Option<LeaseFile>, s: SchedulerId, x: Scheduler) {
    && (Owns(x) ==> file.Some?)
    && (HasLease(x) ==> file == Some(Holds(TokenOf(s, x))))
  }

  ghost predicate Exclusive(st: State) {
    && (forall s :: s in st.schedulers ==> FileFits(st.file, s, st.schedulers[s]) && WithinCycles(st.schedulers[s]))
    && (forall s, t :: s in st.schedulers && t in st.schedulers && Owns(st.schedulers[s]) && Owns(st.schedulers[t]) ==> s == t)
  }

  lemma StepOneFits(file: Option<LeaseFile>, s: SchedulerId, x: Scheduler, move: Move)
    requires FileFits(file, s, x) && WithinCycles(x)
    ensures
      var (file', x') := StepOne(file, s, x, move);
      && FileFits(file', s, x') && WithinCycles(x')
      && (Owns(x') ==> Owns(x) || file.None?)
      && (file' != file ==> Owns(x) || (file.None? && Owns(x')))
  {
  }

  lemma StepExclusive(st: State, a: Action)
    requires Exclusive(st)
    ensures Exclusive(Step(st, a))
  {
    if a.Do? && a.s in st.schedulers {
      StepOneFits(st.file, a.s, st.schedulers[a.s], a.move);
    }
  }

  lemma {:induction false} RunExclusive(st: State, actions: seq<Action>)
    requires Exclusive(st)
    ensures Exclusive(Run(st, actions))
  {
    if actions != [] {
      RunExclusive(st, actions[..|actions| - 1]);
      StepExclusive(Run(st, actions[..|actions| - 1]), actions[|actions| - 1]);
    }
  }

  /**
   * Whatever crashes and fails, at most one scheduler is between the return of acquire and the removal
   * of the file, and the file then holds its token; so no two campaigns overlap, and release, which reads
   * the file in one step and removes it in another, never removes a lease of somebody else. No scheduler runs more
   * cycles than its limit, and none runs a campaign without the lease. The path may hold anything at first.
   */
  lemma CampaignsNeverOverlap(st: State, actions: seq<Action>, s: SchedulerId, t: SchedulerId)
    requires st.schedulers == map[]
    ensures
      var r := Run(st, actions);
      && (s in r.schedulers && HasLease(r.schedulers[s]) ==> r.file == Some(Holds(TokenOf(s, r.schedulers[s]))))
      && (s in r.schedulers && t in r.schedulers && HasLease(r.schedulers[s]) && HasLease(r.schedulers[t]) ==> s == t)
      && (s in r.schedulers ==> WithinCycles(r.schedulers[s]))
      && (s in r.schedulers && r.schedulers[s].phase.Removing? ==> r.file == Some(Holds(TokenOf(s, r.schedulers[s]))))
  {
    RunExclusive(st, actions);
  }

  // ----- failing closed

  ghost predicate Abandoned(st: State) {
    st.file.Some? && forall s :: s in st.schedulers ==> !Owns(st.schedulers[s])
  }

  /**
   * A lease file whose creator crashed or could not remove it is never taken over: it stays as it is,
   * and nobody holds the lease again.
   */
  lemma {:induction false} AbandonedLeaseStays(st: State, actions: seq<Action>)
    requires Abandoned(st)
    ensures Abandoned(Run(st, actions)) && Run(st, actions).file == st.file
  {
    if actions != [] {
      AbandonedLeaseStays(st, actions[..|actions| - 1]);
    }
  }

  // ----- the lease and the scheduler as objects

  class LeasePath {
    var content: Option<LeaseFile>

    constructor (content: Option<LeaseFile>)
      ensures this.content == content
    {
      this.content := content;
    }
  }

  class UpgradeRunLease {
    const path: LeasePath
    const token: Token
    var acquired: bool

    constructor (path: LeasePath, token: Token)
      ensures this.path == path && this.token == token && !acquired
    {
      this.path, this.token, acquired := path, token, false;
    }

    /** One exclusive attempt; a payload that cannot be written is cleaned up if possible. */
    method Acquire(ok: bool, written: bool, unlinked: bool) returns (held: bool)
      modifies this, path
      ensures held <==> old(path.content).None? && ok
      ensures acquired == (held || old(acquired))
      ensures old(path.content).Some? ==> path.content == old(path.content)
      ensures held ==> path.content == Some(Holds(token))
      ensures old(path.content).None? && !ok ==>
        path.content == if unlinked then None else Some(if written then Holds(token) else Blank)
    {
      if path.content.Some? { return false; }
      path.content := Some(Blank);
      if ok || written { path.content := Some(Holds(token)); }
      if !ok {
        if unlinked { path.content := None; }
        return false;
      }
      acquired := true;
      return true;
    }

    /** Removes the file only while it holds this token. */
    method Release(readable: bool, unlinked: bool) returns (ok: bool)
      modifies this, path
      ensures ok <==> !old(acquired) || (readable && unlinked && old(path.content) == Some(Holds(token)))
      ensures path.content == if ok && old(acquired) then None else old(path.content)
      ensures acquired == (old(acquired) && !ok)
    {
      if !acquired { return true; }
      if !readable || path.content != Some(Holds(token)) || !unlinked { return false; }
      path.content, acquired := None, false;
      return true;
    }
  }

  /** What goes wrong in one cycle, if anything. */
  datatype CycleScript = CycleScript(
    stop: bool, writeOk: bool, written: bool, cleanedUp: bool, campaign: CampaignEnd, readable: bool, unlinked: bool)

  /** The atomic steps of one cycle. */
  function CycleMoves(file: Option<LeaseFile>, c: CycleScript): seq<Move> {
    if file.Some? then [BeginCycle, CreateFile, GiveUp]
    else if !c.writeOk then [BeginCycle, CreateFile, WritePayload(false, c.written), CleanUp(c.cleanedUp)]
    else
      [BeginCycle, CreateFile, WritePayload(true, c.written), StartCampaign, EndCampaign(c.campaign),
       ReadBack(c.readable), Remove(c.unlinked)]
  }

  function Play(file: Option<LeaseFile>, s: SchedulerId, x: Scheduler, moves: seq<Move>): (Option<LeaseFile>, Scheduler)
    decreases |moves|
  {
    if moves == [] then (file, x)
    else
      var (file', x') := StepOne(file, s, x, moves[0]);
      Play(file', s, x', moves[1..])
  }

  /** A scheduler on its own, cycle by cycle, until told to stop or at its limit. */
  function Cycles(
    file: Option<LeaseFile>, s: SchedulerId, x: Scheduler, scripts: seq<CycleScript>): (Option<LeaseFile>, Scheduler)
    decreases |scripts|
  {
    if scripts == [] || scripts[0].stop then (file, x)
    else
      var (file', x') := Play(file, s, x, CycleMoves(file, scripts[0]));
      Cycles(file', s, x', scripts[1..])
  }

  lemma PlayNext(file: Option<LeaseFile>, s: SchedulerId, x: Scheduler, moves: seq<Move>, move: Move, rest: seq<Move>)
    requires moves == [move] + rest
    ensures Play(file, s, x, moves) == Play(StepOne(file, s, x, move).0, s, StepOne(file, s, x, move).1, rest)
  {
    assert moves[1..] == rest;
  }

  lemma SkippedCycle(file: Option<LeaseFile>, s: SchedulerId, x: Scheduler, c: CycleScript)
    requires x.phase == Between && |x.results| < x.maxCycles && file.Some?
    ensures Play(file, s, x, CycleMoves(file, c)) == (file, SkipCycle(x))
  {
    var y := x.(phase := Acquiring);
    PlayNext(file, s, x, CycleMoves(file, c), BeginCycle, [CreateFile, GiveUp]);
    PlayNext(file, s, y, [CreateFile, GiveUp], CreateFile, [GiveUp]);
    PlayNext(file, s, y, [GiveUp], GiveUp, []);
  }

  lemma UnwrittenCycle(s: SchedulerId, x: Scheduler, c: CycleScript)
    requires x.phase == Between && |x.results| < x.maxCycles && !c.writeOk
    ensures Play(None, s, x, CycleMoves(None, c))
      == (if c.cleanedUp then None else Some(if c.written then Holds(TokenOf(s, x)) else Blank), SkipCycle(x))
  {
    var file := Some(if c.written then Holds(TokenOf(s, x)) else Blank);
    var write, clean := WritePayload(false, c.written), CleanUp(c.cleanedUp);
    PlayNext(None, s, x, CycleMoves(None, c), BeginCycle, [CreateFile, write, clean]);
    PlayNext(None, s, x.(phase := Acquiring), [CreateFile, write, clean], CreateFile, [write, clean]);
    PlayNext(Some(Blank), s, x.(phase := Created), [write, clean], write, [clean]);
    PlayNext(file, s, x.(phase := CleaningUp), [clean], clean, []);
  }

  lemma HeldCycle(file: Option<LeaseFile>, s: SchedulerId, x: Scheduler, end: Move, read: Move, remove: Move)
    requires x.phase == Holding && file == Some(Holds(TokenOf(s, x)))
    requires end.EndCampaign? && read.ReadBack? && remove.Remove?
    ensures Play(file, s, x, [StartCampaign, end, read, remove])
      == (if read.readable && remove.unlinked then None else file, EndCycle(x, end.end))
  {
    PlayNext(file, s, x, [StartCampaign, end, read, remove], StartCampaign, [end, read, remove]);
    PlayNext(file, s, x.(phase := Campaigning), [end, read, remove], end, [read, remove]);
    var y := x.(phase := Releasing(end.end));
    PlayNext(file, s, y, [read, remove], read, [remove]);
    var (file', z) := StepOne(file, s, y, read);
    PlayNext(file', s, z, [remove], remove, []);
  }

  lemma CampaignCycle(s: SchedulerId, x: Scheduler, c: CycleScript)
    requires x.phase == Between && |x.results| < x.maxCycles && c.writeOk
    ensures Play(None, s, x, CycleMoves(None, c))
      == (if c.readable && c.unlinked then None else Some(Holds(TokenOf(s, x))), EndCycle(x, c.campaign))
  {
    var write, end := WritePayload(true, c.written), EndCampaign(c.campaign);
    var read, remove := ReadBack(c.readable), Remove(c.unlinked);
    var held := [StartCampaign, end, read, remove];
    PlayNext(None, s, x, CycleMoves(None, c), BeginCycle, [CreateFile, write] + held);
    PlayNext(None, s, x.(phase := Acquiring), [CreateFile, write] + held, CreateFile, [write] + held);
    PlayNext(Some(Blank), s, x.(phase := Created), [write] + held, write, held);
    HeldCycle(Some(Holds(TokenOf(s, x))), s, x.(phase := Holding), end, read, remove);
  }

  /**
   * What a result tells of its cycle: the campaign ran if it returned a result, or returned at all and the
   * outbox was drained; the cycle failed if campaign or outbox raised; without the lease nothing ran.
   */
  ghost predicate Tells(r: CycleResult, index: nat, c: CycleScript) {
    && r.index == index
    && (r.leaseAcquired ==>
          && c.writeOk
          && (r.campaignRan <==> c.campaign.CampaignReturned? && (!c.campaign.nothing || !c.campaign.outboxRaised))
          && (r.failed <==> c.campaign.CampaignRaised? || c.campaign.outboxRaised))
    && (!r.leaseAcquired ==> !r.campaignRan && !r.failed)
  }

  class MaintenanceScheduler {
    const id: SchedulerId
    const path: LeasePath
    const maxCycles: nat
    var results: seq<CycleResult>

    constructor (id: SchedulerId, path: LeasePath, maxCycles: nat)
      ensures this.id == id && this.path == path && this.maxCycles == maxCycles && results == []
    {
      this.id, this.path, this.maxCycles, results := id, path, maxCycles, [];
    }

    ghost function View(): Scheduler
      reads this
    {
      Scheduler(Between, maxCycles, results)
    }

    method RunCycle(c: CycleScript)
      requires |results| < maxCycles
      modifies this`results, path
      ensures (path.content, View()) == Play(old(path.content), id, old(View()), CycleMoves(old(path.content), c))
      ensures |results| == |old(results)| + 1 && results[..|old(results)|] == old(results)
      ensures
        var r := results[|old(results)|];
        && Tells(r, |old(results)|, c) && (r.leaseAcquired <==> old(path.content).None? && c.writeOk)
        && (old(path.content).Some? ==> path.content == old(path.content))
        && (old(path.content).None? && !c.writeOk ==>
              && (c.cleanedUp ==> path.content.None?)
              && (!c.cleanedUp ==>
                    path.content.Some? && path.content.value.Holds? == c.written
                    && (c.written ==> path.content.value.token == Token(id, |old(results)|))))
        && (r.leaseAcquired ==>
              path.content == if c.readable && c.unlinked then None else Some(Holds(Token(id, |old(results)|))))
    {
      var lease := new UpgradeRunLease(path, Token(id, |results|));
      ghost var file, x := path.content, View();
      var held := lease.Acquire(c.writeOk, c.written, c.cleanedUp);
      if !held {
        if file.Some? { SkippedCycle(file, id, x, c); } else { UnwrittenCycle(id, x, c); }
        results := results + [CycleResult(|results|, false, false, false)];
        return;
      }
      CampaignCycle(id, x, c);
      var campaignRan, failed;
      match c.campaign {
        case CampaignRaised =>
          campaignRan, failed := false, true;
        case CampaignReturned(nothing, outboxRaised) =>
          campaignRan, failed := !outboxRaised || !nothing, outboxRaised;
      }
      var released := lease.Release(c.readable, c.unlinked);
      results := results + [CycleResult(|results|, true, campaignRan, failed)];
    }

    /** At most max_cycles cycles; the scheduler's steps are those of the shared machine. */
    method Run(scripts: seq<CycleScript>)
      requires results == [] && |scripts| == maxCycles
      modifies this`results, path
      ensures (path.content, View()) == Cycles(old(path.content), id, old(View()), scripts)
      ensures |results| <= maxCycles && (|results| < maxCycles ==> scripts[|results|].stop)
      ensures forall i :: 0 <= i < |results| ==> !scripts[i].stop && Tells(results[i], i, scripts[i])
    {
      var index := 0;
      ghost var goal := Cycles(path.content, id, View(), scripts);
      while index < maxCycles && !scripts[index].stop
        invariant index <= maxCycles && |results| == index
        invariant Cycles(path.content, id, View(), scripts[index..]) == goal
        invariant forall i :: 0 <= i < index ==> !scripts[i].stop && Tells(results[i], i, scripts[i])
      {
        ghost var before := results;
        RunCycle(scripts[index]);
        assert scripts[index..][1..] == scripts[index + 1..];
        assert forall i :: 0 <= i < index ==> results[i] == results[..index][i] == before[i];
        index := index + 1;
      }
    }
  }
}
