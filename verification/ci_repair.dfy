/** The bounded loop that lets a handler repair failing checks of a pull request. */
module CiRepair {
  import opened Work

  datatype Conclusion = SUCCESS | FAILURE | TIMED_OUT | OTHER

  datatype Check = Check(completed: bool, conclusion: Conclusion)

  datatype Repair = Raised | NotApplied | Applied

  /** What provider and handler do in one round: checks of the current sha, the repair, the pull request after it. */
  datatype Round = Round(checks: seq<Check>, repair: Repair, updated: Option<string>)

  datatype Event =
    | RepairAttempt(attempt: nat, sha: string)
    | ChecksUnverified(sha: string)
    | RepairUnavailable(sha: string)
    | RepairExhausted(attempts: nat)
    | RepairFailed(attempt: nat)
    | RepairNotApplied(attempt: nat)
    | RepairUnverified(attempt: nat)

  datatype Answer = Refused | Answer(green: bool)

  predicate Green(checks: seq<Check>) {
    checks != [] && forall c :: c in checks ==> c.completed && c.conclusion == SUCCESS
  }

  predicate Failing(checks: seq<Check>) {
    exists c :: c in checks && (c.conclusion == FAILURE || c.conclusion == TIMED_OUT)
  }

  /** One call: the shas the checks were read for, the events, the handler calls, and the verdict. */
  datatype Log = Log(shas: seq<string>, events: seq<Event>, calls: nat, green: bool)

  /** The loop from a round on, after as many repairs. */
  function Loop(sha: string, handler: bool, maxRepairs: nat, rounds: seq<Round>, attempts: nat): Log
    requires attempts <= maxRepairs < |rounds|
    decreases maxRepairs - attempts
  {
    var round := rounds[attempts];
    if Green(round.checks) then Log([sha], [], 0, true)
    else if !Failing(round.checks) then Log([sha], [ChecksUnverified(sha)], 0, false)
    else if !handler then Log([sha], [RepairUnavailable(sha)], 0, false)
    else if attempts >= maxRepairs then Log([sha], [RepairExhausted(attempts)], 0, false)
    else
      var n := attempts + 1;
      var tried := RepairAttempt(n, sha);
      match round.repair
      case Raised => Log([sha], [tried, RepairFailed(n)], 1, false)
      case NotApplied => Log([sha], [tried, RepairNotApplied(n)], 1, false)
      case Applied =>
        if round.updated.None? || round.updated.value == sha then Log([sha], [tried, RepairUnverified(n)], 1, false)
        else
          var rest := Loop(round.updated.value, handler, maxRepairs, rounds, n);
          Log([sha] + rest.shas, [tried] + rest.events, rest.calls + 1, rest.green)
  }

  /** A log after earlier shas, events and calls. */
  function Join(shas: seq<string>, events: seq<Event>, calls: nat, rest: Log): Log {
    Log(shas + rest.shas, events + rest.events, calls + rest.calls, rest.green)
  }

  lemma JoinNext(shas: seq<string>, events: seq<Event>, calls: nat, sha: string, event: Event, rest: Log)
    ensures Join(shas, events, calls, Log([sha] + rest.shas, [event] + rest.events, rest.calls + 1, rest.green))
      == Join(shas + [sha], events + [event], calls + 1, rest)
  {
    assert shas + ([sha] + rest.shas) == shas + [sha] + rest.shas;
    assert events + ([event] + rest.events) == events + [event] + rest.events;
  }

  class GitHubOrchestrator {
    const handler: bool
    var shas: seq<string>
    var events: seq<Event>
    var calls: nat

    constructor (handler: bool)
      ensures this.handler == handler && shas == [] && events == [] && calls == 0
    {
      this.handler, shas, events, calls := handler, [], [], 0;
    }

    /** A missing job or pull request is answered without an event; a limit below one is refused. */
    method ExecuteCiRepairLoop(job: bool, pr: Option<string>, maxRepairs: int, rounds: seq<Round>) returns (r: Answer)
      requires maxRepairs < |rounds|
      modifies this
      ensures r.Refused? <==> maxRepairs < 1
      ensures maxRepairs < 1 || !job || pr.None? ==>
        (r.Answer? ==> !r.green) && shas == old(shas) && events == old(events) && calls == old(calls)
      ensures maxRepairs >= 1 && job && pr.Some? ==>
        var log := Loop(pr.value, handler, maxRepairs, rounds, 0);
        r == Answer(log.green) && Log(shas, events, calls, log.green) == Join(old(shas), old(events), old(calls), log)
    {
      if maxRepairs < 1 { return Refused; }
      if !job || pr.None? { return Answer(false); }
      var sha, attempts := pr.value, 0;
      ghost var goal := Loop(sha, handler, maxRepairs, rounds, 0);
      while true
        invariant 0 <= attempts <= maxRepairs
        invariant Join(shas, events, calls, Loop(sha, handler, maxRepairs, rounds, attempts))
          == Join(old(shas), old(events), old(calls), goal)
        decreases maxRepairs - attempts
      {
        var round := rounds[attempts];
        ghost var shas0, events0, calls0 := shas, events, calls;
        shas := shas + [sha];
        if Green(round.checks) {
          assert events + [] == events;
          return Answer(true);
        }
        if !Failing(round.checks) {
          events := events + [ChecksUnverified(sha)];
          return Answer(false);
        }
        if !handler {
          events := events + [RepairUnavailable(sha)];
          return Answer(false);
        }
        if attempts >= maxRepairs {
          events := events + [RepairExhausted(attempts)];
          return Answer(false);
        }
        attempts := attempts + 1;
        events := events + [RepairAttempt(attempts, sha)];
        calls := calls + 1;
        if round.repair == Raised {
          assert events0 + [RepairAttempt(attempts, sha), RepairFailed(attempts)] == events + [RepairFailed(attempts)];
          events := events + [RepairFailed(attempts)];
          return Answer(false);
        }
        if round.repair == NotApplied {
          assert events0 + [RepairAttempt(attempts, sha), RepairNotApplied(attempts)] == events + [RepairNotApplied(attempts)];
          events := events + [RepairNotApplied(attempts)];
          return Answer(false);
        }
        if round.updated.None? || round.updated.value == sha {
          assert events0 + [RepairAttempt(attempts, sha), RepairUnverified(attempts)] == events + [RepairUnverified(attempts)];
          events := events + [RepairUnverified(attempts)];
          return Answer(false);
        }
        JoinNext(shas0, events0, calls0, sha, RepairAttempt(attempts, sha),
                 Loop(round.updated.value, handler, maxRepairs, rounds, attempts));
        sha := round.updated.value;
      }
      assert false;
    }
  }

  /** Events first .. first + n - 1 are attempts, counted, each on the sha its checks were read for. */
  ghost predicate Attempts(log: Log, first: nat, n: nat) {
    && n <= |log.events| && n <= |log.shas|
    && forall k :: 0 <= k < n ==> log.events[k] == RepairAttempt(first + k + 1, log.shas[k])
  }

  ghost predicate AllSuccessful(checks: seq<Check>) {
    |checks| > 0 && forall i :: 0 <= i < |checks| ==> checks[i].completed && checks[i].conclusion == SUCCESS
  }

  /** Some check failed or ran out of time. */
  ghost predicate SomeBroken(checks: seq<Check>) {
    exists i :: 0 <= i < |checks| && checks[i].conclusion in {FAILURE, TIMED_OUT}
  }

  /** The handler is called in a round, after as many repairs. */
  ghost predicate Called(round: Round, handler: bool, maxRepairs: nat, repairs: nat) {
    !AllSuccessful(round.checks) && SomeBroken(round.checks) && handler && repairs < maxRepairs
  }

  /** The handler was called in the k-th round of the log, and its repair led to the sha of the next one. */
  ghost predicate RepairedAt(log: Log, handler: bool, maxRepairs: nat, rounds: seq<Round>, attempts: nat, k: nat)
    requires k + 1 < |log.shas| && attempts + k < |rounds|
  {
    var round := rounds[attempts + k];
    && Called(round, handler, maxRepairs, attempts + k)
    && round.repair == Applied && round.updated == Some(log.shas[k + 1])
  }

  /** The one event that says why the loop gave up in its last round. */
  ghost predicate GivesUp(event: Event, sha: string, round: Round, handler: bool, maxRepairs: nat, repairs: nat) {
    if !SomeBroken(round.checks) then event == ChecksUnverified(sha)
    else if !handler then event == RepairUnavailable(sha)
    else if repairs >= maxRepairs then event == RepairExhausted(repairs)
    else
      match round.repair
      case Raised => event == RepairFailed(repairs + 1)
      case NotApplied => event == RepairNotApplied(repairs + 1)
      case Applied => event == RepairUnverified(repairs + 1) && (round.updated == None || round.updated == Some(sha))
  }

  /** What any call of the loop owes, from a round on. */
  ghost predicate Sound(log: Log, handler: bool, maxRepairs: nat, rounds: seq<Round>, attempts: nat)
    requires attempts <= maxRepairs < |rounds|
  {
    && log.calls <= maxRepairs - attempts && (!handler ==> log.calls == 0)
    && 1 <= |log.shas| <= maxRepairs - attempts + 1
    && (forall k :: 1 <= k < |log.shas| ==> log.shas[k] != log.shas[k - 1])
    && (forall k :: 0 <= k < |log.shas| - 1 ==> RepairedAt(log, handler, maxRepairs, rounds, attempts, k))
    && var last := |log.shas| - 1;
    && log.calls == last + (if Called(rounds[attempts + last], handler, maxRepairs, attempts + last) then 1 else 0)
    && (log.green <==> AllSuccessful(rounds[attempts + last].checks))
    && Attempts(log, attempts, log.calls)
    && |log.events| == (if log.green then log.calls else log.calls + 1)
    && (!log.green ==>
          GivesUp(log.events[log.calls], log.shas[last], rounds[attempts + last], handler, maxRepairs, attempts + last))
  }

  lemma Extended(sha: string, rest: Log, handler: bool, maxRepairs: nat, rounds: seq<Round>, attempts: nat)
    requires attempts < maxRepairs < |rounds| && handler && Sound(rest, handler, maxRepairs, rounds, attempts + 1)
    requires rest.shas[0] != sha && Called(rounds[attempts], handler, maxRepairs, attempts)
    requires rounds[attempts].repair == Applied && rounds[attempts].updated == Some(rest.shas[0])
    ensures Sound(
      Log([sha] + rest.shas, [RepairAttempt(attempts + 1, sha)] + rest.events, rest.calls + 1, rest.green),
      handler, maxRepairs, rounds, attempts)
  {
    hide AllSuccessful, SomeBroken, GivesUp;
    var log := Log([sha] + rest.shas, [RepairAttempt(attempts + 1, sha)] + rest.events, rest.calls + 1, rest.green);
    forall k | 1 <= k < |log.shas| ensures log.shas[k] != log.shas[k - 1] {
      if k > 1 { assert log.shas[k] == rest.shas[k - 1] && log.shas[k - 1] == rest.shas[k - 2]; }
    }
    forall k | 0 <= k < log.calls ensures log.events[k] == RepairAttempt(attempts + k + 1, log.shas[k]) {
      if k > 0 { assert rest.events[k - 1] == RepairAttempt(attempts + 1 + (k - 1) + 1, rest.shas[k - 1]); }
    }
    forall k | 0 <= k < |log.shas| - 1 ensures RepairedAt(log, handler, maxRepairs, rounds, attempts, k) {
      if k > 0 { assert RepairedAt(rest, handler, maxRepairs, rounds, attempts + 1, k - 1); }
    }
  }

  lemma ChecksRead(checks: seq<Check>)
    ensures Green(checks) <==> AllSuccessful(checks)
    ensures Failing(checks) <==> SomeBroken(checks)
    ensures AllSuccessful(checks) ==> !SomeBroken(checks)
  {
    if Failing(checks) {
      var c :| c in checks && (c.conclusion == FAILURE || c.conclusion == TIMED_OUT);
      var i :| 0 <= i < |checks| && checks[i] == c;
    }
    if SomeBroken(checks) {
      var i :| 0 <= i < |checks| && checks[i].conclusion in {FAILURE, TIMED_OUT};
      assert checks[i] in checks;
    }
  }

  /** The round is followed by another one. */
  predicate GoesOn(sha: string, handler: bool, maxRepairs: nat, round: Round, attempts: nat) {
    && !Green(round.checks) && Failing(round.checks) && handler && attempts < maxRepairs
    && round.repair == Applied && round.updated.Some? && round.updated.value != sha
  }

  lemma LastRoundSound(sha: string, handler: bool, maxRepairs: nat, rounds: seq<Round>, attempts: nat)
    requires attempts <= maxRepairs < |rounds| && !GoesOn(sha, handler, maxRepairs, rounds[attempts], attempts)
    ensures
      var log := Loop(sha, handler, maxRepairs, rounds, attempts);
      log.shas == [sha] && Sound(log, handler, maxRepairs, rounds, attempts)
  {
    hide Green, Failing, AllSuccessful, SomeBroken;
    ChecksRead(rounds[attempts].checks);
  }

  /**
   * Whatever provider and handler do: at most max_repairs handler calls, one in each round whose checks are
   * not all successful and some of them failed or timed out, as long as there is a handler and a repair left;
   * every repair that is followed by another round was applied and changed the sha; the verdict is positive
   * exactly when the checks last read, for the current sha, are non-empty and all successful; and the events
   * are the attempts, then, unless the verdict is positive, the one that says why the loop gave up.
   */
  lemma {:induction false} RepairLoopSound(sha: string, handler: bool, maxRepairs: nat, rounds: seq<Round>, attempts: nat)
    requires attempts <= maxRepairs < |rounds|
    ensures
      var log := Loop(sha, handler, maxRepairs, rounds, attempts);
      log.shas != [] && log.shas[0] == sha && Sound(log, handler, maxRepairs, rounds, attempts)
    decreases maxRepairs - attempts
  {
    hide Green, Failing, AllSuccessful, SomeBroken, Sound;
    var round := rounds[attempts];
    ChecksRead(round.checks);
    if GoesOn(sha, handler, maxRepairs, round, attempts) {
      RepairLoopSound(round.updated.value, handler, maxRepairs, rounds, attempts + 1);
      Extended(sha, Loop(round.updated.value, handler, maxRepairs, rounds, attempts + 1), handler, maxRepairs, rounds, attempts);
    } else {
      LastRoundSound(sha, handler, maxRepairs, rounds, attempts);
    }
  }
}
