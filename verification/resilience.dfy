/** The circuit breaker and the bounded retry around it. Times are readings of one monotonic clock. */
module Resilience {
  import opened Work

  datatype BreakerState = CLOSED | OPEN | HALF_OPEN

  datatype Breaker = Breaker(failures: nat, state: BreakerState, openedAt: real)

  datatype Limits = Limits(failureThreshold: int, resetTimeout: real)

  const FRESH := Breaker(0, CLOSED, 0.0)

  /** The breaker once a call is let through, or None when it fails fast. */
  function Admit(b: Breaker, limits: Limits, now: real): Option<Breaker> {
    if b.state != OPEN then Some(b)
    else if now - b.openedAt >= limits.resetTimeout then Some(b.(state := HALF_OPEN))
    else None
  }

  function OnSuccess(b: Breaker): Breaker {
    b.(failures := 0, state := CLOSED)
  }

  function OnFailure(b: Breaker, limits: Limits, now: real): Breaker {
    var failures := b.failures + 1;
    if b.state == HALF_OPEN || failures >= limits.failureThreshold then Breaker(failures, OPEN, now)
    else b.(failures := failures)
  }

  class CircuitBreaker {
    const limits: Limits
    var failures: nat
    var state: BreakerState
    var openedAt: real

    constructor (limits: Limits)
      ensures this.limits == limits && View() == FRESH
    {
      this.limits, failures, state, openedAt := limits, 0, CLOSED, 0.0;
    }

    ghost function View(): Breaker
      reads this
    {
      Breaker(failures, state, openedAt)
    }

    method BeforeCall(now: real) returns (admitted: bool)
      modifies this`state
      ensures admitted <==> Admit(old(View()), limits, now).Some?
      ensures View() == if admitted then Admit(old(View()), limits, now).value else old(View())
    {
      if state == OPEN {
        if now - openedAt < limits.resetTimeout { return false; }
        state := HALF_OPEN;
      }
      return true;
    }

    method RecordSuccess()
      modifies this
      ensures View() == OnSuccess(old(View()))
    {
      failures, state := 0, CLOSED;
    }

    method RecordFailure(now: real)
      modifies this
      ensures View() == OnFailure(old(View()), limits, now)
    {
      failures := failures + 1;
      if state == HALF_OPEN || failures >= limits.failureThreshold {
        state, openedAt := OPEN, now;
      }
    }
  }

  /** The breaker after failures at the given times, with no call in between. */
  function AfterFailures(b: Breaker, limits: Limits, times: seq<real>): Breaker {
    if times == [] then b
    else OnFailure(AfterFailures(b, limits, times[..|times| - 1]), limits, times[|times| - 1])
  }

  /** How many failures in a row the breaker bears. */
  function Patience(limits: Limits): nat {
    Max(1, limits.failureThreshold)
  }

  /**
   * A success is forgiving: whatever came before, the breaker is closed, stays closed through any
   * failures fewer than its patience, and opens with the failure that uses it up, at that time.
   */
  lemma {:induction false} SuccessForgives(b: Breaker, limits: Limits, times: seq<real>)
    requires |times| <= Patience(limits)
    ensures
      var after := AfterFailures(OnSuccess(b), limits, times);
      && after.failures == |times|
      && (after.state == if |times| < Patience(limits) then CLOSED else OPEN)
      && (|times| == Patience(limits) ==> after.openedAt == times[|times| - 1])
  {
    if times != [] { SuccessForgives(b, limits, times[..|times| - 1]); }
  }

  /** A trial call that fails opens the breaker again at that time, however many failures it has seen. */
  lemma TrialDecides(b: Breaker, limits: Limits, now: real, end: real)
    requires b.state == OPEN && Admit(b, limits, now).Some?
    ensures
      var trial := Admit(b, limits, now).value;
      && trial.state == HALF_OPEN
      && OnFailure(trial, limits, end).state == OPEN && OnFailure(trial, limits, end).openedAt == end
      && OnSuccess(trial).state == CLOSED
      && forall later :: Admit(OnFailure(trial, limits, end), limits, later).Some? <==> later - end >= limits.resetTimeout
  {
  }

  // ----- an outage

  /** An attempted call that fails; its error is one of the library's own, or a foreign one. */
  datatype Call = Call(begin: real, end: real, foreign: bool)

  /** Calls follow each other. */
  predicate Timeline(calls: seq<Call>) {
    calls == [] ||
    var front, last := calls[..|calls| - 1], calls[|calls| - 1];
    Timeline(front) && last.begin <= last.end && (front != [] ==> front[|front| - 1].end <= last.begin)
  }

  /** The breaker after one failing call. A foreign error passes it by. */
  function AfterCall(b: Breaker, limits: Limits, call: Call): Breaker {
    var admitted := Admit(b, limits, call.begin);
    if admitted.None? then b
    else if call.foreign then admitted.value
    else OnFailure(admitted.value, limits, call.end)
  }

  function AfterCalls(b: Breaker, limits: Limits, calls: seq<Call>): Breaker {
    if calls == [] then b else AfterCall(AfterCalls(b, limits, calls[..|calls| - 1]), limits, calls[|calls| - 1])
  }

  /**
   * A half-open breaker whose trial call failed is still half open, and lets another call through before
   * a whole reset timeout is over, exactly if the trial failed with a foreign error.
   */
  lemma SecondTrialExactly(b: Breaker, limits: Limits, trial: Call, later: real)
    requires b.state == OPEN && Admit(b, limits, trial.begin).Some?
    ensures
      var after := AfterCall(b, limits, trial);
      && (after.state == HALF_OPEN <==> trial.foreign)
      && (Admit(after, limits, later).Some? <==> trial.foreign || later - trial.end >= limits.resetTimeout)
  {
    TrialDecides(b, limits, trial.begin, trial.end);
  }

  /** The calls that reach the dependency. */
  function Reached(b: Breaker, limits: Limits, calls: seq<Call>): seq<Call> {
    if calls == [] then []
    else
      var front := calls[..|calls| - 1];
      Reached(b, limits, front)
        + if Admit(AfterCalls(b, limits, front), limits, calls[|calls| - 1].begin).Some? then [calls[|calls| - 1]] else []
  }

  function Own(calls: seq<Call>): seq<Call> {
    if calls == [] then []
    else
      var last := calls[|calls| - 1];
      Own(calls[..|calls| - 1]) + if last.foreign then [] else [last]
  }

  /** Calls that begin within a time of a given moment. */
  function Within(calls: seq<Call>, since: real, span: real): nat {
    if calls == [] then 0
    else Within(calls[..|calls| - 1], since, span) + if calls[|calls| - 1].begin - since <= span then 1 else 0
  }

  /** From the patience-th on, failed calls are at least one reset timeout apart. */
  ghost predicate Spaced(own: seq<Call>, limits: Limits) {
    && (forall i :: 0 <= i < |own| ==> own[0].begin <= own[i].begin)
    && forall i :: Patience(limits) <= i < |own| ==> own[i].begin - own[i - 1].begin >= limits.resetTimeout
  }

  /** What the breaker knows after an outage so far; no later call begins before the given moment. */
  ghost predicate Guarded(b: Breaker, own: seq<Call>, limits: Limits, now: real) {
    && Spaced(own, limits)
    && (forall c :: c in own ==> c.begin <= now)
    && (b.state == CLOSED ==> b.failures == |own| < Patience(limits))
    && (b.state != CLOSED ==> |own| >= Patience(limits) && own[|own| - 1].begin <= b.openedAt)
    && (b.state == HALF_OPEN ==> now - b.openedAt >= limits.resetTimeout)
  }

  lemma CallGuarded(b: Breaker, own: seq<Call>, limits: Limits, now: real, call: Call)
    requires limits.resetTimeout > 0.0 && Guarded(b, own, limits, now) && now <= call.begin <= call.end
    ensures
      var reached := Admit(b, limits, call.begin).Some? && !call.foreign;
      Guarded(AfterCall(b, limits, call), if reached then own + [call] else own, limits, call.end)
  {
  }

  lemma GuardedLater(b: Breaker, own: seq<Call>, limits: Limits, now: real, later: real)
    requires Guarded(b, own, limits, now) && now <= later
    ensures Guarded(b, own, limits, later)
  {
  }

  lemma OwnNext(reached: seq<Call>, last: Call)
    ensures Own(reached + [last]) == Own(reached) + if last.foreign then [] else [last]
  {
    assert (reached + [last])[..|reached|] == reached;
  }

  lemma OwnReachedNext(limits: Limits, calls: seq<Call>)
    requires calls != []
    ensures
      var front, last := calls[..|calls| - 1], calls[|calls| - 1];
      var reached := Admit(AfterCalls(FRESH, limits, front), limits, last.begin).Some? && !last.foreign;
      Own(Reached(FRESH, limits, calls))
        == if reached then Own(Reached(FRESH, limits, front)) + [last] else Own(Reached(FRESH, limits, front))
  {
    var front, last := calls[..|calls| - 1], calls[|calls| - 1];
    OwnNext(Reached(FRESH, limits, front), last);
    assert Reached(FRESH, limits, front) + [] == Reached(FRESH, limits, front);
    assert Own(Reached(FRESH, limits, front)) + [] == Own(Reached(FRESH, limits, front));
  }

  lemma {:induction false} OutageGuarded(limits: Limits, calls: seq<Call>, now: real)
    requires limits.resetTimeout > 0.0 && Timeline(calls)
    requires calls != [] ==> calls[|calls| - 1].end <= now
    ensures Guarded(AfterCalls(FRESH, limits, calls), Own(Reached(FRESH, limits, calls)), limits, now)
  {
    if calls != [] {
      var front, last := calls[..|calls| - 1], calls[|calls| - 1];
      OutageGuarded(limits, front, last.begin);
      OwnReachedNext(limits, calls);
      CallGuarded(AfterCalls(FRESH, limits, front), Own(Reached(FRESH, limits, front)), limits, last.begin, last);
      GuardedLater(AfterCalls(FRESH, limits, calls), Own(Reached(FRESH, limits, calls)), limits, last.end, now);
    }
  }

  lemma {:induction false} SpacedFar(own: seq<Call>, limits: Limits, i: nat)
    requires Spaced(own, limits) && Patience(limits) - 1 <= i < |own|
    ensures own[i].begin - own[0].begin >= (i + 1 - Patience(limits)) as real * limits.resetTimeout
  {
    if i >= Patience(limits) {
      SpacedFar(own, limits, i - 1);
      var k := i - Patience(limits);
      assert (k + 1) as real * limits.resetTimeout == k as real * limits.resetTimeout + limits.resetTimeout;
    }
  }

  lemma Cancel(a: real, b: real, c: real)
    requires c > 0.0 && a * c <= b * c
    ensures a <= b
  {
  }

  lemma DividedBound(k: nat, step: real, span: real)
    requires step > 0.0 && k as real * step <= span
    ensures k <= (span / step).Floor
  {
    assert span / step * step == span;
    Cancel(k as real, span / step, step);
  }

  /** The i-th failed call within the span has a small index. */
  lemma WithinEarly(own: seq<Call>, limits: Limits, span: real, i: nat)
    requires limits.resetTimeout > 0.0 && Spaced(own, limits) && i < |own| && own[i].begin - own[0].begin <= span
    ensures i < Patience(limits) + (span / limits.resetTimeout).Floor
  {
    DividedBound(0, limits.resetTimeout, span);
    if i + 1 >= Patience(limits) {
      SpacedFar(own, limits, i);
      DividedBound(i + 1 - Patience(limits), limits.resetTimeout, span);
    }
  }

  lemma {:induction false} WithinBounded(calls: seq<Call>, since: real, span: real, n: nat)
    requires forall i :: 0 <= i < |calls| && calls[i].begin - since <= span ==> i < n
    ensures Within(calls, since, span) <= n && Within(calls, since, span) <= |calls|
  {
    if calls != [] { WithinBounded(calls[..|calls| - 1], since, span, n); }
  }

  lemma SpacedBounded(own: seq<Call>, limits: Limits, span: real)
    requires limits.resetTimeout > 0.0 && span >= 0.0 && Spaced(own, limits) && own != []
    ensures Within(own, own[0].begin, span) <= Patience(limits) + (span / limits.resetTimeout).Floor
  {
    DividedBound(0, limits.resetTimeout, span);
    forall i | 0 <= i < |own| && own[i].begin - own[0].begin <= span
      ensures i < Patience(limits) + (span / limits.resetTimeout).Floor
    {
      WithinEarly(own, limits, span, i);
    }
    WithinBounded(own, own[0].begin, span, Patience(limits) + (span / limits.resetTimeout).Floor);
  }

  /**
   * In an outage, within any time of the first call that failed with an error of the library, the calls
   * that reach the dependency and fail so number at most the failure threshold (at least one), plus one
   * for every reset timeout in that time; no matter what foreign errors lie between.
   */
  lemma OutageBounded(limits: Limits, calls: seq<Call>, span: real)
    requires limits.resetTimeout > 0.0 && span >= 0.0 && Timeline(calls)
    ensures
      var own := Own(Reached(FRESH, limits, calls));
      own != [] ==> Within(own, own[0].begin, span) <= Patience(limits) + (span / limits.resetTimeout).Floor
  {
    var own := Own(Reached(FRESH, limits, calls));
    if own != [] {
      OutageGuarded(limits, calls, calls[|calls| - 1].end);
      SpacedBounded(own, limits, span);
    }
  }

  lemma {:induction false} OwnAll(calls: seq<Call>)
    requires forall c :: c in calls ==> !c.foreign
    ensures Own(calls) == calls
  {
    if calls != [] {
      OwnAll(calls[..|calls| - 1]);
      assert calls == calls[..|calls| - 1] + [calls[|calls| - 1]];
    }
  }

  lemma {:induction false} ReachedFrom(limits: Limits, calls: seq<Call>)
    ensures forall c :: c in Reached(FRESH, limits, calls) ==> c in calls
  {
    if calls != [] {
      ReachedFrom(limits, calls[..|calls| - 1]);
    }
  }

  /** Without foreign errors that is a bound on all calls that reach the dependency. */
  lemma LibraryOutageBounded(limits: Limits, calls: seq<Call>, span: real)
    requires limits.resetTimeout > 0.0 && span >= 0.0 && Timeline(calls)
    requires forall c :: c in calls ==> !c.foreign
    ensures
      var reached := Reached(FRESH, limits, calls);
      reached != [] ==> Within(reached, reached[0].begin, span) <= Patience(limits) + (span / limits.resetTimeout).Floor
  {
    ReachedFrom(limits, calls);
    OwnAll(Reached(FRESH, limits, calls));
    OutageBounded(limits, calls, span);
  }

  /**
   * With foreign errors it is none: once the breaker is not open, and so from its first trial call on,
   * every call that fails with a foreign error reaches the dependency, and leaves the breaker as it was.
   */
  lemma {:induction false} ForeignErrorsAllReach(limits: Limits, before: seq<Call>, flood: seq<Call>)
    requires AfterCalls(FRESH, limits, before).state != OPEN && forall c :: c in flood ==> c.foreign
    ensures Reached(FRESH, limits, before + flood) == Reached(FRESH, limits, before) + flood
    ensures AfterCalls(FRESH, limits, before + flood) == AfterCalls(FRESH, limits, before)
  {
    if flood == [] {
      assert before + flood == before;
    } else {
      var front, last := flood[..|flood| - 1], flood[|flood| - 1];
      assert (before + flood)[..|before + flood| - 1] == before + front && flood == front + [last];
      ForeignErrorsAllReach(limits, before, front);
    }
  }

  // ----- the retry loop

  datatype RetryPolicy = RetryPolicy(maxAttempts: int, baseDelay: real, maxDelay: real)

  /** How one call of the wrapped function ends. */
  datatype Reply =
    | Success
    | LibraryError(retryable: bool, retryAfter: Option<real>, at: real)
    | ForeignError

  /** One attempt: when it begins, how the call would end, and what is drawn for a delay after it. */
  datatype Try = Try(begin: real, reply: Reply, draw: real)

  datatype RetryOutcome = Returned | RaisedLibraryError | RaisedForeignError | RaisedCircuitOpen | NeverTried

  datatype Delay = Delay(seconds: real, computed: bool)

  datatype RetryRun = RetryRun(outcome: RetryOutcome, breaker: Option<Breaker>, calls: nat, delays: seq<Delay>)

  function Power2(n: nat): nat {
    if n == 0 then 1 else 2 * Power2(n - 1)
  }

  /** The base delay, doubled with every attempt. */
  function Doubled(base: real, attempt: nat): real {
    if attempt == 0 then base else 2.0 * Doubled(base, attempt - 1)
  }

  lemma {:induction false} DoubledIsPower(base: real, attempt: nat)
    ensures Doubled(base, attempt) == base * Power2(attempt) as real
    ensures base >= 0.0 ==> Doubled(base, attempt) >= 0.0
  {
    if attempt > 0 { DoubledIsPower(base, attempt - 1); }
  }

  function DelayCap(policy: RetryPolicy, attempt: nat): real {
    var grown := Doubled(policy.baseDelay, attempt);
    if grown < policy.maxDelay then grown else policy.maxDelay
  }

  /** A number drawn between zero and the cap: any number in between is its own draw. */
  function Uniform(cap: real, draw: real): (r: real)
    ensures cap >= 0.0 ==> 0.0 <= r <= cap && (0.0 <= draw <= cap ==> r == draw)
    ensures cap < 0.0 ==> cap <= r <= 0.0 && (cap <= draw <= 0.0 ==> r == draw)
  {
    var low, high := if cap < 0.0 then cap else 0.0, if cap < 0.0 then 0.0 else cap;
    if draw < low then low else if draw > high then high else draw
  }

  function DelayAfter(policy: RetryPolicy, attempt: nat, error: Reply, draw: real): Delay
    requires error.LibraryError?
  {
    if error.retryAfter.Some? then Delay(error.retryAfter.value, false)
    else Delay(Uniform(DelayCap(policy, attempt), draw), true)
  }

  /** The wrapped call from a given attempt on. */
  function RetryFrom(b: Option<Breaker>, limits: Limits, policy: RetryPolicy, tries: seq<Try>, attempt: nat): RetryRun
    requires |tries| >= policy.maxAttempts
    decreases policy.maxAttempts - attempt
  {
    if attempt >= policy.maxAttempts then RetryRun(NeverTried, b, 0, [])
    else
      var t := tries[attempt];
      var admitted := if b.None? then b else Admit(b.value, limits, t.begin);
      if b.Some? && admitted.None? then RetryRun(RaisedCircuitOpen, b, 0, [])
      else
        match t.reply
        case Success => RetryRun(Returned, if b.Some? then Some(OnSuccess(admitted.value)) else b, 1, [])
        case ForeignError => RetryRun(RaisedForeignError, admitted, 1, [])
        case LibraryError(retryable, _, at) =>
          var failed := if b.Some? then Some(OnFailure(admitted.value, limits, at)) else b;
          if !retryable || attempt == policy.maxAttempts - 1 then RetryRun(RaisedLibraryError, failed, 1, [])
          else
            var rest := RetryFrom(failed, limits, policy, tries, attempt + 1);
            rest.(calls := rest.calls + 1, delays := [DelayAfter(policy, attempt, t.reply, t.draw)] + rest.delays)
  }

  /** A run after earlier calls and delays. */
  function After(calls: nat, delays: seq<Delay>, rest: RetryRun): RetryRun {
    rest.(calls := calls + rest.calls, delays := delays + rest.delays)
  }

  lemma AfterOneMore(calls: nat, delays: seq<Delay>, delay: Delay, rest: RetryRun)
    ensures After(calls, delays, rest.(calls := rest.calls + 1, delays := [delay] + rest.delays))
      == After(calls + 1, delays + [delay], rest)
  {
    assert delays + ([delay] + rest.delays) == delays + [delay] + rest.delays;
  }

  ghost function ViewOf(breaker: CircuitBreaker?): Option<Breaker>
    reads breaker
  {
    if breaker == null then None else Some(breaker.View())
  }

  method Retry(breaker: CircuitBreaker?, policy: RetryPolicy, tries: seq<Try>)
    returns (outcome: RetryOutcome, calls: nat, delays: seq<Delay>)
    requires |tries| >= policy.maxAttempts
    modifies if breaker == null then {} else {breaker}
    ensures RetryRun(outcome, ViewOf(breaker), calls, delays)
      == RetryFrom(
          old(ViewOf(breaker)), if breaker == null then Limits(0, 0.0) else breaker.limits, policy, tries, 0)
    ensures Truthful(
              RetryRun(outcome, ViewOf(breaker), calls, delays),
              old(ViewOf(breaker)), if breaker == null then Limits(0, 0.0) else breaker.limits, policy, tries, 0)
  {
    hide Truthful, Power2, Doubled, DelayAfter;
    calls, delays := 0, [];
    ghost var limits := if breaker == null then Limits(0, 0.0) else breaker.limits;
    ghost var goal := RetryFrom(ViewOf(breaker), limits, policy, tries, 0);
    RetryTruthful(ViewOf(breaker), limits, policy, tries, 0);
    var attempt: nat := 0;
    while attempt < policy.maxAttempts
      invariant 0 <= attempt && (policy.maxAttempts >= 0 ==> attempt <= policy.maxAttempts)
      invariant goal == After(calls, delays, RetryFrom(ViewOf(breaker), limits, policy, tries, attempt))
      decreases policy.maxAttempts - attempt
    {
      var t := tries[attempt];
      if breaker != null {
        var admitted := breaker.BeforeCall(t.begin);
        if !admitted { return RaisedCircuitOpen, calls, delays; }
      }
      calls := calls + 1;
      match t.reply {
        case Success =>
          if breaker != null { breaker.RecordSuccess(); }
          return Returned, calls, delays;
        case ForeignError =>
          return RaisedForeignError, calls, delays;
        case LibraryError(retryable, retryAfter, at) =>
          if breaker != null { breaker.RecordFailure(at); }
          if !retryable || attempt == policy.maxAttempts - 1 { return RaisedLibraryError, calls, delays; }
          var delay := DelayAfter(policy, attempt, t.reply, t.draw);
          AfterOneMore(calls - 1, delays, delay, RetryFrom(ViewOf(breaker), limits, policy, tries, attempt + 1));
          delays := delays + [delay];
          attempt := attempt + 1;
      }
    }
    return NeverTried, calls, delays;
  }

  // ----- a retried call as part of an outage

  function CallOf(t: Try): Call {
    match t.reply
    case LibraryError(_, _, at) => Call(t.begin, at, false)
    case _ => Call(t.begin, t.begin, true)
  }

  /** The failing calls of the first n attempts from a given one on. */
  function Failures(tries: seq<Try>, attempt: nat, n: nat): (calls: seq<Call>)
    requires attempt + n <= |tries|
    ensures |calls| == n
  {
    seq(n, k requires 0 <= k < n => CallOf(tries[attempt + k]))
  }

  lemma {:induction false} CallsSplit(b: Breaker, limits: Limits, front: seq<Call>, back: seq<Call>)
    ensures AfterCalls(b, limits, front + back) == AfterCalls(AfterCalls(b, limits, front), limits, back)
    ensures Reached(b, limits, front + back)
      == Reached(b, limits, front) + Reached(AfterCalls(b, limits, front), limits, back)
  {
    if back == [] {
      assert front + back == front;
    } else {
      var last := |back| - 1;
      assert (front + back)[..|front + back| - 1] == front + back[..last];
      CallsSplit(b, limits, front, back[..last]);
    }
  }

  lemma OneCall(b: Breaker, limits: Limits, call: Call)
    ensures AfterCalls(b, limits, [call]) == AfterCall(b, limits, call)
    ensures Reached(b, limits, [call]) == if Admit(b, limits, call.begin).Some? then [call] else []
  {
    assert [call][..0] == [];
  }

  // ----- what a retried call does

  function BreakerAfter(b: Option<Breaker>, limits: Limits, calls: seq<Call>): Option<Breaker> {
    if b.None? then None else Some(AfterCalls(b.value, limits, calls))
  }

  /** The base delay times two to the power of the attempt. */
  ghost function Grown(policy: RetryPolicy, attempt: nat): real {
    policy.baseDelay * Power2(attempt) as real
  }

  /** The delay the error asked for, or else one drawn between nothing and the smaller of the two bounds. */
  ghost predicate Slept(delay: Delay, policy: RetryPolicy, error: Reply, draw: real, attempt: nat) {
    error.LibraryError? &&
    match error.retryAfter
    case Some(asked) => delay == Delay(asked, false)
    case None =>
      var cap := if policy.maxDelay < Grown(policy, attempt) then policy.maxDelay else Grown(policy, attempt);
      delay == Delay(Uniform(cap, draw), true)
  }

  /** An attempt that is not the last one: it is let through, fails with a retryable error, and is slept after. */
  ghost predicate Retried(
    delay: Delay, b: Option<Breaker>, limits: Limits, policy: RetryPolicy, tries: seq<Try>, n: nat)
    requires |tries| >= policy.maxAttempts
  {
    && n + 1 < policy.maxAttempts
    && (b.Some? ==> Admit(b.value, limits, tries[n].begin).Some?)
    && tries[n].reply.LibraryError? && tries[n].reply.retryable
    && Slept(delay, policy, tries[n].reply, tries[n].draw, n)
  }

  /** How a run ends in its last attempt, and what becomes of the breaker. */
  ghost predicate EndsIn(
    outcome: RetryOutcome, after: Option<Breaker>,
    b: Option<Breaker>, limits: Limits, policy: RetryPolicy, tries: seq<Try>, n: nat)
    requires |tries| >= policy.maxAttempts
  {
    if n >= policy.maxAttempts then outcome == NeverTried && after == b
    else
      var t := tries[n];
      var open := b.Some? && Admit(b.value, limits, t.begin).None?;
      && (outcome == RaisedCircuitOpen <==> open)
      && (outcome == Returned <==> !open && t.reply.Success?)
      && (outcome == RaisedForeignError <==> !open && t.reply.ForeignError?)
      && (outcome == RaisedLibraryError <==>
            !open && t.reply.LibraryError? && (!t.reply.retryable || n + 1 == policy.maxAttempts))
      && outcome != NeverTried
      && (b.None? ==> after.None?)
      && (b.Some? && outcome == Returned ==>
            after.Some? && after.value.state == CLOSED && after.value.failures == 0)
      && (b.Some? && outcome != Returned ==> after == Some(AfterCall(b.value, limits, CallOf(t))))
  }

  /** Every attempt of a run but the last is retried, and the last one ends it as it should. */
  ghost predicate Truthful(
    r: RetryRun, b: Option<Breaker>, limits: Limits, policy: RetryPolicy, tries: seq<Try>, attempt: nat)
    requires |tries| >= policy.maxAttempts
  {
    var n := |r.delays|;
    && attempt + n <= |tries|
    && r.calls == n + (if r.outcome == RaisedCircuitOpen || r.outcome == NeverTried then 0 else 1)
    && (forall k :: 0 <= k < n ==>
          Retried(r.delays[k], BreakerAfter(b, limits, Failures(tries, attempt, k)), limits, policy, tries, attempt + k))
    && EndsIn(
         r.outcome, r.breaker, BreakerAfter(b, limits, Failures(tries, attempt, n)), limits, policy, tries, attempt + n)
  }

  lemma DelayIsSlept(policy: RetryPolicy, attempt: nat, error: Reply, draw: real)
    requires error.LibraryError?
    ensures Slept(DelayAfter(policy, attempt, error, draw), policy, error, draw, attempt)
  {
    DoubledIsPower(policy.baseDelay, attempt);
    assert Doubled(policy.baseDelay, attempt) == Grown(policy, attempt);
    hide Grown, Doubled, Power2, Uniform;
  }

  lemma FailuresFrom(b: Option<Breaker>, limits: Limits, tries: seq<Try>, attempt: nat, n: nat)
    requires attempt + n < |tries|
    ensures BreakerAfter(b, limits, Failures(tries, attempt, n + 1))
      == BreakerAfter(
          if b.None? then b else Some(AfterCall(b.value, limits, CallOf(tries[attempt]))), limits,
          Failures(tries, attempt + 1, n))
  {
    if b.Some? {
      OneCall(b.value, limits, CallOf(tries[attempt]));
      assert Failures(tries, attempt, n + 1) == [CallOf(tries[attempt])] + Failures(tries, attempt + 1, n);
      CallsSplit(b.value, limits, [CallOf(tries[attempt])], Failures(tries, attempt + 1, n));
    }
  }

  lemma NothingFailed(b: Option<Breaker>, limits: Limits, tries: seq<Try>, attempt: nat)
    requires attempt <= |tries|
    ensures BreakerAfter(b, limits, Failures(tries, attempt, 0)) == b
  {
  }

  lemma RetryEnds(b: Option<Breaker>, limits: Limits, policy: RetryPolicy, tries: seq<Try>, attempt: nat)
    requires attempt <= |tries| && |tries| >= policy.maxAttempts
    ensures
      var r := RetryFrom(b, limits, policy, tries, attempt);
      r.delays == [] ==>
        && EndsIn(r.outcome, r.breaker, b, limits, policy, tries, attempt)
        && r.calls == if r.outcome == RaisedCircuitOpen || r.outcome == NeverTried then 0 else 1
  {
    hide DelayAfter, AfterCalls;
  }

  lemma RetryGoesOn(
    rest: RetryRun, delay: Delay, b: Option<Breaker>, limits: Limits, policy: RetryPolicy, tries: seq<Try>, attempt: nat)
    requires attempt < policy.maxAttempts <= |tries| && Retried(delay, b, limits, policy, tries, attempt)
    requires
      var after := if b.None? then b else Some(AfterCall(b.value, limits, CallOf(tries[attempt])));
      Truthful(rest, after, limits, policy, tries, attempt + 1)
    ensures Truthful(rest.(calls := rest.calls + 1, delays := [delay] + rest.delays), b, limits, policy, tries, attempt)
  {
    hide Retried, EndsIn, AfterCalls, BreakerAfter;
    var r := rest.(calls := rest.calls + 1, delays := [delay] + rest.delays);
    forall k | 0 <= k < |r.delays|
      ensures
        Retried(r.delays[k], BreakerAfter(b, limits, Failures(tries, attempt, k)), limits, policy, tries, attempt + k)
    {
      if k == 0 {
        NothingFailed(b, limits, tries, attempt);
      } else {
        FailuresFrom(b, limits, tries, attempt, k - 1);
      }
    }
    FailuresFrom(b, limits, tries, attempt, |rest.delays|);
  }

  /**
   * Exactly when a retried call is tried again, and how it ends: every attempt before the last is let
   * through by the breaker, fails with a retryable error of the library and is followed by the delay the
   * error asks for or by a drawn one; the last one finds the breaker open, succeeds, fails with a foreign
   * error, or fails with an error of the library that is not retryable or has no attempt left.
   */
  lemma {:induction false} RetryTruthful(
    b: Option<Breaker>, limits: Limits, policy: RetryPolicy, tries: seq<Try>, attempt: nat)
    requires attempt <= |tries| && |tries| >= policy.maxAttempts
    ensures Truthful(RetryFrom(b, limits, policy, tries, attempt), b, limits, policy, tries, attempt)
    decreases policy.maxAttempts - attempt
  {
    hide Slept, Grown, DelayAfter, AfterCalls, EndsIn;
    var r := RetryFrom(b, limits, policy, tries, attempt);
    NothingFailed(b, limits, tries, attempt);
    if r.delays != [] {
      var t := tries[attempt];
      var after := if b.None? then b else Some(AfterCall(b.value, limits, CallOf(t)));
      var rest := RetryFrom(after, limits, policy, tries, attempt + 1);
      RetryTruthful(after, limits, policy, tries, attempt + 1);
      DelayIsSlept(policy, attempt, t.reply, t.draw);
      RetryGoesOn(rest, r.delays[0], b, limits, policy, tries, attempt);
    } else {
      RetryEnds(b, limits, policy, tries, attempt);
    }
  }

  lemma SleptCapped(delay: Delay, policy: RetryPolicy, error: Reply, draw: real, attempt: nat)
    requires policy.baseDelay >= 0.0 && policy.maxDelay >= 0.0
    requires Slept(delay, policy, error, draw, attempt) && delay.computed
    ensures 0.0 <= delay.seconds <= policy.maxDelay && delay.seconds <= Grown(policy, attempt)
  {
    assert Grown(policy, attempt) >= 0.0 by { DoubledIsPower(policy.baseDelay, attempt); }
    hide Grown, Uniform;
  }

  /** Every drawn delay lies between nothing and both bounds. */
  ghost predicate DelaysCapped(delays: seq<Delay>, policy: RetryPolicy, first: nat) {
    forall k :: 0 <= k < |delays| && delays[k].computed ==>
      0.0 <= delays[k].seconds <= policy.maxDelay && delays[k].seconds <= Grown(policy, first + k)
  }

  /**
   * A retried call reaches the wrapped function at most max_attempts times, sleeps only between two
   * calls, never longer than its bounds unless the error asked for a delay, and succeeds exactly when its
   * last call does; only a policy that allows no attempt makes it fall out of its loop.
   */
  lemma RetryBounded(b: Option<Breaker>, limits: Limits, policy: RetryPolicy, tries: seq<Try>, attempt: nat)
    requires attempt <= |tries| && |tries| >= policy.maxAttempts && policy.baseDelay >= 0.0 && policy.maxDelay >= 0.0
    ensures
      var r := RetryFrom(b, limits, policy, tries, attempt);
      && r.calls <= Max(0, policy.maxAttempts - attempt)
      && |r.delays| == (if r.outcome == RaisedCircuitOpen || r.outcome == NeverTried then r.calls else r.calls - 1)
      && DelaysCapped(r.delays, policy, attempt)
      && (r.outcome == NeverTried <==> attempt >= policy.maxAttempts)
      && (r.outcome == Returned <==> r.calls > 0 && tries[attempt + r.calls - 1].reply.Success?)
  {
    var r := RetryFrom(b, limits, policy, tries, attempt);
    RetryTruthful(b, limits, policy, tries, attempt);
    hide Slept, Grown, RetryFrom, AfterCalls, BreakerAfter, Failures, AfterCall, Admit;
    var last := |r.delays| - 1;
    if last >= 0 {
      var before := BreakerAfter(b, limits, Failures(tries, attempt, last));
      assert Retried(r.delays[last], before, limits, policy, tries, attempt + last);
    }
    forall k | 0 <= k < |r.delays| && r.delays[k].computed
      ensures 0.0 <= r.delays[k].seconds <= policy.maxDelay
      ensures r.delays[k].seconds <= Grown(policy, attempt + k)
    {
      assert Slept(r.delays[k], policy, tries[attempt + k].reply, tries[attempt + k].draw, attempt + k);
      SleptCapped(r.delays[k], policy, tries[attempt + k].reply, tries[attempt + k].draw, attempt + k);
    }
  }

  /** The calls of a retry from an attempt on, and the call that found the breaker open, if any. */
  function CallsMade(r: RetryRun): nat {
    r.calls + if r.outcome == RaisedCircuitOpen then 1 else 0
  }

  /** The first n attempts, all failing, take the breaker from b to the run's breaker, and all but a refused one reach. */
  ghost predicate PartOfOutage(r: RetryRun, b: Breaker, limits: Limits, tries: seq<Try>, attempt: nat) {
    && attempt + CallsMade(r) <= |tries|
    && r.breaker == Some(AfterCalls(b, limits, Failures(tries, attempt, CallsMade(r))))
    && |Reached(b, limits, Failures(tries, attempt, CallsMade(r)))| == r.calls
  }

  lemma PartExtended(rest: RetryRun, b: Breaker, limits: Limits, tries: seq<Try>, attempt: nat, r: RetryRun)
    requires attempt < |tries| && Admit(b, limits, tries[attempt].begin).Some?
    requires PartOfOutage(rest, AfterCall(b, limits, CallOf(tries[attempt])), limits, tries, attempt + 1)
    requires r.breaker == rest.breaker && r.calls == rest.calls + 1 && r.outcome == rest.outcome
    ensures PartOfOutage(r, b, limits, tries, attempt)
  {
    var call, n := CallOf(tries[attempt]), CallsMade(rest);
    OneCall(b, limits, call);
    assert Failures(tries, attempt, n + 1) == [call] + Failures(tries, attempt + 1, n);
    CallsSplit(b, limits, [call], Failures(tries, attempt + 1, n));
  }

  lemma SingleCall(r: RetryRun, b: Breaker, limits: Limits, tries: seq<Try>, attempt: nat)
    requires attempt < |tries| && CallsMade(r) == 1 && r.breaker == Some(AfterCall(b, limits, CallOf(tries[attempt])))
    requires r.calls == if Admit(b, limits, tries[attempt].begin).Some? then 1 else 0
    ensures PartOfOutage(r, b, limits, tries, attempt)
  {
    assert Failures(tries, attempt, 1) == [CallOf(tries[attempt])];
    OneCall(b, limits, CallOf(tries[attempt]));
  }

  /**
   * A retried call that never succeeds is to its breaker just a stretch of the outage: its calls are
   * those that reach the dependency, and it leaves the breaker in the state that stretch leaves it in.
   */
  lemma {:induction false} RetryIsPartOfOutage(
    b: Breaker, limits: Limits, policy: RetryPolicy, tries: seq<Try>, attempt: nat)
    requires attempt <= policy.maxAttempts <= |tries| && forall t :: t in tries ==> !t.reply.Success?
    ensures PartOfOutage(RetryFrom(Some(b), limits, policy, tries, attempt), b, limits, tries, attempt)
    decreases policy.maxAttempts - attempt
  {
    var r := RetryFrom(Some(b), limits, policy, tries, attempt);
    if attempt < policy.maxAttempts {
      var t := tries[attempt];
      assert t in tries;
      if Admit(b, limits, t.begin).Some? && t.reply.LibraryError? && t.reply.retryable && attempt < policy.maxAttempts - 1 {
        var next := AfterCall(b, limits, CallOf(t));
        RetryIsPartOfOutage(next, limits, policy, tries, attempt + 1);
        PartExtended(RetryFrom(Some(next), limits, policy, tries, attempt + 1), b, limits, tries, attempt, r);
      } else {
        SingleCall(r, b, limits, tries, attempt);
      }
    }
  }
}
