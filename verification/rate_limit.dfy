/** The per-address sliding window of accepted requests. */
module RateLimit {
  import opened Work

  const RATE_LIMIT := 30
  const RATE_WINDOW := 60.0

  /** The times still inside the window, in order. */
  function Recent(times: seq<real>, now: real): seq<real> {
    if times == [] then []
    else
      var last := times[|times| - 1];
      Recent(times[..|times| - 1], now) + if now - last < RATE_WINDOW then [last] else []
  }

  type Buckets = map<string, seq<real>>

  function BucketOf(buckets: Buckets, ip: string): seq<real> {
    if ip in buckets then buckets[ip] else []
  }

  predicate Accepts(buckets: Buckets, ip: string, now: real) {
    |Recent(BucketOf(buckets, ip), now)| < RATE_LIMIT
  }

  /** Only an accepted request changes its bucket; only then is the bucket pruned. */
  function AfterCheck(buckets: Buckets, ip: string, now: real): Buckets {
    if Accepts(buckets, ip, now) then buckets[ip := Recent(BucketOf(buckets, ip), now) + [now]] else buckets
  }

  class RateLimiter {
    var buckets: Buckets

    constructor ()
      ensures buckets == map[]
    {
      buckets := map[];
    }

    method Check(ip: string, now: real) returns (accepted: bool)
      modifies this
      ensures accepted == Accepts(old(buckets), ip, now) && buckets == AfterCheck(old(buckets), ip, now)
    {
      var times := BucketOf(buckets, ip);
      var bucket := [];
      for k := 0 to |times|
        invariant bucket == Recent(times[..k], now)
        invariant buckets == old(buckets)
      {
        assert times[..k + 1][..k] == times[..k];
        if now - times[k] < RATE_WINDOW { bucket := bucket + [times[k]]; }
      }
      assert times[..|times|] == times;
      if |bucket| >= RATE_LIMIT { return false; }
      buckets := buckets[ip := bucket + [now]];
      return true;
    }
  }

  // ----- any sequence of requests

  datatype Request = Request(ip: string, at: real)

  predicate ClockRuns(rs: seq<Request>) {
    rs == [] || (ClockRuns(rs[..|rs| - 1]) && (|rs| > 1 ==> rs[|rs| - 2].at <= rs[|rs| - 1].at))
  }

  function After(rs: seq<Request>): Buckets {
    if rs == [] then map[] else AfterCheck(After(rs[..|rs| - 1]), rs[|rs| - 1].ip, rs[|rs| - 1].at)
  }

  /** Times at which requests of an address were accepted. */
  function Accepted(rs: seq<Request>, ip: string): seq<real> {
    if rs == [] then []
    else
      var last := rs[|rs| - 1];
      Accepted(rs[..|rs| - 1], ip)
        + if last.ip == ip && Accepts(After(rs[..|rs| - 1]), ip, last.at) then [last.at] else []
  }

  /** How many times lie in a window of the limiter's length that starts at a given moment. */
  function InWindow(times: seq<real>, start: real): nat {
    if times == [] then 0
    else
      var last := times[|times| - 1];
      InWindow(times[..|times| - 1], start) + if start <= last && last - start < RATE_WINDOW then 1 else 0
  }

  /** Pruning early loses nothing that pruning later would keep. */
  lemma {:induction false} RecentOfRecent(times: seq<real>, earlier: real, later: real)
    requires earlier <= later
    ensures Recent(Recent(times, earlier), later) == Recent(times, later)
  {
    if times != [] {
      var front, last := times[..|times| - 1], times[|times| - 1];
      RecentOfRecent(front, earlier, later);
      if earlier - last < RATE_WINDOW {
        assert (Recent(front, earlier) + [last])[..|Recent(front, earlier)|] == Recent(front, earlier);
      } else {
        assert Recent(front, earlier) + [] == Recent(front, earlier);
        assert Recent(front, later) + [] == Recent(front, later);
      }
    }
  }

  lemma RecentAppend(times: seq<real>, t: real, now: real)
    ensures Recent(times + [t], now) == Recent(times, now) + if now - t < RATE_WINDOW then [t] else []
  {
    assert (times + [t])[..|times|] == times;
  }

  /** The bucket of an address answers for everything it ever accepted, although it is pruned only on acceptance. */
  lemma {:induction false} BucketsRemember(rs: seq<Request>, ip: string, now: real)
    requires ClockRuns(rs) && (rs != [] ==> rs[|rs| - 1].at <= now)
    ensures Recent(BucketOf(After(rs), ip), now) == Recent(Accepted(rs, ip), now)
  {
    if rs != [] {
      var front, last := rs[..|rs| - 1], rs[|rs| - 1];
      BucketsRemember(front, ip, last.at);
      BucketsRemember(front, ip, now);
      var bucket := BucketOf(After(front), ip);
      if last.ip == ip && Accepts(After(front), ip, last.at) {
        RecentAppend(Recent(bucket, last.at), last.at, now);
        RecentAppend(Accepted(front, ip), last.at, now);
        RecentOfRecent(bucket, last.at, now);
      } else {
        assert Accepted(front, ip) + [] == Accepted(front, ip);
      }
    }
  }

  /** No bucket ever holds more than the limit, nor anything that was not accepted. */
  lemma {:induction false} BucketsBounded(rs: seq<Request>, ip: string)
    ensures |BucketOf(After(rs), ip)| <= RATE_LIMIT
    ensures forall t :: t in BucketOf(After(rs), ip) ==> t in Accepted(rs, ip)
  {
    if rs != [] {
      var front, last := rs[..|rs| - 1], rs[|rs| - 1];
      BucketsBounded(front, ip);
      RecentKept(BucketOf(After(front), ip), last.at);
    }
  }

  lemma {:induction false} RecentKept(times: seq<real>, now: real)
    ensures forall t :: t in Recent(times, now) ==> t in times
  {
    if times != [] { RecentKept(times[..|times| - 1], now); }
  }

  /** The places of the times less than one window before a given moment. */
  ghost function RecentAt(times: seq<real>, now: real): set<nat> {
    set k: nat | k < |times| && now - times[k] < RATE_WINDOW
  }

  lemma {:induction false} RecentCounted(times: seq<real>, now: real)
    ensures |Recent(times, now)| == |RecentAt(times, now)|
  {
    if times != [] {
      var n := |times| - 1;
      RecentCounted(times[..n], now);
      var before := RecentAt(times[..n], now);
      assert RecentAt(times, now) == if now - times[n] < RATE_WINDOW then before + {n} else before;
    }
  }

  /**
   * A request is accepted exactly when fewer than the limit of the address's requests were accepted less
   * than one window ago.
   */
  lemma AcceptedExactlyBelowLimit(rs: seq<Request>, ip: string, now: real)
    requires ClockRuns(rs) && (rs != [] ==> rs[|rs| - 1].at <= now)
    ensures Accepts(After(rs), ip, now) <==> |RecentAt(Accepted(rs, ip), now)| < RATE_LIMIT
  {
    BucketsRemember(rs, ip, now);
    RecentCounted(Accepted(rs, ip), now);
  }

  lemma {:induction false} WindowIsRecent(times: seq<real>, start: real, now: real)
    requires now - start < RATE_WINDOW
    ensures InWindow(times, start) <= |Recent(times, now)|
  {
    if times != [] { WindowIsRecent(times[..|times| - 1], start, now); }
  }

  lemma InWindowAppend(times: seq<real>, t: real, start: real)
    ensures InWindow(times + [t], start) == InWindow(times, start) + if start <= t && t - start < RATE_WINDOW then 1 else 0
  {
    assert (times + [t])[..|times|] == times;
  }

  /** No window of the limiter's length ever holds more than the limit of accepted requests of one address. */
  lemma {:induction false} NoWindowOverLimit(rs: seq<Request>, ip: string, start: real)
    requires ClockRuns(rs)
    ensures InWindow(Accepted(rs, ip), start) <= RATE_LIMIT
  {
    if rs != [] {
      var front, last := rs[..|rs| - 1], rs[|rs| - 1];
      NoWindowOverLimit(front, ip, start);
      var before := Accepted(front, ip);
      if last.ip == ip && Accepts(After(front), ip, last.at) {
        BucketsRemember(front, ip, last.at);
        InWindowAppend(before, last.at, start);
        if last.at - start < RATE_WINDOW { WindowIsRecent(before, start, last.at); }
      } else {
        assert before + [] == before;
      }
    }
  }
}
