/** The inference queue: append, stable sort by descending priority, pop from the front. */
module InferenceQueue {
  import opened Work

  /** A request. Its arrival number tells requests apart and stands for the order of acceptance. */
  datatype Request = Request(id: string, priority: int, arrival: nat)

  /** Stable insertion from the right: after everything of at least its priority. */
  function Insert(queue: seq<Request>, r: Request): seq<Request> {
    if queue == [] then [r]
    else
      var n := |queue| - 1;
      if queue[n].priority < r.priority then Insert(queue[..n], r) + [queue[n]] else queue + [r]
  }

  /** A stable sort by descending priority. */
  function StableSort(queue: seq<Request>): seq<Request> {
    if queue == [] then [] else Insert(StableSort(queue[..|queue| - 1]), queue[|queue| - 1])
  }

  function Without(queue: seq<Request>, id: string): seq<Request> {
    if queue == [] then []
    else
      var last := queue[|queue| - 1];
      Without(queue[..|queue| - 1], id) + if last.id != id then [last] else []
  }

  class LocalInferenceScheduler {
    const maxDepth: int
    var queue: seq<Request>

    constructor (maxDepth: int)
      ensures this.maxDepth == maxDepth && queue == []
    {
      this.maxDepth, queue := maxDepth, [];
    }

    method Enqueue(r: Request) returns (accepted: bool)
      modifies this
      ensures accepted <==> |old(queue)| < maxDepth
      ensures queue == if accepted then StableSort(old(queue) + [r]) else old(queue)
    {
      if |queue| >= maxDepth { return false; }
      queue := queue + [r];
      queue := StableSort(queue);
      return true;
    }

    method Cancel(id: string) returns (cancelled: bool)
      modifies this
      ensures queue == Without(old(queue), id) && (cancelled <==> |queue| < |old(queue)|)
    {
      var kept := [];
      for k := 0 to |queue|
        invariant queue == old(queue) && kept == Without(queue[..k], id)
      {
        assert queue[..k + 1][..k] == queue[..k];
        if queue[k].id != id { kept := kept + [queue[k]]; }
      }
      assert queue[..|queue|] == queue;
      cancelled := |kept| < |queue|;
      queue := kept;
    }

    method PopNext() returns (r: Option<Request>)
      modifies this
      ensures r.None? <==> old(queue) == []
      ensures r.None? ==> queue == old(queue)
      ensures r.Some? ==> old(queue) == [r.value] + queue
    {
      if queue == [] { return None; }
      r := Some(queue[0]);
      queue := queue[1..];
    }
  }

  // ----- the order of the queue

  /** The order of service: higher priority first, then earlier arrival. */
  predicate Ahead(a: Request, b: Request) {
    a.priority > b.priority || (a.priority == b.priority && a.arrival < b.arrival)
  }

  ghost predicate Ranked(queue: seq<Request>) {
    forall i, j :: 0 <= i < j < |queue| ==> Ahead(queue[i], queue[j])
  }

  lemma RankedAppend(queue: seq<Request>, x: Request)
    requires Ranked(queue) && forall q :: q in queue ==> Ahead(q, x)
    ensures Ranked(queue + [x])
  {
  }

  /** The last one comes after all others. */
  lemma LastIsBehind(queue: seq<Request>, q: Request)
    requires Ranked(queue) && queue != [] && q in queue[..|queue| - 1]
    ensures Ahead(q, queue[|queue| - 1])
  {
    var i :| 0 <= i < |queue| - 1 && queue[i] == q;
  }

  lemma {:induction false} InsertHolds(queue: seq<Request>, r: Request)
    ensures multiset(Insert(queue, r)) == multiset(queue) + multiset{r}
    ensures forall x :: x in Insert(queue, r) <==> x in queue || x == r
  {
    if queue != [] {
      assert queue == queue[..|queue| - 1] + [queue[|queue| - 1]];
      InsertHolds(queue[..|queue| - 1], r);
    }
  }

  lemma {:induction false} InsertRanked(queue: seq<Request>, r: Request)
    requires Ranked(queue) && forall q :: q in queue ==> q.arrival < r.arrival
    ensures Ranked(Insert(queue, r))
  {
    if queue != [] {
      var n := |queue| - 1;
      if queue[n].priority < r.priority {
        InsertRanked(queue[..n], r);
        InsertHolds(queue[..n], r);
        forall q | q in Insert(queue[..n], r) ensures Ahead(q, queue[n]) {
          if q in queue[..n] { LastIsBehind(queue, q); }
        }
        RankedAppend(Insert(queue[..n], r), queue[n]);
      } else {
        forall q | q in queue ensures Ahead(q, r) {
          assert queue == queue[..n] + [queue[n]];
          if q in queue[..n] { LastIsBehind(queue, q); }
        }
        RankedAppend(queue, r);
      }
    }
  }

  /** A queue in order stays as it is under the sort. */
  lemma {:induction false} SortedStays(queue: seq<Request>)
    requires Ranked(queue)
    ensures StableSort(queue) == queue
  {
    if queue != [] {
      var n := |queue| - 1;
      SortedStays(queue[..n]);
      assert queue == queue[..n] + [queue[n]];
      if n > 0 { assert Ahead(queue[n - 1], queue[n]); }
    }
  }

  lemma EnqueueInserts(queue: seq<Request>, r: Request)
    requires Ranked(queue)
    ensures StableSort(queue + [r]) == Insert(queue, r)
  {
    assert (queue + [r])[..|queue|] == queue;
    SortedStays(queue);
  }

  /** What was cancelled, in the same order. */
  function Only(queue: seq<Request>, id: string): seq<Request> {
    if queue == [] then []
    else
      var last := queue[|queue| - 1];
      Only(queue[..|queue| - 1], id) + if last.id == id then [last] else []
  }

  lemma {:induction false} WithoutHolds(queue: seq<Request>, id: string)
    ensures forall x :: x in Without(queue, id) <==> x in queue && x.id != id
    ensures multiset(queue) == multiset(Without(queue, id)) + multiset(Only(queue, id))
    ensures |Without(queue, id)| <= |queue|
  {
    if queue != [] {
      assert queue == queue[..|queue| - 1] + [queue[|queue| - 1]];
      WithoutHolds(queue[..|queue| - 1], id);
    }
  }

  lemma {:induction false} WithoutRanked(queue: seq<Request>, id: string)
    requires Ranked(queue)
    ensures Ranked(Without(queue, id))
  {
    if queue != [] {
      var n := |queue| - 1;
      WithoutRanked(queue[..n], id);
      WithoutHolds(queue[..n], id);
      forall x | x in Without(queue[..n], id) ensures Ahead(x, queue[n]) { LastIsBehind(queue, x); }
      RankedAppend(Without(queue[..n], id), queue[n]);
    }
  }

  // ----- any sequence of operations

  datatype Operation = Enqueue(id: string, priority: int) | Cancel(id: string) | PopNext

  /** The queue and the history: every accepted, popped and cancelled request, in order. */
  datatype State = State(
    queue: seq<Request>, accepted: seq<Request>, popped: seq<Request>, cancelled: seq<Request>)

  const EMPTY := State([], [], [], [])

  function Step(s: State, op: Operation, maxDepth: int): State {
    match op
    case Enqueue(id, priority) =>
      if |s.queue| >= maxDepth then s
      else
        var r := Request(id, priority, |s.accepted|);
        s.(queue := StableSort(s.queue + [r]), accepted := s.accepted + [r])
    case Cancel(id) => s.(queue := Without(s.queue, id), cancelled := s.cancelled + Only(s.queue, id))
    case PopNext => if s.queue == [] then s else s.(queue := s.queue[1..], popped := s.popped + [s.queue[0]])
  }

  function Run(ops: seq<Operation>, maxDepth: int): State {
    if ops == [] then EMPTY else Step(Run(ops[..|ops| - 1], maxDepth), ops[|ops| - 1], maxDepth)
  }

  ghost predicate Fits(s: State, maxDepth: int) {
    && Ranked(s.queue) && |s.queue| <= Max(0, maxDepth)
    && (forall r :: r in s.queue ==> r.arrival < |s.accepted|)
    && multiset(s.accepted) == multiset(s.popped) + multiset(s.cancelled) + multiset(s.queue)
  }

  lemma EnqueueFits(s: State, id: string, priority: int, maxDepth: int)
    requires Fits(s, maxDepth)
    ensures Fits(Step(s, Enqueue(id, priority), maxDepth), maxDepth)
  {
    if |s.queue| < maxDepth {
      var r := Request(id, priority, |s.accepted|);
      EnqueueInserts(s.queue, r);
      InsertRanked(s.queue, r);
      InsertHolds(s.queue, r);
      assert |multiset(Insert(s.queue, r))| == |s.queue| + 1;
      assert |multiset(Insert(s.queue, r))| == |Insert(s.queue, r)|;
    }
  }

  lemma PopFits(s: State, maxDepth: int)
    requires Fits(s, maxDepth)
    ensures Fits(Step(s, PopNext, maxDepth), maxDepth)
  {
    if s.queue != [] { assert s.queue == [s.queue[0]] + s.queue[1..]; }
  }

  lemma {:induction false} RunFits(ops: seq<Operation>, maxDepth: int)
    ensures Fits(Run(ops, maxDepth), maxDepth)
  {
    if ops != [] {
      var before, op := Run(ops[..|ops| - 1], maxDepth), ops[|ops| - 1];
      RunFits(ops[..|ops| - 1], maxDepth);
      match op
      case Enqueue(id, priority) => EnqueueFits(before, id, priority, maxDepth);
      case Cancel(id) => WithoutRanked(before.queue, id); WithoutHolds(before.queue, id);
      case PopNext => PopFits(before, maxDepth);
    }
  }

  /**
   * After any operations: a pop serves the earliest arrival of the highest priority in the queue; the
   * queue is never deeper than its limit; and the accepted requests are exactly those popped, cancelled
   * or still queued.
   */
  lemma QueueServesInOrder(ops: seq<Operation>, maxDepth: int)
    ensures
      var s := Run(ops, maxDepth);
      && (s.queue != [] ==>
            Step(s, PopNext, maxDepth).popped == s.popped + [s.queue[0]]
            && forall r :: r in s.queue ==> r == s.queue[0] || Ahead(s.queue[0], r))
      && |s.queue| <= Max(0, maxDepth)
      && multiset(s.accepted) == multiset(s.popped) + multiset(s.cancelled) + multiset(s.queue)
  {
    RunFits(ops, maxDepth);
  }
}
