/** Work items, loop states and checkpoints shared by the loop, the ledgers and the runners. */
module Work {
  type Fingerprint = string
  type ItemId = string

  datatype Option<+T> = None | Some(value: T)

  datatype WorkState = PENDING | RUNNING | VALIDATING | SUCCEEDED | BLOCKED

  /** One work item. The fingerprint stands for the hashed content (kind, title and payload). */
  datatype Item = Item(
    fingerprint: Fingerprint,
    itemId: ItemId,
    priority: int,
    maxAttempts: nat,
    state: WorkState,
    attempts: nat,
    lastError: string)

  datatype LoopState = LOOP_RUNNING | COMPLETED | HALTED | BUDGET_EXHAUSTED

  datatype Checkpoint = Checkpoint(
    iteration: nat,
    state: LoopState,
    active: Option<ItemId>,
    completed: seq<ItemId>,
    blocked: seq<ItemId>,
    pending: seq<ItemId>)

  /** States the loop reports as pending, and a ledger hands out again after a restart. */
  predicate Open(state: WorkState) {
    state != SUCCEEDED && state != BLOCKED
  }

  function Max(a: int, b: int): int {
    if a >= b then a else b
  }

  predicate NoDup<T(==)>(s: seq<T>) {
    forall i, j :: 0 <= i < j < |s| ==> s[i] != s[j]
  }

  /** The last n elements, or all of them when there are fewer. */
  function LastN<T>(s: seq<T>, n: nat): (r: seq<T>)
    ensures |r| == (if |s| <= n then |s| else n)
  {
    if |s| <= n then s else s[|s| - n..]
  }

  /** Truncating before every append keeps what truncating once at the end keeps. */
  lemma LastNAppend<T>(s: seq<T>, x: T, n: nat)
    requires n > 0
    ensures LastN(LastN(s, n) + [x], n) == LastN(s + [x], n)
  {
    if |s| > n {
      assert LastN(s, n) + [x] == (s + [x])[|s| - n..];
      assert LastN(LastN(s, n) + [x], n) == (LastN(s, n) + [x])[1..];
    }
  }

  /** Order-preserving removal of repeats. */
  function Uniq<T(==,!new)>(s: seq<T>): (r: seq<T>)
    ensures NoDup(r)
    ensures forall x :: x in r <==> x in s
    ensures NoDup(s) ==> r == s
  {
    if s == [] then []
    else
      var front := Uniq(s[..|s| - 1]);
      var last := s[|s| - 1];
      assert s == s[..|s| - 1] + [last];
      if last in front then front else front + [last]
  }

  /** How often a value occurs. */
  function Count<T(==)>(s: seq<T>, x: T): nat {
    if s == [] then 0 else Count(s[..|s| - 1], x) + if s[|s| - 1] == x then 1 else 0
  }

  /** Lexicographic order on identifiers, as the language compares strings. */
  predicate LexLess(a: string, b: string)
    decreases |a|
  {
    b != [] && (a == [] || a[0] < b[0] || (a[0] == b[0] && LexLess(a[1..], b[1..])))
  }

  /** The strings agree up to a place where the first one has ended, or has the smaller character. */
  ghost predicate SmallerAt(a: string, b: string, k: nat) {
    k <= |a| && k < |b| && a[..k] == b[..k] && (k == |a| || a[k] < b[k])
  }

  lemma LexLessMeans(a: string, b: string)
    ensures LexLess(a, b) <==> exists k :: SmallerAt(a, b, k)
  {
    if LexLess(a, b) { var k := LexLessAt(a, b); }
    forall k | SmallerAt(a, b, k) ensures LexLess(a, b) { SmallerIsLess(a, b, k); }
  }

  lemma {:induction false} LexLessAt(a: string, b: string) returns (k: nat)
    requires LexLess(a, b)
    ensures SmallerAt(a, b, k)
    decreases |a|
  {
    k := 0;
    if a != [] && a[0] == b[0] {
      var rest := LexLessAt(a[1..], b[1..]);
      k := rest + 1;
      assert a[..k] == [a[0]] + a[1..][..rest] && b[..k] == [b[0]] + b[1..][..rest];
    }
  }

  lemma {:induction false} SmallerIsLess(a: string, b: string, k: nat)
    requires SmallerAt(a, b, k)
    ensures LexLess(a, b)
  {
    if k > 0 {
      assert a[0] == a[..k][0] == b[..k][0] == b[0];
      assert a[1..][..k - 1] == a[..k][1..] && b[1..][..k - 1] == b[..k][1..];
      SmallerIsLess(a[1..], b[1..], k - 1);
    }
  }

  lemma {:induction false} LexTotal(a: string, b: string)
    ensures a == b || LexLess(a, b) || LexLess(b, a)
    ensures !(LexLess(a, b) && LexLess(b, a)) && !LexLess(a, a)
    decreases |a|
  {
    if a != [] && b != [] {
      LexTotal(a[1..], b[1..]);
      LexTotal(a[1..], a[1..]);
      assert a == [a[0]] + a[1..] && b == [b[0]] + b[1..];
    } else if a != [] {
      LexTotal(a[1..], a[1..]);
    }
  }

  lemma {:induction false} LexTransitive(a: string, b: string, c: string)
    requires LexLess(a, b) && LexLess(b, c)
    ensures LexLess(a, c)
    decreases |a|
  {
    if a != [] && a[0] == b[0] == c[0] {
      LexTransitive(a[1..], b[1..], c[1..]);
    }
  }
}
