/** The compiled program computes the expression, whatever the interleaving of warps. */
module ZGpuCorrectness {
  import opened Work
  import opened ZGpu

  /** The arguments of a launch, in the registers of every lane: stride, output and input addresses. */
  datatype Launch = Launch(stride: nat, out: nat, a: nat, b: nat)

  /** The compiled operation: opcode and the registers of its operands. */
  datatype Op = Op(op: Opcode, left: nat, right: nat)

  predicate OpOk(o: Op) {
    (o.op == VFADD || o.op == VFSUB || o.op == VFMUL) && (o.left == 9 || o.left == 10) && (o.right == 9 || o.right == 10)
  }

  /** Address of thread t's element, in 32-bit arithmetic. */
  function Addr(l: Launch, base: nat, t: nat): (r: int)
    ensures r >= 0
  {
    Bits(base + Bits(t * l.stride))
  }

  /** The input a register holds. */
  function Input(l: Launch, mem: Memory, register: nat, t: nat): int {
    WordAt(mem, Addr(l, if register == 9 then l.a else l.b, t))
  }

  function Result(l: Launch, o: Op, mem: Memory, t: nat, fpu: Fpu): (r: int)
    ensures 0 <= r < TWO32
  {
    Bits(fpu(o.op, Input(l, mem, o.left, t), Input(l, mem, o.right, t)))
  }

  predicate Apart(x: int, y: int) {
    x + 4 <= y || y + 4 <= x
  }

  /** Output words lie in memory, apart from each other and from every input word. */
  ghost predicate Disjoint(l: Launch, threads: nat, size: nat) {
    && (forall t :: 0 <= t < threads ==> Addr(l, l.out, t) + 4 <= size)
    && (forall t, u :: 0 <= t < u < threads ==> Apart(Addr(l, l.out, t), Addr(l, l.out, u)))
    && (forall t, u :: 0 <= t < threads && 0 <= u < threads ==>
          Apart(Addr(l, l.out, t), Addr(l, l.a, u)) && Apart(Addr(l, l.out, t), Addr(l, l.b, u)))
  }

  function Tid(w: nat, k: nat): nat {
    k + w * WARP_SIZE
  }

  // ----- one lane

  /** What the registers of thread t hold before instruction pc. */
  predicate LaneFits(r: Lane, pc: nat, t: nat, l: Launch, o: Op, mem0: Memory, fpu: Fpu)
    requires OpOk(o)
  {
    && LaneOk(r) && r[1] == l.stride && r[2] == l.out && r[3] == l.a && r[4] == l.b
    && (pc >= 1 ==> r[0] == t)
    && (pc >= 2 ==> r[5] == Bits(t * l.stride))
    && (pc >= 3 ==> r[6] == Addr(l, l.a, t))
    && (pc >= 4 ==> r[7] == Addr(l, l.b, t))
    && (pc >= 5 ==> r[8] == Addr(l, l.out, t))
    && (pc >= 6 ==> Bits(r[9]) == Input(l, mem0, 9, t))
    && (pc >= 7 ==> Bits(r[10]) == Input(l, mem0, 10, t))
    && (pc >= 8 ==> r[11] == Result(l, o, mem0, t, fpu))
  }

  lemma LaneStep(
    r: Lane, pc: nat, t: nat, l: Launch, o: Op, mem0: Memory, mem: Memory, fpu: Fpu)
    requires OpOk(o) && pc < 10 && LaneFits(r, pc, t, l, o, mem0, fpu)
    requires Input(l, mem, 9, t) == Input(l, mem0, 9, t) && Input(l, mem, 10, t) == Input(l, mem0, 10, t)
    ensures
      var i := Program(o.op, o.left, o.right)[pc];
      Encodable(i) && LaneFits(StepLane(i, r, t, mem, fpu), pc + 1, t, l, o, mem0, fpu)
  {
    if pc == 5 {
      LoadBits(mem, r[6]);
    } else if pc == 6 {
      LoadBits(mem, r[7]);
    }
  }

  // ----- one warp

  ghost predicate LanesFit(lanes: seq<Lane>, pc: nat, w: nat, l: Launch, o: Op, mem0: Memory, fpu: Fpu)
    requires OpOk(o)
  {
    |lanes| == WARP_SIZE && forall k :: 0 <= k < WARP_SIZE ==> LaneFits(lanes[k], pc, Tid(w, k), l, o, mem0, fpu)
  }

  ghost predicate WarpFits(warp: Warp, w: nat, turns: nat, l: Launch, o: Op, mem0: Memory, fpu: Fpu)
    requires OpOk(o)
  {
    && warp.pc == (if turns < 10 then turns else 10) && (warp.halted <==> warp.pc == 10)
    && LanesFit(warp.lanes, warp.pc, w, l, o, mem0, fpu)
  }

  // ----- memory

  /** The warp is past its store. */
  predicate HasStored(warp: Warp) {
    warp.pc >= 9
  }

  /** Byte x belongs to the output of a warp that has stored. */
  ghost predicate Written(b: Block, l: Launch, x: int) {
    exists w :: 0 <= w < |b.warps| && HasStored(b.warps[w]) && Covered(Outs(l, w), WARP_SIZE, x)
  }

  ghost predicate MemFits(b: Block, l: Launch, o: Op, mem0: Memory, fpu: Fpu) {
    && |b.mem| == |mem0|
    && (forall w, k :: 0 <= w < |b.warps| && HasStored(b.warps[w]) && 0 <= k < WARP_SIZE ==>
          WordAt(b.mem, Outs(l, w)[k]) == Bits(Results(l, w, o, mem0, fpu)[k]))
    && (forall x :: 0 <= x < |mem0| && !Written(b, l, x) ==> b.mem[x] == mem0[x])
  }

  lemma TidBound(w: nat, k: nat, warps: nat)
    requires w < warps && k < WARP_SIZE
    ensures Tid(w, k) < warps * WARP_SIZE
  {
  }

  lemma TidsDiffer(w: nat, k: nat, w': nat, k': nat)
    requires k < WARP_SIZE && k' < WARP_SIZE && (w != w' || k != k')
    ensures Tid(w, k) != Tid(w', k')
  {
  }

  lemma OutsApart(l: Launch, warps: nat, size: nat, w: nat, k: nat, w': nat, k': nat)
    requires Disjoint(l, warps * WARP_SIZE, size) && w < warps && w' < warps
    requires k < WARP_SIZE && k' < WARP_SIZE && (w != w' || k != k')
    ensures Apart(Addr(l, l.out, Tid(w, k)), Addr(l, l.out, Tid(w', k')))
  {
    TidBound(w, k, warps);
    TidBound(w', k', warps);
    TidsDiffer(w, k, w', k');
    if Tid(w, k) > Tid(w', k') { assert Apart(Addr(l, l.out, Tid(w', k')), Addr(l, l.out, Tid(w, k))); }
  }

  /** Inputs still hold what they held at launch. */
  lemma InputsKept(b: Block, l: Launch, o: Op, mem0: Memory, fpu: Fpu, register: nat, w: nat, k: nat)
    requires MemFits(b, l, o, mem0, fpu) && Disjoint(l, |b.warps| * WARP_SIZE, |mem0|)
    requires w < |b.warps| && k < WARP_SIZE
    ensures Input(l, b.mem, register, Tid(w, k)) == Input(l, mem0, register, Tid(w, k))
  {
    var addr := Addr(l, if register == 9 then l.a else l.b, Tid(w, k));
    TidBound(w, k, |b.warps|);
    forall x | addr <= x < addr + 4 && 0 <= x < |mem0| ensures b.mem[x] == mem0[x] {
      forall w' | 0 <= w' < |b.warps| ensures !Covered(Outs(l, w'), WARP_SIZE, x) {
        forall k' | 0 <= k' < WARP_SIZE ensures !(Outs(l, w')[k'] <= x < Outs(l, w')[k'] + 4) {
          TidBound(w', k', |b.warps|);
          assert Apart(Addr(l, l.out, Tid(w', k')), addr);
        }
      }
    }
    SameWord(b.mem, mem0, addr);
  }

  /** Address and value registers of a lane about to store. */
  ghost predicate ReadyToStore(warp: Warp, w: nat, l: Launch, o: Op, mem0: Memory, fpu: Fpu) {
    WarpOk(warp) && forall k :: 0 <= k < WARP_SIZE ==>
      warp.lanes[k][8] == Addr(l, l.out, Tid(w, k)) && warp.lanes[k][11] == Result(l, o, mem0, Tid(w, k), fpu)
  }

  // Stores to a list of addresses, apart from each other.

  ghost predicate AllApart(addrs: seq<int>, size: nat) {
    && (forall k :: 0 <= k < |addrs| ==> 0 <= addrs[k] && addrs[k] + 4 <= size)
    && (forall j, k :: 0 <= j < k < |addrs| ==> Apart(addrs[j], addrs[k]))
  }

  ghost predicate Covered(addrs: seq<int>, n: nat, x: int)
    requires n <= |addrs|
  {
    exists k :: 0 <= k < n && addrs[k] <= x < addrs[k] + 4
  }

  function StoreEach(mem: Memory, addrs: seq<int>, values: seq<int>, n: nat): (mem': Memory)
    requires n <= |addrs| == |values|
    ensures |mem'| == |mem|
  {
    if n == 0 then mem else Store(StoreEach(mem, addrs, values, n - 1), addrs[n - 1], values[n - 1])
  }

  lemma StoreKeepsWord(mem: Memory, addr: int, v: int, other: int)
    requires Apart(addr, other)
    ensures WordAt(Store(mem, addr, v), other) == WordAt(mem, other)
  {
    SameWord(Store(mem, addr, v), mem, other);
  }

  lemma {:induction false} EachStored(mem: Memory, addrs: seq<int>, values: seq<int>, n: nat, k: nat)
    requires k < n <= |addrs| == |values| && AllApart(addrs, |mem|)
    ensures WordAt(StoreEach(mem, addrs, values, n), addrs[k]) == Bits(values[k])
  {
    var before := StoreEach(mem, addrs, values, n - 1);
    if k == n - 1 {
      WordAfterStore(before, addrs[k], values[k]);
    } else {
      EachStored(mem, addrs, values, n - 1, k);
      StoreKeepsWord(before, addrs[n - 1], values[n - 1], addrs[k]);
    }
  }

  lemma {:induction false} OthersKept(mem: Memory, addrs: seq<int>, values: seq<int>, n: nat, x: int)
    requires n <= |addrs| == |values| && 0 <= x < |mem| && !Covered(addrs, n, x)
    ensures StoreEach(mem, addrs, values, n)[x] == mem[x]
  {
    if n > 0 {
      assert !(addrs[n - 1] <= x < addrs[n - 1] + 4) && !Covered(addrs, n - 1, x);
      OthersKept(mem, addrs, values, n - 1, x);
      StoreElsewhere(StoreEach(mem, addrs, values, n - 1), addrs[n - 1], values[n - 1], x);
    }
  }

  // The stores of a warp are such stores.

  ghost function Outs(l: Launch, w: nat): (addrs: seq<int>)
    ensures |addrs| == WARP_SIZE && forall k :: 0 <= k < WARP_SIZE ==> addrs[k] == Addr(l, l.out, Tid(w, k))
  {
    seq(WARP_SIZE, k requires 0 <= k < WARP_SIZE => Addr(l, l.out, Tid(w, k)))
  }

  ghost function Results(l: Launch, w: nat, o: Op, mem0: Memory, fpu: Fpu): (values: seq<int>)
    ensures |values| == WARP_SIZE && forall k :: 0 <= k < WARP_SIZE ==> values[k] == Result(l, o, mem0, Tid(w, k), fpu)
  {
    seq(WARP_SIZE, k requires 0 <= k < WARP_SIZE => Result(l, o, mem0, Tid(w, k), fpu))
  }

  lemma OutsAllApart(l: Launch, warps: nat, size: nat, w: nat)
    requires Disjoint(l, warps * WARP_SIZE, size) && w < warps
    ensures AllApart(Outs(l, w), size)
  {
    forall k | 0 <= k < WARP_SIZE ensures Outs(l, w)[k] >= 0 && Outs(l, w)[k] + 4 <= size { TidBound(w, k, warps); }
    forall j, k | 0 <= j < k < WARP_SIZE ensures Apart(Outs(l, w)[j], Outs(l, w)[k]) {
      OutsApart(l, warps, size, w, j, w, k);
    }
  }

  lemma {:induction false} LanesStoreEach(
    i: Instruction, warp: Warp, w: nat, mem: Memory, n: nat, l: Launch, o: Op, mem0: Memory, fpu: Fpu)
    requires i == Instruction(VSTORE_G, 0, 8, 11, 0) && n <= WARP_SIZE && ReadyToStore(warp, w, l, o, mem0, fpu)
    ensures StoreLanes(i, warp.lanes, mem, n) == StoreEach(mem, Outs(l, w), Results(l, w, o, mem0, fpu), n)
  {
    if n > 0 { LanesStoreEach(i, warp, w, mem, n - 1, l, o, mem0, fpu); }
  }

  /** The store of warp w puts its results in place. */
  lemma WarpStored(
    i: Instruction, warp: Warp, w: nat, warps: nat, mem: Memory, l: Launch, o: Op, mem0: Memory, fpu: Fpu, k: nat)
    requires i == Instruction(VSTORE_G, 0, 8, 11, 0) && w < warps && ReadyToStore(warp, w, l, o, mem0, fpu)
    requires |mem| == |mem0| && Disjoint(l, warps * WARP_SIZE, |mem0|) && k < WARP_SIZE
    ensures WordAt(StoreLanes(i, warp.lanes, mem, |warp.lanes|), Outs(l, w)[k]) == Bits(Results(l, w, o, mem0, fpu)[k])
  {
    LanesStoreEach(i, warp, w, mem, |warp.lanes|, l, o, mem0, fpu);
    OutsAllApart(l, warps, |mem0|, w);
    EachStored(mem, Outs(l, w), Results(l, w, o, mem0, fpu), |warp.lanes|, k);
  }

  /** The store of warp w touches nothing else. */
  lemma WarpKeeps(
    i: Instruction, warp: Warp, w: nat, mem: Memory, l: Launch, o: Op, mem0: Memory, fpu: Fpu, x: int)
    requires i == Instruction(VSTORE_G, 0, 8, 11, 0) && ReadyToStore(warp, w, l, o, mem0, fpu)
    requires 0 <= x < |mem| && !Covered(Outs(l, w), |warp.lanes|, x)
    ensures StoreLanes(i, warp.lanes, mem, |warp.lanes|)[x] == mem[x]
  {
    LanesStoreEach(i, warp, w, mem, |warp.lanes|, l, o, mem0, fpu);
    OthersKept(mem, Outs(l, w), Results(l, w, o, mem0, fpu), |warp.lanes|, x);
  }

  // ----- one step of the block

  ghost predicate Fits(b: Block, turns: seq<nat>, l: Launch, o: Op, mem0: Memory, fpu: Fpu)
    requires OpOk(o)
  {
    && |turns| == |b.warps| && MemFits(b, l, o, mem0, fpu)
    && forall w :: 0 <= w < |b.warps| ==> WarpFits(b.warps[w], w, turns[w], l, o, mem0, fpu)
  }

  /** The words of a compiled program. */
  ghost predicate Compiled(words: seq<nat>, o: Op)
    requires OpOk(o)
  {
    |words| == 10 && forall pc :: 0 <= pc < 10 ==>
      Encodable(Program(o.op, o.left, o.right)[pc]) && words[pc] == Encode(Program(o.op, o.left, o.right)[pc])
  }

  /** One instruction of warp w, decoded. */
  lemma StepIs(b: Block, words: seq<nat>, w: nat, o: Op, fpu: Fpu)
    requires OpOk(o) && Compiled(words, o) && w < |b.warps| && WarpOk(b.warps[w])
    requires !b.warps[w].halted && b.warps[w].pc < 10
    ensures
      var warp := b.warps[w];
      var i := Program(o.op, o.left, o.right)[warp.pc];
      && Encodable(i)
      && StepWarp(b, words, w, fpu) == Block(
          b.warps[w := Warp(warp.pc + 1, StepLanes(i, warp.lanes, w, b.mem, fpu), warp.pc == 9)],
          if warp.pc == 8 then StoreLanes(i, warp.lanes, b.mem, |warp.lanes|) else b.mem)
  {
    DecodeEncode(Program(o.op, o.left, o.right)[b.warps[w].pc]);
  }

  lemma LanesStep(
    b: Block, lanes: seq<Lane>, pc: nat, w: nat, l: Launch, o: Op, mem0: Memory, fpu: Fpu)
    requires OpOk(o) && pc < 10 && LanesFit(lanes, pc, w, l, o, mem0, fpu) && w < |b.warps|
    requires MemFits(b, l, o, mem0, fpu) && Disjoint(l, |b.warps| * WARP_SIZE, |mem0|)
    ensures
      var i := Program(o.op, o.left, o.right)[pc];
      Encodable(i) && LanesFit(StepLanes(i, lanes, w, b.mem, fpu), pc + 1, w, l, o, mem0, fpu)
  {
    hide MemFits, Disjoint, StepLane, Addr, Bits;
    var i := Program(o.op, o.left, o.right)[pc];
    forall k | 0 <= k < WARP_SIZE
      ensures Encodable(i) && LaneFits(StepLane(i, lanes[k], k + w * WARP_SIZE, b.mem, fpu), pc + 1, Tid(w, k), l, o, mem0, fpu)
    {
      InputsKept(b, l, o, mem0, fpu, 9, w, k);
      InputsKept(b, l, o, mem0, fpu, 10, w, k);
      LaneStep(lanes[k], pc, Tid(w, k), l, o, mem0, b.mem, fpu);
    }
  }

  lemma WarpStep(b: Block, turns: seq<nat>, words: seq<nat>, w: nat, l: Launch, o: Op, mem0: Memory, fpu: Fpu)
    requires OpOk(o) && Compiled(words, o) && Fits(b, turns, l, o, mem0, fpu) && w < |b.warps| && WarpOk(b.warps[w])
    requires Disjoint(l, |b.warps| * WARP_SIZE, |mem0|)
    ensures WarpFits(StepWarp(b, words, w, fpu).warps[w], w, turns[w] + 1, l, o, mem0, fpu)
  {
    var warp := b.warps[w];
    assert WarpFits(warp, w, turns[w], l, o, mem0, fpu);
    if !warp.halted {
      StepIs(b, words, w, o, fpu);
      LanesStep(b, warp.lanes, warp.pc, w, l, o, mem0, fpu);
    }
  }

  /** Memory and the set of warps that have stored are the same. */
  lemma MemSame(b: Block, b': Block, l: Launch, o: Op, mem0: Memory, fpu: Fpu)
    requires MemFits(b, l, o, mem0, fpu) && b'.mem == b.mem && |b'.warps| == |b.warps|
    requires forall w :: 0 <= w < |b.warps| ==> (HasStored(b'.warps[w]) <==> HasStored(b.warps[w]))
    ensures MemFits(b', l, o, mem0, fpu)
  {
    forall x | 0 <= x < |mem0| && !Written(b', l, x) ensures b'.mem[x] == mem0[x] {
      assert !Written(b, l, x);
    }
  }

  lemma Ready(warp: Warp, w: nat, turns: nat, l: Launch, o: Op, mem0: Memory, fpu: Fpu)
    requires OpOk(o) && WarpFits(warp, w, turns, l, o, mem0, fpu) && warp.pc == 8
    ensures ReadyToStore(warp, w, l, o, mem0, fpu)
  {
    forall k | 0 <= k < WARP_SIZE
      ensures warp.lanes[k][8] == Addr(l, l.out, Tid(w, k)) && warp.lanes[k][11] == Result(l, o, mem0, Tid(w, k), fpu)
    {
      assert LaneFits(warp.lanes[k], 8, Tid(w, k), l, o, mem0, fpu);
    }
  }

  /** A word of another warp lies outside the words of warp w. */
  lemma OtherOutsUncovered(l: Launch, warps: nat, size: nat, w: nat, w': nat, k: nat, x: int)
    requires Disjoint(l, warps * WARP_SIZE, size) && w < warps && w' < warps && w != w' && k < WARP_SIZE
    requires Outs(l, w')[k] <= x < Outs(l, w')[k] + 4
    ensures !Covered(Outs(l, w), WARP_SIZE, x)
  {
    forall j | 0 <= j < WARP_SIZE ensures !(Outs(l, w)[j] <= x < Outs(l, w)[j] + 4) {
      OutsApart(l, warps, size, w, j, w', k);
    }
  }

  /** Warp w stores: its words get their results, all else stays. */
  lemma MemStored(b: Block, b': Block, w: nat, l: Launch, o: Op, mem0: Memory, fpu: Fpu)
    requires MemFits(b, l, o, mem0, fpu) && w < |b.warps| && ReadyToStore(b.warps[w], w, l, o, mem0, fpu)
    requires Disjoint(l, |b.warps| * WARP_SIZE, |mem0|)
    requires b'.mem == StoreLanes(Instruction(VSTORE_G, 0, 8, 11, 0), b.warps[w].lanes, b.mem, |b.warps[w].lanes|)
    requires |b'.warps| == |b.warps| && HasStored(b'.warps[w])
    requires forall v :: 0 <= v < |b.warps| && v != w ==> b'.warps[v] == b.warps[v]
    ensures MemFits(b', l, o, mem0, fpu)
  {
    var i, warp := Instruction(VSTORE_G, 0, 8, 11, 0), b.warps[w];
    forall v, k | 0 <= v < |b'.warps| && HasStored(b'.warps[v]) && 0 <= k < WARP_SIZE
      ensures WordAt(b'.mem, Outs(l, v)[k]) == Bits(Results(l, v, o, mem0, fpu)[k])
    {
      if v == w {
        WarpStored(i, warp, w, |b.warps|, b.mem, l, o, mem0, fpu, k);
      } else {
        forall x | Outs(l, v)[k] <= x < Outs(l, v)[k] + 4 && 0 <= x < |b.mem| ensures b'.mem[x] == b.mem[x] {
          OtherOutsUncovered(l, |b.warps|, |mem0|, w, v, k, x);
          WarpKeeps(i, warp, w, b.mem, l, o, mem0, fpu, x);
        }
        SameWord(b'.mem, b.mem, Outs(l, v)[k]);
      }
    }
    forall x | 0 <= x < |mem0| && !Written(b', l, x) ensures b'.mem[x] == mem0[x] {
      assert !Written(b, l, x);
      WarpKeeps(i, warp, w, b.mem, l, o, mem0, fpu, x);
    }
  }

  lemma StepFits(b: Block, turns: seq<nat>, words: seq<nat>, w: nat, l: Launch, o: Op, mem0: Memory, fpu: Fpu)
    requires OpOk(o) && Compiled(words, o) && Fits(b, turns, l, o, mem0, fpu) && w < |b.warps| && WarpOk(b.warps[w])
    requires Disjoint(l, |b.warps| * WARP_SIZE, |mem0|)
    ensures Fits(StepWarp(b, words, w, fpu), turns[w := turns[w] + 1], l, o, mem0, fpu)
  {
    var b', warp := StepWarp(b, words, w, fpu), b.warps[w];
    assert WarpFits(warp, w, turns[w], l, o, mem0, fpu);
    WarpStep(b, turns, words, w, l, o, mem0, fpu);
    if warp.halted {
      assert b' == b;
    } else {
      StepIs(b, words, w, o, fpu);
      if warp.pc == 8 {
        Ready(warp, w, turns[w], l, o, mem0, fpu);
        MemStored(b, b', w, l, o, mem0, fpu);
      } else {
        MemSame(b, b', l, o, mem0, fpu);
      }
    }
  }

  // ----- a whole launch

  /** How often each of n warps is scheduled. */
  function Turns(schedule: seq<nat>, n: nat): (turns: seq<nat>)
    ensures |turns| == n && forall w :: 0 <= w < n ==> turns[w] == Count(schedule, w)
  {
    seq(n, w => Count(schedule, w))
  }

  /** Warps as they are launched, with the arguments in the registers of every lane. */
  ghost predicate Launched(b: Block, l: Launch) {
    forall w :: 0 <= w < |b.warps| ==>
      && WarpOk(b.warps[w]) && b.warps[w].pc == 0 && !b.warps[w].halted
      && forall k :: 0 <= k < WARP_SIZE ==>
           var r := b.warps[w].lanes[k];
           r[1] == l.stride && r[2] == l.out && r[3] == l.a && r[4] == l.b
  }

  lemma {:induction false} ExecutionFits(
    b: Block, words: seq<nat>, schedule: seq<nat>, l: Launch, o: Op, fpu: Fpu)
    requires OpOk(o) && Compiled(words, o) && Launched(b, l) && BlockOk(b)
    requires Disjoint(l, |b.warps| * WARP_SIZE, |b.mem|) && forall w :: w in schedule ==> w < |b.warps|
    ensures Fits(Execute(b, words, schedule, fpu), Turns(schedule, |b.warps|), l, o, b.mem, fpu)
  {
    if schedule == [] {
      forall w | 0 <= w < |b.warps| ensures WarpFits(b.warps[w], w, 0, l, o, b.mem, fpu) {}
    } else {
      var front, last := schedule[..|schedule| - 1], schedule[|schedule| - 1];
      assert forall w :: w in front ==> w in schedule;
      assert last in schedule;
      ExecutionFits(b, words, front, l, o, fpu);
      StepFits(Execute(b, words, front, fpu), Turns(front, |b.warps|), words, last, l, o, b.mem, fpu);
      assert Turns(schedule, |b.warps|) == Turns(front, |b.warps|)[last := Turns(front, |b.warps|)[last] + 1];
    }
  }

  /** The operation of an accepted expression. */
  function OpOf(e: Expr): (o: Op)
    requires e.BinOp? && e.operator != OtherOperator && IsOperand(e.left) && IsOperand(e.right)
    ensures OpOk(o)
  {
    Op(OpcodeFor(e.operator), RegisterOf(e.left), RegisterOf(e.right))
  }

  lemma CompiledWords(expression: string, parsed: Option<Expr>)
    requires Accepted(expression, parsed)
    ensures
      var program := Compile(expression, parsed).value;
      && (forall i :: i in program ==> Encodable(i))
      && Compiled(Assemble(program), OpOf(parsed.value))
  {
  }

  /** The value of an operand, a or b, for thread t. */
  function OperandWord(l: Launch, mem: Memory, operand: Expr, t: nat): int
    requires IsOperand(operand)
  {
    WordAt(mem, Addr(l, if operand.id == "a" then l.a else l.b, t))
  }

  /** What the expression asks of the floating-point unit. */
  function Meaning(operator: Operator, x: int, y: int, fpu: Fpu): int
    requires operator != OtherOperator
  {
    match operator
    case Add => Bits(fpu(VFADD, x, y))
    case Sub => Bits(fpu(VFSUB, x, y))
    case Mult => Bits(fpu(VFMUL, x, y))
  }

  /**
   * For every accepted expression, every number of warps and every interleaving in which each warp gets
   * its ten turns: every warp has halted, the output word of every thread holds its operand words
   * combined by the operation, and every other byte of memory is as it was.
   */
  lemma CompiledProgramComputes(
    expression: string, parsed: Option<Expr>, b: Block, schedule: seq<nat>, l: Launch, fpu: Fpu)
    requires Accepted(expression, parsed) && Launched(b, l) && BlockOk(b)
    requires Disjoint(l, |b.warps| * WARP_SIZE, |b.mem|)
    requires forall w :: w in schedule ==> w < |b.warps|
    requires forall w :: 0 <= w < |b.warps| ==> Count(schedule, w) >= 10
    ensures
      var program := Compile(expression, parsed).value;
      var e := parsed.value;
      && (forall i :: i in program ==> Encodable(i))
      && var b' := Execute(b, Assemble(program), schedule, fpu);
      && (forall w :: 0 <= w < |b.warps| ==> b'.warps[w].halted)
      && (forall t :: 0 <= t < |b.warps| * WARP_SIZE ==>
            WordAt(b'.mem, Addr(l, l.out, t))
            == Meaning(e.operator, OperandWord(l, b.mem, e.left, t), OperandWord(l, b.mem, e.right, t), fpu))
      && (forall x :: 0 <= x < |b.mem|
            && (forall t :: 0 <= t < |b.warps| * WARP_SIZE ==> !(Addr(l, l.out, t) <= x < Addr(l, l.out, t) + 4))
            ==> b'.mem[x] == b.mem[x])
  {
    var program, o := Compile(expression, parsed).value, OpOf(parsed.value);
    CompiledWords(expression, parsed);
    ExecutionFits(b, Assemble(program), schedule, l, o, fpu);
    var b' := Execute(b, Assemble(program), schedule, fpu);
    forall w | 0 <= w < |b.warps| ensures b'.warps[w].halted && HasStored(b'.warps[w]) {
      assert WarpFits(b'.warps[w], w, Turns(schedule, |b.warps|)[w], l, o, b.mem, fpu);
    }
    forall t | 0 <= t < |b.warps| * WARP_SIZE
      ensures WordAt(b'.mem, Addr(l, l.out, t)) == Result(l, o, b.mem, t, fpu)
    {
      ThreadStored(b', l, o, b.mem, fpu, t);
    }
    forall x | 0 <= x < |b.mem|
      && (forall t :: 0 <= t < |b.warps| * WARP_SIZE ==> !(Addr(l, l.out, t) <= x < Addr(l, l.out, t) + 4))
      ensures b'.mem[x] == b.mem[x]
    {
      ByteKept(b', l, o, b.mem, fpu, x);
    }
  }

  lemma TidSplit(t: nat, warps: nat)
    requires t < warps * WARP_SIZE
    ensures t / WARP_SIZE < warps && Tid(t / WARP_SIZE, t % WARP_SIZE) == t
  {
  }

  lemma BitsKept(v: int)
    requires 0 <= v < TWO32
    ensures Bits(v) == v
  {
  }

  lemma ResultBits(l: Launch, o: Op, mem0: Memory, fpu: Fpu, w: nat, k: nat)
    requires k < WARP_SIZE
    ensures Bits(Results(l, w, o, mem0, fpu)[k]) == Result(l, o, mem0, Tid(w, k), fpu)
    ensures Outs(l, w)[k] == Addr(l, l.out, Tid(w, k))
  {
    BitsKept(Result(l, o, mem0, Tid(w, k), fpu));
  }

  lemma WordStored(b: Block, l: Launch, o: Op, mem0: Memory, fpu: Fpu, w: nat, k: nat)
    requires MemFits(b, l, o, mem0, fpu) && w < |b.warps| && HasStored(b.warps[w]) && k < WARP_SIZE
    ensures WordAt(b.mem, Addr(l, l.out, Tid(w, k))) == Result(l, o, mem0, Tid(w, k), fpu)
  {
    ResultBits(l, o, mem0, fpu, w, k);
  }

  lemma ThreadStored(b: Block, l: Launch, o: Op, mem0: Memory, fpu: Fpu, t: nat)
    requires MemFits(b, l, o, mem0, fpu) && t < |b.warps| * WARP_SIZE
    requires forall w :: 0 <= w < |b.warps| ==> HasStored(b.warps[w])
    ensures WordAt(b.mem, Addr(l, l.out, t)) == Result(l, o, mem0, t, fpu)
  {
    TidSplit(t, |b.warps|);
    WordStored(b, l, o, mem0, fpu, t / WARP_SIZE, t % WARP_SIZE);
  }

  lemma ByteKept(b: Block, l: Launch, o: Op, mem0: Memory, fpu: Fpu, x: int)
    requires MemFits(b, l, o, mem0, fpu) && 0 <= x < |mem0|
    requires forall t :: 0 <= t < |b.warps| * WARP_SIZE ==> !(Addr(l, l.out, t) <= x < Addr(l, l.out, t) + 4)
    ensures b.mem[x] == mem0[x]
  {
    forall w | 0 <= w < |b.warps| ensures !Covered(Outs(l, w), WARP_SIZE, x) {
      forall k | 0 <= k < WARP_SIZE ensures !(Outs(l, w)[k] <= x < Outs(l, w)[k] + 4) {
        TidBound(w, k, |b.warps|);
      }
    }
  }
}
