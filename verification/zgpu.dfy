/** The expression compiler of the vector processor, its instruction words, and the machine that runs them. */
module ZGpu {
  import opened Work

  const WARP_SIZE := 32
  const NUM_REGS := 128
  const TWO32 := 0x1_0000_0000

  // ----- instructions

  datatype Opcode = VADD | VMUL | VFADD | VFSUB | VFMUL | VLOAD_G | VSTORE_G | GET_TID | HALT

  datatype Instruction = Instruction(op: Opcode, rd: nat, rs1: nat, rs2: nat, imm: int)

  function OpcodeNumber(op: Opcode): nat {
    match op
    case VADD => 0x01
    case VMUL => 0x03
    case VFADD => 0x10
    case VFSUB => 0x11
    case VFMUL => 0x12
    case VLOAD_G => 0x20
    case VSTORE_G => 0x21
    case GET_TID => 0x50
    case HALT => 0x7F
  }

  function OpcodeOf(n: nat): Option<Opcode> {
    if n == 0x01 then Some(VADD)
    else if n == 0x03 then Some(VMUL)
    else if n == 0x10 then Some(VFADD)
    else if n == 0x11 then Some(VFSUB)
    else if n == 0x12 then Some(VFMUL)
    else if n == 0x20 then Some(VLOAD_G)
    else if n == 0x21 then Some(VSTORE_G)
    else if n == 0x50 then Some(GET_TID)
    else if n == 0x7F then Some(HALT)
    else None
  }

  predicate Encodable(i: Instruction) {
    i.rd <= 0x7F && i.rs1 <= 0x1F && i.rs2 <= 0x1F && -128 <= i.imm <= 127
  }

  /** Fields side by side: opcode, rd, rs1, rs2 and the immediate in two's complement. */
  function Encode(i: Instruction): (word: nat)
    requires Encodable(i)
  {
    OpcodeNumber(i.op) + 0x80 * (i.rd + 0x80 * (i.rs1 + 0x20 * (i.rs2 + 0x20 * (i.imm % 0x100))))
  }

  function Decode(word: nat): Option<Instruction> {
    var op := OpcodeOf(word % 0x80);
    if op.None? then None
    else
      var imm := word / 0x80 / 0x80 / 0x20 / 0x20 % 0x100;
      Some(Instruction(
        op.value, word / 0x80 % 0x80, word / 0x80 / 0x80 % 0x20, word / 0x80 / 0x80 / 0x20 % 0x20,
        if imm >= 0x80 then imm - 0x100 else imm))
  }

  /** Bits 0, 7, 14, 19 and 24 are where the fields of a word begin. */
  lemma FieldPlaces(i: Instruction)
    requires Encodable(i)
    ensures Encode(i)
      == OpcodeNumber(i.op) + 0x80 * i.rd + 0x4000 * i.rs1 + 0x8_0000 * i.rs2
         + 0x100_0000 * if i.imm < 0 then i.imm + 0x100 else i.imm
  {
    hide OpcodeNumber;
  }

  lemma SevenBits(low: nat, high: nat)
    requires low < 0x80
    ensures (low + 0x80 * high) % 0x80 == low && (low + 0x80 * high) / 0x80 == high
  {
  }

  lemma FiveBits(low: nat, high: nat)
    requires low < 0x20
    ensures (low + 0x20 * high) % 0x20 == low && (low + 0x20 * high) / 0x20 == high
  {
  }

  lemma OpcodeBack(op: Opcode)
    ensures OpcodeNumber(op) < 0x80 && OpcodeOf(OpcodeNumber(op)) == Some(op)
  {
  }

  /** The fields of a word, taken off one after the other. */
  lemma FieldsBack(word: nat, op: nat, rd: nat, rs1: nat, rs2: nat, imm: nat)
    requires op < 0x80 && rd < 0x80 && rs1 < 0x20 && rs2 < 0x20 && imm < 0x100
    requires word == op + 0x80 * (rd + 0x80 * (rs1 + 0x20 * (rs2 + 0x20 * imm)))
    ensures word < TWO32 && word % 0x80 == op && word / 0x80 % 0x80 == rd && word / 0x80 / 0x80 % 0x20 == rs1
    ensures word / 0x80 / 0x80 / 0x20 % 0x20 == rs2 && word / 0x80 / 0x80 / 0x20 / 0x20 == imm
  {
    var f3 := rs2 + 0x20 * imm;
    var f2 := rs1 + 0x20 * f3;
    SevenBits(op, rd + 0x80 * f2);
    SevenBits(rd, f2);
    FiveBits(rs1, f3);
    FiveBits(rs2, imm);
  }

  lemma DecodeFields(word: nat, op: Opcode, rd: nat, rs1: nat, rs2: nat, imm: nat)
    requires OpcodeOf(word % 0x80) == Some(op) && word / 0x80 % 0x80 == rd && word / 0x80 / 0x80 % 0x20 == rs1
    requires word / 0x80 / 0x80 / 0x20 % 0x20 == rs2 && word / 0x80 / 0x80 / 0x20 / 0x20 == imm < 0x100
    ensures Decode(word) == Some(Instruction(op, rd, rs1, rs2, if imm >= 0x80 then imm - 0x100 else imm))
  {
    hide OpcodeOf;
  }

  /** Every instruction that can be encoded is decoded to itself, from a 32-bit word. */
  lemma DecodeEncode(i: Instruction)
    requires Encodable(i)
    ensures Decode(Encode(i)) == Some(i) && Encode(i) < TWO32
  {
    hide Decode, OpcodeOf, OpcodeNumber;
    OpcodeBack(i.op);
    FieldsBack(Encode(i), OpcodeNumber(i.op), i.rd, i.rs1, i.rs2, i.imm % 0x100);
    DecodeFields(Encode(i), i.op, i.rd, i.rs1, i.rs2, i.imm % 0x100);
  }

  // ----- the compiler

  datatype Operator = Add | Sub | Mult | OtherOperator

  /** A parsed expression, as far as the compiler looks at it. */
  datatype Expr = Name(id: string) | BinOp(operator: Operator, left: Expr, right: Expr) | OtherExpr

  const MAX_EXPRESSION := 256

  predicate OneLine(expression: string) {
    '\r' !in expression && '\n' !in expression && '#' !in expression
  }

  predicate IsOperand(e: Expr) {
    e.Name? && (e.id == "a" || e.id == "b")
  }

  function OpcodeFor(operator: Operator): Opcode
    requires operator != OtherOperator
  {
    match operator
    case Add => VFADD
    case Sub => VFSUB
    case Mult => VFMUL
  }

  function RegisterOf(operand: Expr): nat
    requires IsOperand(operand)
  {
    if operand.id == "a" then 9 else 10
  }

  /** What the compiler takes: one line, not too long, parsed as one supported operation on a and b. */
  predicate Accepted(expression: string, parsed: Option<Expr>) {
    && |expression| <= MAX_EXPRESSION && OneLine(expression) && parsed.Some?
    && parsed.value.BinOp? && parsed.value.operator != OtherOperator
    && IsOperand(parsed.value.left) && IsOperand(parsed.value.right)
  }

  /** The program for an accepted expression, or None. */
  function Compile(expression: string, parsed: Option<Expr>): (program: Option<seq<Instruction>>)
    ensures program.Some? <==> Accepted(expression, parsed)
    ensures program.None? <==>
      || |expression| > 256 || (exists i :: 0 <= i < |expression| && expression[i] in "\r\n#")
      || parsed.None? || !parsed.value.BinOp? || parsed.value.operator == OtherOperator
      || !IsOperand(parsed.value.left) || !IsOperand(parsed.value.right)
    ensures program.Some? ==>
      && |program.value| == 10 && program.value[9].op == HALT
      && program.value[7] == Instruction(
           OpcodeFor(parsed.value.operator), 11, RegisterOf(parsed.value.left), RegisterOf(parsed.value.right), 0)
  {
    if |expression| > MAX_EXPRESSION || !OneLine(expression) || parsed.None? then None
    else
      match parsed.value
      case BinOp(operator, left, right) =>
        if operator == OtherOperator || !IsOperand(left) || !IsOperand(right) then None
        else Some(Program(OpcodeFor(operator), RegisterOf(left), RegisterOf(right)))
      case _ => None
  }

  function Program(op: Opcode, left: nat, right: nat): seq<Instruction> {
    [Instruction(GET_TID, 0, 0, 0, 0),
     Instruction(VMUL, 5, 0, 1, 0),
     Instruction(VADD, 6, 3, 5, 0),
     Instruction(VADD, 7, 4, 5, 0),
     Instruction(VADD, 8, 2, 5, 0),
     Instruction(VLOAD_G, 9, 6, 0, 0),
     Instruction(VLOAD_G, 10, 7, 0, 0),
     Instruction(op, 11, left, right, 0),
     Instruction(VSTORE_G, 0, 8, 11, 0),
     Instruction(HALT, 0, 0, 0, 0)]
  }

  function Assemble(program: seq<Instruction>): (words: seq<nat>)
    requires forall i :: i in program ==> Encodable(i)
    ensures |words| == |program| && forall k :: 0 <= k < |program| ==> words[k] == Encode(program[k])
  {
    seq(|program|, k requires 0 <= k < |program| => Encode(program[k]))
  }

  // ----- memory

  type Byte = x: int | 0 <= x < 256
  type Memory = seq<Byte>

  /** The 32 bits of a register value, which may be negative after a load. */
  function Bits(v: int): (r: int)
    ensures 0 <= r < TWO32
  {
    v % TWO32
  }

  predicate InRange(mem: Memory, addr: int) {
    0 <= addr && addr + 4 <= |mem|
  }

  /** The unsigned word at an address, or 0 out of range. */
  function WordAt(mem: Memory, addr: int): (r: int)
    ensures 0 <= r < TWO32
  {
    if !InRange(mem, addr) then 0
    else
      var b0: int, b1: int, b2: int, b3: int := mem[addr], mem[addr + 1], mem[addr + 2], mem[addr + 3];
      b0 + 0x100 * (b1 + 0x100 * (b2 + 0x100 * b3))
  }

  /** What a load puts in a register: the word as a signed number. */
  function Load(mem: Memory, addr: int): (r: int)
    ensures -0x8000_0000 <= r < 0x8000_0000
  {
    var w := WordAt(mem, addr);
    if w >= 0x8000_0000 then w - TWO32 else w
  }

  /** Stores the low 32 bits; out of range nothing happens. */
  function Store(mem: Memory, addr: int, v: int): (r: Memory)
    ensures |r| == |mem|
  {
    if !InRange(mem, addr) then mem
    else
      var w := Bits(v);
      mem[addr := w % 0x100][addr + 1 := w / 0x100 % 0x100]
        [addr + 2 := w / 0x100 / 0x100 % 0x100][addr + 3 := w / 0x100 / 0x100 / 0x100 % 0x100]
  }

  /** The least significant byte of a word comes first. */
  lemma LittleEndian(mem: Memory, addr: int)
    requires InRange(mem, addr)
    ensures WordAt(mem, addr) % 0x100 == mem[addr]
    ensures WordAt(mem, addr) / 0x100 % 0x100 == mem[addr + 1]
    ensures WordAt(mem, addr) / 0x1_0000 % 0x100 == mem[addr + 2]
    ensures WordAt(mem, addr) / 0x100_0000 == mem[addr + 3]
  {
    var b0: int, b1: int, b2: int, b3: int := mem[addr], mem[addr + 1], mem[addr + 2], mem[addr + 3];
    ByteOff(b0, b1 + 0x100 * (b2 + 0x100 * b3));
    ByteOff(b1, b2 + 0x100 * b3);
    ByteOff(b2, b3);
  }

  lemma ByteOff(low: int, high: int)
    requires 0 <= low < 0x100 && 0 <= high
    ensures (low + 0x100 * high) % 0x100 == low && (low + 0x100 * high) / 0x100 == high
  {
  }

  lemma LoadBits(mem: Memory, addr: int)
    ensures Bits(Load(mem, addr)) == WordAt(mem, addr)
  {
  }

  lemma WordAfterStore(mem: Memory, addr: int, v: int)
    requires InRange(mem, addr)
    ensures WordAt(Store(mem, addr, v), addr) == Bits(v)
  {
    var w := Bits(v);
    assert w / 0x100 / 0x100 / 0x100 < 0x100;
  }

  lemma StoreElsewhere(mem: Memory, addr: int, v: int, x: int)
    requires 0 <= x < |mem| && !(addr <= x < addr + 4)
    ensures Store(mem, addr, v)[x] == mem[x]
  {
  }

  lemma SameWord(mem: Memory, mem': Memory, addr: int)
    requires |mem| == |mem'| && forall x :: addr <= x < addr + 4 && 0 <= x < |mem| ==> mem[x] == mem'[x]
    ensures WordAt(mem, addr) == WordAt(mem', addr)
  {
  }

  // ----- the machine

  /** Arithmetic of the floating-point unit, on the bits of its operands. */
  type Fpu = (Opcode, int, int) -> int

  type Lane = seq<int>

  datatype Warp = Warp(pc: nat, lanes: seq<Lane>, halted: bool)

  datatype Block = Block(warps: seq<Warp>, mem: Memory)

  predicate LaneOk(r: Lane) {
    |r| == NUM_REGS
  }

  predicate WarpOk(w: Warp) {
    |w.lanes| == WARP_SIZE && forall k :: 0 <= k < WARP_SIZE ==> LaneOk(w.lanes[k])
  }

  /** The new value of the target register of one lane; loads see the memory as it is. */
  function LaneValue(i: Instruction, r: Lane, tid: nat, mem: Memory, fpu: Fpu): int
    requires LaneOk(r) && Encodable(i)
  {
    match i.op
    case GET_TID => tid
    case VADD => Bits(r[i.rs1] + r[i.rs2])
    case VMUL => Bits(r[i.rs1] * r[i.rs2])
    case VLOAD_G => Load(mem, r[i.rs1] + i.imm)
    case _ => Bits(fpu(i.op, Bits(r[i.rs1]), Bits(r[i.rs2])))
  }

  /** One instruction on one lane, as far as registers go. */
  function StepLane(i: Instruction, r: Lane, tid: nat, mem: Memory, fpu: Fpu): (r': Lane)
    requires LaneOk(r) && Encodable(i)
    ensures LaneOk(r')
  {
    if i.op == VSTORE_G || i.op == HALT then r else r[i.rd := LaneValue(i, r, tid, mem, fpu)]
  }

  /** The stores of the first n lanes, in lane order. */
  function StoreLanes(i: Instruction, lanes: seq<Lane>, mem: Memory, n: nat): (mem': Memory)
    requires n <= |lanes| && Encodable(i) && forall k :: 0 <= k < |lanes| ==> LaneOk(lanes[k])
    ensures |mem'| == |mem|
  {
    if n == 0 then mem
    else Store(StoreLanes(i, lanes, mem, n - 1), lanes[n - 1][i.rs1] + i.imm, lanes[n - 1][i.rs2])
  }

  /** What a lane stores it can load again, from the address its register and the immediate name. */
  lemma StoreLoadsBack(store: Instruction, load: Instruction, r: Lane, tid: nat, mem: Memory, fpu: Fpu)
    requires Encodable(store) && Encodable(load) && LaneOk(r) && store.op == VSTORE_G && load.op == VLOAD_G
    requires load.rs1 == store.rs1 && load.imm == store.imm && InRange(mem, r[store.rs1] + store.imm)
    ensures
      var mem' := StoreLanes(store, [r], mem, 1);
      && WordAt(mem', r[store.rs1] + store.imm) == Bits(r[store.rs2])
      && Bits(LaneValue(load, r, tid, mem', fpu)) == Bits(r[store.rs2])
  {
    var addr := r[store.rs1] + store.imm;
    assert StoreLanes(store, [r], mem, 1) == Store(StoreLanes(store, [r], mem, 0), addr, r[store.rs2]);
    WordAfterStore(mem, addr, r[store.rs2]);
    LoadBits(Store(mem, addr, r[store.rs2]), addr);
  }

  ghost predicate BlockOk(b: Block) {
    forall w :: 0 <= w < |b.warps| ==> WarpOk(b.warps[w])
  }

  /** All lanes of a warp after one instruction. */
  function StepLanes(i: Instruction, lanes: seq<Lane>, w: nat, mem: Memory, fpu: Fpu): seq<Lane>
    requires Encodable(i) && |lanes| == WARP_SIZE && forall k :: 0 <= k < WARP_SIZE ==> LaneOk(lanes[k])
  {
    seq(WARP_SIZE, k requires 0 <= k < WARP_SIZE => StepLane(i, lanes[k], k + w * WARP_SIZE, mem, fpu))
  }

  /** One cycle of warp w: all its lanes execute the next instruction together. */
  function StepWarp(b: Block, program: seq<nat>, w: nat, fpu: Fpu): (b': Block)
    requires w < |b.warps| && WarpOk(b.warps[w])
    ensures |b'.warps| == |b.warps| && |b'.mem| == |b.mem| && WarpOk(b'.warps[w])
    ensures b'.warps == b.warps[w := b'.warps[w]]
    ensures b.warps[w].halted || b.warps[w].pc >= |program| ==> b' == b.(warps := b.warps[w := b.warps[w].(halted := true)])
  {
    var warp := b.warps[w];
    if warp.halted then b
    else if warp.pc >= |program| then b.(warps := b.warps[w := warp.(halted := true)])
    else
      var decoded := Decode(program[warp.pc]);
      if decoded.None? || !Encodable(decoded.value) then b
      else
        var i := decoded.value;
        Block(
          b.warps[w := Warp(warp.pc + 1, StepLanes(i, warp.lanes, w, b.mem, fpu), i.op == HALT)],
          if i.op == VSTORE_G then StoreLanes(i, warp.lanes, b.mem, |warp.lanes|) else b.mem)
  }

  /** The block after a schedule: any interleaving of its warps. */
  function Execute(b: Block, program: seq<nat>, schedule: seq<nat>, fpu: Fpu): (b': Block)
    requires BlockOk(b) && forall w :: w in schedule ==> w < |b.warps|
    ensures BlockOk(b') && |b'.warps| == |b.warps| && |b'.mem| == |b.mem|
  {
    if schedule == [] then b
    else
      var front, last := schedule[..|schedule| - 1], schedule[|schedule| - 1];
      assert forall w :: w in front ==> w in schedule;
      assert last in schedule;
      StepWarp(Execute(b, program, front, fpu), program, last, fpu)
  }
}
