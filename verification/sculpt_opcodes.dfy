/** The instruction format of the sculpt brush machine: the tagged register
    cell, the opcode set with the operand roles documented for each opcode,
    the `OP_*` builders, a well-formedness validator and the shipped
    `preset` program. The machine's execution is not part of this model:
    only the layout of its instructions is declared. */
module SculptOpcodes {
  import opened Wrappers
  import BrushTables

  /** Number of registers of the machine (`SCULPT_MAXREG`). */
  const SCULPT_MAXREG: int := 32
  /** Operand cells per instruction (`SculptOpCode.params`). */
  const OPERAND_SLOTS: nat := 16
  /** Number of opcodes in the enum. */
  const OPCODE_COUNT: int := 16
  /** The `.i = -1` cell that ends an operand list. */
  const TERMINATOR: int := -1

  /** One `SculptReg` cell. The union becomes a sum type; `Zeroed` is a cell
      an initializer leaves out, all of whose bytes are zero. A pointer is an
      opaque address. */
  datatype SculptReg =
    | F(f: real)
    | I(i: int)
    | V(v: Float5)
    | P(p: nat)
    | Ch(ch: string)
    | Zeroed

  /** The `float v[5]` member of the union. */
  type Float5 = v: seq<real> | |v| == 5 witness [0.0, 0.0, 0.0, 0.0, 0.0]

  datatype SculptOp =
    | LoadF | LoadI | LoadF2 | LoadF3 | LoadF4 | LoadPtr
    | Push | Pop | PopDiscard
    | Mul | Add | Sub | Div
    | LoadChannelF | LoadChannelI
    | ToolExec

  /** The value of each `SOP_*` enumerator. */
  function OpCode(op: SculptOp): (code: int)
    ensures 0 <= code < OPCODE_COUNT
  {
    match op
    case LoadF => 0
    case LoadI => 1
    case LoadF2 => 2
    case LoadF3 => 3
    case LoadF4 => 4
    case LoadPtr => 5
    case Push => 6
    case Pop => 7
    case PopDiscard => 8
    case Mul => 9
    case Add => 10
    case Sub => 11
    case Div => 12
    case LoadChannelF => 13
    case LoadChannelI => 14
    case ToolExec => 15
  }

  /** The opcode an instruction's `code` names, if any. */
  function DecodeOp(code: int): (r: Option<SculptOp>)
    ensures r.Some? <==> 0 <= code < OPCODE_COUNT
    ensures r.Some? ==> OpCode(r.value) == code
  {
    if code == 0 then Some(LoadF)
    else if code == 1 then Some(LoadI)
    else if code == 2 then Some(LoadF2)
    else if code == 3 then Some(LoadF3)
    else if code == 4 then Some(LoadF4)
    else if code == 5 then Some(LoadPtr)
    else if code == 6 then Some(Push)
    else if code == 7 then Some(Pop)
    else if code == 8 then Some(PopDiscard)
    else if code == 9 then Some(Mul)
    else if code == 10 then Some(Add)
    else if code == 11 then Some(Sub)
    else if code == 12 then Some(Div)
    else if code == 13 then Some(LoadChannelF)
    else if code == 14 then Some(LoadChannelI)
    else if code == 15 then Some(ToolExec)
    else None
  }

  /** The enumerator values are a bijection between the opcodes and [0, 16). */
  lemma OpCodeRoundTrip(op: SculptOp, code: int)
    ensures DecodeOp(OpCode(op)) == Some(op)
    ensures DecodeOp(code) == Some(op) <==> OpCode(op) == code
  {
    match op
    case LoadF =>
    case LoadI =>
    case LoadF2 =>
    case LoadF3 =>
    case LoadF4 =>
    case LoadPtr =>
    case Push =>
    case Pop =>
    case PopDiscard =>
    case Mul =>
    case Add =>
    case Sub =>
    case Div =>
    case LoadChannelF =>
    case LoadChannelI =>
    case ToolExec =>
  }

  const SOP_LOADF: int := OpCode(LoadF)
  const SOP_LOADI: int := OpCode(LoadI)
  const SOP_MUL: int := OpCode(Mul)
  const SOP_LOAD_CHANNEL_F: int := OpCode(LoadChannelF)
  const SOP_LOAD_CHANNEL_I: int := OpCode(LoadChannelI)
  const SOP_TOOL_EXEC: int := OpCode(ToolExec)

  // ---------------------------------------------------------------------
  // Operand roles

  datatype Role =
    | RegOperand      // a register index
    | FloatOperand    // a float literal
    | IntOperand      // an int literal
    | PtrOperand      // a pointer literal
    | ChannelOperand  // a channel name, stored inline
    | ToolOperand     // a sculpt tool id

  /** The fixed operand roles of each opcode. `SOP_LOADI` carries no comment;
      it is taken to mirror `SOP_LOADF` with an int literal. */
  function Signature(op: SculptOp): seq<Role> {
    match op
    case LoadF => [RegOperand, FloatOperand]
    case LoadI => [RegOperand, IntOperand]
    case LoadF2 => [RegOperand, FloatOperand, FloatOperand]
    case LoadF3 => [RegOperand, FloatOperand, FloatOperand, FloatOperand]
    case LoadF4 => [RegOperand, FloatOperand, FloatOperand, FloatOperand, FloatOperand]
    case LoadPtr => [RegOperand, PtrOperand]
    case Push => [RegOperand]
    case Pop => [RegOperand]
    case PopDiscard => []
    case Mul => [RegOperand, RegOperand, RegOperand]
    case Add => [RegOperand, RegOperand, RegOperand]
    case Sub => [RegOperand, RegOperand, RegOperand]
    case Div => [RegOperand, RegOperand, RegOperand]
    case LoadChannelF => [RegOperand, ChannelOperand]
    case LoadChannelI => [RegOperand, ChannelOperand]
    case ToolExec => [ToolOperand]
  }

  /** Only `SOP_TOOL_EXEC` ("tool, ...") takes trailing operands, the
      registers whose values are passed to the tool. */
  predicate Variadic(op: SculptOp) {
    op == ToolExec
  }

  /** The role of operand `k` of `op`. */
  function RoleAt(op: SculptOp, k: nat): Role {
    if k < |Signature(op)| then Signature(op)[k] else RegOperand
  }

  predicate ValidRegister(r: int) {
    0 <= r < SCULPT_MAXREG
  }

  /** A cell can play a role: the union member the role reads is the one
      written, registers are in range, and a name fits `char ch[32]`. */
  predicate MatchesRole(role: Role, c: SculptReg) {
    match role
    case RegOperand => c.I? && ValidRegister(c.i)
    case FloatOperand => c.F?
    case IntOperand => c.I?
    case PtrOperand => c.P?
    case ChannelOperand => c.Ch? && BrushTables.FitsBuffer(c.ch, BrushTables.NAME_CAPACITY)
    case ToolOperand => c.I?
  }

  /** An explicit operand list agrees with the documented signature. */
  predicate MatchesSignature(op: SculptOp, ops: seq<SculptReg>) {
    && (if Variadic(op) then |ops| >= |Signature(op)| else |ops| == |Signature(op)|)
    && forall k :: 0 <= k < |ops| ==> MatchesRole(RoleAt(op, k), ops[k])
  }

  // ---------------------------------------------------------------------
  // The terminated operand array

  datatype SculptOpCode = SculptOpCode(code: int, params: seq<SculptReg>)

  function Zeros(n: nat): seq<SculptReg> {
    seq(n, _ => Zeroed)
  }

  predicate NoTerminator(ops: seq<SculptReg>) {
    forall k :: 0 <= k < |ops| ==> ops[k] != I(TERMINATOR)
  }

  /** The index of the first terminator cell. */
  function OperandTerminator(cells: seq<SculptReg>): (r: Option<nat>)
    ensures r.Some? ==> r.value < |cells| && cells[r.value] == I(TERMINATOR)
    ensures r.Some? ==> forall j :: 0 <= j < r.value ==> cells[j] != I(TERMINATOR)
    ensures r.None? <==> NoTerminator(cells)
  {
    if |cells| == 0 then None
    else if cells[0] == I(TERMINATOR) then Some(0)
    else match OperandTerminator(cells[1..])
      case None => None
      case Some(k) => Some(k + 1)
  }

  /** A terminator preceded by none is the first one. */
  lemma TerminatorUnique(cells: seq<SculptReg>, t: nat)
    requires t < |cells| && cells[t] == I(TERMINATOR)
    requires NoTerminator(cells[..t])
    ensures OperandTerminator(cells) == Some(t)
  {
    assert forall j :: 0 <= j < t ==> cells[j] != I(TERMINATOR) by {
      forall j | 0 <= j < t ensures cells[j] != I(TERMINATOR) {
        assert cells[..t][j] == cells[j];
      }
    }
    var r := OperandTerminator(cells);
    assert r.Some? by {
      assert !NoTerminator(cells) by { assert cells[t] == I(TERMINATOR); }
    }
    assert forall j :: 0 <= j < r.value ==> cells[j] != I(TERMINATOR) by {
      forall j | 0 <= j < r.value ensures cells[j] != I(TERMINATOR) {
        assert cells[..r.value][j] == cells[j];
      }
    }
  }

  /** The explicit operand list an instruction carries: the cells before the
      terminator, or nothing when there is no terminator. */
  function Operands(ins: SculptOpCode): Option<seq<SculptReg>> {
    match OperandTerminator(ins.params)
    case Some(k) => Some(ins.params[..k])
    case None => None
  }

  /** The terminated layout of an explicit operand list: the operands, the
      terminator, then zero cells up to the array's capacity. */
  function Encode(code: int, ops: seq<SculptReg>): (r: SculptOpCode)
    requires |ops| < OPERAND_SLOTS
    ensures |r.params| == OPERAND_SLOTS
  {
    SculptOpCode(code, ops + [I(TERMINATOR)] + Zeros(OPERAND_SLOTS - |ops| - 1))
  }

  /** The terminator after an operand list free of terminators is found
      exactly at the list's end. */
  lemma {:induction false} TerminatorAfter(ops: seq<SculptReg>, rest: seq<SculptReg>)
    requires NoTerminator(ops)
    ensures OperandTerminator(ops + [I(TERMINATOR)] + rest) == Some(|ops|)
  {
    var cells := ops + [I(TERMINATOR)] + rest;
    if |ops| == 0 {
      assert cells[0] == I(TERMINATOR);
    } else {
      assert cells[0] == ops[0];
      assert cells[1..] == ops[1..] + [I(TERMINATOR)] + rest;
      TerminatorAfter(ops[1..], rest);
    }
  }

  /** Decoding an encoded operand list gives the list back, provided no
      operand is itself the terminator value. */
  lemma DecodeEncode(code: int, ops: seq<SculptReg>)
    requires |ops| < OPERAND_SLOTS
    requires NoTerminator(ops)
    ensures Operands(Encode(code, ops)) == Some(ops)
    ensures Encode(code, ops).code == code
  {
    TerminatorAfter(ops, Zeros(OPERAND_SLOTS - |ops| - 1));
    assert (ops + [I(TERMINATOR)] + Zeros(OPERAND_SLOTS - |ops| - 1))[..|ops|] == ops;
  }

  /** An instruction whose cells after the terminator are all zero. */
  predicate Canonical(ins: SculptOpCode) {
    && |ins.params| == OPERAND_SLOTS
    && match OperandTerminator(ins.params)
       case None => false
       case Some(k) => forall j :: k < j < |ins.params| ==> ins.params[j] == Zeroed
  }

  /** Encoding the decoded operands of a canonical instruction rebuilds it. */
  lemma EncodeDecode(ins: SculptOpCode)
    requires Canonical(ins)
    ensures Operands(ins).Some?
    ensures |Operands(ins).value| < OPERAND_SLOTS
    ensures Encode(ins.code, Operands(ins).value) == ins
  {
    var k := OperandTerminator(ins.params).value;
    var e := Encode(ins.code, ins.params[..k]);
    assert |e.params| == |ins.params|;
    forall j | 0 <= j < |ins.params|
      ensures e.params[j] == ins.params[j]
    {
      if j < k {
        assert e.params[j] == ins.params[..k][j];
      } else if j == k {
        assert e.params[j] == I(TERMINATOR);
      } else {
        assert e.params[j] == Zeroed;
      }
    }
  }

  // ---------------------------------------------------------------------
  // Well-formedness

  /** An instruction is well formed when its code names an opcode, its
      operand array has the declared capacity and holds a terminator, and the
      operands before the terminator match the opcode's signature. */
  predicate WellFormed(ins: SculptOpCode) {
    && |ins.params| == OPERAND_SLOTS
    && DecodeOp(ins.code).Some?
    && Operands(ins).Some?
    && MatchesSignature(DecodeOp(ins.code).value, Operands(ins).value)
  }

  /** A well-formed instruction has fewer than 16 operands, and every operand
      in a register role names one of the 32 registers. */
  lemma WellFormedBounds(ins: SculptOpCode)
    requires WellFormed(ins)
    ensures |Operands(ins).value| < OPERAND_SLOTS
    ensures forall k :: 0 <= k < |Operands(ins).value| && RoleAt(DecodeOp(ins.code).value, k) == RegOperand
              ==> ValidRegister(Operands(ins).value[k].i)
  {
  }

  /** A well-formed operand list without a terminator value among its
      operands, encoded, is a well-formed instruction. */
  lemma EncodeWellFormed(op: SculptOp, ops: seq<SculptReg>)
    requires |ops| < OPERAND_SLOTS
    requires MatchesSignature(op, ops)
    requires NoTerminator(ops)
    ensures WellFormed(Encode(OpCode(op), ops))
  {
    OpCodeRoundTrip(op, OpCode(op));
    DecodeEncode(OpCode(op), ops);
  }

  /** An int literal equal to the terminator value cannot be encoded: the
      list `SOP_LOADI r, -1` reads back as the one operand `r`, which no longer
      matches the signature. */
  lemma LiteralTerminatorAmbiguous(r: int)
    requires ValidRegister(r)
    ensures MatchesSignature(LoadI, [I(r), I(TERMINATOR)])
    ensures Operands(Encode(SOP_LOADI, [I(r), I(TERMINATOR)])) == Some([I(r)])
    ensures !WellFormed(Encode(SOP_LOADI, [I(r), I(TERMINATOR)]))
  {
    OpCodeRoundTrip(LoadI, SOP_LOADI);
    var e := Encode(SOP_LOADI, [I(r), I(TERMINATOR)]);
    assert e.params[..1] == [I(r)];
    TerminatorUnique(e.params, 1);
  }

  /** Finds the terminator by scanning the cells in order, as a reader of the
      C layout must. */
  method FindTerminator(cells: seq<SculptReg>) returns (k: int)
    ensures -1 <= k < |cells|
    ensures k == -1 <==> NoTerminator(cells)
    ensures k >= 0 ==> cells[k] == I(TERMINATOR) && NoTerminator(cells[..k])
  {
    k := 0;
    while k < |cells|
      invariant 0 <= k <= |cells|
      invariant NoTerminator(cells[..k])
    {
      if cells[k] == I(TERMINATOR) {
        return;
      }
      assert cells[..k + 1] == cells[..k] + [cells[k]];
      k := k + 1;
    }
    assert cells[..k] == cells;
    k := -1;
  }

  /** Decides `WellFormed` for one instruction. */
  method CheckInstruction(ins: SculptOpCode) returns (ok: bool)
    ensures ok <==> WellFormed(ins)
  {
    if |ins.params| != OPERAND_SLOTS {
      return false;
    }
    var op := DecodeOp(ins.code);
    if op.None? {
      return false;
    }
    var t := FindTerminator(ins.params);
    if t < 0 {
      return false;
    }
    TerminatorUnique(ins.params, t);
    var ops := ins.params[..t];
    var sig := Signature(op.value);
    if Variadic(op.value) {
      if |ops| < |sig| {
        return false;
      }
    } else if |ops| != |sig| {
      return false;
    }
    var k := 0;
    while k < |ops|
      invariant 0 <= k <= |ops|
      invariant forall j :: 0 <= j < k ==> MatchesRole(RoleAt(op.value, j), ops[j])
    {
      if !MatchesRole(RoleAt(op.value, k), ops[k]) {
        return false;
      }
      k := k + 1;
    }
    return true;
  }

  /** Checks a program instruction by instruction and reports the index of
      the first malformed instruction, so that a defect in a program's
      construction is found before anything runs. */
  method ValidateProgram(prog: seq<SculptOpCode>) returns (bad: Option<nat>)
    ensures bad.None? <==> forall i :: 0 <= i < |prog| ==> WellFormed(prog[i])
    ensures bad.Some? ==> bad.value < |prog| && !WellFormed(prog[bad.value])
    ensures bad.Some? ==> forall i :: 0 <= i < bad.value ==> WellFormed(prog[i])
  {
    var i := 0;
    while i < |prog|
      invariant 0 <= i <= |prog|
      invariant forall j :: 0 <= j < i ==> WellFormed(prog[j])
    {
      var ok := CheckInstruction(prog[i]);
      if !ok {
        return Some(i);
      }
      i := i + 1;
    }
    return None;
  }

  // ---------------------------------------------------------------------
  // The OP_* builders

  /** `OP(op)`: no operands are written, so all 16 cells stay zero and the
      array holds no terminator. */
  function Op(op: int): (r: SculptOpCode)
    ensures r.code == op && |r.params| == OPERAND_SLOTS
    ensures forall k :: 0 <= k < |r.params| ==> r.params[k] == Zeroed
    ensures Operands(r).None? && !WellFormed(r)
  {
    var r := SculptOpCode(op, Zeros(OPERAND_SLOTS));
    assert NoTerminator(r.params);
    r
  }

  /** `OP_I_CH(op, i1, ch1)`: an int, an inline channel name, the terminator. */
  function OpICh(op: int, i1: int, ch1: string): (r: SculptOpCode)
    ensures r.code == op && |r.params| == OPERAND_SLOTS
    ensures r.params[2] == I(TERMINATOR)
    ensures i1 != TERMINATOR ==> Operands(r) == Some([I(i1), Ch(ch1)])
    ensures r == Encode(op, [I(i1), Ch(ch1)])
  {
    var ops := [I(i1), Ch(ch1)];
    if i1 != TERMINATOR then DecodeEncode(op, ops); Encode(op, ops) else Encode(op, ops)
  }

  /** `OP_I(op, i1, i2)`: one int and the terminator; `i2` is dropped. */
  function OpI(op: int, i1: int, i2: int): (r: SculptOpCode)
    ensures r.code == op && |r.params| == OPERAND_SLOTS
    ensures r.params[1] == I(TERMINATOR)
    ensures i1 != TERMINATOR ==> Operands(r) == Some([I(i1)])
    ensures r == Encode(op, [I(i1)])
  {
    var ops := [I(i1)];
    if i1 != TERMINATOR then DecodeEncode(op, ops); Encode(op, ops) else Encode(op, ops)
  }

  /** The ints of a list, as `.i` cells. */
  function IntCells(xs: seq<int>): (r: seq<SculptReg>)
    ensures |r| == |xs| && forall k :: 0 <= k < |xs| ==> r[k] == I(xs[k])
  {
    seq(|xs|, k requires 0 <= k < |xs| => I(xs[k]))
  }

  predicate NoTerminatorInt(xs: seq<int>) {
    forall k :: 0 <= k < |xs| ==> xs[k] != TERMINATOR
  }

  /** The common layout of `OP_I2`, `OP_I3` and `OP_I4`: k ints in cells
      0..k-1 and the terminator in cell k. */
  function OpInts(op: int, xs: seq<int>): (r: SculptOpCode)
    requires |xs| < OPERAND_SLOTS
    ensures r.code == op && |r.params| == OPERAND_SLOTS
    ensures forall k :: 0 <= k < |xs| ==> r.params[k] == I(xs[k])
    ensures r.params[|xs|] == I(TERMINATOR)
    ensures forall k :: |xs| < k < OPERAND_SLOTS ==> r.params[k] == Zeroed
    ensures NoTerminatorInt(xs) ==> Operands(r) == Some(IntCells(xs))
  {
    var ops := IntCells(xs);
    if NoTerminatorInt(xs) then DecodeEncode(op, ops); Encode(op, ops) else Encode(op, ops)
  }

  /** `OP_I2(op, i1, i2)`. */
  function OpI2(op: int, i1: int, i2: int): (r: SculptOpCode)
    ensures r == OpInts(op, [i1, i2])
    ensures i1 != TERMINATOR && i2 != TERMINATOR ==> Operands(r) == Some([I(i1), I(i2)])
  {
    var r := SculptOpCode(op, [I(i1), I(i2), I(TERMINATOR)] + Zeros(13));
    assert r.params == OpInts(op, [i1, i2]).params;
    assert IntCells([i1, i2]) == [I(i1), I(i2)];
    r
  }

  /** `OP_I3(op, i1, i2, i3)`. */
  function OpI3(op: int, i1: int, i2: int, i3: int): (r: SculptOpCode)
    ensures r == OpInts(op, [i1, i2, i3])
    ensures i1 != TERMINATOR && i2 != TERMINATOR && i3 != TERMINATOR ==>
              Operands(r) == Some([I(i1), I(i2), I(i3)])
  {
    var r := SculptOpCode(op, [I(i1), I(i2), I(i3), I(TERMINATOR)] + Zeros(12));
    assert r.params == OpInts(op, [i1, i2, i3]).params;
    assert IntCells([i1, i2, i3]) == [I(i1), I(i2), I(i3)];
    r
  }

  /** `OP_I4(op, i1, i2, i3, i4)`. */
  function OpI4(op: int, i1: int, i2: int, i3: int, i4: int): (r: SculptOpCode)
    ensures r == OpInts(op, [i1, i2, i3, i4])
    ensures i1 != TERMINATOR && i2 != TERMINATOR && i3 != TERMINATOR && i4 != TERMINATOR ==>
              Operands(r) == Some([I(i1), I(i2), I(i3), I(i4)])
  {
    var r := SculptOpCode(op, [I(i1), I(i2), I(i3), I(i4), I(TERMINATOR)] + Zeros(11));
    assert r.params == OpInts(op, [i1, i2, i3, i4]).params;
    assert IntCells([i1, i2, i3, i4]) == [I(i1), I(i2), I(i3), I(i4)];
    r
  }

  /** `OP_I` ignores its second argument entirely. */
  lemma OpIDiscardsSecond(op: int, i1: int, i2: int, i2': int)
    ensures OpI(op, i1, i2) == OpI(op, i1, i2')
  {
  }

  // ---------------------------------------------------------------------
  // Register def-use over a program

  /** The register a cell names, or an out-of-range index when it names none. */
  function RegOf(c: SculptReg): int {
    if c.I? then c.i else TERMINATOR
  }

  /** The opcodes that combine two source registers into a destination. */
  predicate IsArithmetic(op: SculptOp) {
    match op
    case Mul | Add | Sub | Div => true
    case _ => false
  }

  /** The opcodes whose first operand is a destination register: the loads,
      a pop and the arithmetic opcodes. */
  predicate WritesFirst(op: SculptOp) {
    match op
    case Push | PopDiscard | ToolExec => false
    case _ => true
  }

  /** Registers an instruction writes: the destination of a load, a pop or
      an arithmetic opcode. */
  function Writes(ins: SculptOpCode): set<int> {
    match (DecodeOp(ins.code), Operands(ins))
    case (Some(op), Some(ops)) =>
      if WritesFirst(op) && |ops| > 0 then {RegOf(ops[0])} else {}
    case _ => {}
  }

  /** Registers an instruction reads: a pushed register, the two sources of
      an arithmetic opcode, the parameters of a tool execution. */
  function Reads(ins: SculptOpCode): set<int> {
    match (DecodeOp(ins.code), Operands(ins))
    case (Some(op), Some(ops)) =>
      if op == Push && |ops| > 0 then {RegOf(ops[0])}
      else if IsArithmetic(op) && |ops| >= 3 then {RegOf(ops[1]), RegOf(ops[2])}
      else if op == ToolExec then set k | 1 <= k < |ops| :: RegOf(ops[k])
      else {}
    case _ => {}
  }

  /** Every register written by some instruction before index `i`. */
  function WrittenBefore(prog: seq<SculptOpCode>, i: nat): (r: set<int>)
    requires i <= |prog|
    ensures forall j :: 0 <= j < i ==> Writes(prog[j]) <= r
  {
    if i == 0 then {} else WrittenBefore(prog, i - 1) + Writes(prog[i - 1])
  }

  /** No instruction reads a register before some earlier instruction wrote it. */
  predicate DefinedBeforeUse(prog: seq<SculptOpCode>) {
    forall i :: 0 <= i < |prog| ==> Reads(prog[i]) <= WrittenBefore(prog, i)
  }

  /** The index of the last instruction before `i` that writes `reg`. */
  function LastWriter(prog: seq<SculptOpCode>, i: nat, reg: int): (r: Option<nat>)
    requires i <= |prog|
    ensures r.Some? ==> r.value < i && reg in Writes(prog[r.value])
    ensures r.Some? ==> forall j :: r.value < j < i ==> reg !in Writes(prog[j])
    ensures r.None? <==> forall j :: 0 <= j < i ==> reg !in Writes(prog[j])
  {
    if i == 0 then None
    else if reg in Writes(prog[i - 1]) then Some(i - 1)
    else LastWriter(prog, i - 1, reg)
  }

  /** The channel name a `SOP_LOAD_CHANNEL_F` or `SOP_LOAD_CHANNEL_I`
      instruction loads. */
  function LoadedChannel(ins: SculptOpCode): Option<string> {
    if (ins.code == SOP_LOAD_CHANNEL_F || ins.code == SOP_LOAD_CHANNEL_I) && Operands(ins).Some? && |Operands(ins).value| == 2
       && Operands(ins).value[1].Ch?
    then Some(Operands(ins).value[1].ch)
    else None
  }

  /** What `OP_I_CH(SOP_LOAD_CHANNEL_F, reg, name)` is: a well-formed load of
      `name` into `reg`, reading no register. */
  lemma LoadChannelInstruction(reg: int, name: string)
    requires ValidRegister(reg) && BrushTables.FitsBuffer(name, BrushTables.NAME_CAPACITY)
    ensures WellFormed(OpICh(SOP_LOAD_CHANNEL_F, reg, name))
    ensures Writes(OpICh(SOP_LOAD_CHANNEL_F, reg, name)) == {reg}
    ensures Reads(OpICh(SOP_LOAD_CHANNEL_F, reg, name)) == {}
    ensures LoadedChannel(OpICh(SOP_LOAD_CHANNEL_F, reg, name)) == Some(name)
  {
    OpCodeRoundTrip(LoadChannelF, SOP_LOAD_CHANNEL_F);
    var ins := OpICh(SOP_LOAD_CHANNEL_F, reg, name);
    assert Operands(ins) == Some([I(reg), Ch(name)]);
    assert MatchesSignature(LoadChannelF, [I(reg), Ch(name)]);
  }

  /** What `OP_I3(op, dst, a, b)` is for an arithmetic opcode: a well-formed
      instruction writing `dst` from `a` and `b`. */
  lemma ArithmeticInstruction(op: SculptOp, dst: int, a: int, b: int)
    requires IsArithmetic(op)
    requires ValidRegister(dst) && ValidRegister(a) && ValidRegister(b)
    ensures WellFormed(OpI3(OpCode(op), dst, a, b))
    ensures Writes(OpI3(OpCode(op), dst, a, b)) == {dst}
    ensures Reads(OpI3(OpCode(op), dst, a, b)) == {a, b}
    ensures LoadedChannel(OpI3(OpCode(op), dst, a, b)).None?
  {
    OpCodeRoundTrip(op, OpCode(op));
    OpCodeRoundTrip(LoadChannelF, SOP_LOAD_CHANNEL_F);
    var ins := OpI3(OpCode(op), dst, a, b);
    assert Operands(ins) == Some([I(dst), I(a), I(b)]);
    assert MatchesSignature(op, [I(dst), I(a), I(b)]);
  }

  /** What `OP_I3(SOP_TOOL_EXEC, tool, a, b)` is: a well-formed tool
      execution reading `a` and `b` and writing nothing. */
  lemma ToolExecInstruction(tool: int, a: int, b: int)
    requires tool != TERMINATOR && ValidRegister(a) && ValidRegister(b)
    ensures WellFormed(OpI3(SOP_TOOL_EXEC, tool, a, b))
    ensures Writes(OpI3(SOP_TOOL_EXEC, tool, a, b)) == {}
    ensures Reads(OpI3(SOP_TOOL_EXEC, tool, a, b)) == {a, b}
    ensures LoadedChannel(OpI3(SOP_TOOL_EXEC, tool, a, b)).None?
  {
    OpCodeRoundTrip(ToolExec, SOP_TOOL_EXEC);
    OpCodeRoundTrip(LoadChannelF, SOP_LOAD_CHANNEL_F);
    var ins := OpI3(SOP_TOOL_EXEC, tool, a, b);
    var ops := [I(tool), I(a), I(b)];
    assert Operands(ins) == Some(ops);
    assert MatchesSignature(ToolExec, ops);
    assert Reads(ins) == set k | 1 <= k < 3 :: RegOf(ops[k]);
    assert (set k | 1 <= k < 3 :: RegOf(ops[k])) == {a, b} by {
      assert RegOf(ops[1]) == a && RegOf(ops[2]) == b;
    }
  }

  // ---------------------------------------------------------------------
  // The shipped program

  const REG_RADIUS: int := 10
  const REG_STRENGTH: int := 11
  const REG_AUTOSMOOTH: int := 12

  /** The instruction sequence of `preset`, over the registers it names and
      the tool it runs: draw with the radius and strength channels, then
      compute the autosmooth radius as radius times its scale. */
  function PresetProgram(radius: int, strength: int, autosmooth: int, tool: int): seq<SculptOpCode> {
    [ OpICh(SOP_LOAD_CHANNEL_F, radius, "Radius"),
      OpICh(SOP_LOAD_CHANNEL_F, strength, "Strength"),
      OpI3(SOP_TOOL_EXEC, tool, radius, strength),
      OpICh(SOP_LOAD_CHANNEL_F, autosmooth, "Radius"),
      OpICh(SOP_LOAD_CHANNEL_F, autosmooth, "Autosmooth Radius Scale"),
      OpI3(SOP_MUL, autosmooth, autosmooth, radius) ]
  }

  /** The instructions of the program one by one, so that later proofs do
      not unfold it. */
  lemma PresetProgramShape(radius: int, strength: int, autosmooth: int, tool: int)
    ensures var prog := PresetProgram(radius, strength, autosmooth, tool);
      && |prog| == 6
      && prog[0] == OpICh(SOP_LOAD_CHANNEL_F, radius, "Radius")
      && prog[1] == OpICh(SOP_LOAD_CHANNEL_F, strength, "Strength")
      && prog[2] == OpI3(SOP_TOOL_EXEC, tool, radius, strength)
      && prog[3] == OpICh(SOP_LOAD_CHANNEL_F, autosmooth, "Radius")
      && prog[4] == OpICh(SOP_LOAD_CHANNEL_F, autosmooth, "Autosmooth Radius Scale")
      && prog[5] == OpI3(OpCode(Mul), autosmooth, autosmooth, radius)
  {
  }

  /** `preset` itself. */
  const Preset: seq<SculptOpCode> := PresetProgram(REG_RADIUS, REG_STRENGTH, REG_AUTOSMOOTH, BrushTables.SCULPT_TOOL_DRAW)

  /** The registers of `preset` are valid and pairwise distinct, and the
      tool id is not the terminator value. */
  predicate PresetRegistersOk(radius: int, strength: int, autosmooth: int, tool: int) {
    && ValidRegister(radius) && ValidRegister(strength) && ValidRegister(autosmooth)
    && radius != strength && radius != autosmooth && strength != autosmooth
    && tool != TERMINATOR
  }

  /** The effect of the channel load at index `k` of a program. */
  lemma LoadAt(prog: seq<SculptOpCode>, k: nat, reg: int, name: string)
    requires k < |prog| && prog[k] == OpICh(SOP_LOAD_CHANNEL_F, reg, name)
    requires ValidRegister(reg) && BrushTables.FitsBuffer(name, BrushTables.NAME_CAPACITY)
    ensures WellFormed(prog[k])
    ensures Writes(prog[k]) == {reg} && Reads(prog[k]) == {} && LoadedChannel(prog[k]) == Some(name)
  {
    LoadChannelInstruction(reg, name);
  }

  /** The four channel loads of the program: what each writes and loads. */
  lemma PresetProgramLoads(radius: int, strength: int, autosmooth: int, tool: int)
    requires PresetRegistersOk(radius, strength, autosmooth, tool)
    ensures |PresetProgram(radius, strength, autosmooth, tool)| == 6
    ensures var prog := PresetProgram(radius, strength, autosmooth, tool);
      && WellFormed(prog[0]) && WellFormed(prog[1]) && WellFormed(prog[3]) && WellFormed(prog[4])
      && Writes(prog[0]) == {radius} && Reads(prog[0]) == {} && LoadedChannel(prog[0]) == Some("Radius")
      && Writes(prog[1]) == {strength} && Reads(prog[1]) == {} && LoadedChannel(prog[1]) == Some("Strength")
      && Writes(prog[3]) == {autosmooth} && Reads(prog[3]) == {} && LoadedChannel(prog[3]) == Some("Radius")
      && Writes(prog[4]) == {autosmooth} && Reads(prog[4]) == {}
      && LoadedChannel(prog[4]) == Some("Autosmooth Radius Scale")
  {
    var prog := PresetProgram(radius, strength, autosmooth, tool);
    PresetProgramShape(radius, strength, autosmooth, tool);
    LoadAt(prog, 0, radius, "Radius");
    LoadAt(prog, 1, strength, "Strength");
    LoadAt(prog, 3, autosmooth, "Radius");
    LoadAt(prog, 4, autosmooth, "Autosmooth Radius Scale");
  }

  /** The tool execution and the multiplication of the program: what each
      writes and reads. */
  lemma PresetProgramCompute(radius: int, strength: int, autosmooth: int, tool: int)
    requires PresetRegistersOk(radius, strength, autosmooth, tool)
    ensures |PresetProgram(radius, strength, autosmooth, tool)| == 6
    ensures var prog := PresetProgram(radius, strength, autosmooth, tool);
      && WellFormed(prog[2]) && WellFormed(prog[5])
      && Writes(prog[2]) == {} && Reads(prog[2]) == {radius, strength} && LoadedChannel(prog[2]) == None
      && Writes(prog[5]) == {autosmooth} && Reads(prog[5]) == {autosmooth, radius} && LoadedChannel(prog[5]) == None
  {
    PresetProgramShape(radius, strength, autosmooth, tool);
    ToolExecInstruction(tool, radius, strength);
    ArithmeticInstruction(Mul, autosmooth, autosmooth, radius);
  }

  /** Every instruction of the program matches its documented signature. */
  lemma PresetProgramWellFormed(radius: int, strength: int, autosmooth: int, tool: int)
    requires PresetRegistersOk(radius, strength, autosmooth, tool)
    ensures |PresetProgram(radius, strength, autosmooth, tool)| == 6
    ensures forall i :: 0 <= i < 6 ==> WellFormed(PresetProgram(radius, strength, autosmooth, tool)[i])
  {
    var prog := PresetProgram(radius, strength, autosmooth, tool);
    PresetProgramLoads(radius, strength, autosmooth, tool);
    PresetProgramCompute(radius, strength, autosmooth, tool);
    forall i | 0 <= i < 6 ensures WellFormed(prog[i]) {
      if i == 0 {} else if i == 1 {} else if i == 2 {} else if i == 3 {} else if i == 4 {} else {}
    }
  }

  /** Any six instructions with the write and read pattern of `preset`
      define every register before it is read. */
  lemma DefinedBeforeUseOfPattern(prog: seq<SculptOpCode>, radius: int, strength: int, autosmooth: int)
    requires |prog| == 6
    requires Writes(prog[0]) == {radius} && Writes(prog[1]) == {strength} && Writes(prog[2]) == {}
    requires Writes(prog[3]) == {autosmooth} && Writes(prog[4]) == {autosmooth}
    requires Reads(prog[0]) == {} && Reads(prog[1]) == {} && Reads(prog[3]) == {} && Reads(prog[4]) == {}
    requires Reads(prog[2]) == {radius, strength} && Reads(prog[5]) == {autosmooth, radius}
    ensures DefinedBeforeUse(prog)
  {
  }

  /** Every register the tool execution and the multiplication read was
      written by an earlier load, whatever valid distinct registers are used. */
  lemma PresetProgramDefinedBeforeUse(radius: int, strength: int, autosmooth: int, tool: int)
    requires PresetRegistersOk(radius, strength, autosmooth, tool)
    ensures DefinedBeforeUse(PresetProgram(radius, strength, autosmooth, tool))
  {
    PresetProgramLoads(radius, strength, autosmooth, tool);
    PresetProgramCompute(radius, strength, autosmooth, tool);
    DefinedBeforeUseOfPattern(PresetProgram(radius, strength, autosmooth, tool), radius, strength, autosmooth);
  }

  /** The multiplication reads the radius loaded by instruction 0 and the
      scale loaded by instruction 4; the load of instruction 3 into the same
      register is overwritten before anything reads it. */
  lemma PresetProgramReachingLoads(radius: int, strength: int, autosmooth: int, tool: int)
    requires PresetRegistersOk(radius, strength, autosmooth, tool)
    ensures LastWriter(PresetProgram(radius, strength, autosmooth, tool), 5, radius) == Some(0)
    ensures LastWriter(PresetProgram(radius, strength, autosmooth, tool), 5, autosmooth) == Some(4)
    ensures LastWriter(PresetProgram(radius, strength, autosmooth, tool), 4, autosmooth) == Some(3)
    ensures autosmooth !in Reads(PresetProgram(radius, strength, autosmooth, tool)[4])
  {
    var prog := PresetProgram(radius, strength, autosmooth, tool);
    PresetProgramLoads(radius, strength, autosmooth, tool);
    PresetProgramCompute(radius, strength, autosmooth, tool);
    assert LastWriter(prog, 1, radius) == Some(0);
    assert LastWriter(prog, 2, radius) == Some(0);
    assert LastWriter(prog, 3, radius) == Some(0);
    assert LastWriter(prog, 4, radius) == Some(0);
  }

  /** `preset` as shipped: every instruction is well formed, registers are
      defined before use, every loaded channel is a slot of the "Draw"
      preset, and the load at index 3 is a dead store. */
  lemma PresetProperties()
    ensures |Preset| == 6
    ensures forall i :: 0 <= i < |Preset| ==> WellFormed(Preset[i])
    ensures DefinedBeforeUse(Preset)
    ensures forall i :: 0 <= i < |Preset| && LoadedChannel(Preset[i]).Some? ==>
              LoadedChannel(Preset[i]).value in BrushTables.SlotNames(BrushTables.DrawBrush)
    ensures LastWriter(Preset, 5, REG_AUTOSMOOTH) == Some(4)
    ensures LastWriter(Preset, 4, REG_AUTOSMOOTH) == Some(3)
  {
    var r, s, a, t := REG_RADIUS, REG_STRENGTH, REG_AUTOSMOOTH, BrushTables.SCULPT_TOOL_DRAW;
    assert PresetRegistersOk(r, s, a, t);
    PresetProgramWellFormed(r, s, a, t);
    PresetProgramLoads(r, s, a, t);
    PresetProgramDefinedBeforeUse(r, s, a, t);
    PresetProgramReachingLoads(r, s, a, t);
    BrushTables.DrawBrushSlots();
    var names := BrushTables.SlotNames(BrushTables.DrawBrush);
    assert "Radius" in names && "Strength" in names && "Autosmooth Radius Scale" in names by {
      assert names[0] == "Radius" && names[1] == "Strength" && names[3] == "Autosmooth Radius Scale";
    }
    forall i | 0 <= i < |Preset| && LoadedChannel(Preset[i]).Some?
      ensures LoadedChannel(Preset[i]).value in names
    {
      if i == 0 {} else if i == 1 {} else if i == 2 {} else if i == 3 {} else if i == 4 {} else {}
    }
  }
}
