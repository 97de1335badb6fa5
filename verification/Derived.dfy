/** Derived signals: expressions, their bytecode and its evaluator (`compile_expr` and
    `eval_bytecode` of `python/src/trlog/_derived.py`).  Values are Python integers: `~` makes them
    negative, and only the final mask cuts them to a width. */
module Derived {
  import opened Bits
  import opened Bytes
  import opened Varint

  datatype Un = Not | LNot
  datatype Bin = And | Or | Xor | Eq | Ne
  datatype Scale = Shl | Shr | RedAnd | RedOr

  datatype Expr =
    | Input(idx: nat)
    | Const(value: nat)
    | UnOp(un: Un, a: Expr)
    | BinOp(bin: Bin, a: Expr, b: Expr)
    | ScaleOp(scale: Scale, a: Expr, k: nat)      // ShiftOp and ReduceOp: one operand, one number
    | Slice(a: Expr, lo: nat, width: nat)
    | Concat(a: Expr, b: Expr, widthB: nat)

  // ---- Meaning ----

  function Truth(b: bool): int {
    if b then 1 else 0
  }

  function UnValue(op: Un, a: int): int {
    match op
    case Not => Bits.Not(a)
    case LNot => Truth(a == 0)
  }

  function BinValue(op: Bin, a: int, b: int): int {
    match op
    case And => Bits.And(a, b)
    case Or => Bits.Or(a, b)
    case Xor => Bits.Xor(a, b)
    case Eq => Truth(a == b)
    case Ne => Truth(a != b)
  }

  function ScaleValue(op: Scale, a: int, k: nat): int {
    match op
    case Shl => Bits.Shl(a, k)
    case Shr => Bits.Shr(a, k)
    case RedAnd => Truth(Bits.And(a, Mask(k)) == Mask(k))
    case RedOr => Truth(Bits.And(a, Mask(k)) != 0)
  }

  function SliceValue(a: int, lo: nat, width: nat): int {
    Bits.And(Bits.Shr(a, lo), Mask(width))
  }

  function ConcatValue(a: int, b: int, widthB: nat): int {
    Bits.Or(Bits.Shl(a, widthB), Bits.And(b, Mask(widthB)))
  }

  /** The slots an expression refers to exist. */
  predicate SlotsExist(e: Expr, n: nat) {
    match e
    case Input(i) => i < n
    case Const(_) => true
    case UnOp(_, a) => SlotsExist(a, n)
    case BinOp(_, a, b) => SlotsExist(a, n) && SlotsExist(b, n)
    case ScaleOp(_, a, _) => SlotsExist(a, n)
    case Slice(a, _, _) => SlotsExist(a, n)
    case Concat(a, b, _) => SlotsExist(a, n) && SlotsExist(b, n)
  }

  /** Its numbers fit a varint. */
  predicate OperandsFit(e: Expr) {
    match e
    case Input(i) => i < LIMIT
    case Const(v) => v < LIMIT
    case UnOp(_, a) => OperandsFit(a)
    case BinOp(_, a, b) => OperandsFit(a) && OperandsFit(b)
    case ScaleOp(_, a, k) => OperandsFit(a) && k < LIMIT
    case Slice(a, lo, w) => OperandsFit(a) && lo < LIMIT && w < LIMIT
    case Concat(a, b, w) => OperandsFit(a) && OperandsFit(b) && w < LIMIT
  }

  function Value(e: Expr, inputs: seq<int>): int
    requires SlotsExist(e, |inputs|)
  {
    match e
    case Input(i) => inputs[i]
    case Const(v) => v
    case UnOp(op, a) => UnValue(op, Value(a, inputs))
    case BinOp(op, a, b) => BinValue(op, Value(a, inputs), Value(b, inputs))
    case ScaleOp(op, a, k) => ScaleValue(op, Value(a, inputs), k)
    case Slice(a, lo, w) => SliceValue(Value(a, inputs), lo, w)
    case Concat(a, b, w) => ConcatValue(Value(a, inputs), Value(b, inputs), w)
  }

  // ---- Bytecode ----

  function UnCode(op: Un): byte {
    match op case Not => 0x03 case LNot => 0x07
  }

  function BinCode(op: Bin): byte {
    match op case And => 0x04 case Or => 0x05 case Xor => 0x06 case Eq => 0x08 case Ne => 0x09
  }

  function ScaleCode(op: Scale): byte {
    match op case Shl => 0x0A case Shr => 0x0B case RedAnd => 0x0C case RedOr => 0x0D
  }

  /** Post-order: operands first, then the operation and its numbers. */
  function Code(e: Expr): bytes {
    match e
    case Input(i) => [0x01] + EncU(i)
    case Const(v) => [0x02] + EncU(v)
    case UnOp(op, a) => Code(a) + [UnCode(op)]
    case BinOp(op, a, b) => Code(a) + Code(b) + [BinCode(op)]
    case ScaleOp(op, a, k) => Code(a) + [ScaleCode(op)] + EncU(k)
    case Slice(a, lo, w) => Code(a) + [0x0E] + EncU(lo) + EncU(w)
    case Concat(a, b, w) => Code(a) + Code(b) + [0x0F] + EncU(w)
  }

  /** `compile_expr`: the recursion appends to one buffer. */
  method Compile(e: Expr, buf: bytes) returns (out: bytes)
    ensures out == buf + Code(e)
  {
    hide EncU;
    AppendAssoc();
    match e
    case Input(i) => out := buf + [0x01]; out := out + EncU(i);
    case Const(v) => out := buf + [0x02]; out := out + EncU(v);
    case UnOp(op, a) => out := Compile(a, buf); out := out + [UnCode(op)];
    case BinOp(op, a, b) => out := Compile(a, buf); out := Compile(b, out); out := out + [BinCode(op)];
    case ScaleOp(op, a, k) => out := Compile(a, buf); out := out + [ScaleCode(op)]; out := out + EncU(k);
    case Slice(a, lo, w) =>
      out := Compile(a, buf); out := out + [0x0E]; out := out + EncU(lo); out := out + EncU(w);
    case Concat(a, b, w) =>
      out := Compile(a, buf); out := Compile(b, out); out := out + [0x0F]; out := out + EncU(w);
  }

  // ---- The stack machine ----

  /** What is left to run, and the stack with its top at the end. */
  datatype Machine = Machine(code: bytes, stack: seq<int>)

  function Top(s: seq<int>): int
    requires s != []
  {
    s[|s| - 1]
  }

  function Pop(s: seq<int>): seq<int>
    requires s != []
  {
    s[..|s| - 1]
  }

  function Unary(op: Un, code: bytes, s: seq<int>): Option<Machine> {
    if s == [] then None else Some(Machine(code, Pop(s) + [UnValue(op, Top(s))]))
  }

  function Binary(op: Bin, code: bytes, s: seq<int>): Option<Machine> {
    if |s| < 2 then None else Some(Machine(code, Pop(Pop(s)) + [BinValue(op, Top(Pop(s)), Top(s))]))
  }

  function Scaled(op: Scale, code: bytes, s: seq<int>): Option<Machine> {
    match DecU(code)
    case Fail(_) => None
    case Ok(k, rest) => if s == [] then None else Some(Machine(rest, Pop(s) + [ScaleValue(op, Top(s), k)]))
  }

  function Sliced(code: bytes, s: seq<int>): Option<Machine> {
    match DecU(code)
    case Fail(_) => None
    case Ok(lo, c1) =>
      match DecU(c1)
      case Fail(_) => None
      case Ok(w, rest) => if s == [] then None else Some(Machine(rest, Pop(s) + [SliceValue(Top(s), lo, w)]))
  }

  function Joined(code: bytes, s: seq<int>): Option<Machine> {
    match DecU(code)
    case Fail(_) => None
    case Ok(w, rest) =>
      if |s| < 2 then None else Some(Machine(rest, Pop(Pop(s)) + [ConcatValue(Top(Pop(s)), Top(s), w)]))
  }

  function PushInput(code: bytes, s: seq<int>, inputs: seq<int>): Option<Machine> {
    match DecU(code)
    case Fail(_) => None
    case Ok(i, rest) => if i < |inputs| then Some(Machine(rest, s + [inputs[i]])) else None
  }

  function PushConst(code: bytes, s: seq<int>): Option<Machine> {
    match DecU(code)
    case Fail(_) => None
    case Ok(v, rest) => Some(Machine(rest, s + [v]))
  }

  /** One instruction.  Underflow, a missing input, a cut operand and an unknown opcode all raise. */
  function Exec(op: byte, code: bytes, s: seq<int>, inputs: seq<int>): (m: Option<Machine>)
    ensures m.Some? ==> |m.value.code| <= |code|
  {
    if op == 0x01 then PushInput(code, s, inputs)
    else if op == 0x02 then PushConst(code, s)
    else if op == 0x03 then Unary(Not, code, s)
    else if op == 0x04 then Binary(And, code, s)
    else if op == 0x05 then Binary(Or, code, s)
    else if op == 0x06 then Binary(Xor, code, s)
    else if op == 0x07 then Unary(LNot, code, s)
    else if op == 0x08 then Binary(Eq, code, s)
    else if op == 0x09 then Binary(Ne, code, s)
    else if op == 0x0A then Scaled(Shl, code, s)
    else if op == 0x0B then Scaled(Shr, code, s)
    else if op == 0x0C then Scaled(RedAnd, code, s)
    else if op == 0x0D then Scaled(RedOr, code, s)
    else if op == 0x0E then Sliced(code, s)
    else if op == 0x0F then Joined(code, s)
    else None
  }

  function Run(code: bytes, s: seq<int>, inputs: seq<int>): Option<seq<int>>
    decreases |code|
  {
    if code == [] then Some(s)
    else match Exec(code[0], code[1..], s, inputs)
      case None => None
      case Some(m) => Run(m.code, m.stack, inputs)
  }

  /** `eval_bytecode`: exactly one value must be left, and it is cut to the output width (64 bits when
      there is none). */
  function Eval(code: bytes, inputs: seq<int>, outWidth: nat): Option<int> {
    match Run(code, [], inputs)
    case None => None
    case Some(s) => if |s| == 1 then Some(Cut(s[0], outWidth)) else None
  }

  function Cut(v: int, outWidth: nat): int {
    Bits.And(v, Mask(if outWidth > 0 then outWidth else 64))
  }

  // ---- Correctness of the compiler ----

  lemma RunStep(op: byte, code: bytes, t: bytes, s: seq<int>, inputs: seq<int>)
    ensures Run([op] + code + t, s, inputs) ==
            (match Exec(op, code + t, s, inputs) case None => None case Some(m) => Run(m.code, m.stack, inputs))
  {
    hide Exec;
    var all := [op] + code + t;
    assert all[0] == op && all[1..] == code + t;
  }

  lemma PopPush(s: seq<int>, v: int)
    ensures Top(s + [v]) == v && Pop(s + [v]) == s
  {
  }

  lemma LeafRuns(e: Expr, inputs: seq<int>, s: seq<int>, t: bytes)
    requires e.Input? || e.Const?
    requires SlotsExist(e, |inputs|) && OperandsFit(e)
    ensures Run(Code(e) + t, s, inputs) == Run(t, s + [Value(e, inputs)], inputs)
  {
    hide EncU, DecU, Run;
    var n := if e.Input? then e.idx else e.value;
    RunStep(Code(e)[0], EncU(n), t, s, inputs);
    URoundTrip(n, t);
  }

  lemma UnRuns(op: Un, a: int, inputs: seq<int>, s: seq<int>, t: bytes)
    ensures Run([UnCode(op)] + t, s + [a], inputs) == Run(t, s + [UnValue(op, a)], inputs)
  {
    hide Run, UnValue;
    RunStep(UnCode(op), [], t, s + [a], inputs);
    assert [UnCode(op)] + [] + t == [UnCode(op)] + t && [] + t == t;
    PopPush(s, a);
  }

  lemma BinRuns(op: Bin, a: int, b: int, inputs: seq<int>, s: seq<int>, t: bytes)
    ensures Run([BinCode(op)] + t, s + [a] + [b], inputs) == Run(t, s + [BinValue(op, a, b)], inputs)
  {
    hide Run, BinValue;
    RunStep(BinCode(op), [], t, s + [a] + [b], inputs);
    assert [BinCode(op)] + [] + t == [BinCode(op)] + t && [] + t == t;
    PopPush(s + [a], b);
    PopPush(s, a);
  }

  lemma {:induction false} ScaleRuns(op: Scale, a: int, k: nat, inputs: seq<int>, s: seq<int>, t: bytes)
    requires k < LIMIT
    ensures Run([ScaleCode(op)] + EncU(k) + t, s + [a], inputs) == Run(t, s + [ScaleValue(op, a, k)], inputs)
  {
    hide Run, ScaleValue, EncU, DecU;
    RunStep(ScaleCode(op), EncU(k), t, s + [a], inputs);
    URoundTrip(k, t);
    PopPush(s, a);
  }

  lemma {:induction false} SliceRuns(a: int, lo: nat, w: nat, inputs: seq<int>, s: seq<int>, t: bytes)
    requires lo < LIMIT && w < LIMIT
    ensures Run([0x0E] + (EncU(lo) + EncU(w)) + t, s + [a], inputs) == Run(t, s + [SliceValue(a, lo, w)], inputs)
  {
    hide Run, SliceValue, EncU, DecU;
    RunStep(0x0E, EncU(lo) + EncU(w), t, s + [a], inputs);
    assert (EncU(lo) + EncU(w)) + t == EncU(lo) + (EncU(w) + t);
    URoundTrip(lo, EncU(w) + t);
    URoundTrip(w, t);
    PopPush(s, a);
  }

  lemma {:induction false} ConcatRuns(a: int, b: int, w: nat, inputs: seq<int>, s: seq<int>, t: bytes)
    requires w < LIMIT
    ensures Run([0x0F] + EncU(w) + t, s + [a] + [b], inputs) == Run(t, s + [ConcatValue(a, b, w)], inputs)
  {
    hide Run, ConcatValue, EncU, DecU;
    RunStep(0x0F, EncU(w), t, s + [a] + [b], inputs);
    URoundTrip(w, t);
    PopPush(s + [a], b);
    PopPush(s, a);
  }

  /** Compiled code, run on any stack and before any continuation, pushes the expression's value. */
  lemma {:induction false} CompilerCorrect(e: Expr, inputs: seq<int>, s: seq<int>, t: bytes)
    requires SlotsExist(e, |inputs|) && OperandsFit(e)
    ensures Run(Code(e) + t, s, inputs) == Run(t, s + [Value(e, inputs)], inputs)
    decreases e
  {
    hide Run, EncU, UnValue, BinValue, ScaleValue, SliceValue, ConcatValue;
    match e
    case Input(_) => LeafRuns(e, inputs, s, t);
    case Const(_) => LeafRuns(e, inputs, s, t);
    case UnOp(op, a) =>
      assert Code(e) + t == Code(a) + ([UnCode(op)] + t);
      CompilerCorrect(a, inputs, s, [UnCode(op)] + t);
      UnRuns(op, Value(a, inputs), inputs, s, t);
    case BinOp(op, a, b) => TwoOperands(e, a, b, [BinCode(op)], inputs, s, t);
      BinRuns(op, Value(a, inputs), Value(b, inputs), inputs, s, t);
    case ScaleOp(op, a, k) =>
      assert Code(e) + t == Code(a) + ([ScaleCode(op)] + EncU(k) + t);
      CompilerCorrect(a, inputs, s, [ScaleCode(op)] + EncU(k) + t);
      ScaleRuns(op, Value(a, inputs), k, inputs, s, t);
    case Slice(a, lo, w) =>
      var tail := [0x0E] + (EncU(lo) + EncU(w)) + t;
      assert Code(e) + t == Code(a) + tail;
      CompilerCorrect(a, inputs, s, tail);
      SliceRuns(Value(a, inputs), lo, w, inputs, s, t);
    case Concat(a, b, w) => TwoOperands(e, a, b, [0x0F] + EncU(w), inputs, s, t);
      ConcatRuns(Value(a, inputs), Value(b, inputs), w, inputs, s, t);
  }

  lemma {:induction false} TwoOperands(e: Expr, a: Expr, b: Expr, op: bytes, inputs: seq<int>, s: seq<int>, t: bytes)
    requires a < e && b < e && Code(e) == Code(a) + Code(b) + op
    requires SlotsExist(a, |inputs|) && OperandsFit(a) && SlotsExist(b, |inputs|) && OperandsFit(b)
    ensures Run(Code(e) + t, s, inputs) == Run(op + t, s + [Value(a, inputs)] + [Value(b, inputs)], inputs)
    decreases e, 0
  {
    hide Run, Code;
    assert Code(e) + t == Code(a) + (Code(b) + (op + t));
    CompilerCorrect(a, inputs, s, Code(b) + (op + t));
    CompilerCorrect(b, inputs, s + [Value(a, inputs)], op + t);
  }

  /** Hence evaluation of compiled code never fails: it gives the value, cut to the output width. */
  lemma EvalCorrect(e: Expr, inputs: seq<int>, outWidth: nat)
    requires SlotsExist(e, |inputs|) && OperandsFit(e)
    ensures Eval(Code(e), inputs, outWidth) ==
            Some(Value(e, inputs) % Pow2(if outWidth > 0 then outWidth else 64))
    ensures 0 <= Eval(Code(e), inputs, outWidth).value < Pow2(if outWidth > 0 then outWidth else 64)
  {
    var v := Value(e, inputs);
    CompilerCorrect(e, inputs, [], []);
    assert Code(e) + [] == Code(e) && [] + [v] == [v];
    assert Run([], [v], inputs) == Some([v]);
    AndMask(v, if outWidth > 0 then outWidth else 64);
  }

  /** Whatever the bytecode, an evaluation that succeeds stays within the output width. */
  lemma EvalBounded(code: bytes, inputs: seq<int>, outWidth: nat)
    requires Eval(code, inputs, outWidth).Some?
    ensures 0 <= Eval(code, inputs, outWidth).value < Pow2(if outWidth > 0 then outWidth else 64)
  {
    hide Run;
    AndMask(Run(code, [], inputs).value[0], if outWidth > 0 then outWidth else 64);
  }

  // ---- The evaluator's loop ----

  method EvalBytecode(code: bytes, inputs: seq<int>, outWidth: nat) returns (r: Option<int>)
    ensures r == Eval(code, inputs, outWidth)
  {
    hide Exec, Cut;
    var stack: seq<int>, rest := [], code;
    while rest != []
      invariant Run(code, [], inputs) == Run(rest, stack, inputs)
      decreases |rest|
    {
      var m := Exec(rest[0], rest[1..], stack, inputs);
      if m.None? {
        return None;
      }
      stack, rest := m.value.stack, m.value.code;
    }
    r := if |stack| == 1 then Some(Cut(stack[0], outWidth)) else None;
  }

  // ---- Stored definitions ----

  datatype Definition = Definition(bitWidth: nat, inputs: seq<nat>, code: bytes, flags: nat)

  function EncIds(ids: seq<nat>): bytes {
    if ids == [] then [] else EncU(ids[0]) + EncIds(ids[1..])
  }

  function DecIds(n: nat, s: bytes): Parse<seq<nat>> {
    if n == 0 then Ok([], s)
    else
      var (id, s1) :- DecU(s);
      var (more, rest) :- DecIds(n - 1, s1);
      Ok([id] + more, rest)
  }

  function EncDefinition(d: Definition): bytes {
    EncU(d.flags) + EncU(d.bitWidth) + EncU(|d.inputs|) + EncIds(d.inputs) + EncU(|d.code|) + d.code
  }

  function DecDefinition(s: bytes): Parse<Definition> {
    var (flags, s1) :- DecU(s);
    var (bitWidth, s2) :- DecU(s1);
    var (n, s3) :- DecU(s2);
    var (inputs, s4) :- DecIds(n, s3);
    var (size, s5) :- DecU(s4);
    var (code, rest) :- DecSlice(size, s5);
    Ok(Definition(bitWidth, inputs, code, flags), rest)
  }

  lemma {:induction false} IdsRoundTrip(ids: seq<nat>, t: bytes)
    requires forall i :: 0 <= i < |ids| ==> ids[i] < LIMIT
    ensures DecIds(|ids|, EncIds(ids) + t) == Ok(ids, t)
    decreases |ids|
  {
    hide EncU, DecU;
    if ids == [] {
      assert [] + t == t;
    } else {
      var later := EncIds(ids[1..]) + t;
      assert EncIds(ids) == EncU(ids[0]) + EncIds(ids[1..]);
      assert EncIds(ids) + t == EncU(ids[0]) + later;
      URoundTrip(ids[0], later);
      IdsRoundTrip(ids[1..], t);
      assert [ids[0]] + ids[1..] == ids;
    }
  }

  lemma DefinitionRoundTrip(d: Definition, t: bytes)
    requires d.flags < LIMIT && d.bitWidth < LIMIT && |d.inputs| < LIMIT && |d.code| < LIMIT
    requires forall i :: 0 <= i < |d.inputs| ==> d.inputs[i] < LIMIT
    ensures DecDefinition(EncDefinition(d) + t) == Ok(d, t)
  {
    hide EncU, DecU, EncIds, DecIds;
    var s5 := d.code + t;
    var s4 := EncU(|d.code|) + s5;
    var s3 := EncIds(d.inputs) + s4;
    var s2 := EncU(|d.inputs|) + s3;
    var s1 := EncU(d.bitWidth) + s2;
    assert EncDefinition(d) + t == EncU(d.flags) + s1;
    URoundTrip(d.flags, s1);
    URoundTrip(d.bitWidth, s2);
    URoundTrip(|d.inputs|, s3);
    IdsRoundTrip(d.inputs, s4);
    URoundTrip(|d.code|, s5);
    SliceRoundTrip(d.code, t);
  }
}
