/** What an expression over signals means bit by bit, as a circuit, and that compiled expressions compute it. */
module Circuits {
  import Bits
  import opened BitLaws
  import opened Derived

  /** Bit `p` of an expression: gates on the same bit of the operands, wires that move bits, and comparisons
      and reductions that give one bit. */
  ghost predicate Wire(e: Expr, inputs: seq<int>, p: nat)
    requires SlotsExist(e, |inputs|)
    decreases e
  {
    match e
    case Input(i) => Bit(inputs[i], p)
    case Const(v) => Bit(v, p)
    case UnOp(op, a) =>
      (match op
       case Not => !Wire(a, inputs, p)
       case LNot => p == 0 && forall q: nat :: !Wire(a, inputs, q))
    case BinOp(op, a, b) =>
      (match op
       case And => Wire(a, inputs, p) && Wire(b, inputs, p)
       case Or => Wire(a, inputs, p) || Wire(b, inputs, p)
       case Xor => Wire(a, inputs, p) != Wire(b, inputs, p)
       case Eq => p == 0 && forall q: nat :: Wire(a, inputs, q) == Wire(b, inputs, q)
       case Ne => p == 0 && exists q: nat :: Wire(a, inputs, q) != Wire(b, inputs, q))
    case ScaleOp(op, a, k) =>
      (match op
       case Shl => p >= k && Wire(a, inputs, p - k)
       case Shr => Wire(a, inputs, p + k)
       case RedAnd => p == 0 && forall q: nat :: q < k ==> Wire(a, inputs, q)
       case RedOr => p == 0 && exists q: nat :: q < k && Wire(a, inputs, q))
    case Slice(a, lo, w) => p < w && Wire(a, inputs, lo + p)
    case Concat(a, b, w) => if p < w then Wire(b, inputs, p) else Wire(a, inputs, p - w)
  }

  lemma TruthBit(b: bool, p: nat)
    ensures Bit(Truth(b), p) <==> p == 0 && b
  {
    BitHalf(Truth(b), if p == 0 then 0 else p - 1);
    NoBits(if p == 0 then 0 else p - 1);
  }

  lemma SliceBits(a: int, lo: nat, w: nat, p: nat)
    ensures Bit(SliceValue(a, lo, w), p) <==> p < w && Bit(a, lo + p)
  {
    hide Bit, Bits.And, Bits.Shr, Bits.Mask;
    LowBits(Bits.Shr(a, lo), w, p);
    ShrBits(a, lo, p);
  }

  lemma ConcatBits(a: int, b: int, w: nat, p: nat)
    ensures Bit(ConcatValue(a, b, w), p) == if p < w then Bit(b, p) else Bit(a, p - w)
  {
    hide Bit, Bits.And, Bits.Or, Bits.Shl, Bits.Mask;
    GateBits(Bits.Shl(a, w), Bits.And(b, Bits.Mask(w)), p);
    ShlBits(a, w, p);
    LowBits(b, w, p);
  }

  // ---- Expressions ----

  /** Each bit of an expression's value is what the circuit says. */
  lemma {:induction false} ValueIsCircuit(e: Expr, inputs: seq<int>)
    requires SlotsExist(e, |inputs|)
    ensures forall p: nat :: Bit(Value(e, inputs), p) == Wire(e, inputs, p)
    decreases e
  {
    hide Bit, UnValue, BinValue, ScaleValue, SliceValue, ConcatValue;
    match e
    case Input(_) =>
    case Const(_) =>
    case UnOp(op, a) =>
      ValueIsCircuit(a, inputs);
      UnIsGate(op, Value(a, inputs));
    case BinOp(op, a, b) =>
      ValueIsCircuit(a, inputs);
      ValueIsCircuit(b, inputs);
      BinIsGate(op, Value(a, inputs), Value(b, inputs));
    case ScaleOp(op, a, k) =>
      ValueIsCircuit(a, inputs);
      ScaleIsGate(op, Value(a, inputs), k);
    case Slice(a, lo, w) =>
      ValueIsCircuit(a, inputs);
      forall p: nat
        ensures Bit(Value(e, inputs), p) == Wire(e, inputs, p)
      {
        SliceBits(Value(a, inputs), lo, w, p);
      }
    case Concat(a, b, w) =>
      ValueIsCircuit(a, inputs);
      ValueIsCircuit(b, inputs);
      forall p: nat
        ensures Bit(Value(e, inputs), p) == Wire(e, inputs, p)
      {
        ConcatBits(Value(a, inputs), Value(b, inputs), w, p);
      }
  }

  lemma UnIsGate(op: Un, a: int)
    ensures forall p: nat :: Bit(UnValue(op, a), p) ==
              match op
              case Not => !Bit(a, p)
              case LNot => p == 0 && forall q: nat :: !Bit(a, q)
  {
    hide Bit;
    IsZero(a);
    forall p: nat
      ensures Bit(UnValue(op, a), p) ==
                match op
                case Not => !Bit(a, p)
                case LNot => p == 0 && forall q: nat :: !Bit(a, q)
    {
      GateBits(a, a, p);
      TruthBit(a == 0, p);
    }
  }

  lemma BinIsGate(op: Bin, a: int, b: int)
    ensures forall p: nat :: Bit(BinValue(op, a, b), p) ==
              match op
              case And => Bit(a, p) && Bit(b, p)
              case Or => Bit(a, p) || Bit(b, p)
              case Xor => Bit(a, p) != Bit(b, p)
              case Eq => p == 0 && forall q: nat :: Bit(a, q) == Bit(b, q)
              case Ne => p == 0 && exists q: nat :: Bit(a, q) != Bit(b, q)
  {
    hide Bit;
    BitsDecide(a, b);
    forall p: nat
      ensures Bit(BinValue(op, a, b), p) ==
                match op
                case And => Bit(a, p) && Bit(b, p)
                case Or => Bit(a, p) || Bit(b, p)
                case Xor => Bit(a, p) != Bit(b, p)
                case Eq => p == 0 && forall q: nat :: Bit(a, q) == Bit(b, q)
                case Ne => p == 0 && exists q: nat :: Bit(a, q) != Bit(b, q)
    {
      GateBits(a, b, p);
      TruthBit(a == b, p);
      TruthBit(a != b, p);
    }
  }

  lemma ScaleIsGate(op: Scale, a: int, k: nat)
    ensures forall p: nat :: Bit(ScaleValue(op, a, k), p) ==
              match op
              case Shl => p >= k && Bit(a, p - k)
              case Shr => Bit(a, p + k)
              case RedAnd => p == 0 && forall q: nat :: q < k ==> Bit(a, q)
              case RedOr => p == 0 && exists q: nat :: q < k && Bit(a, q)
  {
    hide Bit, Bits.And, Bits.Mask;
    AllLow(a, k);
    AnyLow(a, k);
    forall p: nat
      ensures Bit(ScaleValue(op, a, k), p) ==
                match op
                case Shl => p >= k && Bit(a, p - k)
                case Shr => Bit(a, p + k)
                case RedAnd => p == 0 && forall q: nat :: q < k ==> Bit(a, q)
                case RedOr => p == 0 && exists q: nat :: q < k && Bit(a, q)
    {
      ShlBits(a, k, p);
      ShrBits(a, k, p);
      TruthBit(Bits.And(a, Bits.Mask(k)) == Bits.Mask(k), p);
      TruthBit(Bits.And(a, Bits.Mask(k)) != 0, p);
    }
  }

  /** Compiled and evaluated, an expression gives exactly the circuit's bits within the output width. */
  lemma EvalIsCircuit(e: Expr, inputs: seq<int>, outWidth: nat, p: nat)
    requires SlotsExist(e, |inputs|) && OperandsFit(e)
    ensures var r := Eval(Code(e), inputs, outWidth);
            r.Some? && (Bit(r.value, p) <==> p < (if outWidth > 0 then outWidth else 64) && Wire(e, inputs, p))
  {
    hide Bit, Eval, Wire;
    var w := if outWidth > 0 then outWidth else 64;
    EvalCorrect(e, inputs, outWidth);
    Bits.AndMask(Value(e, inputs), w);
    LowBits(Value(e, inputs), w, p);
    ValueIsCircuit(e, inputs);
  }
}
