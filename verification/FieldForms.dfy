/** How many bytes each field type takes and what they say, as the format description tabulates it. */
module FieldForms {
  import opened Bits
  import opened Bytes
  import opened Varint
  import opened Fields
  import R = TxnRecords
  import B = TxnBlock

  /** Bytes of the fixed-width types. */
  function Width(ft: FieldType): nat {
    if ft in {U8, I8, Bool} then 1
    else if ft in {U16, I16} then 2
    else if ft in {U32, I32, F32} then 4
    else if ft in {U64, I64, F64, Time} then 8
    else 0
  }

  /** The number that stands for a negative one: its two's complement. */
  function Unsigned(w: nat, i: int): int {
    if i < 0 then i + Pow2(8 * w) else i
  }

  lemma {:induction false} LeBack(w: nat, n: nat)
    requires n < Pow2(8 * w)
    ensures LeValue(EncLe(w, n)) == n
  {
    LeRoundTrip(w, n);
  }

  /** Fixed-width values take their type's width, numbers as little-endian two's complement. */
  lemma FixedForms(ft: FieldType, v: Value)
    requires Width(ft) > 0 && Fits(ft, v)
    ensures |EncField(ft, v)| == Width(ft)
    ensures match v
            case IntV(i) => LeValue(EncField(ft, v)) == Unsigned(Width(ft), i)
            case BoolV(b) => EncField(ft, v) == [if b then 1 else 0]
            case RawV(raw) => EncField(ft, v) == raw
            case BitsV(_, _) => false
  {
    hide Pow2, EncLe, LeValue;
    if v.IntV? {
      var n := if LayoutOf(ft).Uint? then v.i else ToUnsigned(LayoutOf(ft).width, v.i);
      LeBack(Width(ft), n);
    }
  }

  /** Enumeration values are varints, texts and bytes have their length in front, and bit vectors their width,
      in bits, and then as few bytes as hold it, the highest first. */
  lemma VariedForms(ft: FieldType, v: Value)
    requires Width(ft) == 0 && Fits(ft, v)
    ensures match v
            case IntV(i) => ft == Enum && i >= 0 && EncField(ft, v) == EncU(i)
            case RawV(raw) => ft in {Str, Blob} && EncField(ft, v) == EncU(|raw|) + raw
            case BitsV(width, bits) =>
              ft == BitVec && EncField(ft, v) == EncU(width) + EncBe((width + 7) / 8, bits) && BeValue(EncBe((width + 7) / 8, bits)) == bits
            case BoolV(_) => false
  {
    hide EncU;
    if v.BitsV? {
      BeRoundTrip((v.width + 7) / 8, v.bits);
    }
  }

  /** The wire codes of the types. */
  lemma TypeCodes()
    ensures [Code(U8), Code(U16), Code(U32), Code(U64), Code(I8), Code(I16), Code(I32), Code(I64)] == [0x00, 0x01, 0x02, 0x03, 0x04, 0x05, 0x06, 0x07]
    ensures [Code(F32), Code(F64), Code(Bool), Code(Str), Code(BitVec), Code(Blob), Code(Time), Code(Enum)]
         == [0x08, 0x09, 0x0A, 0x0B, 0x0C, 0x0D, 0x0E, 0x0F]
  {
  }

  /** A field past the end of its schema is written as an unsigned 64-bit number. */
  lemma PastSchema(schema: seq<FieldType>, idx: nat, v: Value)
    ensures idx < |schema| ==> R.FieldTypeAt(schema, idx) == schema[idx]
    ensures idx >= |schema| && Fits(R.FieldTypeAt(schema, idx), v) ==>
              v.IntV? && v.i >= 0 && |EncField(R.FieldTypeAt(schema, idx), v)| == 8 && LeValue(EncField(R.FieldTypeAt(schema, idx), v)) == v.i
  {
    if idx >= |schema| && Fits(R.FieldTypeAt(schema, idx), v) {
      FixedForms(U64, v);
    }
  }

  /** The types that let a block be laid out in columns by itself are those of a fixed width, and enumerations. */
  lemma FixedOrEnum(ft: FieldType)
    ensures B.FixedWidth(ft) <==> Width(ft) > 0 || ft == Enum
  {
  }
}
