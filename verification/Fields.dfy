/** Attribute values and their wire form: `encode_field` and `decode_field` of
    `python/src/trlog/_codec.py`.  Floats are opaque bytes, strings their UTF-8 bytes. */
module Fields {
  import opened Bits
  import opened Bytes
  import opened Varint

  datatype FieldType =
    | U8 | U16 | U32 | U64 | I8 | I16 | I32 | I64
    | F32 | F64 | Bool | Str | BitVec | Blob | Time | Enum

  datatype Value = IntV(i: int) | BoolV(b: bool) | RawV(raw: bytes) | BitsV(width: nat, bits: nat)

  /** The field types in the order of their wire codes. */
  const TYPES: seq<FieldType> :=
    [U8, U16, U32, U64, I8, I16, I32, I64, F32, F64, Bool, Str, BitVec, Blob, Time, Enum]

  function Code(ft: FieldType): (c: byte)
    ensures c < 16 && TYPES[c] == ft
  {
    match ft
    case U8 => 0 case U16 => 1 case U32 => 2 case U64 => 3
    case I8 => 4 case I16 => 5 case I32 => 6 case I64 => 7
    case F32 => 8 case F64 => 9 case Bool => 10 case Str => 11
    case BitVec => 12 case Blob => 13 case Time => 14 case Enum => 15
  }

  /** `FieldType(data[offset])`: an unknown code raises. */
  function DecType(s: bytes): Parse<FieldType> {
    var (c, rest) :- DecByte(s);
    if c < 16 then Ok(TYPES[c], rest) else Fail(BadTag)
  }

  /** How a type is laid out: the rows of the `_FMT` table and the four special cases below it. */
  datatype Layout = Uint(width: nat) | Sint(width: nat) | Opaque(width: nat) | Flag | Varied | Vector | Text

  function LayoutOf(ft: FieldType): (l: Layout)
    ensures l.Sint? ==> l.width > 0
  {
    match ft
    case U8 => Uint(1) case U16 => Uint(2) case U32 => Uint(4) case U64 => Uint(8)
    case I8 => Sint(1) case I16 => Sint(2) case I32 => Sint(4) case I64 => Sint(8)
    case F32 => Opaque(4) case F64 => Opaque(8) case Bool => Flag
    case Str => Text case BitVec => Vector case Blob => Text
    case Time => Uint(8) case Enum => Varied
  }

  /** The values a field type can carry: what `struct.pack` and `to_bytes` accept. */
  predicate Fits(ft: FieldType, v: Value) {
    match LayoutOf(ft)
    case Uint(w) => v.IntV? && 0 <= v.i < Pow2(8 * w)
    case Sint(w) => v.IntV? && -Pow2(8 * w - 1) <= v.i < Pow2(8 * w - 1)
    case Opaque(w) => v.RawV? && |v.raw| == w
    case Flag => v.BoolV?
    case Varied => v.IntV? && 0 <= v.i < LIMIT
    case Vector => v.BitsV? && v.width < LIMIT && v.bits < Pow2(8 * ((v.width + 7) / 8))
    case Text => v.RawV? && |v.raw| < LIMIT
  }

  function EncField(ft: FieldType, v: Value): bytes
    requires Fits(ft, v)
  {
    match LayoutOf(ft)
    case Uint(w) => EncLe(w, v.i)
    case Sint(w) => EncLe(w, ToUnsigned(w, v.i))
    case Opaque(w) => v.raw
    case Flag => [if v.b then 1 else 0]
    case Varied => EncU(v.i)
    case Vector => EncU(v.width) + EncBe((v.width + 7) / 8, v.bits)
    case Text => EncU(|v.raw|) + v.raw
  }

  function DecField(ft: FieldType, s: bytes): Parse<Value> {
    match LayoutOf(ft)
    case Uint(w) =>
      var (i, rest) :- DecLe(w, s);
      Ok(IntV(i), rest)
    case Sint(w) =>
      var (i, rest) :- DecLe(w, s);
      Ok(IntV(ToSigned(w, i)), rest)
    case Opaque(w) =>
      if |s| < w then Fail(Truncated) else Ok(RawV(s[..w]), s[w..])
    case Flag =>
      var (b, rest) :- DecByte(s);
      Ok(BoolV(b != 0), rest)
    case Varied =>
      var (i, rest) :- DecU(s);
      Ok(IntV(i), rest)
    case Vector =>
      var (w, s1) :- DecU(s);
      var (raw, rest) :- DecSlice((w + 7) / 8, s1);
      Ok(BitsV(w, BeValue(raw)), rest)
    case Text =>
      var (n, s1) :- DecU(s);
      var (raw, rest) :- DecSlice(n, s1);
      Ok(RawV(raw), rest)
  }

  /** Two's complement in `w` bytes. */
  function ToUnsigned(w: nat, i: int): (u: nat)
    requires w > 0 && -Pow2(8 * w - 1) <= i < Pow2(8 * w - 1)
    ensures u < Pow2(8 * w)
    ensures ToSigned(w, u) == i
  {
    if i < 0 then i + Pow2(8 * w) else i
  }

  function ToSigned(w: nat, u: nat): int
    requires w > 0
  {
    if u < Pow2(8 * w - 1) then u else u - Pow2(8 * w)
  }

  lemma VectorRoundTrip(v: Value, t: bytes)
    requires Fits(BitVec, v)
    ensures DecField(BitVec, EncField(BitVec, v) + t) == Ok(v, t)
  {
    var n := (v.width + 7) / 8;
    var body := EncBe(n, v.bits);
    assert EncField(BitVec, v) + t == EncU(v.width) + (body + t);
    URoundTrip(v.width, body + t);
    SliceRoundTrip(body, t);
    BeRoundTrip(n, v.bits);
  }

  lemma TextRoundTrip(ft: FieldType, v: Value, t: bytes)
    requires LayoutOf(ft).Text? && Fits(ft, v)
    ensures DecField(ft, EncField(ft, v) + t) == Ok(v, t)
  {
    assert EncField(ft, v) + t == EncU(|v.raw|) + (v.raw + t);
    URoundTrip(|v.raw|, v.raw + t);
    SliceRoundTrip(v.raw, t);
  }

  lemma FixedRoundTrip(ft: FieldType, v: Value, t: bytes)
    requires LayoutOf(ft).Uint? || LayoutOf(ft).Sint? || LayoutOf(ft).Opaque?
    requires Fits(ft, v)
    ensures DecField(ft, EncField(ft, v) + t) == Ok(v, t)
  {
    var w := LayoutOf(ft).width;
    if LayoutOf(ft).Opaque? {
      SliceRoundTrip(v.raw, t);
    } else {
      LeReads(w, if LayoutOf(ft).Uint? then v.i else ToUnsigned(w, v.i), t);
    }
  }

  /** A field reads back, whatever follows it. */
  lemma FieldRoundTrip(ft: FieldType, v: Value, t: bytes)
    requires Fits(ft, v)
    ensures DecField(ft, EncField(ft, v) + t) == Ok(v, t)
  {
    match LayoutOf(ft)
    case Flag =>
    case Varied => URoundTrip(v.i, t);
    case Vector => VectorRoundTrip(v, t);
    case Text => TextRoundTrip(ft, v, t);
    case _ => FixedRoundTrip(ft, v, t);
  }

  lemma TypeRoundTrip(ft: FieldType, t: bytes)
    ensures DecType([Code(ft)] + t) == Ok(ft, t)
  {
  }
}
