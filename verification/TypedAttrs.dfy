/** Typed attributes: `encode_typed_attr` and `decode_typed_attr` of
    `python/src/trlog/_metadata.py`. */
module TypedAttrs {
  import opened Bits
  import opened Bytes
  import opened Varint

  /** Strings are written as string-table ids, doubles are opaque bytes. */
  datatype Scalar = Flag(b: bool) | I64(i: int) | U64(u: nat) | F64(raw: bytes) | StrId(id: nat)

  datatype TypedValue = One(v: Scalar) | Many(base: byte, vs: seq<Scalar>)

  datatype TypedAttr = TypedAttr(key: nat, value: TypedValue)

  const ARRAY: byte := 0x40

  function TagOf(v: Scalar): byte {
    match v case Flag(_) => 0 case I64(_) => 1 case U64(_) => 2 case F64(_) => 3 case StrId(_) => 4
  }

  predicate IsArray(attrType: byte) {
    attrType / 64 % 2 == 1
  }

  /** The type byte with the array bit cleared. */
  function Base(attrType: byte): byte {
    if IsArray(attrType) then attrType - 64 else attrType
  }

  predicate ScalarOk(v: Scalar) {
    match v
    case Flag(_) => true
    case I64(i) => -HALF <= i < HALF
    case U64(u) => u < LIMIT
    case F64(raw) => |raw| == 8
    case StrId(id) => id < LIMIT
  }

  /** Arrays are homogeneous. */
  predicate ValueOk(v: TypedValue) {
    match v
    case One(s) => ScalarOk(s)
    case Many(base, vs) =>
      base <= 4 && |vs| < LIMIT && forall i :: 0 <= i < |vs| ==> ScalarOk(vs[i]) && TagOf(vs[i]) == base
  }

  predicate AttrOk(a: TypedAttr) {
    a.key < LIMIT && ValueOk(a.value)
  }

  function EncScalar(v: Scalar): bytes {
    match v
    case Flag(b) => [if b then 1 else 0]
    case I64(i) => EncS(i)
    case U64(u) => EncU(u)
    case F64(raw) => raw
    case StrId(id) => EncU(id)
  }

  function EncScalars(vs: seq<Scalar>): bytes {
    if vs == [] then [] else EncScalar(vs[0]) + EncScalars(vs[1..])
  }

  function EncTyped(a: TypedAttr): bytes {
    match a.value
    case One(v) => EncU(a.key) + ([TagOf(v)] + EncScalar(v))
    case Many(base, vs) => EncU(a.key) + ([if base < 192 then base + 64 else base] + (EncU(|vs|) + EncScalars(vs)))
  }

  /** Types above 4 raise. */
  function DecScalar(tag: byte, s: bytes): (r: Parse<Scalar>)
    ensures r.Ok? ==> |r.rest| <= |s|
  {
    match tag
    case 0 => (var (b, rest) :- DecByte(s); Ok(Flag(b != 0), rest))
    case 1 => (var (i, rest) :- DecS(s); Ok(I64(i), rest))
    case 2 => (var (u, rest) :- DecU(s); Ok(U64(u), rest))
    case 3 => if |s| < 8 then Fail(Truncated) else Ok(F64(s[..8]), s[8..])
    case 4 => (var (id, rest) :- DecU(s); Ok(StrId(id), rest))
    case _ => Fail(BadTag)
  }

  function DecScalars(n: nat, tag: byte, s: bytes): (r: Parse<seq<Scalar>>)
    ensures r.Ok? ==> |r.rest| <= |s|
  {
    if n == 0 then Ok([], s)
    else
      var (v, s1) :- DecScalar(tag, s);
      var (more, rest) :- DecScalars(n - 1, tag, s1);
      Ok([v] + more, rest)
  }

  function DecTyped(s: bytes): (r: Parse<TypedAttr>)
    ensures r.Ok? ==> |r.rest| <= |s|
  {
    var (key, s1) :- DecU(s);
    var (attrType, s2) :- DecByte(s1);
    if IsArray(attrType) then
      var (n, s3) :- DecU(s2);
      var (vs, rest) :- DecScalars(n, Base(attrType), s3);
      Ok(TypedAttr(key, Many(Base(attrType), vs)), rest)
    else
      var (v, rest) :- DecScalar(attrType, s2);
      Ok(TypedAttr(key, One(v)), rest)
  }

  lemma ScalarReads(v: Scalar, t: bytes)
    requires ScalarOk(v)
    ensures DecScalar(TagOf(v), EncScalar(v) + t) == Ok(v, t)
  {
    hide EncU, DecU, EncS, DecS;
    match v
    case Flag(b) => assert ([if b then 1 else 0] + t)[1..] == t;
    case I64(i) => SRoundTrip(i, t);
    case U64(u) => URoundTrip(u, t);
    case F64(raw) => SliceRoundTrip(raw, t);
    case StrId(id) => URoundTrip(id, t);
  }

  lemma {:induction false} ScalarsRead(vs: seq<Scalar>, base: byte, t: bytes)
    requires forall i :: 0 <= i < |vs| ==> ScalarOk(vs[i]) && TagOf(vs[i]) == base
    ensures DecScalars(|vs|, base, EncScalars(vs) + t) == Ok(vs, t)
    decreases |vs|
  {
    hide EncScalar, DecScalar, ScalarOk, TagOf;
    if vs != [] {
      assert EncScalars(vs) + t == EncScalar(vs[0]) + (EncScalars(vs[1..]) + t);
      ScalarReads(vs[0], EncScalars(vs[1..]) + t);
      ScalarsRead(vs[1..], base, t);
      assert vs == [vs[0]] + vs[1..];
    }
  }

  /** An attribute reads back with its type and value, whatever follows it. */
  lemma TypedRoundTrip(a: TypedAttr, t: bytes)
    requires AttrOk(a)
    ensures DecTyped(EncTyped(a) + t) == Ok(a, t)
  {
    hide EncU, DecU, EncScalar, DecScalar, EncScalars, DecScalars;
    match a.value
    case One(v) =>
      assert EncTyped(a) + t == EncU(a.key) + ([TagOf(v)] + (EncScalar(v) + t));
      URoundTrip(a.key, [TagOf(v)] + (EncScalar(v) + t));
      ScalarReads(v, t);
    case Many(base, vs) =>
      var tag: byte := base + 64;
      assert EncTyped(a) + t == EncU(a.key) + ([tag] + (EncU(|vs|) + (EncScalars(vs) + t)));
      URoundTrip(a.key, [tag] + (EncU(|vs|) + (EncScalars(vs) + t)));
      URoundTrip(|vs|, EncScalars(vs) + t);
      ScalarsRead(vs, base, t);
  }
}
