/** Byte strings, and the two ways the codecs look at them: as the rest of a buffer still to be
    read, and as a buffer with an offset. */
module Bytes {
  import opened Bits

  type byte = b: int | 0 <= b < 256
  type bytes = seq<byte>

  datatype Option<+T> = None | Some(value: T)

  datatype Fault = Truncated | TooLarge | BadTag | Corrupt

  /** What reading one item off the front of a buffer gives. */
  datatype Parse<+T> = Ok(value: T, rest: bytes) | Fail(fault: Fault) {
    predicate IsFailure() {
      Fail?
    }

    function PropagateFailure<U>(): Parse<U>
      requires Fail?
    {
      Fail(fault)
    }

    function Extract(): (T, bytes)
      requires Ok?
    {
      (value, rest)
    }
  }

  /** A byte compressor as the blocks use it: any map that its partner undoes. */
  datatype Compressor = Compressor(pack: bytes -> bytes, unpack: bytes -> Option<bytes>)

  ghost predicate Lossless(c: Compressor) {
    forall x: bytes :: c.unpack(c.pack(x)) == Some(x)
  }

  /** The part of a buffer from an offset on; an offset past the end leaves nothing to read. */
  function From(data: bytes, offset: nat): bytes {
    if offset <= |data| then data[offset..] else []
  }

  /** Concatenation nests to the right: with this fact in scope, encoders written as sums in the
      order they append can be peeled from the front. */
  lemma AppendAssoc()
    ensures forall a: bytes, b: bytes, c: bytes {:trigger (a + b) + c} :: (a + b) + c == a + (b + c)
    ensures forall a: bytes {:trigger [] + a} :: [] + a == a
    ensures forall a: bytes {:trigger a + []} :: a + [] == a
  {
    forall a: bytes, b: bytes, c: bytes
      ensures (a + b) + c == a + (b + c)
    {
      assert (a + b) + c == a + (b + c);
    }
  }

  /** One raw byte: `buf[offset]`. */
  function DecByte(s: bytes): Parse<byte> {
    if s == [] then Fail(Truncated) else Ok(s[0], s[1..])
  }

  /** `buf[offset:offset + n]`: a slice never fails, it just comes out short. */
  function DecSlice(n: nat, s: bytes): Parse<bytes> {
    if n <= |s| then Ok(s[..n], s[n..]) else Ok(s, [])
  }

  /** Little-endian fixed width, as `struct.pack('<Q', v)` and its narrower kin write it. */
  function EncLe(width: nat, v: nat): (s: bytes)
    ensures |s| == width
  {
    if width == 0 then [] else [v % 256] + EncLe(width - 1, v / 256)
  }

  function LeValue(s: bytes): nat {
    if s == [] then 0 else s[0] + 256 * LeValue(s[1..])
  }

  /** `struct.unpack_from`: a short buffer is an error. */
  function DecLe(width: nat, s: bytes): Parse<nat> {
    if |s| < width then Fail(Truncated) else Ok(LeValue(s[..width]), s[width..])
  }

  /** Big-endian fixed width: `int.to_bytes(width, 'big')` and `int.from_bytes(s, 'big')`. */
  function EncBe(width: nat, v: nat): (s: bytes)
    ensures |s| == width
  {
    if width == 0 then [] else EncBe(width - 1, v / 256) + [v % 256]
  }

  function BeValue(s: bytes): nat {
    if s == [] then 0 else 256 * BeValue(s[..|s| - 1]) + s[|s| - 1]
  }

  lemma {:induction false} LeRoundTrip(width: nat, v: nat)
    requires v < Pow2(8 * width)
    ensures LeValue(EncLe(width, v)) == v
  {
    if width > 0 {
      Pow2Add(8, 8 * (width - 1));
      assert Pow2(8) == 256;
      LeRoundTrip(width - 1, v / 256);
    }
  }

  lemma {:induction false} BeRoundTrip(width: nat, v: nat)
    requires v < Pow2(8 * width)
    ensures BeValue(EncBe(width, v)) == v
  {
    if width > 0 {
      Pow2Add(8, 8 * (width - 1));
      assert Pow2(8) == 256;
      BeRoundTrip(width - 1, v / 256);
      assert EncBe(width, v)[..width - 1] == EncBe(width - 1, v / 256);
    }
  }

  lemma SliceRoundTrip(a: bytes, t: bytes)
    ensures DecSlice(|a|, a + t) == Ok(a, t)
    ensures (a + t)[..|a|] == a && (a + t)[|a|..] == t
  {
  }

  /** A fixed-width number reads back, whatever follows it. */
  lemma LeReads(width: nat, v: nat, t: bytes)
    requires v < Pow2(8 * width)
    ensures DecLe(width, EncLe(width, v) + t) == Ok(v, t)
  {
    LeRoundTrip(width, v);
    SliceRoundTrip(EncLe(width, v), t);
  }

  lemma FixedRoundTrips()
    ensures forall w: nat, v: nat, t: bytes {:trigger EncLe(w, v) + t} ::
              v < Pow2(8 * w) ==> DecLe(w, EncLe(w, v) + t) == Ok(v, t)
    ensures forall b: byte, t: bytes {:trigger [b] + t} :: DecByte([b] + t) == Ok(b, t)
  {
    forall w: nat, v: nat, t: bytes | v < Pow2(8 * w)
      ensures DecLe(w, EncLe(w, v) + t) == Ok(v, t)
    {
      LeReads(w, v, t);
    }
  }
}
