/** Variable-length integers: `python/src/trlog/_codec.py` and `c/src/varint.c`.  The unsigned form
    is LEB128 (section 7.6 of the DWARF Debugging Information Format, Version 5); the signed form
    maps the sign into bit 0 first. */
module Varint {
  import opened Bits
  import opened Bytes

  /** Everything a ten-byte varint can carry, and the 64-bit part of it. */
  const LIMIT: int := 0x40_0000_0000_0000_0000
  const WORD: int := 0x1_0000_0000_0000_0000

  /** What a 64-bit register keeps of a number. */
  function Wrap(n: int): nat {
    n % 0x1_0000_0000_0000_0000
  }

  const HALF: int := 0x8000_0000_0000_0000

  // ---- The format ----

  function EncU(n: nat): (s: bytes)
    ensures |s| >= 1
  {
    if n < 128 then [n] else [n % 128 + 128] + EncU(n / 128)
  }

  /** `k` digits have been read and make `low`; a reader gives up when a tenth byte still
      continues. */
  function DecUFrom(s: bytes, k: nat, low: nat): (r: Parse<nat>)
    ensures r.Ok? ==> |r.rest| < |s|
    decreases |s|
  {
    if s == [] then Fail(Truncated)
    else
      var next := PlaceDigit(low, s[0], k);
      if s[0] < 128 then Ok(next, s[1..])
      else if k >= 9 then Fail(TooLarge)
      else DecUFrom(s[1..], k + 1, next)
  }

  /** The seven payload bits of a byte, at the `k`-th place. */
  function PlaceDigit(low: nat, b: byte, k: nat): nat {
    ShlSign(b % 128, 7 * k);
    low + Shl(b % 128, 7 * k)
  }

  function DecU(s: bytes): (r: Parse<nat>)
    ensures r.Ok? ==> |r.rest| < |s|
  {
    DecUFrom(s, 0, 0)
  }

  /** `(n << 1) ^ (n >> 63)`, cut to 64 bits. */
  function Zigzag(n: int): (z: nat)
  {
    Wrap(Xor(Shl(n, 1), Shr(n, 63)))
  }

  /** `(n >> 1) ^ -(n & 1)`. */
  function Unzigzag(z: nat): int {
    Xor(Shr(z, 1), -And(z, 1))
  }

  function EncS(n: int): (s: bytes)
    ensures |s| >= 1
  {
    EncU(Zigzag(n))
  }

  function DecS(s: bytes): Parse<int> {
    var (z, rest) :- DecU(s);
    Ok(Unzigzag(z), rest)
  }

  // ---- Round trips ----

  lemma {:induction false} UFromRoundTrip(n: nat, k: nat, low: nat, t: bytes)
    requires k <= 9
    ensures n < Pow2(70 - 7 * k) ==> Shl(n, 7 * k) >= 0 && DecUFrom(EncU(n) + t, k, low) == Ok(low + Shl(n, 7 * k), t)
    ensures n >= Pow2(70 - 7 * k) ==> DecUFrom(EncU(n) + t, k, low) == Fail(TooLarge)
    decreases n
  {
    hide Shl, Pow2, EncU, DecUFrom;
    ShlSign(n, 7 * k);
    Shrink(n, 63 - 7 * k);
    assert Pow2(7) == 128 && Pow2(0) == 1 by {
      Pow2Values();
      OneIsPow2();
    }
    if n < 128 {
      Pow2Mono(7, 70 - 7 * k);
      LastDigit(n, k, low, t);
    } else {
      FirstDigit(n, k, low, t);
      if k < 9 {
        ShlSign(n % 128, 7 * k);
        UFromRoundTrip(n / 128, k + 1, low + Shl(n % 128, 7 * k), t);
        SplitDigit(n, 7 * k);
      }
    }
  }

  lemma LastDigit(n: nat, k: nat, low: nat, t: bytes)
    requires n < 128
    ensures Shl(n, 7 * k) >= 0 && DecUFrom(EncU(n) + t, k, low) == Ok(low + Shl(n, 7 * k), t)
  {
    hide Shl;
    ShlSign(n, 7 * k);
    assert ([n] + t)[1..] == t;
  }

  lemma FirstDigit(n: nat, k: nat, low: nat, t: bytes)
    requires n >= 128
    ensures Shl(n % 128, 7 * k) >= 0
    ensures DecUFrom(EncU(n) + t, k, low) ==
            if k >= 9 then Fail(TooLarge) else DecUFrom(EncU(n / 128) + t, k + 1, low + Shl(n % 128, 7 * k))
  {
    hide Shl;
    ShlSign(n % 128, 7 * k);
    var s := EncU(n) + t;
    assert s[0] == n % 128 + 128 && s[1..] == EncU(n / 128) + t;
  }

  lemma OneIsPow2()
    ensures Pow2(0) == 1
  {
  }

  lemma Shrink(n: nat, j: nat)
    ensures n < Pow2(j + 7) <==> n / 128 < Pow2(j)
  {
    Pow2Add(7, j);
    assert Pow2(7) == 128;
  }

  lemma SplitDigit(n: nat, j: nat)
    ensures Shl(n, j) == Shl(n % 128, j) + Shl(n / 128, j + 7)
  {
    var h := n / 128;
    assert Shl(h, 1) == 2 * h && Shl(h, 3) == 4 * Shl(h, 1) && Shl(h, 5) == 4 * Shl(h, 3);
    ShlAdd(n % 128, 128 * h, j);
    ShlShl(h, 7, j);
  }

  /** An encoded value reads back, whatever bytes follow it, exactly when it is below 2^70. */
  lemma URoundTrip(n: nat, t: bytes)
    ensures DecU(EncU(n) + t) == (if n < LIMIT then Ok(n, t) else Fail(TooLarge))
  {
    Pow2Values();
    UFromRoundTrip(n, 0, 0, t);
  }

  lemma ZigzagCases(n: int)
    requires -HALF <= n < HALF
    ensures Zigzag(n) == if n >= 0 then 2 * n else -2 * n - 1
  {
    hide Pow2, Shr;
    Pow2Values();
    assert Shl(n, 1) == 2 * n;
    ShrAll(n, 63);
    if n < 0 {
      assert Xor(2 * n, -1) == Not(2 * n);
    }
  }

  lemma UnzigzagCases(z: nat)
    ensures Unzigzag(z) == if z % 2 == 0 then z / 2 else -(z / 2) - 1
  {
    AndMask(z, 1);
    assert Pow2(1) == 2 && Shr(z, 1) == z / 2;
    assert Xor(z / 2, -1) == Not(z / 2);
  }

  lemma UnzigzagRange(z: nat)
    requires z < WORD
    ensures -HALF <= Unzigzag(z) < HALF
  {
    UnzigzagCases(z);
  }

  lemma UnzigzagInverts(n: int)
    ensures (-HALF <= n < HALF) <==> Unzigzag(Zigzag(n)) == n
  {
    UnzigzagRange(Zigzag(n));
    if -HALF <= n < HALF {
      ZigzagCases(n);
      UnzigzagCases(if n >= 0 then 2 * n else -2 * n - 1);
    }
  }

  /** The signed form reads back exactly the 64-bit integers. */
  lemma {:induction false} SRoundTrip(n: int, t: bytes)
    ensures (-HALF <= n < HALF) <==> DecS(EncS(n) + t) == Ok(n, t)
  {
    URoundTrip(Zigzag(n), t);
    UnzigzagInverts(n);
  }

  /** Every integer reads back as some 64-bit integer: itself, or for any other one a different one. */
  lemma {:induction false} SReads(n: int, t: bytes)
    ensures var r := DecS(EncS(n) + t);
            r.Ok? && r.rest == t && (r.value == n <==> -HALF <= n < HALF)
  {
    URoundTrip(Zigzag(n), t);
    UnzigzagInverts(n);
  }

  /** Both forms, as facts to have in scope while peeling a record. */
  lemma RoundTrips()
    ensures forall n: nat, t: bytes {:trigger EncU(n) + t} :: n < LIMIT ==> DecU(EncU(n) + t) == Ok(n, t)
    ensures forall n: int, t: bytes {:trigger EncS(n) + t} :: -HALF <= n < HALF ==> DecS(EncS(n) + t) == Ok(n, t)
  {
    forall n: nat, t: bytes | n < LIMIT
      ensures DecU(EncU(n) + t) == Ok(n, t)
    {
      URoundTrip(n, t);
    }
    forall n: int, t: bytes | -HALF <= n < HALF
      ensures DecS(EncS(n) + t) == Ok(n, t)
    {
      SRoundTrip(n, t);
    }
  }

  lemma {:induction false} ULength(n: nat, k: nat)
    requires n < Pow2(7 * k) && k >= 1
    ensures |EncU(n)| <= k
  {
    if n >= 128 {
      Pow2Values();
      if k > 1 {
        Pow2Add(7, 7 * (k - 1));
        ULength(n / 128, k - 1);
      }
    }
  }

  /** Values of 64 bits take at most ten bytes. */
  lemma WordLength(n: nat)
    requires n < WORD
    ensures |EncU(n)| <= 10
  {
    Pow2Values();
    ULength(n, 10);
  }

  /** Distinct values have distinct, prefix-free encodings. */
  lemma UInjective(m: nat, n: nat, t: bytes, u: bytes)
    requires m < LIMIT && n < LIMIT && EncU(m) + t == EncU(n) + u
    ensures m == n && t == u
  {
    URoundTrip(m, t);
    URoundTrip(n, u);
  }

  // ---- `_codec.py` ----

  method EncodeUvarint(value: int) returns (r: Option<bytes>)
    ensures r == if value < 0 then None else Some(EncU(value))
  {
    if value < 0 {
      return None;
    }
    var n: nat := value;
    var out: bytes := [];
    while true
      invariant EncU(value) == out + EncU(n)
      decreases n
    {
      var b := n % 128;
      n := n / 128;
      if n != 0 {
        out := out + [b + 128];
      } else {
        out := out + [b];
        break;
      }
    }
    r := Some(out);
  }

  /** `low |= (byte & 0x7F) << 7k`: the digit lands above everything gathered so far. */
  method OrDigit(low: nat, b: byte, k: nat) returns (r: nat)
    requires low < Pow2(7 * k)
    ensures r == PlaceDigit(low, b, k) < Pow2(7 * (k + 1))
  {
    AndMask(b, 7);
    assert Pow2(7) == 128;
    OrDisjoint(low, b % 128, 7 * k);
    ShlFits(low, b % 128, 7, 7 * k);
    var digit := And(b, 0x7F);
    r := Or(low, Shl(digit, 7 * k));
  }

  /** Every reader below returns the value with the offset just past it. */
  method DecodeUvarint(buf: bytes, offset: nat) returns (r: Parse<nat>, end: nat)
    ensures r == DecU(From(buf, offset))
    ensures r.Ok? ==> offset < end <= |buf| && r.rest == From(buf, end)
  {
    var result: nat, k: nat := 0, 0;   // the source counts shift == 7 * k
    end := offset;
    while true
      invariant end == offset + k && k <= 9 && result < Pow2(7 * k)
      invariant DecU(From(buf, offset)) == DecUFrom(From(buf, end), k, result)
      decreases 10 - k
    {
      if end >= |buf| {
        return Fail(Truncated), end;
      }
      var b := buf[end];
      assert From(buf, end)[1..] == From(buf, end + 1);
      end := end + 1;
      result := OrDigit(result, b, k);
      if b < 0x80 {
        return Ok(result, From(buf, end)), end;
      }
      k := k + 1;
      if 7 * k >= 64 {
        return Fail(TooLarge), end;
      }
    }
  }

  method EncodeSvarint(n: int) returns (s: bytes)
    ensures s == EncS(n)
  {
    var encoded := Xor(Shl(n, 1), Shr(n, 63));
    AndMask(encoded, 64);
    Pow2Values();
    var r := EncodeUvarint(And(encoded, 0xFFFF_FFFF_FFFF_FFFF));
    s := r.value;
  }

  method DecodeSvarint(buf: bytes, offset: nat) returns (r: Parse<int>, end: nat)
    ensures r == DecS(From(buf, offset))
    ensures r.Ok? ==> offset < end <= |buf| && r.rest == From(buf, end)
  {
    var p;
    p, end := DecodeUvarint(buf, offset);
    match p {
      case Fail(f) => r := Fail(f);
      case Ok(z, rest) => r := Ok(Unzigzag(z), rest);
    }
  }

  // ---- `varint.c`: the same format in 64-bit registers ----

  /** The size is counted the way the bytes are written, without writing them. */
  method UvarintSize(value: nat) returns (n: nat)
    requires value < WORD
    ensures n == |EncU(value)| <= 10
  {
    WordLength(value);
    var v := value;
    n := 1;
    while v >= 0x80
      invariant |EncU(value)| == n - 1 + |EncU(v)|
    {
      v := v / 128;
      n := n + 1;
    }
  }

  /** The bytes go through a ten-byte scratch array before they reach the buffer. */
  method BufAppendUvarint(buf: bytes, value: nat) returns (out: bytes)
    requires value < WORD
    ensures out == buf + EncU(value)
  {
    WordLength(value);
    var tmp := new byte[10];
    var v, n, more := value, 0, true;
    ghost var done: bytes := [];
    while more
      invariant 0 <= n <= 10 && done == tmp[..n]
      invariant more ==> EncU(value) == done + EncU(v)
      invariant !more ==> EncU(value) == done
      decreases more, v
    {
      var b := v % 128;
      v := v / 128;
      if v != 0 {
        b := b + 128;
      }
      tmp[n] := b;
      n := n + 1;
      done := done + [b];
      more := v != 0;
    }
    out := buf + tmp[..n];
  }

  /** `~(raw & 1) + 1` in 64 bits is all ones for an odd value and zero for an even one. */
  function Signs(raw: nat): nat {
    Wrap(WORD - 1 - raw % 2 + 1)
  }

  function AsSigned(z: int): int {
    if z < HALF then z else z - WORD
  }

  /** The register form of zigzag: the 64-bit pattern of `value`, shifted out of the register, against
      the sign smeared over it. */
  function ZigzagC(value: int): int {
    var pattern := Wrap(value);
    var smear := (if value < 0 then WORD - 1 else 0);
    Xor(Wrap(2 * pattern), smear)
  }

  function UnzigzagC(raw: nat): int {
    AsSigned(Xor(raw / 2, Signs(raw)))
  }

  /** On 64-bit integers the C bit tricks and the Python expressions are the same two maps, and every
      64-bit pattern is the image of one integer. */
  lemma ZigzagAgree(n: int, z: nat)
    requires -HALF <= n < HALF && z < WORD
    ensures ZigzagC(n) == Zigzag(n) < WORD && UnzigzagC(z) == Unzigzag(z)
    ensures -HALF <= Unzigzag(z) < HALF && ZigzagC(Unzigzag(z)) == z
  {
    ZigzagCCases(n);
    ZigzagCases(n);
    UnzigzagCCases(z);
    UnzigzagCases(z);
    ZigzagCCases(if z % 2 == 0 then z / 2 else -(z / 2) - 1);
  }

  lemma ZigzagCCases(n: int)
    requires -HALF <= n < HALF
    ensures ZigzagC(n) == if n >= 0 then 2 * n else -2 * n - 1
  {
    hide Pow2, Or, Xor, Wrap;
    Pow2Values();
    ShiftedOut(n);
    if n >= 0 {
      XorNothing(2 * n);
    } else {
      XorOnes(2 * n + WORD, 64);
    }
  }

  lemma XorNothing(n: nat)
    ensures Xor(n, 0) == n
  {
    hide Or;
    XorCommutes(n, 0);
  }

  /** What the register holds after the shift. */
  lemma ShiftedOut(n: int)
    requires -HALF <= n < HALF
    ensures Wrap(2 * Wrap(n)) == if n >= 0 then 2 * n else 2 * n + WORD
  {
    if n >= 0 {
      DivUnique(n, WORD, 0, n);
      DivUnique(2 * n, WORD, 0, 2 * n);
    } else {
      DivUnique(n, WORD, -1, n + WORD);
      DivUnique(2 * (n + WORD), WORD, 1, 2 * n + WORD);
    }
  }

  lemma UnzigzagCCases(z: nat)
    requires z < WORD
    ensures UnzigzagC(z) == if z % 2 == 0 then z / 2 else -(z / 2) - 1
  {
    hide Pow2;
    Pow2Values();
    if z % 2 == 1 {
      assert Signs(z) == WORD - 1;
      XorOnes(z / 2, 64);
    } else {
      assert Signs(z) == 0;
    }
  }

  method BufAppendSvarint(buf: bytes, value: int) returns (out: bytes)
    requires -HALF <= value < HALF
    ensures out == buf + EncS(value)
  {
    ZigzagAgree(value, 0);
    out := BufAppendUvarint(buf, ZigzagC(value));
  }

  /** The C reader keeps 64 bits of the value; otherwise it reads what Python reads. */
  method DecodeUvarintC(data: bytes, offset: nat) returns (ok: bool, value: nat, end: nat)
    ensures ok == DecU(From(data, offset)).Ok?
    ensures ok ==> value == Wrap(DecU(From(data, offset)).value)
    ensures ok ==> end <= |data| && From(data, end) == DecU(From(data, offset)).rest
  {
    var result: nat, k: nat := 0, 0;
    ghost var exact: nat := 0;
    end := offset;
    while end < |data|
      invariant end == offset + k && k <= 9 && exact < Pow2(7 * k) && result == Wrap(exact)
      invariant DecU(From(data, offset)) == DecUFrom(From(data, end), k, exact)
      decreases 10 - k
    {
      var b := data[end];
      assert From(data, end)[1..] == From(data, end + 1);
      end := end + 1;
      result := OrWord(result, b, k, exact);
      exact := PlaceDigit(exact, b, k);
      if b < 128 {
        return true, result, end;
      }
      k := k + 1;
      if 7 * k >= 64 {
        return false, 0, end;
      }
    }
    return false, 0, end;
  }

  /** `result |= (uint64_t)digit << shift`: bits shifted out of the register are lost. */
  method OrWord(result: nat, b: byte, k: nat, ghost exact: nat) returns (r: nat)
    requires k <= 9 && exact < Pow2(7 * k) && result == Wrap(exact)
    ensures r == Wrap(PlaceDigit(exact, b, k))
    ensures PlaceDigit(exact, b, k) < Pow2(7 * (k + 1))
  {
    hide Pow2, Or, Shl;
    var shift := 7 * k;
    ghost var low := (b % 128) % Pow2(64 - shift);
    Pow2Values();
    ShlFits(exact, b % 128, 7, shift);
    KeptBits(b % 128, exact, shift);
    var kept := Wrap(Shl(b % 128, shift));
    r := Or(result, kept);
  }

  lemma KeptBits(digit: nat, exact: nat, shift: nat)
    requires shift <= 63 && exact < Pow2(shift)
    ensures Wrap(exact) == exact
    ensures Or(exact, Wrap(Shl(digit, shift))) == Wrap(exact + Shl(digit, shift))
  {
    hide Pow2, Or, Shl;
    var low := digit % Pow2(64 - shift);
    var whole := Shl(digit, shift);
    ShlMod(digit, 64 - shift, shift);
    Pow2Values();
    Pow2Mono(shift, 63);
    OrDisjoint(exact, low, shift);
    ShlFits(exact, low, 64 - shift, shift);
    assert Wrap(whole) == Shl(low, shift);
    ModAdd(exact, whole);
  }

  lemma ModAdd(a: nat, b: int)
    requires a + Wrap(b) < WORD
    ensures Wrap(a + b) == a + Wrap(b)
  {
  }
}
