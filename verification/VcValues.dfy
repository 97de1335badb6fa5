/** Signal values and how they are packed: the value helpers of `python/src/trlog/_vc_data.py`. */
module VcValues {
  import opened Bits
  import opened Bytes

  datatype Enc = TwoState | FourState | NineState | Real | Str | BitVec | Analog

  /** A signal type.  A variable without one counts as `Sig(TwoState, 1)`. */
  datatype Sig = Sig(enc: Enc, width: nat)

  /** One bit of a list value: a number or a character. */
  datatype State = Num(n: int) | Chr(c: char)

  /** Doubles are opaque bytes, strings their UTF-8 bytes. */
  datatype Value = Int(n: int) | Dbl(raw: bytes) | Text(utf8: bytes) | States(list: seq<State>)

  type quad = c: nat | c < 4
  type nibble = c: nat | c < 16

  // ---- Codes of single states ----

  function NineCode(x: State): nibble {
    match x
    case Num(n) => if n == 1 then 1 else 0
    case Chr(c) =>
      if c == 'X' then 2 else if c == 'Z' then 3 else if c == 'H' then 4 else if c == 'U' then 5
      else if c == 'W' then 6 else if c == 'L' then 7 else if c == '-' then 8 else 0
  }

  function NineDecode(code: nibble): State {
    match code
    case 2 => Chr('X')
    case 3 => Chr('Z')
    case 4 => Chr('H')
    case 5 => Chr('U')
    case 6 => Chr('W')
    case 7 => Chr('L')
    case 8 => Chr('-')
    case _ => Num(code)
  }

  function FourDecode(code: quad): State {
    match code case 2 => Chr('X') case 3 => Chr('Z') case _ => Num(code)
  }

  /** `_4state_code`: a whole one-bit value. */
  function FourCode(v: Value): quad {
    match v
    case Int(n) => n % 2
    case Text(s) =>
      if s == [0x31] then 1                          // "1"
      else if s == [0x58] || s == [0x78] then 2      // "X", "x"
      else if s == [0x5A] || s == [0x7A] then 3      // "Z", "z"
      else 0
    case _ => 0
  }

  /** `_4state_decode`. */
  function FourValue(code: quad): Value {
    match code case 0 => Int(0) case 1 => Int(1) case 2 => Text([0x58]) case 3 => Text([0x5A])
  }

  // ---- Bits of a value ----

  function BitAt(n: int, p: nat): quad {
    Shr(n, p) % 2
  }

  /** The characters of a string; only the first byte of each matters. */
  function Chars(utf8: bytes): seq<State> {
    if utf8 == [] then []
    else if utf8[0] / 64 == 2 then Chars(utf8[1..])
    else [Chr(utf8[0] as char)] + Chars(utf8[1..])
  }

  function ListCode(list: seq<State>, i: nat): nibble {
    if i < |list| then NineCode(list[i]) else 0
  }

  /** What `_pack_9state` stores for the i-th bit from the top. */
  function NinePick(v: Value, width: nat, i: nat): nibble
    requires i < width
  {
    match v
    case Int(n) => BitAt(n, width - 1 - i)
    case States(list) => ListCode(list, i)
    case Text(s) => ListCode(Chars(s), i)
    case Dbl(_) => 0
  }

  /** What `_pack_4state` stores: every bit of a value that is not a number becomes X. */
  function FourPick(v: Value, width: nat, i: nat): quad
    requires i < width
  {
    if v.Int? then BitAt(v.n, width - 1 - i) else 2
  }

  function NineCodes(v: Value, width: nat): (cs: seq<nibble>)
    ensures |cs| == width && forall i :: 0 <= i < width ==> cs[i] == NinePick(v, width, i)
  {
    seq(width, i requires 0 <= i < width => NinePick(v, width, i))
  }

  function FourCodes(v: Value, width: nat): (cs: seq<quad>)
    ensures |cs| == width && forall i :: 0 <= i < width ==> cs[i] == FourPick(v, width, i)
  {
    seq(width, i requires 0 <= i < width => FourPick(v, width, i))
  }

  // ---- Packing ----

  function AtLeastOne(n: nat): nat {
    if n == 0 then 1 else n
  }

  function ByteCount(width: nat): nat {
    AtLeastOne((width + 7) / 8)
  }

  function FourSize(width: nat): nat {
    AtLeastOne((2 * width + 7) / 8)
  }

  function NineSize(width: nat): nat {
    AtLeastOne((width + 1) / 2)
  }

  function Quad(cs: seq<quad>, i: nat): quad {
    if i < |cs| then cs[i] else 0
  }

  function Nibble(cs: seq<nibble>, i: nat): nibble {
    if i < |cs| then cs[i] else 0
  }

  /** Four codes a byte, the first in the top bits. */
  function QuadByte(cs: seq<quad>, j: nat): byte {
    64 * Quad(cs, 4 * j) + 16 * Quad(cs, 4 * j + 1) + 4 * Quad(cs, 4 * j + 2) + Quad(cs, 4 * j + 3)
  }

  function NibbleByte(cs: seq<nibble>, j: nat): byte {
    16 * Nibble(cs, 2 * j) + Nibble(cs, 2 * j + 1)
  }

  function PackFour(cs: seq<quad>, size: nat): (s: bytes)
    ensures |s| == size && forall j :: 0 <= j < size ==> s[j] == QuadByte(cs, j)
  {
    seq(size, j requires 0 <= j < size => QuadByte(cs, j))
  }

  function PackNine(cs: seq<nibble>, size: nat): (s: bytes)
    ensures |s| == size && forall j :: 0 <= j < size ==> s[j] == NibbleByte(cs, j)
  {
    seq(size, j requires 0 <= j < size => NibbleByte(cs, j))
  }

  /** `(b >> (6 - 2 * k)) & 3`. */
  function QuadOf(b: byte, k: nat): quad
    requires k < 4
  {
    (match k case 0 => b / 64 case 1 => b / 16 case 2 => b / 4 case 3 => b) % 4
  }

  function NibbleOf(b: byte, k: nat): nibble
    requires k < 2
  {
    if k == 0 then b / 16 else b % 16
  }

  /** Reading past the end of a short slice raises. */
  function UnpackFour(data: bytes, width: nat): Parse<seq<quad>> {
    if 4 * |data| < width then Fail(Truncated)
    else Ok(seq(width, i requires 0 <= i < width => QuadOf(data[i / 4], i % 4)), [])
  }

  function UnpackNine(data: bytes, width: nat): Parse<seq<nibble>> {
    if 2 * |data| < width then Fail(Truncated)
    else Ok(seq(width, i requires 0 <= i < width => NibbleOf(data[i / 2], i % 2)), [])
  }

  function Number(cs: seq<nibble>): nat {
    if cs == [] then 0 else 2 * Number(cs[..|cs| - 1]) + cs[|cs| - 1] % 2
  }

  predicate Binary(cs: seq<nibble>) {
    forall i :: 0 <= i < |cs| ==> cs[i] <= 1
  }

  /** A number when every bit is binary, a list of states otherwise. */
  function FourResult(cs: seq<quad>): Value {
    if Binary(cs) then Int(Number(cs))
    else States(seq(|cs|, i requires 0 <= i < |cs| => FourDecode(cs[i])))
  }

  function NineResult(cs: seq<nibble>): Value {
    if Binary(cs) then Int(Number(cs))
    else States(seq(|cs|, i requires 0 <= i < |cs| => NineDecode(cs[i])))
  }

  lemma FourUnpacks(cs: seq<quad>)
    ensures UnpackFour(PackFour(cs, FourSize(|cs|)), |cs|) == Ok(cs, [])
  {
    hide QuadByte, QuadOf;
    var data := PackFour(cs, FourSize(|cs|));
    forall i | 0 <= i < |cs|
      ensures QuadOf(data[i / 4], i % 4) == cs[i]
    {
      QuadOfByte(cs, i);
    }
    assert seq(|cs|, i requires 0 <= i < |cs| => QuadOf(data[i / 4], i % 4)) == cs;
  }

  lemma QuadOfByte(cs: seq<quad>, i: nat)
    requires i < |cs|
    ensures QuadOf(QuadByte(cs, i / 4), i % 4) == cs[i]
  {
    var j := i / 4;
    assert i == 4 * j + i % 4;
    QuadDigits(Quad(cs, 4 * j), Quad(cs, 4 * j + 1), Quad(cs, 4 * j + 2), Quad(cs, 4 * j + 3));
  }

  lemma QuadDigits(a: quad, b: quad, c: quad, d: quad)
    ensures var x := 64 * a + 16 * b + 4 * c + d;
            QuadOf(x, 0) == a && QuadOf(x, 1) == b && QuadOf(x, 2) == c && QuadOf(x, 3) == d
  {
    var x := 64 * a + 16 * b + 4 * c + d;
    assert x / 64 == a && x / 16 == 4 * a + b && x / 4 == 16 * a + 4 * b + c;
  }

  lemma NineUnpacks(cs: seq<nibble>)
    ensures UnpackNine(PackNine(cs, NineSize(|cs|)), |cs|) == Ok(cs, [])
  {
    var data := PackNine(cs, NineSize(|cs|));
    forall i | 0 <= i < |cs|
      ensures NibbleOf(data[i / 2], i % 2) == cs[i]
    {
      var j := i / 2;
      assert i == 2 * j + i % 2;
    }
    assert seq(|cs|, i requires 0 <= i < |cs| => NibbleOf(data[i / 2], i % 2)) == cs;
  }

  // ---- Numbers ----

  lemma {:induction false} ShrStep(n: int, p: nat)
    ensures Shr(n, p) == 2 * Shr(n, p + 1) + Shr(n, p) % 2
    decreases p
  {
    if p > 0 {
      ShrStep(n / 2, p - 1);
    }
  }

  lemma ShrBit(s: int, b: nat, k: nat)
    requires b < 2
    ensures (2 * s + b) % Pow2(k + 1) == 2 * (s % Pow2(k)) + b
  {
    ModTwice(s, Pow2(k));
  }

  /** The top bits of a number, first to last, are the number shifted down. */
  lemma {:induction false} NumberOfTop(cs: seq<nibble>, n: int, width: nat)
    requires |cs| <= width && forall i :: 0 <= i < |cs| ==> cs[i] == BitAt(n, width - 1 - i)
    ensures Number(cs) == Shr(n, width - |cs|) % Pow2(|cs|)
    decreases |cs|
  {
    hide Shr, Pow2, Number;
    if cs == [] {
      NumberEmpty();
    } else {
      var k := |cs| - 1;
      NumberOfTop(cs[..k], n, width);
      ShrStep(n, width - |cs|);
      assert cs[k] == Shr(n, width - |cs|) % 2;
      ShrBit(Shr(n, width - k), cs[k], k);
      NumberLast(cs);
    }
  }

  lemma NumberLast(cs: seq<nibble>)
    requires cs != []
    ensures Number(cs) == 2 * Number(cs[..|cs| - 1]) + cs[|cs| - 1] % 2
  {
  }

  lemma NumberEmpty()
    ensures Number([]) == 0 && Pow2(0) == 1
  {
  }

  /** The bits of a number give it back, cut to the width. */
  lemma NumberOfBits(n: int, width: nat)
    ensures Binary(FourCodes(Int(n), width)) && Number(FourCodes(Int(n), width)) == n % Pow2(width)
    ensures Binary(NineCodes(Int(n), width)) && Number(NineCodes(Int(n), width)) == n % Pow2(width)
  {
    NumberOfTop(FourCodes(Int(n), width), n, width);
    NumberOfTop(NineCodes(Int(n), width), n, width);
  }

  // ---- What a reader makes of a packed value ----

  /** `_unpack_4state` of `_pack_4state`. */
  function FourBack(v: Value, width: nat): Value {
    FourResult(FourCodes(v, width))
  }

  function NineBack(v: Value, width: nat): Value {
    NineResult(NineCodes(v, width))
  }

  function DecFour(width: nat, s: bytes): Parse<Value> {
    var (data, rest) :- DecSlice(FourSize(width), s);
    var (codes, none) :- UnpackFour(data, width);
    Ok(FourResult(codes), rest)
  }

  function DecNine(width: nat, s: bytes): Parse<Value> {
    var (data, rest) :- DecSlice(NineSize(width), s);
    var (codes, none) :- UnpackNine(data, width);
    Ok(NineResult(codes), rest)
  }

  lemma FourReads(v: Value, width: nat, t: bytes)
    ensures DecFour(width, PackFour(FourCodes(v, width), FourSize(width)) + t) == Ok(FourBack(v, width), t)
  {
    hide UnpackFour, PackFour, FourCodes;
    var cs := FourCodes(v, width);
    FourUnpacks(cs);
    SliceRoundTrip(PackFour(cs, FourSize(width)), t);
  }

  lemma NineReads(v: Value, width: nat, t: bytes)
    ensures DecNine(width, PackNine(NineCodes(v, width), NineSize(width)) + t) == Ok(NineBack(v, width), t)
  {
    hide UnpackNine, PackNine, NineCodes;
    var cs := NineCodes(v, width);
    NineUnpacks(cs);
    SliceRoundTrip(PackNine(cs, NineSize(width)), t);
  }

  /** A four-state value survives packing exactly when it is a number that fits the width, or all X. */
  lemma FourExact(v: Value, width: nat)
    ensures FourBack(v, width) == v <==>
            if v.Int? then 0 <= v.n < Pow2(width)
            else width > 0 && v.States? && |v.list| == width && forall i :: 0 <= i < width ==> v.list[i] == Chr('X')
  {
    hide Pow2, Number, BitAt;
    var cs := FourCodes(v, width);
    if v.Int? {
      NumberOfBits(v.n, width);
    } else if width > 0 {
      assert cs[0] == 2;
      var back := FourBack(v, width);
      assert back.States? && |back.list| == width && forall i :: 0 <= i < width ==> back.list[i] == Chr('X');
    }
  }

  /** The nine states, each at the place of its wire code. */
  const NINE_STATES: seq<State> :=
    [Num(0), Num(1), Chr('X'), Chr('Z'), Chr('H'), Chr('U'), Chr('W'), Chr('L'), Chr('-')]

  /** A state's code is its place; anything else counts as 0, and a reader takes other codes as numbers. */
  lemma CodesArePlaces(x: State, k: nibble)
    ensures if x in NINE_STATES then NineCode(x) < 9 && NINE_STATES[NineCode(x)] == x else NineCode(x) == 0
    ensures NineDecode(k) == if k < 9 then NINE_STATES[k] else Num(k)
    ensures NineDecode(NineCode(x)) == x <==> x in NINE_STATES
    ensures x in NINE_STATES ==> (NineCode(x) > 1 <==> x.Chr?)
  {
    assert NINE_STATES[NineCode(x)] in NINE_STATES;
  }

  /** A nine-state value survives packing exactly when it is a number that fits the width, or a list of
      known states, one a bit, that is not all binary. */
  lemma NineExact(v: Value, width: nat)
    ensures NineBack(v, width) == v <==>
            match v
            case Int(n) => 0 <= n < Pow2(width)
            case States(list) =>
              && |list| == width && (forall i :: 0 <= i < width ==> list[i] in NINE_STATES)
              && exists i :: 0 <= i < width && list[i].Chr?
            case _ => false
  {
    hide Pow2, Number, BitAt, NineCode, NineDecode, Chars;
    var cs := NineCodes(v, width);
    if v.Int? {
      NumberOfBits(v.n, width);
    } else if v.States? && |v.list| == width {
      assert forall i :: 0 <= i < width ==> cs[i] == NineCode(v.list[i]);
      if !Binary(cs) {
        var back := NineBack(v, width);
        assert forall i :: 0 <= i < width ==> back.list[i] == NineDecode(NineCode(v.list[i]));
      }
      forall i | 0 <= i < width
        ensures NineDecode(NineCode(v.list[i])) == v.list[i] <==> v.list[i] in NINE_STATES
        ensures v.list[i] in NINE_STATES ==> (NineCode(v.list[i]) > 1 <==> v.list[i].Chr?)
      {
        CodesArePlaces(v.list[i], 0);
      }
    }
  }

  // ---- Packing in place ----

  lemma ShlQuads(x: nat)
    ensures Shl(x, 0) == x && Shl(x, 2) == 4 * x && Shl(x, 4) == 16 * x && Shl(x, 6) == 64 * x
  {
    assert Shl(x, 1) == 2 * x;
    assert Shl(x, 2) == 2 * Shl(x, 1);
    assert Shl(x, 4) == 4 * Shl(x, 2);
    assert Shl(x, 6) == 4 * Shl(x, 4);
  }

  lemma OrLow(low: nat, high: nat, k: nat)
    requires low < Pow2(k)
    ensures Or(Shl(high, k), low) == Shl(high, k) + low
  {
    OrDisjoint(low, high, k);
    OrCommutes(low, Shl(high, k));
  }

  /** Or-ing a number in below a multiple of a power. */
  lemma OrBelow(high: nat, low: nat, k: nat)
    requires (k == 2 && low < 4) || (k == 4 && low < 16) || (k == 6 && low < 64)
    ensures Or((if k == 2 then 4 else if k == 4 then 16 else 64) * high, low)
         == (if k == 2 then 4 else if k == 4 then 16 else 64) * high + low
  {
    hide Or, Shl, Pow2;
    ShlQuads(high);
    Pow2Quads();
    OrLow(low, high, k);
  }

  /** Or-ing a code in below the ones already there. */
  lemma QuadOr(a: quad, b: quad, c: quad, d: quad)
    ensures Or(0, Shl(a, 6)) == 64 * a
    ensures Or(64 * a, Shl(b, 4)) == 64 * a + 16 * b
    ensures Or(64 * a + 16 * b, Shl(c, 2)) == 64 * a + 16 * b + 4 * c
    ensures Or(64 * a + 16 * b + 4 * c, Shl(d, 0)) == 64 * a + 16 * b + 4 * c + d
  {
    hide Shl, Or;
    ShlQuads(a);
    ShlQuads(b);
    ShlQuads(c);
    ShlQuads(d);
    OrZero(64 * a);
    OrBelow(a, 16 * b, 6);
    OrBelow(4 * a + b, 4 * c, 4);
    OrBelow(16 * a + 4 * b + c, d, 2);
  }

  lemma Pow2Quads()
    ensures Pow2(0) == 1 && Pow2(2) == 4 && Pow2(4) == 16 && Pow2(6) == 64
  {
    assert Pow2(4) == 4 * Pow2(2);
    assert Pow2(6) == 4 * Pow2(4);
  }

  lemma OrZero(x: int)
    ensures Or(0, x) == x
  {
  }

  lemma FourStep(cs: seq<quad>, i: nat, size: nat)
    requires i < |cs| && i / 4 < size
    ensures var j := i / 4;
            PackFour(cs[..i + 1], size)[j] == Or(PackFour(cs[..i], size)[j], Shl(cs[i], 6 - 2 * (i % 4)))
    ensures var j := i / 4;
            PackFour(cs[..i + 1], size) == PackFour(cs[..i], size)[j := PackFour(cs[..i + 1], size)[j]]
  {
    hide Or, Shl;
    var j, k := i / 4, i % 4;
    assert i == 4 * j + k;
    var was, now := cs[..i], cs[..i + 1];
    QuadOr(Quad(now, 4 * j), Quad(now, 4 * j + 1), Quad(now, 4 * j + 2), Quad(now, 4 * j + 3));
    forall m | 0 <= m < size && m != j
      ensures QuadByte(now, m) == QuadByte(was, m)
    {
      QuadSame(cs, i, m);
    }
  }

  lemma QuadSame(cs: seq<quad>, i: nat, m: nat)
    requires i < |cs| && m != i / 4
    ensures QuadByte(cs[..i + 1], m) == QuadByte(cs[..i], m)
  {
  }

  /** `_pack_4state`. */
  method Pack4State(v: Value, width: nat) returns (r: bytes)
    ensures r == PackFour(FourCodes(v, width), FourSize(width))
  {
    hide FourPick, QuadByte, Or, Shl, Shr, BitAt;
    var cs, size := FourCodes(v, width), FourSize(width);
    var result := new byte[size](_ => 0);
    PackNothing(size);
    for i := 0 to width
      invariant result[..] == PackFour(cs[..i], size)
    {
      var code := PickFour(v, width, i);
      FourStep(cs, i, size);
      var j := i * 2 / 8;
      result[j] := OrInto(result[j], code, 6 - i * 2 % 8, PackFour(cs[..i + 1], size)[j]);
    }
    assert cs[..width] == cs;
    r := result[..];
  }

  lemma PackNothing(size: nat)
    ensures PackFour([], size) == seq(size, _ => 0) && PackNine([], size) == seq(size, _ => 0)
  {
  }

  function OrInto(b: byte, code: nat, shift: nat, ghost goal: byte): byte
    requires Or(b, Shl(code, shift)) == goal
  {
    Or(b, Shl(code, shift))
  }

  method PickFour(v: Value, width: nat, i: nat) returns (code: quad)
    requires i < width
    ensures code == FourPick(v, width, i)
  {
    if v.Int? {
      AndMask(Shr(v.n, width - 1 - i), 1);
      code := And(Shr(v.n, width - 1 - i), 1);
    } else {
      code := 2;
    }
  }

  lemma NumberSnoc(cs: seq<nibble>, i: nat)
    requires i < |cs|
    ensures Number(cs[..i + 1]) == 2 * Number(cs[..i]) + cs[i] % 2
    ensures Binary(cs[..i + 1]) == (Binary(cs[..i]) && cs[i] <= 1)
  {
    var head := cs[..i + 1];
    assert head[..i] == cs[..i] && head[i] == cs[i];
    assert forall k :: 0 <= k < i ==> head[k] == cs[..i][k];
  }

  /** `_unpack_4state`: one pass to see whether every bit is binary, a second to list the states. */
  method Unpack4State(data: bytes, width: nat) returns (r: Parse<Value>)
    ensures r == match UnpackFour(data, width) case Fail(f) => Fail(f) case Ok(cs, t) => Ok(FourResult(cs), t)
  {
    hide QuadOf, Number, Binary;
    if 4 * |data| < width {
      return Fail(Truncated);    // the source finds out at the first byte that is missing
    }
    ghost var cs := UnpackFour(data, width).value;
    var binary, number: nat := true, 0;
    NumberNone();
    for i := 0 to width
      invariant number == Number(cs[..i]) && binary == Binary(cs[..i])
    {
      var code := QuadOf(data[i / 4], i % 4);
      NumberSnoc(cs, i);
      if code > 1 {
        binary := false;
      }
      number := 2 * number + code % 2;
    }
    assert cs[..width] == cs;
    if binary {
      return Ok(Int(number), []);
    }
    var states := FourStates(data, width, cs);
    r := Ok(States(states), []);
  }

  lemma NumberNone()
    ensures Number([]) == 0 && Binary([])
  {
  }

  method FourStates(data: bytes, width: nat, ghost cs: seq<quad>) returns (states: seq<State>)
    requires width <= 4 * |data| && |cs| == width && forall i :: 0 <= i < width ==> cs[i] == QuadOf(data[i / 4], i % 4)
    ensures !Binary(cs) ==> States(states) == FourResult(cs)
  {
    hide QuadOf, Number, Binary;
    states := [];
    for i := 0 to width
      invariant |states| == i && forall k :: 0 <= k < i ==> states[k] == FourDecode(cs[k])
    {
      states := states + [FourDecode(QuadOf(data[i / 4], i % 4))];
    }
    assert states == seq(|cs|, i requires 0 <= i < |cs| => FourDecode(cs[i]));
  }

  /** Or-ing a nibble in below the one already there. */
  lemma NibbleOr(a: nibble, b: nibble)
    ensures Or(0, Shl(a, 4)) == 16 * a && Or(16 * a, b) == 16 * a + b
  {
    hide Shl, Or, Pow2;
    Pow2Quads();
    ShlQuads(a);
    OrZero(16 * a);
    OrLow(b, a, 4);
  }

  lemma NineStep(cs: seq<nibble>, i: nat, size: nat)
    requires i < |cs| && i / 2 < size
    ensures var j, c := i / 2, if i % 2 == 0 then Shl(cs[i], 4) else cs[i];
            PackNine(cs[..i + 1], size)[j] == Or(PackNine(cs[..i], size)[j], c)
    ensures var j := i / 2;
            PackNine(cs[..i + 1], size) == PackNine(cs[..i], size)[j := PackNine(cs[..i + 1], size)[j]]
  {
    hide Or, Shl;
    var j := i / 2;
    assert i == 2 * j + i % 2;
    var was, now := cs[..i], cs[..i + 1];
    NibbleOr(Nibble(now, 2 * j), Nibble(now, 2 * j + 1));
    forall m | 0 <= m < size && m != j
      ensures NibbleByte(now, m) == NibbleByte(was, m)
    {
    }
  }

  method PickNine(v: Value, width: nat, i: nat) returns (code: nibble)
    requires i < width
    ensures code == NinePick(v, width, i)
  {
    match v
    case Int(n) =>
      AndMask(Shr(n, width - 1 - i), 1);
      code := And(Shr(n, width - 1 - i), 1);
    case States(list) => code := if i < |list| then NineCode(list[i]) else 0;
    case Text(s) =>
      var list := Chars(s);
      code := if i < |list| then NineCode(list[i]) else 0;
    case Dbl(_) => code := 0;
  }

  /** `_pack_9state`. */
  method Pack9State(v: Value, width: nat) returns (r: bytes)
    ensures r == PackNine(NineCodes(v, width), NineSize(width))
  {
    hide NinePick, NibbleByte, Or, Shl;
    var cs, size := NineCodes(v, width), NineSize(width);
    var result := new byte[size](_ => 0);
    PackNothing(size);
    for i := 0 to width
      invariant result[..] == PackNine(cs[..i], size)
    {
      var code := PickNine(v, width, i);
      NineStep(cs, i, size);
      ghost var goal := PackNine(cs[..i + 1], size)[i / 2];
      if i % 2 == 0 {
        result[i / 2] := OrInto(result[i / 2], code, 4, goal);
      } else {
        result[i / 2] := OrIn(result[i / 2], code, goal);
      }
    }
    assert cs[..width] == cs;
    r := result[..];
  }

  function OrIn(b: byte, code: nat, ghost goal: byte): byte
    requires Or(b, code) == goal
  {
    Or(b, code)
  }

  /** `_unpack_9state`: one pass. */
  method Unpack9State(data: bytes, width: nat) returns (r: Parse<Value>)
    ensures r == match UnpackNine(data, width) case Fail(f) => Fail(f) case Ok(cs, t) => Ok(NineResult(cs), t)
  {
    hide NibbleOf, NineDecode, Number, Binary;
    if 2 * |data| < width {
      return Fail(Truncated);
    }
    var codes: seq<nibble>, binary, number: nat := [], true, 0;
    ghost var cs := UnpackNine(data, width).value;
    NumberNone();
    for i := 0 to width
      invariant codes == cs[..i] && number == Number(cs[..i]) && binary == Binary(cs[..i])
    {
      var code := NibbleOf(data[i / 2], i % 2);
      NumberSnoc(cs, i);
      assert cs[..i + 1] == cs[..i] + [code];
      codes := codes + [code];
      if code > 1 {
        binary := false;
      }
      number := 2 * number + code % 2;
    }
    assert codes == cs;
    if binary {
      r := Ok(Int(number), []);
    } else {
      r := Ok(States(seq(|codes|, i requires 0 <= i < |codes| => NineDecode(codes[i]))), []);
    }
  }
}
