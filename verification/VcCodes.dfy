/** Where each state of a packed value is in the bytes, and as which code: the wire form of four-state and
    nine-state values told bit by bit. */
module VcCodes {
  import opened Bits
  import opened BitLaws
  import opened Bytes
  import opened VcValues

  /** A size in bytes that holds so many bits with no byte to spare, and is not zero. */
  ghost predicate LeastBytes(size: nat, bits: nat) {
    size >= 1 && 8 * size >= bits && (size > 1 ==> 8 * (size - 1) < bits)
  }

  lemma SizesAreLeast(width: nat)
    ensures LeastBytes(ByteCount(width), width) && LeastBytes(FourSize(width), 2 * width)
    ensures LeastBytes(NineSize(width), 4 * width)
  {
  }

  /** Bit `i` from the top of a number, in two's complement. */
  ghost function TopBit(n: int, width: nat, i: nat): nat
    requires i < width
  {
    if Bit(n, width - 1 - i) then 1 else 0
  }

  lemma BitIsAt(n: int, p: nat)
    ensures BitAt(n, p) == if Bit(n, p) then 1 else 0
  {
    hide Bit;
    ShrBits(n, p, 0);
    BitHalf(Shr(n, p), 0);
  }

  /** The four bits that stand for the i-th state, the higher half of a byte first. */
  function NibbleAt(s: bytes, i: nat): nat
    requires i / 2 < |s|
  {
    if i % 2 == 0 then s[i / 2] / 16 else s[i / 2] % 16
  }

  /** The two bits that stand for the i-th state, the highest of a byte first. */
  function PairAt(s: bytes, i: nat): nat
    requires i / 4 < |s|
  {
    var k := i % 4;
    s[i / 4] / (if k == 0 then 64 else if k == 1 then 16 else if k == 2 then 4 else 1) % 4
  }

  lemma NibblesPlaced(cs: seq<nibble>, i: nat)
    requires i < |cs|
    ensures i / 2 < NineSize(|cs|) && NibbleAt(PackNine(cs, NineSize(|cs|)), i) == cs[i]
  {
    var j := i / 2;
    assert i == 2 * j + i % 2;
    assert NibbleByte(cs, j) / 16 == Nibble(cs, 2 * j) && NibbleByte(cs, j) % 16 == Nibble(cs, 2 * j + 1);
  }

  lemma PairsPlaced(cs: seq<quad>, i: nat)
    requires i < |cs|
    ensures i / 4 < FourSize(|cs|) && PairAt(PackFour(cs, FourSize(|cs|)), i) == cs[i]
  {
    var j := i / 4;
    assert i == 4 * j + i % 4;
    QuadOfByte(cs, i);
  }

  /** In the packed bytes of a list the i-th nibble is the place of its i-th state among the nine, 0 for anything
      else and past the list's end; of a number it is the i-th bit from the top. */
  lemma NineWire(v: Value, width: nat, i: nat)
    requires i < width
    ensures var s := PackNine(NineCodes(v, width), NineSize(width));
            i / 2 < |s| &&
            match v
            case States(list) =>
              if i < |list| && list[i] in NINE_STATES then NibbleAt(s, i) < 9 && NINE_STATES[NibbleAt(s, i)] == list[i]
              else NibbleAt(s, i) == 0
            case Int(n) => NibbleAt(s, i) == TopBit(n, width, i)
            case Dbl(_) => NibbleAt(s, i) == 0
            case Text(_) => true
  {
    hide PackNine, NineSize, NibbleAt, NineCode, BitAt, Bit;
    NibblesPlaced(NineCodes(v, width), i);
    match v
    case States(list) =>
      if i < |list| {
        CodesArePlaces(list[i], 0);
      }
    case Int(n) => BitIsAt(n, width - 1 - i);
    case _ =>
  }

  /** A text is packed as the list of its characters. */
  lemma TextWire(s: bytes, width: nat)
    requires forall i :: 0 <= i < |s| ==> s[i] < 128
    ensures NineCodes(Text(s), width) == NineCodes(States(seq(|s|, i requires 0 <= i < |s| => Chr(s[i] as char))), width)
  {
    AsciiChars(s);
  }

  lemma {:induction false} AsciiChars(s: bytes)
    requires forall i :: 0 <= i < |s| ==> s[i] < 128
    ensures Chars(s) == seq(|s|, i requires 0 <= i < |s| => Chr(s[i] as char))
    decreases |s|
  {
    if s != [] {
      AsciiChars(s[1..]);
    }
  }

  /** In the packed bytes of a number the i-th pair is its i-th bit from the top; of anything else every pair
      is 2, which stands for X. */
  lemma FourWire(v: Value, width: nat, i: nat)
    requires i < width
    ensures var s := PackFour(FourCodes(v, width), FourSize(width));
            i / 4 < |s| && PairAt(s, i) == if v.Int? then TopBit(v.n, width, i) else 2
  {
    hide PackFour, FourSize, PairAt, BitAt, Bit;
    PairsPlaced(FourCodes(v, width), i);
    if v.Int? {
      BitIsAt(v.n, width - 1 - i);
    }
  }

  /** The four states in the order of their codes, for pairs of bits and for one-bit values. */
  lemma FourPlaces(k: quad, v: Value)
    ensures FourDecode(k) == [Num(0), Num(1), Chr('X'), Chr('Z')][k]
    ensures FourValue(k) == [Int(0), Int(1), Text([0x58]), Text([0x5A])][k]
    ensures FourCode(FourValue(k)) == k
    ensures FourCode(v) == match v
                           case Int(n) => if n % 2 == 0 then 0 else 1
                           case Text(s) => if s == [0x31] then 1 else if s in {[0x58], [0x78]} then 2 else if s in {[0x5A], [0x7A]} then 3 else 0
                           case _ => 0
  {
  }

  // ---- What a reader makes of the bytes ----

  lemma {:induction false} NumberBits(cs: seq<nibble>, i: nat)
    requires Binary(cs) && i < |cs|
    ensures TopBit(Number(cs), |cs|, i) == cs[i]
    decreases |cs|
  {
    hide Bit;
    var k := |cs| - 1;
    var p := k - i;
    BitHalf(Number(cs), if p == 0 then 0 else p - 1);
    if i < k {
      NumberBits(cs[..k], i);
    }
  }

  lemma {:induction false} NumberBelow(cs: seq<nibble>)
    ensures Number(cs) < Pow2(|cs|)
    decreases |cs|
  {
    if cs != [] {
      NumberBelow(cs[..|cs| - 1]);
    }
  }

  /** Of a nine-state value's bytes a reader makes the number if no nibble is above 1, else each nibble's state. */
  lemma NineShown(data: bytes, width: nat)
    requires 2 * |data| >= width
    ensures var cs := UnpackNine(data, width).value;
            var v := NineResult(cs);
            if forall i :: 0 <= i < width ==> NibbleAt(data, i) <= 1 then
              v.Int? && 0 <= v.n < Pow2(width) && forall i :: 0 <= i < width ==> TopBit(v.n, width, i) == NibbleAt(data, i)
            else
              v.States? && |v.list| == width && forall i :: 0 <= i < width ==> v.list[i] == NineAt(data, i)
  {
    hide Number, NineDecode, TopBit, Pow2;
    var cs := UnpackNine(data, width).value;
    assert forall i :: 0 <= i < width ==> cs[i] == NibbleAt(data, i);
    NumberBelow(cs);
    forall i | 0 <= i < width
      ensures Binary(cs) ==> TopBit(Number(cs), width, i) == cs[i]
      ensures NineDecode(cs[i]) == NineAt(data, i)
    {
      if Binary(cs) {
        NumberBits(cs, i);
      }
      CodesArePlaces(Num(0), cs[i]);
    }
  }

  /** A nibble's state; past the nine it is shown as a number. */
  function NineAt(data: bytes, i: nat): State
    requires i / 2 < |data|
  {
    var k := NibbleAt(data, i);
    if k < 9 then NINE_STATES[k] else Num(k)
  }

  /** The same for pairs of bits. */
  lemma FourShown(data: bytes, width: nat)
    requires 4 * |data| >= width
    ensures var cs := UnpackFour(data, width).value;
            var v := FourResult(cs);
            if forall i :: 0 <= i < width ==> PairAt(data, i) <= 1 then
              v.Int? && 0 <= v.n < Pow2(width) && forall i :: 0 <= i < width ==> TopBit(v.n, width, i) == PairAt(data, i)
            else
              v.States? && |v.list| == width && forall i :: 0 <= i < width ==> v.list[i] == NINE_STATES[PairAt(data, i)]
  {
    hide Number, TopBit, Pow2;
    var cs := UnpackFour(data, width).value;
    assert forall i :: 0 <= i < width ==> cs[i] == PairAt(data, i);
    NumberBelow(cs);
    forall i | 0 <= i < width
      ensures Binary(cs) ==> TopBit(Number(cs), width, i) == cs[i]
    {
      if Binary(cs) {
        NumberBits(cs, i);
      }
    }
  }
}
