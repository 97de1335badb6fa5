/** What Python's `int` makes of a double and of a text, as the call reader applies it to a predictor. */
module Numerals {
  import opened Bits
  import opened BitLaws
  import opened Bytes
  import opened Varint
  import opened CallReturn

  // ---- Doubles ----

  /** The size of a double is its significand times two to the power of its exponent less 1075: a whole part and
      a fraction below one. */
  ghost predicate WholePart(size: nat, significand: nat, exponent: nat) {
    if exponent >= 1075 then size == significand * Pow2(exponent - 1075)
    else size * Pow2(1075 - exponent) <= significand < (size + 1) * Pow2(1075 - exponent)
  }

  lemma {:induction false} ShlTimes(a: int, k: nat)
    ensures Shl(a, k) == a * Pow2(k)
    decreases k
  {
    if k > 0 {
      ShlTimes(a, k - 1);
      assert 2 * (a * Pow2(k - 1)) == a * (2 * Pow2(k - 1));
    }
  }

  lemma {:induction false} ShrFloor(a: nat, k: nat)
    ensures Shr(a, k) >= 0 && Shr(a, k) * Pow2(k) <= a < (Shr(a, k) + 1) * Pow2(k)
    decreases k
  {
    hide Pow2, Shr;
    if k == 0 {
      NoShift(a);
    } else {
      ShrFloor(a / 2, k - 1);
      OneShift(a, k);
      HalfFloor(a, Shr(a, k), Pow2(k - 1));
    }
  }

  lemma NoShift(a: nat)
    ensures Shr(a, 0) == a && Pow2(0) == 1
  {
  }

  lemma OneShift(a: nat, k: nat)
    requires k > 0
    ensures Shr(a, k) == Shr(a / 2, k - 1) && Pow2(k) == 2 * Pow2(k - 1)
  {
  }

  lemma HalfFloor(a: nat, s: nat, p: nat)
    requires s * p <= a / 2 < (s + 1) * p
    ensures s * (2 * p) <= a < (s + 1) * (2 * p)
  {
    var x, y := s * p, (s + 1) * p;
    assert s * (2 * p) == 2 * x && (s + 1) * (2 * p) == 2 * y;
  }

  /** A double is cut towards zero: its whole part with its sign.  Infinities and NaN have none.  For a normal
      number the significand has a leading one before its 52 bits; a subnormal one cuts to zero either way. */
  lemma IntegralCuts(raw: bytes)
    requires |raw| == 8
    ensures var w := LeValue(raw);
            var exponent, significand := w / Pow2(52) % 2048, Pow2(52) + w % Pow2(52);
            if exponent == 2047 then Integral(raw) == None
            else Integral(raw).Some? &&
                 var i := Integral(raw).value;
                 if w / Pow2(63) == 1 then i <= 0 && WholePart(-i, significand, exponent)
                 else i >= 0 && WholePart(i, significand, exponent)
  {
    hide Pow2, Shl, Shr, LeValue;
    var w := LeValue(raw);
    Fractions();
    LeBelow(raw);
    Pow2Values();
    var exponent, significand := w / FRACTION % 2048, FRACTION + w % FRACTION;
    if exponent >= 1075 {
      ShlTimes(significand, exponent - 1075);
      ShlSign(significand, exponent - 1075);
    } else {
      ShrFloor(significand, 1075 - exponent);
    }
    TopBitOf(w);
  }

  lemma Fractions()
    ensures Pow2(52) == FRACTION
  {
    Pow2Values();
    Pow2Add(32, 20);
    Pow2Add(10, 10);
    assert Pow2(10) == 1024;
  }

  lemma {:induction false} LeBelow(s: bytes)
    ensures LeValue(s) < Pow2(8 * |s|)
  {
    if s != [] {
      LeBelow(s[1..]);
      Pow2Add(8, 8 * (|s| - 1));
      assert Pow2(8) == 256;
    }
  }

  lemma TopBitOf(w: nat)
    requires w < 2 * HALF
    ensures w / HALF == if w >= HALF then 1 else 0
  {
  }

  // ---- Texts ----

  /** A number written out in decimal. */
  function Written(n: nat): bytes {
    if n < 10 then [0x30 + n] else Written(n / 10) + [0x30 + n % 10]
  }

  lemma {:induction false} DigitsRead(n: nat)
    ensures Digits(Written(n)) == Some(n) && Written(n) != [] && 0x30 <= Written(n)[0] <= 0x39
    decreases n
  {
    if n < 10 {
      assert [0x30 + n][..0] == [];
      assert Digits([]) == Some(0);
    } else {
      DigitsRead(n / 10);
      assert Written(n)[..|Written(n)| - 1] == Written(n / 10);
    }
  }

  /** A text of decimal digits, with a sign or without, is the number it says. */
  lemma DecimalReads(n: nat)
    ensures Decimal(Written(n)) == Some(n) && Decimal([0x2B] + Written(n)) == Some(n)
    ensures Decimal([0x2D] + Written(n)).Some? && Decimal([0x2D] + Written(n)).value + n == 0
  {
    hide Digits, Written;
    DigitsRead(n);
    assert ([0x2B] + Written(n))[1..] == Written(n) && ([0x2D] + Written(n))[1..] == Written(n);
  }

  lemma {:induction false} OnlyDigits(s: bytes)
    ensures Digits(s).Some? <==> forall i :: 0 <= i < |s| ==> 0x30 <= s[i] <= 0x39
    decreases |s|
  {
    if s != [] {
      OnlyDigits(s[..|s| - 1]);
    }
  }

  /** Other texts are no numbers: without a digit, or with anything else among them. */
  lemma OthersRaise(s: bytes)
    ensures Decimal(s).None? <==>
            var digits := if s != [] && s[0] in {0x2B, 0x2D} then s[1..] else s;
            digits == [] || exists i :: 0 <= i < |digits| && !(0x30 <= digits[i] <= 0x39)
  {
    hide Digits;
    if s != [] {
      OnlyDigits(s[1..]);
      OnlyDigits(s);
    }
  }
}
