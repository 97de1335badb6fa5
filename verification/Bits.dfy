/** Bitwise arithmetic on unbounded two's-complement integers, as Python's `&`, `|`, `^`, `~`,
    `<<` and `>>` compute it.  Dafny's `/` and `%` by a positive divisor round towards minus
    infinity, which is what Python's `>>` and `&` with a mask do on negative operands. */
module Bits {

  function Pow2(k: nat): (p: int)
    ensures p >= 1
  {
    if k == 0 then 1 else 2 * Pow2(k - 1)
  }

  /** The number of steps after which halving reaches 0 or -1. */
  function Size(a: int): nat {
    if a >= 0 then a else -a - 1
  }

  function And(a: int, b: int): int
    decreases Size(a) + Size(b)
  {
    if a == 0 || b == 0 then 0
    else if a == -1 then b
    else if b == -1 then a
    else 2 * And(a / 2, b / 2) + (if a % 2 == 1 && b % 2 == 1 then 1 else 0)
  }

  function Or(a: int, b: int): int
    decreases Size(a) + Size(b)
  {
    if a == -1 || b == -1 then -1
    else if a == 0 then b
    else if b == 0 then a
    else 2 * Or(a / 2, b / 2) + (if a % 2 == 1 || b % 2 == 1 then 1 else 0)
  }

  function Xor(a: int, b: int): int
    decreases Size(a) + Size(b)
  {
    if a == 0 then b
    else if b == 0 then a
    else if a == -1 then Not(b)
    else if b == -1 then Not(a)
    else 2 * Xor(a / 2, b / 2) + (if a % 2 != b % 2 then 1 else 0)
  }

  function Not(a: int): int {
    -a - 1
  }

  function Shl(a: int, k: nat): int {
    if k == 0 then a else 2 * Shl(a, k - 1)
  }

  function Shr(a: int, k: nat): int
    decreases k
  {
    if k == 0 then a else Shr(a / 2, k - 1)
  }

  /** `(1 << width) - 1`, or 0 when there is no width. */
  function Mask(width: nat): int {
    Pow2(width) - 1
  }

  lemma Pow2Add(j: nat, k: nat)
    ensures Pow2(j + k) == Pow2(j) * Pow2(k)
  {
    if j > 0 {
      Pow2Add(j - 1, k);
    }
  }

  lemma Pow2Mono(j: nat, k: nat)
    requires j <= k
    ensures Pow2(j) <= Pow2(k)
  {
    if j < k {
      Pow2Mono(j, k - 1);
    }
  }

  lemma Pow2Values()
    ensures Pow2(7) == 0x80 && Pow2(8) == 0x100 && Pow2(32) == 0x1_0000_0000
    ensures Pow2(63) == 0x8000_0000_0000_0000 && Pow2(64) == 0x1_0000_0000_0000_0000
    ensures Pow2(70) == 0x40_0000_0000_0000_0000
  {
    assert Pow2(8) == 256;
    Pow2Add(8, 8);
    Pow2Add(16, 16);
    Pow2Add(32, 31);
    Pow2Add(32, 32);
    Pow2Add(64, 6);
    assert Pow2(6) == 64;
    assert Pow2(64) == 2 * Pow2(63);
  }

  /** A shift to the left is a sum's shift of each part. */
  lemma ShlAdd(a: int, b: int, k: nat)
    ensures Shl(a + b, k) == Shl(a, k) + Shl(b, k)
  {
    if k > 0 {
      ShlAdd(a, b, k - 1);
    }
  }

  lemma ShlShl(a: int, j: nat, k: nat)
    ensures Shl(Shl(a, j), k) == Shl(a, j + k)
  {
    if k > 0 {
      ShlShl(a, j, k - 1);
    }
  }

  lemma ShlSign(a: int, k: nat)
    ensures a >= 0 ==> Shl(a, k) >= a
    ensures a < 0 ==> Shl(a, k) <= a
  {
    if k > 0 {
      ShlSign(a, k - 1);
    }
  }

  /** A digit shifted over a smaller number stays below the next power. */
  lemma {:induction false} ShlFits(low: nat, digit: nat, j: nat, k: nat)
    requires low < Pow2(k) && digit < Pow2(j)
    ensures 0 <= low + Shl(digit, k) < Pow2(j + k)
    decreases k
  {
    if k > 0 {
      ShlFits(low / 2, digit, j, k - 1);
    }
  }

  /** Cutting a shifted number to `j + k` bits cuts the number to `j` bits first. */
  lemma {:induction false} ShlMod(a: nat, j: nat, k: nat)
    ensures Shl(a, k) % Pow2(j + k) == Shl(a % Pow2(j), k)
    decreases k
  {
    if k > 0 {
      ShlMod(a, j, k - 1);
      ModTwice(Shl(a, k - 1), Pow2(j + k - 1));
    }
  }

  lemma ModTwice(a: int, m: nat)
    requires m > 0
    ensures (2 * a) % (2 * m) == 2 * (a % m) && (2 * a + 1) % (2 * m) == 2 * (a % m) + 1
  {
    var q, r := a / m, a % m;
    assert a == m * q + r;
    assert 2 * a == (2 * m) * q + 2 * r;
    DivUnique(2 * a, 2 * m, q, 2 * r);
    DivUnique(2 * a + 1, 2 * m, q, 2 * r + 1);
  }

  lemma DivUnique(a: int, d: int, q: int, r: int)
    requires d > 0 && a == d * q + r && 0 <= r < d
    ensures a / d == q && a % d == r
  {
    var q', r' := a / d, a % d;
    var gap := q - q';
    assert d * gap == r' - r by {
      assert d * q == d * q' + d * gap;
    }
    if gap >= 1 {
      MulAtLeast(d, gap);
    }
  }

  lemma MulAtLeast(d: nat, k: nat)
    requires k >= 1
    ensures d * k >= d
  {
    assert d * k == d + d * (k - 1);
  }

  /** Shifting out every bit leaves the sign. */
  lemma {:induction false} ShrAll(a: int, k: nat)
    requires -Pow2(k) <= a < Pow2(k)
    ensures Shr(a, k) == if a >= 0 then 0 else -1
    decreases k
  {
    if k > 0 {
      ShrAll(a / 2, k - 1);
    }
  }

  lemma {:induction false} ShrPow2(j: nat, k: nat)
    ensures Shr(Pow2(j + k), k) == Pow2(j)
  {
    if k > 0 {
      ShrPow2(j, k - 1);
    }
  }

  /** Masking keeps the low bits, whatever the sign. */
  lemma {:induction false} AndMask(a: int, w: nat)
    ensures And(a, Mask(w)) == a % Pow2(w)
    decreases w
  {
    if w > 0 {
      AndMask(a / 2, w - 1);
      ModTwice(a / 2, Pow2(w - 1));
      assert a == 2 * (a / 2) + a % 2;
      assert Mask(w) / 2 == Mask(w - 1) && Mask(w) % 2 == 1;
      if a == -1 {
        DivUnique(-1, Pow2(w), -1, Pow2(w) - 1);
      }
    }
  }

  lemma {:induction false} XorCommutes(a: int, b: int)
    ensures Xor(a, b) == Xor(b, a)
    decreases Size(a) + Size(b)
  {
    if a !in {0, -1} && b !in {0, -1} {
      XorCommutes(a / 2, b / 2);
    }
  }

  lemma {:induction false} OrCommutes(a: int, b: int)
    ensures Or(a, b) == Or(b, a)
    decreases Size(a) + Size(b)
  {
    if a !in {0, -1} && b !in {0, -1} {
      OrCommutes(a / 2, b / 2);
    }
  }

  /** Applying the same exclusive-or twice gives the first operand back. */
  lemma {:induction false} XorCancel(a: nat, b: nat)
    ensures Xor(a, b) >= 0 && Xor(Xor(a, b), b) == a
    decreases a + b
  {
    if a != 0 && b != 0 {
      XorCancel(a / 2, b / 2);
      var x := Xor(a, b);
      assert x == 2 * Xor(a / 2, b / 2) + (if a % 2 != b % 2 then 1 else 0);
      assert x / 2 == Xor(a / 2, b / 2);
      if x == 0 {
        assert Xor(a / 2, b / 2) == 0;
      } else {
        assert Xor(x, b) == 2 * Xor(x / 2, b / 2) + (if x % 2 != b % 2 then 1 else 0);
      }
    } else {
      XorSelf(b);
    }
  }

  lemma {:induction false} XorSelf(a: nat)
    ensures Xor(a, a) == 0
  {
    if a != 0 {
      XorSelf(a / 2);
    }
  }

  lemma {:induction false} XorBound(a: nat, b: nat, k: nat)
    requires a < Pow2(k) && b < Pow2(k)
    ensures 0 <= Xor(a, b) < Pow2(k)
    decreases k
  {
    if a != 0 && b != 0 {
      XorBound(a / 2, b / 2, k - 1);
    }
  }

  /** Or-ing in a digit above everything already there is addition. */
  lemma {:induction false} OrDisjoint(a: nat, b: nat, k: nat)
    requires a < Pow2(k)
    ensures Or(a, Shl(b, k)) == a + Shl(b, k)
    decreases k
  {
    ShlSign(b, k);
    if a != 0 && k > 0 {
      OrDisjoint(a / 2, b, k - 1);
      OrHalves(a / 2, a % 2, Shl(b, k - 1));
    }
  }

  lemma OrHalves(a: nat, bit: nat, b: nat)
    requires bit < 2 && Or(a, b) == a + b
    ensures Or(2 * a + bit, 2 * b) == 2 * (a + b) + bit
  {
    var x := 2 * a + bit;
    assert x / 2 == a && x % 2 == bit;
  }

  /** Exclusive-or with all ones complements the low bits. */
  lemma {:induction false} XorOnes(a: nat, k: nat)
    requires a < Pow2(k)
    ensures Xor(a, Mask(k)) == Mask(k) - a
    decreases k
  {
    if a != 0 && k > 0 {
      XorOnes(a / 2, k - 1);
      assert Mask(k) / 2 == Mask(k - 1) && Mask(k) % 2 == 1;
    }
  }

  lemma {:induction false} AndBounds(a: int, b: int)
    ensures b >= 0 ==> 0 <= And(a, b) <= b
    decreases Size(a) + Size(b)
  {
    if a !in {0, -1} && b !in {0, -1} {
      AndBounds(a / 2, b / 2);
    }
  }
}
