/** What the operations of `Bits` do to each bit of an integer. */
module BitLaws {
  import opened Bits

  /** Bit `p` of an integer in two's complement. */
  ghost predicate Bit(a: int, p: nat) {
    a / Pow2(p) % 2 == 1
  }

  ghost predicate SameBits(a: int, b: int) {
    forall p: nat :: Bit(a, p) == Bit(b, p)
  }

  // ---- Bits of an integer ----

  lemma DivTwice(a: int, m: nat)
    requires m > 0
    ensures a / (2 * m) == a / 2 / m
  {
    var h := a / 2;
    var q, r := h / m, h % m;
    assert a == 2 * h + a % 2 && h == m * q + r;
    assert a == (2 * m) * q + (2 * r + a % 2) by {
      assert 2 * (m * q) == (2 * m) * q;
    }
    DivUnique(a, 2 * m, q, 2 * r + a % 2);
  }

  lemma BitHalf(a: int, p: nat)
    ensures Bit(a, 0) <==> a % 2 == 1
    ensures Bit(a, p + 1) == Bit(a / 2, p)
  {
    DivTwice(a, Pow2(p));
    assert a / 1 == a;
  }

  /** An integer is what its bits say. */
  lemma {:induction false} BitsDecide(a: int, b: int)
    ensures SameBits(a, b) <==> a == b
    decreases Size(a) + Size(b)
  {
    if SameBits(a, b) {
      BitHalf(a, 0);
      BitHalf(b, 0);
      assert Bit(a, 0) == Bit(b, 0);
      if !(a in {0, -1} && b in {0, -1}) {
        forall p: nat
          ensures Bit(a / 2, p) == Bit(b / 2, p)
        {
          BitHalf(a, p);
          BitHalf(b, p);
          assert Bit(a, p + 1) == Bit(b, p + 1);
        }
        BitsDecide(a / 2, b / 2);
      }
    }
  }

  lemma {:induction false} NoBits(p: nat)
    ensures !Bit(0, p) && Bit(-1, p)
    decreases p
  {
    if p == 0 {
      BitHalf(0, 0);
      BitHalf(-1, 0);
    } else {
      NoBits(p - 1);
      BitHalf(0, p - 1);
      BitHalf(-1, p - 1);
    }
  }

  // ---- Gates ----

  lemma Halves(a: int, b: int)
    ensures And(a, b) / 2 == And(a / 2, b / 2) && And(a, b) % 2 == if a % 2 == 1 && b % 2 == 1 then 1 else 0
    ensures Or(a, b) / 2 == Or(a / 2, b / 2) && Or(a, b) % 2 == if a % 2 == 1 || b % 2 == 1 then 1 else 0
    ensures Not(a) / 2 == Not(a / 2) && Not(a) % 2 == 1 - a % 2
  {
  }

  lemma XorHalves(a: int, b: int)
    ensures Xor(a, b) / 2 == Xor(a / 2, b / 2) && Xor(a, b) % 2 == if a % 2 != b % 2 then 1 else 0
  {
  }

  lemma {:induction false} GateBits(a: int, b: int, p: nat)
    ensures Bit(And(a, b), p) == (Bit(a, p) && Bit(b, p))
    ensures Bit(Or(a, b), p) == (Bit(a, p) || Bit(b, p))
    ensures Bit(Xor(a, b), p) == (Bit(a, p) != Bit(b, p))
    ensures Bit(Not(a), p) == !Bit(a, p)
    decreases p
  {
    hide And, Or, Xor, Not, Bit;
    Halves(a, b);
    XorHalves(a, b);
    var q := if p == 0 then 0 else p - 1;
    BitHalf(a, q);
    BitHalf(b, q);
    BitHalf(And(a, b), q);
    BitHalf(Or(a, b), q);
    BitHalf(Xor(a, b), q);
    BitHalf(Not(a), q);
    if p > 0 {
      GateBits(a / 2, b / 2, p - 1);
    }
  }

  // ---- Wires ----

  lemma {:induction false} ShlBits(a: int, k: nat, p: nat)
    ensures Bit(Shl(a, k), p) <==> p >= k && Bit(a, p - k)
    decreases k
  {
    hide Bit;
    if k > 0 {
      BitHalf(Shl(a, k), if p == 0 then 0 else p - 1);
      if p > 0 {
        ShlBits(a, k - 1, p - 1);
      }
    }
  }

  lemma {:induction false} ShrBits(a: int, k: nat, p: nat)
    ensures Bit(Shr(a, k), p) == Bit(a, p + k)
    decreases k
  {
    hide Bit;
    if k > 0 {
      BitHalf(a, p + k - 1);
      ShrBits(a / 2, k - 1, p);
    }
  }

  lemma {:induction false} MaskBits(w: nat, p: nat)
    ensures Bit(Mask(w), p) <==> p < w
    decreases w
  {
    if w == 0 {
      NoBits(p);
    } else {
      assert Mask(w) / 2 == Mask(w - 1) && Mask(w) % 2 == 1;
      hide Bit, Pow2;
      BitHalf(Mask(w), if p == 0 then 0 else p - 1);
      if p > 0 {
        MaskBits(w - 1, p - 1);
      }
    }
  }

  lemma LowBits(a: int, w: nat, p: nat)
    ensures Bit(And(a, Mask(w)), p) <==> p < w && Bit(a, p)
  {
    hide Bit;
    GateBits(a, Mask(w), p);
    MaskBits(w, p);
  }

  // ---- Reductions ----

  lemma AllLow(a: int, k: nat)
    ensures And(a, Mask(k)) == Mask(k) <==> forall q: nat :: q < k ==> Bit(a, q)
  {
    hide Bit, And, Mask;
    BitsDecide(And(a, Mask(k)), Mask(k));
    forall q: nat
      ensures (Bit(And(a, Mask(k)), q) <==> q < k && Bit(a, q)) && (Bit(Mask(k), q) <==> q < k)
    {
      LowBits(a, k, q);
      MaskBits(k, q);
    }
    if SameBits(And(a, Mask(k)), Mask(k)) {
      forall q: nat | q < k
        ensures Bit(a, q)
      {
        assert Bit(And(a, Mask(k)), q) == Bit(Mask(k), q);
      }
    }
  }

  lemma AnyLow(a: int, k: nat)
    ensures And(a, Mask(k)) != 0 <==> exists q: nat :: q < k && Bit(a, q)
  {
    hide Bit, And, Mask;
    BitsDecide(And(a, Mask(k)), 0);
    forall q: nat
      ensures (Bit(And(a, Mask(k)), q) <==> q < k && Bit(a, q)) && !Bit(0, q)
    {
      LowBits(a, k, q);
      NoBits(q);
    }
    if exists q: nat :: q < k && Bit(a, q) {
      var q: nat :| q < k && Bit(a, q);
      assert Bit(And(a, Mask(k)), q) != Bit(0, q);
    }
  }

  lemma IsZero(a: int)
    ensures a == 0 <==> forall q: nat :: !Bit(a, q)
  {
    hide Bit;
    BitsDecide(a, 0);
    forall q: nat
      ensures !Bit(0, q)
    {
      NoBits(q);
    }
  }
}
