/** Bitwise exclusive-or on natural numbers, bit by bit from the low end, and its algebra. */
module BitXor {
  import opened Words

  function Xor(a: nat, b: nat): nat
    decreases a + b
  {
    if a == 0 && b == 0 then 0
    else (if a % 2 != b % 2 then 1 else 0) + 2 * Xor(a / 2, b / 2)
  }

  function Pow2(k: nat): (p: nat)
    ensures p >= 1
  {
    if k == 0 then 1 else 2 * Pow2(k - 1)
  }

  lemma Pow2Values()
    ensures Pow2(8) == 0x100 && Pow2(31) == 0x8000_0000 && Pow2(32) == 0x1_0000_0000
  {
    assert Pow2(4) == 0x10;
    assert Pow2(8) == 0x100;
    assert Pow2(12) == 0x1000;
    assert Pow2(16) == 0x1_0000;
    assert Pow2(20) == 0x10_0000;
    assert Pow2(24) == 0x100_0000;
    assert Pow2(28) == 0x1000_0000;
    assert Pow2(31) == 0x8000_0000;
  }

  /** One unfolding, also where both operands are zero. */
  lemma XorUnfold(a: nat, b: nat)
    ensures Xor(a, b) == (if a % 2 != b % 2 then 1 else 0) + 2 * Xor(a / 2, b / 2)
    ensures Xor(a, b) % 2 == (if a % 2 != b % 2 then 1 else 0)
    ensures Xor(a, b) / 2 == Xor(a / 2, b / 2)
  {
  }

  lemma {:induction false} XorZero(a: nat)
    ensures Xor(a, 0) == a && Xor(0, a) == a
  {
    if a > 0 { XorZero(a / 2); }
  }

  lemma {:induction false} XorSelf(a: nat)
    ensures Xor(a, a) == 0
  {
    if a > 0 { XorSelf(a / 2); }
  }

  lemma {:induction false} XorCommutes(a: nat, b: nat)
    ensures Xor(a, b) == Xor(b, a)
    decreases a + b
  {
    if a + b > 0 { XorCommutes(a / 2, b / 2); }
  }

  lemma {:induction false} XorAssociates(a: nat, b: nat, c: nat)
    ensures Xor(Xor(a, b), c) == Xor(a, Xor(b, c))
    decreases a + b + c
  {
    if a + b + c > 0 {
      XorAssociates(a / 2, b / 2, c / 2);
      XorUnfold(a, b);
      XorUnfold(b, c);
      XorUnfold(Xor(a, b), c);
      XorUnfold(a, Xor(b, c));
    }
  }

  lemma XorCancels(a: nat, b: nat, c: nat)
    requires Xor(a, b) == Xor(a, c)
    ensures b == c
  {
    XorAssociates(a, a, b);
    XorAssociates(a, a, c);
    XorSelf(a);
    XorZero(b);
    XorZero(c);
  }

  /** (a ^ b) ^ (c ^ d) == (a ^ c) ^ (b ^ d) */
  lemma XorInterchange(a: nat, b: nat, c: nat, d: nat)
    ensures Xor(Xor(a, b), Xor(c, d)) == Xor(Xor(a, c), Xor(b, d))
  {
    XorAssociates(a, b, Xor(c, d));
    XorAssociates(b, c, d);
    XorCommutes(b, c);
    XorAssociates(c, b, d);
    XorAssociates(a, c, Xor(b, d));
  }

  lemma {:induction false} XorBound(a: nat, b: nat, k: nat)
    requires a < Pow2(k) && b < Pow2(k)
    ensures Xor(a, b) < Pow2(k)
  {
    if k > 0 {
      XorBound(a / 2, b / 2, k - 1);
      XorUnfold(a, b);
    }
  }

  /** A bit above both operands passes straight through. */
  lemma {:induction false} XorHighBit(a: nat, b: nat, k: nat)
    requires a < Pow2(k) && b < Pow2(k)
    ensures Xor(Pow2(k) + a, b) == Pow2(k) + Xor(a, b)
  {
    XorUnfold(Pow2(k) + a, b);
    XorUnfold(a, b);
    if k == 0 {
      assert Xor(1, 0) == 1 + 2 * Xor(0, 0);
    } else {
      assert (Pow2(k) + a) / 2 == Pow2(k - 1) + a / 2;
      XorHighBit(a / 2, b / 2, k - 1);
    }
  }

  /** Parts that do not overlap are put together by xor just as by addition. */
  lemma {:induction false} XorDisjoint(lo: nat, q: nat, k: nat)
    requires lo < Pow2(k)
    ensures Xor(lo, q * Pow2(k)) == lo + q * Pow2(k)
  {
    if k == 0 {
      XorZero(q);
    } else {
      var hi, half := q * Pow2(k), q * Pow2(k - 1);
      assert hi == 2 * half;
      XorDisjoint(lo / 2, q, k - 1);
      XorFromHalves(lo, hi, half);
    }
  }

  lemma XorFromHalves(a: nat, b: nat, half: nat)
    requires b == 2 * half
    requires Xor(a / 2, half) == a / 2 + half
    ensures Xor(a, b) == a + b
  {
    XorUnfold(a, b);
  }

  lemma HalfThenShift(v: nat, h: nat)
    requires h >= 1
    ensures v / 2 / h == v / (2 * h)
    ensures (v % (2 * h)) / 2 == (v / 2) % h
    ensures (v % (2 * h)) % 2 == v % 2
  {
    var q, r := v / 2 / h, (v / 2) % h;
    var s := v % 2;
    assert v == 2 * (h * q + r) + s;
    assert v == (2 * h) * q + (2 * r + s);
    QuotientIs(v, 2 * h, q, 2 * r + s);
    assert v % (2 * h) == 2 * r + s;
  }

  /** v shifted right by k bits. */
  function Shr(v: nat, k: nat): nat
    decreases k
  {
    if k == 0 then v else Shr(v / 2, k - 1)
  }

  lemma ShrEight(v: nat)
    ensures Shr(v, 8) == v / 256
  {
    assert Shr(v, 8) == Shr(v / 2, 7) == Shr(v / 4, 6) == Shr(v / 8, 5) == Shr(v / 16, 4);
    assert Shr(v / 16, 4) == Shr(v / 32, 3) == Shr(v / 64, 2) == Shr(v / 128, 1);
  }

  /** Shifting right distributes over xor. */
  lemma {:induction false} XorShift(a: nat, b: nat, k: nat)
    ensures Shr(Xor(a, b), k) == Xor(Shr(a, k), Shr(b, k))
    decreases k
  {
    if k > 0 {
      XorUnfold(a, b);
      XorShift(a / 2, b / 2, k - 1);
    }
  }

  function Xor32(a: u32, b: u32): (x: u32)
  {
    assert Xor(a, b) <= U32_MAX by {
      Pow2Values();
      XorBound(a, b, 32);
    }
    Xor(a, b)
  }
}
