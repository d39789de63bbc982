/** Bitwise `and` and `or` of naturals, and what the masks of the source mean
    arithmetically. */
module Bits {
  import opened Powers

  function And(x: nat, m: nat): nat {
    if m == 0 then 0
    else (if x % 2 == 1 && m % 2 == 1 then 1 else 0) + 2 * And(x / 2, m / 2)
  }

  function Or(x: nat, y: nat): nat
    decreases x + y
  {
    if x + y == 0 then 0
    else (if x % 2 == 1 || y % 2 == 1 then 1 else 0) + 2 * Or(x / 2, y / 2)
  }

  /** The low `k` bits. */
  function Low(x: nat, k: nat): nat {
    if k == 0 then 0 else x % 2 + 2 * Low(x / 2, k - 1)
  }

  function Shl(y: nat, b: nat): nat {
    if b == 0 then y else 2 * Shl(y, b - 1)
  }

  lemma {:induction false} ShlIs(y: nat, b: nat)
    ensures Shl(y, b) == Pow2(b) * y
  {
    if b > 0 {
      ShlIs(y, b - 1);
    }
  }

  lemma Split(x: nat, k: nat)
    ensures x == Low(x, k) + Pow2(k) * Shr(x, k) && Low(x, k) < Pow2(k)
  {
    SplitShl(x, k);
    ShlIs(Shr(x, k), k);
  }

  lemma {:induction false} SplitShl(x: nat, k: nat)
    ensures x == Low(x, k) + Shl(Shr(x, k), k) && Low(x, k) < Pow2(k)
  {
    if k > 0 {
      SplitShl(x / 2, k - 1);
    }
  }

  lemma {:induction false} AndOnes(x: nat, k: nat)
    ensures And(x, Pow2(k) - 1) == Low(x, k)
  {
    if k > 0 {
      AndOnes(x / 2, k - 1);
    }
  }

  /** A mask of `a` ones at the bottom and `c` ones from bit `b` up. */
  lemma {:induction false} AndRuns(x: nat, a: nat, b: nat, c: nat)
    requires a <= b
    ensures And(x, Pow2(a) - 1 + Shl(Pow2(c) - 1, b)) == Low(x, a) + Shl(Low(Shr(x, b), c), b)
    decreases b
  {
    if b == 0 {
      AndOnes(x, c);
    } else {
      var a' := if a == 0 then 0 else a - 1;
      AndRuns(x / 2, a', b - 1, c);
    }
  }

  lemma AndTwoRuns(x: nat, a: nat, b: nat, c: nat)
    requires a <= b
    ensures And(x, Pow2(a) - 1 + Pow2(b) * (Pow2(c) - 1)) == Low(x, a) + Pow2(b) * Low(Shr(x, b), c)
  {
    hide And, Low, Shr, Pow2, Shl;
    AndRuns(x, a, b, c);
    ShlIs(Pow2(c) - 1, b);
    ShlIs(Low(Shr(x, b), c), b);
  }

  /** `or` of disjoint parts is their sum. */
  lemma {:induction false} OrDisjoint(x: nat, z: nat, k: nat)
    requires x < Pow2(k)
    ensures Or(x, Pow2(k) * z) == x + Pow2(k) * z
    decreases k
  {
    if k == 0 {
      OrZero(z);
    } else {
      assert Pow2(k) * z == 2 * (Pow2(k - 1) * z);
      OrDisjoint(x / 2, z, k - 1);
    }
  }

  lemma {:induction false} OrZero(z: nat)
    ensures Or(0, z) == z
  {
    if z > 0 {
      OrZero(z / 2);
    }
  }

  lemma Constants()
    ensures Pow2(2) == 4 && Pow2(6) == 64 && Pow2(8) == 0x100 && Pow2(12) == 0x1000 && Pow2(14) == 0x4000
    ensures Pow2(18) == 0x4_0000 && Pow2(20) == 0x10_0000 && Pow2(24) == 0x100_0000 && Pow2(26) == 0x400_0000
  {
    assert Pow2(4) == 16;
    assert Pow2(10) == 0x400;
    assert Pow2(16) == 0x1_0000;
    assert Pow2(22) == 0x40_0000;
  }

  /** `Low` and `Shr` as remainder and quotient. */
  lemma QuotientRemainder(x: nat, p: nat, low: nat, high: nat)
    requires p > 0 && x == low + p * high && low < p
    ensures x % p == low && x / p == high
  {
    assert p * (x / p - high) == low - x % p;
    SmallMultiple(p, x / p - high);
  }

  lemma SmallMultiple(p: int, k: int)
    requires p > 0 && -p < p * k < p
    ensures k == 0
  {
    if k > 0 {
      MulMonotone(p, 1, k);
    } else if k < 0 {
      MulMonotone(p, k, -1);
    }
  }

  lemma MulMonotone(p: int, a: int, b: int)
    requires p >= 0 && a <= b
    ensures p * a <= p * b
  {
  }

  lemma LowIs(x: nat, k: nat)
    ensures Low(x, k) == x % Pow2(k) && Shr(x, k) == x / Pow2(k)
  {
    Split(x, k);
    QuotientRemainder(x, Pow2(k), Low(x, k), Shr(x, k));
  }

  lemma Mask26(x: nat)
    ensures And(x, 0x03ff_ffff) == x % 0x400_0000
  {
    hide And, Low, Pow2, Shr;
    Constants();
    AndOnes(x, 26);
    LowIs(x, 26);
  }

  lemma Mask20(x: nat)
    ensures And(x, 0x000f_ffff) == x % 0x10_0000
  {
    hide And, Low, Pow2, Shr;
    Constants();
    AndOnes(x, 20);
    LowIs(x, 20);
  }

  /** The three clamping masks with a gap. */
  lemma ClampMasks(x: nat)
    ensures And(x, 0x03ff_ff03) == x % 4 + 0x100 * (x / 0x100 % 0x4_0000)
    ensures And(x, 0x03ff_c0ff) == x % 0x100 + 0x4000 * (x / 0x4000 % 0x1000)
    ensures And(x, 0x03f0_3fff) == x % 0x4000 + 0x10_0000 * (x / 0x10_0000 % 64)
  {
    hide And, Low, Pow2, Shr;
    Constants();
    AndTwoRuns(x, 2, 8, 18);
    AndTwoRuns(x, 8, 14, 12);
    AndTwoRuns(x, 14, 20, 6);
    LowIs(x, 2);
    LowIs(x, 8);
    LowIs(x, 14);
    LowIs(x, 20);
    LowIs(Shr(x, 8), 18);
    LowIs(Shr(x, 14), 12);
    LowIs(Shr(x, 20), 6);
  }
}
