/** Powers of two, right shifts and alignment: the arithmetic behind the
    bit-twiddling of the shachain store, stated without bit vectors. */
module Powers {

  function Pow2(n: nat): (r: nat)
    ensures r >= 1
  {
    if n == 0 then 1 else 2 * Pow2(n - 1)
  }

  /** `x >> b` */
  function Shr(x: nat, b: nat): nat {
    if b == 0 then x else Shr(x / 2, b - 1)
  }

  /** The low `b` bits of `k` are clear. */
  predicate Aligned(k: nat, b: nat) {
    b == 0 || (k % 2 == 0 && Aligned(k / 2, b - 1))
  }

  lemma {:induction false} Pow2Monotone(a: nat, b: nat)
    requires a <= b
    ensures Pow2(a) <= Pow2(b)
    decreases b
  {
    if a < b { Pow2Monotone(a, b - 1); }
  }

  /** Shifting right by one more bit halves the shifted value. */
  lemma {:induction false} ShrStep(x: nat, b: nat)
    ensures Shr(x, b + 1) == Shr(x, b) / 2
  {
    if b > 0 { ShrStep(x / 2, b - 1); }
  }

  /** Agreement above bit `a` implies agreement above any higher bit. */
  lemma {:induction false} SharedHighBits(x: nat, y: nat, a: nat, b: nat)
    requires a <= b && Shr(x, a) == Shr(y, a)
    ensures Shr(x, b) == Shr(y, b)
    decreases b
  {
    if a < b {
      SharedHighBits(x, y, a, b - 1);
      ShrStep(x, b - 1);
      ShrStep(y, b - 1);
    }
  }

  lemma {:induction false} AlignedLower(k: nat, a: nat, b: nat)
    requires a <= b && Aligned(k, b)
    ensures Aligned(k, a)
  {
    if a > 0 { AlignedLower(k / 2, a - 1, b - 1); }
  }

  lemma {:induction false} LowBitsClear(k: nat, b: nat, x: nat)
    requires Aligned(k, b) && x < b
    ensures Shr(k, x) % 2 == 0
  {
    if x > 0 { LowBitsClear(k / 2, b - 1, x - 1); }
  }

  /** `x` lies in the aligned block of size `2^b` that starts at `k`
      exactly when the two agree above bit `b`. */
  lemma {:induction false} AlignedBlock(x: nat, k: nat, b: nat)
    requires Aligned(k, b)
    ensures Shr(x, b) == Shr(k, b) <==> k <= x < k + Pow2(b)
  {
    if b > 0 { AlignedBlock(x / 2, k / 2, b - 1); }
  }

  lemma {:induction false} AlignedAdd(k: nat, b: nat)
    requires Aligned(k, b)
    ensures Aligned(k + Pow2(b), b)
  {
    if b > 0 { AlignedAdd(k / 2, b - 1); }
  }

  lemma {:induction false} PowAligned(a: nat, b: nat)
    requires a <= b
    ensures Aligned(Pow2(b), a)
  {
    if a > 0 {
      PowAligned(a - 1, b - 1);
      assert Pow2(b) == 2 * Pow2(b - 1);
      assert Pow2(b) % 2 == 0 && Pow2(b) / 2 == Pow2(b - 1);
    }
  }

  /** Distinct aligned numbers are a whole block apart. */
  lemma {:induction false} AlignedGap(x: nat, y: nat, b: nat)
    requires Aligned(x, b) && Aligned(y, b) && x < y
    ensures x + Pow2(b) <= y
  {
    if b > 0 { AlignedGap(x / 2, y / 2, b - 1); }
  }

  /** The block after an odd multiple of `2^b` starts at an even one. */
  lemma {:induction false} NextEven(k: nat, b: nat)
    requires Aligned(k, b) && !Aligned(k, b + 1)
    ensures Aligned(k + Pow2(b), b + 1)
  {
    if b > 0 { NextEven(k / 2, b - 1); }
  }
}
