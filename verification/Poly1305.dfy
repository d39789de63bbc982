/**
 * The Poly1305 one-time authenticator in 26-bit limbs, proved equal to the
 * definition of section 2.5 of RFC 8439 for every key and every way of
 * splitting the message into `Update` calls.
 *
 * The machine integers are `u32` and `u64`: that no operation leaves its range
 * is part of what is proved.
 */
module Poly1305 {
  import opened Bits
  import opened Powers

  newtype u32 = x: int | 0 <= x < 0x1_0000_0000
  newtype u64 = x: int | 0 <= x < 0x1_0000_0000_0000_0000
  type Byte = x: int | 0 <= x < 256

  const B: int := 0x400_0000
  const B2: int := 0x10_0000_0000_0000
  const B3: int := 0x4000_0000_0000_0000_0000
  const B4: int := 0x1_0000_0000_0000_0000_0000_0000_00
  const P: int := 0x3_ffff_ffff_ffff_ffff_ffff_ffff_ffff_fffb
  const POW128: int := 0x1_0000_0000_0000_0000_0000_0000_0000_0000

  // ------------------------------------------------------- the definition

  function LittleEndian(s: seq<Byte>): nat {
    if s == [] then 0 else s[0] + 256 * LittleEndian(s[1..])
  }

  function ToLittleEndian(v: nat, n: nat): (r: seq<Byte>)
    ensures |r| == n
  {
    if n == 0 then [] else [v % 256] + ToLittleEndian(v / 256, n - 1)
  }

  type Key = k: seq<Byte> | |k| == 32 witness seq(32, _ => 0)

  /** The first half of the key with the bits section 2.5 requires clear. */
  function Clamped(key: Key): (r: seq<Byte>)
    ensures |r| == 16
  {
    [key[0], key[1], key[2], key[3] % 16, key[4] / 4 * 4, key[5], key[6], key[7] % 16,
     key[8] / 4 * 4, key[9], key[10], key[11] % 16, key[12] / 4 * 4, key[13], key[14], key[15] % 16]
  }

  function Min(a: nat, b: nat): nat {
    if a < b then a else b
  }

  /** Block `k` of the message, a one byte appended, as a number. */
  function BlockNumber(msg: seq<Byte>, k: nat): nat
    requires 16 * k <= |msg|
  {
    LittleEndian(msg[16 * k..Min(16 * k + 16, |msg|)] + [1])
  }

  /** The polynomial after the first `k` blocks. */
  function Accumulate(r: nat, msg: seq<Byte>, k: nat): (acc: nat)
    requires k > 0 ==> 16 * (k - 1) <= |msg|
  {
    if k == 0 then 0 else (Accumulate(r, msg, k - 1) + BlockNumber(msg, k - 1)) * r % P
  }

  function BlockCount(msg: seq<Byte>): (n: nat)
    ensures n > 0 ==> 16 * (n - 1) <= |msg|
  {
    (|msg| + 15) / 16
  }

  function Tag(key: Key, msg: seq<Byte>): seq<Byte> {
    ToLittleEndian(
      (Accumulate(LittleEndian(Clamped(key)), msg, BlockCount(msg)) + LittleEndian(key[16..])) % POW128, 16)
  }

  // ---------------------------------------------------------------- limbs

  function V(a0: int, a1: int, a2: int, a3: int, a4: int): int {
    a0 + B * a1 + B2 * a2 + B3 * a3 + B4 * a4
  }

  datatype Limbs = Limbs(l0: u32, l1: u32, l2: u32, l3: u32, l4: u32) {
    function Value(): int {
      V(l0 as int, l1 as int, l2 as int, l3 as int, l4 as int)
    }
  }

  function At(s: seq<Byte>, i: nat): (b: int)
    requires i < |s|
    ensures 0 <= b < 256
  {
    s[i]
  }

  function Four(b0: int, b1: int, b2: int, b3: int): int {
    b0 + 0x100 * b1 + 0x1_0000 * b2 + 0x100_0000 * b3
  }

  /** Four bytes as a little-endian word. */
  function Word(s: seq<Byte>, i: nat): (w: u32)
    requires i + 4 <= |s|
    ensures w as int == Four(At(s, i), At(s, i + 1), At(s, i + 2), At(s, i + 3))
  {
    Four(At(s, i), At(s, i + 1), At(s, i + 2), At(s, i + 3)) as u32
  }

  function Mask(x: u32, mask: u32): (r: u32)
    ensures r as int == And(x as nat, mask as nat)
  {
    AndBelow(x as nat, mask as nat);
    And(x as nat, mask as nat) as u32
  }

  lemma {:induction false} AndBelow(x: nat, m: nat)
    ensures And(x, m) <= m
  {
    if m > 0 {
      AndBelow(x / 2, m / 2);
    }
  }

  /** Limbs of the accumulator between blocks: only the second may exceed 26 bits, barely. */
  predicate Settled(h: Limbs) {
    h.l0 < 0x400_0000 && h.l1 < 0x400_0040 && h.l2 < 0x400_0000 && h.l3 < 0x400_0000 && h.l4 < 0x400_0000
  }

  predicate KeyLimbs(r: Limbs) {
    r.l0 < 0x400_0000 && r.l1 < 0x400_0000 && r.l2 < 0x400_0000 && r.l3 < 0x400_0000 && r.l4 < 0x10_0000
  }

  /** Limbs with a message block added in. */
  predicate Summed(a: Limbs) {
    a.l0 < 0x800_0040 && a.l1 < 0x800_0040 && a.l2 < 0x800_0040 && a.l3 < 0x800_0040 && a.l4 < 0x600_0000
  }

  // ------------------------------------------------------------- clamping

  predicate IsByte(b: int) {
    0 <= b < 256
  }

  lemma LimbR0(b0: int, b1: int, b2: int, b3: int)
    requires IsByte(b0) && IsByte(b1) && IsByte(b2) && IsByte(b3)
    ensures And(Four(b0, b1, b2, b3), 0x03ff_ffff) == Four(b0, b1, b2, b3 % 4)
  {
    hide And;
    var x := Four(b0, b1, b2, b3);
    QuotientRemainder(x, 0x400_0000, Four(b0, b1, b2, b3 % 4), b3 / 4);
    Mask26(x);
  }

  lemma LimbR1(b3: int, b4: int, b5: int, b6: int)
    requires IsByte(b3) && IsByte(b4) && IsByte(b5) && IsByte(b6)
    ensures And(Four(b3, b4, b5, b6) / 4, 0x03ff_ff03)
            == b3 / 4 % 4 + 0x100 * (b4 / 4) + 0x4000 * b5 + 0x40_0000 * (b6 % 16)
  {
    hide And;
    var low := b3 / 4 + 64 * (b4 % 4);
    var high := b4 / 4 + 64 * b5 + 0x4000 * b6;
    var x := low + 0x100 * high;
    QuotientRemainder(Four(b3, b4, b5, b6), 4, b3 % 4, x);
    QuotientRemainder(x, 0x100, low, high);
    QuotientRemainder(x, 4, b3 / 4 % 4, b3 / 4 / 4 + 16 * (b4 % 4) + 64 * high);
    QuotientRemainder(high, 0x4_0000, b4 / 4 + 64 * b5 + 0x4000 * (b6 % 16), b6 / 16);
    ClampMasks(x);
  }

  lemma LimbR2(b6: int, b7: int, b8: int, b9: int)
    requires IsByte(b6) && IsByte(b7) && IsByte(b8) && IsByte(b9)
    ensures And(Four(b6, b7, b8, b9) / 16, 0x03ff_c0ff)
            == b6 / 16 + 16 * (b7 % 16) + 0x4000 * (b8 / 4) + 0x10_0000 * (b9 % 64)
  {
    hide And;
    var lowest := b6 / 16 + 16 * (b7 % 16);
    var low := lowest + 0x100 * (b7 / 16) + 0x1000 * (b8 % 4);
    var high := b8 / 4 + 64 * b9;
    var x := low + 0x4000 * high;
    QuotientRemainder(Four(b6, b7, b8, b9), 16, b6 % 16, x);
    QuotientRemainder(x, 0x4000, low, high);
    QuotientRemainder(x, 0x100, lowest, b7 / 16 + 16 * (b8 % 4) + 64 * high);
    QuotientRemainder(high, 0x1000, b8 / 4 + 64 * (b9 % 64), b9 / 64);
    ClampMasks(x);
  }

  lemma WordR3(b9: int, b10: int, b11: int, b12: int)
    requires IsByte(b9) && IsByte(b10) && IsByte(b11) && IsByte(b12)
    ensures Four(b9, b10, b11, b12) / 64 == b9 / 64 + 4 * b10 + 0x400 * b11 + 0x4_0000 * b12
  {
    QuotientRemainder(Four(b9, b10, b11, b12), 64, b9 % 64, b9 / 64 + 4 * b10 + 0x400 * b11 + 0x4_0000 * b12);
  }

  lemma LimbR3(b9: int, b10: int, b11: int, b12: int)
    requires IsByte(b9) && IsByte(b10) && IsByte(b11) && IsByte(b12)
    ensures And(Four(b9, b10, b11, b12) / 64, 0x03f0_3fff)
            == b9 / 64 + 4 * b10 + 0x400 * (b11 % 16) + 0x10_0000 * (b12 / 4)
  {
    hide And;
    var lowest := b9 / 64 + 4 * b10 + 0x400 * (b11 % 16);
    var low := lowest + 0x4000 * (b11 / 16) + 0x4_0000 * (b12 % 4);
    var x := low + 0x10_0000 * (b12 / 4);
    WordR3(b9, b10, b11, b12);
    QuotientRemainder(x, 0x10_0000, low, b12 / 4);
    QuotientRemainder(x, 0x4000, lowest, b11 / 16 + 16 * (b12 % 4) + 64 * (b12 / 4));
    ClampMasks(x);
  }

  lemma LimbR4(b12: int, b13: int, b14: int, b15: int)
    requires IsByte(b12) && IsByte(b13) && IsByte(b14) && IsByte(b15)
    ensures And(Four(b12, b13, b14, b15) / 256, 0x000f_ffff) == b13 + 0x100 * b14 + 0x1_0000 * (b15 % 16)
  {
    hide And;
    var low := b13 + 0x100 * b14 + 0x1_0000 * (b15 % 16);
    var x := low + 0x10_0000 * (b15 / 16);
    QuotientRemainder(Four(b12, b13, b14, b15), 256, b12, x);
    QuotientRemainder(x, 0x10_0000, low, b15 / 16);
    Mask20(x);
  }

  lemma LimbsOfKey(key: Key)
    ensures var r := ClampedLimbs(key);
            && r.l0 as int == Four(At(key, 0), At(key, 1), At(key, 2), At(key, 3) % 4)
            && r.l1 as int == At(key, 3) / 4 % 4 + 0x100 * (At(key, 4) / 4) + 0x4000 * At(key, 5)
                              + 0x40_0000 * (At(key, 6) % 16)
            && r.l2 as int == At(key, 6) / 16 + 16 * (At(key, 7) % 16) + 0x4000 * (At(key, 8) / 4)
                              + 0x10_0000 * (At(key, 9) % 64)
            && r.l3 as int == At(key, 9) / 64 + 4 * At(key, 10) + 0x400 * (At(key, 11) % 16)
                              + 0x10_0000 * (At(key, 12) / 4)
            && r.l4 as int == At(key, 13) + 0x100 * At(key, 14) + 0x1_0000 * (At(key, 15) % 16)
  {
    hide And, Word, At, Four;
    LimbR0(At(key, 0), At(key, 1), At(key, 2), At(key, 3));
    LimbR1(At(key, 3), At(key, 4), At(key, 5), At(key, 6));
    LimbR2(At(key, 6), At(key, 7), At(key, 8), At(key, 9));
    LimbR3(At(key, 9), At(key, 10), At(key, 11), At(key, 12));
    LimbR4(At(key, 12), At(key, 13), At(key, 14), At(key, 15));
  }

  lemma Nibble(b: int)
    requires IsByte(b)
    ensures b % 16 == b % 4 + 4 * (b / 4 % 4)
  {
    QuotientRemainder(b, 16, b % 4 + 4 * (b / 4 % 4), b / 4 / 4);
  }

  /** The clamped key's limbs hold the clamped key. */
  lemma ClampExact(key: Key)
    ensures var r := ClampedLimbs(key); KeyLimbs(r) && r.Value() == LittleEndian(Clamped(key))
  {
    hide LittleEndian, ClampedLimbs, At, Sum16;
    LimbsOfKey(key);
    ClampedNumber(key);
    ClampedSum(key);
    Nibble(At(key, 3));
  }

  function ClampedLimbs(key: Key): Limbs {
    Limbs(Mask(Word(key, 0), 0x03ff_ffff), Mask(Word(key, 3) / 4, 0x03ff_ff03),
          Mask(Word(key, 6) / 16, 0x03ff_c0ff), Mask(Word(key, 9) / 64, 0x03f0_3fff),
          Mask(Word(key, 12) / 256, 0x000f_ffff))
  }

  lemma ClampedSum(key: Key)
    ensures Sum16(Clamped(key)) ==
            Four(At(key, 0), At(key, 1), At(key, 2), At(key, 3) % 16)
            + 0x1_0000_0000 * Four(At(key, 4) / 4 * 4, At(key, 5), At(key, 6), At(key, 7) % 16)
            + 0x1_0000_0000_0000_0000 * Four(At(key, 8) / 4 * 4, At(key, 9), At(key, 10), At(key, 11) % 16)
            + 0x1_0000_0000_0000_0000_0000_0000 * Four(At(key, 12) / 4 * 4, At(key, 13), At(key, 14), At(key, 15) % 16)
  {
  }

  /** Sixteen bytes as a sum. */
  function Sum16(s: seq<Byte>): int
    requires |s| == 16
  {
    Sum4(s, 0) + 0x1_0000_0000 * Sum4(s, 4) + 0x1_0000_0000_0000_0000 * Sum4(s, 8)
    + 0x1_0000_0000_0000_0000_0000_0000 * Sum4(s, 12)
  }

  function Sum4(s: seq<Byte>, i: nat): int
    requires i + 4 <= |s|
  {
    Four(At(s, i), At(s, i + 1), At(s, i + 2), At(s, i + 3))
  }

  lemma FirstFour(s: seq<Byte>)
    requires |s| >= 4
    ensures LittleEndian(s) == Sum4(s, 0) + 0x1_0000_0000 * LittleEndian(s[4..])
  {
    assert s[1..][1..] == s[2..] && s[2..][1..] == s[3..] && s[3..][1..] == s[4..];
    assert LittleEndian(s) == At(s, 0) + 256 * LittleEndian(s[1..]);
    assert LittleEndian(s[1..]) == At(s, 1) + 256 * LittleEndian(s[2..]);
    assert LittleEndian(s[2..]) == At(s, 2) + 256 * LittleEndian(s[3..]);
    assert LittleEndian(s[3..]) == At(s, 3) + 256 * LittleEndian(s[4..]);
  }

  /** A number from sixteen bytes and whatever follows. */
  lemma Sixteen(s: seq<Byte>)
    requires |s| >= 16
    ensures LittleEndian(s) == Sum16(s[..16]) + POW128 * LittleEndian(s[16..])
  {
    hide LittleEndian;
    assert s[4..][4..] == s[8..] && s[8..][4..] == s[12..] && s[12..][4..] == s[16..];
    FirstFour(s);
    FirstFour(s[4..]);
    FirstFour(s[8..]);
    FirstFour(s[12..]);
  }

  lemma ClampedNumber(key: Key)
    ensures LittleEndian(Clamped(key)) == Sum16(Clamped(key))
  {
    var s := Clamped(key);
    Sixteen(s);
    assert s[..16] == s && s[16..] == [];
  }

  // ---------------------------------------------------------- one block

  /** The limbs of a block, with the bit above it. */
  function BlockLimbs(m: seq<Byte>, hibit: u32): Limbs
    requires |m| == 16 && (hibit == 0 || hibit == 0x100_0000)
  {
    Limbs(Mask(Word(m, 0), 0x03ff_ffff), Mask(Word(m, 3) / 4, 0x03ff_ffff),
          Mask(Word(m, 6) / 16, 0x03ff_ffff), Mask(Word(m, 9) / 64, 0x03ff_ffff),
          WithHighBit(Word(m, 12) / 256, hibit))
  }

  lemma OrHighBit(x: nat, hibit: nat)
    requires x < 0x100_0000 && (hibit == 0 || hibit == 0x100_0000)
    ensures Or(x, hibit) == x + hibit
  {
    hide Or, Pow2;
    Constants();
    if hibit == 0 {
      OrDisjoint(x, 0, 24);
    } else {
      OrDisjoint(x, 1, 24);
    }
  }

  function WithHighBit(x: u32, hibit: u32): (r: u32)
    requires x < 0x100_0000 && (hibit == 0 || hibit == 0x100_0000)
    ensures r == x + hibit
  {
    OrHighBit(x as nat, hibit as nat);
    Or(x as nat, hibit as nat) as u32
  }

  lemma BlockLimb1(b0: int, b1: int, b2: int, b3: int)
    requires IsByte(b0) && IsByte(b1) && IsByte(b2) && IsByte(b3)
    ensures And(Four(b0, b1, b2, b3) / 4, 0x03ff_ffff) == b0 / 4 + 64 * b1 + 0x4000 * b2 + 0x40_0000 * (b3 % 16)
  {
    hide And;
    var low := b0 / 4 + 64 * b1 + 0x4000 * b2 + 0x40_0000 * (b3 % 16);
    var x := low + 0x400_0000 * (b3 / 16);
    QuotientRemainder(Four(b0, b1, b2, b3), 4, b0 % 4, x);
    QuotientRemainder(x, 0x400_0000, low, b3 / 16);
    Mask26(x);
  }

  lemma BlockLimb2(b0: int, b1: int, b2: int, b3: int)
    requires IsByte(b0) && IsByte(b1) && IsByte(b2) && IsByte(b3)
    ensures And(Four(b0, b1, b2, b3) / 16, 0x03ff_ffff) == b0 / 16 + 16 * b1 + 0x1000 * b2 + 0x10_0000 * (b3 % 64)
  {
    hide And;
    var low := b0 / 16 + 16 * b1 + 0x1000 * b2 + 0x10_0000 * (b3 % 64);
    var x := low + 0x400_0000 * (b3 / 64);
    QuotientRemainder(Four(b0, b1, b2, b3), 16, b0 % 16, x);
    QuotientRemainder(x, 0x400_0000, low, b3 / 64);
    Mask26(x);
  }

  lemma BlockLimb3(b0: int, b1: int, b2: int, b3: int)
    requires IsByte(b0) && IsByte(b1) && IsByte(b2) && IsByte(b3)
    ensures And(Four(b0, b1, b2, b3) / 64, 0x03ff_ffff) == b0 / 64 + 4 * b1 + 0x400 * b2 + 0x4_0000 * b3
  {
    hide And;
    var low := b0 / 64 + 4 * b1 + 0x400 * b2 + 0x4_0000 * b3;
    var x := low;
    QuotientRemainder(Four(b0, b1, b2, b3), 64, b0 % 64, x);
    QuotientRemainder(x, 0x400_0000, low, 0);
    Mask26(x);
  }

  lemma LimbsOfBlock(m: seq<Byte>, hibit: u32)
    requires |m| == 16 && (hibit == 0 || hibit == 0x100_0000)
    ensures var l := BlockLimbs(m, hibit);
            && l.l0 as int == Four(At(m, 0), At(m, 1), At(m, 2), At(m, 3) % 4)
            && l.l1 as int == At(m, 3) / 4 + 64 * At(m, 4) + 0x4000 * At(m, 5) + 0x40_0000 * (At(m, 6) % 16)
            && l.l2 as int == At(m, 6) / 16 + 16 * At(m, 7) + 0x1000 * At(m, 8) + 0x10_0000 * (At(m, 9) % 64)
            && l.l3 as int == At(m, 9) / 64 + 4 * At(m, 10) + 0x400 * At(m, 11) + 0x4_0000 * At(m, 12)
            && l.l4 as int == At(m, 13) + 0x100 * At(m, 14) + 0x1_0000 * At(m, 15) + hibit as int
  {
    hide And, At, Word, Four;
    LimbR0(At(m, 0), At(m, 1), At(m, 2), At(m, 3));
    BlockLimb1(At(m, 3), At(m, 4), At(m, 5), At(m, 6));
    BlockLimb2(At(m, 6), At(m, 7), At(m, 8), At(m, 9));
    BlockLimb3(At(m, 9), At(m, 10), At(m, 11), At(m, 12));
    TopLimb(At(m, 12), At(m, 13), At(m, 14), At(m, 15));
  }

  lemma TopLimb(b12: int, b13: int, b14: int, b15: int)
    requires IsByte(b12) && IsByte(b13) && IsByte(b14) && IsByte(b15)
    ensures Four(b12, b13, b14, b15) / 256 == b13 + 0x100 * b14 + 0x1_0000 * b15
  {
    QuotientRemainder(Four(b12, b13, b14, b15), 256, b12, b13 + 0x100 * b14 + 0x1_0000 * b15);
  }

  lemma BlockExact(m: seq<Byte>, hibit: u32)
    requires |m| == 16 && (hibit == 0 || hibit == 0x100_0000)
    ensures var l := BlockLimbs(m, hibit);
            && l.l0 < 0x400_0000 && l.l1 < 0x400_0000 && l.l2 < 0x400_0000 && l.l3 < 0x400_0000
            && l.l4 < 0x200_0000
            && l.Value() == Sum16(m) + B4 * (hibit as int)
  {
    hide At, BlockLimbs;
    LimbsOfBlock(m, hibit);
  }

  function Plus(h: Limbs, m: Limbs): (a: Limbs)
    requires Settled(h)
    requires m.l0 < 0x400_0000 && m.l1 < 0x400_0000 && m.l2 < 0x400_0000 && m.l3 < 0x400_0000 && m.l4 < 0x200_0000
    ensures Summed(a) && a.Value() == h.Value() + m.Value()
  {
    Limbs(h.l0 + m.l0, h.l1 + m.l1, h.l2 + m.l2, h.l3 + m.l3, h.l4 + m.l4)
  }

  datatype Wide = Wide(d0: u64, d1: u64, d2: u64, d3: u64, d4: u64) {
    function Value(): int {
      V(d0 as int, d1 as int, d2 as int, d3 as int, d4 as int)
    }
  }

  /** The bounds the carries need. */
  predicate Carriable(d: Wide) {
    && d.d0 < 0x200_0000_0000_0000 && d.d1 < 0x200_0000_0000_0000 && d.d2 < 0x200_0000_0000_0000
    && d.d3 < 0x200_0000_0000_0000 && d.d4 < 0x80_0000_0000_0000
  }

  lemma ProductBelow(a: nat, b: nat, x: nat, y: nat)
    requires a <= x && b <= y
    ensures 0 <= a * b <= x * y
  {
    MulMonotone(a, b, y);
    MulMonotone(y, a, x);
  }

  function Mul(a: u32, b: u32): (p: u64)
    ensures p as int == a as int * b as int
  {
    ProductBelow(a as nat, b as nat, 0xffff_ffff, 0xffff_ffff);
    (a as int * b as int) as u64
  }

  /** The product of two five-limb numbers, folded at 2^130. */
  lemma Product(h0: int, h1: int, h2: int, h3: int, h4: int, r0: int, r1: int, r2: int, r3: int, r4: int)
    ensures V(h0, h1, h2, h3, h4) * V(r0, r1, r2, r3, r4) ==
            V(h0 * r0 + h1 * (5 * r4) + h2 * (5 * r3) + h3 * (5 * r2) + h4 * (5 * r1),
              h0 * r1 + h1 * r0 + h2 * (5 * r4) + h3 * (5 * r3) + h4 * (5 * r2),
              h0 * r2 + h1 * r1 + h2 * r0 + h3 * (5 * r4) + h4 * (5 * r3),
              h0 * r3 + h1 * r2 + h2 * r1 + h3 * r0 + h4 * (5 * r4),
              h0 * r4 + h1 * r3 + h2 * r2 + h3 * r1 + h4 * r0)
            + P * V(h1 * r4 + h2 * r3 + h3 * r2 + h4 * r1, h2 * r4 + h3 * r3 + h4 * r2, h3 * r4 + h4 * r3, h4 * r4, 0)
  {
  }

  lemma ModShift(x: int, k: int)
    ensures (x + P * k) % P == x % P
  {
    var q := (x + P * k) / P - x / P - k;
    assert P * q == x % P - (x + P * k) % P;
    SmallMultiple(P, q);
  }

  /** Each product of the sum, bounded. */
  lemma Products(a: Limbs, r: Limbs)
    requires Summed(a) && KeyLimbs(r)
    ensures forall x: u32, y: u32 ::
              (x < 0x800_0040 && y < 0x400_0000 ==> Mul(x, y) <= 0x20_0001_0000_0000) &&
              (x < 0x800_0040 && y < 0x1400_0000 ==> Mul(x, y) <= 0xA0_0005_0000_0000) &&
              (x < 0x800_0040 && y < 0x10_0000 ==> Mul(x, y) <= 0x8000_4000_0000) &&
              (x < 0x600_0000 && y < 0x1400_0000 ==> Mul(x, y) <= 0x78_0000_0000_0000) &&
              (x < 0x600_0000 && y < 0x400_0000 ==> Mul(x, y) <= 0x18_0000_0000_0000)
  {
    forall x: u32, y: u32
      ensures
              (x < 0x800_0040 && y < 0x400_0000 ==> Mul(x, y) <= 0x20_0001_0000_0000) &&
              (x < 0x800_0040 && y < 0x1400_0000 ==> Mul(x, y) <= 0xA0_0005_0000_0000) &&
              (x < 0x800_0040 && y < 0x10_0000 ==> Mul(x, y) <= 0x8000_4000_0000) &&
              (x < 0x600_0000 && y < 0x1400_0000 ==> Mul(x, y) <= 0x78_0000_0000_0000) &&
              (x < 0x600_0000 && y < 0x400_0000 ==> Mul(x, y) <= 0x18_0000_0000_0000)
    {
      if x < 0x800_0040 && y < 0x1400_0000 { ProductBelow(x as nat, y as nat, 0x800_0040, 0x1400_0000); }
      if x < 0x800_0040 && y < 0x400_0000 { ProductBelow(x as nat, y as nat, 0x800_0040, 0x400_0000); }
      if x < 0x800_0040 && y < 0x10_0000 { ProductBelow(x as nat, y as nat, 0x800_0040, 0x10_0000); }
      if x < 0x600_0000 && y < 0x1400_0000 { ProductBelow(x as nat, y as nat, 0x600_0000, 0x1400_0000); }
      if x < 0x600_0000 && y < 0x400_0000 { ProductBelow(x as nat, y as nat, 0x600_0000, 0x400_0000); }
    }
  }

  method Multiply(a: Limbs, r: Limbs) returns (d: Wide)
    requires Summed(a) && KeyLimbs(r)
    ensures Carriable(d)
    ensures d.Value() % P == a.Value() * r.Value() % P
  {
    hide Mul;
    var Limbs(h0, h1, h2, h3, h4) := a;
    var Limbs(r0, r1, r2, r3, r4) := r;
    var s1, s2, s3, s4 := r1 * 5, r2 * 5, r3 * 5, r4 * 5;
    Products(a, r);
    var d0 := Mul(h0, r0) + Mul(h1, s4) + Mul(h2, s3) + Mul(h3, s2) + Mul(h4, s1);
    var d1 := Mul(h0, r1) + Mul(h1, r0) + Mul(h2, s4) + Mul(h3, s3) + Mul(h4, s2);
    var d2 := Mul(h0, r2) + Mul(h1, r1) + Mul(h2, r0) + Mul(h3, s4) + Mul(h4, s3);
    var d3 := Mul(h0, r3) + Mul(h1, r2) + Mul(h2, r1) + Mul(h3, r0) + Mul(h4, s4);
    var d4 := Mul(h0, r4) + Mul(h1, r3) + Mul(h2, r2) + Mul(h3, r1) + Mul(h4, r0);
    d := Wide(d0, d1, d2, d3, d4);
    Folded(a, r, d);
  }

  lemma Folded(a: Limbs, r: Limbs, d: Wide)
    requires KeyLimbs(r)
    requires d.d0 as int == a.l0 as int * r.l0 as int + a.l1 as int * (5 * r.l4 as int) + a.l2 as int * (5 * r.l3 as int)
                            + a.l3 as int * (5 * r.l2 as int) + a.l4 as int * (5 * r.l1 as int)
    requires d.d1 as int == a.l0 as int * r.l1 as int + a.l1 as int * r.l0 as int + a.l2 as int * (5 * r.l4 as int)
                            + a.l3 as int * (5 * r.l3 as int) + a.l4 as int * (5 * r.l2 as int)
    requires d.d2 as int == a.l0 as int * r.l2 as int + a.l1 as int * r.l1 as int + a.l2 as int * r.l0 as int
                            + a.l3 as int * (5 * r.l4 as int) + a.l4 as int * (5 * r.l3 as int)
    requires d.d3 as int == a.l0 as int * r.l3 as int + a.l1 as int * r.l2 as int + a.l2 as int * r.l1 as int
                            + a.l3 as int * r.l0 as int + a.l4 as int * (5 * r.l4 as int)
    requires d.d4 as int == a.l0 as int * r.l4 as int + a.l1 as int * r.l3 as int + a.l2 as int * r.l2 as int
                            + a.l3 as int * r.l1 as int + a.l4 as int * r.l0 as int
    ensures d.Value() % P == a.Value() * r.Value() % P
  {
    hide V;
    var h0, h1, h2, h3, h4 := a.l0 as int, a.l1 as int, a.l2 as int, a.l3 as int, a.l4 as int;
    var r0, r1, r2, r3, r4 := r.l0 as int, r.l1 as int, r.l2 as int, r.l3 as int, r.l4 as int;
    Product(h0, h1, h2, h3, h4, r0, r1, r2, r3, r4);
    ModShift(d.Value(),
             V(h1 * r4 + h2 * r3 + h3 * r2 + h4 * r1, h2 * r4 + h3 * r3 + h4 * r2, h3 * r4 + h4 * r3, h4 * r4, 0));
  }

  /** Partial carry propagation. */
  method Carry(d: Wide) returns (h: Limbs)
    requires Carriable(d)
    ensures Settled(h)
    ensures h.Value() % P == d.Value() % P
  {
    var c0 := d.d0 / 0x400_0000;
    var h0 := d.d0 % 0x400_0000;
    var d1 := d.d1 + c0;
    var c1 := d1 / 0x400_0000;
    var h1 := d1 % 0x400_0000;
    var d2 := d.d2 + c1;
    var c2 := d2 / 0x400_0000;
    var h2 := d2 % 0x400_0000;
    var d3 := d.d3 + c2;
    var c3 := d3 / 0x400_0000;
    var h3 := d3 % 0x400_0000;
    var d4 := d.d4 + c3;
    var c4 := d4 / 0x400_0000;
    var h4 := d4 % 0x400_0000;
    var x0 := h0 as u32 + (c4 as u32) * 5;
    var c := x0 / 0x400_0000;
    h := Limbs(x0 % 0x400_0000, h1 as u32 + c, h2 as u32, h3 as u32, h4 as u32);
    assert d.Value() == h.Value() + P * (c4 as int);
    ModShift(h.Value(), c4 as int);
  }

  /** h := (h + m) * r, up to a multiple of P. */
  method Block(r: Limbs, h: Limbs, m: seq<Byte>, hibit: u32) returns (next: Limbs)
    requires KeyLimbs(r) && Settled(h)
    requires |m| == 16 && (hibit == 0 || hibit == 0x100_0000)
    ensures Settled(next)
    ensures next.Value() % P == (h.Value() + Sum16(m) + B4 * (hibit as int)) * r.Value() % P
  {
    hide V, BlockLimbs, Sum16;
    BlockExact(m, hibit);
    var a := Plus(h, BlockLimbs(m, hibit));
    var d := Multiply(a, r);
    next := Carry(d);
  }

  // ------------------------------------------------- the running polynomial

  ghost function KeyNumber(key: Key): nat {
    LittleEndian(Clamped(key))
  }

  /** `h` stands for the polynomial after `k` blocks of `msg`. */
  ghost predicate Absorbed(key: Key, h: Limbs, msg: seq<Byte>, k: nat) {
    && Settled(h) && (k > 0 ==> 16 * (k - 1) <= |msg|)
    && h.Value() % P == Accumulate(KeyNumber(key), msg, k) % P
  }

  lemma SameResidue(x: int, y: int, m: int, r: int)
    requires x % P == y % P
    ensures (x + m) * r % P == (y + m) * r % P
  {
    var k := x / P - y / P;
    assert x == y + P * k;
    assert (x + m) * r == (y + m) * r + P * (k * r);
    ModShift((y + m) * r, k * r);
  }

  lemma ResidueTwice(x: int)
    ensures x % P % P == x % P
  {
  }

  lemma AbsorbStep(key: Key, h: Limbs, next: Limbs, msg: seq<Byte>, k: nat, number: int)
    requires Absorbed(key, h, msg, k) && 16 * k <= |msg| && Settled(next)
    requires number == BlockNumber(msg, k)
    requires next.Value() % P == (h.Value() + number) * KeyNumber(key) % P
    ensures Absorbed(key, next, msg, k + 1)
  {
    hide V, KeyNumber, BlockNumber;
    var r := KeyNumber(key);
    var acc := Accumulate(r, msg, k);
    SameResidue(h.Value(), acc, number, r);
    ResidueTwice((acc + number) * r);
    assert Accumulate(r, msg, k + 1) == (acc + number) * r % P;
  }

  /** A whole block is its sixteen bytes and the bit above them. */
  lemma WholeBlock(msg: seq<Byte>, k: nat)
    requires 16 * k + 16 <= |msg|
    ensures BlockNumber(msg, k) == Sum16(msg[16 * k..16 * k + 16]) + B4 * 0x100_0000
  {
    hide Sum16;
    var chunk := msg[16 * k..16 * k + 16];
    Sixteen(chunk + [1]);
    assert (chunk + [1])[..16] == chunk && (chunk + [1])[16..] == [1];
    assert LittleEndian([1]) == 1;
  }

  lemma {:induction false} TrailingZeros(s: seq<Byte>, n: nat)
    ensures LittleEndian(s + seq(n, _ => 0)) == LittleEndian(s)
    decreases |s| + n
  {
    var t: seq<Byte> := s + seq(n, _ => 0);
    if s != [] {
      assert t[1..] == s[1..] + seq(n, _ => 0);
      TrailingZeros(s[1..], n);
    } else if n > 0 {
      assert t[1..] == [] + seq(n - 1, _ => 0);
      TrailingZeros([], n - 1);
    }
  }

  /** The padded last block is the one the definition takes. */
  lemma LastBlock(msg: seq<Byte>, k: nat, block: seq<Byte>)
    requires 16 * k < |msg| < 16 * k + 16
    requires block == msg[16 * k..] + [1] + seq(15 - (|msg| - 16 * k), _ => 0)
    ensures |block| == 16 && BlockNumber(msg, k) == Sum16(block)
  {
    hide Sum16;
    var chunk := msg[16 * k..] + [1];
    TrailingZeros(chunk, 15 - (|msg| - 16 * k));
    Sixteen(block);
    assert block[..16] == block && block[16..] == [];
    assert msg[16 * k..Min(16 * k + 16, |msg|)] == msg[16 * k..];
    assert block == chunk + seq(15 - (|msg| - 16 * k), _ => 0);
  }

  lemma BlockPrefix(msg: seq<Byte>, more: seq<Byte>, k: nat)
    requires 16 * k + 16 <= |msg|
    ensures BlockNumber(msg + more, k) == BlockNumber(msg, k)
  {
    assert (msg + more)[16 * k..16 * k + 16] == msg[16 * k..16 * k + 16];
  }

  lemma {:induction false} AccumulatePrefix(r: nat, msg: seq<Byte>, more: seq<Byte>, k: nat)
    requires 16 * k <= |msg|
    ensures Accumulate(r, msg + more, k) == Accumulate(r, msg, k)
  {
    hide BlockNumber;
    if k > 0 {
      AccumulatePrefix(r, msg, more, k - 1);
      BlockPrefix(msg, more, k - 1);
    }
  }

  // ------------------------------------------------------- the final steps

  predicate Reduced(h: Limbs) {
    h.l0 < 0x400_0000 && h.l1 < 0x400_0000 && h.l2 < 0x400_0000 && h.l3 < 0x400_0000 && h.l4 < 0x400_0000
  }

  /** Full carry. A carry out of the top limb leaves the second one small, so
      the last carry into it cannot overflow it. */
  method FullCarry(h: Limbs) returns (g: Limbs)
    requires Settled(h)
    ensures Reduced(g) && g.Value() % P == h.Value() % P
  {
    var c1 := h.l1 / 0x400_0000;
    var h1 := h.l1 % 0x400_0000;
    var x2 := h.l2 + c1;
    var c2 := x2 / 0x400_0000;
    var h2 := x2 % 0x400_0000;
    var x3 := h.l3 + c2;
    var c3 := x3 / 0x400_0000;
    var h3 := x3 % 0x400_0000;
    var x4 := h.l4 + c3;
    var c4 := x4 / 0x400_0000;
    var h4 := x4 % 0x400_0000;
    assert c1 <= 1 && c2 <= c1 && c3 <= c2 && c4 <= c3;
    var x0 := h.l0 + c4 * 5;
    var c0 := x0 / 0x400_0000;
    assert c0 <= c4;
    g := Limbs(x0 % 0x400_0000, h1 + c0, h2, h3, h4);
    assert c4 == 1 ==> h1 < 0x40;
    assert h.Value() == g.Value() + P * (c4 as int);
    ModShift(g.Value(), c4 as int);
  }

  /** Subtract P once if that does not go below zero. */
  method FinalSubtraction(h: Limbs) returns (g: Limbs)
    requires Reduced(h)
    ensures Reduced(g) && g.Value() == h.Value() % P
  {
    var x0 := h.l0 + 5;
    var c0 := x0 / 0x400_0000;
    var g0 := x0 % 0x400_0000;
    var x1 := h.l1 + c0;
    var c1 := x1 / 0x400_0000;
    var g1 := x1 % 0x400_0000;
    var x2 := h.l2 + c1;
    var c2 := x2 / 0x400_0000;
    var g2 := x2 % 0x400_0000;
    var x3 := h.l3 + c2;
    var c3 := x3 / 0x400_0000;
    var g3 := x3 % 0x400_0000;
    var g4 := WrappingSub(h.l4 + c3, 0x400_0000);
    ghost var sum := V(g0 as int, g1 as int, g2 as int, g3 as int, (h.l4 + c3) as int);
    assert sum == h.Value() + 5;
    if g4 / 0x8000_0000 == 1 {
      g := h;
      assert h.Value() < P;
      QuotientRemainder(h.Value(), P, g.Value(), 0);
    } else {
      g := Limbs(g0, g1, g2, g3, g4);
      assert h.Value() == g.Value() + P;
      QuotientRemainder(h.Value(), P, g.Value(), 1);
    }
  }

  function WrappingSub(a: u32, b: u32): (r: u32)
    requires a < 0x800_0000 && b == 0x400_0000
    ensures if a < b then r >= 0x8000_0000 else r == a - b
  {
    ((a as int - b as int) % 0x1_0000_0000) as u32
  }

  function ShiftLeft(a: u32, p: int): u32
    requires p > 0
  {
    (a as int * p % 0x1_0000_0000) as u32
  }

  /** The low bits of one limb above the rest of the one below. */
  function Join(low: u32, high: u32, k: nat, p: int): (r: u32)
    requires p == Pow2(k) && 0 < p < 0x1_0000_0000 && low as int < p && 0x1_0000_0000 % p == 0
    ensures r as int == low as int + high as int * p % 0x1_0000_0000
  {
    ShiftedMultiple(high as int, p);
    OrDisjoint(low as nat, ShiftLeft(high, p) as nat / p, k);
    Or(low as nat, ShiftLeft(high, p) as nat) as u32
  }

  /** A truncated left shift is still a multiple, with room below the top. */
  lemma ShiftedMultiple(x: nat, p: int)
    requires 0 < p < 0x1_0000_0000 && 0x1_0000_0000 % p == 0
    ensures var y := x * p % 0x1_0000_0000; y == p * (y / p) && y <= 0x1_0000_0000 - p
  {
    var whole := 0x1_0000_0000 / p;
    var q := x * p / 0x1_0000_0000;
    var y := x * p % 0x1_0000_0000;
    assert 0x1_0000_0000 == p * whole;
    assert y == p * (x - whole * q) by {
      assert x * p == 0x1_0000_0000 * q + y;
      assert p * (whole * q) == (p * whole) * q;
      assert p * (x - whole * q) == p * x - p * (whole * q);
    }
    QuotientRemainder(y, p, 0, x - whole * q);
    if y > 0x1_0000_0000 - p {
      MultiplesApart(p, y / p, whole);
    }
  }

  lemma MultiplesApart(p: int, a: int, b: int)
    requires p > 0 && p * a < p * b
    ensures p * a <= p * b - p
  {
    if a >= b {
      MulMonotone(p, b, a);
    } else {
      MulMonotone(p, a, b - 1);
    }
  }

  /** Repack five 26-bit limbs into four 32-bit words, dropping what is above. */
  method Words(h: Limbs) returns (w0: u32, w1: u32, w2: u32, w3: u32)
    requires Reduced(h)
    ensures FourWords(w0, w1, w2, w3) == h.Value() % POW128
  {
    hide Or, Pow2;
    Constants();
    w0 := Join(h.l0, h.l1, 26, 0x400_0000);
    w1 := Join(h.l1 / 64, h.l2, 20, 0x10_0000);
    w2 := Join(h.l2 / 0x1000, h.l3, 14, 0x4000);
    w3 := Join(h.l3 / 0x4_0000, h.l4, 8, 0x100);
    Repacked(h, w0 as int, w1 as int, w2 as int, w3 as int);
  }

  function FourWords(w0: u32, w1: u32, w2: u32, w3: u32): (r: nat) {
    w0 as int + 0x1_0000_0000 * (w1 as int) + 0x1_0000_0000_0000_0000 * (w2 as int)
    + 0x1_0000_0000_0000_0000_0000_0000 * (w3 as int)
  }

  lemma Distribute(r: int, t: int, p: int, q: int)
    ensures (r + q * t) * p == r * p + (p * q) * t
  {
  }

  lemma Truncated(x: nat, p: int, q: int)
    requires p > 0 && q > 0 && p * q == 0x1_0000_0000
    ensures x * p % 0x1_0000_0000 == x % q * p
  {
    Distribute(x % q, x / q, p, q);
    assert x == x % q + q * (x / q);
    MulMonotone(p, x % q, q - 1);
    QuotientRemainder(x * p, 0x1_0000_0000, (x % q) * p, x / q);
  }

  lemma Repacked(h: Limbs, w0: int, w1: int, w2: int, w3: int)
    requires Reduced(h)
    requires w0 == h.l0 as int + h.l1 as int * 0x400_0000 % 0x1_0000_0000
    requires w1 == h.l1 as int / 64 + h.l2 as int * 0x10_0000 % 0x1_0000_0000
    requires w2 == h.l2 as int / 0x1000 + h.l3 as int * 0x4000 % 0x1_0000_0000
    requires w3 == h.l3 as int / 0x4_0000 + h.l4 as int * 0x100 % 0x1_0000_0000
    ensures w0 + 0x1_0000_0000 * w1 + 0x1_0000_0000_0000_0000 * w2 + 0x1_0000_0000_0000_0000_0000_0000 * w3
            == h.Value() % POW128
  {
    Truncated(h.l1 as nat, 0x400_0000, 64);
    Truncated(h.l2 as nat, 0x10_0000, 0x1000);
    Truncated(h.l3 as nat, 0x4000, 0x4_0000);
    Truncated(h.l4 as nat, 0x100, 0x100_0000);
    var total := w0 + 0x1_0000_0000 * w1 + 0x1_0000_0000_0000_0000 * w2 + 0x1_0000_0000_0000_0000_0000_0000 * w3;
    assert h.Value() == total + POW128 * (h.l4 as int / 0x100_0000);
    QuotientRemainder(h.Value(), POW128, total, h.l4 as int / 0x100_0000);
  }

  /** Word-wise addition of the pad, modulo 2^128. */
  method AddPad(w0: u32, w1: u32, w2: u32, w3: u32, pad: seq<u32>) returns (t0: u32, t1: u32, t2: u32, t3: u32)
    requires |pad| == 4
    ensures FourWords(t0, t1, t2, t3)
            == (FourWords(w0, w1, w2, w3) + FourWords(pad[0], pad[1], pad[2], pad[3])) % POW128
  {
    var f0 := w0 as u64 + pad[0] as u64;
    t0 := (f0 % 0x1_0000_0000) as u32;
    var f1 := w1 as u64 + pad[1] as u64 + f0 / 0x1_0000_0000;
    t1 := (f1 % 0x1_0000_0000) as u32;
    var f2 := w2 as u64 + pad[2] as u64 + f1 / 0x1_0000_0000;
    t2 := (f2 % 0x1_0000_0000) as u32;
    var f3 := w3 as u64 + pad[3] as u64 + f2 / 0x1_0000_0000;
    t3 := (f3 % 0x1_0000_0000) as u32;
    QuotientRemainder(FourWords(w0, w1, w2, w3) + FourWords(pad[0], pad[1], pad[2], pad[3]), POW128,
                      FourWords(t0, t1, t2, t3), (f3 / 0x1_0000_0000) as int);
  }

  lemma BytesOfWord(w: nat, rest: nat, n: nat)
    requires w < 0x1_0000_0000
    ensures ToLittleEndian(w + 0x1_0000_0000 * rest, n + 4) == ToLittleEndian(w, 4) + ToLittleEndian(rest, n)
  {
    var x := w + 0x1_0000_0000 * rest;
    hide ToLittleEndian;
    var w1, w2, w3 := w / 256, w / 256 / 256, w / 256 / 256 / 256;
    QuotientRemainder(x, 256, w % 256, w1 + 0x100_0000 * rest);
    QuotientRemainder(x / 256, 256, w1 % 256, w2 + 0x1_0000 * rest);
    QuotientRemainder(x / 256 / 256, 256, w2 % 256, w3 + 0x100 * rest);
    assert w3 < 256;
    QuotientRemainder(x / 256 / 256 / 256, 256, w3, rest);
    NoBytes(w / 256 / 256 / 256 / 256);
    FourBytes(x, n);
    FourBytes(w, 0);
  }

  lemma NoBytes(v: nat)
    ensures ToLittleEndian(v, 0) == []
  {
  }

  lemma FourBytes(x: nat, n: nat)
    ensures ToLittleEndian(x, n + 4) ==
            [x % 256, x / 256 % 256, x / 256 / 256 % 256, x / 256 / 256 / 256 % 256]
            + ToLittleEndian(x / 256 / 256 / 256 / 256, n)
  {
    assert ToLittleEndian(x, n + 4) == [x % 256] + ToLittleEndian(x / 256, n + 3);
    assert ToLittleEndian(x / 256, n + 3) == [x / 256 % 256] + ToLittleEndian(x / 256 / 256, n + 2);
    assert ToLittleEndian(x / 256 / 256, n + 2) == [x / 256 / 256 % 256] + ToLittleEndian(x / 256 / 256 / 256, n + 1);
  }

  lemma BytesOfWords(t0: u32, t1: u32, t2: u32, t3: u32)
    ensures ToLittleEndian(FourWords(t0, t1, t2, t3), 16) ==
            ToLittleEndian(t0 as nat, 4) + ToLittleEndian(t1 as nat, 4)
            + ToLittleEndian(t2 as nat, 4) + ToLittleEndian(t3 as nat, 4)
  {
    hide ToLittleEndian;
    var x3 := t3 as nat;
    var x2 := t2 as nat + 0x1_0000_0000 * x3;
    var x1 := t1 as nat + 0x1_0000_0000 * x2;
    BytesOfWord(t0 as nat, x1, 12);
    BytesOfWord(t1 as nat, x2, 8);
    BytesOfWord(t2 as nat, x3, 4);
  }

  /** The second half of the key, as four words. */
  lemma PadNumber(key: Key)
    ensures LittleEndian(key[16..]) == FourWords(Word(key, 16), Word(key, 20), Word(key, 24), Word(key, 28))
  {
    var s := key[16..];
    Sixteen(s);
    assert s[..16] == s && s[16..] == [];
    hide Four;
    assert Sum4(s, 0) == Word(key, 16) as int && Sum4(s, 4) == Word(key, 20) as int;
    assert Sum4(s, 8) == Word(key, 24) as int && Sum4(s, 12) == Word(key, 28) as int;
  }

  // ------------------------------------------------------ the authenticator

  /** The whole blocks of `msg`. */
  ghost function Whole(msg: seq<Byte>): (k: nat)
    ensures 16 * k <= |msg| < 16 * k + 16
  {
    |msg| / 16
  }

  /** Everything absorbed but the last `|msg| % 16` bytes, which are buffered. */
  ghost predicate InStep(key: Key, h: Limbs, msg: seq<Byte>, buffered: seq<Byte>) {
    && Absorbed(key, h, msg, Whole(msg))
    && buffered == msg[16 * Whole(msg)..]
  }

  lemma PrefixAbsorbed(key: Key, h: Limbs, msg: seq<Byte>, more: seq<Byte>, k: nat)
    requires Absorbed(key, h, msg, k) && 16 * k <= |msg|
    ensures Absorbed(key, h, msg + more, k)
  {
    AccumulatePrefix(KeyNumber(key), msg, more, k);
  }

  lemma Continued(msg: seq<Byte>, more: seq<Byte>, k: nat)
    requires 16 * k <= |msg|
    ensures msg[16 * k..] + more == (msg + more)[16 * k..]
  {
  }

  lemma CutBlock(msg: seq<Byte>, k: nat, block: seq<Byte>, rest: seq<Byte>)
    requires 16 * k <= |msg| && block + rest == msg[16 * k..] && |block| == 16
    ensures 16 * (k + 1) <= |msg| && block == msg[16 * k..16 * k + 16] && rest == msg[16 * (k + 1)..]
  {
    assert block == (block + rest)[..16] && rest == (block + rest)[16..];
  }

  class Authenticator {
    const r: Limbs
    const pad: seq<u32>
    var h: Limbs
    const buf: array<Byte>
    var bufLen: nat
    ghost const key: Key
    ghost var seen: seq<Byte>

    ghost predicate Valid()
      reads this, buf
    {
      && r == ClampedLimbs(key)
      && pad == [Word(key, 16), Word(key, 20), Word(key, 24), Word(key, 28)]
      && buf.Length == 16 && bufLen < 16
      && InStep(key, h, seen, buf[..bufLen])
    }

    constructor (k: Key)
      ensures Valid() && fresh(buf) && key == k && seen == []
    {
      key := k;
      seen := [];
      r := ClampedLimbs(k);
      pad := [Word(k, 16), Word(k, 20), Word(k, 24), Word(k, 28)];
      h := Limbs(0, 0, 0, 0, 0);
      buf := new Byte[16](_ => 0);
      bufLen := 0;
    }

    /** Absorb the whole block `k` of `msg`. */
    method AbsorbBlock(m: seq<Byte>, ghost msg: seq<Byte>, ghost k: nat)
      requires r == ClampedLimbs(key) && Absorbed(key, h, msg, k)
      requires 16 * k + 16 <= |msg| && m == msg[16 * k..16 * k + 16]
      modifies this`h
      ensures Absorbed(key, h, msg, k + 1)
    {
      hide Absorbed, V, Sum16, ClampedLimbs;
      ClampExact(key);
      AbsorbedSettled(key, h, msg, k);
      ghost var was := h;
      h := Block(r, h, m, 0x100_0000);
      WholeBlock(msg, k);
      AbsorbStep(key, was, h, msg, k, BlockNumber(msg, k));
    }

    /** Absorb the whole blocks of `data`, the rest of `msg` from block `k` on. */
    method AbsorbBlocks(data: seq<Byte>, ghost msg: seq<Byte>, ghost k: nat) returns (rest: seq<Byte>)
      requires r == ClampedLimbs(key) && Absorbed(key, h, msg, k)
      requires 16 * k <= |msg| && data == msg[16 * k..]
      modifies this`h
      ensures Absorbed(key, h, msg, Whole(msg)) && rest == msg[16 * Whole(msg)..]
    {
      hide Absorbed, ClampedLimbs, Whole;
      rest := data;
      ghost var n: nat := k;
      while |rest| >= 16
        modifies this`h
        invariant 16 * n <= |msg| && rest == msg[16 * n..]
        invariant Absorbed(key, h, msg, n)
      {
        AbsorbBlock(rest[..16], msg, n);
        rest := rest[16..];
        n := n + 1;
      }
    }

    /** Complete the buffered block `k` of `msg` from `data`; absorb it when full. */
    method TopUp(data: seq<Byte>, ghost msg: seq<Byte>, ghost k: nat) returns (full: bool, rest: seq<Byte>)
      requires r == ClampedLimbs(key) && Absorbed(key, h, msg, k)
      requires buf.Length == 16 && bufLen < 16 && 16 * k <= |msg| && buf[..bufLen] + data == msg[16 * k..]
      modifies this`h, this`bufLen, buf
      ensures full ==> bufLen == 0 && 16 * (k + 1) <= |msg| && rest == msg[16 * (k + 1)..] && Absorbed(key, h, msg, k + 1)
      ensures !full ==> bufLen < 16 && buf[..bufLen] == msg[16 * k..] && Absorbed(key, h, msg, k)
    {
      hide Absorbed, ClampedLimbs;
      var take := if |data| < 16 - bufLen then |data| else 16 - bufLen;
      ghost var before := buf[..bufLen];
      assert before + data == (before + data[..take]) + data[take..];
      Fill(data[..take]);
      rest := data[take..];
      full := bufLen == 16;
      if full {
        CutBlock(msg, k, buf[..], rest);
        AbsorbBlock(buf[..], msg, k);
        bufLen := 0;
      }
    }

    method Update(input: seq<Byte>)
      requires Valid()
      modifies this`h, this`bufLen, this`seen, buf
      ensures Valid() && seen == old(seen) + input
    {
      hide Absorbed, ClampedLimbs, Word, Whole;
      var data := input;
      ghost var all := seen + input;
      ghost var k := Whole(seen);
      PrefixAbsorbed(key, h, seen, input, k);
      Continued(seen, input, k);
      if bufLen > 0 {
        var full;
        full, data := TopUp(data, all, k);
        if !full {
          assert Whole(all) == k;
          seen := all;
          return;
        }
        k := k + 1;
      }
      data := AbsorbBlocks(data, all, k);
      Fill(data);
      seen := all;
    }

    /** Append to the buffer. */
    method Fill(part: seq<Byte>)
      requires buf.Length == 16 && bufLen + |part| <= 16
      modifies this`bufLen, buf
      ensures bufLen == old(bufLen) + |part|
      ensures buf[..bufLen] == old(buf[..bufLen]) + part
    {
      for i := 0 to |part|
        modifies buf
        invariant forall j | 0 <= j < bufLen :: buf[j] == old(buf[j])
        invariant forall j | 0 <= j < i :: buf[bufLen + j] == part[j]
      {
        buf[bufLen + i] := part[i];
      }
      bufLen := bufLen + |part|;
    }

    /** Absorb what is left in the buffer as the padded last block. */
    method AbsorbLast()
      requires Valid()
      modifies this`h
      ensures Absorbed(key, h, seen, BlockCount(seen))
    {
      hide Absorbed, ClampedLimbs, V, Word, Sum16, Whole;
      if bufLen > 0 {
        ghost var was, k := h, Whole(seen);
        var block := buf[..bufLen] + [1] + seq(15 - bufLen, _ => 0);
        LastBlock(seen, k, block);
        ClampExact(key);
        AbsorbedSettled(key, h, seen, k);
        h := Block(r, h, block, 0);
        AbsorbStep(key, was, h, seen, k, BlockNumber(seen, k));
      }
    }

    /** The tag of everything passed to `Update`. */
    method Finalize() returns (tag: seq<Byte>)
      requires Valid()
      modifies this`h
      ensures tag == Tag(key, old(seen))
    {
      hide Absorbed, ClampedLimbs, V, Word, Tag, FourWords, ToLittleEndian;
      AbsorbLast();
      AbsorbedSettled(key, h, seen, BlockCount(seen));
      var carried := FullCarry(h);
      var g := FinalSubtraction(carried);
      var w0, w1, w2, w3 := Words(g);
      var t0, t1, t2, t3 := AddPad(w0, w1, w2, w3, pad);
      tag := ToLittleEndian(t0 as nat, 4) + ToLittleEndian(t1 as nat, 4)
             + ToLittleEndian(t2 as nat, 4) + ToLittleEndian(t3 as nat, 4);
      BytesOfWords(t0, t1, t2, t3);
      PadNumber(key);
      TagIs(key, seen, h, g, FourWords(w0, w1, w2, w3), FourWords(t0, t1, t2, t3));
    }
  }

  lemma AbsorbedSettled(key: Key, h: Limbs, msg: seq<Byte>, k: nat)
    requires Absorbed(key, h, msg, k)
    ensures Settled(h)
  {
  }

  lemma {:induction false} AccumulateBelow(r: nat, msg: seq<Byte>, k: nat)
    requires k > 0 ==> 16 * (k - 1) <= |msg|
    ensures 0 <= Accumulate(r, msg, k) < P
  {
  }

  lemma TagIs(key: Key, msg: seq<Byte>, h: Limbs, g: Limbs, w: int, t: int)
    requires Absorbed(key, h, msg, BlockCount(msg))
    requires g.Value() == h.Value() % P
    requires w == g.Value() % POW128 && 0 <= t
    requires t == (w + LittleEndian(key[16..])) % POW128
    ensures Tag(key, msg) == ToLittleEndian(t, 16)
  {
    hide LittleEndian, ToLittleEndian, V;
    var acc := Accumulate(KeyNumber(key), msg, BlockCount(msg));
    AccumulateBelow(KeyNumber(key), msg, BlockCount(msg));
    QuotientRemainder(acc, P, acc, 0);
    var pad := LittleEndian(key[16..]);
    AddAfterMod(g.Value(), pad);
  }

  lemma AddAfterMod(x: int, y: int)
    ensures (x % POW128 + y) % POW128 == (x + y) % POW128
  {
    var k := x / POW128;
    var q := (x + y) / POW128 - (x % POW128 + y) / POW128 - k;
    assert POW128 * q == (x % POW128 + y) % POW128 - (x + y) % POW128;
    SmallMultiple(POW128, q);
  }

  /** One-shot use, and any other way of cutting the same message. */
  method Authenticate(key: Key, chunks: seq<seq<Byte>>) returns (tag: seq<Byte>)
    ensures tag == Tag(key, Concat(chunks))
  {
    hide InStep, ClampedLimbs, Word, Tag;
    var p: Authenticator := new Authenticator(key);
    for i := 0 to |chunks|
      modifies p, p.buf
      invariant p.Valid() && p.key == key && fresh(p.buf)
      invariant p.seen == Concat(chunks[..i])
    {
      assert chunks[..i + 1][..i] == chunks[..i];
      p.Update(chunks[i]);
    }
    assert chunks[..|chunks|] == chunks;
    tag := p.Finalize();
  }

  function Concat(chunks: seq<seq<Byte>>): seq<Byte> {
    if chunks == [] then [] else Concat(chunks[..|chunks| - 1]) + chunks[|chunks| - 1]
  }
}
