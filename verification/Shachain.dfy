/**
 * Per-commitment secrets (BOLT 3, "Efficient Per-commitment Secret Storage").
 *
 * `Derive` is the secret generator for an arbitrary hash `sha`; the store keeps
 * one (index, secret) pair per bucket, 49 in all. The main result,
 * `StoreRefinesFullMap`, says that whatever secrets a peer reveals - honest or
 * not - a store that accepted the run answers exactly as a table holding every
 * one of them would.
 */
module Shachain {
  import opened Wrappers
  import opened Powers

  const MAX_INDEX: nat := 0xffff_ffff_ffff

  type Secret = seq<bv8>
  type Hash = Secret -> Secret

  datatype Entry = Entry(index: nat, secret: Secret)

  /** The 49 slots as a value. */
  type Slots = s: seq<Option<Entry>> | |s| == 49 witness seq(49, _ => None)

  function IndexForCommitment(n: nat): (i: nat)
    requires n <= MAX_INDEX
  {
    MAX_INDEX - n
  }

  predicate BitSet(index: nat, b: nat) {
    Shr(index, b) % 2 == 1
  }

  function FlipBit(p: Secret, bit: nat): (q: Secret)
    ensures |q| == |p|
  {
    if bit / 8 < |p| then p[bit / 8 := p[bit / 8] ^ (1 << (bit % 8))] else p
  }

  /** One derivation step: flip bit `b`, then hash. */
  function Step(sha: Hash, p: Secret, b: nat): Secret {
    sha(FlipBit(p, b))
  }

  /** The secret at `index`, starting from a `base` that shares the bits
      `bits..48` with it. */
  function Derive(sha: Hash, base: Secret, bits: nat, index: nat): Secret
    decreases bits
  {
    if bits == 0 then base
    else
      Derive(sha, if BitSet(index, bits - 1) then Step(sha, base, bits - 1) else base, bits - 1, index)
  }

  /** The loop form, counting bits down. */
  method DeriveSecret(sha: Hash, base: Secret, bits: nat, index: nat) returns (p: Secret)
    ensures p == Derive(sha, base, bits, index)
  {
    p := base;
    var b := bits;
    while b > 0
      invariant 0 <= b <= bits
      invariant Derive(sha, p, b, index) == Derive(sha, base, bits, index)
    {
      b := b - 1;
      if BitSet(index, b) {
        p := sha(FlipBit(p, b));
      }
    }
  }

  function GenerateFromSeed(sha: Hash, seed: Secret, index: nat): Secret {
    Derive(sha, seed, 48, index)
  }

  // ------------------------------------------------------------ the slots

  function TrailingZeros(i: nat): (t: nat)
    requires i > 0
  {
    if i % 2 == 1 then 0 else 1 + TrailingZeros(i / 2)
  }

  function Bucket(index: nat): nat {
    if index == 0 then 48 else TrailingZeros(index)
  }

  /** `index & mask == known & mask && index >= known`, with a zero mask for
      bucket 48. */
  predicate Covers(b: nat, known: nat, index: nat) {
    (b == 48 || Shr(index, b) == Shr(known, b)) && index >= known
  }

  /** Do the slots below `b` derive from `secret`? */
  predicate LowerConsistent(sha: Hash, known: Slots, b: nat, secret: Secret, upto: nat)
    requires upto <= b <= 49
  {
    forall lower | 0 <= lower < upto ::
      known[lower].Some? ==>
        Derive(sha, secret, b, known[lower].value.index) == known[lower].value.secret
  }

  function InsertInto(sha: Hash, known: Slots, index: nat, secret: Secret): (r: Option<Slots>)
    requires index <= MAX_INDEX
  {
    BucketRange(index);
    var b := Bucket(index);
    if LowerConsistent(sha, known, b, secret, b) then Some(known[b := Some(Entry(index, secret))]) else None
  }

  function LookupFrom(sha: Hash, known: Slots, index: nat, b: nat): Option<Secret>
    requires b <= 49
    decreases 49 - b
  {
    if b == 49 then None
    else if known[b].Some? && Covers(b, known[b].value.index, index) then
      Some(Derive(sha, known[b].value.secret, b, index))
    else LookupFrom(sha, known, index, b + 1)
  }

  function Lookup(sha: Hash, known: Slots, index: nat): Option<Secret> {
    LookupFrom(sha, known, index, 0)
  }

  /** The receiver's store. `known` is overwritten in place. */
  class SecretStore {
    const known: array<Option<Entry>>

    ghost predicate Valid()
      reads this
    {
      known.Length == 49
    }

    ghost function Contents(): Slots
      requires Valid()
      reads this, known
    {
      known[..]
    }

    constructor ()
      ensures Valid() && fresh(known)
      ensures Contents() == EmptySlots()
    {
      known := new Option<Entry>[49](_ => None);
    }

    method Insert(sha: Hash, index: nat, secret: Secret) returns (ok: bool)
      requires Valid() && index <= MAX_INDEX
      modifies known
      ensures Valid()
      ensures ok <==> InsertInto(sha, old(Contents()), index, secret).Some?
      ensures ok ==> Contents() == InsertInto(sha, old(Contents()), index, secret).value
      ensures !ok ==> Contents() == old(Contents())
    {
      BucketRange(index);
      var b := Bucket(index);
      var lower := 0;
      while lower < b
        invariant 0 <= lower <= b
        invariant known[..] == old(known[..])
        invariant LowerConsistent(sha, known[..], b, secret, lower)
      {
        if known[lower].Some? {
          var derived := DeriveSecret(sha, secret, b, known[lower].value.index);
          if derived != known[lower].value.secret {
            assert !LowerConsistent(sha, known[..], b, secret, b) by {
              assert known[..][lower].Some?;
            }
            return false;
          }
        }
        lower := lower + 1;
      }
      known[b] := Some(Entry(index, secret));
      return true;
    }

    method SecretFor(sha: Hash, index: nat) returns (secret: Option<Secret>)
      requires Valid()
      ensures secret == Lookup(sha, Contents(), index)
    {
      var b := 0;
      while b <= 48
        invariant 0 <= b <= 49
        invariant LookupFrom(sha, known[..], index, b) == Lookup(sha, known[..], index)
      {
        if known[b].Some? && Covers(b, known[b].value.index, index) {
          var derived := DeriveSecret(sha, known[b].value.secret, b, index);
          return Some(derived);
        }
        b := b + 1;
      }
      return None;
    }
  }

  function EmptySlots(): Slots {
    seq(49, _ => None)
  }

  // -------------------------------------------------- arithmetic of buckets

  /** The bucket of a positive index is the largest alignment it has. */
  lemma {:induction false} TrailingZerosShape(i: nat)
    requires i > 0
    ensures Aligned(i, TrailingZeros(i)) && !Aligned(i, TrailingZeros(i) + 1)
  {
    if i % 2 == 0 { TrailingZerosShape(i / 2); }
  }

  lemma {:induction false} TrailingZerosOfShape(i: nat, t: nat)
    requires Aligned(i, t) && !Aligned(i, t + 1)
    ensures i > 0 && TrailingZeros(i) == t
  {
    if t > 0 { TrailingZerosOfShape(i / 2, t - 1); }
  }

  lemma Pow48()
    ensures Pow2(48) == MAX_INDEX + 1
  {
    assert Pow2(12) == 0x1000;
    assert Pow2(24) == 0x100_0000;
    assert Pow2(36) == 0x10_0000_0000;
  }

  lemma ZeroAligned(b: nat)
    ensures Aligned(0, b)
  {
  }

  lemma BucketRange(index: nat)
    requires index <= MAX_INDEX
    ensures Bucket(index) <= 48
    ensures Aligned(index, Bucket(index))
    ensures index > 0 ==> Bucket(index) < 48 && !Aligned(index, Bucket(index) + 1)
  {
    ZeroAligned(48);
    if index > 0 {
      var t := TrailingZeros(index);
      TrailingZerosShape(index);
      if t >= 48 {
        ZeroAligned(t);
        AlignedGap(0, index, t);
        Pow48();
        Pow2Monotone(48, t);
      }
    }
  }

  /** Within an aligned block of size `2^b` starting at `j`, the offset
      `2^lower` lands in bucket `lower`. */
  lemma OffsetBucket(j: nat, b: nat, lower: nat)
    requires lower < b && Aligned(j, b)
    ensures Aligned(j + Pow2(lower), lower)
    ensures TrailingZeros(j + Pow2(lower)) == lower
  {
    AlignedLower(j, lower, b);
    AlignedLower(j, lower + 1, b);
    AlignedAdd(j, lower);
    var k := j + Pow2(lower);
    if Aligned(k, lower + 1) { AlignedGap(j, k, lower + 1); }
    TrailingZerosOfShape(k, lower);
  }

  // ---------------------------------------------------- derivation composes

  /** Deriving through an aligned ancestor `k` changes nothing. */
  lemma {:induction false} DeriveThrough(sha: Hash, base: Secret, bits: nat, lower: nat, k: nat, i: nat)
    requires lower <= bits
    requires Aligned(k, lower) && Shr(i, lower) == Shr(k, lower)
    ensures Derive(sha, base, bits, i) == Derive(sha, Derive(sha, base, bits, k), lower, i)
    decreases bits
  {
    if bits == lower {
      DeriveAligned(sha, base, bits, k);
    } else {
      SharedHighBits(i, k, lower, bits - 1);
      var p := if BitSet(i, bits - 1) then Step(sha, base, bits - 1) else base;
      DeriveThrough(sha, p, bits - 1, lower, k, i);
    }
  }

  lemma {:induction false} DeriveAligned(sha: Hash, base: Secret, bits: nat, k: nat)
    requires Aligned(k, bits)
    ensures Derive(sha, base, bits, k) == base
    decreases bits
  {
    if bits > 0 {
      LowBitsClear(k, bits, bits - 1);
      AlignedLower(k, bits - 1, bits);
      DeriveAligned(sha, base, bits - 1, k);
    }
  }

  // --------------------------------------------------------- the invariant

  /** Bucket `b` holds the lowest revealed index with `b` trailing zeros, when
      the top `n` indices have been revealed. */
  ghost predicate SlotMinimal(known: Slots, b: nat, n: nat)
    requires b < 49 && n <= MAX_INDEX + 1
  {
    var lo := MAX_INDEX + 1 - n;
    match known[b]
    case None => forall x | lo <= x <= MAX_INDEX :: Bucket(x) != b
    case Some(e) =>
      && lo <= e.index <= MAX_INDEX && Bucket(e.index) == b
      && forall x | lo <= x < e.index :: Bucket(x) != b
  }

  /** Every index the slot covers derives to the secret that was accepted for it. */
  ghost predicate SlotFaithful(sha: Hash, known: Slots, b: nat, secrets: seq<Secret>)
    requires b < 49
  {
    known[b].Some? ==>
      forall i | known[b].value.index <= i < known[b].value.index + Pow2(b) ::
        DerivesTo(sha, known[b].value.secret, b, i, secrets)
  }

  ghost predicate DerivesTo(sha: Hash, secret: Secret, b: nat, i: nat, secrets: seq<Secret>) {
    0 <= MAX_INDEX - i < |secrets| && Derive(sha, secret, b, i) == secrets[MAX_INDEX - i]
  }

  ghost predicate Covered(known: Slots, b: nat, i: nat)
    requires b < 49
  {
    known[b].Some? && known[b].value.index <= i < known[b].value.index + Pow2(b)
  }

  ghost predicate IsCovered(known: Slots, i: nat) {
    exists b | 0 <= b < 49 :: Covered(known, b, i)
  }

  /** `known` is what a store looks like after accepting `secrets` for the
      indices MAX_INDEX, MAX_INDEX - 1, ... in that order. */
  ghost predicate Represents(sha: Hash, known: Slots, secrets: seq<Secret>) {
    && |secrets| <= MAX_INDEX + 1
    && (forall b | 0 <= b < 49 :: SlotMinimal(known, b, |secrets|))
    && (forall b | 0 <= b < 49 :: SlotFaithful(sha, known, b, secrets))
    && (forall i | MAX_INDEX + 1 - |secrets| <= i <= MAX_INDEX :: IsCovered(known, i))
  }

  /** The slots reached by a run of inserts, or None once one is refused. */
  function InsertRun(sha: Hash, secrets: seq<Secret>): (r: Option<Slots>)
    requires |secrets| <= MAX_INDEX + 1
  {
    if secrets == [] then Some(EmptySlots())
    else
      var n := |secrets| - 1;
      match InsertRun(sha, secrets[..n])
      case None => None
      case Some(known) => InsertInto(sha, known, IndexForCommitment(n), secrets[n])
  }

  /** The slot below the inserted bucket starts exactly one offset above it. */
  lemma LowerSlot(known: Slots, j: nat, b: nat, lower: nat)
    requires lower < b <= 48 && j <= MAX_INDEX && Aligned(j, b)
    requires SlotMinimal(known, lower, MAX_INDEX - j)
    ensures known[lower].Some? && known[lower].value.index == j + Pow2(lower)
  {
    OffsetBucket(j, b, lower);
    BlockInRange(j, b, lower);
    assert Bucket(j + Pow2(lower)) == lower;
    var e := known[lower].value;
    BucketRange(e.index);
    AlignedLower(j, lower, b);
    AlignedGap(j, e.index, lower);
  }

  lemma BlockInRange(j: nat, b: nat, lower: nat)
    requires lower < b <= 48 && j <= MAX_INDEX && Aligned(j, b)
    ensures j + Pow2(b) <= MAX_INDEX + 1 && j + Pow2(lower) <= MAX_INDEX
  {
    hide Aligned;
    Pow48();
    PowAligned(b, 48);
    AlignedGap(j, Pow2(48), b);
    Pow2Monotone(lower + 1, b);
  }

  /** Every positive offset below `2^b` lies in exactly one dyadic block. */
  lemma {:induction false} DyadicBlock(d: nat, b: nat) returns (lower: nat)
    requires 0 < d < Pow2(b)
    ensures lower < b && Pow2(lower) <= d < 2 * Pow2(lower)
  {
    if d >= Pow2(b - 1) {
      lower := b - 1;
    } else {
      lower := DyadicBlock(d, b - 1);
    }
  }

  /** The new slot is faithful: the refused/accepted check against the lower
      slots is exactly what pins every secret of the block. */
  lemma NewSlotFaithful(sha: Hash, known: Slots, secrets: seq<Secret>, secret: Secret)
    requires |secrets| <= MAX_INDEX
    requires Represents(sha, known, secrets)
    requires InsertInto(sha, known, IndexForCommitment(|secrets|), secret).Some?
    ensures var j := IndexForCommitment(|secrets|); Bucket(j) <= 48
    ensures var j := IndexForCommitment(|secrets|);
            SlotFaithful(sha, InsertInto(sha, known, j, secret).value, Bucket(j), secrets + [secret])
  {
    hide Represents, Pow2, Aligned, Derive, LowerConsistent;
    var j := IndexForCommitment(|secrets|);
    BucketRange(j);
    var b := Bucket(j);
    var all := secrets + [secret];
    forall i | j <= i < j + Pow2(b)
      ensures DerivesTo(sha, secret, b, i, all)
    {
      if i == j {
        DeriveAligned(sha, secret, b, j);
      } else {
        ThroughLowerSlot(sha, known, secrets, secret, i);
      }
    }
  }

  /** An index above the inserted one derives by way of the lower slot that covers it. */
  lemma ThroughLowerSlot(sha: Hash, known: Slots, secrets: seq<Secret>, secret: Secret, i: nat)
    requires |secrets| <= MAX_INDEX
    requires Represents(sha, known, secrets)
    requires InsertInto(sha, known, IndexForCommitment(|secrets|), secret).Some?
    requires var j := IndexForCommitment(|secrets|); j < i < j + Pow2(Bucket(j))
    ensures DerivesTo(sha, secret, Bucket(IndexForCommitment(|secrets|)), i, secrets + [secret])
  {
    hide Pow2, Aligned, Shr, Derive, Bucket;
    var j := IndexForCommitment(|secrets|);
    BucketRange(j);
    var b := Bucket(j);
    var lower := DyadicBlock(i - j, b);
    assert SlotMinimal(known, lower, |secrets|);
    LowerSlot(known, j, b, lower);
    var k := known[lower].value.index;
    OffsetBucket(j, b, lower);
    assert SlotFaithful(sha, known, lower, secrets);
    hide Represents, SlotMinimal;
    assert k <= i < k + Pow2(lower);
    AlignedBlock(i, k, lower);
    assert DerivesTo(sha, known[lower].value.secret, lower, i, secrets);
    DeriveThrough(sha, secret, b, lower, k, i);
    assert LowerConsistent(sha, known, b, secret, b);
  }

  /** Whatever the overwritten slot covered is covered by a higher one. */
  lemma StillCovered(sha: Hash, known: Slots, secrets: seq<Secret>, secret: Secret, i: nat)
    requires |secrets| <= MAX_INDEX
    requires Represents(sha, known, secrets)
    requires InsertInto(sha, known, IndexForCommitment(|secrets|), secret).Some?
    requires IndexForCommitment(|secrets|) <= i <= MAX_INDEX
    ensures IsCovered(InsertInto(sha, known, IndexForCommitment(|secrets|), secret).value, i)
  {
    hide Pow2, Aligned, Derive;
    var j := IndexForCommitment(|secrets|);
    BucketRange(j);
    var b := Bucket(j);
    var known' := InsertInto(sha, known, j, secret).value;
    if j <= i < j + Pow2(b) {
      assert Covered(known', b, i);
    } else {
      assert IsCovered(known, i);
      var b0 :| 0 <= b0 < 49 && Covered(known, b0, i);
      if b0 != b {
        assert Covered(known', b0, i);
      } else {
        HigherSlot(known, |secrets|, j, b);
        var h := Bucket(j + Pow2(b));
        assert Covered(known', h, i);
      }
    }
  }

  /** If bucket `b` was occupied above `j`, the block following `j` belongs to
      a higher bucket and reaches past the old entry of `b`. */
  lemma HigherSlot(known: Slots, n: nat, j: nat, b: nat)
    requires n <= MAX_INDEX && j == MAX_INDEX - n && b == Bucket(j)
    requires forall x | 0 <= x < 49 :: SlotMinimal(known, x, n)
    requires b < 49 && known[b].Some?
    ensures j + Pow2(b) <= MAX_INDEX && b < Bucket(j + Pow2(b)) <= 48
    ensures var h := Bucket(j + Pow2(b));
            known[h].Some? && known[h].value.index == j + Pow2(b) &&
            known[b].value.index + Pow2(b) <= j + Pow2(b) + Pow2(h)
  {
    assert SlotMinimal(known, b, n);
    var prev := known[b].value.index;
    BucketRange(j);
    BucketRange(prev);
    AlignedGap(j, prev, b);
    NextEven(j, b);
    var next := j + Pow2(b);
    var h := Bucket(next);
    BucketRange(next);
    if h <= b { AlignedLower(next, h + 1, b + 1); }
    assert SlotMinimal(known, h, n);
    var e := known[h].value.index;
    BucketRange(e);
    AlignedLower(e, b, h);
    AlignedGap(j, e, b);
    PrevReach(known, n, j, b);
    Pow2Monotone(b + 1, h);
  }

  /** The old entry of bucket `b` was the next index with `b` trailing zeros. */
  lemma PrevReach(known: Slots, n: nat, j: nat, b: nat)
    requires n < MAX_INDEX && j == MAX_INDEX - n && b == Bucket(j) < 48
    requires SlotMinimal(known, b, n) && known[b].Some?
    ensures known[b].value.index <= j + 2 * Pow2(b)
  {
    BucketRange(j);
    NextEven(j, b);
    AlignedLower(j + Pow2(b), b, b + 1);
    AlignedAdd(j + Pow2(b), b);
    var x := j + 2 * Pow2(b);
    if Aligned(x, b + 1) { AlignedGap(j + Pow2(b), x, b + 1); }
    TrailingZerosOfShape(x, b);
    assert Bucket(x) == b;
  }

  lemma UntouchedSlotFaithful(sha: Hash, known: Slots, known': Slots, b: nat, secrets: seq<Secret>, secret: Secret)
    requires b < 49 && known'[b] == known[b]
    requires SlotFaithful(sha, known, b, secrets)
    ensures SlotFaithful(sha, known', b, secrets + [secret])
  {
    if known[b].Some? {
      var e := known[b].value;
      forall i | e.index <= i < e.index + Pow2(b)
        ensures DerivesTo(sha, e.secret, b, i, secrets + [secret])
      {
        assert DerivesTo(sha, e.secret, b, i, secrets);
      }
    }
  }

  lemma InsertRepresents(sha: Hash, known: Slots, secrets: seq<Secret>, secret: Secret)
    requires |secrets| <= MAX_INDEX
    requires Represents(sha, known, secrets)
    requires InsertInto(sha, known, IndexForCommitment(|secrets|), secret).Some?
    ensures Represents(sha, InsertInto(sha, known, IndexForCommitment(|secrets|), secret).value, secrets + [secret])
  {
    var j := IndexForCommitment(|secrets|);
    BucketRange(j);
    var b := Bucket(j);
    var known' := InsertInto(sha, known, j, secret).value;
    var all := secrets + [secret];
    forall x | 0 <= x < 49
      ensures SlotMinimal(known', x, |all|)
      ensures SlotFaithful(sha, known', x, all)
    {
      assert SlotMinimal(known, x, |secrets|);
      assert SlotFaithful(sha, known, x, secrets);
      if x == b {
        NewSlotFaithful(sha, known, secrets, secret);
      } else {
        UntouchedSlotFaithful(sha, known, known', x, secrets, secret);
      }
    }
    forall i | j <= i <= MAX_INDEX ensures IsCovered(known', i) {
      StillCovered(sha, known, secrets, secret, i);
    }
  }

  lemma {:induction false} RunRepresents(sha: Hash, secrets: seq<Secret>)
    requires |secrets| <= MAX_INDEX + 1
    requires InsertRun(sha, secrets).Some?
    ensures Represents(sha, InsertRun(sha, secrets).value, secrets)
  {
    if secrets == [] {
    } else {
      var n := |secrets| - 1;
      RunRepresents(sha, secrets[..n]);
      InsertRepresents(sha, InsertRun(sha, secrets[..n]).value, secrets[..n], secrets[n]);
      assert secrets[..n] + [secrets[n]] == secrets;
    }
  }

  lemma {:induction false} LookupFirst(sha: Hash, known: Slots, secrets: seq<Secret>, i: nat, b: nat)
    requires b <= 49 && i <= MAX_INDEX
    requires Represents(sha, known, secrets)
    ensures i < MAX_INDEX + 1 - |secrets| ==> LookupFrom(sha, known, i, b) == None
    ensures (exists x | b <= x < 49 :: Covered(known, x, i)) ==>
              MAX_INDEX - i < |secrets| && LookupFrom(sha, known, i, b) == Some(secrets[MAX_INDEX - i])
    decreases 49 - b
  {
    hide Pow2, Aligned, Shr, Derive, Bucket;
    if b < 49 {
      LookupFirst(sha, known, secrets, i, b + 1);
      assert SlotMinimal(known, b, |secrets|);
      assert SlotFaithful(sha, known, b, secrets);
      if known[b].Some? {
        var k := known[b].value.index;
        BucketRange(k);
        AlignedBlock(i, k, b);
        Pow48();
        assert Covers(b, k, i) <==> k <= i < k + Pow2(b);
        if Covers(b, k, i) { assert DerivesTo(sha, known[b].value.secret, b, i, secrets); }
      }
    }
  }

  /**
   * The compact store refines the full map: for any hash and any peer, after
   * an accepted run the store returns exactly the secret accepted for each
   * revealed index, and nothing for an index not yet revealed.
   */
  lemma StoreRefinesFullMap(sha: Hash, secrets: seq<Secret>, i: nat)
    requires |secrets| <= MAX_INDEX + 1 && i <= MAX_INDEX
    requires InsertRun(sha, secrets).Some?
    ensures Lookup(sha, InsertRun(sha, secrets).value, i) ==
            if MAX_INDEX - i < |secrets| then Some(secrets[MAX_INDEX - i]) else None
  {
    RunRepresents(sha, secrets);
    var known := InsertRun(sha, secrets).value;
    LookupFirst(sha, known, secrets, i, 0);
    if MAX_INDEX - i < |secrets| {
      assert IsCovered(known, i);
    }
  }

  // ------------------------------------------------------- an honest peer

  /** The secrets an honest peer releases for commitments 0, 1, ..., n-1. */
  function HonestSecrets(sha: Hash, seed: Secret, n: nat): (r: seq<Secret>)
    requires n <= MAX_INDEX + 1
    ensures |r| == n
  {
    seq(n, x requires 0 <= x < n => GenerateFromSeed(sha, seed, IndexForCommitment(x)))
  }

  lemma HonestInsertAccepted(sha: Hash, seed: Secret, known: Slots, n: nat)
    requires n <= MAX_INDEX
    requires Represents(sha, known, HonestSecrets(sha, seed, n))
    ensures InsertInto(sha, known, IndexForCommitment(n), GenerateFromSeed(sha, seed, IndexForCommitment(n))).Some?
  {
    var j := IndexForCommitment(n);
    BucketRange(j);
    var b := Bucket(j);
    var secret := GenerateFromSeed(sha, seed, j);
    forall lower | 0 <= lower < b && known[lower].Some?
      ensures Derive(sha, secret, b, known[lower].value.index) == known[lower].value.secret
    {
      HonestLowerSlot(sha, seed, known, n, lower);
    }
  }

  lemma HonestLowerSlot(sha: Hash, seed: Secret, known: Slots, n: nat, lower: nat)
    requires n <= MAX_INDEX && lower < Bucket(IndexForCommitment(n)) && lower < 49
    requires Represents(sha, known, HonestSecrets(sha, seed, n))
    requires known[lower].Some?
    ensures var j := IndexForCommitment(n);
            Derive(sha, GenerateFromSeed(sha, seed, j), Bucket(j), known[lower].value.index) == known[lower].value.secret
  {
    hide Aligned, Shr, Derive, Bucket;
    var secrets := HonestSecrets(sha, seed, n);
    var j := IndexForCommitment(n);
    BucketRange(j);
    var b := Bucket(j);
    var k := known[lower].value.index;
    assert k == j + Pow2(lower) by {
      assert SlotMinimal(known, lower, n);
      LowerSlot(known, j, b, lower);
    }
    OffsetBucket(j, b, lower);
    assert known[lower].value.secret == GenerateFromSeed(sha, seed, k) by {
      assert SlotFaithful(sha, known, lower, secrets);
      DeriveAligned(sha, known[lower].value.secret, lower, k);
      assert DerivesTo(sha, known[lower].value.secret, lower, k, secrets);
    }
    Pow2Monotone(lower + 1, b);
    AlignedBlock(k, j, b);
    DeriveThrough(sha, seed, 48, b, j, k);
  }

  /** An honest peer is never refused, however many of its 2^48 secrets it
      has released. */
  lemma {:induction false} HonestRunAccepted(sha: Hash, seed: Secret, n: nat)
    requires n <= MAX_INDEX + 1
    ensures InsertRun(sha, HonestSecrets(sha, seed, n)).Some?
  {
    if n > 0 {
      var secrets := HonestSecrets(sha, seed, n);
      HonestRunAccepted(sha, seed, n - 1);
      assert secrets[..n - 1] == HonestSecrets(sha, seed, n - 1);
      RunRepresents(sha, secrets[..n - 1]);
      HonestInsertAccepted(sha, seed, InsertRun(sha, secrets[..n - 1]).value, n - 1);
    }
  }

  // ------------------------------------------------------------ persistence

  /** The occupied buckets, in order. */
  function EntriesOf(known: Slots, n: nat): seq<Entry>
    requires n <= 49
  {
    if n == 0 then []
    else EntriesOf(known, n - 1) + if known[n - 1].Some? then [known[n - 1].value] else []
  }

  function FromEntries(entries: seq<Entry>): Slots {
    if entries == [] then EmptySlots()
    else
      var n := |entries| - 1;
      var b := Bucket(entries[n].index);
      var prev := FromEntries(entries[..n]);
      if b < 49 then prev[b := Some(entries[n])] else prev
  }

  ghost predicate WellPlaced(known: Slots) {
    forall b | 0 <= b < 49 && known[b].Some? :: Bucket(known[b].value.index) == b
  }

  lemma {:induction false} RestoredUpTo(known: Slots, n: nat)
    requires n <= 49 && WellPlaced(known)
    ensures FromEntries(EntriesOf(known, n)) == known[..n] + seq(49 - n, _ => None)
  {
    if n > 0 {
      hide Bucket;
      RestoredUpTo(known, n - 1);
      if known[n - 1].Some? {
        var entries := EntriesOf(known, n);
        assert entries[..|entries| - 1] == EntriesOf(known, n - 1);
      } else {
        assert EntriesOf(known, n) == EntriesOf(known, n - 1);
      }
    }
  }

  /** Saving and restoring a store that has accepted a run gives the same store. */
  lemma PersistenceRoundTrip(sha: Hash, secrets: seq<Secret>)
    requires |secrets| <= MAX_INDEX + 1 && InsertRun(sha, secrets).Some?
    ensures var known := InsertRun(sha, secrets).value;
            FromEntries(EntriesOf(known, 49)) == known
  {
    hide InsertRun, FromEntries, EntriesOf, Bucket;
    var known := InsertRun(sha, secrets).value;
    RunRepresents(sha, secrets);
    forall b | 0 <= b < 49 && known[b].Some?
      ensures Bucket(known[b].value.index) == b
    {
      assert SlotMinimal(known, b, |secrets|);
    }
    RestoredUpTo(known, 49);
  }
}
