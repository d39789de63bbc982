/**
 * Regrouping bits between bytes and 5-bit values. The accumulator is a 32-bit
 * word that is never masked: old bits pile up in it and fall off its top.
 */
module BitGroups {
  import opened Wrappers
  import opened Powers
  import opened Bits
  import Bech32

  /** The low `w` bits of `v`, most significant first. */
  function Bin(v: nat, w: nat): (r: seq<bool>)
    ensures |r| == w
  {
    if w == 0 then [] else Bin(v / 2, w - 1) + [v % 2 == 1]
  }

  function AllBits(data: seq<nat>, w: nat): (r: seq<bool>)
    ensures |r| == |data| * w
  {
    if data == [] then [] else AllBits(data[..|data| - 1], w) + Bin(data[|data| - 1], w)
  }

  function NoBits(n: nat): seq<bool> {
    seq(n, _ => false)
  }

  ghost predicate Fits(data: seq<nat>, w: nat) {
    forall i | 0 <= i < |data| :: data[i] < Pow2(w)
  }

  // -------------------------------------------------------------- bit strings

  lemma {:induction false} BinSplit(v: nat, a: nat, b: nat)
    ensures Bin(v, a + b) == Bin(Shr(v, b), a) + Bin(v, b)
  {
    if b > 0 {
      BinSplit(v / 2, a, b - 1);
      assert Bin(v, a + b) == Bin(v / 2, a + (b - 1)) + [v % 2 == 1];
      assert Bin(v, b) == Bin(v / 2, b - 1) + [v % 2 == 1];
    }
  }

  lemma {:induction false} BinLow(v: nat, w: nat, k: nat)
    requires w <= k
    ensures Bin(Low(v, k), w) == Bin(v, w)
  {
    if w > 0 {
      BinLow(v / 2, w - 1, k - 1);
    }
  }

  lemma BinStep(v: nat, w: nat)
    requires w > 0
    ensures Bin(v, w) == Bin(v / 2, w - 1) + [v % 2 == 1]
  {
  }

  lemma HalfOfSum(y: nat, x: nat)
    ensures (2 * y + x) / 2 == y + x / 2 && (2 * y + x) % 2 == x % 2
  {
  }

  lemma DoubledProduct(v: nat, p: nat)
    ensures v * (2 * p) == 2 * (v * p)
  {
  }

  /** Appending `w` more bits. */
  lemma {:induction false} BinAppend(v: nat, a: nat, x: nat, w: nat)
    requires x < Pow2(w)
    ensures Bin(v * Pow2(w) + x, a + w) == Bin(v, a) + Bin(x, w)
  {
    hide Bin;
    if w == 0 {
      assert Bin(x, w) == [];
    } else {
      BinAppend(v, a, x / 2, w - 1);
      var p := Pow2(w - 1);
      DoubledProduct(v, p);
      HalfOfSum(v * p, x);
      BinStep(2 * (v * p) + x, a + w);
      BinStep(x, w);
    }
  }

  lemma {:induction false} BinInjective(x: nat, y: nat, w: nat)
    requires x < Pow2(w) && y < Pow2(w) && Bin(x, w) == Bin(y, w)
    ensures x == y
  {
    if w > 0 {
      assert Bin(x, w)[..w - 1] == Bin(x / 2, w - 1) && Bin(y, w)[..w - 1] == Bin(y / 2, w - 1);
      assert Bin(x, w)[w - 1] == (x % 2 == 1) && Bin(y, w)[w - 1] == (y % 2 == 1);
      BinInjective(x / 2, y / 2, w - 1);
    }
  }

  lemma {:induction false} BinZero(w: nat)
    ensures Bin(0, w) == NoBits(w)
  {
    if w > 0 {
      BinZero(w - 1);
    }
  }

  lemma AllBitsCut(data: seq<nat>, w: nat)
    requires data != []
    ensures var x := AllBits(data[..|data| - 1], w);
            |AllBits(data, w)| == |x| + w && AllBits(data, w)[..|x|] == x
            && AllBits(data, w)[|x|..] == Bin(data[|data| - 1], w)
  {
    hide Bin;
  }

  lemma {:induction false} AllBitsInjective(a: seq<nat>, b: seq<nat>, w: nat)
    requires Fits(a, w) && Fits(b, w) && |a| == |b| && AllBits(a, w) == AllBits(b, w)
    ensures a == b
  {
    hide AllBits, Bin, Pow2;
    if a != [] {
      var n := |a| - 1;
      AllBitsCut(a, w);
      AllBitsCut(b, w);
      AllBitsInjective(a[..n], b[..n], w);
      BinInjective(a[n], b[n], w);
      assert a == a[..n] + [a[n]] && b == b[..n] + [b[n]];
    }
  }

  // --------------------------------------------------------- the conversion

  /** What `convert_bits` must give: the same bits regrouped, completed with zeros
      when padding, and without padding only if what is left over is short and zero. */
  ghost predicate Converts(data: seq<nat>, from: nat, to: nat, pad: bool, r: Result<seq<nat>, Bech32.Bech32Error>) {
    match r
    case Ok(out) =>
      && Fits(data, from) && Fits(out, to)
      && if pad then exists k | 0 <= k < to :: AllBits(out, to) == AllBits(data, from) + NoBits(k)
         else exists k | 0 <= k < Min(from, to) :: AllBits(data, from) == AllBits(out, to) + NoBits(k)
    case Err(e) =>
      e == Bech32.PaddingError &&
      (!Fits(data, from) ||
       (!pad && forall out, k: nat | Fits(out, to) && k < Min(from, to) ::
          AllBits(data, from) != AllBits(out, to) + NoBits(k)))
  }

  function Min(a: nat, b: nat): nat {
    if a < b then a else b
  }

  // ------------------------------------------------------- the source's loop

  /** Part way: what has been put out and the low `bits` bits of the accumulator
      are the bits read so far. */
  ghost predicate Pending(read: seq<bool>, out: seq<nat>, to: nat, acc: nat, bits: nat) {
    Fits(out, to) && read == AllBits(out, to) + Bin(acc, bits)
  }

  lemma Bounds()
    ensures forall k: nat | k <= 8 :: Pow2(k) <= 256
    ensures Pow2(32) == 0x1_0000_0000
  {
    Constants();
    forall k: nat | k <= 8
      ensures Pow2(k) <= 256
    {
      Pow2Monotone(k, 8);
    }
    assert Pow2(28) == 0x1000_0000;
    assert Pow2(30) == 0x4000_0000;
  }

  /** `(acc << from) | value` in 32 bits. */
  function Shifted(acc: nat, value: nat, from: nat): nat {
    (acc * Pow2(from) + value) % 0x1_0000_0000
  }

  /** `(acc >> bits) & maxv` */
  function Group(acc: nat, bits: nat, to: nat): nat {
    acc / Pow2(bits) % Pow2(to)
  }

  /** `(acc << (to - bits)) & maxv` */
  function LastGroup(acc: nat, bits: nat, to: nat): nat
    requires bits <= to
  {
    acc * Pow2(to - bits) % Pow2(to)
  }

  /** One value in: shifted up, old bits dropped at 32. */
  lemma TakeIn(read: seq<bool>, out: seq<nat>, to: nat, acc: nat, bits: nat, value: nat, from: nat)
    requires Pending(read, out, to, acc, bits) && value < Pow2(from) && bits + from <= 32
    ensures Pending(read + Bin(value, from), out, to, Shifted(acc, value, from), bits + from)
  {
    hide Bin, AllBits, Low, Shr, Pow2;
    var v := acc * Pow2(from) + value;
    BinAppend(acc, bits, value, from);
    Bounds();
    LowIs(v, 32);
    BinLow(v, bits + from, 32);
    assert AllBits(out, to) + Bin(acc, bits) + Bin(value, from) == AllBits(out, to) + (Bin(acc, bits) + Bin(value, from));
  }

  lemma GroupBits(acc: nat, bits: nat, to: nat)
    ensures var group := Group(acc, bits, to);
            group < Pow2(to) && Bin(acc, bits + to) == Bin(group, to) + Bin(acc, bits)
  {
    hide Bin, Pow2, Shr, Low;
    LowIs(acc, bits);
    LowIs(Shr(acc, bits), to);
    Split(Shr(acc, bits), to);
    BinLow(Shr(acc, bits), to, to);
    BinSplit(acc, to, bits);
  }

  lemma AllBitsSnoc(out: seq<nat>, group: nat, to: nat)
    ensures AllBits(out + [group], to) == AllBits(out, to) + Bin(group, to)
  {
    hide Bin;
    assert (out + [group])[..|out|] == out;
  }

  /** One group out. */
  lemma PutOut(read: seq<bool>, out: seq<nat>, to: nat, acc: nat, bits: nat)
    requires Pending(read, out, to, acc, bits + to)
    ensures var group := Group(acc, bits, to);
            group < Pow2(to) && Pending(read, out + [group], to, acc, bits)
  {
    hide Bin, Pow2, AllBits, Group;
    var group := Group(acc, bits, to);
    GroupBits(acc, bits, to);
    AllBitsSnoc(out, group, to);
    assert AllBits(out, to) + (Bin(group, to) + Bin(acc, bits)) == (AllBits(out, to) + Bin(group, to)) + Bin(acc, bits);
  }

  /** The last group, completed with zeros. */
  lemma PadOut(acc: nat, bits: nat, to: nat)
    requires 0 < bits < to
    ensures Bin(LastGroup(acc, bits, to), to) == Bin(acc, bits) + NoBits(to - bits)
    ensures LastGroup(acc, bits, to) < Pow2(to)
  {
    var v := acc * Pow2(to - bits);
    LowIs(v, to);
    Split(v, to);
    BinLow(v, to, to);
    BinAppend(acc, bits, 0, to - bits);
    BinZero(to - bits);
  }

  /** Nothing is left over exactly when the completed group is zero. */
  lemma LeftOver(acc: nat, bits: nat, to: nat)
    requires bits < to
    ensures LastGroup(acc, bits, to) == 0 <==> Bin(acc, bits) == NoBits(bits)
  {
    hide Pow2, Low, Shr;
    var v := acc * Pow2(to - bits);
    var group := v % Pow2(to);
    LowIs(v, to);
    Split(v, to);
    BinLow(v, to, to);
    BinAppend(acc, bits, 0, to - bits);
    BinZero(to - bits);
    BinZero(to);
    assert Bin(group, to) == Bin(acc, bits) + NoBits(to - bits);
    if group == 0 {
      assert NoBits(to)[..bits] == Bin(acc, bits);
    }
    if Bin(acc, bits) == NoBits(bits) {
      assert Bin(group, to) == NoBits(to);
      BinInjective(group, 0, to);
    }
  }

  /** The accumulator holds what is pending and one more value, and a group fits a byte. */
  predicate Roomy(from: nat, to: nat) {
    from + to <= 33 && to <= 8
  }

  /** The source's loop, for all widths its shifts allow. */
  method ConvertBits(data: seq<nat>, from: nat, to: nat, pad: bool)
    returns (r: Result<seq<nat>, Bech32.Bech32Error>)
    requires 0 < from < 32 && 0 < to < 32
    ensures Roomy(from, to) ==> Converts(data, from, to, pad, r)
  {
    hide Bin, AllBits, Pow2, Pending, Converts, NoBits, Shifted, Group, LastGroup;
    Bounds();
    var acc: nat, bits: nat := 0, 0;
    var out: seq<nat> := [];
    Begin(to);
    for i := 0 to |data|
      invariant bits < to && Fits(data[..i], from)
      invariant Roomy(from, to) ==> Pending(AllBits(data[..i], from), out, to, acc, bits)
    {
      if data[i] >= Pow2(from) {
        NotAllFit(data, from, to, pad, i);
        return Err(Bech32.PaddingError);
      }
      OneMore(data, i, from);
      if Roomy(from, to) {
        TakeIn(AllBits(data[..i], from), out, to, acc, bits, data[i], from);
      }
      acc := Shifted(acc, data[i], from);
      bits := bits + from;
      while bits >= to
        invariant Roomy(from, to) ==> Pending(AllBits(data[..i + 1], from), out, to, acc, bits)
      {
        bits := bits - to;
        if Roomy(from, to) {
          PutOut(AllBits(data[..i + 1], from), out, to, acc, bits);
        }
        out := out + [Group(acc, bits, to) % 256];
      }
    }
    assert data[..|data|] == data;
    if pad {
      if bits > 0 {
        if Roomy(from, to) {
          PadOut(acc, bits, to);
          Completed(data, from, to, acc, bits, out);
        }
        out := out + [LastGroup(acc, bits, to) % 256];
      } else if Roomy(from, to) {
        NothingToPad(data, from, to, acc, out);
      }
    } else {
      if Roomy(from, to) {
        LeftOver(acc, bits, to);
        Strict(data, from, to, acc, bits, out);
      }
      if bits >= from || LastGroup(acc, bits, to) != 0 {
        return Err(Bech32.PaddingError);
      }
    }
    return Ok(out);
  }

  lemma Begin(to: nat)
    ensures Pending(AllBits([], to), [], to, 0, 0)
    ensures forall from: nat :: AllBits([], from) == []
  {
  }

  lemma NotAllFit(data: seq<nat>, from: nat, to: nat, pad: bool, i: nat)
    requires i < |data| && data[i] >= Pow2(from)
    ensures Converts(data, from, to, pad, Err(Bech32.PaddingError))
  {
  }

  lemma OneMore(data: seq<nat>, i: nat, from: nat)
    requires i < |data|
    ensures AllBits(data[..i + 1], from) == AllBits(data[..i], from) + Bin(data[i], from)
    ensures Fits(data[..i], from) && data[i] < Pow2(from) ==> Fits(data[..i + 1], from)
  {
    assert data[..i + 1][..i] == data[..i];
  }

  lemma Completed(data: seq<nat>, from: nat, to: nat, acc: nat, bits: nat, out: seq<nat>)
    requires 0 < bits < to && Fits(data, from) && Pending(AllBits(data, from), out, to, acc, bits)
    ensures Converts(data, from, to, true, Ok(out + [LastGroup(acc, bits, to)]))
  {
    hide Bin, Pow2, LastGroup;
    var last := LastGroup(acc, bits, to);
    PadOut(acc, bits, to);
    assert (out + [last])[..|out|] == out;
    assert AllBits(out + [last], to) == AllBits(out, to) + Bin(last, to);
    assert AllBits(out + [last], to) == AllBits(data, from) + NoBits(to - bits);
  }

  lemma NothingToPad(data: seq<nat>, from: nat, to: nat, acc: nat, out: seq<nat>)
    requires to > 0 && Fits(data, from) && Pending(AllBits(data, from), out, to, acc, 0)
    ensures Converts(data, from, to, true, Ok(out))
  {
    hide Pow2;
    assert AllBits(out, to) == AllBits(data, from) + NoBits(0);
  }

  lemma SameQuotient(a: int, b: int, p: int, j: int, k: int)
    requires 0 <= j < p && 0 <= k < p && a * p + j == b * p + k
    ensures a == b && j == k
  {
    assert p * (a - b) == k - j;
    SmallMultiple(p, a - b);
  }

  /** Any way of cutting the same bits leaves the same rest. */
  lemma SameCut(a: seq<nat>, j: nat, x: seq<bool>, b: seq<nat>, k: nat, y: seq<bool>, to: nat)
    requires |x| == j < to && |y| == k < to && AllBits(a, to) + x == AllBits(b, to) + y
    ensures j == k && |a| == |b| && x == y && AllBits(a, to) == AllBits(b, to)
  {
    hide Bin, AllBits;
    assert |AllBits(a, to) + x| == |a| * to + j && |AllBits(b, to) + y| == |b| * to + k;
    SameQuotient(|a|, |b|, to, j, k);
    assert (AllBits(a, to) + x)[|a| * to..] == x && (AllBits(b, to) + y)[|a| * to..] == y;
    assert (AllBits(a, to) + x)[..|a| * to] == AllBits(a, to);
    assert (AllBits(b, to) + y)[..|a| * to] == AllBits(b, to);
  }

  lemma Strict(data: seq<nat>, from: nat, to: nat, acc: nat, bits: nat, out: seq<nat>)
    requires bits < to && Fits(data, from) && Pending(AllBits(data, from), out, to, acc, bits)
    ensures Converts(data, from, to, false,
                     if bits >= from || Bin(acc, bits) != NoBits(bits) then Err(Bech32.PaddingError) else Ok(out))
  {
    hide Bin, Pow2, AllBits;
    if bits >= from || Bin(acc, bits) != NoBits(bits) {
      forall other, k: nat | Fits(other, to) && k < Min(from, to)
        ensures AllBits(data, from) != AllBits(other, to) + NoBits(k)
      {
        if AllBits(data, from) == AllBits(other, to) + NoBits(k) {
          SameCut(out, bits, Bin(acc, bits), other, k, NoBits(k), to);
        }
      }
    }
  }

  /**
   * Bytes regrouped with padding and then back strictly are the same bytes.
   */
  lemma BytesRoundTrip(bytes: seq<nat>, r: Result<seq<nat>, Bech32.Bech32Error>, s: Result<seq<nat>, Bech32.Bech32Error>)
    requires Fits(bytes, 8)
    requires Converts(bytes, 8, 5, true, r)
    requires r.Ok? ==> Converts(r.value, 5, 8, false, s)
    ensures r.Ok? && s == Ok(bytes)
  {
    hide Bin, Pow2, AllBits;
    var groups := r.value;
    var j :| 0 <= j < 5 && AllBits(groups, 5) == AllBits(bytes, 8) + NoBits(j);
    assert s.Ok?;
    var k :| 0 <= k < Min(5, 8) && AllBits(groups, 5) == AllBits(s.value, 8) + NoBits(k);
    SameCut(bytes, j, NoBits(j), s.value, k, NoBits(k), 8);
    AllBitsInjective(bytes, s.value, 8);
  }
}
