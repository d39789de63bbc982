/**
 * BigSize, the length prefix of section "Fundamental Types" of BOLT 1:
 * a value below 0xfd is its own byte, a larger one is a marker byte and the
 * big-endian value, and only the shortest form is accepted.
 */
module BigSize {
  import opened Wrappers
  import Bits

  type Bytes = seq<bv8>

  datatype WireError = UnexpectedEnd | NonMinimal

  /** A value and the number of bytes it was read from. */
  datatype Read = Read(value: nat, consumed: nat)

  const U64_LIMIT: nat := 0x1_0000_0000_0000_0000

  function Pack(b0: bool, b1: bool, b2: bool, b3: bool, b4: bool, b5: bool, b6: bool, b7: bool): bv8 {
    (if b0 then 1 else 0) | (if b1 then 2 else 0) | (if b2 then 4 else 0) | (if b3 then 8 else 0)
    | (if b4 then 16 else 0) | (if b5 then 32 else 0) | (if b6 then 64 else 0) | (if b7 then 128 else 0)
  }

  predicate Flag(b: bv8, mask: bv8) {
    b & mask != 0
  }

  function Digit(on: bool): nat {
    if on then 1 else 0
  }

  predicate Odd(v: nat) {
    v % 2 == 1
  }

  /** `v` halved `n` times, for the bits of a byte. */
  function Half(v: nat, n: nat): nat {
    if n == 0 then v else Half(v, n - 1) / 2
  }

  /** A number below 256 as a byte, bit by bit. */
  function ToByte(v: nat): bv8
    requires v < 256
  {
    Pack(Odd(v), Odd(Half(v, 1)), Odd(Half(v, 2)), Odd(Half(v, 3)),
         Odd(Half(v, 4)), Odd(Half(v, 5)), Odd(Half(v, 6)), Odd(Half(v, 7)))
  }

  function FromBits(b0: bool, b1: bool, b2: bool, b3: bool, b4: bool, b5: bool, b6: bool, b7: bool): nat {
    Digit(b0) + 2 * (Digit(b1) + 2 * (Digit(b2) + 2 * (Digit(b3) + 2 * (Digit(b4)
      + 2 * (Digit(b5) + 2 * (Digit(b6) + 2 * Digit(b7)))))))
  }

  function FromByte(b: bv8): nat {
    FromBits(Flag(b, 1), Flag(b, 2), Flag(b, 4), Flag(b, 8), Flag(b, 16), Flag(b, 32), Flag(b, 64), Flag(b, 128))
  }

  lemma PackFlags(b0: bool, b1: bool, b2: bool, b3: bool, b4: bool, b5: bool, b6: bool, b7: bool)
    ensures var p := Pack(b0, b1, b2, b3, b4, b5, b6, b7);
            && Flag(p, 1) == b0 && Flag(p, 2) == b1 && Flag(p, 4) == b2 && Flag(p, 8) == b3
            && Flag(p, 16) == b4 && Flag(p, 32) == b5 && Flag(p, 64) == b6 && Flag(p, 128) == b7
  {
  }

  lemma FlagsPack(b: bv8)
    ensures Pack(Flag(b, 1), Flag(b, 2), Flag(b, 4), Flag(b, 8), Flag(b, 16), Flag(b, 32), Flag(b, 64), Flag(b, 128)) == b
  {
  }

  lemma HalfSteps(v: nat)
    ensures Half(v, 0) == v && Half(v, 1) == v / 2
    ensures forall n | 0 < n <= 8 :: Half(v, n) == Half(v, n - 1) / 2
  {
  }

  lemma OneBit(v: nat, n: nat)
    ensures Half(v, n) == Digit(Odd(Half(v, n))) + 2 * Half(v, n + 1)
  {
  }

  lemma HalfBelow(v: nat, n: nat, k: nat)
    requires Half(v, n) < 2 * k
    ensures Half(v, n + 1) < k
  {
  }

  /** Eight halvings take a number below 256 to zero, one bit at a time. */
  lemma BitsOf(v: nat)
    requires v < 256
    ensures FromBits(Odd(v), Odd(Half(v, 1)), Odd(Half(v, 2)), Odd(Half(v, 3)),
                     Odd(Half(v, 4)), Odd(Half(v, 5)), Odd(Half(v, 6)), Odd(Half(v, 7))) == v
  {
    hide Half, Odd, Digit;
    NotHalved(v);
    HalfBelow(v, 0, 128);
    HalfBelow(v, 1, 64);
    HalfBelow(v, 2, 32);
    HalfBelow(v, 3, 16);
    HalfBelow(v, 4, 8);
    HalfBelow(v, 5, 4);
    HalfBelow(v, 6, 2);
    HalfBelow(v, 7, 1);
    OneBit(v, 0);
    OneBit(v, 1);
    OneBit(v, 2);
    OneBit(v, 3);
    OneBit(v, 4);
    OneBit(v, 5);
    OneBit(v, 6);
    OneBit(v, 7);
  }

  lemma NotHalved(v: nat)
    ensures Half(v, 0) == v
  {
  }

  lemma BitsBack(b0: bool, b1: bool, b2: bool, b3: bool, b4: bool, b5: bool, b6: bool, b7: bool)
    ensures var v := FromBits(b0, b1, b2, b3, b4, b5, b6, b7);
            && v < 256
            && Odd(v) == b0 && Odd(Half(v, 1)) == b1 && Odd(Half(v, 2)) == b2 && Odd(Half(v, 3)) == b3
            && Odd(Half(v, 4)) == b4 && Odd(Half(v, 5)) == b5 && Odd(Half(v, 6)) == b6 && Odd(Half(v, 7)) == b7
  {
    hide Half;
    var v := FromBits(b0, b1, b2, b3, b4, b5, b6, b7);
    HalfSteps(v);
    var v7 := Digit(b7);
    var v6 := Digit(b6) + 2 * v7;
    var v5 := Digit(b5) + 2 * v6;
    var v4 := Digit(b4) + 2 * v5;
    var v3 := Digit(b3) + 2 * v4;
    var v2 := Digit(b2) + 2 * v3;
    var v1 := Digit(b1) + 2 * v2;
    assert Half(v, 1) == v1;
    assert Half(v, 2) == v2;
    assert Half(v, 3) == v3;
    assert Half(v, 4) == v4;
    assert Half(v, 5) == v5;
    assert Half(v, 6) == v6;
    assert Half(v, 7) == v7;
  }

  lemma ByteInverse(v: nat)
    requires v < 256
    ensures FromByte(ToByte(v)) == v
  {
    hide Pack, Flag, FromBits, Half;
    PackFlags(Odd(v), Odd(Half(v, 1)), Odd(Half(v, 2)), Odd(Half(v, 3)),
              Odd(Half(v, 4)), Odd(Half(v, 5)), Odd(Half(v, 6)), Odd(Half(v, 7)));
    BitsOf(v);
  }

  lemma ByteCanonical(b: bv8)
    ensures FromByte(b) < 256 && ToByte(FromByte(b)) == b
  {
    hide Pack, Flag, FromBits, Half, Odd;
    FlagsPack(b);
    BitsBack(Flag(b, 1), Flag(b, 2), Flag(b, 4), Flag(b, 8), Flag(b, 16), Flag(b, 32), Flag(b, 64), Flag(b, 128));
  }

  function Power256(n: nat): (r: nat)
    ensures r >= 1
  {
    if n == 0 then 1 else 256 * Power256(n - 1)
  }

  function BigEndian(v: nat, width: nat): (r: Bytes)
    ensures |r| == width
  {
    if width == 0 then [] else BigEndian(v / 256, width - 1) + [ToByte(v % 256)]
  }

  function FromBigEndian(s: Bytes): nat {
    if s == [] then 0 else FromBigEndian(s[..|s| - 1]) * 256 + FromByte(s[|s| - 1])
  }

  lemma FromSnoc(s: Bytes, b: bv8)
    ensures FromBigEndian(s + [b]) == FromBigEndian(s) * 256 + FromByte(b)
  {
    hide FromByte;
    assert (s + [b])[..|s|] == s;
  }

  lemma Quotients(v: nat, p: nat)
    requires p > 0
    ensures v / 256 / p == v / (256 * p)
  {
    var q, r := v / (256 * p), v % (256 * p);
    assert v == 256 * (p * q) + r;
    assert v / 256 == p * q + r / 256 && 0 <= r / 256 < p;
    Bits.QuotientRemainder(v / 256, p, r / 256, q);
  }

  /** The bytes are the digits, most significant first. */
  lemma {:induction false} BigEndianDigits(v: nat, width: nat, i: nat)
    requires i < width
    ensures FromByte(BigEndian(v, width)[i]) == v / Power256(width - 1 - i) % 256
  {
    hide ToByte, FromByte;
    if i == width - 1 {
      ByteInverse(v % 256);
    } else {
      BigEndianDigits(v / 256, width - 1, i);
      Quotients(v, Power256(width - 2 - i));
    }
  }

  lemma Quotient256(v: nat, p: nat)
    requires v < p * 256
    ensures v / 256 < p && v == v / 256 * 256 + v % 256
  {
  }

  lemma {:induction false} BigEndianInverse(v: nat, width: nat)
    requires v < Power256(width)
    ensures FromBigEndian(BigEndian(v, width)) == v
  {
    hide ToByte, FromByte;
    if width > 0 {
      Quotient256(v, Power256(width - 1));
      ByteInverse(v % 256);
      var rest := BigEndian(v / 256, width - 1);
      assert BigEndian(v, width) == rest + [ToByte(v % 256)];
      BigEndianInverse(v / 256, width - 1);
      FromSnoc(rest, ToByte(v % 256));
    }
  }

  lemma Widths()
    ensures Power256(2) == 0x1_0000 && Power256(4) == 0x1_0000_0000 && Power256(8) == U64_LIMIT
  {
    assert Power256(1) == 256;
    assert Power256(3) == 256 * Power256(2);
    assert Power256(5) == 256 * Power256(4);
    assert Power256(6) == 256 * Power256(5);
    assert Power256(7) == 256 * Power256(6);
  }

  /** The marker and width of a value; the value itself below 0xfd. */
  function Len(v: nat): nat {
    if v < 0xfd then 1 else if v < 0x1_0000 then 3 else if v < 0x1_0000_0000 then 5 else 9
  }

  function Write(v: nat): (r: Bytes)
    requires v < U64_LIMIT
    ensures |r| == Len(v)
  {
    if v < 0xfd then [ToByte(v)]
    else if v < 0x1_0000 then [ToByte(0xfd)] + BigEndian(v, 2)
    else if v < 0x1_0000_0000 then [ToByte(0xfe)] + BigEndian(v, 4)
    else [ToByte(0xff)] + BigEndian(v, 8)
  }

  /** A `width`-byte value after the marker, above the range of the next shorter form. */
  function ReadWide(s: Bytes, width: nat, least: nat): Result<Read, WireError>
    requires |s| >= 1
  {
    if |s| < 1 + width then Err(UnexpectedEnd)
    else
      var v := FromBigEndian(s[1..1 + width]);
      if v < least then Err(NonMinimal) else Ok(Read(v, 1 + width))
  }

  function ReadFrom(s: Bytes): (r: Result<Read, WireError>)
    ensures r.Ok? ==> 1 <= r.value.consumed <= |s|
    ensures r.Ok? && r.value.value < 0x1_0000 ==> r.value.consumed <= 3
  {
    if s == [] then Err(UnexpectedEnd)
    else
      var first := FromByte(s[0]);
      if first == 0xfd then ReadWide(s, 2, 0xfd)
      else if first == 0xfe then ReadWide(s, 4, 0x1_0000)
      else if first == 0xff then ReadWide(s, 8, 0x1_0000_0000)
      else Ok(Read(first, 1))
  }

  /** Reading undoes writing, whatever follows. */
  lemma RoundTrip(v: nat, rest: Bytes)
    requires v < U64_LIMIT
    ensures ReadFrom(Write(v) + rest) == Ok(Read(v, Len(v)))
  {
    hide ToByte, FromByte, Power256, BigEndian, FromBigEndian;
    Widths();
    var s := Write(v) + rest;
    var width := Len(v) - 1;
    if v < 0xfd {
      ByteInverse(v);
    } else {
      ByteInverse(0xfd);
      ByteInverse(0xfe);
      ByteInverse(0xff);
      assert s[1..1 + width] == BigEndian(v, width);
      BigEndianInverse(v, width);
    }
  }

  lemma {:induction false} BigEndianCanonical(s: Bytes)
    ensures FromBigEndian(s) < Power256(|s|)
    ensures BigEndian(FromBigEndian(s), |s|) == s
  {
    hide ToByte, FromByte;
    if s != [] {
      ByteCanonical(s[|s| - 1]);
      BigEndianCanonical(s[..|s| - 1]);
    }
  }

  /** Only the shortest form is read: what was consumed is what `Write` gives. */
  lemma Canonical(s: Bytes)
    requires ReadFrom(s).Ok?
    ensures var r := ReadFrom(s).value;
            r.value < U64_LIMIT && r.consumed <= |s| && Write(r.value) == s[..r.consumed]
  {
    hide ToByte, FromByte, Power256, BigEndian, FromBigEndian;
    Widths();
    ByteCanonical(s[0]);
    var r := ReadFrom(s).value;
    if r.consumed > 1 {
      BigEndianCanonical(s[1..r.consumed]);
      assert s[..r.consumed] == [s[0]] + s[1..r.consumed];
    }
  }
}
