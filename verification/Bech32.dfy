/**
 * Bech32 with the checksum constant 1 of BIP-173, without its length limit.
 * The checksum works because one step of it is linear over exclusive or.
 */
module Bech32 {
  import opened Wrappers

  const CHARSET: string := "qpzry9x8gf2tvdw0s3jn54khce6mua7l"

  datatype Bech32Error = BadChar | BadChecksum | NoSeparator | MixedCase | PaddingError

  // --------------------------------------------------------------- checksum

  function Xor(a: bv32, b: bv32): bv32 {
    a ^ b
  }

  function Shl5(a: bv32): bv32 {
    a << 5
  }

  function Shr5(a: bv32): bv32 {
    a >> 5
  }

  /** The part that is shifted, and the five bits above it. */
  function Rest(chk: bv32): bv32 {
    (chk & 0x01ff_ffff) << 5
  }

  function Top(chk: bv32): bv32 {
    chk >> 25
  }

  /** Bit `i` of the five. */
  predicate Bit(b: bv32, i: nat)
    requires i < 5
  {
    (b >> i) & 1 != 0
  }

  function Picked(picked: bool, g: bv32): bv32 {
    if picked then g else 0
  }

  function Reduction(b: bv32): bv32 {
    Xor(Picked(Bit(b, 0), 0x3b6a_57b2),
        Xor(Picked(Bit(b, 1), 0x2650_8e6d),
            Xor(Picked(Bit(b, 2), 0x1ea1_19fa),
                Xor(Picked(Bit(b, 3), 0x3d42_33dd), Picked(Bit(b, 4), 0x2a14_62b3)))))
  }

  function Step(chk: bv32, v: bv32): bv32 {
    Xor(Xor(Rest(chk), v), Reduction(Top(chk)))
  }

  /** `t` has nothing in the top seven bits. */
  predicate Low25(t: bv32) {
    t & 0xfe00_0000 == 0
  }

  lemma TopUntouched(a: bv32, t: bv32)
    requires Low25(t)
    ensures Top(Xor(a, t)) == Top(a)
  {
  }

  lemma RestShifts(a: bv32, t: bv32)
    requires Low25(t)
    ensures Rest(Xor(a, t)) == Xor(Rest(a), Shl5(t))
  {
  }

  lemma Regroup(x: bv32, y: bv32, v: bv32, r: bv32)
    ensures Xor(Xor(Xor(x, y), v), r) == Xor(Xor(Xor(x, 0), r), Xor(y, v))
  {
  }

  /** Adding something that does not reach the top only shifts it. */
  lemma StepLinear(a: bv32, t: bv32, v: bv32)
    requires Low25(t)
    ensures Step(Xor(a, t), v) == Xor(Step(a, 0), Xor(Shl5(t), v))
  {
    hide Xor, Rest, Top, Reduction, Shl5;
    TopUntouched(a, t);
    RestShifts(a, t);
    Regroup(Rest(a), Shl5(t), v, Reduction(Top(a)));
  }

  function Fold(chk: bv32, values: seq<bv5>): bv32 {
    if values == [] then chk else Step(Fold(chk, values[..|values| - 1]), values[|values| - 1] as bv32)
  }

  function Polymod(values: seq<bv5>): bv32 {
    Fold(1, values)
  }

  lemma {:induction false} FoldCat(chk: bv32, a: seq<bv5>, b: seq<bv5>)
    ensures Fold(chk, a + b) == Fold(Fold(chk, a), b)
  {
    hide Step;
    if b == [] {
      assert a + b == a;
    } else {
      var n := |b| - 1;
      FoldCat(chk, a, b[..n]);
      assert (a + b)[..|a| + n] == a + b[..n];
    }
  }

  /** Symbol `i` of six in a checksum word. */
  function Symbol(plm: bv32, i: nat): bv5
    requires i < 6
  {
    var shifted :=
      if i == 0 then plm >> 25 else if i == 1 then plm >> 20 else if i == 2 then plm >> 15
      else if i == 3 then plm >> 10 else if i == 4 then plm >> 5 else plm;
    Low5(shifted)
  }

  function Low5(a: bv32): bv5 {
    (a & 31) as bv5
  }

  function Symbols(plm: bv32): (r: seq<bv5>)
    ensures |r| == 6
  {
    [Symbol(plm, 0), Symbol(plm, 1), Symbol(plm, 2), Symbol(plm, 3), Symbol(plm, 4), Symbol(plm, 5)]
  }

  function Mask30(a: bv32): bv32 {
    a & 0x3fff_ffff
  }

  /** The first `k` symbols of the checksum word as one number. */
  function Prefix(plm: bv32, k: nat): bv32
    requires k <= 6
    decreases 6 - k
  {
    if k == 6 then Mask30(plm) else Shr5(Prefix(plm, k + 1))
  }

  predicate Low30(a: bv32) {
    a & 0xc000_0000 == 0
  }

  lemma Rejoin(a: bv32)
    ensures a == Xor(Shl5(Shr5(a)), Low5(a) as bv32)
  {
  }

  lemma SameSymbols(a: bv32)
    ensures Low5(a) == Low5(Mask30(a)) && Low5(a >> 5) == Low5(Shr5(Mask30(a)))
    ensures Low5(a >> 10) == Low5(Shr5(Shr5(Mask30(a)))) && Low5(a >> 15) == Low5(Shr5(Shr5(Shr5(Mask30(a)))))
    ensures Low5(a >> 20) == Low5(Shr5(Shr5(Shr5(Shr5(Mask30(a))))))
    ensures Low5(a >> 25) == Low5(Shr5(Shr5(Shr5(Shr5(Shr5(Mask30(a)))))))
  {
  }

  lemma SixShifts(a: bv32)
    ensures Shr5(Shr5(Shr5(Shr5(Shr5(Shr5(Mask30(a))))))) == 0
  {
  }

  lemma MaskLow(a: bv32)
    ensures Low30(Mask30(a))
  {
  }

  lemma ShiftLow(a: bv32)
    requires Low30(a)
    ensures Low25(Shr5(a)) && Low30(Shr5(a))
  {
  }

  lemma {:induction false} PrefixLow(plm: bv32, k: nat)
    requires k <= 6
    ensures Low30(Prefix(plm, k))
    decreases 6 - k
  {
    hide Low30, Mask30, Shr5;
    MaskLow(plm);
    if k < 6 {
      PrefixLow(plm, k + 1);
      ShiftLow(Prefix(plm, k + 1));
    }
  }

  lemma Unrolled(a: bv32)
    ensures Prefix(a, 6) == Mask30(a) && Prefix(a, 5) == Shr5(Mask30(a)) && Prefix(a, 4) == Shr5(Shr5(Mask30(a)))
    ensures Prefix(a, 3) == Shr5(Shr5(Shr5(Mask30(a)))) && Prefix(a, 2) == Shr5(Shr5(Shr5(Shr5(Mask30(a)))))
    ensures Prefix(a, 1) == Shr5(Shr5(Shr5(Shr5(Shr5(Mask30(a)))))) && Prefix(a, 0) == Shr5(Shr5(Shr5(Shr5(Shr5(Shr5(Mask30(a)))))))
  {
    hide Shr5, Mask30;
    assert Prefix(a, 4) == Shr5(Prefix(a, 5));
    assert Prefix(a, 2) == Shr5(Prefix(a, 3));
    assert Prefix(a, 0) == Shr5(Prefix(a, 1));
  }

  lemma SymbolOfPrefix(plm: bv32, k: nat)
    requires k < 6
    ensures Symbol(plm, k) == Low5(Prefix(plm, k + 1))
  {
    hide Low5, Mask30, Shr5, Prefix;
    SameSymbols(plm);
    Unrolled(plm);
  }

  lemma PrefixStep(plm: bv32, k: nat)
    requires k < 6
    ensures Low25(Prefix(plm, k))
    ensures Prefix(plm, k + 1) == Xor(Shl5(Prefix(plm, k)), Symbol(plm, k) as bv32)
  {
    hide Low25, Low30, Xor, Shl5, Shr5, Low5, Symbol;
    assert Prefix(plm, k) == Shr5(Prefix(plm, k + 1));
    hide Prefix;
    PrefixLow(plm, k + 1);
    ShiftLow(Prefix(plm, k + 1));
    SymbolOfPrefix(plm, k);
    Rejoin(Prefix(plm, k + 1));
  }

  lemma PrefixEnds(plm: bv32)
    ensures Prefix(plm, 0) == 0 && Prefix(plm, 6) == Mask30(plm)
  {
    hide Mask30, Shr5;
    Unrolled(plm);
    SixShifts(plm);
  }

  lemma XorZero(a: bv32)
    ensures Xor(a, 0) == a
  {
  }

  function Zeros(n: nat): seq<bv5> {
    seq(n, _ => 0)
  }

  lemma FoldStep(chk: bv32, values: seq<bv5>, v: bv5)
    ensures Fold(chk, values + [v]) == Step(Fold(chk, values), v as bv32)
  {
    assert (values + [v])[..|values|] == values;
  }

  /** The symbols add their own number to what zeros would have given. */
  lemma {:induction false} SymbolsAdd(chk: bv32, plm: bv32, k: nat)
    requires k <= 6
    ensures Fold(chk, Symbols(plm)[..k]) == Xor(Fold(chk, Zeros(k)), Prefix(plm, k))
  {
    hide Step, Xor, Prefix, Shl5, Low25, Symbol;
    if k == 0 {
      PrefixEnds(plm);
      XorZero(chk);
    } else {
      var symbols := Symbols(plm);
      hide Fold;
      SymbolsAdd(chk, plm, k - 1);
      assert symbols[..k] == symbols[..k - 1] + [Symbol(plm, k - 1)];
      assert Zeros(k) == Zeros(k - 1) + [0];
      FoldStep(chk, symbols[..k - 1], Symbol(plm, k - 1));
      FoldStep(chk, Zeros(k - 1), 0);
      PrefixStep(plm, k - 1);
      StepLinear(Fold(chk, Zeros(k - 1)), Prefix(plm, k - 1), Symbol(plm, k - 1) as bv32);
    }
  }

  lemma PickedLow(picked: bool, g: bv32)
    requires Low30(g)
    ensures Low30(Picked(picked, g))
  {
  }

  lemma XorLow(a: bv32, b: bv32)
    requires Low30(a) && Low30(b)
    ensures Low30(Xor(a, b))
  {
  }

  lemma GeneratorsLow()
    ensures Low30(0x3b6a_57b2) && Low30(0x2650_8e6d) && Low30(0x1ea1_19fa) && Low30(0x3d42_33dd) && Low30(0x2a14_62b3)
  {
  }

  lemma ReductionLow(b: bv32)
    ensures Low30(Reduction(b))
  {
    hide Xor, Low30, Picked, Bit;
    GeneratorsLow();
    var p0, p1, p2 := Picked(Bit(b, 0), 0x3b6a_57b2), Picked(Bit(b, 1), 0x2650_8e6d), Picked(Bit(b, 2), 0x1ea1_19fa);
    var p3, p4 := Picked(Bit(b, 3), 0x3d42_33dd), Picked(Bit(b, 4), 0x2a14_62b3);
    PickedLow(Bit(b, 0), 0x3b6a_57b2);
    PickedLow(Bit(b, 1), 0x2650_8e6d);
    PickedLow(Bit(b, 2), 0x1ea1_19fa);
    PickedLow(Bit(b, 3), 0x3d42_33dd);
    PickedLow(Bit(b, 4), 0x2a14_62b3);
    XorLow(p3, p4);
    XorLow(p2, Xor(p3, p4));
    XorLow(p1, Xor(p2, Xor(p3, p4)));
    XorLow(p0, Xor(p1, Xor(p2, Xor(p3, p4))));
  }

  lemma StepLow(chk: bv32, v: bv5)
    ensures Low30(Step(chk, v as bv32))
  {
    hide Reduction;
    ReductionLow(Top(chk));
    LowParts(Rest(chk), v, Reduction(Top(chk)));
    RestLow(chk);
  }

  lemma RestLow(chk: bv32)
    ensures Low30(Rest(chk))
  {
  }

  lemma LowParts(x: bv32, v: bv5, r: bv32)
    ensures Low30(x) && Low30(r) ==> Low30(Xor(Xor(x, v as bv32), r))
  {
  }

  lemma Cancels(f: bv32)
    requires Low30(f)
    ensures Xor(f, Mask30(Xor(f, 1))) == 1
  {
  }

  /** The word encoded into the checksum. */
  function ChecksumWord(values: seq<bv5>): bv32 {
    Xor(Polymod(values + Zeros(6)), 1)
  }

  /** Appending the checksum brings the residue to 1, whatever came before. */
  lemma ChecksumVerifies(values: seq<bv5>)
    ensures Polymod(values + Symbols(ChecksumWord(values))) == 1
  {
    hide Step, Xor, Prefix, Symbols, Fold, Low30, Mask30;
    var plm := ChecksumWord(values);
    var before := Fold(1, values);
    var f := Fold(before, Zeros(6));
    FoldCat(1, values, Zeros(6));
    FoldCat(1, values, Symbols(plm));
    assert Symbols(plm)[..6] == Symbols(plm);
    SymbolsAdd(before, plm, 6);
    PrefixEnds(plm);
    ZerosLow(before);
    Cancels(f);
  }

  lemma ZerosLow(chk: bv32)
    ensures Low30(Fold(chk, Zeros(6)))
  {
    hide Step, Low30;
    StepLow(Fold(chk, Zeros(6)[..5]), 0);
  }

  // --------------------------------------------------------------- alphabet

  function CharOf(d: bv5): char {
    CHARSET[d as nat]
  }

  lemma CharsetDistinct(i: nat, j: nat)
    requires i < j < 32
    ensures CHARSET[i] != CHARSET[j]
  {
  }

  predicate IsLower(c: char) {
    'a' <= c <= 'z'
  }

  predicate IsUpper(c: char) {
    'A' <= c <= 'Z'
  }

  /** Neither a separator nor a capital. */
  lemma CharsetPlain(i: nat)
    requires i < 32
    ensures CHARSET[i] != '1' && !IsUpper(CHARSET[i])
  {
  }

  function PositionFrom(c: char, i: nat): Option<nat>
    requires i <= 32
    decreases 32 - i
  {
    if i == 32 then None else if CHARSET[i] == c then Some(i) else PositionFrom(c, i + 1)
  }

  lemma {:induction false} PositionFound(k: nat, i: nat)
    requires i <= k < 32
    ensures PositionFrom(CHARSET[k], i) == Some(k)
    decreases k - i
  {
    if i < k {
      CharsetDistinct(i, k);
      PositionFound(k, i + 1);
    }
  }

  function ValueOf(c: char): Option<bv5> {
    match PositionFrom(c, 0)
    case None => None
    case Some(i) => if i < 32 then Some(i as bv5) else None
  }

  lemma ValueOfChar(d: bv5)
    ensures ValueOf(CharOf(d)) == Some(d)
  {
    PositionFound(d as nat, 0);
  }

  function Chars(data: seq<bv5>): (r: string)
    ensures |r| == |data| && forall i | 0 <= i < |r| :: r[i] == CharOf(data[i])
  {
    seq(|data|, i requires 0 <= i < |data| => CharOf(data[i]))
  }

  function ParseChars(s: string): Result<seq<bv5>, Bech32Error> {
    if s == [] then Ok([])
    else
      var n := |s| - 1;
      match ParseChars(s[..n])
      case Err(e) => Err(e)
      case Ok(data) =>
        match ValueOf(s[n])
        case None => Err(BadChar)
        case Some(v) => Ok(data + [v])
  }

  lemma {:induction false} ParseCharsBack(data: seq<bv5>)
    ensures ParseChars(Chars(data)) == Ok(data)
  {
    if data != [] {
      hide CharOf, ValueOf;
      var n := |data| - 1;
      ParseCharsBack(data[..n]);
      assert Chars(data)[..n] == Chars(data[..n]);
      ValueOfChar(data[n]);
      assert data == data[..n] + [data[n]];
    }
  }

  // ------------------------------------------------------ encode and decode

  /** The high bits of each character, a zero, the low five bits of each. */
  function HrpExpand(hrp: string): seq<bv5> {
    seq(|hrp|, i requires 0 <= i < |hrp| => (hrp[i] as int / 32 % 32) as bv5)
    + [0]
    + seq(|hrp|, i requires 0 <= i < |hrp| => (hrp[i] as int % 32) as bv5)
  }

  function Checksummed(hrp: string, data: seq<bv5>): seq<bv5> {
    data + Symbols(ChecksumWord(HrpExpand(hrp) + data))
  }

  function Encode(hrp: string, data: seq<bv5>): string {
    hrp + "1" + Chars(Checksummed(hrp, data))
  }

  function Lower(c: char): char {
    if IsUpper(c) then c - 'A' + 'a' else c
  }

  function ToLower(s: string): (r: string)
    ensures |r| == |s| && forall i | 0 <= i < |s| :: r[i] == Lower(s[i])
  {
    seq(|s|, i requires 0 <= i < |s| => Lower(s[i]))
  }

  function LastSeparator(s: string): (r: Option<nat>)
    ensures r.Some? ==> r.value < |s|
  {
    if s == [] then None
    else if s[|s| - 1] == '1' then Some(|s| - 1)
    else LastSeparator(s[..|s| - 1])
  }

  predicate AnyLower(s: string) {
    exists i | 0 <= i < |s| :: IsLower(s[i])
  }

  predicate AnyUpper(s: string) {
    exists i | 0 <= i < |s| :: IsUpper(s[i])
  }

  datatype Decoded = Decoded(hrp: string, data: seq<bv5>)

  lemma {:induction false} ParseLength(s: string)
    ensures ParseChars(s).Ok? ==> |ParseChars(s).value| == |s|
  {
    if s != [] {
      ParseLength(s[..|s| - 1]);
    }
  }

  function Decode(original: string): Result<Decoded, Bech32Error> {
    if AnyLower(original) && AnyUpper(original) then Err(MixedCase)
    else
      var s := ToLower(original);
      match LastSeparator(s)
      case None => Err(NoSeparator)
      case Some(sep) =>
        if sep == 0 || sep + 7 > |s| then Err(NoSeparator)
        else
          match ParseChars(s[sep + 1..])
          case Err(e) => Err(e)
          case Ok(values) =>
            ParseLength(s[sep + 1..]);
            if Polymod(HrpExpand(s[..sep]) + values) != 1 then Err(BadChecksum)
            else Ok(Decoded(s[..sep], values[..|values| - 6]))
  }

  lemma {:induction false} SeparatorFound(hrp: string, rest: string)
    requires forall i | 0 <= i < |rest| :: rest[i] != '1'
    ensures LastSeparator(hrp + "1" + rest) == Some(|hrp|)
  {
    var s := hrp + "1" + rest;
    if rest != [] {
      assert s[..|s| - 1] == hrp + "1" + rest[..|rest| - 1];
      SeparatorFound(hrp, rest[..|rest| - 1]);
    }
  }

  /** The encoded data part has no separator and no capital. */
  lemma EncodedPlain(data: seq<bv5>, i: nat)
    requires i < |data|
    ensures Chars(data)[i] != '1' && !IsUpper(Chars(data)[i])
  {
    CharsetPlain(data[i] as nat);
  }

  lemma LowerKeeps(s: string)
    requires !AnyUpper(s)
    ensures ToLower(s) == s
  {
    forall i | 0 <= i < |s|
      ensures ToLower(s)[i] == s[i]
    {
      assert !IsUpper(s[i]);
    }
  }

  lemma EncodedParts(hrp: string, data: seq<bv5>)
    ensures var s := Encode(hrp, data);
            && |s| == |hrp| + 7 + |data|
            && s[..|hrp|] == hrp && s[|hrp| + 1..] == Chars(Checksummed(hrp, data))
            && LastSeparator(s) == Some(|hrp|)
            && (AnyUpper(s) <==> AnyUpper(hrp))
  {
    hide CharOf, Symbols, ChecksumWord, HrpExpand;
    var values := Checksummed(hrp, data);
    var chars := Chars(values);
    var s := Encode(hrp, data);
    forall i | 0 <= i < |chars|
      ensures chars[i] != '1' && !IsUpper(chars[i])
    {
      EncodedPlain(values, i);
    }
    SeparatorFound(hrp, chars);
    assert forall i | 0 <= i < |hrp| :: s[i] == hrp[i];
    assert forall i | |hrp| < i < |s| :: s[i] == chars[i - |hrp| - 1];
    if AnyUpper(s) {
      var i :| 0 <= i < |s| && IsUpper(s[i]);
      assert i < |hrp|;
      assert IsUpper(hrp[i]);
    }
    if AnyUpper(hrp) {
      var i :| 0 <= i < |hrp| && IsUpper(hrp[i]);
      assert IsUpper(s[i]);
    }
  }

  lemma CapitalsLost(s: string, hrp: string)
    requires AnyUpper(hrp) && |hrp| <= |s| && s[..|hrp|] == hrp
    ensures ToLower(s)[..|hrp|] != hrp
  {
    var i :| 0 <= i < |hrp| && IsUpper(hrp[i]);
    assert s[i] == s[..|hrp|][i] == hrp[i];
    assert ToLower(s)[..|hrp|][i] == Lower(hrp[i]) != hrp[i];
  }

  /**
   * Decoding undoes encoding for every 5-bit data, exactly for the prefixes that
   * are not empty and have no capital.
   */
  lemma RoundTrip(hrp: string, data: seq<bv5>)
    requires !AnyUpper(hrp)
    ensures hrp != "" ==> Decode(Encode(hrp, data)) == Ok(Decoded(hrp, data))
    ensures hrp == "" ==> Decode(Encode(hrp, data)) == Err(NoSeparator)
  {
    hide Encode, Chars, Symbols, HrpExpand, Polymod, AnyUpper, AnyLower, LastSeparator;
    EncodedParts(hrp, data);
    var s := Encode(hrp, data);
    LowerKeeps(s);
    ParseCharsBack(Checksummed(hrp, data));
    ChecksumVerifies(HrpExpand(hrp) + data);
    var sum := Symbols(ChecksumWord(HrpExpand(hrp) + data));
    assert HrpExpand(hrp) + (data + sum) == HrpExpand(hrp) + data + sum;
    assert (data + sum)[..|data|] == data;
  }

  /** A prefix with capitals never comes back. */
  lemma CapitalsRefused(hrp: string, data: seq<bv5>)
    requires AnyUpper(hrp)
    ensures Decode(Encode(hrp, data)) != Ok(Decoded(hrp, data))
  {
    hide Encode, Chars, HrpExpand, Polymod, ParseChars, AnyUpper, AnyLower;
    EncodedParts(hrp, data);
    var s := Encode(hrp, data);
    CapitalsLost(s, hrp);
    var r := Decode(s);
    if r.Ok? && |r.value.hrp| == |hrp| {
      assert r.value.hrp == ToLower(s)[..|hrp|];
    }
  }

  // ------------------------------------------------------- the source's loops

  function AddIf(x: bv32, picked: bool, g: bv32): bv32 {
    if picked then Xor(x, g) else x
  }

  lemma AddIfIs(x: bv32, picked: bool, g: bv32)
    ensures AddIf(x, picked, g) == Xor(x, Picked(picked, g))
  {
    hide Xor;
    XorZero(x);
  }

  lemma XorAssociates(x: bv32, y: bv32, z: bv32)
    ensures Xor(Xor(x, y), z) == Xor(x, Xor(y, z))
  {
  }

  lemma GeneratorsAdd(x: bv32, b: bv32)
    ensures AddIf(AddIf(AddIf(AddIf(AddIf(x, Bit(b, 0), 0x3b6a_57b2), Bit(b, 1), 0x2650_8e6d), Bit(b, 2), 0x1ea1_19fa),
                        Bit(b, 3), 0x3d42_33dd), Bit(b, 4), 0x2a14_62b3)
            == Xor(x, Reduction(b))
  {
    hide Xor, AddIf, Picked, Bit;
    var p0, p1, p2 := Picked(Bit(b, 0), 0x3b6a_57b2), Picked(Bit(b, 1), 0x2650_8e6d), Picked(Bit(b, 2), 0x1ea1_19fa);
    var p3, p4 := Picked(Bit(b, 3), 0x3d42_33dd), Picked(Bit(b, 4), 0x2a14_62b3);
    AddIfIs(x, Bit(b, 0), 0x3b6a_57b2);
    AddIfIs(Xor(x, p0), Bit(b, 1), 0x2650_8e6d);
    AddIfIs(Xor(Xor(x, p0), p1), Bit(b, 2), 0x1ea1_19fa);
    AddIfIs(Xor(Xor(Xor(x, p0), p1), p2), Bit(b, 3), 0x3d42_33dd);
    AddIfIs(Xor(Xor(Xor(Xor(x, p0), p1), p2), p3), Bit(b, 4), 0x2a14_62b3);
    XorAssociates(Xor(Xor(Xor(x, p0), p1), p2), p3, p4);
    XorAssociates(Xor(Xor(x, p0), p1), p2, Xor(p3, p4));
    XorAssociates(Xor(x, p0), p1, Xor(p2, Xor(p3, p4)));
    XorAssociates(x, p0, Xor(p1, Xor(p2, Xor(p3, p4))));
  }

  method ComputePolymod(values: seq<bv5>) returns (chk: bv32)
    ensures chk == Polymod(values)
  {
    hide Xor, Reduction, Rest, Top;
    chk := 1;
    for i := 0 to |values|
      invariant chk == Fold(1, values[..i])
    {
      assert values[..i + 1][..i] == values[..i];
      chk := OneStep(chk, values[i]);
    }
    assert values[..|values|] == values;
  }

  method OneStep(before: bv32, v: bv5) returns (chk: bv32)
    ensures chk == Step(before, v as bv32)
  {
    hide Reduction, AddIf, Xor, Rest, Top, Bit;
    var b := Top(before);
    chk := Xor(Rest(before), v as bv32);
    GeneratorsAdd(chk, b);
    chk := AddIf(chk, Bit(b, 0), 0x3b6a_57b2);
    chk := AddIf(chk, Bit(b, 1), 0x2650_8e6d);
    chk := AddIf(chk, Bit(b, 2), 0x1ea1_19fa);
    chk := AddIf(chk, Bit(b, 3), 0x3d42_33dd);
    chk := AddIf(chk, Bit(b, 4), 0x2a14_62b3);
  }

  method EncodeString(hrp: string, data: seq<bv5>) returns (out: string)
    ensures out == Encode(hrp, data)
  {
    hide CharOf, Symbol, HrpExpand, Polymod;
    var plm := ComputePolymod(HrpExpand(hrp) + data + Zeros(6));
    plm := Xor(plm, 1);
    out := hrp + "1";
    var values := data + Symbols(plm);
    for i := 0 to |values|
      invariant out == hrp + "1" + Chars(values[..i])
    {
      assert Chars(values[..i + 1]) == Chars(values[..i]) + [CharOf(values[i])];
      out := out + [CharOf(values[i])];
    }
    assert values[..|values|] == values;
  }

  method DecodeString(original: string) returns (r: Result<Decoded, Bech32Error>)
    ensures r == Decode(original)
  {
    hide HrpExpand, Polymod, ToLower, LastSeparator;
    if AnyLower(original) && AnyUpper(original) {
      return Err(MixedCase);
    }
    var s := ToLower(original);
    var sep := LastSeparator(s);
    if sep.None? || sep.value == 0 || sep.value + 7 > |s| {
      return Err(NoSeparator);
    }
    var values, ok := ParseLoop(s[sep.value + 1..]);
    if !ok {
      return Err(BadChar);
    }
    ParseLength(s[sep.value + 1..]);
    var chk := ComputePolymod(HrpExpand(s[..sep.value]) + values);
    if chk != 1 {
      return Err(BadChecksum);
    }
    return Ok(Decoded(s[..sep.value], values[..|values| - 6]));
  }

  method ParseLoop(s: string) returns (values: seq<bv5>, ok: bool)
    ensures ParseChars(s) == if ok then Ok(values) else Err(BadChar)
  {
    hide ValueOf;
    values := [];
    for i := 0 to |s|
      invariant ParseChars(s[..i]) == Ok(values)
    {
      assert s[..i + 1][..i] == s[..i];
      var v := ValueOf(s[i]);
      if v.None? {
        ParseFails(s, i + 1);
        return values, false;
      }
      values := values + [v.value];
    }
    assert s[..|s|] == s;
    return values, true;
  }

  lemma {:induction false} ParseFails(s: string, n: nat)
    requires n <= |s| && ParseChars(s[..n]) == Err(BadChar)
    ensures ParseChars(s) == Err(BadChar)
    decreases |s| - n
  {
    if n < |s| {
      assert s[..n + 1][..n] == s[..n];
      ParseFails(s, n + 1);
    } else {
      assert s[..n] == s;
    }
  }
}
