/**
 * Exactly which strings bech32 decoding accepts: the encodings, in either case,
 * and nothing else; so a changed checksum or data part is never accepted.
 */
module Bech32Exact {
  import opened Wrappers
  import opened Bech32

  // ------------------------------------------- the checksum is the only one

  /** `w` followed by one more symbol. */
  function Join(w: bv32, d: bv5): bv32 {
    Xor(Shl5(w), d as bv32)
  }

  /** The symbols as one number. */
  function WordOf(c: seq<bv5>): bv32 {
    if c == [] then 0 else Join(WordOf(c[..|c| - 1]), c[|c| - 1])
  }

  predicate Bits5(a: bv32) {
    a & 0xffff_ffe0 == 0
  }

  predicate Bits10(a: bv32) {
    a & 0xffff_fc00 == 0
  }

  predicate Bits15(a: bv32) {
    a & 0xffff_8000 == 0
  }

  predicate Bits20(a: bv32) {
    a & 0xfff0_0000 == 0
  }

  /** At most `5 * k` bits. */
  predicate Narrow(a: bv32, k: nat)
    requires k <= 6
  {
    match k
    case 0 => a == 0
    case 1 => Bits5(a)
    case 2 => Bits10(a)
    case 3 => Bits15(a)
    case 4 => Bits20(a)
    case 5 => Low25(a)
    case 6 => Low30(a)
  }

  lemma Widen0(a: bv32)
    ensures a == 0 ==> Low25(a)
  {
  }

  lemma Widen1(a: bv32)
    ensures Bits5(a) ==> Low25(a)
  {
  }

  lemma Widen2(a: bv32)
    ensures Bits10(a) ==> Low25(a)
  {
  }

  lemma Widen3(a: bv32)
    ensures Bits15(a) ==> Low25(a)
  {
  }

  lemma Widen4(a: bv32)
    ensures Bits20(a) ==> Low25(a)
  {
  }

  lemma NarrowIsLow(a: bv32, k: nat)
    requires k <= 5 && Narrow(a, k)
    ensures Low25(a)
  {
    hide Bits5, Bits10, Bits15, Bits20, Low25, Low30;
    Widen0(a);
    Widen1(a);
    Widen2(a);
    Widen3(a);
    Widen4(a);
  }

  lemma Narrower0(a: bv32, d: bv5)
    ensures a == 0 ==> Bits5(Join(a, d))
  {
  }

  lemma Narrower1(a: bv32, d: bv5)
    ensures Bits5(a) ==> Bits10(Join(a, d))
  {
  }

  lemma Narrower2(a: bv32, d: bv5)
    ensures Bits10(a) ==> Bits15(Join(a, d))
  {
  }

  lemma Narrower3(a: bv32, d: bv5)
    ensures Bits15(a) ==> Bits20(Join(a, d))
  {
  }

  lemma Narrower4(a: bv32, d: bv5)
    ensures Bits20(a) ==> Low25(Join(a, d))
  {
  }

  lemma Narrower5(a: bv32, d: bv5)
    ensures Low25(a) ==> Low30(Join(a, d))
  {
  }

  lemma Narrower(a: bv32, d: bv5)
    ensures a == 0 ==> Bits5(Join(a, d))
    ensures Bits5(a) ==> Bits10(Join(a, d))
    ensures Bits10(a) ==> Bits15(Join(a, d))
    ensures Bits15(a) ==> Bits20(Join(a, d))
    ensures Bits20(a) ==> Low25(Join(a, d))
    ensures Low25(a) ==> Low30(Join(a, d))
  {
    hide Join, Bits5, Bits10, Bits15, Bits20, Low25, Low30;
    Narrower0(a, d);
    Narrower1(a, d);
    Narrower2(a, d);
    Narrower3(a, d);
    Narrower4(a, d);
    Narrower5(a, d);
  }

  lemma {:induction false} WordNarrow(c: seq<bv5>)
    requires |c| <= 6
    ensures Narrow(WordOf(c), |c|)
  {
    hide Join, Bits5, Bits10, Bits15, Bits20, Low25, Low30;
    if c != [] {
      WordNarrow(c[..|c| - 1]);
      Narrower(WordOf(c[..|c| - 1]), c[|c| - 1]);
    }
  }

  lemma JoinParts(w: bv32, d: bv5)
    requires Low25(w)
    ensures Shr5(Join(w, d)) == w && Low5(Join(w, d)) == d
  {
  }

  lemma Low30Masked(a: bv32)
    requires Low30(a)
    ensures Mask30(a) == a
  {
  }

  /** The symbols of a word made of six symbols are those. */
  lemma {:induction false} PrefixOfWord(c: seq<bv5>, k: nat)
    requires |c| == 6 && k <= 6
    ensures Prefix(WordOf(c), k) == WordOf(c[..k])
    decreases 6 - k
  {
    hide Join, Shr5, Low5, Mask30, Low25, Low30;
    if k == 6 {
      WordNarrow(c);
      assert Low30(WordOf(c)) by { NarrowSix(WordOf(c)); }
      Low30Masked(WordOf(c));
      assert c[..6] == c;
    } else {
      PrefixOfWord(c, k + 1);
      assert c[..k + 1][..k] == c[..k] && c[..k + 1][k] == c[k];
      WordNarrow(c[..k]);
      NarrowIsLow(WordOf(c[..k]), k);
      JoinParts(WordOf(c[..k]), c[k]);
    }
  }

  lemma NarrowSix(a: bv32)
    requires Narrow(a, 6)
    ensures Low30(a)
  {
    hide Low30;
  }

  lemma SymbolsOfWord(c: seq<bv5>)
    requires |c| == 6
    ensures Symbols(WordOf(c)) == c && Mask30(WordOf(c)) == WordOf(c)
  {
    hide Join, Shr5, Low5, Mask30, Low25, Low30, Prefix, Symbol, Narrow;
    forall k: nat | k < 6
      ensures Symbols(WordOf(c))[k] == c[k]
    {
      SymbolOfPrefix(WordOf(c), k);
      PrefixOfWord(c, k + 1);
      assert c[..k + 1][..k] == c[..k] && c[..k + 1][k] == c[k];
      WordNarrow(c[..k]);
      NarrowIsLow(WordOf(c[..k]), k);
      JoinParts(WordOf(c[..k]), c[k]);
    }
    WordNarrow(c);
    NarrowSix(WordOf(c));
    Low30Masked(WordOf(c));
  }

  lemma XorSolve(a: bv32, b: bv32)
    requires Xor(a, b) == 1
    ensures b == Xor(a, 1)
  {
  }

  /** Six symbols bring the residue to 1 only if they are the checksum. */
  lemma ChecksumUnique(values: seq<bv5>, c: seq<bv5>)
    requires |c| == 6 && Polymod(values + c) == 1
    ensures c == Symbols(ChecksumWord(values))
  {
    hide Step, Xor, Prefix, Symbols, Fold, Low30, Mask30, WordOf;
    var plm := WordOf(c);
    var before := Fold(1, values);
    SymbolsOfWord(c);
    FoldCat(1, values, c);
    FoldCat(1, values, Zeros(6));
    assert Symbols(plm)[..6] == c;
    SymbolsAdd(before, plm, 6);
    PrefixEnds(plm);
    XorSolve(Fold(before, Zeros(6)), plm);
  }

  // ------------------------------------------------------- the strings accepted

  lemma {:induction false} PositionIs(c: char, i: nat)
    requires i <= 32 && PositionFrom(c, i).Some?
    ensures PositionFrom(c, i).value < 32 && CHARSET[PositionFrom(c, i).value] == c
    decreases 32 - i
  {
    if CHARSET[i] != c { PositionIs(c, i + 1); }
  }

  lemma FiveBitsBack(i: nat)
    requires i < 32
    ensures (i as bv5) as nat == i
  {
  }

  lemma CharOfValue(c: char)
    requires ValueOf(c).Some?
    ensures CharOf(ValueOf(c).value) == c
  {
    hide PositionFrom;
    PositionIs(c, 0);
    FiveBitsBack(PositionFrom(c, 0).value);
  }

  /** Parsed characters are the characters of what was parsed. */
  lemma {:induction false} CharsOfParsed(s: string)
    requires ParseChars(s).Ok?
    ensures Chars(ParseChars(s).value) == s
  {
    if s != [] {
      hide CharOf, ValueOf;
      var n := |s| - 1;
      CharsOfParsed(s[..n]);
      CharOfValue(s[n]);
      assert s == s[..n] + [s[n]];
    }
  }

  lemma {:induction false} SeparatorIs(s: string)
    requires LastSeparator(s).Some?
    ensures s[LastSeparator(s).value] == '1'
  {
    if s[|s| - 1] != '1' { SeparatorIs(s[..|s| - 1]); }
  }

  lemma LoweredHasNoCapitals(s: string)
    ensures !AnyUpper(ToLower(s)) && ToLower(ToLower(s)) == ToLower(s)
  {
    forall i | 0 <= i < |s| ensures !IsUpper(ToLower(s)[i]) {
    }
    LowerKeeps(ToLower(s));
  }

  /** What decodes is an encoding of what it decodes to. */
  lemma DecodedIsEncoded(s: string)
    requires Decode(s).Ok?
    ensures Decode(s).value.hrp != "" && ToLower(s) == Encode(Decode(s).value.hrp, Decode(s).value.data)
  {
    hide Polymod, HrpExpand, ParseChars, Symbols, ChecksumWord, Lower, LastSeparator, Chars, AnyLower, AnyUpper;
    var l := ToLower(s);
    var sep := LastSeparator(l).value;
    SeparatorIs(l);
    var tail := l[sep + 1..];
    var values := ParseChars(tail).value;
    ParseLength(tail);
    CharsOfParsed(tail);
    var hrp, data, sum := l[..sep], values[..|values| - 6], values[|values| - 6..];
    assert values == data + sum;
    assert HrpExpand(hrp) + values == (HrpExpand(hrp) + data) + sum;
    ChecksumUnique(HrpExpand(hrp) + data, sum);
    assert l == hrp + [l[sep]] + tail;
  }

  /** Decoding depends on the letters but not on their case. */
  lemma CaseFree(s: string)
    requires !(AnyLower(s) && AnyUpper(s))
    ensures Decode(s) == Decode(ToLower(s))
  {
    hide Polymod, HrpExpand, ParseChars, LastSeparator, AnyLower, AnyUpper;
    LoweredHasNoCapitals(s);
  }

  /** The strings accepted are exactly the encodings, all in one case. */
  lemma DecodesExactly(s: string, hrp: string, data: seq<bv5>)
    ensures Decode(s) == Ok(Decoded(hrp, data)) <==>
            !(AnyLower(s) && AnyUpper(s)) && hrp != "" && ToLower(s) == Encode(hrp, data)
  {
    hide Encode, AnyLower, AnyUpper, Lower, Polymod, HrpExpand, ParseChars, LastSeparator;
    if Decode(s) == Ok(Decoded(hrp, data)) {
      DecodedIsEncoded(s);
    }
    if !(AnyLower(s) && AnyUpper(s)) && hrp != "" && ToLower(s) == Encode(hrp, data) {
      CaseFree(s);
      LoweredHasNoCapitals(s);
      EncodedParts(hrp, data);
      RoundTrip(hrp, data);
    }
  }

  // ------------------------------------------------------------- a known string

  /** The shortest valid string of BIP-173. */
  lemma KnownString()
    ensures Encode("a", []) == "a12uel5l"
  {
    assert HrpExpand("a") == [3, 0, 1];
    var v: seq<bv5> := [3, 0, 1, 0, 0, 0, 0, 0, 0];
    assert HrpExpand("a") + [] + Zeros(6) == v;
    KnownFold(v);
    KnownSymbols();
  }

  lemma KnownSteps()
    ensures Step(0x1, 3) == 0x23
    ensures Step(0x23, 0) == 0x460
    ensures Step(0x460, 1) == 0x8c01
    ensures Step(0x8c01, 0) == 0x118020
    ensures Step(0x118020, 0) == 0x2300400
    ensures Step(0x2300400, 0) == 0x3d6ad7b2
    ensures Step(0x3d6ad7b2, 0) == 0x2fd30b9
    ensures Step(0x2fd30b9, 0) == 0x24cc4092
    ensures Step(0x24cc4092, 0) == 0x15ccfe9e
  {
  }

  lemma KnownFold(v: seq<bv5>)
    requires v == [3, 0, 1, 0, 0, 0, 0, 0, 0]
    ensures Polymod(v) == 0x15cc_fe9e
  {
    hide Step;
    KnownSteps();
    assert v[..0] == [] && v[..9] == v;
    FoldStep(1, v[..0], 3);
    assert v[..1] == v[..0] + [3];
    FoldStep(1, v[..1], 0);
    assert v[..2] == v[..1] + [0];
    FoldStep(1, v[..2], 1);
    assert v[..3] == v[..2] + [1];
    FoldStep(1, v[..3], 0);
    assert v[..4] == v[..3] + [0];
    FoldStep(1, v[..4], 0);
    assert v[..5] == v[..4] + [0];
    FoldStep(1, v[..5], 0);
    assert v[..6] == v[..5] + [0];
    FoldStep(1, v[..6], 0);
    assert v[..7] == v[..6] + [0];
    FoldStep(1, v[..7], 0);
    assert v[..8] == v[..7] + [0];
    FoldStep(1, v[..8], 0);
    assert v[..9] == v[..8] + [0];
  }

  lemma KnownSymbols()
    ensures Chars(Symbols(0x15cc_fe9f)) == "2uel5l"
  {
    assert Symbols(0x15cc_fe9f) == [10, 28, 25, 31, 20, 31];
  }
}
