/**
 * Building a commitment transaction (BOLT 3, "Commitment Transaction
 * Construction"): stage the outputs, sort them, and remember where each HTLC
 * went. Script templates are arbitrary functions.
 */
module CommitmentTx {
  import opened Wrappers
  import opened TxOutputs
  import opened Powers
  import opened Bits
  import Channel

  const HTLC_TIMEOUT_TX_WEIGHT: nat := 663
  const HTLC_SUCCESS_TX_WEIGHT: nat := 703

  type HtlcOutput = Channel.HtlcOutput

  datatype Scripts = Scripts(delayed: Script, remote: Script, htlc: HtlcOutput -> Script)

  datatype Params = Params(
    number: nat, obscureFactor: nat, broadcasterPaysFee: bool, feerate: nat, dustLimit: nat,
    scripts: Scripts, toBroadcaster: nat, toCountersignatory: nat, htlcs: seq<HtlcOutput>)

  datatype Origin = Broadcaster | Countersignatory | FromHtlc(index: nat)

  datatype Staged = Staged(rank: Ranked, origin: Origin)

  datatype Built = Built(
    lockTime: nat, sequence: nat, outputs: seq<TxOut>, fee: nat,
    htlcIndices: seq<Option<nat>>, htlcOrder: seq<nat>,
    broadcasterIndex: Option<nat>, countersignatoryIndex: Option<nat>)

  // ---------------------------------------------------------------- staging

  function Trimmed(p: Params, h: HtlcOutput): bool {
    h.amount / 1000 < p.dustLimit +
      Channel.FeeForWeight(p.feerate, if h.offered then HTLC_TIMEOUT_TX_WEIGHT else HTLC_SUCCESS_TX_WEIGHT)
  }

  function UntrimmedCount(p: Params, htlcs: seq<HtlcOutput>): nat {
    if htlcs == [] then 0
    else
      var n := |htlcs| - 1;
      UntrimmedCount(p, htlcs[..n]) + if Trimmed(p, htlcs[n]) then 0 else 1
  }

  function BaseFee(p: Params): nat {
    Channel.CommitmentFee(p.feerate, UntrimmedCount(p, p.htlcs))
  }

  function ToBroadcasterSat(p: Params): nat {
    Channel.SaturatingSub(p.toBroadcaster / 1000, if p.broadcasterPaysFee then BaseFee(p) else 0)
  }

  function ToCountersignatorySat(p: Params): nat {
    Channel.SaturatingSub(p.toCountersignatory / 1000, if p.broadcasterPaysFee then 0 else BaseFee(p))
  }

  function RankOf(p: Params, h: HtlcOutput): Ranked {
    Ranked(TxOut(h.amount / 1000, p.scripts.htlc(h)), h.cltvExpiry)
  }

  function StagedBalances(p: Params): seq<Staged> {
    (if ToBroadcasterSat(p) >= p.dustLimit
     then [Staged(Ranked(TxOut(ToBroadcasterSat(p), p.scripts.delayed), 0), Broadcaster)] else [])
    + (if ToCountersignatorySat(p) >= p.dustLimit
       then [Staged(Ranked(TxOut(ToCountersignatorySat(p), p.scripts.remote), 0), Countersignatory)] else [])
  }

  /** The outputs of the first `n` HTLCs. */
  function StagedHtlcs(p: Params, n: nat): seq<Staged>
    requires n <= |p.htlcs|
  {
    if n == 0 then []
    else
      StagedHtlcs(p, n - 1) +
      if Trimmed(p, p.htlcs[n - 1]) then [] else [Staged(RankOf(p, p.htlcs[n - 1]), FromHtlc(n - 1))]
  }

  function StagedAll(p: Params): seq<Staged> {
    StagedBalances(p) + StagedHtlcs(p, |p.htlcs|)
  }

  // ---------------------------------------------------------------- sorting

  predicate InOrder(s: seq<Staged>) {
    forall i, j | 0 <= i < j < |s| :: Le(s[i].rank, s[j].rank)
  }

  /** Put `x` after everything not above it. */
  function Insert(s: seq<Staged>, x: Staged): (r: seq<Staged>)
    requires InOrder(s)
    ensures InOrder(r) && multiset(r) == multiset(s) + multiset{x}
  {
    if s == [] || Le(s[|s| - 1].rank, x.rank) then
      Below(s, x);
      s + [x]
    else
      var n := |s| - 1;
      assert s == s[..n] + [s[n]];
      var r := Insert(s[..n], x);
      Total(s[n].rank, x.rank);
      Above(s[..n], x, r, s[n]);
      r + [s[n]]
  }

  lemma Below(s: seq<Staged>, x: Staged)
    requires InOrder(s) && (s != [] ==> Le(s[|s| - 1].rank, x.rank))
    ensures InOrder(s + [x])
  {
    forall i | 0 <= i < |s|
      ensures Le(s[i].rank, x.rank)
    {
      if i < |s| - 1 {
        Transitive(s[i].rank, s[|s| - 1].rank, x.rank);
      }
    }
  }

  lemma Above(s: seq<Staged>, x: Staged, r: seq<Staged>, top: Staged)
    requires InOrder(r) && multiset(r) == multiset(s) + multiset{x}
    requires Le(x.rank, top.rank) && InOrder(s + [top])
    ensures InOrder(r + [top])
  {
    forall i | 0 <= i < |r|
      ensures Le(r[i].rank, top.rank)
    {
      assert r[i] in multiset(r);
      if r[i] != x {
        assert r[i] in multiset(s);
        assert r[i] in s;
        var k :| 0 <= k < |s| && s[k] == r[i];
        assert Le((s + [top])[k].rank, (s + [top])[|s|].rank);
      }
    }
  }

  function Sort(s: seq<Staged>): (r: seq<Staged>)
    ensures InOrder(r) && multiset(r) == multiset(s)
  {
    if s == [] then []
    else
      assert s == s[..|s| - 1] + [s[|s| - 1]];
      Insert(Sort(s[..|s| - 1]), s[|s| - 1])
  }

  // ------------------------------------------- order depends on contents only

  function Ranks(s: seq<Staged>): (r: seq<Ranked>)
    ensures |r| == |s| && forall i | 0 <= i < |s| :: r[i] == s[i].rank
  {
    seq(|s|, i requires 0 <= i < |s| => s[i].rank)
  }

  predicate RanksInOrder(s: seq<Ranked>) {
    forall i, j | 0 <= i < j < |s| :: Le(s[i], s[j])
  }

  /** A collection of outputs has one sorted arrangement. */
  lemma {:induction false} SortedUnique(s: seq<Ranked>, t: seq<Ranked>)
    requires RanksInOrder(s) && RanksInOrder(t) && multiset(s) == multiset(t)
    ensures s == t
  {
    hide Le, RanksInOrder;
    assert |s| == |multiset(s)| == |multiset(t)| == |t|;
    if s != [] {
      var n := |s| - 1;
      TopOf(s, t);
      TopOf(t, s);
      Antisymmetric(s[n], t[n]);
      WithoutTop(s);
      WithoutTop(t);
      SortedUnique(s[..n], t[..n]);
    }
  }

  lemma WithoutTop(s: seq<Ranked>)
    requires s != [] && RanksInOrder(s)
    ensures var n := |s| - 1;
            && RanksInOrder(s[..n]) && s == s[..n] + [s[n]]
            && multiset(s[..n]) == multiset(s) - multiset{s[n]}
  {
    hide Le;
    var n := |s| - 1;
    assert s == s[..n] + [s[n]];
    assert multiset(s) == multiset(s[..n]) + multiset{s[n]};
  }

  lemma TopOf(s: seq<Ranked>, t: seq<Ranked>)
    requires s != [] && t != [] && RanksInOrder(t) && multiset(s) == multiset(t)
    ensures Le(s[|s| - 1], t[|t| - 1])
  {
    var top := s[|s| - 1];
    assert top in multiset(t);
    assert top in t;
    var k :| 0 <= k < |t| && t[k] == top;
    Total(top, top);
  }

  /** The ranks of the untrimmed HTLCs, as a collection. */
  function HtlcRanks(p: Params, htlcs: seq<HtlcOutput>): multiset<Ranked> {
    if htlcs == [] then multiset{}
    else
      var n := |htlcs| - 1;
      HtlcRanks(p, htlcs[..n]) + if Trimmed(p, htlcs[n]) then multiset{} else multiset{RankOf(p, htlcs[n])}
  }

  lemma {:induction false} HtlcRanksCat(p: Params, a: seq<HtlcOutput>, b: seq<HtlcOutput>)
    ensures HtlcRanks(p, a + b) == HtlcRanks(p, a) + HtlcRanks(p, b)
    ensures UntrimmedCount(p, a + b) == UntrimmedCount(p, a) + UntrimmedCount(p, b)
  {
    hide HtlcRanks, UntrimmedCount;
    if b == [] {
      assert a + b == a;
      NoHtlcs(p);
    } else {
      var n := |b| - 1;
      HtlcRanksCat(p, a, b[..n]);
      assert a + b == (a + b[..n]) + [b[n]] && b == b[..n] + [b[n]];
      OneMore(p, a + b[..n], b[n]);
      OneMore(p, b[..n], b[n]);
    }
  }

  lemma NoHtlcs(p: Params)
    ensures HtlcRanks(p, []) == multiset{} && UntrimmedCount(p, []) == 0
  {
  }

  lemma OneMore(p: Params, s: seq<HtlcOutput>, h: HtlcOutput)
    ensures HtlcRanks(p, s + [h]) == HtlcRanks(p, s) + if Trimmed(p, h) then multiset{} else multiset{RankOf(p, h)}
    ensures UntrimmedCount(p, s + [h]) == UntrimmedCount(p, s) + if Trimmed(p, h) then 0 else 1
  {
    assert (s + [h])[..|s|] == s;
  }

  /** Only the collection of HTLCs matters. */
  lemma {:induction false} HtlcRanksPermuted(p: Params, a: seq<HtlcOutput>, b: seq<HtlcOutput>)
    requires multiset(a) == multiset(b)
    ensures HtlcRanks(p, a) == HtlcRanks(p, b) && UntrimmedCount(p, a) == UntrimmedCount(p, b)
  {
    hide HtlcRanks, UntrimmedCount;
    assert |a| == |multiset(a)| == |multiset(b)| == |b|;
    if a != [] {
      var n := |a| - 1;
      assert a == a[..n] + [a[n]];
      assert a[n] in multiset(b);
      assert a[n] in b;
      var k :| 0 <= k < |b| && b[k] == a[n];
      var before, after := b[..k], b[k + 1..];
      assert b == before + [b[k]] + after;
      assert multiset(a[..n]) == multiset(a) - multiset{a[n]};
      assert multiset(before + after) == multiset(b) - multiset{b[k]};
      HtlcRanksPermuted(p, a[..n], before + after);
      HtlcRanksCat(p, before + [b[k]], after);
      HtlcRanksCat(p, before, [b[k]]);
      HtlcRanksCat(p, before, after);
      HtlcRanksCat(p, a[..n], [a[n]]);
    }
  }

  // ------------------------------------------------------- ranks after sorting

  lemma RanksSnoc(s: seq<Staged>, x: Staged)
    ensures Ranks(s + [x]) == Ranks(s) + [x.rank]
  {
  }

  /** The HTLC outputs among `s`, in their order. */
  function HtlcPart(s: seq<Staged>): seq<Ranked> {
    if s == [] then []
    else
      var n := |s| - 1;
      HtlcPart(s[..n]) + if s[n].origin.FromHtlc? then [s[n].rank] else []
  }

  lemma HtlcPartSnoc(s: seq<Staged>, x: Staged)
    ensures HtlcPart(s + [x]) == HtlcPart(s) + if x.origin.FromHtlc? then [x.rank] else []
  {
    assert (s + [x])[..|s|] == s;
  }

  function SumOf(s: seq<Staged>): nat {
    if s == [] then 0 else SumOf(s[..|s| - 1]) + s[|s| - 1].rank.out.value
  }

  lemma SumSnoc(s: seq<Staged>, x: Staged)
    ensures SumOf(s + [x]) == SumOf(s) + x.rank.out.value
  {
    assert (s + [x])[..|s|] == s;
  }

  function Count(s: seq<Staged>, o: Origin): nat {
    if s == [] then 0 else Count(s[..|s| - 1], o) + if s[|s| - 1].origin == o then 1 else 0
  }

  lemma CountSnoc(s: seq<Staged>, x: Staged, o: Origin)
    ensures Count(s + [x], o) == Count(s, o) + if x.origin == o then 1 else 0
  {
    assert (s + [x])[..|s|] == s;
  }

  /** What an insertion adds to each of these. */
  lemma {:induction false} InsertAdds(s: seq<Staged>, x: Staged, o: Origin)
    requires InOrder(s)
    ensures var r := Insert(s, x);
            && multiset(Ranks(r)) == multiset(Ranks(s)) + multiset{x.rank}
            && multiset(HtlcPart(r)) == multiset(HtlcPart(s)) + (if x.origin.FromHtlc? then multiset{x.rank} else multiset{})
            && SumOf(r) == SumOf(s) + x.rank.out.value
            && Count(r, o) == Count(s, o) + if x.origin == o then 1 else 0
  {
    hide Ranks, HtlcPart, SumOf, Count, Le;
    if s == [] || Le(s[|s| - 1].rank, x.rank) {
      Snocs(s, x, o);
    } else {
      var n := |s| - 1;
      InsertAdds(s[..n], x, o);
      assert s == s[..n] + [s[n]];
      Snocs(s[..n], s[n], o);
      Snocs(Insert(s[..n], x), s[n], o);
    }
  }

  lemma Snocs(s: seq<Staged>, x: Staged, o: Origin)
    ensures multiset(Ranks(s + [x])) == multiset(Ranks(s)) + multiset{x.rank}
    ensures multiset(HtlcPart(s + [x])) ==
            multiset(HtlcPart(s)) + (if x.origin.FromHtlc? then multiset{x.rank} else multiset{})
    ensures SumOf(s + [x]) == SumOf(s) + x.rank.out.value
    ensures Count(s + [x], o) == Count(s, o) + if x.origin == o then 1 else 0
  {
    RanksSnoc(s, x);
    HtlcPartSnoc(s, x);
    SumSnoc(s, x);
    CountSnoc(s, x, o);
  }

  lemma {:induction false} SortKeeps(s: seq<Staged>, o: Origin)
    ensures multiset(Ranks(Sort(s))) == multiset(Ranks(s))
    ensures multiset(HtlcPart(Sort(s))) == multiset(HtlcPart(s))
    ensures SumOf(Sort(s)) == SumOf(s)
    ensures Count(Sort(s), o) == Count(s, o)
  {
    hide Ranks, HtlcPart, SumOf, Count, Insert, InOrder;
    if s != [] {
      var n := |s| - 1;
      SortKeeps(s[..n], o);
      assert s == s[..n] + [s[n]];
      Snocs(s[..n], s[n], o);
      InsertAdds(Sort(s[..n]), s[n], o);
    }
  }

  lemma {:induction false} HtlcPartInOrder(s: seq<Staged>)
    requires InOrder(s)
    ensures RanksInOrder(HtlcPart(s))
    ensures forall r | r in HtlcPart(s) :: exists i :: 0 <= i < |s| && s[i].rank == r
  {
    hide Le;
    if s != [] {
      var n := |s| - 1;
      HtlcPartInOrder(s[..n]);
      forall r | r in HtlcPart(s[..n])
        ensures Le(r, s[n].rank) && exists i :: 0 <= i < |s| && s[i].rank == r
      {
        var i :| 0 <= i < n && s[..n][i].rank == r;
        assert s[i].rank == r;
      }
      assert s[n].rank == s[n].rank;
    }
  }

  // ----------------------------------------------------- what was staged

  lemma {:induction false} StagedHtlcFacts(p: Params, n: nat, i: nat)
    requires n <= |p.htlcs|
    ensures multiset(Ranks(StagedHtlcs(p, n))) == HtlcRanks(p, p.htlcs[..n])
    ensures multiset(HtlcPart(StagedHtlcs(p, n))) == HtlcRanks(p, p.htlcs[..n])
    ensures Count(StagedHtlcs(p, n), FromHtlc(i)) == if i < n && !Trimmed(p, p.htlcs[i]) then 1 else 0
  {
    hide Ranks, HtlcPart, Count, HtlcRanks, Trimmed, RankOf;
    if n == 0 {
      NoHtlcs(p);
      NothingStaged(FromHtlc(i));
      assert p.htlcs[..0] == [];
    } else {
      StagedHtlcFacts(p, n - 1, i);
      assert p.htlcs[..n] == p.htlcs[..n - 1] + [p.htlcs[n - 1]];
      OneMore(p, p.htlcs[..n - 1], p.htlcs[n - 1]);
      var before := StagedHtlcs(p, n - 1);
      if Trimmed(p, p.htlcs[n - 1]) {
        assert StagedHtlcs(p, n) == before;
      } else {
        var x := Staged(RankOf(p, p.htlcs[n - 1]), FromHtlc(n - 1));
        assert StagedHtlcs(p, n) == before + [x];
        hide StagedHtlcs;
        Snocs(before, x, FromHtlc(i));
      }
    }
  }

  lemma NothingStaged(o: Origin)
    ensures Ranks([]) == [] && HtlcPart([]) == [] && Count([], o) == 0 && SumOf([]) == 0
  {
  }

  lemma {:induction false} CatFacts(a: seq<Staged>, b: seq<Staged>, o: Origin)
    ensures Ranks(a + b) == Ranks(a) + Ranks(b)
    ensures HtlcPart(a + b) == HtlcPart(a) + HtlcPart(b)
    ensures SumOf(a + b) == SumOf(a) + SumOf(b)
    ensures Count(a + b, o) == Count(a, o) + Count(b, o)
  {
    hide Ranks, HtlcPart, SumOf, Count;
    if b == [] {
      assert a + b == a;
      NothingStaged(o);
    } else {
      var n := |b| - 1;
      CatFacts(a, b[..n], o);
      assert a + b == (a + b[..n]) + [b[n]] && b == b[..n] + [b[n]];
      SnocFacts(a + b[..n], b[n], o);
      SnocFacts(b[..n], b[n], o);
    }
  }

  lemma SnocFacts(s: seq<Staged>, x: Staged, o: Origin)
    ensures Ranks(s + [x]) == Ranks(s) + [x.rank]
    ensures HtlcPart(s + [x]) == HtlcPart(s) + if x.origin.FromHtlc? then [x.rank] else []
    ensures SumOf(s + [x]) == SumOf(s) + x.rank.out.value
    ensures Count(s + [x], o) == Count(s, o) + if x.origin == o then 1 else 0
  {
    RanksSnoc(s, x);
    HtlcPartSnoc(s, x);
    SumSnoc(s, x);
    CountSnoc(s, x, o);
  }

  /** The two balance outputs are not HTLCs. */
  lemma BalancesFacts(p: Params, i: nat)
    ensures HtlcPart(StagedBalances(p)) == [] && Count(StagedBalances(p), FromHtlc(i)) == 0
    ensures SumOf(StagedBalances(p)) <= p.toBroadcaster / 1000 + p.toCountersignatory / 1000
  {
    hide BaseFee;
    var b := if ToBroadcasterSat(p) >= p.dustLimit
      then [Staged(Ranked(TxOut(ToBroadcasterSat(p), p.scripts.delayed), 0), Broadcaster)] else [];
    var c := if ToCountersignatorySat(p) >= p.dustLimit
      then [Staged(Ranked(TxOut(ToCountersignatorySat(p), p.scripts.remote), 0), Countersignatory)] else [];
    CatFacts(b, c, FromHtlc(i));
  }

  // ------------------------------------------------- independent of the order

  /** The outputs, and the HTLCs among them in output order. */
  function SortedRanks(p: Params): seq<Ranked> {
    Ranks(Sort(StagedAll(p)))
  }

  function SortedHtlcs(p: Params): seq<Ranked> {
    HtlcPart(Sort(StagedAll(p)))
  }

  lemma RanksOfBuild(p: Params)
    ensures multiset(SortedRanks(p)) == multiset(Ranks(StagedBalances(p))) + HtlcRanks(p, p.htlcs)
    ensures multiset(SortedHtlcs(p)) == HtlcRanks(p, p.htlcs)
    ensures RanksInOrder(SortedRanks(p)) && RanksInOrder(SortedHtlcs(p))
  {
    hide Ranks, HtlcPart, Le, StagedBalances, StagedHtlcs, HtlcRanks, Sort;
    var all := StagedAll(p);
    SortKeeps(all, Broadcaster);
    CatFacts(StagedBalances(p), StagedHtlcs(p, |p.htlcs|), Broadcaster);
    BalancesFacts(p, 0);
    StagedHtlcFacts(p, |p.htlcs|, 0);
    assert p.htlcs[..|p.htlcs|] == p.htlcs;
    HtlcPartInOrder(Sort(all));
  }

  lemma {:induction false} RanksElsewhere(p: Params, q: Params, htlcs: seq<HtlcOutput>)
    requires q == p.(htlcs := q.htlcs)
    ensures HtlcRanks(q, htlcs) == HtlcRanks(p, htlcs) && UntrimmedCount(q, htlcs) == UntrimmedCount(p, htlcs)
  {
    if htlcs != [] {
      RanksElsewhere(p, q, htlcs[..|htlcs| - 1]);
    }
  }

  /**
   * Permuting the HTLCs changes nothing that is signed: the outputs are the same,
   * and so is the sequence of HTLC outputs (value, script, expiry) by which HTLC
   * signatures are matched.
   */
  lemma OrderOfHtlcsIrrelevant(p: Params, q: Params)
    requires q == p.(htlcs := q.htlcs) && multiset(p.htlcs) == multiset(q.htlcs)
    ensures SortedRanks(p) == SortedRanks(q)
    ensures SortedHtlcs(p) == SortedHtlcs(q)
    ensures BaseFee(p) == BaseFee(q)
  {
    hide Ranks, HtlcPart, Le, HtlcRanks, UntrimmedCount, SortedRanks, SortedHtlcs, RanksInOrder;
    RanksOfBuild(p);
    RanksOfBuild(q);
    HtlcRanksPermuted(p, p.htlcs, q.htlcs);
    RanksElsewhere(p, q, q.htlcs);
    assert StagedBalances(p) == StagedBalances(q);
    SortedUnique(SortedRanks(p), SortedRanks(q));
    SortedUnique(SortedHtlcs(p), SortedHtlcs(q));
  }

  // ------------------------------------------------------------ conservation

  function AmountsSat(htlcs: seq<HtlcOutput>): nat {
    if htlcs == [] then 0 else AmountsSat(htlcs[..|htlcs| - 1]) + htlcs[|htlcs| - 1].amount / 1000
  }

  lemma {:induction false} StagedHtlcSum(p: Params, n: nat)
    requires n <= |p.htlcs|
    ensures SumOf(StagedHtlcs(p, n)) <= AmountsSat(p.htlcs[..n])
  {
    if n > 0 {
      StagedHtlcSum(p, n - 1);
      assert p.htlcs[..n][..n - 1] == p.htlcs[..n - 1];
      SumSnoc(StagedHtlcs(p, n - 1), Staged(RankOf(p, p.htlcs[n - 1]), FromHtlc(n - 1)));
      assert StagedHtlcs(p, n - 1) + [] == StagedHtlcs(p, n - 1);
    }
  }

  /** The outputs never pay out more than the balances and HTLCs hold. */
  lemma NeverOverspends(p: Params)
    ensures SumOf(Sort(StagedAll(p))) <=
            p.toBroadcaster / 1000 + p.toCountersignatory / 1000 + AmountsSat(p.htlcs)
  {
    hide SumOf, AmountsSat, StagedBalances, StagedHtlcs, Sort;
    SortKeeps(StagedAll(p), Broadcaster);
    CatFacts(StagedBalances(p), StagedHtlcs(p, |p.htlcs|), Broadcaster);
    BalancesFacts(p, 0);
    StagedHtlcSum(p, |p.htlcs|);
    assert p.htlcs[..|p.htlcs|] == p.htlcs;
  }

  // ------------------------------------------------------- who is paid what

  /** One balance's output: what is left of it in whole satoshis after `fee`, if worth keeping. */
  function BalanceOut(balance: nat, fee: nat, dustLimit: nat, script: Script): multiset<Ranked> {
    OutOf(if balance / 1000 < fee then 0 else balance / 1000 - fee, dustLimit, script)
  }

  function OutOf(value: nat, dustLimit: nat, script: Script): multiset<Ranked> {
    if value >= dustLimit then multiset{Ranked(TxOut(value, script), 0)} else multiset{}
  }

  /** The broadcaster is paid to its delayed script, the other party to its own, the whole fee comes
      out of the balance of the one that pays fees, and everything else is the untrimmed HTLCs. */
  lemma PaysEachItsOwn(p: Params)
    ensures multiset(SortedRanks(p)) ==
            BalanceOut(p.toBroadcaster, if p.broadcasterPaysFee then BaseFee(p) else 0, p.dustLimit, p.scripts.delayed)
            + BalanceOut(p.toCountersignatory, if p.broadcasterPaysFee then 0 else BaseFee(p), p.dustLimit, p.scripts.remote)
            + HtlcRanks(p, p.htlcs)
  {
    RanksOfBuild(p);
    BalanceRanksAre(p);
  }

  function OneStaged(value: nat, dustLimit: nat, script: Script, o: Origin): seq<Staged> {
    if value >= dustLimit then [Staged(Ranked(TxOut(value, script), 0), o)] else []
  }

  lemma OneStagedFacts(value: nat, dustLimit: nat, script: Script, o: Origin)
    ensures multiset(Ranks(OneStaged(value, dustLimit, script, o))) == OutOf(value, dustLimit, script)
    ensures SumOf(OneStaged(value, dustLimit, script, o)) + DustOf(value, dustLimit) == value
  {
    hide Ranks, SumOf;
    NothingStaged(o);
    var x := Staged(Ranked(TxOut(value, script), 0), o);
    assert [] + [x] == [x];
    Snocs([], x, o);
  }

  lemma BalancesAreTwo(p: Params)
    ensures StagedBalances(p) ==
            OneStaged(ToBroadcasterSat(p), p.dustLimit, p.scripts.delayed, Broadcaster)
            + OneStaged(ToCountersignatorySat(p), p.dustLimit, p.scripts.remote, Countersignatory)
  {
    hide ToBroadcasterSat, ToCountersignatorySat;
  }

  lemma BalancesLeft(p: Params)
    ensures OutOf(ToBroadcasterSat(p), p.dustLimit, p.scripts.delayed) ==
            BalanceOut(p.toBroadcaster, if p.broadcasterPaysFee then BaseFee(p) else 0, p.dustLimit, p.scripts.delayed)
    ensures OutOf(ToCountersignatorySat(p), p.dustLimit, p.scripts.remote) ==
            BalanceOut(p.toCountersignatory, if p.broadcasterPaysFee then 0 else BaseFee(p), p.dustLimit, p.scripts.remote)
  {
    hide BaseFee, OutOf;
  }

  lemma BalanceRanksAre(p: Params)
    ensures multiset(Ranks(StagedBalances(p))) ==
            BalanceOut(p.toBroadcaster, if p.broadcasterPaysFee then BaseFee(p) else 0, p.dustLimit, p.scripts.delayed)
            + BalanceOut(p.toCountersignatory, if p.broadcasterPaysFee then 0 else BaseFee(p), p.dustLimit, p.scripts.remote)
  {
    hide StagedBalances, Ranks, OutOf, ToBroadcasterSat, ToCountersignatorySat, BalanceOut;
    BalancesLeft(p);
    var one := OutOf(ToBroadcasterSat(p), p.dustLimit, p.scripts.delayed);
    var two := OutOf(ToCountersignatorySat(p), p.dustLimit, p.scripts.remote);
    StagedRanks(p, one, two);
  }

  lemma StagedRanks(p: Params, one: multiset<Ranked>, two: multiset<Ranked>)
    requires one == OutOf(ToBroadcasterSat(p), p.dustLimit, p.scripts.delayed)
    requires two == OutOf(ToCountersignatorySat(p), p.dustLimit, p.scripts.remote)
    ensures multiset(Ranks(StagedBalances(p))) == one + two
  {
    hide ToBroadcasterSat, ToCountersignatorySat, Ranks, OneStaged, StagedBalances, OutOf;
    BalancesAreTwo(p);
    var b := OneStaged(ToBroadcasterSat(p), p.dustLimit, p.scripts.delayed, Broadcaster);
    var c := OneStaged(ToCountersignatorySat(p), p.dustLimit, p.scripts.remote, Countersignatory);
    CatFacts(b, c, Broadcaster);
    OneStagedFacts(ToBroadcasterSat(p), p.dustLimit, p.scripts.delayed, Broadcaster);
    OneStagedFacts(ToCountersignatorySat(p), p.dustLimit, p.scripts.remote, Countersignatory);
    assert multiset(Ranks(b) + Ranks(c)) == multiset(Ranks(b)) + multiset(Ranks(c));
  }

  /** An HTLC has an output exactly when what its second stage leaves is not dust. */
  lemma TrimmedExactlyWhen(p: Params, h: HtlcOutput)
    ensures var fee := p.feerate * (if h.offered then 663 else 703) / 1000;
            Trimmed(p, h) <==> h.amount / 1000 < fee || h.amount / 1000 - fee < p.dustLimit
  {
  }

  /** The fee is the weight of the outputs at the fee rate, rounded down. */
  lemma FeeExact(p: Params)
    ensures BaseFee(p) * 1000 <= p.feerate * (724 + 172 * UntrimmedCount(p, p.htlcs)) < (BaseFee(p) + 1) * 1000
  {
    hide UntrimmedCount;
  }

  /** What has no output: balances below the dust limit and trimmed HTLCs. */
  function DustOf(value: nat, dustLimit: nat): nat {
    if value < dustLimit then value else 0
  }

  function TrimmedSat(p: Params, htlcs: seq<HtlcOutput>): nat {
    if htlcs == [] then 0
    else
      var n := |htlcs| - 1;
      TrimmedSat(p, htlcs[..n]) + if Trimmed(p, htlcs[n]) then htlcs[n].amount / 1000 else 0
  }

  /** Nothing is lost or made: when the payer can pay the fee, outputs, fee and everything too small
      for an output add up to the balances and HTLCs in whole satoshis. */
  lemma CommitmentConserves(p: Params)
    requires BaseFee(p) <= (if p.broadcasterPaysFee then p.toBroadcaster else p.toCountersignatory) / 1000
    ensures SumOf(Sort(StagedAll(p))) + BaseFee(p) + DustOf(ToBroadcasterSat(p), p.dustLimit)
            + DustOf(ToCountersignatorySat(p), p.dustLimit) + TrimmedSat(p, p.htlcs) ==
            p.toBroadcaster / 1000 + p.toCountersignatory / 1000 + AmountsSat(p.htlcs)
  {
    hide SumOf, AmountsSat, StagedBalances, StagedHtlcs, Sort, TrimmedSat, BaseFee;
    SortKeeps(StagedAll(p), Broadcaster);
    CatFacts(StagedBalances(p), StagedHtlcs(p, |p.htlcs|), Broadcaster);
    BalanceSum(p);
    StagedHtlcSumExact(p, |p.htlcs|);
    assert p.htlcs[..|p.htlcs|] == p.htlcs;
  }

  lemma BalanceSum(p: Params)
    ensures SumOf(StagedBalances(p)) + DustOf(ToBroadcasterSat(p), p.dustLimit)
            + DustOf(ToCountersignatorySat(p), p.dustLimit) == ToBroadcasterSat(p) + ToCountersignatorySat(p)
  {
    hide ToBroadcasterSat, ToCountersignatorySat, SumOf, OneStaged, StagedBalances, DustOf;
    BalancesAreTwo(p);
    CatFacts(OneStaged(ToBroadcasterSat(p), p.dustLimit, p.scripts.delayed, Broadcaster),
             OneStaged(ToCountersignatorySat(p), p.dustLimit, p.scripts.remote, Countersignatory), Broadcaster);
    OneStagedFacts(ToBroadcasterSat(p), p.dustLimit, p.scripts.delayed, Broadcaster);
    OneStagedFacts(ToCountersignatorySat(p), p.dustLimit, p.scripts.remote, Countersignatory);
  }

  lemma {:induction false} StagedHtlcSumExact(p: Params, n: nat)
    requires n <= |p.htlcs|
    ensures SumOf(StagedHtlcs(p, n)) + TrimmedSat(p, p.htlcs[..n]) == AmountsSat(p.htlcs[..n])
  {
    hide Trimmed;
    if n > 0 {
      StagedHtlcSumExact(p, n - 1);
      assert p.htlcs[..n][..n - 1] == p.htlcs[..n - 1];
      SumSnoc(StagedHtlcs(p, n - 1), Staged(RankOf(p, p.htlcs[n - 1]), FromHtlc(n - 1)));
      assert StagedHtlcs(p, n - 1) + [] == StagedHtlcs(p, n - 1);
    }
  }
}
