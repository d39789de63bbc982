/** The source's construction of a commitment transaction: where each output
    went, and the obscured commitment number in its lock time and sequence. */
module CommitmentBuild {
  import opened Wrappers
  import opened TxOutputs
  import opened Powers
  import opened Bits
  import opened CommitmentTx

  // ------------------------------------------------------ the hidden number

  function Xor(x: nat, y: nat): nat
    decreases x + y
  {
    if x + y == 0 then 0
    else (if x % 2 != y % 2 then 1 else 0) + 2 * Xor(x / 2, y / 2)
  }

  lemma {:induction false} XorTwice(x: nat, f: nat)
    ensures Xor(Xor(x, f), f) == x
    decreases x + f
  {
    if x + f > 0 {
      XorTwice(x / 2, f / 2);
      var y := Xor(x, f);
      if y + f == 0 {
        XorZero(x);
      }
    }
  }

  lemma {:induction false} XorZero(x: nat)
    ensures Xor(x, 0) == x
  {
    if x > 0 {
      XorZero(x / 2);
    }
  }

  lemma {:induction false} XorBelow(x: nat, f: nat, k: nat)
    requires x < Pow2(k) && f < Pow2(k)
    ensures Xor(x, f) < Pow2(k)
  {
    if k > 0 && x + f > 0 {
      XorBelow(x / 2, f / 2, k - 1);
    }
  }

  const BYTES3: nat := 0x100_0000

  function LockTimeFor(obscured: nat): nat {
    Or(And(obscured, 0xff_ffff), 0x2000_0000)
  }

  function SequenceFor(obscured: nat): nat {
    Or(And(obscured / BYTES3, 0xff_ffff), 0x8000_0000)
  }

  lemma Mask24(x: nat)
    ensures And(x, 0xff_ffff) == x % BYTES3
  {
    hide And, Low, Pow2, Shr;
    Constants();
    AndOnes(x, 24);
    LowIs(x, 24);
  }

  /** The two fields carry 24 bits of the obscured number each, under a fixed top byte. */
  lemma FieldsCarry(obscured: nat)
    requires obscured < BYTES3 * BYTES3
    ensures LockTimeFor(obscured) == 0x2000_0000 + obscured % BYTES3
    ensures SequenceFor(obscured) == 0x8000_0000 + obscured / BYTES3
  {
    hide And, Or, Pow2;
    Constants();
    Mask24(obscured);
    Mask24(obscured / BYTES3);
    OrDisjoint(obscured % BYTES3, 0x20, 24);
    OrDisjoint(obscured / BYTES3, 0x80, 24);
  }

  // ------------------------------------------------------ where outputs went

  /** An HTLC's staged output is its own. */
  predicate Tagged(p: Params, x: Staged) {
    x.origin.FromHtlc? ==>
      x.origin.index < |p.htlcs| && x.rank == RankOf(p, p.htlcs[x.origin.index]) && !Trimmed(p, p.htlcs[x.origin.index])
  }

  lemma {:induction false} StagedTagged(p: Params, n: nat)
    requires n <= |p.htlcs|
    ensures forall x | x in StagedHtlcs(p, n) :: Tagged(p, x)
  {
    if n > 0 {
      StagedTagged(p, n - 1);
    }
  }

  lemma SortedTagged(p: Params, v: nat)
    requires v < |Sort(StagedAll(p))|
    ensures Tagged(p, Sort(StagedAll(p))[v])
  {
    var st := Sort(StagedAll(p));
    StagedTagged(p, |p.htlcs|);
    assert st[v] in multiset(st);
    assert st[v] in StagedAll(p);
  }

  lemma {:induction false} CountAt(s: seq<Staged>, o: Origin, v: nat)
    requires v < |s| && s[v].origin == o
    ensures Count(s, o) >= 1
  {
    var n := |s| - 1;
    if v < n {
      CountAt(s[..n], o, v);
    }
  }

  lemma {:induction false} CountUnique(s: seq<Staged>, o: Origin, v: nat, w: nat)
    requires v < w < |s| && s[v].origin == o && s[w].origin == o
    ensures Count(s, o) >= 2
  {
    var n := |s| - 1;
    if w < n {
      CountUnique(s[..n], o, v, w);
    } else {
      CountAt(s[..n], o, v);
    }
  }

  lemma {:induction false} CountFinds(s: seq<Staged>, o: Origin) returns (v: nat)
    requires Count(s, o) >= 1
    ensures v < |s| && s[v].origin == o
  {
    var n := |s| - 1;
    if s[n].origin == o {
      v := n;
    } else {
      v := CountFinds(s[..n], o);
    }
  }

  /** Each untrimmed HTLC has one place among the sorted outputs, a trimmed one none. */
  lemma OnePlace(p: Params, i: nat)
    requires i < |p.htlcs|
    ensures Count(Sort(StagedAll(p)), FromHtlc(i)) == if Trimmed(p, p.htlcs[i]) then 0 else 1
  {
    hide Trimmed, Sort, Count, StagedBalances;
    SortKeeps(StagedAll(p), FromHtlc(i));
    CatFacts(StagedBalances(p), StagedHtlcs(p, |p.htlcs|), FromHtlc(i));
    BalancesFacts(p, i);
    StagedHtlcFacts(p, |p.htlcs|, i);
  }

  lemma {:induction false} HtlcsAreNotBalances(p: Params, n: nat)
    requires n <= |p.htlcs|
    ensures Count(StagedHtlcs(p, n), Broadcaster) == 0 && Count(StagedHtlcs(p, n), Countersignatory) == 0
  {
    if n > 0 {
      HtlcsAreNotBalances(p, n - 1);
      CountSnoc(StagedHtlcs(p, n - 1), Staged(RankOf(p, p.htlcs[n - 1]), FromHtlc(n - 1)), Broadcaster);
      CountSnoc(StagedHtlcs(p, n - 1), Staged(RankOf(p, p.htlcs[n - 1]), FromHtlc(n - 1)), Countersignatory);
      assert StagedHtlcs(p, n - 1) + [] == StagedHtlcs(p, n - 1);
    }
  }

  function BroadcasterOut(p: Params): TxOut {
    TxOut(ToBroadcasterSat(p), p.scripts.delayed)
  }

  function CountersignatoryOut(p: Params): TxOut {
    TxOut(ToCountersignatorySat(p), p.scripts.remote)
  }

  lemma BalanceStaged(p: Params)
    ensures Count(StagedBalances(p), Broadcaster) == if ToBroadcasterSat(p) >= p.dustLimit then 1 else 0
    ensures Count(StagedBalances(p), Countersignatory) == if ToCountersignatorySat(p) >= p.dustLimit then 1 else 0
  {
    hide ToBroadcasterSat, ToCountersignatorySat;
    var b := if ToBroadcasterSat(p) >= p.dustLimit then [Staged(Ranked(BroadcasterOut(p), 0), Broadcaster)] else [];
    var c := if ToCountersignatorySat(p) >= p.dustLimit
      then [Staged(Ranked(CountersignatoryOut(p), 0), Countersignatory)] else [];
    CatFacts(b, c, Broadcaster);
    CatFacts(b, c, Countersignatory);
  }

  /** A balance below the dust limit has no output, any other has one. */
  lemma BalancePlaces(p: Params)
    ensures Count(Sort(StagedAll(p)), Broadcaster) == if ToBroadcasterSat(p) >= p.dustLimit then 1 else 0
    ensures Count(Sort(StagedAll(p)), Countersignatory) == if ToCountersignatorySat(p) >= p.dustLimit then 1 else 0
  {
    hide Sort, Count, StagedBalances, ToBroadcasterSat, ToCountersignatorySat;
    var htlcs := StagedHtlcs(p, |p.htlcs|);
    SortKeeps(StagedAll(p), Broadcaster);
    SortKeeps(StagedAll(p), Countersignatory);
    CatFacts(StagedBalances(p), htlcs, Broadcaster);
    CatFacts(StagedBalances(p), htlcs, Countersignatory);
    HtlcsAreNotBalances(p, |p.htlcs|);
    BalanceStaged(p);
  }

  lemma BalanceRanks(p: Params, v: nat)
    requires v < |Sort(StagedAll(p))|
    ensures var x := Sort(StagedAll(p))[v];
            && (x.origin.Broadcaster? ==> x.rank.out == BroadcasterOut(p))
            && (x.origin.Countersignatory? ==> x.rank.out == CountersignatoryOut(p))
  {
    hide ToBroadcasterSat, ToCountersignatorySat, Trimmed;
    var st := Sort(StagedAll(p));
    OnlyHtlcs(p, |p.htlcs|);
    assert st[v] in multiset(st);
    assert st[v] in StagedAll(p);
  }

  lemma {:induction false} OnlyHtlcs(p: Params, n: nat)
    requires n <= |p.htlcs|
    ensures forall x | x in StagedHtlcs(p, n) :: x.origin.FromHtlc?
  {
    if n > 0 {
      OnlyHtlcs(p, n - 1);
    }
  }

  /** A recorded balance index points at that balance's output; none if it is dust. */
  ghost predicate BalancesIndexed(p: Params, b: Built) {
    && (b.broadcasterIndex.Some? <==> ToBroadcasterSat(p) >= p.dustLimit)
    && (b.broadcasterIndex.Some? ==>
          b.broadcasterIndex.value < |b.outputs| && b.outputs[b.broadcasterIndex.value] == BroadcasterOut(p))
    && (b.countersignatoryIndex.Some? <==> ToCountersignatorySat(p) >= p.dustLimit)
    && (b.countersignatoryIndex.Some? ==>
          && b.countersignatoryIndex.value < |b.outputs|
          && b.outputs[b.countersignatoryIndex.value] == CountersignatoryOut(p))
  }

  /** The first `n` sorted outputs have been seen: `index` is where `o` was, if it was. */
  ghost predicate Seen(st: seq<Staged>, n: nat, o: Origin, index: Option<nat>) {
    && n <= |st|
    && (index.Some? ==> index.value < n && st[index.value].origin == o)
    && (index.None? ==> forall v | 0 <= v < n :: st[v].origin != o)
  }

  lemma SeenAll(p: Params, b: Built)
    requires var st := Sort(StagedAll(p));
             && Seen(st, |st|, Broadcaster, b.broadcasterIndex)
             && Seen(st, |st|, Countersignatory, b.countersignatoryIndex)
             && |b.outputs| == |st| && forall v | 0 <= v < |st| :: b.outputs[v] == st[v].rank.out
    ensures BalancesIndexed(p, b)
  {
    hide Sort, StagedAll, Count, ToBroadcasterSat, ToCountersignatorySat;
    var st := Sort(StagedAll(p));
    BalancePlaces(p);
    if b.broadcasterIndex.Some? {
      CountAt(st, Broadcaster, b.broadcasterIndex.value);
      BalanceRanks(p, b.broadcasterIndex.value);
    } else if Count(st, Broadcaster) >= 1 {
      var v := CountFinds(st, Broadcaster);
    }
    if b.countersignatoryIndex.Some? {
      CountAt(st, Countersignatory, b.countersignatoryIndex.value);
      BalanceRanks(p, b.countersignatoryIndex.value);
    } else if Count(st, Countersignatory) >= 1 {
      var v := CountFinds(st, Countersignatory);
    }
  }

  /** No two of the sorted outputs come from the same HTLC. */
  lemma PlacesDistinct(p: Params, v: nat, w: nat)
    requires v < w < |Sort(StagedAll(p))|
    requires Sort(StagedAll(p))[v].origin.FromHtlc?
    ensures Sort(StagedAll(p))[v].origin != Sort(StagedAll(p))[w].origin
  {
    var st := Sort(StagedAll(p));
    if st[v].origin == st[w].origin {
      SortedTagged(p, v);
      OnePlace(p, st[v].origin.index);
      CountUnique(st, st[v].origin, v, w);
    }
  }

  function Outs(s: seq<Ranked>): (r: seq<TxOut>)
    ensures |r| == |s| && forall i | 0 <= i < |s| :: r[i] == s[i].out
  {
    seq(|s|, i requires 0 <= i < |s| => s[i].out)
  }

  /** The recorded index of each HTLC is its place: none if trimmed. */
  ghost predicate Indexed(p: Params, b: Built) {
    && |b.htlcIndices| == |p.htlcs|
    && forall i | 0 <= i < |p.htlcs| ::
         if Trimmed(p, p.htlcs[i]) then b.htlcIndices[i] == None
         else
           && b.htlcIndices[i].Some? && b.htlcIndices[i].value < |b.outputs|
           && b.outputs[b.htlcIndices[i].value] == RankOf(p, p.htlcs[i]).out
  }

  ghost predicate IndicesDistinct(indices: seq<Option<nat>>) {
    forall i, j | 0 <= i < j < |indices| && indices[i].Some? && indices[j].Some? ::
      indices[i].value != indices[j].value
  }

  /** The signing order follows the output order. */
  ghost predicate OrderIncreases(b: Built) {
    && (forall a | 0 <= a < |b.htlcOrder| ::
          b.htlcOrder[a] < |b.htlcIndices| && b.htlcIndices[b.htlcOrder[a]].Some?)
    && forall a, c | 0 <= a < c < |b.htlcOrder| ::
         b.htlcIndices[b.htlcOrder[a]].value < b.htlcIndices[b.htlcOrder[c]].value
  }

  /** What has been recorded after the first `n` sorted outputs. */
  ghost predicate Progress(p: Params, st: seq<Staged>, n: nat, indices: seq<Option<nat>>, order: seq<nat>) {
    && n <= |st| && |indices| == |p.htlcs|
    && (forall i | 0 <= i < |indices| && indices[i].Some? ::
          indices[i].value < n && st[indices[i].value].origin == FromHtlc(i))
    && (forall v | 0 <= v < n && st[v].origin.FromHtlc? ::
          st[v].origin.index < |p.htlcs| && indices[st[v].origin.index] == Some(v))
    && (forall a | 0 <= a < |order| :: order[a] < |indices| && indices[order[a]].Some?)
    && (forall a, c | 0 <= a < c < |order| :: indices[order[a]].value < indices[order[c]].value)
    && |order| == |HtlcPart(st[..n])|
    && (forall a | 0 <= a < |order| :: HtlcPart(st[..n])[a] == st[indices[order[a]].value].rank)
  }

  lemma ProgressHtlc(p: Params, n: nat, indices: seq<Option<nat>>, order: seq<nat>)
    requires var st := Sort(StagedAll(p)); n < |st| && st[n].origin.FromHtlc? && Progress(p, st, n, indices, order)
    ensures var st := Sort(StagedAll(p));
            var i := st[n].origin.index;
            i < |indices| && Progress(p, st, n + 1, indices[i := Some(n)], order + [i])
  {
    hide Sort, StagedAll, HtlcPart, Trimmed, RankOf, Progress;
    var st := Sort(StagedAll(p));
    SortedTagged(p, n);
    forall v | 0 <= v < n
      ensures st[v].origin != st[n].origin
    {
      if st[v].origin.FromHtlc? {
        PlacesDistinct(p, v, n);
      }
    }
    ProgressNew(p, st, n, indices, order, st[n].origin.index);
  }

  lemma ProgressNew(p: Params, st: seq<Staged>, n: nat, indices: seq<Option<nat>>, order: seq<nat>, i: nat)
    requires n < |st| && st[n].origin == FromHtlc(i) && i < |p.htlcs|
    requires forall v | 0 <= v < n :: st[v].origin != FromHtlc(i)
    requires Progress(p, st, n, indices, order)
    ensures i < |indices| && Progress(p, st, n + 1, indices[i := Some(n)], order + [i])
  {
    hide HtlcPart;
    assert indices[i] == None;
    assert forall a | 0 <= a < |order| :: order[a] != i;
    assert st[..n + 1] == st[..n] + [st[n]];
    HtlcPartSnoc(st[..n], st[n]);
    var more := indices[i := Some(n)];
    assert forall j | 0 <= j < |indices| && j != i :: more[j] == indices[j];
  }

  lemma ProgressOther(p: Params, st: seq<Staged>, n: nat, indices: seq<Option<nat>>, order: seq<nat>)
    requires n < |st| && !st[n].origin.FromHtlc? && Progress(p, st, n, indices, order)
    ensures Progress(p, st, n + 1, indices, order)
  {
    hide HtlcPart;
    assert st[..n + 1] == st[..n] + [st[n]];
    HtlcPartSnoc(st[..n], st[n]);
  }

  method Build(p: Params) returns (b: Built)
    ensures b.lockTime == LockTimeFor(Xor(p.number, p.obscureFactor))
    ensures b.sequence == SequenceFor(Xor(p.number, p.obscureFactor))
    ensures b.outputs == Outs(SortedRanks(p)) && b.fee == BaseFee(p)
    ensures Indexed(p, b) && IndicesDistinct(b.htlcIndices) && OrderIncreases(b) && BalancesIndexed(p, b)
    ensures |b.htlcOrder| == |SortedHtlcs(p)|
    ensures forall a | 0 <= a < |b.htlcOrder| ::
              b.htlcOrder[a] < |p.htlcs| && RankOf(p, p.htlcs[b.htlcOrder[a]]) == SortedHtlcs(p)[a]
  {
    hide Sort, StagedAll, HtlcPart, Trimmed, RankOf, Or, And, Xor;
    var obscured := Xor(p.number, p.obscureFactor);
    var staged := StagedAll(p);
    var sorted := Sort(staged);
    var indices: seq<Option<nat>> := seq(|p.htlcs|, _ => None);
    var order: seq<nat> := [];
    var broadcasterIndex: Option<nat>, countersignatoryIndex: Option<nat> := None, None;
    var outputs: seq<TxOut> := [];
    assert sorted[..0] == [];
    NothingStaged(Broadcaster);
    for vout := 0 to |sorted|
      invariant Progress(p, sorted, vout, indices, order)
      invariant Seen(sorted, vout, Broadcaster, broadcasterIndex)
      invariant Seen(sorted, vout, Countersignatory, countersignatoryIndex)
      invariant |outputs| == vout && forall v | 0 <= v < vout :: outputs[v] == sorted[v].rank.out
    {
      match sorted[vout].origin {
        case Broadcaster =>
          ProgressOther(p, sorted, vout, indices, order);
          broadcasterIndex := Some(vout);
        case Countersignatory =>
          ProgressOther(p, sorted, vout, indices, order);
          countersignatoryIndex := Some(vout);
        case FromHtlc(i) =>
          ProgressHtlc(p, vout, indices, order);
          indices := indices[i := Some(vout)];
          order := order + [i];
      }
      outputs := outputs + [sorted[vout].rank.out];
    }
    b := Built(LockTimeFor(obscured), SequenceFor(obscured), outputs, BaseFee(p), indices, order,
               broadcasterIndex, countersignatoryIndex);
    assert sorted[..|sorted|] == sorted;
    Finished(p, b, indices, order);
    SeenAll(p, b);
  }

  /** At the end every untrimmed HTLC has been placed. */
  lemma Finished(p: Params, b: Built, indices: seq<Option<nat>>, order: seq<nat>)
    requires var st := Sort(StagedAll(p));
             && Progress(p, st, |st|, indices, order) && st[..|st|] == st
             && b.htlcIndices == indices && b.htlcOrder == order
             && |b.outputs| == |st| && forall v | 0 <= v < |st| :: b.outputs[v] == st[v].rank.out
    ensures Indexed(p, b) && IndicesDistinct(indices) && OrderIncreases(b)
    ensures forall a | 0 <= a < |order| ::
              order[a] < |p.htlcs| && RankOf(p, p.htlcs[order[a]]) == SortedHtlcs(p)[a]
  {
    hide Sort, StagedAll, HtlcPart, Trimmed, RankOf;
    var st := Sort(StagedAll(p));
    forall i | 0 <= i < |p.htlcs|
      ensures Trimmed(p, p.htlcs[i]) ==> indices[i] == None
      ensures !Trimmed(p, p.htlcs[i]) ==> indices[i].Some? && b.outputs[indices[i].value] == RankOf(p, p.htlcs[i]).out
    {
      OnePlace(p, i);
      if Trimmed(p, p.htlcs[i]) {
        if indices[i].Some? {
          CountAt(st, FromHtlc(i), indices[i].value);
        }
      } else {
        var v := CountFinds(st, FromHtlc(i));
        SortedTagged(p, v);
      }
    }
    forall a | 0 <= a < |order|
      ensures RankOf(p, p.htlcs[order[a]]) == SortedHtlcs(p)[a]
    {
      SortedTagged(p, indices[order[a]].value);
    }
  }
}
