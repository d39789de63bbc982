/** Signing, locking in and revoking commitments keep the ledger invariant. */
module LedgerCommits {
  import opened Wrappers
  import opened Channel
  import opened Ledger
  import opened LedgerFacts
  import opened LedgerUpdates
  import opened Sums
  import Shachain

  // ---------------------------------------------------------------- signing

  lemma {:induction false} KeysInMember(htlcs: seq<Htlc>, phase: Phase, k: Key)
    ensures k in KeysIn(htlcs, phase) <==>
            exists i | 0 <= i < |htlcs| :: htlcs[i].phaseCounterparty == phase && Key(htlcs[i].outbound, htlcs[i].id) == k
    decreases |htlcs|
  {
    if htlcs != [] {
      var n := |htlcs| - 1;
      KeysInMember(htlcs[..n], phase, k);
      if k in KeysIn(htlcs[..n], phase) {
        var i :| 0 <= i < n && htlcs[..n][i].phaseCounterparty == phase &&
                 Key(htlcs[..n][i].outbound, htlcs[..n][i].id) == k;
        assert htlcs[i].phaseCounterparty == phase;
      }
      if i :| 0 <= i < |htlcs| && htlcs[i].phaseCounterparty == phase && Key(htlcs[i].outbound, htlcs[i].id) == k {
        if i < n { assert htlcs[..n][i] == htlcs[i]; }
      }
    }
  }

  /** Keys are unique in the list, so a key's membership is its holder's phase. */
  lemma KeysInListed(c: Chan, g: History, phase: Phase, i: nat)
    requires Recorded(c, g) && i < |c.htlcs|
    ensures Key(c.htlcs[i].outbound, c.htlcs[i].id) in KeysIn(c.htlcs, phase) <==> c.htlcs[i].phaseCounterparty == phase
  {
    var k := Key(c.htlcs[i].outbound, c.htlcs[i].id);
    KeysInMember(c.htlcs, phase, k);
    if j :| 0 <= j < |c.htlcs| && c.htlcs[j].phaseCounterparty == phase && Key(c.htlcs[j].outbound, c.htlcs[j].id) == k {
      UniqueKeys(c, g, i, j);
    }
  }

  lemma UniqueKeys(c: Chan, g: History, i: nat, j: nat)
    requires Recorded(c, g) && i < |c.htlcs| && j < |c.htlcs|
    requires c.htlcs[i].outbound == c.htlcs[j].outbound && c.htlcs[i].id == c.htlcs[j].id
    ensures i == j
  {
    if i < j { DistinctKeys(c, g, i, j); }
    if j < i { DistinctKeys(c, g, j, i); }
  }

  lemma DistinctKeys(c: Chan, g: History, i: nat, j: nat)
    requires Recorded(c, g) && i < j < |c.htlcs|
    ensures Key(c.htlcs[i].outbound, c.htlcs[i].id) != Key(c.htlcs[j].outbound, c.htlcs[j].id)
  {
    assert RecordAgrees(g, c.htlcs[i]) && RecordAgrees(g, c.htlcs[j]);
    assert InOrder(g, c.htlcs[i], c.htlcs[j]);
  }

  lemma SignKeysKnown(c: Chan, g: History, phase: Phase, k: Key)
    requires Recorded(c, g) && k in KeysIn(c.htlcs, phase)
    ensures k.id < if k.outbound then |g.outIx| else |g.inIx|
  {
    KeysInMember(c.htlcs, phase, k);
    var i :| 0 <= i < |c.htlcs| && Key(c.htlcs[i].outbound, c.htlcs[i].id) == k;
    assert RecordAgrees(g, c.htlcs[i]);
  }

  lemma SignSnapshot(c: Chan, g: History, p: PendingCommitment)
    requires Counted(c, g) && Indexed(g) && Recorded(c, g) && !c.awaitingRaa
    requires p.included == KeysIn(c.htlcs, Pending) && p.removed == KeysIn(c.htlcs, Removing)
    ensures KeysKnown(p, AfterSign(g))
    ensures forall i | 0 <= i < |c.htlcs| :: SnapshotAgrees(p, AfterSign(g), c.htlcs[i])
  {
    hide KeysIn;
    forall i | 0 <= i < |c.htlcs| ensures SnapshotAgrees(p, AfterSign(g), c.htlcs[i]) {
      assert RecordAgrees(g, c.htlcs[i]);
      OldIndexBelow(g, c.htlcs[i]);
      KeysInListed(c, g, Pending, i);
      KeysInListed(c, g, Removing, i);
    }
    hide Indexed, Recorded;
    forall k | k in p.included ensures k.id < if k.outbound then |g.outIx| else |g.inIx| {
      SignKeysKnown(c, g, Pending, k);
    }
    forall k | k in p.removed ensures k.id < if k.outbound then |g.outIx| else |g.inIx| {
      SignKeysKnown(c, g, Removing, k);
    }
  }

  /** Only the signing counters moved. */
  ghost predicate SameLogs(g: History, g': History) {
    g'.sent == g.sent && g'.recv == g.recv && g'.outIx == g.outIx && g'.inIx == g.inIx &&
    g'.sentLevel == g.sentLevel && g'.sentSeen == g.sentSeen && g'.recvLevel == g.recvLevel &&
    g'.initial == g.initial && g'.initialFeerate == g.initialFeerate
  }

  lemma ReflectsSameLogs(v: Commitment, role: Role, g: History, g': History, holderSide: bool, a: nat, b: nat)
    requires SameLogs(g, g') && Reflects(v, role, g, holderSide, a, b)
    ensures Reflects(v, role, g', holderSide, a, b)
  {
    assert Extends(g, g');
    ReflectsExtends(v, role, g, g', holderSide, a, b);
  }

  lemma SignRecorded(c: Chan, g: History, c': Chan)
    requires Recorded(c, g) && c'.htlcs == c.htlcs
    ensures Recorded(c', AfterSign(g))
  {
    var g' := AfterSign(g);
    forall i | 0 <= i < |c.htlcs| ensures RecordAgrees(g', c.htlcs[i]) { assert RecordAgrees(g, c.htlcs[i]); }
    forall i, j | 0 <= i < j < |c.htlcs| ensures InOrder(g', c.htlcs[i], c.htlcs[j]) {
      assert InOrder(g, c.htlcs[i], c.htlcs[j]);
    }
    forall id | 0 <= id < |g'.outIx| ensures OutGone(g', g'.outIx[id]) || Find(c.htlcs, true, id).Some? {
      assert OutGone(g, g.outIx[id]) || Find(c.htlcs, true, id).Some?;
    }
    forall id | 0 <= id < |g'.inIx| ensures InGone(g', g'.inIx[id]) || Find(c.htlcs, false, id).Some? {
      assert InGone(g, g.inIx[id]) || Find(c.htlcs, false, id).Some?;
    }
  }

  lemma SameListSum(mt: Meter, g: History, g': History, htlcs: seq<Htlc>, htlcs': seq<Htlc>, a: nat, b: nat)
    requires SameLogs(g, g') && |htlcs'| == |htlcs|
    requires forall i | 0 <= i < |htlcs| :: SameShares(htlcs[i], htlcs'[i])
    ensures ListSum(mt, g', htlcs', a, b) == ListSum(mt, g, htlcs, a, b)
  {
    SumCong((x: Htlc) => Share(mt, g', x, a, b), htlcs', (x: Htlc) => Share(mt, g, x, a, b), htlcs);
  }

  /** Marking changes phases and the processed flag only. */
  ghost predicate SameShares(x: Htlc, y: Htlc) {
    y == x.(phaseHolder := y.phaseHolder, phaseCounterparty := y.phaseCounterparty, processed := y.processed)
  }

  lemma SolventSameLogs(g: History, g': History)
    requires Solvent(g) && SameLogs(g, g') && g.peerLocked <= g'.peerLocked && g.ownAcked <= g'.ownAcked
    ensures Solvent(g')
  {
    assert Extends(g, g');
    forall a | 0 <= a <= |g'.sent| ensures OwnSolventAt(g', a) {
      assert OwnSolventAt(g, a);
      OwnBalanceExtends(g, g', a, SentLevelAt(g, a));
    }
    forall b | 0 <= b <= |g'.recv| ensures PeerSolventAt(g', b) {
      assert PeerSolventAt(g, b);
      OwnBalanceExtends(g, g', RecvLevelAt(g, b), b);
    }
  }

  lemma SignKeeps(c: Chan, g: History)
    requires Inv(c, g) && SendCommitmentSigned(c).Done?
    ensures Inv(SendCommitmentSigned(c).chan, AfterSign(g))
  {
    hide Recorded, Indexed, Reflects, MeterAgrees, KeysKnown, SnapshotAgrees;
    var g' := AfterSign(g);
    var c' := SendCommitmentSigned(c).chan;
    var p := c'.pending.value;
    SignSnapshot(c, g, p);
    SignRecorded(c, g, c');
    CounterpartyReflects(c, g, c.counterpartyNumber + 1, c.nextPoint.value);
    ReflectsSameLogs(p.info, c.role, g, g', false, |g.sent|, g.peerLocked);
    ReflectsSameLogs(c.currentHolder.value, c.role, g, g', true, g.ownLocked, g.peerLocked);
    ReflectsSameLogs(c.currentCounterparty.value, c.role, g, g', false, g.ownAcked, g.peerFinal);
    SolventSameLogs(g, g');
    assert Indexed(g') by { IndexSame(g, g'); }
    forall mt: Meter, a: nat, b: nat ensures MeterAgrees(c', g', mt, a, b) {
      assert MeterAgrees(c, g, mt, a, b);
      SignMeter(c, g, c', mt, a, b);
    }
  }

  lemma SignMeter(c: Chan, g: History, c': Chan, mt: Meter, a: nat, b: nat)
    requires MeterAgrees(c, g, mt, a, b) && c'.htlcs == c.htlcs
    ensures MeterAgrees(c', AfterSign(g), mt, a, b)
  {
    var g' := AfterSign(g);
    if g'.ownLocked <= a <= |g'.sent| && g'.peerFinal <= b <= |g'.recv| {
      forall i | 0 <= i < |c.htlcs| ensures SameShares(c.htlcs[i], c.htlcs[i]) {}
      SameListSum(mt, g, g', c.htlcs, c.htlcs, a, b);
      assert Extends(g, g');
      ReadingExtends(mt, g, g', a, b);
    }
  }

  // ------------------------------------------------------- garbage collection

  lemma {:induction false} SumKept(f: Htlc -> int, htlcs: seq<Htlc>)
    ensures Sum(f, htlcs) == Sum(f, Kept(htlcs)) + Sum(f, GoneOf(htlcs))
    decreases |htlcs|
  {
    if htlcs != [] {
      var n := |htlcs| - 1;
      SumKept(f, htlcs[..n]);
      if IsGone(htlcs[n]) {
        SumSnoc(f, GoneOf(htlcs[..n]), htlcs[n]);
      } else {
        SumSnoc(f, Kept(htlcs[..n]), htlcs[n]);
        assert GoneOf(htlcs) == GoneOf(htlcs[..n]);
      }
    }
  }

  lemma {:induction false} KeptMember(htlcs: seq<Htlc>, x: Htlc)
    ensures x in Kept(htlcs) <==> x in htlcs && !IsGone(x)
    ensures x in GoneOf(htlcs) <==> x in htlcs && IsGone(x)
    decreases |htlcs|
  {
    if htlcs != [] {
      var n := |htlcs| - 1;
      KeptMember(htlcs[..n], x);
      assert htlcs == htlcs[..n] + [htlcs[n]];
    }
  }

  ghost predicate PairwiseInOrder(g: History, htlcs: seq<Htlc>) {
    forall i, j | 0 <= i < j < |htlcs| :: InOrder(g, htlcs[i], htlcs[j])
  }

  lemma {:induction false} KeptInOrder(g: History, htlcs: seq<Htlc>)
    requires PairwiseInOrder(g, htlcs)
    ensures PairwiseInOrder(g, Kept(htlcs))
    decreases |htlcs|
  {
    if htlcs != [] {
      var n := |htlcs| - 1;
      assert PairwiseInOrder(g, htlcs[..n]);
      KeptInOrder(g, htlcs[..n]);
      var kept := Kept(htlcs[..n]);
      forall i | 0 <= i < |kept| ensures InOrder(g, kept[i], htlcs[n]) {
        KeptMember(htlcs[..n], kept[i]);
        var j :| 0 <= j < n && htlcs[..n][j] == kept[i];
        assert InOrder(g, htlcs[j], htlcs[n]);
      }
    }
  }

  lemma FindKept(htlcs: seq<Htlc>, outbound: bool, id: nat)
    requires Find(htlcs, outbound, id).Some? && !IsGone(htlcs[Find(htlcs, outbound, id).value])
    ensures Find(Kept(htlcs), outbound, id).Some?
  {
    var x := htlcs[Find(htlcs, outbound, id).value];
    KeptMember(htlcs, x);
    var i :| 0 <= i < |Kept(htlcs)| && Kept(htlcs)[i] == x;
  }

  /** What an HTLC adds to the base balances when it is dropped. */
  function BakedShare(mt: Meter, x: Htlc): int {
    if IsGone(x) then CreditOf(mt, x) else 0
  }

  lemma {:induction false} BakedSum(mt: Meter, htlcs: seq<Htlc>)
    ensures Sum((x: Htlc) => BakedShare(mt, x), htlcs) == SettledSum(mt, GoneOf(htlcs))
    decreases |htlcs|
  {
    if htlcs != [] {
      var n := |htlcs| - 1;
      BakedSum(mt, htlcs[..n]);
      if IsGone(htlcs[n]) {
        SumSnoc((x: Htlc) => CreditOf(mt, x), GoneOf(htlcs[..n]), htlcs[n]);
      } else {
        assert GoneOf(htlcs) == GoneOf(htlcs[..n]);
      }
    }
  }

  /** Baking is exact as long as no prefix overdraws. */
  lemma {:induction false} BakedExact(base: Balances, htlcs: seq<Htlc>)
    requires forall x | x in htlcs && IsGone(x) :: x.resolution.Some?
    requires forall n | 0 <= n <= |htlcs| ::
               base.holder + Sum((x: Htlc) => BakedShare(HolderMeter(), x), htlcs[..n]) >= 0
    requires forall n | 0 <= n <= |htlcs| ::
               base.counterparty + Sum((x: Htlc) => BakedShare(CounterpartyMeter(), x), htlcs[..n]) >= 0
    ensures BakedBalances(base, htlcs).holder == base.holder + SettledSum(HolderMeter(), GoneOf(htlcs))
    ensures BakedBalances(base, htlcs).counterparty == base.counterparty + SettledSum(CounterpartyMeter(), GoneOf(htlcs))
    decreases |htlcs|
  {
    if htlcs != [] {
      var n := |htlcs| - 1;
      forall m | 0 <= m <= n ensures htlcs[..n][..m] == htlcs[..m] {}
      BakedExact(base, htlcs[..n]);
      assert htlcs[..|htlcs|] == htlcs;
      BakedSum(HolderMeter(), htlcs);
      BakedSum(CounterpartyMeter(), htlcs);
      BakedSum(HolderMeter(), htlcs[..n]);
      BakedSum(CounterpartyMeter(), htlcs[..n]);
      var x := htlcs[n];
      if IsGone(x) {
        ApplyExact(x, Gone, BakedBalances(base, htlcs[..n]),
                   BakedShare(HolderMeter(), x), BakedShare(CounterpartyMeter(), x));
      }
    }
  }

  /** A sum of terms none of which is positive is at least the whole sum of
      lower terms. */
  lemma PrefixAtLeast(f: Htlc -> int, s: seq<Htlc>, f': Htlc -> int, s': seq<Htlc>, n: nat)
    requires n <= |s| == |s'|
    requires forall i | 0 <= i < |s| :: f(s[i]) <= f'(s'[i]) && f(s[i]) <= 0
    ensures Sum(f, s) <= Sum(f', s'[..n])
  {
    var head, tail := s[..n], s[n..];
    assert head + tail == s;
    SumCat(f, head, tail);
    SumNonPositive(f, tail);
    SumLePair(f, head, f', s'[..n]);
  }

  lemma {:induction false} SumLePair(f: Htlc -> int, s: seq<Htlc>, f': Htlc -> int, s': seq<Htlc>)
    requires |s| == |s'|
    requires forall i | 0 <= i < |s| :: f(s[i]) <= f'(s'[i])
    ensures Sum(f, s) <= Sum(f', s')
    decreases |s|
  {
    if s != [] {
      var n := |s| - 1;
      SumLePair(f, s[..n], f', s'[..n]);
    }
  }

  /** After marking, a record agrees with the moved counters, and is gone just
      when the logs say so. */
  ghost predicate Marked(g: History, x: Htlc) {
    && InRange(g, x)
    && (!IsGone(x) ==> RecordAgrees(g, x))
    && (IsGone(x) <==> if x.outbound then OutGone(g, IxOf(g, x)) else InGone(g, IxOf(g, x)))
    && (IsGone(x) ==> x.resolution.Some?)
  }

  /** `marked` is the list `c.htlcs` after its phases moved, with the history
      moving from `g` to `g'`. */
  ghost predicate Marking(c: Chan, g: History, marked: seq<Htlc>, g': History) {
    && SameLogs(g, g') && |marked| == |c.htlcs|
    && g.ownLocked <= g'.ownLocked && g.peerFinal <= g'.peerFinal
    && g'.settled == g.settled + GoneOf(marked)
    && (forall i | 0 <= i < |marked| :: SameShares(c.htlcs[i], marked[i]))
    && (forall i | 0 <= i < |marked| :: Marked(g', marked[i]))
  }

  lemma GcComplete(c: Chan, g: History, marked: seq<Htlc>, g': History)
    requires Recorded(c, g) && Marking(c, g, marked, g')
    ensures forall id | 0 <= id < |g'.outIx| :: OutGone(g', g'.outIx[id]) || Find(Kept(marked), true, id).Some?
    ensures forall id | 0 <= id < |g'.inIx| :: InGone(g', g'.inIx[id]) || Find(Kept(marked), false, id).Some?
  {
    forall id | 0 <= id < |g'.outIx| ensures OutGone(g', g'.outIx[id]) || Find(Kept(marked), true, id).Some? {
      assert OutGone(g, g.outIx[id]) || Find(c.htlcs, true, id).Some?;
      if !OutGone(g', g'.outIx[id]) {
        FoundUnlessGone(c, g, marked, g', true, id);
      }
    }
    forall id | 0 <= id < |g'.inIx| ensures InGone(g', g'.inIx[id]) || Find(Kept(marked), false, id).Some? {
      assert InGone(g, g.inIx[id]) || Find(c.htlcs, false, id).Some?;
      if !InGone(g', g'.inIx[id]) {
        FoundUnlessGone(c, g, marked, g', false, id);
      }
    }
  }

  lemma FoundUnlessGone(c: Chan, g: History, marked: seq<Htlc>, g': History, outbound: bool, id: nat)
    requires Marking(c, g, marked, g') && Find(c.htlcs, outbound, id).Some?
    requires if outbound then id < |g'.outIx| && !OutGone(g', g'.outIx[id]) else id < |g'.inIx| && !InGone(g', g'.inIx[id])
    ensures Find(Kept(marked), outbound, id).Some?
  {
    forall i | 0 <= i < |marked| ensures marked[i].outbound == c.htlcs[i].outbound && marked[i].id == c.htlcs[i].id {
      assert SameShares(c.htlcs[i], marked[i]);
    }
    FindSameKeys(c.htlcs, marked, outbound, id);
    var i := Find(marked, outbound, id).value;
    assert Marked(g', marked[i]);
    FindKept(marked, outbound, id);
  }

  lemma GcRecorded(c: Chan, g: History, marked: seq<Htlc>, g': History, c': Chan)
    requires Recorded(c, g) && Marking(c, g, marked, g') && c'.htlcs == Kept(marked)
    ensures Recorded(c', g')
  {
    forall i | 0 <= i < |c'.htlcs| ensures RecordAgrees(g', c'.htlcs[i]) {
      var x := c'.htlcs[i];
      KeptMember(marked, x);
      var j :| 0 <= j < |marked| && marked[j] == x;
      assert Marked(g', marked[j]);
    }
    forall i, j | 0 <= i < j < |marked| ensures InOrder(g', marked[i], marked[j]) {
      assert SameShares(c.htlcs[i], marked[i]) && SameShares(c.htlcs[j], marked[j]);
      assert InOrder(g, c.htlcs[i], c.htlcs[j]);
    }
    assert PairwiseInOrder(g', marked);
    KeptInOrder(g', marked);
    GcComplete(c, g, marked, g');
  }

  lemma GoneShare(mt: Meter, g: History, x: Htlc, a: nat, b: nat)
    requires Indexed(g) && Marked(g, x) && IsGone(x) && g.ownLocked <= a && g.peerFinal <= b
    ensures Share(mt, g, x, a, b) == CreditOf(mt, x)
  {
    OldIndexBelow(g, x);
  }

  lemma GcMeter(c: Chan, g: History, marked: seq<Htlc>, g': History, c': Chan, mt: Meter, a: nat, b: nat)
    requires Indexed(g) && Indexed(g') && Marking(c, g, marked, g') && c'.htlcs == Kept(marked)
    requires g'.ownLocked <= a <= |g.sent| && g'.peerFinal <= b <= |g.recv|
    requires MeterAgrees(c, g, mt, a, b)
    ensures MeterAgrees(c', g', mt, a, b)
  {
    var f := (x: Htlc) => Share(mt, g', x, a, b);
    var credit := (x: Htlc) => CreditOf(mt, x);
    SameListSum(mt, g, g', c.htlcs, marked, a, b);
    SumKept(f, marked);
    var gone := GoneOf(marked);
    forall i | 0 <= i < |gone| ensures f(gone[i]) == credit(gone[i]) {
      KeptMember(marked, gone[i]);
      var j :| 0 <= j < |marked| && marked[j] == gone[i];
      assert Marked(g', marked[j]);
      GoneShare(mt, g', gone[i], a, b);
    }
    SumCong(f, gone, credit, gone);
    SumCat(credit, g.settled, gone);
    assert Extends(g, g');
    ReadingExtends(mt, g, g', a, b);
  }

  lemma GoneResolved(c: Chan, g: History, marked: seq<Htlc>, g': History)
    requires Marking(c, g, marked, g')
    ensures forall x | x in marked && IsGone(x) :: x.resolution.Some?
  {
    forall x | x in marked && IsGone(x) ensures x.resolution.Some? {
      var j :| 0 <= j < |marked| && marked[j] == x;
      assert Marked(g', marked[j]);
    }
  }

  lemma GcMetered(c: Chan, g: History, marked: seq<Htlc>, g': History, c': Chan)
    requires Indexed(g) && Indexed(g') && Metered(c, g) && Marking(c, g, marked, g')
    requires c'.htlcs == Kept(marked) && c'.base == BakedBalances(c.base, marked)
    requires forall n | 0 <= n <= |marked| ::
               c.base.holder + Sum((x: Htlc) => BakedShare(HolderMeter(), x), marked[..n]) >= 0
    requires forall n | 0 <= n <= |marked| ::
               c.base.counterparty + Sum((x: Htlc) => BakedShare(CounterpartyMeter(), x), marked[..n]) >= 0
    ensures Metered(c', g')
  {
    hide Indexed, IsGone;
    assert g'.settled == g.settled + GoneOf(marked) && g'.initial == g.initial;
    forall mt: Meter, a: nat, b: nat ensures MeterAgrees(c', g', mt, a, b) {
      if g'.ownLocked <= a <= |g'.sent| && g'.peerFinal <= b <= |g'.recv| {
        assert MeterAgrees(c, g, mt, a, b);
        GcMeter(c, g, marked, g', c', mt, a, b);
      }
    }
    GoneResolved(c, g, marked, g');
    BakedExact(c.base, marked);
    SumCat((x: Htlc) => CreditOf(HolderMeter(), x), g.settled, GoneOf(marked));
    SumCat((x: Htlc) => CreditOf(CounterpartyMeter(), x), g.settled, GoneOf(marked));
  }

  lemma GcSnapshot(c: Chan, g: History, marked: seq<Htlc>, g': History, p: PendingCommitment)
    requires Marking(c, g, marked, g')
    requires g'.ownAcked == g.ownAcked && g'.ownSigned == g.ownSigned
    requires g'.peerFinal == g.peerFinal && g'.peerSigned == g.peerSigned
    requires forall i | 0 <= i < |c.htlcs| :: SnapshotAgrees(p, g, c.htlcs[i])
    ensures forall i | 0 <= i < |Kept(marked)| :: SnapshotAgrees(p, g', Kept(marked)[i])
  {
    forall i | 0 <= i < |Kept(marked)| ensures SnapshotAgrees(p, g', Kept(marked)[i]) {
      var x := Kept(marked)[i];
      KeptMember(marked, x);
      var j :| 0 <= j < |marked| && marked[j] == x;
      assert SameShares(c.htlcs[j], marked[j]);
      assert SnapshotAgrees(p, g, c.htlcs[j]);
    }
  }

  // ------------------------------------------------- locking in a commitment

  lemma LockMarks(c: Chan, g: History, x: Htlc, g': History)
    requires Counted(c, g) && Indexed(g) && RecordAgrees(g, x) && SameLogs(g, g')
    requires g'.ownLocked == g.ownAcked && g'.ownAcked == g.ownAcked
    requires g'.peerLocked == |g.recv| && g'.peerFinal == g.peerFinal
    ensures Marked(g', Acknowledged(Locked(x))) && SameShares(x, Acknowledged(Locked(x)))
    ensures IsGone(Acknowledged(Locked(x))) ==> !x.outbound
  {
    hide Indexed;
    OldIndexBelow(g, x);
    if x.outbound {
      LockMarksOwn(c, g, x, g');
    } else {
      LockMarksPeer(c, g, x, g');
    }
  }

  lemma LockMarksOwn(c: Chan, g: History, x: Htlc, g': History)
    requires Counted(c, g) && RecordAgrees(g, x) && SameLogs(g, g') && x.outbound
    requires IxOf(g, x).rem.Some? ==> IxOf(g, x).add < g.ownLocked
    requires g'.ownLocked == g.ownAcked && g'.ownAcked == g.ownAcked
    requires g'.peerLocked == |g.recv| && g'.peerFinal == g.peerFinal
    ensures Marked(g', Acknowledged(Locked(x))) && SameShares(x, Acknowledged(Locked(x)))
    ensures !IsGone(Acknowledged(Locked(x)))
  {
  }

  lemma LockMarksPeer(c: Chan, g: History, x: Htlc, g': History)
    requires Counted(c, g) && RecordAgrees(g, x) && SameLogs(g, g') && !x.outbound
    requires IxOf(g, x).rem.Some? ==> IxOf(g, x).add < g.peerFinal
    requires g'.ownLocked == g.ownAcked && g'.ownAcked == g.ownAcked
    requires g'.peerLocked == |g.recv| && g'.peerFinal == g.peerFinal
    ensures Marked(g', Acknowledged(Locked(x))) && SameShares(x, Acknowledged(Locked(x)))
  {
  }

  lemma LockMarking(c: Chan, g: History)
    requires Counted(c, g) && Indexed(g) && Recorded(c, g)
    ensures Marking(c, g, LockAll(c.htlcs), AfterLock(g, LockAll(c.htlcs)))
  {
    var marked := LockAll(c.htlcs);
    var g' := AfterLock(g, marked);
    forall i | 0 <= i < |marked| ensures SameShares(c.htlcs[i], marked[i]) && Marked(g', marked[i]) {
      assert RecordAgrees(g, c.htlcs[i]);
      LockMarks(c, g, c.htlcs[i], g');
    }
  }

  lemma LockOwnCredit(c: Chan, g: History, i: nat)
    requires Counted(c, g) && Indexed(g) && Recorded(c, g) && i < |c.htlcs|
    ensures BakedShare(HolderMeter(), LockAll(c.htlcs)[i]) >= 0
  {
    assert RecordAgrees(g, c.htlcs[i]);
    hide Indexed, Recorded;
    LockMarks(c, g, c.htlcs[i], AfterLock(g, LockAll(c.htlcs)));
  }

  /** Locking in bakes only HTLCs the peer offered, which we can only gain from. */
  lemma LockBakesOwn(c: Chan, g: History, n: nat)
    requires Counted(c, g) && Indexed(g) && Recorded(c, g) && n <= |c.htlcs|
    ensures c.base.holder + Sum((x: Htlc) => BakedShare(HolderMeter(), x), LockAll(c.htlcs)[..n]) >= 0
  {
    hide Counted, Indexed, Recorded, BakedShare;
    var marked := LockAll(c.htlcs);
    var f := (x: Htlc) => BakedShare(HolderMeter(), x);
    forall i | 0 <= i < n ensures f(marked[..n][i]) >= 0 {
      LockOwnCredit(c, g, i);
    }
    SumNonNegative(f, marked[..n]);
  }

  /** ... and the peer can afford what it loses. */
  lemma LockBakesPeer(c: Chan, g: History, n: nat)
    requires Inv(c, g) && n <= |c.htlcs|
    ensures c.base.counterparty + Sum((x: Htlc) => BakedShare(CounterpartyMeter(), x), LockAll(c.htlcs)[..n]) >= 0
  {
    var marked := LockAll(c.htlcs);
    var f := (x: Htlc) => Share(CounterpartyMeter(), g, x, g.ownAcked, g.peerFinal);
    var f' := (x: Htlc) => BakedShare(CounterpartyMeter(), x);
    forall i | 0 <= i < |marked| ensures f(c.htlcs[i]) <= f'(marked[i]) && f(c.htlcs[i]) <= 0 {
      LockPeerShare(c, g, i);
    }
    PrefixAtLeast(f, c.htlcs, f', marked, n);
    assert MeterAgrees(c, g, CounterpartyMeter(), g.ownAcked, g.peerFinal);
    PeerNonNegative(g, g.ownAcked, g.peerFinal);
  }

  lemma LockPeerShare(c: Chan, g: History, i: nat)
    requires Counted(c, g) && Indexed(g) && Recorded(c, g) && i < |c.htlcs|
    ensures var s := Share(CounterpartyMeter(), g, c.htlcs[i], g.ownAcked, g.peerFinal);
            s <= 0 && s <= BakedShare(CounterpartyMeter(), LockAll(c.htlcs)[i])
  {
    var x := c.htlcs[i];
    assert RecordAgrees(g, x);
    hide Recorded, Indexed;
    OldIndexBelow(g, x);
    LockedShare(c, g, x);
  }

  lemma LockedShare(c: Chan, g: History, x: Htlc)
    requires Counted(c, g) && RecordAgrees(g, x)
    requires IxOf(g, x).rem.Some? ==> if x.outbound then IxOf(g, x).add < g.ownLocked else IxOf(g, x).add < g.peerFinal
    ensures var s := Share(CounterpartyMeter(), g, x, g.ownAcked, g.peerFinal);
            s <= 0 && s <= BakedShare(CounterpartyMeter(), Acknowledged(Locked(x)))
  {
  }

  lemma AckIsNew(c: Chan, g: History, x: Htlc)
    requires Counted(c, g) && Indexed(g) && RecordAgrees(g, x)
    requires AcksAdd(Locked(x)) || AcksRemoval(Locked(x))
    ensures g.peerLocked < |g.recv|
  {
    OldIndexBelow(g, x);
  }

  lemma NewAddIsAcked(c: Chan, g: History)
    requires Counted(c, g) && Indexed(g) && Recorded(c, g)
    requires g.peerLocked < |g.recv| && g.recv[g.peerLocked].Add?
    ensures AnyAcknowledged(c.htlcs)
  {
    var id := g.recv[g.peerLocked].id;
    assert RemAgrees(g.inIx[id], id, g.recv, g.sent, g.peerFinal);
    assert InGone(g, g.inIx[id]) || Find(c.htlcs, false, id).Some?;
    var i := Find(c.htlcs, false, id).value;
    assert RecordAgrees(g, c.htlcs[i]);
    assert AcksAdd(Locked(c.htlcs[i]));
  }

  lemma NewRemoveIsAcked(c: Chan, g: History)
    requires Counted(c, g) && Indexed(g) && Recorded(c, g)
    requires g.peerLocked < |g.recv| && g.recv[g.peerLocked].Remove?
    ensures AnyAcknowledged(c.htlcs)
  {
    var id := g.recv[g.peerLocked].id;
    assert RemAgrees(g.outIx[id], id, g.sent, g.recv, g.ownLocked);
    assert OutGone(g, g.outIx[id]) || Find(c.htlcs, true, id).Some?;
    var i := Find(c.htlcs, true, id).value;
    assert RecordAgrees(g, c.htlcs[i]);
    assert AcksRemoval(Locked(c.htlcs[i]));
  }

  /** The dirty flag is raised exactly when there was something to acknowledge. */
  lemma LockDirty(c: Chan, g: History)
    requires Counted(c, g) && Indexed(g) && Recorded(c, g) && FeesAgree(c, g)
    ensures AnyAcknowledged(c.htlcs) || c.pendingFeeAck.Some? <==> g.peerLocked < |g.recv|
  {
    if AnyAcknowledged(c.htlcs) {
      var i :| 0 <= i < |c.htlcs| && (AcksAdd(Locked(c.htlcs[i])) || AcksRemoval(Locked(c.htlcs[i])));
      assert RecordAgrees(g, c.htlcs[i]);
      AckIsNew(c, g, c.htlcs[i]);
    }
    if g.peerLocked < |g.recv| {
      match g.recv[g.peerLocked]
      case Fee(_) =>
      case Add(_, _) => NewAddIsAcked(c, g);
      case Remove(_, _, _) => NewRemoveIsAcked(c, g);
    }
  }

  lemma LockFees(c: Chan, g: History, c': Chan, g': History)
    requires Counted(c, g) && FeesAgree(c, g) && Counted(c', g') && SameLogs(g, g')
    requires g'.ownAcked == g.ownAcked && g'.ownSigned == g.ownSigned
    requires g'.peerSigned == g.peerSigned && g'.peerLocked == |g.recv|
    requires c'.feerateHolder == c.feerateHolder && c'.pending == c.pending && c'.role == c.role
    requires c'.pendingFeeAck.None?
    requires c'.feerateCounterparty == if c.pendingFeeAck.Some? then c.pendingFeeAck.value else c.feerateCounterparty
    ensures FeesAgree(c', g')
  {
    if c.role.Accepter? && c.pendingFeeAck.None? {
      LastFeeSkip(g.recv, g.peerLocked, |g.recv|, g.initialFeerate);
    }
  }

  lemma LockKeeps(c: Chan, g: History, m: Message)
    requires Inv(c, g) && m.CommitmentSigned? && OnCommitmentSigned(c, m).Done?
    ensures Inv(OnCommitmentSigned(c, m).chan, AfterLock(g, LockAll(c.htlcs)))
  {
    hide Recorded, Indexed, Marking, Stored, LockAll;
    var marked := LockAll(c.htlcs);
    var g' := AfterLock(g, marked);
    var c' := OnCommitmentSigned(c, m).chan;
    LockMarking(c, g);
    LockDirty(c, g);
    assert Indexed(g') by { IndexSame(g, g'); }
    GcRecorded(c, g, marked, g', c');
    forall n | 0 <= n <= |marked|
      ensures c.base.holder + Sum((x: Htlc) => BakedShare(HolderMeter(), x), marked[..n]) >= 0
    { LockBakesOwn(c, g, n); }
    forall n | 0 <= n <= |marked|
      ensures c.base.counterparty + Sum((x: Htlc) => BakedShare(CounterpartyMeter(), x), marked[..n]) >= 0
    { LockBakesPeer(c, g, n); }
    GcMetered(c, g, marked, g', c');
    SolventSameLogs(g, g');
    LockFees(c, g, c', g');
    LockStored(c, g, m);
  }

  lemma LockStored(c: Chan, g: History, m: Message)
    requires Inv(c, g) && m.CommitmentSigned? && OnCommitmentSigned(c, m).Done?
    ensures Stored(OnCommitmentSigned(c, m).chan, AfterLock(g, LockAll(c.htlcs)))
  {
    var marked := LockAll(c.htlcs);
    var g' := AfterLock(g, marked);
    LockMarking(c, g);
    HolderReflects(c, g, c.holderNumber + 1);
    ReflectsSameLogs(m.signed, c.role, g, g', true, g.ownAcked, |g.recv|);
    if c.pending.Some? {
      ReflectsSameLogs(c.pending.value.info, c.role, g, g', false, g.ownSigned, g.peerSigned);
      GcSnapshot(c, g, marked, g', c.pending.value);
    }
    ReflectsSameLogs(c.currentCounterparty.value, c.role, g, g', false, g.ownAcked, g.peerFinal);
  }

  /** Final thresholds only rise. */
  lemma IndexSame(g: History, g': History)
    requires Indexed(g) && SameLogs(g, g') && g.ownLocked <= g'.ownLocked && g.peerFinal <= g'.peerFinal
    ensures Indexed(g')
  {
    IndexRaise(g.outIx, g.sent, g.recv, g.ownLocked, g'.ownLocked);
    IndexRaise(g.inIx, g.recv, g.sent, g.peerFinal, g'.peerFinal);
  }

  lemma IndexRaise(ixs: seq<Ix>, adds: seq<Update>, rems: seq<Update>, final: nat, final': nat)
    requires IndexAgrees(ixs, adds, rems, final) && final <= final'
    ensures IndexAgrees(ixs, adds, rems, final')
  {
    forall id | 0 <= id < |ixs| ensures RemAgrees(ixs[id], id, adds, rems, final') {
      assert RemAgrees(ixs[id], id, adds, rems, final);
    }
  }

  // --------------------------------------------------------------- revocation

  lemma {:induction false} ApplyIncludedPointwise(htlcs: seq<Htlc>, keys: seq<Key>)
    requires forall i, j | 0 <= i < j < |htlcs| ::
               Key(htlcs[i].outbound, htlcs[i].id) != Key(htlcs[j].outbound, htlcs[j].id)
    ensures forall i | 0 <= i < |htlcs| ::
              ApplyIncluded(htlcs, keys)[i] ==
              if Key(htlcs[i].outbound, htlcs[i].id) in keys then IncludedOnRaa(htlcs[i]) else htlcs[i]
    decreases |keys|
  {
    if keys != [] {
      var n := |keys| - 1;
      ApplyIncludedPointwise(htlcs, keys[..n]);
      assert keys == keys[..n] + [keys[n]];
    }
  }

  lemma {:induction false} ApplyRemovedPointwise(htlcs: seq<Htlc>, keys: seq<Key>)
    requires forall i, j | 0 <= i < j < |htlcs| ::
               Key(htlcs[i].outbound, htlcs[i].id) != Key(htlcs[j].outbound, htlcs[j].id)
    ensures forall i | 0 <= i < |htlcs| ::
              ApplyRemoved(htlcs, keys)[i] ==
              if Key(htlcs[i].outbound, htlcs[i].id) in keys then RemovedOnRaa(htlcs[i]) else htlcs[i]
    decreases |keys|
  {
    if keys != [] {
      var n := |keys| - 1;
      ApplyRemovedPointwise(htlcs, keys[..n]);
      assert keys == keys[..n] + [keys[n]];
    }
  }

  /** The snapshot applied to one HTLC. */
  function RaaMark(p: PendingCommitment, x: Htlc): Htlc {
    var k := Key(x.outbound, x.id);
    var y := if k in p.included then IncludedOnRaa(x) else x;
    if k in p.removed then RemovedOnRaa(y) else y
  }

  function RaaMarked(c: Chan): seq<Htlc>
    requires c.pending.Some?
  {
    ApplyRemoved(ApplyIncluded(c.htlcs, c.pending.value.included), c.pending.value.removed)
  }

  lemma RaaPointwise(c: Chan, g: History, i: nat)
    requires Recorded(c, g) && c.pending.Some? && i < |c.htlcs|
    ensures |RaaMarked(c)| == |c.htlcs| && RaaMarked(c)[i] == RaaMark(c.pending.value, c.htlcs[i])
  {
    hide Recorded, Find;
    forall i, j | 0 <= i < j < |c.htlcs|
      ensures Key(c.htlcs[i].outbound, c.htlcs[i].id) != Key(c.htlcs[j].outbound, c.htlcs[j].id)
    { DistinctKeys(c, g, i, j); }
    ApplyIncludedPointwise(c.htlcs, c.pending.value.included);
    ApplyRemovedPointwise(ApplyIncluded(c.htlcs, c.pending.value.included), c.pending.value.removed);
  }

  lemma RevokeMarks(c: Chan, g: History, x: Htlc, p: PendingCommitment, g': History)
    requires Counted(c, g) && Indexed(g) && RecordAgrees(g, x) && SameLogs(g, g') && SnapshotAgrees(p, g, x)
    requires g'.ownLocked == g.ownLocked && g'.ownAcked == g.ownSigned
    requires g'.peerLocked == g.peerLocked && g'.peerFinal == g.peerSigned
    ensures Marked(g', RaaMark(p, x)) && SameShares(x, RaaMark(p, x))
    ensures IsGone(RaaMark(p, x)) ==> x.outbound
  {
    OldIndexBelow(g, x);
  }

  lemma RevokeMarking(c: Chan, g: History)
    requires Counted(c, g) && Indexed(g) && Recorded(c, g) && Stored(c, g) && c.pending.Some?
    ensures Marking(c, g, RaaMarked(c), AfterRevoke(g, RaaMarked(c)))
  {
    var marked := RaaMarked(c);
    var g' := AfterRevoke(g, marked);
    forall i | 0 <= i < |marked| ensures SameShares(c.htlcs[i], marked[i]) && Marked(g', marked[i]) {
      RevokeMarksAt(c, g, i);
    }
  }

  lemma RevokeMarksAt(c: Chan, g: History, i: nat)
    requires Counted(c, g) && Indexed(g) && Recorded(c, g) && Stored(c, g) && c.pending.Some? && i < |c.htlcs|
    ensures |RaaMarked(c)| == |c.htlcs|
    ensures var y := RaaMarked(c)[i];
            && Marked(AfterRevoke(g, RaaMarked(c)), y) && SameShares(c.htlcs[i], y)
            && (IsGone(y) ==> c.htlcs[i].outbound)
  {
    RaaPointwise(c, g, i);
    assert RecordAgrees(g, c.htlcs[i]);
    assert SnapshotAgrees(c.pending.value, g, c.htlcs[i]);
    RevokeMarks(c, g, c.htlcs[i], c.pending.value, AfterRevoke(g, RaaMarked(c)));
  }

  lemma RevokeBakesPeer(c: Chan, g: History, n: nat)
    requires Counted(c, g) && Indexed(g) && Recorded(c, g) && Stored(c, g) && c.pending.Some? && n <= |c.htlcs|
    ensures c.base.counterparty + Sum((x: Htlc) => BakedShare(CounterpartyMeter(), x), RaaMarked(c)[..n]) >= 0
  {
    var marked := RaaMarked(c);
    var f := (x: Htlc) => BakedShare(CounterpartyMeter(), x);
    forall i | 0 <= i < n ensures f(marked[..n][i]) >= 0 {
      RevokeMarksAt(c, g, i);
    }
    SumNonNegative(f, marked[..n]);
  }

  lemma RevokeBakesOwn(c: Chan, g: History, n: nat)
    requires Inv(c, g) && c.pending.Some? && n <= |c.htlcs|
    ensures c.base.holder + Sum((x: Htlc) => BakedShare(HolderMeter(), x), RaaMarked(c)[..n]) >= 0
  {
    var marked := RaaMarked(c);
    var f := (x: Htlc) => Share(HolderMeter(), g, x, g.ownLocked, |g.recv|);
    var f' := (x: Htlc) => BakedShare(HolderMeter(), x);
    forall i | 0 <= i < |marked| ensures f(c.htlcs[i]) <= f'(marked[i]) && f(c.htlcs[i]) <= 0 {
      RevokeOwnShare(c, g, i);
    }
    PrefixAtLeast(f, c.htlcs, f', marked, n);
    assert MeterAgrees(c, g, HolderMeter(), g.ownLocked, |g.recv|);
    OwnNonNegative(g, g.ownLocked, |g.recv|);
  }

  lemma RevokeOwnShare(c: Chan, g: History, i: nat)
    requires Counted(c, g) && Indexed(g) && Recorded(c, g) && Stored(c, g) && c.pending.Some? && i < |c.htlcs|
    ensures var s := Share(HolderMeter(), g, c.htlcs[i], g.ownLocked, |g.recv|);
            s <= 0 && s <= BakedShare(HolderMeter(), RaaMarked(c)[i])
  {
    var x := c.htlcs[i];
    assert RecordAgrees(g, x);
    OldIndexBelow(g, x);
    RevokeMarksAt(c, g, i);
  }

  lemma RevokeStored(c: Chan, g: History, m: Message)
    requires Inv(c, g) && m.RevokeAndAck? && Revoke(c, m).Done?
    ensures Stored(Revoke(c, m).chan, AfterRevoke(g, RaaMarked(c)))
  {
    var g' := AfterRevoke(g, RaaMarked(c));
    ReflectsSameLogs(c.pending.value.info, c.role, g, g', false, g.ownSigned, g.peerSigned);
    ReflectsSameLogs(c.currentHolder.value, c.role, g, g', true, g.ownLocked, g.peerLocked);
  }

  lemma RevokeKeeps(c: Chan, g: History, m: Message)
    requires Inv(c, g) && m.RevokeAndAck? && Revoke(c, m).Done?
    ensures Inv(Revoke(c, m).chan, AfterRevoke(g, RaaMarked(c)))
  {
    hide Recorded, Indexed, Marking, Stored, ApplyIncluded, ApplyRemoved, Metered, Solvent;
    var marked := RaaMarked(c);
    var g' := AfterRevoke(g, marked);
    var c' := Revoke(c, m).chan;
    RevokeMarking(c, g);
    assert Indexed(g') by { IndexSame(g, g'); }
    GcRecorded(c, g, marked, g', c');
    forall n | 0 <= n <= |marked|
      ensures c.base.holder + Sum((x: Htlc) => BakedShare(HolderMeter(), x), marked[..n]) >= 0
    { RevokeBakesOwn(c, g, n); }
    forall n | 0 <= n <= |marked|
      ensures c.base.counterparty + Sum((x: Htlc) => BakedShare(CounterpartyMeter(), x), marked[..n]) >= 0
    { RevokeBakesPeer(c, g, n); }
    GcMetered(c, g, marked, g', c');
    SolventSameLogs(g, g');
    RevokeStored(c, g, m);
  }

  lemma SameKeysComplete(c: Chan, g: History, htlcs': seq<Htlc>)
    requires Recorded(c, g) && |htlcs'| == |c.htlcs|
    requires forall i | 0 <= i < |htlcs'| :: htlcs'[i].outbound == c.htlcs[i].outbound && htlcs'[i].id == c.htlcs[i].id
    ensures forall id | 0 <= id < |g.outIx| :: OutGone(g, g.outIx[id]) || Find(htlcs', true, id).Some?
    ensures forall id | 0 <= id < |g.inIx| :: InGone(g, g.inIx[id]) || Find(htlcs', false, id).Some?
  {
    forall id | 0 <= id < |g.outIx| ensures OutGone(g, g.outIx[id]) || Find(htlcs', true, id).Some? {
      assert OutGone(g, g.outIx[id]) || Find(c.htlcs, true, id).Some?;
      if Find(c.htlcs, true, id).Some? { FindSameKeys(c.htlcs, htlcs', true, id); }
    }
    forall id | 0 <= id < |g.inIx| ensures InGone(g, g.inIx[id]) || Find(htlcs', false, id).Some? {
      assert InGone(g, g.inIx[id]) || Find(c.htlcs, false, id).Some?;
      if Find(c.htlcs, false, id).Some? { FindSameKeys(c.htlcs, htlcs', false, id); }
    }
  }

  /** The processed flag is invisible to the ledger. */
  lemma ProcessedInvisible(g: History, x: Htlc, flag: bool)
    requires RecordAgrees(g, x)
    ensures RecordAgrees(g, x.(processed := flag))
  {
  }

  lemma MarkProcessedRecorded(c: Chan, g: History, c': Chan)
    requires Recorded(c, g) && |c'.htlcs| == |c.htlcs|
    requires forall i | 0 <= i < |c.htlcs| :: c'.htlcs[i] == c.htlcs[i].(processed := c'.htlcs[i].processed)
    ensures Recorded(c', g)
  {
    var htlcs' := c'.htlcs;
    forall i | 0 <= i < |htlcs'| ensures RecordAgrees(g, htlcs'[i]) {
      assert RecordAgrees(g, c.htlcs[i]);
      ProcessedInvisible(g, c.htlcs[i], htlcs'[i].processed);
    }
    forall i, j | 0 <= i < j < |htlcs'| ensures InOrder(g, htlcs'[i], htlcs'[j]) {
      assert InOrder(g, c.htlcs[i], c.htlcs[j]);
    }
    SameKeysComplete(c, g, htlcs');
  }

  lemma MarkProcessedMeter(c: Chan, g: History, c': Chan, mt: Meter, a: nat, b: nat)
    requires c'.htlcs == MarkProcessed(c.htlcs) && MeterAgrees(c, g, mt, a, b)
    ensures MeterAgrees(c', g, mt, a, b)
  {
    if g.ownLocked <= a <= |g.sent| && g.peerFinal <= b <= |g.recv| {
      SameListSum(mt, g, g, c.htlcs, c'.htlcs, a, b);
    }
  }

  /** Handing HTLCs to the node layer changes nothing the ledger sees. */
  lemma MarkProcessedKeeps(c: Chan, g: History, cell: seq<HoldingOp>)
    requires Inv(c, g)
    ensures Inv(c.(htlcs := MarkProcessed(c.htlcs), holdingCell := cell), g)
  {
    hide Recorded, Indexed, Reflects, MeterAgrees, Stored, Solvent;
    var c' := c.(htlcs := MarkProcessed(c.htlcs), holdingCell := cell);
    MarkProcessedRecorded(c, g, c');
    forall mt: Meter, a: nat, b: nat ensures MeterAgrees(c', g, mt, a, b) {
      assert MeterAgrees(c, g, mt, a, b);
      MarkProcessedMeter(c, g, c', mt, a, b);
    }
    MarkProcessedStored(c, g, c');
  }

  lemma MarkProcessedStored(c: Chan, g: History, c': Chan)
    requires Stored(c, g) && c' == c.(htlcs := MarkProcessed(c.htlcs), holdingCell := c'.holdingCell)
    ensures Stored(c', g)
  {
    hide Reflects;
    if c.pending.Some? {
      forall i | 0 <= i < |c'.htlcs| ensures SnapshotAgrees(c.pending.value, g, c'.htlcs[i]) {
        assert SnapshotAgrees(c.pending.value, g, c.htlcs[i]);
      }
    }
  }
}
