/**
 * Consequences of the ledger invariant: the saturating arithmetic of the code
 * never saturates, money is conserved, and the commitments the code builds are
 * the ones the logs describe.
 */
module LedgerFacts {
  import opened Wrappers
  import opened Channel
  import opened Ledger
  import opened Sums
  import Shachain

  // ------------------------------------------------ the peer cannot lower us

  lemma {:induction false} PeerNeverLowers(g: History, a: nat, b: nat, b': nat)
    requires a <= |g.sent| && b <= b' <= |g.recv|
    ensures OwnBalance(g, a, b) <= OwnBalance(g, a, b')
    decreases b'
  {
    if b < b' {
      PeerNeverLowers(g, a, b, b' - 1);
      assert Delta(HolderMeter(), g.recv[b' - 1], false) >= 0;
    }
  }

  lemma {:induction false} WeNeverLowerPeer(g: History, a: nat, a': nat, b: nat)
    requires a <= a' <= |g.sent| && b <= |g.recv|
    ensures PeerBalance(g, a, b) <= PeerBalance(g, a', b)
    decreases a'
  {
    if a < a' {
      WeNeverLowerPeer(g, a, a' - 1, b);
      assert Delta(CounterpartyMeter(), g.sent[a' - 1], true) >= 0;
    }
  }

  lemma OwnNonNegative(g: History, a: nat, b: nat)
    requires Solvent(g)
    requires a <= |g.sent| && SentLevelAt(g, a) <= b <= |g.recv|
    ensures OwnBalance(g, a, b) >= 0
  {
    assert OwnSolventAt(g, a);
    PeerNeverLowers(g, a, SentLevelAt(g, a), b);
  }

  lemma PeerNonNegative(g: History, a: nat, b: nat)
    requires Solvent(g)
    requires b <= |g.recv| && RecvLevelAt(g, b) <= a <= |g.sent|
    ensures PeerBalance(g, a, b) >= 0
  {
    assert PeerSolventAt(g, b);
    WeNeverLowerPeer(g, RecvLevelAt(g, b), a, b);
  }

  // ------------------------------------------------------ no prefix overdraws

  /** One past the latest add of direction `outbound` below `limit` in the
      list, but at least `floor`. */
  function LatestAdd(g: History, htlcs: seq<Htlc>, outbound: bool, limit: nat, floor: nat): (e: nat)
    requires floor <= limit
    ensures floor <= e <= limit
    ensures forall i | 0 <= i < |htlcs| ::
              InRange(g, htlcs[i]) && htlcs[i].outbound == outbound && IxOf(g, htlcs[i]).add < limit ==>
                IxOf(g, htlcs[i]).add < e
    ensures e == floor || exists i | 0 <= i < |htlcs| ::
              InRange(g, htlcs[i]) && htlcs[i].outbound == outbound && IxOf(g, htlcs[i]).add + 1 == e
  {
    if htlcs == [] then floor
    else
      var n := |htlcs| - 1;
      var prev := LatestAdd(g, htlcs[..n], outbound, limit, floor);
      var x := htlcs[n];
      if InRange(g, x) && x.outbound == outbound && prev <= IxOf(g, x).add < limit then IxOf(g, x).add + 1 else prev
  }

  /** Raising the own-update limit from `e` to `a` does not lower a listed
      HTLC's share of our balance, when no add lies between. */
  lemma HeadShare(g: History, x: Htlc, e: nat, a: nat, b: nat)
    requires RecordAgrees(g, x) && e <= a
    requires x.outbound && IxOf(g, x).add < a ==> IxOf(g, x).add < e
    ensures Share(HolderMeter(), g, x, e, b) <= Share(HolderMeter(), g, x, a, b)
  {
  }

  /** A listed HTLC that comes after every add below `e` adds nothing to us. */
  lemma TailShare(g: History, y: Htlc, e: nat, b: nat)
    requires RecordAgrees(g, y)
    requires !y.outbound && IxOf(g, y).rem.Some? ==> e <= IxOf(g, y).rem.value
    ensures Share(HolderMeter(), g, y, e, b) <= 0
  {
  }

  lemma HeadSharePeer(g: History, x: Htlc, a: nat, e: nat, b: nat)
    requires RecordAgrees(g, x) && e <= b
    requires !x.outbound && IxOf(g, x).add < b ==> IxOf(g, x).add < e
    ensures Share(CounterpartyMeter(), g, x, a, e) <= Share(CounterpartyMeter(), g, x, a, b)
  {
  }

  lemma TailSharePeer(g: History, y: Htlc, a: nat, e: nat)
    requires RecordAgrees(g, y)
    requires y.outbound && IxOf(g, y).rem.Some? ==> e <= IxOf(g, y).rem.value
    ensures Share(CounterpartyMeter(), g, y, a, e) <= 0
  {
  }

  /** A listed HTLC's removal is not final. */
  lemma NotYetFinal(g: History, y: Htlc)
    requires RecordAgrees(g, y)
    ensures InRange(g, y)
    ensures IxOf(g, y).rem.Some? && y.outbound && g.peerFinal <= g.peerLocked ==> g.peerFinal <= IxOf(g, y).rem.value
    ensures IxOf(g, y).rem.Some? && !y.outbound && g.ownLocked <= g.ownAcked ==> g.ownLocked <= IxOf(g, y).rem.value
  {
  }

  lemma AddedBefore(g: History, x: Htlc, y: Htlc)
    requires InRange(g, x) && InRange(g, y) && InOrder(g, x, y) && x.outbound != y.outbound && IxOf(g, y).rem.Some?
    ensures IxOf(g, x).add < IxOf(g, y).rem.value
  {
  }

  /** Inbound HTLCs listed after position `n` were not removed below `e`. */
  lemma TailRemovedLate(c: Chan, g: History, n: nat, i: nat, a: nat, e: nat)
    requires Recorded(c, g) && g.ownLocked <= g.ownAcked && n <= i < |c.htlcs| && g.ownLocked <= a
    requires e == LatestAdd(g, c.htlcs[..n], true, a, g.ownLocked)
    ensures var y := c.htlcs[i]; InRange(g, y) && (!y.outbound && IxOf(g, y).rem.Some? ==> e <= IxOf(g, y).rem.value)
  {
    hide LatestAdd, RecordAgrees, InOrder;
    var y := c.htlcs[i];
    assert RecordAgrees(g, y);
    NotYetFinal(g, y);
    if !y.outbound && IxOf(g, y).rem.Some? {
      var head := c.htlcs[..n];
      if e != g.ownLocked {
        var j :| 0 <= j < |head| && InRange(g, head[j]) && head[j].outbound && IxOf(g, head[j]).add + 1 == e;
        assert InOrder(g, c.htlcs[j], y);
        AddedBefore(g, c.htlcs[j], y);
      }
    }
  }

  lemma TailRemovedLatePeer(c: Chan, g: History, n: nat, i: nat, b: nat, e: nat)
    requires Recorded(c, g) && g.peerFinal <= g.peerLocked && n <= i < |c.htlcs| && g.peerFinal <= b
    requires e == LatestAdd(g, c.htlcs[..n], false, b, g.peerFinal)
    ensures var y := c.htlcs[i]; InRange(g, y) && (y.outbound && IxOf(g, y).rem.Some? ==> e <= IxOf(g, y).rem.value)
  {
    hide LatestAdd, RecordAgrees, InOrder;
    var y := c.htlcs[i];
    assert RecordAgrees(g, y);
    NotYetFinal(g, y);
    if y.outbound && IxOf(g, y).rem.Some? {
      var head := c.htlcs[..n];
      if e != g.peerFinal {
        var j :| 0 <= j < |head| && InRange(g, head[j]) && !head[j].outbound && IxOf(g, head[j]).add + 1 == e;
        assert InOrder(g, c.htlcs[j], y);
        AddedBefore(g, c.htlcs[j], y);
      }
    }
  }

  /** Cutting the list at `n`: the head reads no less at the higher limit, the tail nothing. */
  lemma HeadAndTail(c: Chan, g: History, n: nat, a: nat, b: nat, e: nat)
    requires Recorded(c, g) && n <= |c.htlcs| && g.ownLocked <= a && g.ownLocked <= g.ownAcked && e <= a
    requires e == LatestAdd(g, c.htlcs[..n], true, a, g.ownLocked)
    ensures forall i | 0 <= i < n ::
              Share(HolderMeter(), g, c.htlcs[i], e, b) <= Share(HolderMeter(), g, c.htlcs[i], a, b)
    ensures forall i | n <= i < |c.htlcs| :: Share(HolderMeter(), g, c.htlcs[i], e, b) <= 0
  {
    hide Share, InOrder, Find, HolderMeter;
    var head := c.htlcs[..n];
    forall i | 0 <= i < n ensures Share(HolderMeter(), g, c.htlcs[i], e, b) <= Share(HolderMeter(), g, c.htlcs[i], a, b) {
      assert RecordAgrees(g, c.htlcs[i]) && head[i] == c.htlcs[i];
      HeadShare(g, c.htlcs[i], e, a, b);
    }
    hide LatestAdd;
    forall i | n <= i < |c.htlcs| ensures Share(HolderMeter(), g, c.htlcs[i], e, b) <= 0 {
      assert RecordAgrees(g, c.htlcs[i]);
      TailRemovedLate(c, g, n, i, a, e);
      TailShare(g, c.htlcs[i], e, b);
    }
  }

  lemma HeadAndTailPeer(c: Chan, g: History, n: nat, a: nat, b: nat, e: nat)
    requires Recorded(c, g) && n <= |c.htlcs| && g.peerFinal <= b && g.peerFinal <= g.peerLocked && e <= b
    requires e == LatestAdd(g, c.htlcs[..n], false, b, g.peerFinal)
    ensures forall i | 0 <= i < n ::
              Share(CounterpartyMeter(), g, c.htlcs[i], a, e) <= Share(CounterpartyMeter(), g, c.htlcs[i], a, b)
    ensures forall i | n <= i < |c.htlcs| :: Share(CounterpartyMeter(), g, c.htlcs[i], a, e) <= 0
  {
    hide Share, InOrder, Find, CounterpartyMeter;
    var head := c.htlcs[..n];
    forall i | 0 <= i < n
      ensures Share(CounterpartyMeter(), g, c.htlcs[i], a, e) <= Share(CounterpartyMeter(), g, c.htlcs[i], a, b)
    {
      assert RecordAgrees(g, c.htlcs[i]) && head[i] == c.htlcs[i];
      HeadSharePeer(g, c.htlcs[i], a, e, b);
    }
    hide LatestAdd;
    forall i | n <= i < |c.htlcs| ensures Share(CounterpartyMeter(), g, c.htlcs[i], a, e) <= 0 {
      assert RecordAgrees(g, c.htlcs[i]);
      TailRemovedLatePeer(c, g, n, i, b, e);
      TailSharePeer(g, c.htlcs[i], a, e);
    }
  }

  /** A list reads no more than its head does under a greater meter, if its tail reads nothing. */
  lemma CutSum(f: Htlc -> int, f': Htlc -> int, htlcs: seq<Htlc>, n: nat)
    requires n <= |htlcs| && forall i | 0 <= i < n :: f'(htlcs[i]) <= f(htlcs[i])
    requires forall i | n <= i < |htlcs| :: f'(htlcs[i]) <= 0
    ensures Sum(f', htlcs) <= Sum(f, htlcs[..n])
  {
    var head, tail := htlcs[..n], htlcs[n..];
    SumLe(f', f, head);
    SumNonPositive(f', tail);
    assert head + tail == htlcs;
    SumCat(f', head, tail);
  }

  /** A prefix reads at least what the whole list reads at the lowered limit. */
  lemma PrefixDominates(c: Chan, g: History, n: nat, a: nat, b: nat) returns (e: nat)
    requires Recorded(c, g) && n <= |c.htlcs| && g.ownLocked <= a && g.ownLocked <= g.ownAcked
    ensures g.ownLocked <= e <= a
    ensures ListSum(HolderMeter(), g, c.htlcs, e, b) <= ListSum(HolderMeter(), g, c.htlcs[..n], a, b)
  {
    hide Recorded, Share;
    e := LatestAdd(g, c.htlcs[..n], true, a, g.ownLocked);
    HeadAndTail(c, g, n, a, b, e);
    hide LatestAdd;
    CutSum((x: Htlc) => Share(HolderMeter(), g, x, a, b), (x: Htlc) => Share(HolderMeter(), g, x, e, b), c.htlcs, n);
  }

  lemma PrefixDominatesPeer(c: Chan, g: History, n: nat, a: nat, b: nat) returns (e: nat)
    requires Recorded(c, g) && n <= |c.htlcs| && g.peerFinal <= b && g.peerFinal <= g.peerLocked
    ensures g.peerFinal <= e <= b
    ensures ListSum(CounterpartyMeter(), g, c.htlcs, a, e) <= ListSum(CounterpartyMeter(), g, c.htlcs[..n], a, b)
  {
    hide Recorded, Share;
    e := LatestAdd(g, c.htlcs[..n], false, b, g.peerFinal);
    HeadAndTailPeer(c, g, n, a, b, e);
    hide LatestAdd;
    CutSum((x: Htlc) => Share(CounterpartyMeter(), g, x, a, b), (x: Htlc) => Share(CounterpartyMeter(), g, x, a, e),
           c.htlcs, n);
  }

  /** Adding up a prefix of the list never takes our balance below zero. */
  lemma OwnPrefixNonNegative(c: Chan, g: History, n: nat, a: nat, b: nat)
    requires Counted(c, g) && Recorded(c, g) && Metered(c, g) && Solvent(g) && n <= |c.htlcs|
    requires g.ownLocked <= a <= |g.sent| && g.peerFinal <= b <= |g.recv| && SentLevelAt(g, a) <= b
    ensures c.base.holder + ListSum(HolderMeter(), g, c.htlcs[..n], a, b) >= 0
  {
    var e := PrefixDominates(c, g, n, a, b);
    assert MeterAgrees(c, g, HolderMeter(), e, b);
    assert SentLevelAt(g, e) <= SentLevelAt(g, a);
    OwnNonNegative(g, e, b);
  }

  lemma PeerPrefixNonNegative(c: Chan, g: History, n: nat, a: nat, b: nat)
    requires Counted(c, g) && Recorded(c, g) && Metered(c, g) && Solvent(g) && n <= |c.htlcs|
    requires g.ownLocked <= a <= |g.sent| && g.peerFinal <= b <= |g.recv| && RecvLevelAt(g, b) <= a
    ensures c.base.counterparty + ListSum(CounterpartyMeter(), g, c.htlcs[..n], a, b) >= 0
  {
    var e := PrefixDominatesPeer(c, g, n, a, b);
    assert MeterAgrees(c, g, CounterpartyMeter(), a, e);
    assert RecvLevelAt(g, e) <= RecvLevelAt(g, b);
    PeerNonNegative(g, a, e);
  }

  // -------------------------------------------- phases read what indices read

  /** The updates a side's next commitment covers, as counts into the logs. */
  function OwnLimit(g: History, holderSide: bool): nat {
    if holderSide then g.ownAcked else |g.sent|
  }

  function PeerLimit(g: History, holderSide: bool): nat {
    if holderSide then |g.recv| else g.peerLocked
  }

  lemma PhaseShare(c: Chan, g: History, i: nat, holderSide: bool, mt: Meter)
    requires Counted(c, g) && Indexed(g) && Recorded(c, g) && i < |c.htlcs|
    ensures var x := c.htlcs[i];
            var phase := x.PhaseOn(holderSide);
            var share := Share(mt, g, x, OwnLimit(g, holderSide), PeerLimit(g, holderSide));
            && (phase.NotYet? ==> share == 0)
            && (phase.Included() ==> share == mt.escrow(x.outbound, DataOf(x)))
            && (phase.Credited() ==> x.resolution.Some? && share == mt.credit(x.outbound, DataOf(x), x.resolution.value))
  {
    var x := c.htlcs[i];
    assert RecordAgrees(g, x);
    if x.outbound {
      assert AddAgrees(g.outIx[x.id], x.id, g.sent);
      assert RemAgrees(g.outIx[x.id], x.id, g.sent, g.recv, g.ownLocked);
      hide Indexed, Recorded;
      OwnPhaseShare(c, g, x, holderSide, mt);
    } else {
      assert AddAgrees(g.inIx[x.id], x.id, g.recv);
      assert RemAgrees(g.inIx[x.id], x.id, g.recv, g.sent, g.peerFinal);
      hide Indexed, Recorded;
      PeerPhaseShare(c, g, x, holderSide, mt);
    }
  }

  lemma OwnPhaseShare(c: Chan, g: History, x: Htlc, holderSide: bool, mt: Meter)
    requires Counted(c, g) && RecordAgrees(g, x) && x.outbound && x.id < |g.outIx|
    requires AddAgrees(g.outIx[x.id], x.id, g.sent) && RemAgrees(g.outIx[x.id], x.id, g.sent, g.recv, g.ownLocked)
    ensures var phase := x.PhaseOn(holderSide);
            var share := Share(mt, g, x, OwnLimit(g, holderSide), PeerLimit(g, holderSide));
            && (phase.NotYet? ==> share == 0)
            && (phase.Included() ==> share == mt.escrow(true, DataOf(x)))
            && (phase.Credited() ==> x.resolution.Some? && share == mt.credit(true, DataOf(x), x.resolution.value))
  {
  }

  lemma PeerPhaseShare(c: Chan, g: History, x: Htlc, holderSide: bool, mt: Meter)
    requires Counted(c, g) && RecordAgrees(g, x) && !x.outbound && x.id < |g.inIx|
    requires AddAgrees(g.inIx[x.id], x.id, g.recv) && RemAgrees(g.inIx[x.id], x.id, g.recv, g.sent, g.peerFinal)
    ensures var phase := x.PhaseOn(holderSide);
            var share := Share(mt, g, x, OwnLimit(g, holderSide), PeerLimit(g, holderSide));
            && (phase.NotYet? ==> share == 0)
            && (phase.Included() ==> share == mt.escrow(false, DataOf(x)))
            && (phase.Credited() ==> x.resolution.Some? && share == mt.credit(false, DataOf(x), x.resolution.value))
  {
  }

  lemma ListSumSnoc(mt: Meter, g: History, htlcs: seq<Htlc>, n: nat, a: nat, b: nat)
    requires n < |htlcs|
    ensures ListSum(mt, g, htlcs[..n + 1], a, b) == ListSum(mt, g, htlcs[..n], a, b) + Share(mt, g, htlcs[n], a, b)
  {
    assert htlcs[..n + 1] == htlcs[..n] + [htlcs[n]];
    SumSnoc((x: Htlc) => Share(mt, g, x, a, b), htlcs[..n], htlcs[n]);
  }

  /** One application of `apply_balance` is exact as long as neither balance
      would go negative. */
  lemma ApplyExact(x: Htlc, phase: Phase, bal: Balances, own: int, peer: int)
    requires phase.NotYet? ==> own == 0 && peer == 0
    requires phase.Included() ==>
               own == HolderMeter().escrow(x.outbound, DataOf(x)) && peer == CounterpartyMeter().escrow(x.outbound, DataOf(x))
    requires phase.Credited() ==>
               && x.resolution.Some?
               && own == HolderMeter().credit(x.outbound, DataOf(x), x.resolution.value)
               && peer == CounterpartyMeter().credit(x.outbound, DataOf(x), x.resolution.value)
    requires bal.holder + own >= 0 && bal.counterparty + peer >= 0
    ensures ApplyBalance(x, phase, bal).holder == bal.holder + own
    ensures ApplyBalance(x, phase, bal).counterparty == bal.counterparty + peer
  {
  }

  /** No saturating subtraction in `apply_balance` ever saturates. */
  lemma {:induction false} ExactPrefix(c: Chan, g: History, holderSide: bool, n: nat)
    requires Inv(c, g) && n <= |c.htlcs|
    ensures var (a, b) := (OwnLimit(g, holderSide), PeerLimit(g, holderSide));
            var bal := BalancesOf(c.base, c.htlcs[..n], holderSide);
            && bal.holder == c.base.holder + ListSum(HolderMeter(), g, c.htlcs[..n], a, b)
            && bal.counterparty == c.base.counterparty + ListSum(CounterpartyMeter(), g, c.htlcs[..n], a, b)
    decreases n
  {
    var a, b := OwnLimit(g, holderSide), PeerLimit(g, holderSide);
    if n > 0 {
      ExactPrefix(c, g, holderSide, n - 1);
      assert c.htlcs[..n][..n - 1] == c.htlcs[..n - 1];
      ListSumSnoc(HolderMeter(), g, c.htlcs, n - 1, a, b);
      ListSumSnoc(CounterpartyMeter(), g, c.htlcs, n - 1, a, b);
      PhaseShare(c, g, n - 1, holderSide, HolderMeter());
      PhaseShare(c, g, n - 1, holderSide, CounterpartyMeter());
      LimitsInRange(c, g, holderSide);
      OwnPrefixNonNegative(c, g, n, a, b);
      PeerPrefixNonNegative(c, g, n, a, b);
      var x := c.htlcs[n - 1];
      ApplyExact(x, x.PhaseOn(holderSide), BalancesOf(c.base, c.htlcs[..n - 1], holderSide),
                 Share(HolderMeter(), g, x, a, b), Share(CounterpartyMeter(), g, x, a, b));
    }
  }

  lemma LimitsInRange(c: Chan, g: History, holderSide: bool)
    requires Counted(c, g) && Solvent(g)
    ensures var (a, b) := (OwnLimit(g, holderSide), PeerLimit(g, holderSide));
            && g.ownLocked <= a <= |g.sent| && g.peerFinal <= b <= |g.recv|
            && SentLevelAt(g, a) <= b && RecvLevelAt(g, b) <= a
  {
  }

  /** The effective balances of either side's next commitment are the ones the
      logs give for the updates it covers. */
  lemma ExactBalances(c: Chan, g: History, holderSide: bool)
    requires Inv(c, g)
    ensures var (a, b) := (OwnLimit(g, holderSide), PeerLimit(g, holderSide));
            && BalancesFor(c, holderSide).holder == OwnBalance(g, a, b)
            && BalancesFor(c, holderSide).counterparty == PeerBalance(g, a, b)
  {
    var a, b := OwnLimit(g, holderSide), PeerLimit(g, holderSide);
    ExactPrefix(c, g, holderSide, |c.htlcs|);
    assert c.htlcs[..|c.htlcs|] == c.htlcs;
    assert MeterAgrees(c, g, HolderMeter(), a, b);
    assert MeterAgrees(c, g, CounterpartyMeter(), a, b);
  }

  // ----------------------------------------------------- counts and outputs

  lemma SettledZero(mt: Meter, settled: seq<Htlc>)
    requires forall x | x in settled :: CreditOf(mt, x) == 0
    ensures SettledSum(mt, settled) == 0
  {
    var f := (x: Htlc) => CreditOf(mt, x);
    SumNonNegative(f, settled);
    SumNonPositive(f, settled);
  }

  lemma IncludedSnoc(htlcs: seq<Htlc>, n: nat, holderSide: bool)
    requires n < |htlcs|
    ensures IncludedCount(htlcs[..n + 1], holderSide) ==
            IncludedCount(htlcs[..n], holderSide) + if htlcs[n].PhaseOn(holderSide).Included() then 1 else 0
  {
    assert htlcs[..n + 1][..n] == htlcs[..n];
  }

  lemma {:induction false} IncludedCountIs(c: Chan, g: History, holderSide: bool, n: nat)
    requires Inv(c, g) && n <= |c.htlcs|
    ensures IncludedCount(c.htlcs[..n], holderSide) ==
            ListSum(CountMeter(), g, c.htlcs[..n], OwnLimit(g, holderSide), PeerLimit(g, holderSide))
    decreases n
  {
    if n == 0 {
      NothingListed(CountMeter(), g, OwnLimit(g, holderSide), PeerLimit(g, holderSide));
      assert c.htlcs[..0] == [];
    } else {
      hide Inv, Counted, Indexed, Recorded, FeesAgree, Stored, ListSum, Share, OwnLimit, PeerLimit, IncludedCount;
      InvParts(c, g);
      IncludedCountIs(c, g, holderSide, n - 1);
      ListSumSnoc(CountMeter(), g, c.htlcs, n - 1, OwnLimit(g, holderSide), PeerLimit(g, holderSide));
      PhaseShare(c, g, n - 1, holderSide, CountMeter());
      IncludedSnoc(c.htlcs, n - 1, holderSide);
    }
  }

  lemma ExactCount(c: Chan, g: History, holderSide: bool)
    requires Inv(c, g)
    ensures IncludedCount(c.htlcs, holderSide) ==
            Reading(CountMeter(), g, OwnLimit(g, holderSide), PeerLimit(g, holderSide))
  {
    IncludedCountIs(c, g, holderSide, |c.htlcs|);
    assert c.htlcs[..|c.htlcs|] == c.htlcs;
    SettledZero(CountMeter(), g.settled);
    assert MeterAgrees(c, g, CountMeter(), OwnLimit(g, holderSide), PeerLimit(g, holderSide));
  }

  lemma NoOutputs(holderSide: bool, out: HtlcOutput)
    ensures OutputsOf([], holderSide)[out] == 0
  {
  }

  lemma OutputsSnoc(htlcs: seq<Htlc>, holderSide: bool, out: HtlcOutput, n: nat)
    requires n < |htlcs|
    ensures OutputsOf(htlcs[..n + 1], holderSide)[out] == OutputsOf(htlcs[..n], holderSide)[out] +
            if htlcs[n].PhaseOn(holderSide).Included() && OutputOf(htlcs[n], holderSide) == out then 1 else 0
  {
    assert htlcs[..n + 1][..n] == htlcs[..n];
  }

  lemma {:induction false} OutputsAre(c: Chan, g: History, holderSide: bool, out: HtlcOutput, n: nat)
    requires Inv(c, g) && n <= |c.htlcs|
    ensures OutputsOf(c.htlcs[..n], holderSide)[out] ==
            ListSum(OutputMeter(out, holderSide), g, c.htlcs[..n], OwnLimit(g, holderSide), PeerLimit(g, holderSide))
    decreases n
  {
    hide Inv, ListSum, Share, OutputMeter, OwnLimit, PeerLimit, OutputsOf;
    if n == 0 {
      NoOutputs(holderSide, out);
      NothingListed(OutputMeter(out, holderSide), g, OwnLimit(g, holderSide), PeerLimit(g, holderSide));
      assert c.htlcs[..0] == [];
    } else {
      OutputsAre(c, g, holderSide, out, n - 1);
      OutputsSnoc(c.htlcs, holderSide, out, n - 1);
      ListSumSnoc(OutputMeter(out, holderSide), g, c.htlcs, n - 1, OwnLimit(g, holderSide), PeerLimit(g, holderSide));
      OutputShare(c, g, holderSide, out, n - 1);
    }
  }

  lemma NothingListed(mt: Meter, g: History, a: nat, b: nat)
    ensures ListSum(mt, g, [], a, b) == 0
  {
  }

  /** One HTLC's share of one output's multiplicity. */
  lemma OutputShare(c: Chan, g: History, holderSide: bool, out: HtlcOutput, i: nat)
    requires Inv(c, g) && i < |c.htlcs|
    ensures Share(OutputMeter(out, holderSide), g, c.htlcs[i], OwnLimit(g, holderSide), PeerLimit(g, holderSide)) ==
            if c.htlcs[i].PhaseOn(holderSide).Included() && OutputOf(c.htlcs[i], holderSide) == out then 1 else 0
  {
    hide Inv, Counted, Indexed, Recorded, FeesAgree, Stored, Share, OwnLimit, PeerLimit;
    InvParts(c, g);
    PhaseShare(c, g, i, holderSide, OutputMeter(out, holderSide));
    assert OutputFor(c.htlcs[i].outbound, DataOf(c.htlcs[i]), holderSide) == OutputOf(c.htlcs[i], holderSide);
  }

  lemma ExactOutputs(c: Chan, g: History, holderSide: bool, out: HtlcOutput)
    requires Inv(c, g)
    ensures OutputsOf(c.htlcs, holderSide)[out] ==
            Reading(OutputMeter(out, holderSide), g, OwnLimit(g, holderSide), PeerLimit(g, holderSide))
  {
    hide Inv, ListSum, Indexed, Recorded;
    InvMeters(c, g);
    OutputsAre(c, g, holderSide, out, |c.htlcs|);
    assert c.htlcs[..|c.htlcs|] == c.htlcs;
    SettledZero(OutputMeter(out, holderSide), g.settled);
    assert MeterAgrees(c, g, OutputMeter(out, holderSide), OwnLimit(g, holderSide), PeerLimit(g, holderSide));
  }

  lemma LiveSnoc(htlcs: seq<Htlc>, outbound: bool, n: nat)
    requires n < |htlcs|
    ensures var live := htlcs[n].outbound == outbound && htlcs[n].resolution.None?;
            && LiveCount(htlcs[..n + 1], outbound) == LiveCount(htlcs[..n], outbound) + (if live then 1 else 0)
            && LiveAmount(htlcs[..n + 1], outbound) ==
               LiveAmount(htlcs[..n], outbound) + (if live then htlcs[n].amount else 0)
  {
    assert htlcs[..n + 1][..n] == htlcs[..n];
  }

  lemma {:induction false} LiveIs(c: Chan, g: History, outbound: bool, n: nat)
    requires Inv(c, g) && n <= |c.htlcs|
    ensures LiveCount(c.htlcs[..n], outbound) ==
            ListSum(LiveCountMeter(outbound), g, c.htlcs[..n], |g.sent|, |g.recv|)
    ensures LiveAmount(c.htlcs[..n], outbound) ==
            ListSum(LiveAmountMeter(outbound), g, c.htlcs[..n], |g.sent|, |g.recv|)
    decreases n
  {
    hide Inv, ListSum, Share, LiveCountMeter, LiveAmountMeter;
    if n == 0 {
      NothingListed(LiveCountMeter(outbound), g, |g.sent|, |g.recv|);
      NothingListed(LiveAmountMeter(outbound), g, |g.sent|, |g.recv|);
      assert c.htlcs[..0] == [];
    } else {
      hide LiveCount, LiveAmount;
      LiveIs(c, g, outbound, n - 1);
      LiveSnoc(c.htlcs, outbound, n - 1);
      ListSumSnoc(LiveCountMeter(outbound), g, c.htlcs, n - 1, |g.sent|, |g.recv|);
      ListSumSnoc(LiveAmountMeter(outbound), g, c.htlcs, n - 1, |g.sent|, |g.recv|);
      LiveShare(c, g, outbound, n - 1);
    }
  }

  lemma LiveShare(c: Chan, g: History, outbound: bool, i: nat)
    requires Inv(c, g) && i < |c.htlcs|
    ensures var x := c.htlcs[i];
            var live := x.outbound == outbound && x.resolution.None?;
            && Share(LiveCountMeter(outbound), g, x, |g.sent|, |g.recv|) == (if live then 1 else 0)
            && Share(LiveAmountMeter(outbound), g, x, |g.sent|, |g.recv|) == (if live then x.amount else 0)
  {
    hide Inv, Indexed, FeesAgree, Stored;
    InvParts(c, g);
    assert RecordAgrees(g, c.htlcs[i]);
  }

  /** Unresolved HTLCs: everything added less everything removed. */
  lemma ExactLive(c: Chan, g: History, outbound: bool)
    requires Inv(c, g)
    ensures LiveCount(c.htlcs, outbound) == Reading(LiveCountMeter(outbound), g, |g.sent|, |g.recv|)
    ensures LiveAmount(c.htlcs, outbound) == Reading(LiveAmountMeter(outbound), g, |g.sent|, |g.recv|)
  {
    LiveIs(c, g, outbound, |c.htlcs|);
    assert c.htlcs[..|c.htlcs|] == c.htlcs;
    SettledZero(LiveCountMeter(outbound), g.settled);
    SettledZero(LiveAmountMeter(outbound), g.settled);
    assert MeterAgrees(c, g, LiveCountMeter(outbound), |g.sent|, |g.recv|);
    assert MeterAgrees(c, g, LiveAmountMeter(outbound), |g.sent|, |g.recv|);
  }

  /** The commitment our peer must sign next is the one the logs describe. */
  lemma HolderReflects(c: Chan, g: History, number: nat)
    requires Inv(c, g) && number <= Shachain.MAX_INDEX
    ensures Reflects(HolderCommitmentAt(c, number), c.role, g, true, g.ownAcked, |g.recv|)
  {
    ExactBalances(c, g, true);
    forall out ensures OutputsOf(c.htlcs, true)[out] == Reading(OutputMeter(out, true), g, g.ownAcked, |g.recv|) {
      ExactOutputs(c, g, true, out);
    }
  }

  /** The commitment we sign next is the one the logs describe. */
  lemma CounterpartyReflects(c: Chan, g: History, number: nat, point: Bytes)
    requires Inv(c, g)
    ensures Reflects(CounterpartyCommitmentAt(c, number, point), c.role, g, false, |g.sent|, g.peerLocked)
  {
    ExactBalances(c, g, false);
    forall out ensures OutputsOf(c.htlcs, false)[out] == Reading(OutputMeter(out, false), g, |g.sent|, g.peerLocked) {
      ExactOutputs(c, g, false, out);
    }
  }
}
