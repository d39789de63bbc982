/**
 * The message at the head of a queue is always acceptable to its receiver: the
 * two parties' readings of the shared log prefixes coincide.
 */
module PairDelivery {
  import opened Wrappers
  import opened Channel
  import opened Ledger
  import opened LedgerFacts
  import opened LedgerUpdates
  import opened LedgerCommits
  import opened Pair
  import Shachain

  // ------------------------------------------------- the same prefixes, mirrored

  ghost predicate Mirrors(mt: Meter, mt': Meter) {
    && (forall o: bool, d: Data :: mt'.escrow(o, d) == mt.escrow(!o, d))
    && (forall o: bool, d: Data, r: Resolution :: mt'.credit(o, d, r) == mt.credit(!o, d, r))
  }

  lemma {:induction false} MirrorLogSum(mt: Meter, mt': Meter, log: seq<Update>, log': seq<Update>, n: nat, own: bool)
    requires Mirrors(mt, mt') && n <= |log| && n <= |log'| && log[..n] == log'[..n]
    ensures LogSum(mt', log', n, !own) == LogSum(mt, log, n, own)
    decreases n
  {
    if n > 0 {
      assert log[..n][..n - 1] == log'[..n][..n - 1];
      assert log[..n - 1] == log'[..n - 1];
      MirrorLogSum(mt, mt', log, log', n - 1, own);
      assert log[n - 1] == log[..n][n - 1] == log'[..n][n - 1] == log'[n - 1];
    }
  }

  /** `gx` and `gy` are two ends of one channel as far as `a` and `b` reach. */
  ghost predicate Shared(gx: History, gy: History, a: nat, b: nat) {
    && a <= |gx.sent| && a <= |gy.recv| && gx.sent[..a] == gy.recv[..a]
    && b <= |gx.recv| && b <= |gy.sent| && gx.recv[..b] == gy.sent[..b]
  }

  lemma SharedPrefixes(gx: History, gy: History, a: nat, b: nat)
    requires gy.recv <= gx.sent && gx.recv <= gy.sent && a <= |gy.recv| && b <= |gx.recv|
    ensures Shared(gx, gy, a, b)
  {
  }

  lemma MirrorReading(mt: Meter, mt': Meter, gx: History, gy: History, a: nat, b: nat)
    requires Mirrors(mt, mt') && Shared(gx, gy, a, b)
    ensures Reading(mt', gy, b, a) == Reading(mt, gx, a, b)
  {
    MirrorLogSum(mt, mt', gx.sent, gy.recv, a, true);
    MirrorLogSum(mt, mt', gx.recv, gy.sent, b, false);
  }

  lemma {:induction false} SameLastFee(log: seq<Update>, log': seq<Update>, n: nat, initial: nat)
    requires n <= |log| && n <= |log'| && log[..n] == log'[..n]
    ensures LastFee(log, n, initial) == LastFee(log', n, initial)
    decreases n
  {
    if n > 0 {
      assert log[n - 1] == log[..n][n - 1] == log'[..n][n - 1] == log'[n - 1];
      assert log[..n - 1] == log[..n][..n - 1] == log'[..n][..n - 1] == log'[..n - 1];
      SameLastFee(log, log', n - 1, initial);
    }
  }

  lemma MirrorFee(role: Role, role': Role, gx: History, gy: History, a: nat, b: nat)
    requires role != role' && gx.initialFeerate == gy.initialFeerate && Shared(gx, gy, a, b)
    ensures FeeAt(role', gy, b, a) == FeeAt(role, gx, a, b)
  {
    SameLastFee(gx.sent, gy.recv, a, gx.initialFeerate);
    SameLastFee(gx.recv, gy.sent, b, gx.initialFeerate);
  }

  lemma MirrorBalances(gx: History, gy: History, a: nat, b: nat)
    requires gy.initial == Balances(gx.initial.counterparty, gx.initial.holder) && Shared(gx, gy, a, b)
    ensures PeerBalance(gy, b, a) == OwnBalance(gx, a, b)
    ensures OwnBalance(gy, b, a) == PeerBalance(gx, a, b)
  {
    hide Reading, HolderMeter, CounterpartyMeter, Mirrors;
    BalancesMirror();
    MirrorReading(HolderMeter(), CounterpartyMeter(), gx, gy, a, b);
    MirrorReading(CounterpartyMeter(), HolderMeter(), gx, gy, a, b);
  }

  lemma BalancesMirror()
    ensures Mirrors(HolderMeter(), CounterpartyMeter()) && Mirrors(CounterpartyMeter(), HolderMeter())
  {
  }

  /** A commitment the signer built and the one the receiver builds, from the
      same prefixes, have the same balances, fee rate and HTLC outputs. */
  lemma MirrorReflects(v: Commitment, w: Commitment, role: Role, role': Role, gx: History, gy: History, a: nat, b: nat)
    requires role != role' && gx.initialFeerate == gy.initialFeerate
    requires gy.initial == Balances(gx.initial.counterparty, gx.initial.holder)
    requires Shared(gx, gy, a, b)
    requires Reflects(v, role, gx, false, a, b) && Reflects(w, role', gy, true, b, a)
    ensures v.toBroadcaster == w.toBroadcaster && v.toCountersignatory == w.toCountersignatory
    ensures v.feerate == w.feerate && v.htlcs == w.htlcs
  {
    MirrorBalances(gx, gy, a, b);
    MirrorFee(role, role', gx, gy, a, b);
    forall out ensures v.htlcs[out] == w.htlcs[out] {
      MirrorReading(OutputMeter(out, false), OutputMeter(out, true), gx, gy, a, b);
    }
  }

  // ------------------------------------------------------------ commitment_signed

  /** A message whose every field was fixed by its signer as the receiver
      would fix it. */
  lemma SameCommitment(v: Commitment, x: Chan, gx: History, y: Chan, gy: History, number: nat)
    requires Inv(y, gy) && Partners(x, y) && number <= Shachain.MAX_INDEX
    requires gy.initial == Balances(gx.initial.counterparty, gx.initial.holder)
    requires gy.initialFeerate == gx.initialFeerate
    requires Shared(gx, gy, |gy.recv|, gy.ownAcked)
    requires Reflects(v, x.role, gx, false, |gy.recv|, gy.ownAcked)
    requires v.number == number && v.point == PointAt(y.crypto, y.seed, number)
    requires v.broadcasterPaysFee == x.role.Accepter?
    requires v.dustLimit == x.params.counterpartyDustLimitSat && v.delay == x.params.holderSelectedDelay
    ensures v == HolderCommitmentAt(y, number)
  {
    var w := HolderCommitmentAt(y, number);
    HolderReflects(y, gy, number);
    MirrorReflects(v, w, x.role, y.role, gx, gy, |gy.recv|, gy.ownAcked);
  }

  /** Mirror agreement: the commitment in the message is the one the receiver
      builds for itself. */
  lemma SignedAgrees(x: Chan, gx: History, y: Chan, gy: History, xy: seq<Message>, yx: seq<Message>)
    requires Inv(y, gy) && Stored(x, gx) && PendingMeta(x) && Partners(x, y) && Keys(x, y)
    requires Flow(x, gx, y, gy, xy, yx) && gx.recv <= gy.sent && gx.peerSigned <= |gx.recv|
    requires xy != [] && xy[0].CommitmentSigned?
    ensures xy[0].signed == HolderCommitmentAt(y, y.holderNumber + 1)
  {
    hide Inv, Reflects, HolderCommitmentAt, PointAt, Shachain.Represents, KeysKnown, SnapshotAgrees, Shared, QueueOk;
    SignedFacts(x, gx, y, gy, xy, yx);
    SharedPrefixes(gx, gy, |gy.recv|, gy.ownAcked);
    SameCommitment(xy[0].signed, x, gx, y, gy, y.holderNumber + 1);
  }

  /** A signed commitment at the head of the queue is the one in flight, and its
      receiver has everything it covers. */
  lemma SignedFacts(x: Chan, gx: History, y: Chan, gy: History, xy: seq<Message>, yx: seq<Message>)
    requires Flow(x, gx, y, gy, xy, yx) && xy != [] && xy[0].CommitmentSigned?
    ensures x.pending.Some? && xy[0].signed == x.pending.value.info
    ensures |gy.recv| == gx.ownSigned && gy.ownAcked == gx.peerSigned
    ensures y.holderNumber == x.counterpartyNumber
  {
  }

  // --------------------------------------------------------------- revoke_and_ack

  lemma RevocationAccepted(x: Chan, gx: History, y: Chan, gy: History, xy: seq<Message>, yx: seq<Message>)
    requires Counted(y, gy) && Flow(x, gx, y, gy, xy, yx) && Flow(y, gy, x, gx, yx, xy)
    requires Keys(y, x) && y.crypto == x.crypto
    requires xy != [] && xy[0].RevokeAndAck?
    ensures Revoke(y, xy[0]).Done?
  {
    assert x.holderNumber == y.counterpartyNumber + 1;
    Shachain.HonestInsertAccepted(y.crypto.sha, x.seed, y.secrets, y.counterpartyNumber);
  }

  // -------------------------------------------------------------- update_add_htlc

  lemma {:induction false} LiveFallsWithRemovals(mt: Meter, log: seq<Update>, n: nat, n': nat)
    requires n <= n' <= |log|
    requires forall d: Data :: mt.escrow(false, d) == 0 && mt.escrow(true, d) >= 0
    requires forall o: bool, d: Data, r: Resolution :: mt.credit(o, d, r) == 0
    ensures LogSum(mt, log, n', false) <= LogSum(mt, log, n, false)
    decreases n'
  {
    if n < n' { LiveFallsWithRemovals(mt, log, n, n' - 1); }
  }

  /** The receiver never counts more unresolved HTLCs than the sender did. */
  lemma LiveAtMost(mt: Meter, mt': Meter, gx: History, gy: History, r: nat, seen: nat)
    requires Mirrors(mt, mt')
    requires forall d: Data :: mt.escrow(false, d) == 0 && mt.escrow(true, d) >= 0
    requires forall o: bool, d: Data, res: Resolution :: mt.credit(o, d, res) == 0
    requires gy.recv <= gx.sent && gx.recv <= gy.sent && r == |gy.recv| && seen <= |gx.recv|
    ensures Reading(mt', gy, |gy.sent|, r) <= Reading(mt, gx, r, seen)
  {
    MirrorLogSum(mt, mt', gx.sent, gy.recv, r, true);
    MirrorLogSum(mt, mt', gy.sent, gy.sent, |gy.sent|, false);
    LiveFallsWithRemovals(mt, gy.sent, seen, |gy.sent|);
    MirrorLogSum(mt, mt', gx.recv, gy.sent, seen, false);
    MirrorLogSum(mt, mt', gy.sent, gy.sent, seen, false);
  }

  lemma ReceivedIdBelow(gx: History, gy: History, id: nat)
    requires Indexed(gx) && Indexed(gy) && gy.recv <= gx.sent && id < |gy.inIx|
    ensures id < |gx.outIx| && gx.outIx[id].add < |gy.recv|
  {
    assert AddAgrees(gy.inIx[id], id, gy.recv);
    assert gx.sent[gy.inIx[id].add] == gy.recv[gy.inIx[id].add];
  }

  lemma BelowIsReceived(gx: History, gy: History, id: nat)
    requires Indexed(gx) && Indexed(gy) && gy.recv <= gx.sent && id < |gx.outIx| && gx.outIx[id].add < |gy.recv|
    ensures id < |gy.inIx|
  {
    assert AddAgrees(gx.outIx[id], id, gx.sent);
    assert gy.recv[gx.outIx[id].add] == gx.sent[gx.outIx[id].add];
  }

  /** The next add of a log names the next free id. */
  lemma NextId(gx: History, gy: History, r: nat)
    requires Indexed(gx) && Indexed(gy) && Ordered(gx.outIx)
    requires gy.recv <= gx.sent && r == |gy.recv| < |gx.sent| && gx.sent[r].Add?
    ensures gx.sent[r].id == |gy.inIx|
  {
    var id := gx.sent[r].id;
    assert gx.outIx[id].add == r;
    if id < |gy.inIx| {
      ReceivedIdBelow(gx, gy, id);
    } else if id > |gy.inIx| {
      BelowIsReceived(gx, gy, |gy.inIx|);
    }
  }

  lemma AddLimits(x: Chan, gx: History, y: Chan, gy: History, r: nat)
    requires Inv(y, gy) && SentAllowed(x, gx, r) && gx.sent[r].Add?
    requires gy.recv <= gx.sent && gx.recv <= gy.sent && r == |gy.recv|
    requires MirrorParams(x.params, y.params)
    ensures LiveCount(y.htlcs, false) < y.params.holderMaxAccepted
    ensures LiveAmount(y.htlcs, false) + gx.sent[r].data.amount <= y.params.holderMaxInFlight
  {
    ExactLive(y, gy, false);
    LiveAtMost(LiveCountMeter(true), LiveCountMeter(false), gx, gy, r, gx.sentSeen[r]);
    LiveAtMost(LiveAmountMeter(true), LiveAmountMeter(false), gx, gy, r, gx.sentSeen[r]);
  }

  /** The receiver reads, of its own next commitment, what the sender read of
      it when it sent the update. */
  lemma SameAccount(x: Chan, gx: History, y: Chan, gy: History)
    requires Inv(y, gy) && y.role != x.role && Shared(gx, gy, |gy.recv|, gy.ownAcked)
    requires gy.initial == Balances(gx.initial.counterparty, gx.initial.holder)
    requires gy.initialFeerate == gx.initialFeerate
    ensures BalancesFor(y, true).counterparty == OwnBalance(gx, |gy.recv|, gy.ownAcked)
    ensures IncludedCount(y.htlcs, true) == Reading(CountMeter(), gx, |gy.recv|, gy.ownAcked)
    ensures y.feerateHolder == FeeAt(x.role, gx, |gy.recv|, gy.ownAcked)
  {
    ExactBalances(y, gy, true);
    ExactCount(y, gy, true);
    MirrorBalances(gx, gy, |gy.recv|, gy.ownAcked);
    MirrorReading(CountMeter(), CountMeter(), gx, gy, |gy.recv|, gy.ownAcked);
    MirrorFee(x.role, y.role, gx, gy, |gy.recv|, gy.ownAcked);
  }

  lemma AddAffordable(x: Chan, gx: History, y: Chan, gy: History, r: nat)
    requires Inv(y, gy) && SentAllowed(x, gx, r) && gx.sent[r].Add?
    requires gy.recv <= gx.sent && gx.recv <= gy.sent && r == |gy.recv| && gx.sentLevel[r] == gy.ownAcked
    requires MirrorParams(x.params, y.params) && y.role != x.role
    requires gy.initial == Balances(gx.initial.counterparty, gx.initial.holder)
    requires gy.initialFeerate == gx.initialFeerate
    ensures Affordable(BalancesFor(y, true).counterparty, gx.sent[r].data.amount, y.params.holderSelectedReserveSat,
                       y.role.Accepter?, y.feerateHolder, IncludedCount(y.htlcs, true) + 1)
  {
    hide Inv;
    SharedPrefixes(gx, gy, r, gx.sentLevel[r]);
    SameAccount(x, gx, y, gy);
    AffordableWithFewer(BalancesFor(y, true).counterparty, gx.sent[r].data.amount, y.params.holderSelectedReserveSat,
                        y.role.Accepter?, y.feerateHolder, IncludedCount(y.htlcs, true));
  }

  /** The sender's headroom of two HTLCs covers the receiver's one. */
  lemma AffordableWithFewer(balance: int, amount: nat, reserveSat: nat, paysFee: bool, feerate: nat, n: nat)
    requires Affordable(balance, amount, reserveSat, paysFee, feerate, n + 2)
    ensures Affordable(balance, amount, reserveSat, paysFee, feerate, n + 1)
  {
    FeeMonotone(feerate, n + 1, n + 2);
  }

  lemma FeeMonotone(feerate: nat, n: nat, n': nat)
    requires n <= n'
    ensures CommitmentFee(feerate, n) <= CommitmentFee(feerate, n')
  {
    var w := COMMITMENT_TX_BASE_WEIGHT + COMMITMENT_TX_WEIGHT_PER_HTLC * n;
    var w' := COMMITMENT_TX_BASE_WEIGHT + COMMITMENT_TX_WEIGHT_PER_HTLC * n';
    assert feerate * (w' - w) >= 0;
    assert feerate * w' == feerate * w + feerate * (w' - w);
  }

  /** Below the limit the truncation to 16 bits changes nothing. */
  lemma SmallCount(n: nat, limit: U16)
    requires n < limit
    ensures n % 0x1_0000 < limit
  {
  }

  lemma AddAcceptedFrom(x: Chan, gx: History, y: Chan, gy: History, m: Message)
    requires Inv(y, gy) && Indexed(gx) && Ordered(gx.outIx) && Partners(x, y)
    requires gy.recv <= gx.sent && gx.recv <= gy.sent && |gy.recv| < |gx.sent|
    requires m.UpdateAddHtlc? && Fits(m, gx.sent[|gy.recv|])
    requires SentAllowed(x, gx, |gy.recv|) && gx.sentLevel[|gy.recv|] == gy.ownAcked
    requires gy.initial == Balances(gx.initial.counterparty, gx.initial.holder)
    requires gy.initialFeerate == gx.initialFeerate
    ensures m.id == y.nextCounterpartyId && InboundAddAllowed(y, m.amount, m.cltvExpiry)
  {
    hide Inv, Indexed, Recorded, Ordered, Partners, Affordable, LiveCount, LiveAmount, FeesAgree, Stored;
    InvParts(y, gy);
    var r := |gy.recv|;
    AddFacts(x, gx, y, r);
    NextId(gx, gy, r);
    AddLimits(x, gx, y, gy, r);
    SmallCount(LiveCount(y.htlcs, false), y.params.holderMaxAccepted);
    AddAffordable(x, gx, y, gy, r);
  }

  /** What the sender checked of an add that its receiver checks again. */
  lemma AddFacts(x: Chan, gx: History, y: Chan, r: nat)
    requires Partners(x, y) && SentAllowed(x, gx, r) && gx.sent[r].Add?
    ensures var d := gx.sent[r].data;
            && d.amount != 0 && d.amount >= y.params.holderHtlcMinimum && d.cltvExpiry < CLTV_LIMIT
            && MirrorParams(x.params, y.params) && y.role != x.role
  {
    hide Affordable, Reading;
  }

  lemma AddAccepted(x: Chan, gx: History, y: Chan, gy: History, xy: seq<Message>, yx: seq<Message>)
    requires PairInv(x, gx, y, gy, xy, yx) && xy != [] && xy[0].UpdateAddHtlc?
    ensures OnUpdateAdd(y, xy[0]).Done?
  {
    hide Inv, SentAllowed, InboundAddAllowed;
    assert SentAllowed(x, gx, |gy.recv|);
    InvParts(x, gx);
    hide Recorded, FeesAgree, Stored, Indexed;
    AddAcceptedFrom(x, gx, y, gy, xy[0]);
  }

  // ------------------------------------------------------------------- removals

  /** The HTLC a delivered removal names is listed, unresolved and locked on
      both sides at its offerer. */
  lemma RemovalTarget(x: Chan, gx: History, y: Chan, gy: History, r: nat) returns (i: nat)
    requires Counted(y, gy) && Indexed(gx) && Indexed(gy) && Recorded(y, gy)
    requires gy.recv <= gx.sent && gx.recv <= gy.sent && r == |gy.recv| < |gx.sent| && gx.sent[r].Remove?
    requires gx.peerFinal <= gy.ownLocked && gx.peerFinal <= |gx.recv|
    ensures Find(y.htlcs, true, gx.sent[r].id) == Some(i) && i < |y.htlcs|
    ensures Irrevocable(y.htlcs[i]) && DataOf(y.htlcs[i]) == gx.sent[r].data
  {
    var id := gx.sent[r].id;
    assert gx.inIx[id].rem == Some(r);
    assert AddAgrees(gx.inIx[id], id, gx.recv);
    assert RemAgrees(gx.inIx[id], id, gx.recv, gx.sent, gx.peerFinal);
    var n := gx.inIx[id].add;
    assert gy.sent[n] == gx.recv[n];
    assert gy.outIx[id].add == n;
    assert gy.outIx[id].rem.None? by { NotYetRemoved(gx, gy, r, id); }
    assert OutGone(gy, gy.outIx[id]) || Find(y.htlcs, true, id).Some?;
    i := Find(y.htlcs, true, id).value;
    assert RecordAgrees(gy, y.htlcs[i]);
  }

  lemma NotYetRemoved(gx: History, gy: History, r: nat, id: nat)
    requires Indexed(gx) && Indexed(gy) && gy.recv <= gx.sent && r == |gy.recv|
    requires id < |gx.inIx| && gx.inIx[id].rem == Some(r) && id < |gy.outIx|
    ensures gy.outIx[id].rem.None?
  {
    assert RemAgrees(gy.outIx[id], id, gy.sent, gy.recv, gy.ownLocked);
    assert forall j | 0 <= j < |gy.recv| :: gx.sent[j] == gy.recv[j];
  }

  lemma RemoveFacts(x: Chan, gx: History, y: Chan, gy: History, xy: seq<Message>, yx: seq<Message>)
    requires PairInv(x, gx, y, gy, xy, yx) && xy != [] && xy[0].UpdateRemoveHtlc?
    ensures |gy.recv| < |gx.sent| && Fits(xy[0], gx.sent[|gy.recv|]) && SentAllowed(x, gx, |gy.recv|)
    ensures gy.recv <= gx.sent && gx.recv <= gy.sent && gx.peerFinal <= gy.ownLocked && gx.peerFinal <= |gx.recv|
    ensures Counted(y, gy) && Indexed(gx) && Indexed(gy) && Recorded(y, gy) && y.crypto == x.crypto
  {
    hide Indexed, Recorded, Metered, Solvent, FeesAgree, Stored, Keys, SentAllowed;
  }

  lemma RemoveAccepted(x: Chan, gx: History, y: Chan, gy: History, xy: seq<Message>, yx: seq<Message>)
    requires PairInv(x, gx, y, gy, xy, yx) && xy != [] && xy[0].UpdateRemoveHtlc?
    ensures OnUpdateRemove(y, xy[0]).Done? <==> !CodeLacksBadOnion(xy[0].resolution)
    ensures CodeLacksBadOnion(xy[0].resolution) ==> OnUpdateRemove(y, xy[0]) == Failed(Close)
  {
    hide Inv, Keys, QueueOk, HonestSender;
    RemoveFacts(x, gx, y, gy, xy, yx);
    var r := |gy.recv|;
    var i := RemovalTarget(x, gx, y, gy, r);
  }

  // ---------------------------------------------------------------- fee updates

  lemma FeeAccepted(x: Chan, gx: History, y: Chan, gy: History, xy: seq<Message>, yx: seq<Message>)
    requires PairInv(x, gx, y, gy, xy, yx) && xy != [] && xy[0].UpdateFee?
    ensures y.role.Accepter?
    ensures OnUpdateFee(y, xy[0]).Done? <==> xy[0].feerate <= FEERATE_CEILING
    ensures xy[0].feerate > FEERATE_CEILING ==> OnUpdateFee(y, xy[0]) == Failed(Close)
  {
    var r := |gy.recv|;
    assert SentAllowed(x, gx, r);
    assert gx.sent[r].Fee?;
  }
}
