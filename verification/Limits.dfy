/**
 * What the checks on new HTLCs and fee rates achieve: in every state of a run
 * against an arbitrary peer, both parties' limits hold for the HTLCs that are
 * live, and each party keeps a stake in the other's commitment.
 */
module Limits {
  import opened Wrappers
  import opened Channel
  import opened Ledger
  import opened LedgerFacts
  import opened LedgerUpdates
  import opened LedgerCommits
  import opened ChannelRuns

  function Min(a: int, b: int): int {
    if a < b then a else b
  }

  // --------------------------------------------------------------- on the logs

  /** An HTLC its receiver must not refuse for its amount or expiry. */
  predicate Acceptable(p: Params, outbound: bool, amount: nat, cltvExpiry: nat) {
    && amount > 0 && cltvExpiry < CLTV_LIMIT
    && amount >= if outbound then p.counterpartyHtlcMinimum else p.holderHtlcMinimum
  }

  predicate AcceptableUpdate(p: Params, own: bool, u: Update) {
    match u
    case Add(_, d) => Acceptable(p, own, d.amount, d.cltvExpiry)
    case Remove(_, _, _) => true
    case Fee(feerate) => FEERATE_FLOOR <= feerate && (own || feerate <= FEERATE_CEILING)
  }

  /** The live HTLCs of each direction are within the limits of their receiver. */
  ghost predicate LiveWithin(p: Params, g: History) {
    && Reading(LiveCountMeter(true), g, |g.sent|, |g.recv|) <= p.counterpartyMaxAccepted
    && Reading(LiveAmountMeter(true), g, |g.sent|, |g.recv|) <= p.counterpartyMaxInFlight
    && Reading(LiveCountMeter(false), g, |g.sent|, |g.recv|) <= p.holderMaxAccepted
    && Reading(LiveAmountMeter(false), g, |g.sent|, |g.recv|) <= p.holderMaxInFlight
  }

  /** Each party's balance in the other's next commitment is its reserve, or what it
      started with if that was less. */
  ghost predicate StakesKept(p: Params, g: History)
    requires g.peerLocked <= |g.recv| && g.ownAcked <= |g.sent|
  {
    && OwnBalance(g, |g.sent|, g.peerLocked) >= Min(g.initial.holder, p.counterpartySelectedReserveSat * 1000)
    && PeerBalance(g, g.ownAcked, |g.recv|) >= Min(g.initial.counterparty, p.holderSelectedReserveSat * 1000)
  }

  /** HTLCs are numbered in the order they were offered. */
  ghost predicate InSequence(ixs: seq<Ix>) {
    forall id, id' | 0 <= id < id' < |ixs| :: ixs[id].add < ixs[id'].add
  }

  ghost predicate SameAdds(ixs: seq<Ix>, ixs': seq<Ix>) {
    |ixs'| == |ixs| && forall id | 0 <= id < |ixs| :: ixs'[id].add == ixs[id].add
  }

  ghost predicate Bounded(p: Params, g: History) {
    && g.peerLocked <= |g.recv| && g.ownAcked <= |g.sent|
    && InSequence(g.outIx) && InSequence(g.inIx)
    && LiveWithin(p, g) && StakesKept(p, g)
    && (forall i | 0 <= i < |g.sent| :: AcceptableUpdate(p, true, g.sent[i]))
    && (forall i | 0 <= i < |g.recv| :: AcceptableUpdate(p, false, g.recv[i]))
  }

  /** Removals free limits and pay; they never lower a balance. */
  lemma CalmDelta(u: Update, own: bool, outbound: bool)
    requires !u.Add?
    ensures Delta(HolderMeter(), u, own) >= 0 && Delta(CounterpartyMeter(), u, own) >= 0
    ensures Delta(LiveCountMeter(outbound), u, own) <= 0 && Delta(LiveAmountMeter(outbound), u, own) <= 0
  {
  }

  lemma LogSumSnoc(mt: Meter, log: seq<Update>, u: Update, own: bool)
    ensures LogSum(mt, log + [u], |log| + 1, own) == LogSum(mt, log, |log|, own) + Delta(mt, u, own)
    ensures forall n: nat | n <= |log| :: LogSum(mt, log + [u], n, own) == LogSum(mt, log, n, own)
  {
    forall n: nat | n <= |log| ensures LogSum(mt, log + [u], n, own) == LogSum(mt, log, n, own) {
      LogSumPrefix(mt, log, log + [u], n, own);
    }
  }

  ghost predicate SameStart(g: History, g': History) {
    g'.initial == g.initial && g'.initialFeerate == g.initialFeerate
  }

  ghost predicate SameCounters(g: History, g': History) {
    g'.initial == g.initial && g'.ownAcked == g.ownAcked && g'.peerLocked == g.peerLocked
  }

  ghost predicate SameNumbers(g: History, g': History) {
    SameAdds(g.outIx, g'.outIx) && SameAdds(g.inIx, g'.inIx)
  }

  /** Signing, locking in and revoking write nothing and only raise balances. */
  lemma CountersRise(p: Params, g: History, g': History)
    requires Bounded(p, g) && g'.sent == g.sent && g'.recv == g.recv && g'.initial == g.initial
    requires g.ownAcked <= g'.ownAcked <= |g.sent| && g.peerLocked <= g'.peerLocked <= |g.recv|
    requires SameNumbers(g, g')
    ensures Bounded(p, g')
  {
    PeerNeverLowers(g', |g.sent|, g.peerLocked, g'.peerLocked);
    WeNeverLowerPeer(g', g.ownAcked, g'.ownAcked, |g.recv|);
    SameReadings(g, g');
  }

  lemma SameReadings(g: History, g': History)
    requires g'.sent == g.sent && g'.recv == g.recv
    ensures forall mt: Meter, a: nat, b: nat | a <= |g.sent| && b <= |g.recv| :: Reading(mt, g', a, b) == Reading(mt, g, a, b)
  {
  }

  /** A removal or a fee update of ours. */
  lemma Sent(p: Params, g: History, g': History, u: Update)
    requires Bounded(p, g) && SameCounters(g, g') && g'.recv == g.recv && g'.sent == g.sent + [u]
    requires !u.Add? && AcceptableUpdate(p, true, u) && SameNumbers(g, g')
    ensures Bounded(p, g')
  {
    SentReads(g, g', u);
    CalmDelta(u, true, true);
    CalmDelta(u, true, false);
  }

  lemma SentReads(g: History, g': History, u: Update)
    requires SameCounters(g, g') && g'.recv == g.recv && g'.sent == g.sent + [u]
    requires g.ownAcked <= |g.sent| && g.peerLocked <= |g.recv|
    ensures forall mt: Meter, b: nat | b <= |g.recv| ::
              Reading(mt, g', |g'.sent|, b) == Reading(mt, g, |g.sent|, b) + Delta(mt, u, true)
    ensures PeerBalance(g', g'.ownAcked, |g'.recv|) == PeerBalance(g, g.ownAcked, |g.recv|)
  {
    forall mt: Meter, b: nat | b <= |g.recv|
      ensures Reading(mt, g', |g'.sent|, b) == Reading(mt, g, |g.sent|, b) + Delta(mt, u, true)
    {
      LogSumSnoc(mt, g.sent, u, true);
    }
    LogSumSnoc(CounterpartyMeter(), g.sent, u, true);
  }

  lemma ReceivedReads(g: History, g': History, u: Update)
    requires SameCounters(g, g') && g'.sent == g.sent && g'.recv == g.recv + [u]
    requires g.ownAcked <= |g.sent| && g.peerLocked <= |g.recv|
    ensures forall mt: Meter, a: nat | a <= |g.sent| ::
              Reading(mt, g', a, |g'.recv|) == Reading(mt, g, a, |g.recv|) + Delta(mt, u, false)
    ensures OwnBalance(g', |g'.sent|, g'.peerLocked) == OwnBalance(g, |g.sent|, g.peerLocked)
  {
    forall mt: Meter, a: nat | a <= |g.sent|
      ensures Reading(mt, g', a, |g'.recv|) == Reading(mt, g, a, |g.recv|) + Delta(mt, u, false)
    {
      LogSumSnoc(mt, g.recv, u, false);
    }
    LogSumSnoc(HolderMeter(), g.recv, u, false);
  }

  /** A removal or a fee update of the peer. */
  lemma Received(p: Params, g: History, g': History, u: Update)
    requires Bounded(p, g) && SameCounters(g, g') && g'.sent == g.sent && g'.recv == g.recv + [u]
    requires !u.Add? && AcceptableUpdate(p, false, u) && SameNumbers(g, g')
    ensures Bounded(p, g')
  {
    ReceivedReads(g, g', u);
    CalmDelta(u, false, true);
    CalmDelta(u, false, false);
  }

  lemma NextInSequence(c: Chan, g: History)
    requires Inv(c, g) && InSequence(g.outIx) && InSequence(g.inIx)
    ensures InSequence(g.outIx + [Ix(|g.sent|, None)]) && InSequence(g.inIx + [Ix(|g.recv|, None)])
  {
    hide Counted, Recorded, Metered, Solvent, FeesAgree, Stored, RemAgrees;
    forall id | 0 <= id < |g.outIx| ensures g.outIx[id].add < |g.sent| {
      assert AddAgrees(g.outIx[id], id, g.sent);
    }
    forall id | 0 <= id < |g.inIx| ensures g.inIx[id].add < |g.recv| {
      assert AddAgrees(g.inIx[id], id, g.recv);
    }
  }

  /** An add of ours that passed our own checks. */
  lemma SentAdd(c: Chan, g: History, d: Data)
    requires Inv(c, g) && Bounded(c.params, g) && OutboundAddAllowed(c, d.amount, d.cltvExpiry)
    ensures Bounded(c.params, AfterSendAdd(g, d))
  {
    hide Inv, InSequence, SameAdds;
    NextInSequence(c, g);
    InvCounts(c, g);
    var u := Add(|g.outIx|, d);
    SentReads(g, AfterSendAdd(g, d), u);
    ExactLive(c, g, true);
    ExactBalances(c, g, false);
  }

  lemma ReceivedAdd(c: Chan, g: History, d: Data)
    requires Inv(c, g) && Bounded(c.params, g) && InboundAddAllowed(c, d.amount, d.cltvExpiry)
    ensures Bounded(c.params, AfterRecvAdd(g, d))
  {
    hide Inv, InSequence, SameAdds;
    NextInSequence(c, g);
    InvCounts(c, g);
    var u := Add(|g.inIx|, d);
    ReceivedReads(g, AfterRecvAdd(g, d), u);
    ExactLive(c, g, false);
    ExactBalances(c, g, true);
  }

  // ------------------------------------------------------------------ the steps

  lemma AddBounded(c: Chan, g: History, amount: nat, paymentHash: Bytes, cltvExpiry: nat, onion: Bytes, source: Source)
    returns (g': History)
    requires Inv(c, g) && Bounded(c.params, g) && SendAdd(c, amount, paymentHash, cltvExpiry, onion, source).Done?
    ensures var d := SendAdd(c, amount, paymentHash, cltvExpiry, onion, source).chan;
            Inv(d, g') && d.params == c.params && Bounded(c.params, g') && SameStart(g, g') && d.role == c.role
  {
    hide Inv, Bounded, OutboundAddAllowed;
    g' := SendAddStep(c, g, amount, paymentHash, cltvExpiry, onion, source);
    if !c.awaitingRaa { SentAdd(c, g, Data(amount, cltvExpiry, paymentHash, onion)); }
  }

  lemma RemoveBounded(c: Chan, g: History, id: nat, res: Resolution) returns (g': History)
    requires Inv(c, g) && Bounded(c.params, g) && SendRemove(c, id, res).Done?
    ensures var d := SendRemove(c, id, res).chan;
            Inv(d, g') && d.params == c.params && Bounded(c.params, g') && SameStart(g, g') && d.role == c.role
  {
    hide Inv, Bounded, Irrevocable, Find;
    g' := SendRemoveStep(c, g, id, res);
    if !c.awaitingRaa {
      var x := Find(c.htlcs, false, id).value;
      Sent(c.params, g, g', Remove(id, DataOf(c.htlcs[x]), res));
    }
  }

  lemma OperationBounded(c: Chan, g: History, op: HoldingOp) returns (g': History)
    requires Inv(c, g) && Bounded(c.params, g) && !c.awaitingRaa
    ensures var d := Flush(c, [op]).chan;
            Inv(d, g') && d.params == c.params && Bounded(c.params, g') && SameStart(g, g') && d.role == c.role
  {
    hide Inv, Bounded, SendAdd, SendRemove;
    g' := g;
    assert Flush(c, [op][..0]) == Flushed(c, [], []);
    match op
    case HoldAdd(amount, paymentHash, cltvExpiry, onion, source) =>
      if SendAdd(c, amount, paymentHash, cltvExpiry, onion, source).Done? {
        g' := AddBounded(c, g, amount, paymentHash, cltvExpiry, onion, source);
      }
    case HoldRemove(id, res) => if SendRemove(c, id, res).Done? { g' := RemoveBounded(c, g, id, res); }
  }

  lemma {:induction false} FlushBounded(c: Chan, g: History, ops: seq<HoldingOp>) returns (g': History)
    requires Inv(c, g) && Bounded(c.params, g) && !c.awaitingRaa
    ensures var d := Flush(c, ops).chan;
            Inv(d, g') && d.params == c.params && Bounded(c.params, g') && SameStart(g, g') && d.role == c.role
    decreases |ops|
  {
    g' := g;
    if ops != [] {
      hide Inv, Bounded;
      var n := |ops| - 1;
      var g1 := FlushBounded(c, g, ops[..n]);
      var _ := FlushStep(c, g, ops[..n]);
      g' := OperationBounded(Flush(c, ops[..n]).chan, g1, ops[n]);
      FlushSnoc(c, ops);
    }
  }

  lemma SignBounded(c: Chan, g: History)
    requires Inv(c, g) && Bounded(c.params, g) && SendCommitmentSigned(c).Done?
    ensures var d := SendCommitmentSigned(c).chan;
            Inv(d, AfterSign(g)) && d.params == c.params && Bounded(c.params, AfterSign(g)) && d.role == c.role
  {
    hide Inv, KeysIn, CounterpartyCommitmentAt;
    SignKeeps(c, g);
    CountersRise(c.params, g, AfterSign(g));
  }

  lemma LockBounded(c: Chan, g: History, m: Message) returns (g': History)
    requires Inv(c, g) && Bounded(c.params, g) && m.CommitmentSigned? && OnCommitmentSigned(c, m).Done?
    ensures var d := OnCommitmentSigned(c, m).chan;
            Inv(d, g') && d.params == c.params && Bounded(c.params, g') && SameStart(g, g') && d.role == c.role
  {
    hide Inv, LockAll, Kept, BakedBalances, AnyAcknowledged, HolderCommitmentAt;
    InvCounts(c, g);
    LockKeeps(c, g, m);
    g' := AfterLock(g, LockAll(c.htlcs));
    CountersRise(c.params, g, g');
  }

  lemma RevokeBounded(c: Chan, g: History, m: Message)
    requires Inv(c, g) && Bounded(c.params, g) && m.RevokeAndAck? && Revoke(c, m).Done?
    ensures var d := Revoke(c, m).chan;
            var g' := AfterRevoke(g, RaaMarked(c));
            Inv(d, g') && d.params == c.params && Bounded(c.params, g') && !d.awaitingRaa && d.role == c.role
  {
    hide Inv, ApplyIncluded, ApplyRemoved, Kept, BakedBalances;
    InvCounts(c, g);
    RevokeKeeps(c, g, m);
    CountersRise(c.params, g, AfterRevoke(g, RaaMarked(c)));
  }

  lemma RevocationBounded(c: Chan, g: History, m: Message) returns (g': History)
    requires Inv(c, g) && Bounded(c.params, g) && m.RevokeAndAck? && OnRevokeAndAck(c, m).Done?
    ensures var d := OnRevokeAndAck(c, m).chan;
            Inv(d, g') && d.params == c.params && Bounded(c.params, g') && SameStart(g, g') && d.role == c.role
  {
    RevokeBounded(c, g, m);
    hide Inv, Bounded, Revoke, MarkProcessed, Flush, CollectForwardable, CanSendCommitment, SendCommitmentSigned;
    var c1 := Revoke(c, m).chan;
    var g1 := AfterRevoke(g, RaaMarked(c));
    MarkProcessedKeeps(c1, g1, []);
    var c2 := c1.(htlcs := MarkProcessed(c1.htlcs), holdingCell := []);
    g' := FlushBounded(c2, g1, c1.holdingCell);
    var f := Flush(c2, c1.holdingCell);
    if SendCommitmentSigned(f.chan).Done? && CanSendCommitment(f.chan) {
      SignBounded(f.chan, g');
      g' := AfterSign(g');
    }
  }

  lemma UpdateBounded(c: Chan, g: History, m: Message) returns (g': History)
    requires Inv(c, g) && Bounded(c.params, g) && !m.CommitmentSigned? && !m.RevokeAndAck?
    ensures var d := Deliver(c, m).chan;
            Inv(d, g') && d.params == c.params && Bounded(c.params, g') && SameStart(g, g') && d.role == c.role
  {
    hide Inv, Bounded, InboundAddAllowed, Find, Irrevocable, CodeLacksBadOnion, PreimageMatches;
    g' := g;
    match m
    case UpdateAddHtlc(_, amount, paymentHash, cltvExpiry, onion) =>
      if OnUpdateAdd(c, m).Done? {
        g' := RecvAddStep(c, g, m);
        ReceivedAdd(c, g, Data(amount, cltvExpiry, paymentHash, onion));
      }
    case UpdateRemoveHtlc(id, res) =>
      if OnUpdateRemove(c, m).Done? {
        g' := RecvRemoveStep(c, g, m);
        Received(c.params, g, g', Remove(id, DataOf(c.htlcs[Find(c.htlcs, true, id).value]), res));
      }
    case UpdateFee(feerate) =>
      if OnUpdateFee(c, m).Done? {
        g' := FeeStep(c, g, false, feerate);
        Received(c.params, g, g', Fee(feerate));
      }
  }

  lemma EventBounded(c: Chan, g: History, e: Event) returns (g': History)
    requires Inv(c, g) && Bounded(c.params, g)
    ensures var d := React(c, e).chan;
            Inv(d, g') && d.params == c.params && Bounded(c.params, g') && SameStart(g, g') && d.role == c.role
  {
    hide Inv, Bounded, SendAdd, SendRemove, SendCommitmentSigned, OnCommitmentSigned, OnRevokeAndAck;
    hide OnUpdateAdd, OnUpdateRemove, OnUpdateFee;
    g' := g;
    match e
    case LocalAdd(amount, paymentHash, cltvExpiry, onion, source) =>
      if SendAdd(c, amount, paymentHash, cltvExpiry, onion, source).Done? {
        g' := AddBounded(c, g, amount, paymentHash, cltvExpiry, onion, source);
      }
    case LocalRemove(id, res) => if SendRemove(c, id, res).Done? { g' := RemoveBounded(c, g, id, res); }
    case LocalFee(feerate) =>
      if SendUpdateFee(c, feerate).Done? {
        g' := FeeStep(c, g, true, feerate);
        Sent(c.params, g, g', Fee(feerate));
      }
    case LocalSign =>
      if SendCommitmentSigned(c).Done? {
        SignBounded(c, g);
        g' := AfterSign(g);
      }
    case Receive(m) =>
      if m.CommitmentSigned? {
        if OnCommitmentSigned(c, m).Done? { g' := LockBounded(c, g, m); }
      } else if m.RevokeAndAck? {
        if OnRevokeAndAck(c, m).Done? { g' := RevocationBounded(c, g, m); }
      } else {
        g' := UpdateBounded(c, g, m);
      }
  }

  lemma {:induction false} RunBounded(c0: Chan, events: seq<Event>) returns (g: History)
    requires Fresh(c0)
    ensures var c := Run(c0, events);
            Inv(c, g) && c.params == c0.params && c.role == c0.role && Bounded(c.params, g) && g.initial == c0.base
            && g.initialFeerate == c0.feerateHolder
    decreases |events|
  {
    if events == [] {
      FreshInv(c0);
      g := FreshHistory(c0);
    } else {
      hide Fresh, React, Inv, Bounded;
      var n := |events| - 1;
      g := RunBounded(c0, events[..n]);
      g := EventBounded(Run(c0, events[..n]), g, events[n]);
    }
  }

  // ------------------------------------------------------------- over every run

  /** The live HTLCs of one direction. */
  function LiveOf(htlcs: seq<Htlc>, outbound: bool): set<nat> {
    set i: nat | i < |htlcs| && htlcs[i].outbound == outbound && htlcs[i].resolution.None?
  }

  lemma LiveOfSnoc(htlcs: seq<Htlc>, x: Htlc, outbound: bool)
    ensures LiveOf(htlcs + [x], outbound) ==
            LiveOf(htlcs, outbound) + if x.outbound == outbound && x.resolution.None? then {|htlcs|} else {}
    ensures |htlcs| !in LiveOf(htlcs, outbound)
  {
  }

  lemma {:induction false} LiveCountIs(htlcs: seq<Htlc>, outbound: bool)
    ensures LiveCount(htlcs, outbound) == |LiveOf(htlcs, outbound)|
    decreases |htlcs|
  {
    if htlcs == [] {
      assert LiveOf(htlcs, outbound) == {};
    } else {
      hide LiveOf;
      var n := |htlcs| - 1;
      LiveCountIs(htlcs[..n], outbound);
      LiveOfSnoc(htlcs[..n], htlcs[n], outbound);
      assert htlcs == htlcs[..n] + [htlcs[n]];
    }
  }

  lemma {:induction false} IncludedCountIs(htlcs: seq<Htlc>, holderSide: bool)
    ensures IncludedCount(htlcs, holderSide) == |OutputsOf(htlcs, holderSide)|
    decreases |htlcs|
  {
    if htlcs != [] { IncludedCountIs(htlcs[..|htlcs| - 1], holderSide); }
  }

  lemma {:induction false} LastFeeIs(p: Params, log: seq<Update>, n: nat, initial: nat, own: bool)
    requires n <= |log| && forall i | 0 <= i < |log| :: AcceptableUpdate(p, own, log[i])
    ensures var f := LastFee(log, n, initial);
            f == initial || (FEERATE_FLOOR <= f && (own || f <= FEERATE_CEILING))
    decreases n
  {
    if n > 0 {
      LastFeeIs(p, log, n - 1, initial, own);
      assert AcceptableUpdate(p, own, log[n - 1]);
    }
  }

  /** A fee rate other than the first is at least the floor and, when the peer sets it, at
      most the ceiling. */
  predicate FeerateInRange(c: Chan, first: nat, feerate: nat) {
    feerate == first || (FEERATE_FLOOR <= feerate && (c.role.Accepter? ==> feerate <= FEERATE_CEILING))
  }

  /** The live HTLCs of either direction are within their receiver's limits in number and in
      total value, and every listed HTLC has an amount and an expiry its receiver accepts. */
  predicate WithinLimits(p: Params, htlcs: seq<Htlc>) {
    && |LiveOf(htlcs, true)| <= p.counterpartyMaxAccepted && LiveAmount(htlcs, true) <= p.counterpartyMaxInFlight
    && |LiveOf(htlcs, false)| <= p.holderMaxAccepted && LiveAmount(htlcs, false) <= p.holderMaxInFlight
    && forall i | 0 <= i < |htlcs| :: Acceptable(p, htlcs[i].outbound, htlcs[i].amount, htlcs[i].cltvExpiry)
  }

  /** In every state reachable against any peer, both parties' limits hold. */
  lemma LimitsHold(c0: Chan, events: seq<Event>)
    requires Fresh(c0)
    ensures var c := Run(c0, events);
            && WithinLimits(c0.params, c.htlcs)
            && FeerateInRange(c0, c0.feerateHolder, c.feerateHolder)
            && FeerateInRange(c0, c0.feerateHolder, c.feerateCounterparty)
  {
    var g := RunBounded(c0, events);
    hide Run, Inv, Bounded, Fresh, WithinLimits;
    LimitsAt(Run(c0, events), g);
  }

  lemma LimitsAt(c: Chan, g: History)
    requires Inv(c, g) && Bounded(c.params, g)
    ensures WithinLimits(c.params, c.htlcs)
    ensures FeerateInRange(c, g.initialFeerate, c.feerateHolder) && FeerateInRange(c, g.initialFeerate, c.feerateCounterparty)
  {
    hide Inv, Recorded, Indexed, Stored, LiveOf, StakesKept, LiveAmount, FeerateInRange, FeesAgree;
    InvParts(c, g);
    ExactLive(c, g, true);
    ExactLive(c, g, false);
    LiveCountIs(c.htlcs, true);
    LiveCountIs(c.htlcs, false);
    ListedAcceptable(c, g);
    FeeratesBounded(c, g);
  }

  lemma ListedAcceptable(c: Chan, g: History)
    requires Recorded(c, g) && Bounded(c.params, g)
    ensures forall i | 0 <= i < |c.htlcs| ::
              Acceptable(c.params, c.htlcs[i].outbound, c.htlcs[i].amount, c.htlcs[i].cltvExpiry)
  {
    hide StakesKept, LiveWithin;
    forall i | 0 <= i < |c.htlcs|
      ensures Acceptable(c.params, c.htlcs[i].outbound, c.htlcs[i].amount, c.htlcs[i].cltvExpiry)
    {
      var x := c.htlcs[i];
      assert RecordAgrees(g, x);
      assert AcceptableUpdate(c.params, x.outbound, if x.outbound then g.sent[IxOf(g, x).add] else g.recv[IxOf(g, x).add]);
    }
  }

  lemma FeeratesBounded(c: Chan, g: History)
    requires Counted(c, g) && FeesAgree(c, g) && Bounded(c.params, g)
    ensures FeerateInRange(c, g.initialFeerate, c.feerateHolder) && FeerateInRange(c, g.initialFeerate, c.feerateCounterparty)
  {
    hide StakesKept, LiveWithin;
    if c.role.Opener? {
      LastFeeIs(c.params, g.sent, g.ownAcked, g.initialFeerate, true);
      LastFeeIs(c.params, g.sent, |g.sent|, g.initialFeerate, true);
    } else {
      LastFeeIs(c.params, g.recv, |g.recv|, g.initialFeerate, false);
      LastFeeIs(c.params, g.recv, g.peerLocked, g.initialFeerate, false);
    }
  }

  /**
   * In every state reachable against any peer, the peer's balance in our next commitment is at
   * least the reserve we demand of it, or what it started with if that was less, and our
   * balance in its next commitment likewise.
   */
  lemma StakesHold(c0: Chan, events: seq<Event>)
    requires Fresh(c0)
    ensures var c := Run(c0, events);
            && BalancesFor(c, true).counterparty >=
               Min(c0.base.counterparty, c0.params.holderSelectedReserveSat * 1000)
            && BalancesFor(c, false).holder >=
               Min(c0.base.holder, c0.params.counterpartySelectedReserveSat * 1000)
  {
    var g := RunBounded(c0, events);
    hide Run, Inv, LiveWithin;
    ExactBalances(Run(c0, events), g, true);
    ExactBalances(Run(c0, events), g, false);
  }

  /** The party that pays the fees can pay those of a commitment with `htlcs` outputs on top
      of its reserve. */
  predicate Covers(balance: int, reserveSat: nat, paysFee: bool, feerate: nat, htlcs: nat) {
    balance >= reserveSat * 1000 + if paysFee then CommitmentFee(feerate, htlcs) * 1000 else 0
  }

  /** What the peer's add is listed as. */
  function Listed(c: Chan, m: Message): Chan
    requires m.UpdateAddHtlc?
  {
    c.(nextCounterpartyId := c.nextCounterpartyId + 1, htlcs := c.htlcs +
       [Htlc(false, m.id, m.amount, m.paymentHash, m.cltvExpiry, m.onion, None, None, Pending, NotYet, false)])
  }

  /** The channel takes adds, this one carries the next id and is acceptable, there is room for
      it among the live HTLCs, and with it in our commitment the peer still has its reserve
      and, if it pays them, the fees of that commitment. */
  predicate AddWelcome(c: Chan, m: Message)
    requires m.UpdateAddHtlc?
  {
    var (d, p) := (Listed(c, m), c.params);
    && c.state.Normal? && !c.shutdownSent && !c.shutdownReceived && m.id == c.nextCounterpartyId
    && Acceptable(p, false, m.amount, m.cltvExpiry)
    && |LiveOf(d.htlcs, false)| <= p.holderMaxAccepted && LiveAmount(d.htlcs, false) <= p.holderMaxInFlight
    && Covers(ExactBalancesOf(d.base, d.htlcs, true).counterparty, p.holderSelectedReserveSat,
              c.role.Accepter?, c.feerateHolder, |OutputsOf(d.htlcs, true)|)
  }

  /** An add is accepted, and listed, exactly when it is welcome; otherwise nothing changes. */
  lemma AddAcceptedExactlyWhen(c0: Chan, events: seq<Event>, m: Message)
    requires Fresh(c0) && m.UpdateAddHtlc?
    ensures var c := Run(c0, events);
            && (OnUpdateAdd(c, m).Done? <==> AddWelcome(c, m))
            && React(c, Receive(m)) == Plain(if AddWelcome(c, m) then Listed(c, m) else c, [])
  {
    var g := RunBounded(c0, events);
    hide Run, Inv, Bounded, Fresh, WithinLimits, AddWelcome, OnUpdateAdd, React, Listed;
    var c := Run(c0, events);
    LimitsAt(c, g);
    SameExactly(c, g);
    AcceptedAt(c, m);
    DeliveredAdd(c, m);
  }

  lemma DeliveredAdd(c: Chan, m: Message)
    requires m.UpdateAddHtlc?
    ensures React(c, Receive(m)) == Plain(if OnUpdateAdd(c, m).Done? then OnUpdateAdd(c, m).chan else c, [])
  {
    hide OnUpdateAdd;
  }

  lemma SameExactly(c: Chan, g: History)
    requires Inv(c, g)
    ensures BalancesFor(c, true).counterparty == ExactBalancesOf(c.base, c.htlcs, true).counterparty
    ensures BalancesFor(c, false).holder == ExactBalancesOf(c.base, c.htlcs, false).holder
  {
    hide Inv;
    NeverSaturates(c, g, true, |c.htlcs|);
    NeverSaturates(c, g, false, |c.htlcs|);
    assert c.htlcs[..|c.htlcs|] == c.htlcs;
  }

  lemma AcceptedAt(c: Chan, m: Message)
    requires m.UpdateAddHtlc? && WithinLimits(c.params, c.htlcs)
    requires BalancesFor(c, true).counterparty == ExactBalancesOf(c.base, c.htlcs, true).counterparty
    ensures OnUpdateAdd(c, m).Done? <==> AddWelcome(c, m)
    ensures OnUpdateAdd(c, m).Done? ==> OnUpdateAdd(c, m).chan == Listed(c, m)
  {
    hide ExactBalancesOf, BalancesFor, OutputsOf, LiveAmount, LiveCount, LiveOf, IncludedCount, CommitmentFee;
    var x := Htlc(false, m.id, m.amount, m.paymentHash, m.cltvExpiry, m.onion, None, None, Pending, NotYet, false);
    IncludedCountIs(c.htlcs, true);
    LiveCountIs(c.htlcs, false);
    LiveCountIs(c.htlcs + [x], false);
    Listing(c.base, c.htlcs, x);
  }

  /** A new HTLC is one more live one and one more output of the receiver's commitment, and
      is taken from its offerer there. */
  lemma Listing(b: Balances, htlcs: seq<Htlc>, x: Htlc)
    requires x.resolution.None? && x.PhaseOn(!x.outbound).Pending?
    ensures LiveCount(htlcs + [x], x.outbound) == LiveCount(htlcs, x.outbound) + 1
    ensures LiveAmount(htlcs + [x], x.outbound) == LiveAmount(htlcs, x.outbound) + x.amount
    ensures |OutputsOf(htlcs + [x], !x.outbound)| == |OutputsOf(htlcs, !x.outbound)| + 1
    ensures var (e, e') := (ExactBalancesOf(b, htlcs, !x.outbound), ExactBalancesOf(b, htlcs + [x], !x.outbound));
            e' == if x.outbound then e.(holder := e.holder - x.amount) else e.(counterparty := e.counterparty - x.amount)
  {
    assert (htlcs + [x])[..|htlcs|] == htlcs;
  }

  /** What an add of ours is listed as. */
  function Offered(c: Chan, amount: nat, paymentHash: Bytes, cltvExpiry: nat, onion: Bytes, source: Source): Chan {
    c.(nextHolderId := c.nextHolderId + 1, dirty := true, htlcs := c.htlcs +
       [Htlc(true, c.nextHolderId, amount, paymentHash, cltvExpiry, onion, Some(source), None, NotYet, Pending, false)])
  }

  /** The peer has room for this add of ours, and with it in the peer's commitment we still have
      our reserve and, if we pay them, the fees of that commitment with one more HTLC. */
  predicate AddPossible(c: Chan, d: Chan, amount: nat, cltvExpiry: nat) {
    var p := c.params;
    && Acceptable(p, true, amount, cltvExpiry)
    && |LiveOf(d.htlcs, true)| <= p.counterpartyMaxAccepted && LiveAmount(d.htlcs, true) <= p.counterpartyMaxInFlight
    && Covers(ExactBalancesOf(d.base, d.htlcs, false).holder, p.counterpartySelectedReserveSat,
              c.role.Opener?, c.feerateCounterparty, |OutputsOf(d.htlcs, false)| + 1)
  }

  /** An add of ours is parked exactly while a commitment is in flight; otherwise it is sent and
      listed exactly when it is possible. */
  lemma AddSentExactlyWhen(
    c0: Chan, events: seq<Event>, amount: nat, paymentHash: Bytes, cltvExpiry: nat, onion: Bytes, source: Source)
    requires Fresh(c0)
    ensures var c := Run(c0, events);
            var d := Offered(c, amount, paymentHash, cltvExpiry, onion, source);
            SendAdd(c, amount, paymentHash, cltvExpiry, onion, source) ==
              if !c.state.Normal? || c.shutdownSent || c.shutdownReceived then Failed(Ignore)
              else if c.awaitingRaa then
                Done(c.(holdingCell := c.holdingCell + [HoldAdd(amount, paymentHash, cltvExpiry, onion, source)]), None)
              else if AddPossible(c, d, amount, cltvExpiry) then
                Done(d, Some(UpdateAddHtlc(c.nextHolderId, amount, paymentHash, cltvExpiry, onion)))
              else Failed(Ignore)
  {
    var g := RunBounded(c0, events);
    hide Run, Inv, Bounded, Fresh, WithinLimits, AddPossible, OutboundAddAllowed;
    var c := Run(c0, events);
    LimitsAt(c, g);
    SameExactly(c, g);
    SentAt(c, amount, paymentHash, cltvExpiry, onion, source);
  }

  lemma SentAt(c: Chan, amount: nat, paymentHash: Bytes, cltvExpiry: nat, onion: Bytes, source: Source)
    requires WithinLimits(c.params, c.htlcs)
    requires BalancesFor(c, false).holder == ExactBalancesOf(c.base, c.htlcs, false).holder
    ensures OutboundAddAllowed(c, amount, cltvExpiry) <==>
            AddPossible(c, Offered(c, amount, paymentHash, cltvExpiry, onion, source), amount, cltvExpiry)
  {
    hide ExactBalancesOf, BalancesFor, OutputsOf, LiveAmount, LiveCount, LiveOf, IncludedCount, CommitmentFee;
    var x := Htlc(true, c.nextHolderId, amount, paymentHash, cltvExpiry, onion, Some(source), None, NotYet, Pending, false);
    IncludedCountIs(c.htlcs, false);
    LiveCountIs(c.htlcs, true);
    LiveCountIs(c.htlcs + [x], true);
    Listing(c.base, c.htlcs, x);
  }
}
