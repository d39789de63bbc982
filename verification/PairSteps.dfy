/** Every action of either party keeps the pair invariant. */
module PairSteps {
  import opened Wrappers
  import opened Channel
  import opened Ledger
  import opened LedgerFacts
  import opened LedgerUpdates
  import opened LedgerCommits
  import opened ChannelRuns
  import opened Pair
  import opened PairDelivery
  import Shachain

  // ----------------------------------------------------------- honest senders

  /** What an update leaves alone in the sender's state. */
  ghost predicate SameWire(x: Chan, x': Chan) {
    && x'.crypto == x.crypto && x'.seed == x.seed && x'.role == x.role && x'.params == x.params
    && x'.state == x.state && x'.shutdownSent == x.shutdownSent && x'.shutdownReceived == x.shutdownReceived
    && x'.holderNumber == x.holderNumber && x'.counterpartyNumber == x.counterpartyNumber
    && x'.currentPoint == x.currentPoint && x'.nextPoint == x.nextPoint && x'.secrets == x.secrets
    && x'.pending == x.pending && x'.awaitingRaa == x.awaitingRaa
  }

  /** The sent log has grown by at most `k` updates and nothing has been signed. */
  ghost predicate Logged(g: History, g': History, k: nat) {
    g.sent <= g'.sent && |g'.sent| <= |g.sent| + k && g'.ownSigned == g.ownSigned && g'.peerSigned == g.peerSigned
  }

  /** How much of both logs the commitments signed for the peer cover. */
  function SignedSum(g: History): nat {
    g.ownSigned + g.peerSigned
  }

  lemma SentAllowedExtends(x: Chan, g: History, x': Chan, g': History, i: nat)
    requires SentAllowed(x, g, i) && Extends(g, g') && g.sentLevel <= g'.sentLevel && g.sentSeen <= g'.sentSeen
    requires x'.params == x.params && x'.role == x.role && x'.crypto == x.crypto
    ensures SentAllowed(x', g', i)
  {
    if g.sent[i].Add? {
      ReadingExtends(LiveCountMeter(true), g, g', i, g.sentSeen[i]);
      ReadingExtends(LiveAmountMeter(true), g, g', i, g.sentSeen[i]);
      ReadingExtends(CountMeter(), g, g', i, g.sentLevel[i]);
      OwnBalanceExtends(g, g', i, g.sentLevel[i]);
      FeeExtends(x.role, g, g', i, g.sentLevel[i]);
    }
  }

  lemma HonestAfterSend(x: Chan, g: History, x': Chan, g': History, u: Update)
    requires HonestSender(x, g) && SameWire(x, x') && Counted(x, g)
    requires g'.sent == g.sent + [u] && g'.recv == g.recv && Extends(g, g')
    requires g'.sentLevel == g.sentLevel + [g.peerLocked] && g'.sentSeen == g.sentSeen + [|g.recv|]
    requires SentAllowed(x', g', |g.sent|)
    requires u.Add? ==> Reading(LiveCountMeter(true), g, |g.sent|, |g.recv|) < x.params.counterpartyMaxAccepted
    requires Ordered(g'.outIx)
    ensures HonestSender(x', g')
  {
    forall i | 0 <= i < |g'.sent| ensures SentAllowed(x', g', i) {
      if i < |g.sent| {
        assert SentAllowed(x, g, i);
        SentAllowedExtends(x, g, x', g', i);
      }
    }
    ReadingAfterSend(LiveCountMeter(true), g, g', u, |g'.sent|, |g.recv|);
  }

  /** Receiving anything keeps the sender honest. */
  lemma HonestAfterRecv(x: Chan, g: History, x': Chan, g': History)
    requires HonestSender(x, g) && Counted(x, g) && PendingMeta(x')
    requires x'.params == x.params && x'.role == x.role && x'.crypto == x.crypto
    requires g'.sent == g.sent && g'.sentLevel == g.sentLevel && g'.sentSeen == g.sentSeen && Extends(g, g')
    requires |g'.recv| <= |g.recv| + 1
    requires |g'.outIx| == |g.outIx| && forall i | 0 <= i < |g.outIx| :: g'.outIx[i].add == g.outIx[i].add
    ensures HonestSender(x', g')
  {
    forall i | 0 <= i < |g'.sent| ensures SentAllowed(x', g', i) {
      assert SentAllowed(x, g, i);
      SentAllowedExtends(x, g, x', g', i);
    }
    ReadingExtends(LiveCountMeter(true), g, g', |g.sent|, |g.recv|);
    LiveFallsWithRemovals(LiveCountMeter(true), g'.recv, |g.recv|, |g'.recv|);
  }

  lemma InvFees(x: Chan, g: History)
    requires Inv(x, g)
    ensures x.feerateCounterparty == FeeAt(x.role, g, |g.sent|, g.peerLocked)
  {
  }

  /** The sender's checks, restated as readings of its logs. */
  lemma AddReadings(x: Chan, g: History, amount: nat, cltvExpiry: nat)
    requires Inv(x, g) && OutboundAddAllowed(x, amount, cltvExpiry)
    requires Reading(LiveCountMeter(true), g, |g.sent|, |g.recv|) <= x.params.counterpartyMaxAccepted
    ensures Reading(LiveCountMeter(true), g, |g.sent|, |g.recv|) < x.params.counterpartyMaxAccepted
    ensures Reading(LiveAmountMeter(true), g, |g.sent|, |g.recv|) + amount <= x.params.counterpartyMaxInFlight
    ensures Reading(CountMeter(), g, |g.sent|, g.peerLocked) >= 0
    ensures Affordable(OwnBalance(g, |g.sent|, g.peerLocked), amount, x.params.counterpartySelectedReserveSat,
                       x.role.Opener?, FeeAt(x.role, g, |g.sent|, g.peerLocked),
                       Reading(CountMeter(), g, |g.sent|, g.peerLocked) + 2)
  {
    hide Inv, Affordable, Reading, BalancesFor, LiveCount, LiveAmount, IncludedCount, FeeAt, OwnBalance;
    InvCounts(x, g);
    InvFees(x, g);
    ExactLive(x, g, true);
    ExactBalances(x, g, false);
    ExactCount(x, g, false);
    NoWrap(LiveCount(x.htlcs, true), x.params.counterpartyMaxAccepted);
  }

  lemma AddIsAllowed(x: Chan, g: History, d: Data)
    requires Inv(x, g) && OutboundAddAllowed(x, d.amount, d.cltvExpiry)
    requires Reading(LiveCountMeter(true), g, |g.sent|, |g.recv|) <= x.params.counterpartyMaxAccepted
    ensures Reading(LiveCountMeter(true), g, |g.sent|, |g.recv|) < x.params.counterpartyMaxAccepted
    ensures SentAllowed(x, AfterSendAdd(g, d), |g.sent|)
  {
    AddReadings(x, g, d.amount, d.cltvExpiry);
    AddEntryAllowed(x, g, AfterSendAdd(g, d), d);
  }

  lemma AddEntryAllowed(x: Chan, g: History, g': History, d: Data)
    requires g' == AfterSendAdd(g, d) && g.peerLocked <= |g.recv|
    requires |g.sentLevel| == |g.sentSeen| == |g.sent|
    requires d.amount != 0 && d.amount >= x.params.counterpartyHtlcMinimum && d.cltvExpiry < CLTV_LIMIT
    requires Reading(LiveCountMeter(true), g, |g.sent|, |g.recv|) < x.params.counterpartyMaxAccepted
    requires Reading(LiveAmountMeter(true), g, |g.sent|, |g.recv|) + d.amount <= x.params.counterpartyMaxInFlight
    requires Reading(CountMeter(), g, |g.sent|, g.peerLocked) >= 0
    requires Affordable(OwnBalance(g, |g.sent|, g.peerLocked), d.amount, x.params.counterpartySelectedReserveSat,
                        x.role.Opener?, FeeAt(x.role, g, |g.sent|, g.peerLocked),
                        Reading(CountMeter(), g, |g.sent|, g.peerLocked) + 2)
    ensures SentAllowed(x, g', |g.sent|)
  {
    assert Extends(g, g');
    ReadingExtends(LiveCountMeter(true), g, g', |g.sent|, |g.recv|);
    ReadingExtends(LiveAmountMeter(true), g, g', |g.sent|, |g.recv|);
    ReadingExtends(CountMeter(), g, g', |g.sent|, g.peerLocked);
    OwnBalanceExtends(g, g', |g.sent|, g.peerLocked);
    FeeExtends(x.role, g, g', |g.sent|, g.peerLocked);
  }

  lemma NoWrap(n: nat, limit: U16)
    requires n <= limit && n % 0x1_0000 < limit
    ensures n < limit
  {
  }

  lemma OrderedAppend(x: Chan, g: History, d: Data)
    requires Indexed(g) && Ordered(g.outIx)
    ensures Ordered(AfterSendAdd(g, d).outIx)
  {
    forall i | 0 <= i < |g.outIx| ensures g.outIx[i].add < |g.sent| {
      assert AddAgrees(g.outIx[i], i, g.sent);
    }
  }

  // --------------------------------------------------------- traffic, one update

  /** `x` appends an update: to its log and to its queue. */
  lemma FlowAfterSend(x: Chan, gx: History, x': Chan, gx': History, y: Chan, gy: History,
                      xy: seq<Message>, yx: seq<Message>, u: Update, m: Message)
    requires Counted(x, gx) && !x.awaitingRaa && SameWire(x, x')
    requires Flow(x, gx, y, gy, xy, yx) && Flow(y, gy, x, gx, yx, xy)
    requires Grows(gx, gx') && gx'.sent == gx.sent + [u] && gx'.recv == gx.recv
    requires gx'.sentLevel == gx.sentLevel + [gx.peerLocked]
    requires gx'.ownSigned == gx.ownSigned && gx'.peerSigned == gx.peerSigned
    requires IsUpdate(m) && Fits(m, u)
    ensures Flow(x', gx', y, gy, xy + [m], yx) && Flow(y, gy, x', gx', yx, xy + [m])
  {
    HasAppend(xy, m);
    PushUpdate(xy, m, u, x, gx, x', gx', |gy.recv|, gy.ownAcked, gy.ownSigned);
  }

  /** `x` takes an update off its inbox: the sender `y`'s queue shrinks. */
  lemma FlowAfterRecv(x: Chan, gx: History, x': Chan, gx': History, y: Chan, gy: History,
                      xy: seq<Message>, yx: seq<Message>)
    requires Counted(x, gx) && SameWire(x, x')
    requires Flow(x, gx, y, gy, xy, yx) && Flow(y, gy, x, gx, yx, xy)
    requires yx != [] && IsUpdate(yx[0])
    requires Grows(gx, gx') && gx'.sent == gx.sent && gx'.sentLevel == gx.sentLevel
    requires |gy.sent| > |gx.recv| && gx'.recv == gx.recv + [gy.sent[|gx.recv|]]
    requires gx'.ownSigned == gx.ownSigned && gx'.peerSigned == gx.peerSigned
    ensures Flow(x', gx', y, gy, xy, yx[1..]) && Flow(y, gy, x', gx', yx[1..], xy)
  {
    assert HasCs(yx[1..]) == HasCs(yx) && HasRaa(yx[1..]) == HasRaa(yx);
    QueueStable(xy, x, gx, x', gx', |gy.recv|, gy.ownAcked, gy.ownSigned, gy.ownSigned);
  }

  // ------------------------------------------------------------------- actions

  lemma PartnersSameWire(x: Chan, x': Chan, y: Chan)
    requires SameWire(x, x') && Partners(x, y) && Keys(x, y) && Keys(y, x)
    ensures Partners(x', y) && Keys(x', y) && Keys(y, x')
  {
  }

  /** One update sent: what its kind must supply, and what follows for the pair. */
  lemma PairAfterSend(x: Chan, gx: History, x': Chan, gx': History, y: Chan, gy: History,
                      xy: seq<Message>, yx: seq<Message>, u: Update, m: Message)
    requires PairInv(x, gx, y, gy, xy, yx) && !x.awaitingRaa && SameWire(x, x')
    requires Inv(x', gx') && HonestSender(x', gx')
    requires Grows(gx, gx') && gx'.sent == gx.sent + [u] && gx'.recv == gx.recv
    requires gx'.sentLevel == gx.sentLevel + [gx.peerLocked]
    requires gx'.ownSigned == gx.ownSigned && gx'.peerSigned == gx.peerSigned
    requires IsUpdate(m) && Fits(m, u)
    ensures PairInv(x', gx', y, gy, xy + [m], yx)
  {
    FlowAfterSend(x, gx, x', gx', y, gy, xy, yx, u, m);
    PartnersSameWire(x, x', y);
  }

  lemma HonestAfterAdd(x: Chan, g: History, x': Chan, d: Data)
    requires Inv(x, g) && HonestSender(x, g) && OutboundAddAllowed(x, d.amount, d.cltvExpiry) && SameWire(x, x')
    ensures HonestSender(x', AfterSendAdd(g, d))
  {
    AddIsAllowed(x, g, d);
    assert SentAllowed(x', AfterSendAdd(g, d), |g.sent|);
    OrderedAppend(x, g, d);
    HonestAfterSend(x, g, x', AfterSendAdd(g, d), Add(|g.outIx|, d));
  }

  lemma XSendsAdd(x: Chan, gx: History, y: Chan, gy: History, xy: seq<Message>, yx: seq<Message>,
                  amount: nat, paymentHash: Bytes, cltvExpiry: nat, onion: Bytes, source: Source)
    returns (gx': History)
    requires PairInv(x, gx, y, gy, xy, yx)
    requires SendAdd(x, amount, paymentHash, cltvExpiry, onion, source).Done?
    ensures var o := SendAdd(x, amount, paymentHash, cltvExpiry, onion, source);
            && PairInv(o.chan, gx', y, gy, xy + Optional(o.value), yx) && o.chan.awaitingRaa == x.awaitingRaa
            && Logged(gx, gx', 1) && |gx'.sent| + |o.chan.holdingCell| == |gx.sent| + |x.holdingCell| + 1
  {
    hide Inv, Flow, HonestSender, Partners, Keys;
    InvCounts(x, gx);
    var o := SendAdd(x, amount, paymentHash, cltvExpiry, onion, source);
    gx' := SendAddStep(x, gx, amount, paymentHash, cltvExpiry, onion, source);
    if x.awaitingRaa {
      Parked(x, gx, o.chan, y, gy, xy, yx);
      assert xy + Optional(o.value) == xy;
    } else {
      HonestAfterAdd(x, gx, o.chan, Data(amount, cltvExpiry, paymentHash, onion));
      PairAfterSend(x, gx, o.chan, gx', y, gy, xy, yx, Add(|gx.outIx|, Data(amount, cltvExpiry, paymentHash, onion)),
                    o.value.value);
    }
  }

  /** Parking an operation changes nothing the invariant sees. */
  lemma Parked(x: Chan, gx: History, x': Chan, y: Chan, gy: History, xy: seq<Message>, yx: seq<Message>)
    requires PairInv(x, gx, y, gy, xy, yx) && x' == x.(holdingCell := x'.holdingCell)
    ensures PairInv(x', gx, y, gy, xy, yx)
  {
    hide Inv, Partners, Keys;
    SameList(x, gx, x');
    forall i | 0 <= i < |gx.sent| ensures SentAllowed(x', gx, i) {
      assert SentAllowed(x, gx, i);
    }
    QueueStable(xy, x, gx, x', gx, |gy.recv|, gy.ownAcked, gy.ownSigned, gy.ownSigned);
    PartnersSameWire(x, x', y);
  }

  lemma RemoveIsAllowed(x: Chan, g: History, id: nat, d: Data, res: Resolution)
    requires Counted(x, g) && id < |g.inIx| && PreimageMatches(x, res, d.paymentHash)
    ensures SentAllowed(x, AfterSendRemove(g, id, d, res), |g.sent|)
  {
  }

  lemma HonestAfterRemove(x: Chan, g: History, x': Chan, id: nat, d: Data, res: Resolution)
    requires Counted(x, g) && HonestSender(x, g) && SameWire(x, x')
    requires id < |g.inIx| && PreimageMatches(x, res, d.paymentHash)
    ensures HonestSender(x', AfterSendRemove(g, id, d, res))
  {
    RemoveIsAllowed(x, g, id, d, res);
    assert SentAllowed(x', AfterSendRemove(g, id, d, res), |g.sent|);
    HonestAfterSend(x, g, x', AfterSendRemove(g, id, d, res), Remove(id, d, res));
  }

  lemma XSendsRemove(x: Chan, gx: History, y: Chan, gy: History, xy: seq<Message>, yx: seq<Message>,
                     id: nat, res: Resolution)
    returns (gx': History)
    requires PairInv(x, gx, y, gy, xy, yx) && SendRemove(x, id, res).Done?
    ensures var o := SendRemove(x, id, res);
            && PairInv(o.chan, gx', y, gy, xy + Optional(o.value), yx) && o.chan.awaitingRaa == x.awaitingRaa
            && Logged(gx, gx', 1) && |gx'.sent| + |o.chan.holdingCell| == |gx.sent| + |x.holdingCell| + 1
  {
    hide Inv, Flow, HonestSender, Partners, Keys;
    InvCounts(x, gx);
    var o := SendRemove(x, id, res);
    gx' := SendRemoveStep(x, gx, id, res);
    if x.awaitingRaa {
      Parked(x, gx, o.chan, y, gy, xy, yx);
      assert xy + Optional(o.value) == xy;
    } else {
      var d := DataOf(x.htlcs[Find(x.htlcs, false, id).value]);
      HonestAfterRemove(x, gx, o.chan, id, d, res);
      PairAfterSend(x, gx, o.chan, gx', y, gy, xy, yx, Remove(id, d, res), o.value.value);
    }
  }

  lemma XSendsFee(x: Chan, gx: History, y: Chan, gy: History, xy: seq<Message>, yx: seq<Message>, feerate: nat)
    returns (gx': History)
    requires PairInv(x, gx, y, gy, xy, yx) && SendUpdateFee(x, feerate).Done?
    ensures PairInv(SendUpdateFee(x, feerate).chan, gx', y, gy, xy + [SendUpdateFee(x, feerate).value], yx)
    ensures Logged(gx, gx', 1)
  {
    hide Inv, Flow, HonestSender, Partners, Keys;
    InvCounts(x, gx);
    var o := SendUpdateFee(x, feerate);
    gx' := FeeStep(x, gx, true, feerate);
    HonestAfterFee(x, gx, o.chan, feerate);
    PairAfterSend(x, gx, o.chan, gx', y, gy, xy, yx, Fee(feerate), o.value);
  }

  lemma HonestAfterFee(x: Chan, g: History, x': Chan, feerate: nat)
    requires Counted(x, g) && HonestSender(x, g) && SameWire(x, x') && feerate >= FEERATE_FLOOR
    ensures HonestSender(x', NewOut(g, Fee(feerate)))
  {
    var g' := NewOut(g, Fee(feerate));
    assert SentAllowed(x', g', |g.sent|);
    HonestAfterSend(x, g, x', g', Fee(feerate));
  }

  // ------------------------------------------------------------------- signing

  lemma FlowAfterSign(x: Chan, gx: History, x': Chan, y: Chan, gy: History,
                      xy: seq<Message>, yx: seq<Message>, m: Message)
    requires Counted(x, gx) && !x.awaitingRaa
    requires Flow(x, gx, y, gy, xy, yx) && Flow(y, gy, x, gx, yx, xy)
    requires x'.crypto == x.crypto && x'.seed == x.seed && x'.holderNumber == x.holderNumber
    requires x'.counterpartyNumber == x.counterpartyNumber && x'.awaitingRaa
    requires x'.pending.Some? && m == CommitmentSigned(x'.pending.value.info)
    ensures Flow(x', AfterSign(gx), y, gy, xy + [m], yx) && Flow(y, gy, x', AfterSign(gx), yx, xy + [m])
  {
    var gx' := AfterSign(gx);
    HasAppend(xy, m);
    PushSigned(xy, m, x, gx, x', gx', |gy.recv|, gy.ownAcked, gy.ownSigned);
    QueueStable(yx, y, gy, y, gy, |gx.recv|, gx.ownAcked, gx.ownSigned, gx'.ownSigned);
  }

  lemma HonestAfterSign(x: Chan, g: History, x': Chan)
    requires Counted(x, g) && HonestSender(x, g) && SendCommitmentSigned(x).Done? && x' == SendCommitmentSigned(x).chan
    ensures HonestSender(x', AfterSign(g))
  {
    HonestAfterRecv(x, g, x', AfterSign(g));
  }

  lemma XSigns(x: Chan, gx: History, y: Chan, gy: History, xy: seq<Message>, yx: seq<Message>)
    returns (gx': History)
    requires PairInv(x, gx, y, gy, xy, yx) && SendCommitmentSigned(x).Done?
    ensures PairInv(SendCommitmentSigned(x).chan, gx', y, gy, xy + [SendCommitmentSigned(x).value], yx)
    ensures gx'.sent == gx.sent && SignedSum(gx') > SignedSum(gx)
  {
    hide Inv, Flow, HonestSender;
    InvCounts(x, gx);
    var o := SendCommitmentSigned(x);
    gx' := AfterSign(gx);
    SignKeeps(x, gx);
    HonestAfterSign(x, gx, o.chan);
    FlowAfterSign(x, gx, o.chan, y, gy, xy, yx, o.value);
  }

  // ------------------------------------------------------- receiving an update

  /** One update received: what its kind must supply, and what follows. */
  lemma PairAfterRecv(x: Chan, gx: History, x': Chan, gx': History, y: Chan, gy: History,
                      xy: seq<Message>, yx: seq<Message>)
    requires PairInv(x, gx, y, gy, xy, yx) && SameWire(x, x') && yx != [] && IsUpdate(yx[0])
    requires Inv(x', gx')
    requires Grows(gx, gx') && gx'.sent == gx.sent && gx'.sentLevel == gx.sentLevel && gx'.sentSeen == gx.sentSeen
    requires |gx'.outIx| == |gx.outIx|
    requires |gy.sent| > |gx.recv| && gx'.recv == gx.recv + [gy.sent[|gx.recv|]]
    requires gx'.ownSigned == gx.ownSigned && gx'.peerSigned == gx.peerSigned
    ensures PairInv(x', gx', y, gy, xy, yx[1..])
  {
    hide Inv, Partners, Keys, Flow;
    InvCounts(x, gx);
    FlowAfterRecv(x, gx, x', gx', y, gy, xy, yx);
    HonestAfterRecv(x, gx, x', gx');
    PartnersSameWire(x, x', y);
  }

  /** The head of `y`'s queue is the next update of `y`'s log. */
  lemma HeadUpdate(x: Chan, gx: History, y: Chan, gy: History, xy: seq<Message>, yx: seq<Message>)
    requires Flow(y, gy, x, gx, yx, xy) && yx != [] && IsUpdate(yx[0])
    ensures |gx.recv| < |gy.sent| && Fits(yx[0], gy.sent[|gx.recv|])
  {
  }

  lemma XReceivesAdd(x: Chan, gx: History, y: Chan, gy: History, xy: seq<Message>, yx: seq<Message>)
    returns (gx': History)
    requires PairInv(x, gx, y, gy, xy, yx) && yx != [] && yx[0].UpdateAddHtlc? && OnUpdateAdd(x, yx[0]).Done?
    ensures PairInv(OnUpdateAdd(x, yx[0]).chan, gx', y, gy, xy, yx[1..]) && Logged(gx, gx', 0)
  {
    hide Inv, Flow, HonestSender, Partners, Keys, InboundAddAllowed;
    InvCounts(x, gx);
    gx' := RecvAddStep(x, gx, yx[0]);
    HeadUpdate(x, gx, y, gy, xy, yx);
    PairAfterRecv(x, gx, OnUpdateAdd(x, yx[0]).chan, gx', y, gy, xy, yx);
  }

  lemma XReceivesRemove(x: Chan, gx: History, y: Chan, gy: History, xy: seq<Message>, yx: seq<Message>)
    returns (gx': History)
    requires PairInv(x, gx, y, gy, xy, yx) && yx != [] && yx[0].UpdateRemoveHtlc? && OnUpdateRemove(x, yx[0]).Done?
    ensures PairInv(OnUpdateRemove(x, yx[0]).chan, gx', y, gy, xy, yx[1..]) && Logged(gx, gx', 0)
  {
    hide Inv, Flow, HonestSender, Partners, Keys;
    gx' := RecvRemoveStep(x, gx, yx[0]);
    HeadUpdate(x, gx, y, gy, xy, yx);
    RemovalData(x, gx, y, gy, xy, yx);
    PairAfterRecv(x, gx, OnUpdateRemove(x, yx[0]).chan, gx', y, gy, xy, yx);
  }

  /** The receiver logs the removal with the data the remover logged. */
  lemma RemovalData(x: Chan, gx: History, y: Chan, gy: History, xy: seq<Message>, yx: seq<Message>)
    requires PairInv(x, gx, y, gy, xy, yx) && yx != [] && yx[0].UpdateRemoveHtlc?
    requires Find(x.htlcs, true, yx[0].id).Some? && |gx.recv| < |gy.sent|
    ensures gy.sent[|gx.recv|] ==
            Remove(yx[0].id, DataOf(x.htlcs[Find(x.htlcs, true, yx[0].id).value]), yx[0].resolution)
  {
    hide Inv, Stored, FeesAgree, Recorded, Indexed;
    InvParts(x, gx);
    InvParts(y, gy);
    var i := RemovalTarget(y, gy, x, gx, |gx.recv|);
  }

  lemma XReceivesFee(x: Chan, gx: History, y: Chan, gy: History, xy: seq<Message>, yx: seq<Message>)
    returns (gx': History)
    requires PairInv(x, gx, y, gy, xy, yx) && yx != [] && yx[0].UpdateFee? && OnUpdateFee(x, yx[0]).Done?
    ensures PairInv(OnUpdateFee(x, yx[0]).chan, gx', y, gy, xy, yx[1..]) && Logged(gx, gx', 0)
  {
    hide Inv, Flow, HonestSender, Partners, Keys;
    gx' := FeeStep(x, gx, false, yx[0].feerate);
    HeadUpdate(x, gx, y, gy, xy, yx);
    PairAfterRecv(x, gx, OnUpdateFee(x, yx[0]).chan, gx', y, gy, xy, yx);
  }

  // ---------------------------------------------- receiving a commitment_signed

  lemma FlowAfterLock(x: Chan, gx: History, x': Chan, gx': History, y: Chan, gy: History,
                      xy: seq<Message>, yx: seq<Message>, raa: Message)
    requires Counted(x, gx) && Flow(x, gx, y, gy, xy, yx) && Flow(y, gy, x, gx, yx, xy)
    requires yx != [] && yx[0].CommitmentSigned?
    requires SameLogs(gx, gx') && gx'.ownLocked == gx.ownAcked && gx'.peerLocked == |gx.recv|
    requires gx'.ownAcked == gx.ownAcked && gx'.ownSigned == gx.ownSigned
    requires gx'.peerFinal == gx.peerFinal && gx'.peerSigned == gx.peerSigned
    requires x'.crypto == x.crypto && x'.seed == x.seed && x'.holderNumber == x.holderNumber + 1
    requires x'.counterpartyNumber == x.counterpartyNumber && x'.awaitingRaa == x.awaitingRaa && x'.pending == x.pending
    requires raa.RevokeAndAck? && IsRevocation(raa, x.crypto, x.seed, x'.holderNumber)
    ensures Flow(x', gx', y, gy, xy + [raa], yx[1..]) && Flow(y, gy, x', gx', yx[1..], xy + [raa])
  {
    HasAppend(xy, raa);
    PushRevocation(xy, raa, x, gx, x', gx', |gy.recv|, gy.ownAcked, gy.ownSigned, gy.ownSigned);
    assert HasRaa(yx[1..]) == HasRaa(yx);
  }

  lemma HonestAfterLock(x: Chan, g: History, x': Chan, g': History)
    requires Counted(x, g) && HonestSender(x, g) && SameLogs(g, g') && x'.params == x.params && x'.role == x.role
    requires x'.crypto == x.crypto && PendingMeta(x')
    ensures HonestSender(x', g')
  {
    HonestAfterRecv(x, g, x', g');
  }

  /** What locking in a commitment leaves alone. */
  ghost predicate LockedFrom(x: Chan, x': Chan) {
    SameWire(x, x'.(holderNumber := x.holderNumber)) && x'.holderNumber == x.holderNumber + 1
  }

  lemma LockWire(x: Chan, m: Message)
    requires m.CommitmentSigned? && OnCommitmentSigned(x, m).Done?
    ensures LockedFrom(x, OnCommitmentSigned(x, m).chan)
    ensures var raa := OnCommitmentSigned(x, m).value;
            raa.RevokeAndAck? && IsRevocation(raa, x.crypto, x.seed, x.holderNumber + 1)
  {
    hide LockAll, Kept, BakedBalances, AnyAcknowledged, HolderCommitmentAt;
  }

  lemma XReceivesSigned(x: Chan, gx: History, y: Chan, gy: History, xy: seq<Message>, yx: seq<Message>)
    returns (gx': History)
    requires PairInv(x, gx, y, gy, xy, yx) && yx != [] && yx[0].CommitmentSigned? && OnCommitmentSigned(x, yx[0]).Done?
    ensures PairInv(OnCommitmentSigned(x, yx[0]).chan, gx', y, gy, xy + [OnCommitmentSigned(x, yx[0]).value], yx[1..])
    ensures Logged(gx, gx', 0)
  {
    hide Inv, Flow, HonestSender, OnCommitmentSigned;
    InvCounts(x, gx);
    LockWire(x, yx[0]);
    var x' := OnCommitmentSigned(x, yx[0]).chan;
    gx' := LockStep(x, gx, yx[0]);
    HonestAfterLock(x, gx, x', gx') by { HonestPending(x, gx); }
    FlowAfterLock(x, gx, x', gx', y, gy, xy, yx, OnCommitmentSigned(x, yx[0]).value);
    KeysAfterLock(x, gx, x', y, gy, xy, yx);
  }

  lemma HonestPending(x: Chan, g: History)
    requires HonestSender(x, g)
    ensures PendingMeta(x)
  {
  }

  lemma KeysAfterLock(x: Chan, gx: History, x': Chan, y: Chan, gy: History, xy: seq<Message>, yx: seq<Message>)
    requires Partners(x, y) && Keys(x, y) && Keys(y, x) && LockedFrom(x, x')
    requires x'.holderNumber + 1 <= Shachain.MAX_INDEX
    ensures Partners(x', y) && Keys(x', y) && Keys(y, x')
  {
    hide Shachain.Represents;
  }

  // --------------------------------------------------- receiving a revoke_and_ack

  lemma FlowAfterRevoke(x: Chan, gx: History, x': Chan, gx': History, y: Chan, gy: History,
                        xy: seq<Message>, yx: seq<Message>)
    requires Counted(x, gx) && Flow(x, gx, y, gy, xy, yx) && Flow(y, gy, x, gx, yx, xy)
    requires yx != [] && yx[0].RevokeAndAck?
    requires SameLogs(gx, gx') && gx'.ownLocked == gx.ownLocked && gx'.peerLocked == gx.peerLocked
    requires gx'.ownAcked == gx.ownSigned && gx'.ownSigned == gx.ownSigned
    requires gx'.peerFinal == gx.peerSigned && gx'.peerSigned == gx.peerSigned
    requires x'.crypto == x.crypto && x'.seed == x.seed && x'.holderNumber == x.holderNumber
    requires x'.counterpartyNumber == x.counterpartyNumber + 1 && !x'.awaitingRaa
    ensures Flow(x', gx', y, gy, xy, yx[1..]) && Flow(y, gy, x', gx', yx[1..], xy)
  {
    assert HasRaa(yx) && !HasCs(xy);
    QueueStable(xy, x, gx, x', gx', |gy.recv|, gy.ownAcked, gy.ownSigned, gy.ownSigned);
    assert HasCs(yx[1..]) == HasCs(yx);
  }

  lemma HonestSecretsSnoc(sha: Shachain.Hash, seed: Bytes, n: nat)
    requires n <= Shachain.MAX_INDEX
    ensures Shachain.HonestSecrets(sha, seed, n) +
            [Shachain.GenerateFromSeed(sha, seed, Shachain.IndexForCommitment(n))] ==
            Shachain.HonestSecrets(sha, seed, n + 1)
  {
  }

  /** The state after the revocation, before the holding cell is flushed. */
  lemma RevokeWire(x: Chan, m: Message)
    requires m.RevokeAndAck? && Revoke(x, m).Done?
    ensures var x' := Revoke(x, m).chan;
            && x'.crypto == x.crypto && x'.seed == x.seed && x'.role == x.role && x'.params == x.params
            && x'.state == x.state && x'.shutdownSent == x.shutdownSent && x'.shutdownReceived == x.shutdownReceived
            && x'.holderNumber == x.holderNumber && x'.counterpartyNumber == x.counterpartyNumber + 1
            && x'.currentPoint == x.nextPoint && x'.nextPoint == Some(m.nextPoint)
            && x'.pending.None? && !x'.awaitingRaa && x.counterpartyNumber <= Shachain.MAX_INDEX
            && Shachain.InsertInto(x.crypto.sha, x.secrets,
                 Shachain.IndexForCommitment(x.counterpartyNumber), m.secret) == Some(x'.secrets)
  {
    hide ApplyIncluded, ApplyRemoved, Kept, BakedBalances;
  }

  lemma KeysAfterRevoke(x: Chan, gx: History, y: Chan, gy: History, xy: seq<Message>, yx: seq<Message>)
    requires Partners(x, y) && Keys(x, y) && Keys(y, x)
    requires Flow(x, gx, y, gy, xy, yx) && Flow(y, gy, x, gx, yx, xy)
    requires yx != [] && yx[0].RevokeAndAck? && Revoke(x, yx[0]).Done?
    ensures var x' := Revoke(x, yx[0]).chan; Partners(x', y) && Keys(x', y) && Keys(y, x')
  {
    hide Shachain.Represents, Revoke;
    RevokeWire(x, yx[0]);
    var n := x.counterpartyNumber;
    assert y.holderNumber == n + 1;
    Shachain.InsertRepresents(x.crypto.sha, x.secrets, Shachain.HonestSecrets(x.crypto.sha, y.seed, n), yx[0].secret);
    HonestSecretsSnoc(x.crypto.sha, y.seed, n);
  }

  lemma XRevokes(x: Chan, gx: History, y: Chan, gy: History, xy: seq<Message>, yx: seq<Message>)
    returns (gx': History)
    requires PairInv(x, gx, y, gy, xy, yx) && yx != [] && yx[0].RevokeAndAck? && Revoke(x, yx[0]).Done?
    ensures PairInv(Revoke(x, yx[0]).chan, gx', y, gy, xy, yx[1..]) && !Revoke(x, yx[0]).chan.awaitingRaa
    ensures Logged(gx, gx', 0)
  {
    hide Inv, Flow, HonestSender, Partners, Keys, Revoke;
    InvCounts(x, gx);
    RevokeWire(x, yx[0]);
    var x' := Revoke(x, yx[0]).chan;
    RevokeKeeps(x, gx, yx[0]) by { RevokePending(x, yx[0]); }
    RevokePending(x, yx[0]);
    gx' := AfterRevoke(gx, RaaMarked(x));
    HonestAfterLock(x, gx, x', gx');
    FlowAfterRevoke(x, gx, x', gx', y, gy, xy, yx);
    KeysAfterRevoke(x, gx, y, gy, xy, yx);
  }

  lemma RevokePending(x: Chan, m: Message)
    requires m.RevokeAndAck? && Revoke(x, m).Done?
    ensures x.pending.Some?
  {
  }

  lemma XMarksProcessed(x: Chan, gx: History, y: Chan, gy: History, xy: seq<Message>, yx: seq<Message>)
    requires PairInv(x, gx, y, gy, xy, yx)
    ensures PairInv(x.(htlcs := MarkProcessed(x.htlcs), holdingCell := []), gx, y, gy, xy, yx)
  {
    hide Inv, Flow, MarkProcessed;
    var x' := x.(htlcs := MarkProcessed(x.htlcs), holdingCell := []);
    MarkProcessedKeeps(x, gx, []);
    forall i | 0 <= i < |gx.sent| ensures SentAllowed(x', gx, i) {
      assert SentAllowed(x, gx, i);
    }
    FlowSameWire(x, gx, x', y, gy, xy, yx);
    PartnersSameWire(x, x', y);
  }

  lemma FlowSameWire(x: Chan, gx: History, x': Chan, y: Chan, gy: History, xy: seq<Message>, yx: seq<Message>)
    requires SameWire(x, x') && Flow(x, gx, y, gy, xy, yx) && Flow(y, gy, x, gx, yx, xy)
    ensures Flow(x', gx, y, gy, xy, yx) && Flow(y, gy, x', gx, yx, xy)
  {
    QueueStable(xy, x, gx, x', gx, |gy.recv|, gy.ownAcked, gy.ownSigned, gy.ownSigned);
  }

  /** Re-issuing one parked operation. */
  lemma XFlushesOne(x: Chan, gx: History, y: Chan, gy: History, xy: seq<Message>, yx: seq<Message>, op: HoldingOp)
    returns (gx': History)
    requires PairInv(x, gx, y, gy, xy, yx) && !x.awaitingRaa
    ensures var f := Flush(x, [op]);
            PairInv(f.chan, gx', y, gy, xy + f.messages, yx) && !f.chan.awaitingRaa && Logged(gx, gx', 1)
  {
    hide PairInv, OutboundAddAllowed;
    gx' := gx;
    assert Flush(x, [op][..0]) == Flushed(x, [], []);
    assert xy + [] == xy;
    match op
    case HoldAdd(amount, paymentHash, cltvExpiry, onion, source) =>
      if SendAdd(x, amount, paymentHash, cltvExpiry, onion, source).Done? {
        gx' := XSendsAdd(x, gx, y, gy, xy, yx, amount, paymentHash, cltvExpiry, onion, source);
        assert Flush(x, [op]).messages == Optional(SendAdd(x, amount, paymentHash, cltvExpiry, onion, source).value);
      }
    case HoldRemove(id, res) =>
      if SendRemove(x, id, res).Done? {
        gx' := XSendsRemove(x, gx, y, gy, xy, yx, id, res);
        assert Flush(x, [op]).messages == Optional(SendRemove(x, id, res).value);
      }
  }

  lemma {:induction false} XFlushes(x: Chan, gx: History, y: Chan, gy: History, xy: seq<Message>, yx: seq<Message>,
                                   ops: seq<HoldingOp>)
    returns (gx': History)
    requires PairInv(x, gx, y, gy, xy, yx) && !x.awaitingRaa
    ensures var f := Flush(x, ops);
            PairInv(f.chan, gx', y, gy, xy + f.messages, yx) && !f.chan.awaitingRaa && Logged(gx, gx', |ops|)
    decreases |ops|
  {
    hide PairInv;
    gx' := gx;
    if ops == [] {
      assert xy + [] == xy;
    } else {
      var n := |ops| - 1;
      var f := Flush(x, ops[..n]);
      gx' := XFlushes(x, gx, y, gy, xy, yx, ops[..n]);
      gx' := XFlushesOne(f.chan, gx', y, gy, xy + f.messages, yx, ops[n]);
      FlushSnoc(x, ops);
      assert xy + Flush(x, ops).messages == xy + f.messages + Flush(f.chan, [ops[n]]).messages;
    }
  }

  /** The flush a revocation triggers. */
  function FlushedCell(x: Chan, m: Message): Flushed
    requires m.RevokeAndAck? && Revoke(x, m).Done?
  {
    var x1 := Revoke(x, m).chan;
    Flush(x1.(htlcs := MarkProcessed(x1.htlcs), holdingCell := []), x1.holdingCell)
  }

  lemma XReceivesRevocation(x: Chan, gx: History, y: Chan, gy: History, xy: seq<Message>, yx: seq<Message>)
    returns (gx': History)
    requires PairInv(x, gx, y, gy, xy, yx) && yx != [] && yx[0].RevokeAndAck? && Revoke(x, yx[0]).Done?
    ensures OnRevokeAndAck(x, yx[0]).Done?
    ensures PairInv(OnRevokeAndAck(x, yx[0]).chan, gx', y, gy, xy + OnRevokeAndAck(x, yx[0]).value.messages, yx[1..])
    ensures gx.sent <= gx'.sent && |gx'.sent| <= |gx.sent| + |Revoke(x, yx[0]).chan.holdingCell|
    ensures SignedSum(gx') >= SignedSum(gx) + if CanSendCommitment(FlushedCell(x, yx[0]).chan) then 1 else 0
  {
    hide PairInv, Revoke, MarkProcessed, Flush, CollectForwardable;
    gx' := XRevokes(x, gx, y, gy, xy, yx);
    var x1 := Revoke(x, yx[0]).chan;
    XMarksProcessed(x1, gx', y, gy, xy, yx[1..]);
    var x2 := x1.(htlcs := MarkProcessed(x1.htlcs), holdingCell := []);
    gx' := XFlushes(x2, gx', y, gy, xy, yx[1..], x1.holdingCell);
    var f := Flush(x2, x1.holdingCell);
    if CanSendCommitment(f.chan) {
      var cs := SendCommitmentSigned(f.chan);
      gx' := XSigns(f.chan, gx', y, gy, xy + f.messages, yx[1..]);
      assert xy + f.messages + [cs.value] == xy + (f.messages + [cs.value]);
    }
  }
}
