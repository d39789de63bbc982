/**
 * The commitment dance between two honest parties: what holds in every run,
 * however their sends and the deliveries of the two queues interleave.
 */
module Dance {
  import opened Wrappers
  import opened Channel
  import opened Ledger
  import opened LedgerFacts
  import opened LedgerUpdates
  import opened LedgerCommits
  import opened ChannelRuns
  import opened HandOver
  import opened HoldingCell
  import opened Pair
  import opened PairDelivery
  import opened PairSteps
  import Shachain

  /** What a channel knows of a peer that has revoked nothing yet. */
  ghost predicate FreshKeys(x: Chan, y: Chan) {
    && x.holderNumber == 0 && x.counterpartyNumber == 0
    && x.currentPoint == Some(PointAt(y.crypto, y.seed, 0))
    && x.nextPoint == Some(PointAt(y.crypto, y.seed, 1))
    && x.secrets == Shachain.EmptySlots()
  }

  /** Both channels have just become usable and agree on what they opened. */
  ghost predicate Initial(s: Sys) {
    && Fresh(s.a) && Fresh(s.b) && Partners(s.a, s.b)
    && s.b.base == Balances(s.a.base.counterparty, s.a.base.holder)
    && s.b.feerateHolder == s.a.feerateHolder
    && FreshKeys(s.a, s.b) && FreshKeys(s.b, s.a)
    && s.ab == [] && s.ba == []
  }

  function Party(s: Sys, isA: bool): Chan { if isA then s.a else s.b }

  function Inbox(s: Sys, isA: bool): seq<Message> { if isA then s.ba else s.ab }

  lemma Symmetric(x: Chan, gx: History, y: Chan, gy: History, xy: seq<Message>, yx: seq<Message>)
    requires PairInv(x, gx, y, gy, xy, yx)
    ensures PairInv(y, gy, x, gx, yx, xy)
  {
    hide Inv, Flow, HonestSender, Keys;
  }

  lemma FreshFlow(x: Chan, y: Chan)
    requires Fresh(x) && Fresh(y) && x.holderNumber == 0 && y.holderNumber == 0 && x.counterpartyNumber == 0
    requires y.base == Balances(x.base.counterparty, x.base.holder) && y.feerateHolder == x.feerateHolder
    ensures Flow(x, FreshHistory(x), y, FreshHistory(y), [], [])
    ensures HonestSender(x, FreshHistory(x))
  {
  }

  lemma FreshKeysKeys(x: Chan, y: Chan)
    requires FreshKeys(x, y) && y.holderNumber == 0 && x.crypto == y.crypto
    ensures Keys(x, y)
  {
    Shachain.RunRepresents(x.crypto.sha, []);
    assert Shachain.HonestSecrets(x.crypto.sha, y.seed, 0) == [];
  }

  lemma InitialInv(s: Sys)
    requires Initial(s)
    ensures PairInv(s.a, FreshHistory(s.a), s.b, FreshHistory(s.b), s.ab, s.ba)
  {
    hide Inv, Flow, HonestSender, Keys;
    FreshInv(s.a);
    FreshInv(s.b);
    FreshFlow(s.a, s.b);
    FreshFlow(s.b, s.a);
    FreshKeysKeys(s.a, s.b);
    FreshKeysKeys(s.b, s.a);
  }

  // ------------------------------------------------------- what a step costs

  lemma {:induction false} FlushSendsNoCommitment(c: Chan, ops: seq<HoldingOp>)
    ensures !HasCs(Flush(c, ops).messages)
    ensures ops == [] ==> Flush(c, ops).messages == []
    decreases |ops|
  {
    if ops != [] {
      hide OutboundAddAllowed, Find;
      var n := |ops| - 1;
      FlushSendsNoCommitment(c, ops[..n]);
      var f := Flush(c, ops[..n]);
      if Flush(c, ops).messages != f.messages {
        HasAppend(f.messages, Flush(c, ops).messages[|f.messages|]);
      }
    }
  }

  /** A revocation empties the holding cell, and is answered by a commitment exactly
      if the flush left something to sign. */
  lemma RevocationShape(x: Chan, m: Message)
    requires m.RevokeAndAck? && Revoke(x, m).Done? && OnRevokeAndAck(x, m).Done?
    ensures OnRevokeAndAck(x, m).chan.holdingCell == [] && Revoke(x, m).chan.holdingCell == x.holdingCell
    ensures var out := OnRevokeAndAck(x, m).value.messages;
            && (HasCs(out) <==> CanSendCommitment(FlushedCell(x, m).chan))
            && (x.holdingCell == [] ==> if HasCs(out) then |out| == 1 else out == [])
  {
    RevokeKeepsCell(x, m);
    hide Revoke, Flush, MarkProcessed, CollectForwardable;
    var x1 := Revoke(x, m).chan;
    var x2 := x1.(htlcs := MarkProcessed(x1.htlcs), holdingCell := []);
    RevokeWire(x, m);
    FlushNeverParks(x2, x1.holdingCell);
    FlushSendsNoCommitment(x2, x1.holdingCell);
    var f := Flush(x2, x1.holdingCell);
    if CanSendCommitment(f.chan) {
      HasAppend(f.messages, SendCommitmentSigned(f.chan).value);
    }
  }

  lemma RevokeKeepsCell(x: Chan, m: Message)
    requires m.RevokeAndAck? && Revoke(x, m).Done?
    ensures Revoke(x, m).chan.holdingCell == x.holdingCell
  {
    hide ApplyIncluded, ApplyRemoved, Kept, BakedBalances;
  }

  lemma LockKeepsCell(x: Chan, m: Message)
    requires m.CommitmentSigned? && OnCommitmentSigned(x, m).Done?
    ensures OnCommitmentSigned(x, m).chan.holdingCell == x.holdingCell && !HasCs([OnCommitmentSigned(x, m).value])
  {
    hide LockAll, Kept, BakedBalances, AnyAcknowledged, HolderCommitmentAt;
    assert [OnCommitmentSigned(x, m).value][1..] == [];
  }

  /** The log and the holding cell together grow by at most `k`, and a commitment
      goes out only if it covers something new. */
  ghost predicate Spends(x: Chan, gx: History, e: Effect, gx': History, k: nat)
    requires e.Moved?
  {
    && gx.sent <= gx'.sent && |gx'.sent| + |e.chan.holdingCell| <= |gx.sent| + |x.holdingCell| + k
    && SignedSum(gx') >= SignedSum(gx) + (if HasCs(e.out) then 1 else 0)
  }

  lemma XReceives(x: Chan, gx: History, y: Chan, gy: History, xy: seq<Message>, yx: seq<Message>)
    returns (gx': History)
    requires PairInv(x, gx, y, gy, xy, yx) && yx != [] && Handle(x, yx[0], yx[1..]).Moved?
    ensures var e := Handle(x, yx[0], yx[1..]);
            PairInv(e.chan, gx', y, gy, xy + e.out, e.inbox) && Spends(x, gx, e, gx', 0)
  {
    hide PairInv, OnCommitmentSigned, OnRevokeAndAck, Revoke, InboundAddAllowed, Find;
    assert xy + [] == xy;
    match yx[0]
    case UpdateAddHtlc(_, _, _, _, _) => gx' := XReceivesAdd(x, gx, y, gy, xy, yx);
    case UpdateRemoveHtlc(_, _) => gx' := XReceivesRemove(x, gx, y, gy, xy, yx);
    case UpdateFee(_) => gx' := XReceivesFee(x, gx, y, gy, xy, yx);
    case CommitmentSigned(_) =>
      gx' := XReceivesSigned(x, gx, y, gy, xy, yx);
      LockKeepsCell(x, yx[0]);
    case RevokeAndAck(_, _) =>
      RevokeDone(x, yx[0]);
      gx' := XReceivesRevocation(x, gx, y, gy, xy, yx);
      RevocationShape(x, yx[0]);
  }

  lemma RevokeDone(x: Chan, m: Message)
    requires m.RevokeAndAck? && OnRevokeAndAck(x, m).Done?
    ensures Revoke(x, m).Done?
  {
    hide Revoke, Flush, MarkProcessed, CollectForwardable;
  }

  lemma OneMessage(m: Message)
    ensures HasCs([m]) <==> m.CommitmentSigned?
  {
    assert [m][1..] == [];
  }

  lemma NoMessage()
    ensures !HasCs([])
  {
  }

  predicate IsCommand(act: Action) {
    act.DoAdd? || act.DoRemove? || act.DoFee?
  }

  lemma XActs(x: Chan, gx: History, y: Chan, gy: History, xy: seq<Message>, yx: seq<Message>, act: Action)
    returns (gx': History)
    requires PairInv(x, gx, y, gy, xy, yx) && Act(x, yx, act).Moved?
    ensures var e := Act(x, yx, act);
            PairInv(e.chan, gx', y, gy, xy + e.out, e.inbox)
            && Spends(x, gx, e, gx', if IsCommand(act) then 1 else 0)
  {
    hide PairInv, Handle, OutboundAddAllowed, Find, HasCs;
    var e := Act(x, yx, act);
    if e.out != [] { OneMessage(e.out[0]); }
    NoMessage();
    match act
    case DoAdd(amount, paymentHash, cltvExpiry, onion, source) =>
      gx' := XSendsAdd(x, gx, y, gy, xy, yx, amount, paymentHash, cltvExpiry, onion, source);
    case DoRemove(id, res) => gx' := XSendsRemove(x, gx, y, gy, xy, yx, id, res);
    case DoFee(feerate) => gx' := XSendsFee(x, gx, y, gy, xy, yx, feerate);
    case DoSign => gx' := XSigns(x, gx, y, gy, xy, yx);
    case DoReceive => gx' := XReceives(x, gx, y, gy, xy, yx);
  }

  /** Every reachable state of the pair is one the two ledgers describe. */
  lemma {:induction false} ReachableInv(s0: Sys, steps: seq<Step>) returns (ga: History, gb: History)
    requires Initial(s0) && RunPair(s0, steps).Some?
    ensures var s := RunPair(s0, steps).value; PairInv(s.a, ga, s.b, gb, s.ab, s.ba)
    decreases |steps|
  {
    hide PairInv, Initial, Act;
    if steps == [] {
      InitialInv(s0);
      ga, gb := FreshHistory(s0.a), FreshHistory(s0.b);
    } else {
      var n := |steps| - 1;
      ga, gb := ReachableInv(s0, steps[..n]);
      var s := RunPair(s0, steps[..n]).value;
      var st := steps[n];
      if st.byA && Act(s.a, s.ba, st.act).Moved? {
        ga := XActs(s.a, ga, s.b, gb, s.ab, s.ba, st.act);
      }
      if !st.byA && Act(s.b, s.ab, st.act).Moved? {
        Symmetric(s.a, ga, s.b, gb, s.ab, s.ba);
        gb := XActs(s.b, gb, s.a, ga, s.ba, s.ab, st.act);
        var e := Act(s.b, s.ab, st.act);
        Symmetric(e.chan, gb, s.a, ga, s.ba + e.out, e.inbox);
      }
    }
  }

  /** The invariant, from either party's side. */
  lemma ReachableFrom(s0: Sys, steps: seq<Step>, isA: bool) returns (gx: History, gy: History)
    requires Initial(s0) && RunPair(s0, steps).Some?
    ensures var s := RunPair(s0, steps).value;
            PairInv(Party(s, isA), gx, Party(s, !isA), gy, Inbox(s, !isA), Inbox(s, isA))
  {
    hide PairInv, Initial;
    var ga, gb := ReachableInv(s0, steps);
    var s := RunPair(s0, steps).value;
    if isA {
      gx, gy := ga, gb;
    } else {
      Symmetric(s.a, ga, s.b, gb, s.ab, s.ba);
      gx, gy := gb, ga;
    }
  }

  // ------------------------------------------------------------ mirror agreement

  /**
   * Mirror agreement. In every run of two honest parties, a delivered
   * `commitment_signed` carries exactly the commitment its receiver builds for
   * itself - number, point, balances, fee rate and HTLC outputs - so the
   * signature check passes, however commitments and fee updates crossed.
   */
  lemma MirrorAgreement(s0: Sys, steps: seq<Step>, isA: bool)
    requires Initial(s0) && RunPair(s0, steps).Some?
    requires var s := RunPair(s0, steps).value; Inbox(s, isA) != [] && Inbox(s, isA)[0].CommitmentSigned?
    ensures var s := RunPair(s0, steps).value;
            var c := Party(s, isA);
            && c.holderNumber + 1 <= Shachain.MAX_INDEX
            && Inbox(s, isA)[0].signed == HolderCommitmentAt(c, c.holderNumber + 1)
  {
    hide PairInv, Initial, HolderCommitmentAt, RunPair;
    var s := RunPair(s0, steps).value;
    var gy, gx := ReachableFrom(s0, steps, isA);
    Symmetric(Party(s, isA), gy, Party(s, !isA), gx, Inbox(s, !isA), Inbox(s, isA));
    PairGivesAgreement(Party(s, !isA), gx, Party(s, isA), gy, Inbox(s, isA), Inbox(s, !isA));
  }

  lemma PairGivesAgreement(x: Chan, gx: History, y: Chan, gy: History, xy: seq<Message>, yx: seq<Message>)
    requires PairInv(x, gx, y, gy, xy, yx) && xy != [] && xy[0].CommitmentSigned?
    ensures y.holderNumber + 1 <= Shachain.MAX_INDEX
    ensures xy[0].signed == HolderCommitmentAt(y, y.holderNumber + 1)
  {
    hide Inv, QueueOk, HolderCommitmentAt, Shachain.Represents;
    InvParts(x, gx);
    InvCounts(y, gy);
    SignedAgrees(x, gx, y, gy, xy, yx);
  }

  // ----------------------------------------------------------- no honest failure

  /** What an embedder can ask a channel to send that a peer must refuse: a fee
      rate above the ceiling, or a malformed-onion code without its flag bit. */
  predicate Unacceptable(m: Message) {
    || (m.UpdateFee? && m.feerate > FEERATE_CEILING)
    || (m.UpdateRemoveHtlc? && CodeLacksBadOnion(m.resolution))
  }

  /** The 48-bit commitment number space has run out. */
  predicate OutOfNumbers(c: Chan, m: Message) {
    m.CommitmentSigned? && c.holderNumber + 2 > Shachain.MAX_INDEX
  }

  lemma DeliveryOutcome(x: Chan, gx: History, y: Chan, gy: History, xy: seq<Message>, yx: seq<Message>)
    requires PairInv(x, gx, y, gy, xy, yx) && xy != []
    ensures var e := Handle(y, xy[0], xy[1..]);
            && !e.Refused?
            && (e.Broken? <==> Unacceptable(xy[0]) || OutOfNumbers(y, xy[0]))
            && (e == Broken(Close) <==> Unacceptable(xy[0]))
  {
    hide PairInv, OnUpdateAdd, OnUpdateRemove, OnUpdateFee, OnCommitmentSigned, OnRevokeAndAck;
    match xy[0]
    case UpdateAddHtlc(_, _, _, _, _) => AddDelivered(x, gx, y, gy, xy, yx);
    case UpdateRemoveHtlc(_, _) => RemoveAccepted(x, gx, y, gy, xy, yx);
    case UpdateFee(_) => FeeAccepted(x, gx, y, gy, xy, yx);
    case CommitmentSigned(_) => SignedDelivered(x, gx, y, gy, xy, yx);
    case RevokeAndAck(_, _) => RevocationDelivered(x, gx, y, gy, xy, yx);
  }

  lemma AddDelivered(x: Chan, gx: History, y: Chan, gy: History, xy: seq<Message>, yx: seq<Message>)
    requires PairInv(x, gx, y, gy, xy, yx) && xy != [] && xy[0].UpdateAddHtlc?
    ensures OnUpdateAdd(y, xy[0]).Done?
  {
    AddAccepted(x, gx, y, gy, xy, yx);
  }

  lemma SignedDelivered(x: Chan, gx: History, y: Chan, gy: History, xy: seq<Message>, yx: seq<Message>)
    requires PairInv(x, gx, y, gy, xy, yx) && xy != [] && xy[0].CommitmentSigned?
    ensures y.holderNumber + 2 <= Shachain.MAX_INDEX ==> OnCommitmentSigned(y, xy[0]).Done?
    ensures y.holderNumber + 2 > Shachain.MAX_INDEX ==> OnCommitmentSigned(y, xy[0]) == Failed(Exhausted)
  {
    hide Inv, Flow, HonestSender;
    PairGivesAgreement(x, gx, y, gy, xy, yx);
  }

  lemma RevocationDelivered(x: Chan, gx: History, y: Chan, gy: History, xy: seq<Message>, yx: seq<Message>)
    requires PairInv(x, gx, y, gy, xy, yx) && xy != [] && xy[0].RevokeAndAck?
    ensures OnRevokeAndAck(y, xy[0]).Done?
  {
    hide Inv, HonestSender, Flow, Keys, Partners, OnRevokeAndAck;
    InvCounts(y, gy);
    PartnersCrypto(x, y);
    RevocationAccepted(x, gx, y, gy, xy, yx);
    Symmetric(x, gx, y, gy, xy, yx);
    var _ := XReceivesRevocation(y, gy, x, gx, yx, xy);
  }

  lemma PartnersCrypto(x: Chan, y: Chan)
    requires Partners(x, y)
    ensures y.crypto == x.crypto
  {
  }

  /**
   * No honest failure. In every run of two honest parties, delivering the head
   * of a queue fails the channel if and only if the message is one the sender's
   * embedder should not have asked for, or the number space is exhausted.
   */
  lemma NoHonestFailure(s0: Sys, steps: seq<Step>, isA: bool)
    requires Initial(s0) && RunPair(s0, steps).Some?
    requires Inbox(RunPair(s0, steps).value, isA) != []
    ensures var s := RunPair(s0, steps).value;
            var m := Inbox(s, isA)[0];
            var e := Act(Party(s, isA), Inbox(s, isA), DoReceive);
            && (e.Broken? <==> Unacceptable(m) || OutOfNumbers(Party(s, isA), m))
            && (e == Broken(Close) <==> Unacceptable(m))
            && (!Unacceptable(m) && !OutOfNumbers(Party(s, isA), m) ==> e.Moved?)
  {
    hide PairInv, Initial, Handle;
    var s := RunPair(s0, steps).value;
    var gy, gx := ReachableFrom(s0, steps, isA);
    Symmetric(Party(s, isA), gy, Party(s, !isA), gx, Inbox(s, !isA), Inbox(s, isA));
    DeliveryOutcome(Party(s, !isA), gx, Party(s, isA), gy, Inbox(s, isA), Inbox(s, !isA));
  }

  // ------------------------------------------------------------- quiescence

  predicate Quiet(c: Chan) {
    !c.dirty && !c.awaitingRaa
  }

  /** With nothing in flight and nothing unsigned, every counter stands at the
      end of its log, and the logs agree. */
  lemma QuietCounters(x: Chan, gx: History, y: Chan, gy: History)
    requires PairInv(x, gx, y, gy, [], []) && Quiet(x) && Quiet(y)
    ensures gx.ownLocked == gx.ownAcked == gx.ownSigned == |gx.sent|
    ensures gx.peerFinal == gx.peerSigned == gx.peerLocked == |gx.recv|
    ensures gy.recv == gx.sent && gx.recv == gy.sent
    ensures x.holderNumber == y.counterpartyNumber
  {
    hide HonestSender, Keys, Partners, Indexed, Recorded, Metered, Solvent, FeesAgree, Stored;
  }

  /** Then every listed HTLC is locked on both sides and unresolved. */
  lemma QuietHtlc(x: Chan, gx: History, i: nat)
    requires Counted(x, gx) && Indexed(gx) && Recorded(x, gx) && i < |x.htlcs|
    requires gx.ownLocked == |gx.sent| && gx.peerFinal == |gx.recv|
    ensures Irrevocable(x.htlcs[i])
  {
    assert RecordAgrees(gx, x.htlcs[i]);
    OldIndexBelow(gx, x.htlcs[i]);
  }

  lemma QuietHas(x: Chan, gx: History, y: Chan, gy: History, i: nat)
    requires Counted(x, gx) && Indexed(gx) && Recorded(x, gx) && i < |x.htlcs|
    requires Counted(y, gy) && Indexed(gy) && Recorded(y, gy)
    requires gy.recv == gx.sent && gx.recv == gy.sent && Irrevocable(x.htlcs[i])
    ensures var r := Find(y.htlcs, !x.htlcs[i].outbound, x.htlcs[i].id);
            r.Some? && DataOf(y.htlcs[r.value]) == DataOf(x.htlcs[i])
  {
    var h := x.htlcs[i];
    assert RecordAgrees(gx, h);
    OldIndexBelow(gx, h);
    if h.outbound {
      QuietHasInbound(gx, y, gy, h);
    } else {
      QuietHasOutbound(gx, y, gy, h);
    }
  }

  lemma QuietHasInbound(gx: History, y: Chan, gy: History, h: Htlc)
    requires Indexed(gx) && Indexed(gy) && Recorded(y, gy) && gy.recv == gx.sent && gx.recv == gy.sent
    requires h.outbound && RecordAgrees(gx, h) && IxOf(gx, h).rem.None?
    ensures var r := Find(y.htlcs, false, h.id); r.Some? && DataOf(y.htlcs[r.value]) == DataOf(h)
  {
    var n := gx.outIx[h.id].add;
    assert AddAgrees(gx.outIx[h.id], h.id, gx.sent);
    assert gy.recv[n] == gx.sent[n];
    assert gy.inIx[h.id].add == n;
    assert RemAgrees(gy.inIx[h.id], h.id, gy.recv, gy.sent, gy.peerFinal);
    assert forall j | 0 <= j < |gy.sent| :: gx.recv[j] == gy.sent[j];
    assert InGone(gy, gy.inIx[h.id]) || Find(y.htlcs, false, h.id).Some?;
    assert RecordAgrees(gy, y.htlcs[Find(y.htlcs, false, h.id).value]);
  }

  lemma QuietHasOutbound(gx: History, y: Chan, gy: History, h: Htlc)
    requires Indexed(gx) && Indexed(gy) && Recorded(y, gy) && gy.recv == gx.sent && gx.recv == gy.sent
    requires !h.outbound && RecordAgrees(gx, h) && IxOf(gx, h).rem.None?
    ensures var r := Find(y.htlcs, true, h.id); r.Some? && DataOf(y.htlcs[r.value]) == DataOf(h)
  {
    var n := gx.inIx[h.id].add;
    assert AddAgrees(gx.inIx[h.id], h.id, gx.recv);
    assert gy.sent[n] == gx.recv[n];
    assert gy.outIx[h.id].add == n;
    assert RemAgrees(gy.outIx[h.id], h.id, gy.sent, gy.recv, gy.ownLocked);
    assert forall j | 0 <= j < |gy.recv| :: gx.sent[j] == gy.recv[j];
    assert OutGone(gy, gy.outIx[h.id]) || Find(y.htlcs, true, h.id).Some?;
    assert RecordAgrees(gy, y.htlcs[Find(y.htlcs, true, h.id).value]);
  }

  lemma {:induction false} CommittedBalances(b: Balances, htlcs: seq<Htlc>)
    requires forall i | 0 <= i < |htlcs| :: Irrevocable(htlcs[i])
    ensures var e := ExactBalancesOf(b, htlcs, true);
            e.holder == b.holder - LiveAmount(htlcs, true) && e.counterparty == b.counterparty - LiveAmount(htlcs, false)
    decreases |htlcs|
  {
    if htlcs != [] { CommittedBalances(b, htlcs[..|htlcs| - 1]); }
  }

  /** A quiet channel's base balance is what the logs give plus what is in escrow. */
  lemma QuietBase(x: Chan, gx: History)
    requires Inv(x, gx) && forall i | 0 <= i < |x.htlcs| :: Irrevocable(x.htlcs[i])
    ensures x.base.holder == OwnBalance(gx, gx.ownAcked, |gx.recv|) + Reading(LiveAmountMeter(true), gx, |gx.sent|, |gx.recv|)
    ensures x.base.counterparty ==
            PeerBalance(gx, gx.ownAcked, |gx.recv|) + Reading(LiveAmountMeter(false), gx, |gx.sent|, |gx.recv|)
  {
    hide Inv, Irrevocable;
    InvCounts(x, gx);
    ExactBalances(x, gx, true);
    ExactLive(x, gx, true);
    ExactLive(x, gx, false);
    NeverSaturates(x, gx, true, |x.htlcs|);
    assert x.htlcs[..|x.htlcs|] == x.htlcs;
    CommittedBalances(x.base, x.htlcs);
  }

  /** What two quiet parties agree on. */
  ghost predicate Converged(x: Chan, y: Chan) {
    && (forall i | 0 <= i < |x.htlcs| :: Irrevocable(x.htlcs[i]))
    && (forall i | 0 <= i < |x.htlcs| :: MirroredIn(y, x.htlcs[i]))
    && x.base.holder == y.base.counterparty && x.base.counterparty == y.base.holder
    && x.feerateHolder == x.feerateCounterparty == y.feerateHolder
    && x.holderNumber == y.counterpartyNumber
  }

  ghost predicate MirroredIn(y: Chan, h: Htlc) {
    var r := Find(y.htlcs, !h.outbound, h.id);
    r.Some? && DataOf(y.htlcs[r.value]) == DataOf(h)
  }

  lemma QuietBasesSwap(x: Chan, gx: History, y: Chan, gy: History)
    requires Inv(x, gx) && Inv(y, gy)
    requires forall i | 0 <= i < |x.htlcs| :: Irrevocable(x.htlcs[i])
    requires forall i | 0 <= i < |y.htlcs| :: Irrevocable(y.htlcs[i])
    requires gy.recv == gx.sent && gx.recv == gy.sent && gx.ownAcked == |gx.sent| && gy.ownAcked == |gy.sent|
    requires gy.initial == Balances(gx.initial.counterparty, gx.initial.holder)
    ensures x.base.holder == y.base.counterparty
  {
    hide Inv, Irrevocable;
    QuietBase(x, gx);
    QuietBase(y, gy);
    assert Shared(gx, gy, |gx.sent|, |gx.recv|);
    MirrorBalances(gx, gy, |gx.sent|, |gx.recv|);
    MirrorReading(LiveAmountMeter(true), LiveAmountMeter(false), gx, gy, |gx.sent|, |gx.recv|);
  }

  lemma QuietFees(x: Chan, gx: History, y: Chan, gy: History)
    requires Counted(x, gx) && FeesAgree(x, gx) && Counted(y, gy) && FeesAgree(y, gy) && y.role != x.role
    requires gy.recv == gx.sent && gx.recv == gy.sent && gx.ownAcked == |gx.sent| && gy.ownAcked == |gy.sent|
    requires gx.peerLocked == |gx.recv| && gy.initialFeerate == gx.initialFeerate
    ensures x.feerateHolder == x.feerateCounterparty == y.feerateHolder
  {
  }

  lemma FlowInitial(x: Chan, gx: History, y: Chan, gy: History, xy: seq<Message>, yx: seq<Message>)
    requires Flow(x, gx, y, gy, xy, yx)
    ensures gy.initial == Balances(gx.initial.counterparty, gx.initial.holder) && gy.initialFeerate == gx.initialFeerate
  {
  }

  lemma QuietConverged(x: Chan, gx: History, y: Chan, gy: History)
    requires PairInv(x, gx, y, gy, [], []) && Quiet(x) && Quiet(y)
    ensures Converged(x, y)
  {
    hide Inv, Flow, HonestSender, Keys, Counted, Indexed, Recorded, FeesAgree, Irrevocable;
    QuietCounters(x, gx, y, gy);
    Symmetric(x, gx, y, gy, [], []);
    QuietCounters(y, gy, x, gx);
    InvParts(x, gx);
    InvParts(y, gy);
    FlowInitial(x, gx, y, gy, [], []);
    FlowInitial(y, gy, x, gx, [], []);
    forall i | 0 <= i < |x.htlcs| ensures Irrevocable(x.htlcs[i]) && MirroredIn(y, x.htlcs[i]) {
      QuietHtlc(x, gx, i);
      QuietHas(x, gx, y, gy, i);
    }
    forall i | 0 <= i < |y.htlcs| ensures Irrevocable(y.htlcs[i]) { QuietHtlc(y, gy, i); }
    QuietBasesSwap(x, gx, y, gy);
    QuietBasesSwap(y, gy, x, gx);
    QuietFees(x, gx, y, gy);
  }

  /**
   * Quiescent convergence. When both queues are empty and neither party has
   * anything unsigned or in flight, both hold the same HTLCs, all locked on
   * both sides, with swapped balances, equal fee rates and matching numbers:
   * the dirty flag never misses a change.
   */
  lemma QuiescentConvergence(s0: Sys, steps: seq<Step>)
    requires Initial(s0) && RunPair(s0, steps).Some?
    requires var s := RunPair(s0, steps).value; s.ab == [] && s.ba == [] && Quiet(s.a) && Quiet(s.b)
    ensures var s := RunPair(s0, steps).value; Converged(s.a, s.b) && Converged(s.b, s.a)
  {
    hide PairInv, Initial, Converged;
    var s := RunPair(s0, steps).value;
    var ga, gb := ReachableInv(s0, steps);
    QuietConverged(s.a, ga, s.b, gb);
    Symmetric(s.a, ga, s.b, gb, [], []);
    QuietConverged(s.b, gb, s.a, ga);
  }

  // -------------------------------------------- hand-over, seen from both sides

  /** Right after a revocation, the commitment we hold for the peer lists the
      outputs the peer's own current commitment lists. */
  lemma PeerHoldsSame(x: Chan, gx: History, y: Chan, gy: History, xy: seq<Message>, yx: seq<Message>, out: HtlcOutput)
    requires PairInv(x, gx, y, gy, xy, yx) && !x.awaitingRaa
    ensures x.currentCounterparty.Some? && y.currentHolder.Some?
    ensures y.currentHolder.value.htlcs[out] == x.currentCounterparty.value.htlcs[out]
  {
    hide Keys, HonestSender, Indexed, Recorded, Metered, Solvent, FeesAgree;
    SharedPrefixes(gx, gy, gx.ownAcked, gx.peerFinal);
    MirrorReading(OutputMeter(out, false), OutputMeter(out, true), gx, gy, gx.ownAcked, gx.peerFinal);
    assert Reflects(x.currentCounterparty.value, x.role, gx, false, gx.ownAcked, gx.peerFinal);
    assert Reflects(y.currentHolder.value, y.role, gy, true, gy.ownLocked, gy.peerLocked);
  }

  /**
   * Irrevocable hand-over between honest parties: an HTLC reported forwardable
   * is in the current commitment of each party at that moment.
   */
  lemma HandOverOnBothSides(s0: Sys, steps: seq<Step>, isA: bool, k: nat)
    requires Initial(s0) && RunPair(s0, steps).Some?
    requires var s := RunPair(s0, steps).value; Inbox(s, isA) != [] && Inbox(s, isA)[0].RevokeAndAck?
    requires var s := RunPair(s0, steps).value;
             var o := OnRevokeAndAck(Party(s, isA), Inbox(s, isA)[0]);
             o.Done? && k < |o.value.forwardable|
    ensures var s := RunPair(s0, steps).value;
            var (x, y, m) := (Party(s, isA), Party(s, !isA), Inbox(s, isA)[0]);
            var f := OnRevokeAndAck(x, m).value.forwardable[k];
            var x1 := Revoke(x, m).chan;
            && x1.currentHolder.Some? && y.currentHolder.Some?
            && HtlcOutput(false, f.amount, f.cltvExpiry, f.paymentHash) in x1.currentHolder.value.htlcs
            && HtlcOutput(true, f.amount, f.cltvExpiry, f.paymentHash) in y.currentHolder.value.htlcs
  {
    hide PairInv, Initial, Revoke, OnRevokeAndAck;
    var s := RunPair(s0, steps).value;
    var gx, gy := ReachableFrom(s0, steps, isA);
    HandOverPair(Party(s, isA), gx, Party(s, !isA), gy, Inbox(s, !isA), Inbox(s, isA), k);
  }

  lemma HandOverPair(x: Chan, gx: History, y: Chan, gy: History, xy: seq<Message>, yx: seq<Message>, k: nat)
    requires PairInv(x, gx, y, gy, xy, yx) && yx != [] && yx[0].RevokeAndAck?
    requires OnRevokeAndAck(x, yx[0]).Done? && k < |OnRevokeAndAck(x, yx[0]).value.forwardable|
    ensures var f := OnRevokeAndAck(x, yx[0]).value.forwardable[k];
            var x1 := Revoke(x, yx[0]).chan;
            && x1.currentHolder.Some? && y.currentHolder.Some?
            && HtlcOutput(false, f.amount, f.cltvExpiry, f.paymentHash) in x1.currentHolder.value.htlcs
            && HtlcOutput(true, f.amount, f.cltvExpiry, f.paymentHash) in y.currentHolder.value.htlcs
  {
    hide Inv, Flow, HonestSender, Keys, Partners, Revoke;
    HandedOverFrom(x, gx, yx[0], k);
    var gx1 := XRevokes(x, gx, y, gy, xy, yx);
    var f := OnRevokeAndAck(x, yx[0]).value.forwardable[k];
    PeerHoldsSame(Revoke(x, yx[0]).chan, gx1, y, gy, xy, yx[1..],
                  HtlcOutput(true, f.amount, f.cltvExpiry, f.paymentHash));
  }
}
