/**
 * The life of an HTLC on one channel, against an arbitrary peer: its two phases
 * walk one chain in one direction, and an inbound HTLC is handed to the node
 * layer at most once, when every unrevoked commitment contains it.
 */
module HandOver {
  import opened Wrappers
  import opened Channel
  import opened Ledger
  import opened LedgerFacts
  import opened LedgerUpdates
  import opened LedgerCommits
  import opened ChannelRuns
  import opened Sums

  /** Position in the lifecycle chain, or None for a pair off the chain. */
  function Stage(x: Htlc): Option<nat> {
    if x.outbound then
      match (x.phaseHolder, x.phaseCounterparty)
      case (NotYet, Pending) => Some(0)
      case (Pending, Committed) => Some(1)
      case (Committed, Committed) => Some(2)
      case (Removing, Committed) => Some(3)
      case (Gone, Removing) => Some(4)
      case _ => None
    else
      match (x.phaseHolder, x.phaseCounterparty)
      case (Pending, NotYet) => Some(0)
      case (Committed, Pending) => Some(1)
      case (Committed, Committed) => Some(2)
      case (Committed, Removing) => Some(3)
      case (Removing, Gone) => Some(4)
      case _ => None
  }

  lemma ListedOnChain(c: Chan, g: History, i: nat)
    requires Inv(c, g) && i < |c.htlcs|
    ensures var x := c.htlcs[i]; Stage(x).Some? && (Stage(x).value >= 3 <==> x.resolution.Some?)
  {
    hide Inv;
    InvParts(c, g);
    assert RecordAgrees(g, c.htlcs[i]);
    RecordOnChain(c, g, c.htlcs[i]);
  }

  lemma RecordOnChain(c: Chan, g: History, x: Htlc)
    requires Counted(c, g) && Indexed(g) && RecordAgrees(g, x)
    ensures Stage(x).Some? && (Stage(x).value >= 3 <==> x.resolution.Some?)
  {
    OldIndexBelow(g, x);
    hide Indexed;
  }

  /** Every listed HTLC is on the chain, and is resolved exactly from the
      removal on - so a credited phase always carries a resolution. */
  lemma PhasesOnChain(c0: Chan, events: seq<Event>, i: nat)
    requires Fresh(c0) && i < |Run(c0, events).htlcs|
    ensures var x := Run(c0, events).htlcs[i];
            && Stage(x).Some? && (Stage(x).value >= 3 <==> x.resolution.Some?)
            && (x.phaseHolder.Credited() || x.phaseCounterparty.Credited() ==> x.resolution.Some?)
  {
    hide Run, Inv;
    var g := RunInv(c0, events);
    ListedOnChain(Run(c0, events), g, i);
  }

  lemma RecordAdvances(c: Chan, g: History, c': Chan, g': History, x: Htlc, y: Htlc)
    requires Counted(c, g) && Counted(c', g') && Indexed(g) && Indexed(g') && Advances(g, g')
    requires RecordAgrees(g, x) && RecordAgrees(g', y)
    requires y.outbound == x.outbound && y.id == x.id
    ensures Stage(x).Some? && Stage(y).Some? && Stage(x).value <= Stage(y).value
    ensures DataOf(y) == DataOf(x) && (x.resolution.Some? ==> y.resolution == x.resolution)
  {
    OldIndexBelow(g, x);
    OldIndexBelow(g', y);
    hide Indexed;
    if x.outbound {
      assert g'.sent[IxOf(g, x).add] == g.sent[IxOf(g, x).add];
      OwnAdvances(c, g, c', g', x, y);
    } else {
      assert g'.recv[IxOf(g, x).add] == g.recv[IxOf(g, x).add];
      PeerAdvances(c, g, c', g', x, y);
    }
  }

  lemma OwnAdvances(c: Chan, g: History, c': Chan, g': History, x: Htlc, y: Htlc)
    requires Counted(c, g) && Counted(c', g') && Advances(g, g') && RecordAgrees(g, x) && RecordAgrees(g', y)
    requires x.outbound && y.outbound && y.id == x.id
    requires IxOf(g, x).rem.Some? ==> IxOf(g, x).add < g.ownLocked
    requires IxOf(g', y).rem.Some? ==> IxOf(g', y).add < g'.ownLocked
    ensures Stage(x).Some? && Stage(y).Some? && Stage(x).value <= Stage(y).value
    ensures DataOf(y) == DataOf(x) && (x.resolution.Some? ==> y.resolution == x.resolution)
  {
  }

  lemma PeerAdvances(c: Chan, g: History, c': Chan, g': History, x: Htlc, y: Htlc)
    requires Counted(c, g) && Counted(c', g') && Advances(g, g') && RecordAgrees(g, x) && RecordAgrees(g', y)
    requires !x.outbound && !y.outbound && y.id == x.id
    requires IxOf(g, x).rem.Some? ==> IxOf(g, x).add < g.peerFinal
    requires IxOf(g', y).rem.Some? ==> IxOf(g', y).add < g'.peerFinal
    ensures Stage(x).Some? && Stage(y).Some? && Stage(x).value <= Stage(y).value
    ensures DataOf(y) == DataOf(x) && (x.resolution.Some? ==> y.resolution == x.resolution)
  {
  }

  /** One event moves each listed HTLC forward on the chain or leaves it; it
      leaves the list only from the last stage. */
  lemma PhasesAdvance(c0: Chan, events: seq<Event>, e: Event, i: nat)
    requires Fresh(c0) && i < |Run(c0, events).htlcs|
    ensures var c := Run(c0, events);
            var c' := React(c, e).chan;
            var x := c.htlcs[i];
            && Stage(x).Some?
            && match Find(c'.htlcs, x.outbound, x.id)
               case None => Stage(x).value == 4
               case Some(j) =>
                 var y := c'.htlcs[j];
                 && Stage(y).Some? && Stage(x).value <= Stage(y).value
                 && DataOf(y) == DataOf(x) && (x.resolution.Some? ==> y.resolution == x.resolution)
  {
    var c := Run(c0, events);
    var g := RunInv(c0, events);
    var g' := ReactKeeps(c, g, e);
    var c' := React(c, e).chan;
    var x := c.htlcs[i];
    assert RecordAgrees(g, x);
    ListedOnChain(c, g, i);
    match Find(c'.htlcs, x.outbound, x.id)
    case Some(j) =>
      assert RecordAgrees(g', c'.htlcs[j]);
      RecordAdvances(c, g, c', g', x, c'.htlcs[j]);
    case None =>
      LeavesFromLast(c, g, c', g', x);
  }

  lemma OutboundLeaves(c: Chan, g: History, c': Chan, g': History, x: Htlc)
    requires Counted(c, g) && Indexed(g) && Indexed(g') && Recorded(c', g') && Advances(g, g')
    requires RecordAgrees(g, x) && x.outbound && Stage(x).Some? && Find(c'.htlcs, x.outbound, x.id).None?
    ensures Stage(x).value == 4
  {
    OldIndexBelow(g, x);
    assert OutGone(g', g'.outIx[x.id]);
    assert RemAgrees(g'.outIx[x.id], x.id, g'.sent, g'.recv, g'.ownLocked);
    assert g.recv[g'.outIx[x.id].rem.value] == g'.recv[g'.outIx[x.id].rem.value];
  }

  lemma InboundLeaves(c: Chan, g: History, c': Chan, g': History, x: Htlc)
    requires Counted(c, g) && Indexed(g) && Indexed(g') && Recorded(c', g') && Advances(g, g')
    requires RecordAgrees(g, x) && !x.outbound && Stage(x).Some? && Find(c'.htlcs, x.outbound, x.id).None?
    ensures Stage(x).value == 4
  {
    OldIndexBelow(g, x);
    assert InGone(g', g'.inIx[x.id]);
    assert RemAgrees(g'.inIx[x.id], x.id, g'.recv, g'.sent, g'.peerFinal);
    assert g.sent[g'.inIx[x.id].rem.value] == g'.sent[g'.inIx[x.id].rem.value];
  }

  lemma LeavesFromLast(c: Chan, g: History, c': Chan, g': History, x: Htlc)
    requires Counted(c, g) && Indexed(g) && Indexed(g') && Recorded(c', g') && Advances(g, g')
    requires RecordAgrees(g, x) && Stage(x).Some? && Find(c'.htlcs, x.outbound, x.id).None?
    ensures Stage(x).value == 4
  {
    hide Counted, Indexed, Recorded, Advances, RecordAgrees, Stage;
    if x.outbound {
      OutboundLeaves(c, g, c', g', x);
    } else {
      InboundLeaves(c, g, c', g', x);
    }
  }

  // ------------------------------------------------------- irrevocable hand-over

  lemma {:induction false} CollectedFrom(htlcs: seq<Htlc>, k: nat) returns (i: nat)
    requires k < |CollectForwardable(htlcs)|
    ensures i < |htlcs| && ReadyToForward(htlcs[i]) && AsForwardable(htlcs[i]) == CollectForwardable(htlcs)[k]
    decreases |htlcs|
  {
    var n := |htlcs| - 1;
    if k < |CollectForwardable(htlcs[..n])| {
      i := CollectedFrom(htlcs[..n], k);
    } else {
      i := n;
    }
  }

  /** A term of a sum of non-negative terms is at most the sum. */
  lemma TermAtMost(f: Htlc -> int, s: seq<Htlc>, i: nat)
    requires i < |s| && forall j | 0 <= j < |s| :: f(s[j]) >= 0
    ensures f(s[i]) <= Sum(f, s)
  {
    SplitAt(f, s, i);
    SumNonNegative(f, s[..i]);
    SumNonNegative(f, s[i + 1..]);
  }

  /** A commitment covering the first `a` and `b` updates contains every listed
      HTLC added below them and not yet removed. */
  lemma OutputPresent(c: Chan, g: History, v: Commitment, holderSide: bool, a: nat, b: nat, i: nat)
    requires Inv(c, g) && i < |c.htlcs| && Reflects(v, c.role, g, holderSide, a, b)
    requires g.ownLocked <= a && g.peerFinal <= b
    requires var x := c.htlcs[i]; InRange(g, x) && IxOf(g, x).rem.None? && IxOf(g, x).add < (if x.outbound then a else b)
    ensures OutputOf(c.htlcs[i], holderSide) in v.htlcs
  {
    hide Inv, Reading;
    InvMeters(c, g);
    var out := OutputOf(c.htlcs[i], holderSide);
    var mt := OutputMeter(out, holderSide);
    var f := (x: Htlc) => Share(mt, g, x, a, b);
    SettledZero(mt, g.settled);
    assert MeterAgrees(c, g, mt, a, b);
    assert f(c.htlcs[i]) == 1;
    TermAtMost(f, c.htlcs, i);
    assert v.htlcs[out] == Reading(mt, g, a, b);
  }

  /** The hand-over, in any state the ledger describes. */
  lemma HandedOverFrom(c: Chan, g: History, m: Message, k: nat)
    requires Inv(c, g) && m.RevokeAndAck?
    requires OnRevokeAndAck(c, m).Done? && k < |OnRevokeAndAck(c, m).value.forwardable|
    ensures var f := OnRevokeAndAck(c, m).value.forwardable[k];
            var c1 := Revoke(c, m).chan;
            && c1.pending.None?
            && c1.currentHolder.Some? && c1.currentCounterparty.Some?
            && HtlcOutput(false, f.amount, f.cltvExpiry, f.paymentHash) in c1.currentHolder.value.htlcs
            && HtlcOutput(true, f.amount, f.cltvExpiry, f.paymentHash) in c1.currentCounterparty.value.htlcs
  {
    hide Inv;
    RevokeKeeps(c, g, m);
    var c1 := Revoke(c, m).chan;
    var g1 := AfterRevoke(g, RaaMarked(c));
    var i := CollectedFrom(c1.htlcs, k);
    ReadyIsIn(c1, g1, i);
  }

  /** A listed HTLC ready to forward is in both current commitments. */
  lemma ReadyIsIn(c: Chan, g: History, i: nat)
    requires Inv(c, g) && i < |c.htlcs| && ReadyToForward(c.htlcs[i])
    ensures c.currentCounterparty.Some? && OutputOf(c.htlcs[i], false) in c.currentCounterparty.value.htlcs
    ensures c.currentHolder.Some? && OutputOf(c.htlcs[i], true) in c.currentHolder.value.htlcs
  {
    assert RecordAgrees(g, c.htlcs[i]);
    OldIndexBelow(g, c.htlcs[i]);
    OutputPresent(c, g, c.currentCounterparty.value, false, g.ownAcked, g.peerFinal, i);
    OutputPresent(c, g, c.currentHolder.value, true, g.ownLocked, g.peerLocked, i);
  }

  /**
   * An HTLC reported forwardable by a `revoke_and_ack` is, at that moment, in
   * our current commitment and in the peer's, and no other commitment of ours
   * is outstanding.
   */
  lemma HandedOverIsIrrevocable(c0: Chan, events: seq<Event>, m: Message, k: nat)
    requires Fresh(c0) && m.RevokeAndAck?
    requires OnRevokeAndAck(Run(c0, events), m).Done?
    requires k < |OnRevokeAndAck(Run(c0, events), m).value.forwardable|
    ensures var c := Run(c0, events);
            var f := OnRevokeAndAck(c, m).value.forwardable[k];
            var c1 := Revoke(c, m).chan;
            && c1.pending.None?
            && c1.currentHolder.Some? && c1.currentCounterparty.Some?
            && HtlcOutput(false, f.amount, f.cltvExpiry, f.paymentHash) in c1.currentHolder.value.htlcs
            && HtlcOutput(true, f.amount, f.cltvExpiry, f.paymentHash) in c1.currentCounterparty.value.htlcs
  {
    hide Inv, OnRevokeAndAck, Revoke;
    var g := RunInv(c0, events);
    HandedOverFrom(Run(c0, events), g, m, k);
  }

  // ------------------------------------------------------------ at most once

  /** Every inbound HTLC listed after is new, or was listed before and keeps
      its processed mark. */
  ghost predicate KeepsMarks(c: Chan, c': Chan) {
    && c.nextCounterpartyId <= c'.nextCounterpartyId
    && forall j | 0 <= j < |c'.htlcs| :: MarkKept(c, c'.htlcs[j])
  }

  ghost predicate MarkKept(c: Chan, y: Htlc) {
    y.outbound || y.id >= c.nextCounterpartyId ||
    exists i | 0 <= i < |c.htlcs| ::
      !c.htlcs[i].outbound && c.htlcs[i].id == y.id && (c.htlcs[i].processed ==> y.processed)
  }

  lemma KeepsTrans(c: Chan, c1: Chan, c2: Chan)
    requires KeepsMarks(c, c1) && KeepsMarks(c1, c2)
    ensures KeepsMarks(c, c2)
  {
    forall j | 0 <= j < |c2.htlcs| ensures MarkKept(c, c2.htlcs[j]) {
      var y := c2.htlcs[j];
      assert MarkKept(c1, y);
      if !y.outbound && y.id < c.nextCounterpartyId {
        var i :| 0 <= i < |c1.htlcs| && !c1.htlcs[i].outbound && c1.htlcs[i].id == y.id &&
                 (c1.htlcs[i].processed ==> y.processed);
        assert MarkKept(c, c1.htlcs[i]);
      }
    }
  }

  /** Same list, entry by entry, up to marks that are only set. */
  lemma KeepsPointwise(c: Chan, c': Chan, marked: seq<Htlc>)
    requires |marked| == |c.htlcs| && c'.nextCounterpartyId == c.nextCounterpartyId
    requires forall i | 0 <= i < |marked| :: SameIdentity(c.htlcs[i], marked[i])
    requires c'.htlcs == marked || c'.htlcs == Kept(marked)
    ensures KeepsMarks(c, c')
  {
    forall j | 0 <= j < |c'.htlcs| ensures MarkKept(c, c'.htlcs[j]) {
      var y := c'.htlcs[j];
      KeptMember(marked, y);
      var i :| 0 <= i < |marked| && marked[i] == y;
      assert SameIdentity(c.htlcs[i], marked[i]);
    }
  }

  lemma KeepsAppend(c: Chan, c': Chan, x: Htlc)
    requires c'.htlcs == c.htlcs + [x] && c.nextCounterpartyId <= c'.nextCounterpartyId
    requires x.outbound || x.id >= c.nextCounterpartyId
    ensures KeepsMarks(c, c')
  {
    forall j | 0 <= j < |c'.htlcs| ensures MarkKept(c, c'.htlcs[j]) {
      if j < |c.htlcs| { assert c.htlcs[j] == c'.htlcs[j]; }
    }
  }

  lemma SendAddKeepsMarks(c: Chan, amount: nat, paymentHash: Bytes, cltvExpiry: nat, onion: Bytes, source: Source)
    ensures var o := SendAdd(c, amount, paymentHash, cltvExpiry, onion, source); o.Done? ==> KeepsMarks(c, o.chan)
  {
    var o := SendAdd(c, amount, paymentHash, cltvExpiry, onion, source);
    if o.Done? {
      if c.awaitingRaa { KeepsPointwise(c, o.chan, c.htlcs); }
      else { KeepsAppend(c, o.chan, o.chan.htlcs[|c.htlcs|]); }
    }
  }

  lemma SendRemoveKeepsMarks(c: Chan, id: nat, res: Resolution)
    ensures var o := SendRemove(c, id, res); o.Done? ==> KeepsMarks(c, o.chan)
  {
    var o := SendRemove(c, id, res);
    if o.Done? { KeepsPointwise(c, o.chan, o.chan.htlcs); }
  }

  lemma {:induction false} FlushKeepsMarks(c: Chan, ops: seq<HoldingOp>)
    ensures KeepsMarks(c, Flush(c, ops).chan)
    decreases |ops|
  {
    if ops == [] {
      KeepsPointwise(c, c, c.htlcs);
    } else {
      var n := |ops| - 1;
      FlushKeepsMarks(c, ops[..n]);
      var f := Flush(c, ops[..n]);
      match ops[n]
      case HoldAdd(amount, paymentHash, cltvExpiry, onion, source) =>
        SendAddKeepsMarks(f.chan, amount, paymentHash, cltvExpiry, onion, source);
        if SendAdd(f.chan, amount, paymentHash, cltvExpiry, onion, source).Done? {
          KeepsTrans(c, f.chan, SendAdd(f.chan, amount, paymentHash, cltvExpiry, onion, source).chan);
        }
      case HoldRemove(id, res) =>
        SendRemoveKeepsMarks(f.chan, id, res);
        if SendRemove(f.chan, id, res).Done? { KeepsTrans(c, f.chan, SendRemove(f.chan, id, res).chan); }
    }
  }

  lemma {:induction false} ApplyIncludedMarks(htlcs: seq<Htlc>, keys: seq<Key>)
    ensures forall i | 0 <= i < |htlcs| :: SameIdentity(htlcs[i], ApplyIncluded(htlcs, keys)[i])
    decreases |keys|
  {
    if keys != [] { ApplyIncludedMarks(htlcs, keys[..|keys| - 1]); }
  }

  lemma {:induction false} ApplyRemovedMarks(htlcs: seq<Htlc>, keys: seq<Key>)
    ensures forall i | 0 <= i < |htlcs| :: SameIdentity(htlcs[i], ApplyRemoved(htlcs, keys)[i])
    decreases |keys|
  {
    if keys != [] { ApplyRemovedMarks(htlcs, keys[..|keys| - 1]); }
  }

  predicate SameIdentity(x: Htlc, y: Htlc) {
    y.outbound == x.outbound && y.id == x.id && y.processed == x.processed
  }

  /** After a revocation the reported HTLCs are marked, and marks are kept. */
  lemma RevokeKeepsMarks(c: Chan, m: Message)
    requires m.RevokeAndAck? && OnRevokeAndAck(c, m).Done?
    ensures KeepsMarks(c, Revoke(c, m).chan)
    ensures var c1 := Revoke(c, m).chan;
            KeepsMarks(c1.(htlcs := MarkProcessed(c1.htlcs)), OnRevokeAndAck(c, m).chan)
  {
    var c1 := Revoke(c, m).chan;
    var p := c.pending.value;
    ApplyIncludedMarks(c.htlcs, p.included);
    ApplyRemovedMarks(ApplyIncluded(c.htlcs, p.included), p.removed);
    var marked := ApplyRemoved(ApplyIncluded(c.htlcs, p.included), p.removed);
    forall i | 0 <= i < |marked| ensures SameIdentity(c.htlcs[i], marked[i]) {
      assert SameIdentity(c.htlcs[i], ApplyIncluded(c.htlcs, p.included)[i]);
    }
    KeepsPointwise(c, c1, marked);
    var c2 := c1.(htlcs := MarkProcessed(c1.htlcs), holdingCell := []);
    FlushKeepsMarks(c2, c1.holdingCell);
    var f := Flush(c2, c1.holdingCell).chan;
    var c3 := OnRevokeAndAck(c, m).chan;
    assert c3.htlcs == f.htlcs && c3.nextCounterpartyId == f.nextCounterpartyId;
    forall j | 0 <= j < |c3.htlcs| ensures MarkKept(c1.(htlcs := MarkProcessed(c1.htlcs)), c3.htlcs[j]) {
      assert MarkKept(c2, f.htlcs[j]);
    }
  }

  lemma OtherEventsKeepMarks(c: Chan, e: Event)
    requires !(e.Receive? && e.message.RevokeAndAck?)
    ensures KeepsMarks(c, React(c, e).chan) && React(c, e).forwardable == []
  {
    var c' := React(c, e).chan;
    match e
    case LocalAdd(amount, paymentHash, cltvExpiry, onion, source) =>
      SendAddKeepsMarks(c, amount, paymentHash, cltvExpiry, onion, source);
      KeepsPointwise(c, c, c.htlcs);
    case LocalRemove(id, res) =>
      SendRemoveKeepsMarks(c, id, res);
      KeepsPointwise(c, c, c.htlcs);
    case LocalFee(_) => KeepsPointwise(c, c', c.htlcs);
    case LocalSign => KeepsPointwise(c, c', c.htlcs);
    case Receive(m) => PeerMessageKeepsMarks(c, m);
  }

  lemma PeerMessageKeepsMarks(c: Chan, m: Message)
    requires !m.RevokeAndAck?
    ensures KeepsMarks(c, Deliver(c, m).chan)
  {
    hide InboundAddAllowed, LockAll, OnCommitmentSigned;
    var c' := Deliver(c, m).chan;
    match m
    case UpdateAddHtlc(_, _, _, _, _) =>
      if OnUpdateAdd(c, m).Done? { KeepsAppend(c, c', c'.htlcs[|c.htlcs|]); } else { KeepsPointwise(c, c, c.htlcs); }
    case UpdateRemoveHtlc(_, _) => KeepsPointwise(c, c', c'.htlcs);
    case UpdateFee(_) => KeepsPointwise(c, c', c.htlcs);
    case CommitmentSigned(_) =>
      if OnCommitmentSigned(c, m).Done? { LockKeepsMarks(c, m); } else { KeepsPointwise(c, c, c.htlcs); }
  }

  lemma LockIdentity(x: Htlc)
    ensures SameIdentity(x, Acknowledged(Locked(x)))
  {
  }

  lemma LockKeepsMarks(c: Chan, m: Message)
    requires m.CommitmentSigned? && OnCommitmentSigned(c, m).Done?
    ensures KeepsMarks(c, OnCommitmentSigned(c, m).chan)
  {
    var c' := OnCommitmentSigned(c, m).chan;
    assert c'.htlcs == Kept(LockAll(c.htlcs)) && c'.nextCounterpartyId == c.nextCounterpartyId;
    LockedListKeepsMarks(c, c');
  }

  lemma LockedListKeepsMarks(c: Chan, c': Chan)
    requires c'.htlcs == Kept(LockAll(c.htlcs)) && c'.nextCounterpartyId == c.nextCounterpartyId
    ensures KeepsMarks(c, c')
  {
    var marked := LockAll(c.htlcs);
    forall i | 0 <= i < |marked| ensures SameIdentity(c.htlcs[i], marked[i]) {
      LockIdentity(c.htlcs[i]);
    }
    KeepsPointwise(c, c', marked);
  }

  /** `ids` have been reported: they are old, and marked wherever still listed. */
  ghost predicate Accounted(c: Chan, reported: seq<Forwardable>) {
    forall k | 0 <= k < |reported| :: IdAccounted(c, reported[k].id)
  }

  ghost predicate IdAccounted(c: Chan, id: nat) {
    id < c.nextCounterpartyId &&
    forall i | 0 <= i < |c.htlcs| :: !c.htlcs[i].outbound && c.htlcs[i].id == id ==> c.htlcs[i].processed
  }

  lemma AccountedKept(c: Chan, c': Chan, id: nat)
    requires IdAccounted(c, id) && KeepsMarks(c, c')
    ensures IdAccounted(c', id)
  {
    forall j | 0 <= j < |c'.htlcs| && !c'.htlcs[j].outbound && c'.htlcs[j].id == id ensures c'.htlcs[j].processed {
      assert MarkKept(c, c'.htlcs[j]);
    }
  }

  ghost predicate DistinctIds(reported: seq<Forwardable>) {
    forall i, j | 0 <= i < j < |reported| :: reported[i].id != reported[j].id
  }

  lemma {:induction false} CollectedDistinct(htlcs: seq<Htlc>)
    requires forall i, j | 0 <= i < j < |htlcs| && !htlcs[i].outbound && !htlcs[j].outbound :: htlcs[i].id != htlcs[j].id
    ensures DistinctIds(CollectForwardable(htlcs))
    decreases |htlcs|
  {
    if htlcs != [] {
      var n := |htlcs| - 1;
      CollectedDistinct(htlcs[..n]);
      var old' := CollectForwardable(htlcs[..n]);
      if ReadyToForward(htlcs[n]) {
        forall k | 0 <= k < |old'| ensures old'[k].id != htlcs[n].id {
          var i := CollectedFrom(htlcs[..n], k);
          assert htlcs[i] == htlcs[..n][i];
        }
      }
    }
  }

  /** What was accounted for stays so across a revocation. */
  lemma RevokeAccountsOld(c: Chan, m: Message, id: nat)
    requires m.RevokeAndAck? && OnRevokeAndAck(c, m).Done? && IdAccounted(c, id)
    ensures IdAccounted(Revoke(c, m).chan, id) && IdAccounted(OnRevokeAndAck(c, m).chan, id)
  {
    RevokeKeepsMarks(c, m);
    var c1 := Revoke(c, m).chan;
    var c2 := c1.(htlcs := MarkProcessed(c1.htlcs));
    AccountedKept(c, c1, id);
    forall i | 0 <= i < |c2.htlcs| && !c2.htlcs[i].outbound && c2.htlcs[i].id == id ensures c2.htlcs[i].processed {
      assert c1.htlcs[i].id == id;
    }
    AccountedKept(c2, OnRevokeAndAck(c, m).chan, id);
  }

  /** Each reported id becomes accounted for, and was not before. */
  lemma RevokeAccountsNew(c: Chan, g: History, m: Message, k: nat)
    requires Inv(c, g) && m.RevokeAndAck? && OnRevokeAndAck(c, m).Done?
    requires k < |OnRevokeAndAck(c, m).value.forwardable|
    ensures var id := OnRevokeAndAck(c, m).value.forwardable[k].id;
            IdAccounted(OnRevokeAndAck(c, m).chan, id) && !IdAccounted(Revoke(c, m).chan, id)
  {
    hide Inv;
    RevokeKeeps(c, g, m);
    RevokeKeepsMarks(c, m);
    var c1 := Revoke(c, m).chan;
    var g1 := AfterRevoke(g, RaaMarked(c));
    ReportedNow(c1, g1, k);
    AccountedKept(c1.(htlcs := MarkProcessed(c1.htlcs)), OnRevokeAndAck(c, m).chan,
                  OnRevokeAndAck(c, m).value.forwardable[k].id);
    var i := CollectedFrom(c1.htlcs, k);
    assert !c1.htlcs[i].processed;
  }

  lemma RevokeReportsDistinct(c: Chan, g: History, m: Message)
    requires Inv(c, g) && m.RevokeAndAck? && OnRevokeAndAck(c, m).Done?
    ensures DistinctIds(OnRevokeAndAck(c, m).value.forwardable)
  {
    hide Inv, Recorded, Flush, MarkProcessed, CollectForwardable;
    assert c.pending.Some? && Revoke(c, m).Done?;
    RevokeKeeps(c, g, m);
    hide Revoke;
    InvParts(Revoke(c, m).chan, AfterRevoke(g, RaaMarked(c)));
    var c1 := Revoke(c, m).chan;
    forall i, j | 0 <= i < j < |c1.htlcs| && !c1.htlcs[i].outbound && !c1.htlcs[j].outbound
      ensures c1.htlcs[i].id != c1.htlcs[j].id
    { DistinctKeys(c1, AfterRevoke(g, RaaMarked(c)), i, j); }
    CollectedDistinct(c1.htlcs);
  }

  lemma RevokeAccountsAll(c: Chan, g: History, m: Message, reported: seq<Forwardable>, k: nat)
    requires Inv(c, g) && m.RevokeAndAck? && OnRevokeAndAck(c, m).Done? && Accounted(c, reported)
    requires k < |reported + OnRevokeAndAck(c, m).value.forwardable|
    ensures IdAccounted(OnRevokeAndAck(c, m).chan, (reported + OnRevokeAndAck(c, m).value.forwardable)[k].id)
  {
    hide Inv, OnRevokeAndAck, Revoke;
    if k < |reported| {
      assert IdAccounted(c, reported[k].id);
      RevokeAccountsOld(c, m, reported[k].id);
    } else {
      RevokeAccountsNew(c, g, m, k - |reported|);
    }
  }

  lemma RevokeReportsFresh(c: Chan, g: History, m: Message, reported: seq<Forwardable>, i: nat, j: nat)
    requires Inv(c, g) && m.RevokeAndAck? && OnRevokeAndAck(c, m).Done? && Accounted(c, reported)
    requires i < |reported| && j < |OnRevokeAndAck(c, m).value.forwardable|
    ensures reported[i].id != OnRevokeAndAck(c, m).value.forwardable[j].id
  {
    hide Inv, OnRevokeAndAck, Revoke;
    assert IdAccounted(c, reported[i].id);
    RevokeAccountsOld(c, m, reported[i].id);
    RevokeAccountsNew(c, g, m, j);
  }

  /** One revocation reports fresh, distinct ids and accounts for them. */
  lemma RevokeReports(c: Chan, g: History, m: Message, reported: seq<Forwardable>)
    requires Inv(c, g) && m.RevokeAndAck? && OnRevokeAndAck(c, m).Done?
    requires Accounted(c, reported) && DistinctIds(reported)
    ensures var fwd := OnRevokeAndAck(c, m).value.forwardable;
            Accounted(OnRevokeAndAck(c, m).chan, reported + fwd) && DistinctIds(reported + fwd)
  {
    hide Inv, OnRevokeAndAck, Revoke;
    var fwd := OnRevokeAndAck(c, m).value.forwardable;
    var c3 := OnRevokeAndAck(c, m).chan;
    forall k | 0 <= k < |reported + fwd| ensures IdAccounted(c3, (reported + fwd)[k].id) {
      RevokeAccountsAll(c, g, m, reported, k);
    }
    RevokeReportsDistinct(c, g, m);
    forall i, j | 0 <= i < |reported| && 0 <= j < |fwd| ensures reported[i].id != fwd[j].id {
      RevokeReportsFresh(c, g, m, reported, i, j);
    }
    DistinctCat(reported, fwd);
  }

  lemma DistinctCat(s: seq<Forwardable>, t: seq<Forwardable>)
    requires DistinctIds(s) && DistinctIds(t)
    requires forall i, j | 0 <= i < |s| && 0 <= j < |t| :: s[i].id != t[j].id
    ensures DistinctIds(s + t)
  {
  }

  lemma ReportedNow(c: Chan, g: History, k: nat)
    requires Inv(c, g) && k < |CollectForwardable(c.htlcs)|
    ensures IdAccounted(c.(htlcs := MarkProcessed(c.htlcs)), CollectForwardable(c.htlcs)[k].id)
  {
    hide Indexed, Metered, Solvent, FeesAgree, Stored;
    var i := CollectedFrom(c.htlcs, k);
    assert RecordAgrees(g, c.htlcs[i]);
    var marked := MarkProcessed(c.htlcs);
    forall j | 0 <= j < |marked| && !marked[j].outbound && marked[j].id == c.htlcs[i].id ensures marked[j].processed {
      UniqueKeys(c, g, i, j);
    }
  }

  lemma {:induction false} ReportedAccounted(c0: Chan, events: seq<Event>)
    requires Fresh(c0)
    ensures Accounted(Run(c0, events), Reported(c0, events)) && DistinctIds(Reported(c0, events))
    decreases |events|
  {
    hide Inv, Fresh, OnRevokeAndAck, OnCommitmentSigned, SendAdd, SendRemove, SendCommitmentSigned, OnUpdateAdd;
    if events != [] {
      var n := |events| - 1;
      ReportedAccounted(c0, events[..n]);
      var c := Run(c0, events[..n]);
      var reported := Reported(c0, events[..n]);
      var e := events[n];
      if e.Receive? && e.message.RevokeAndAck? && OnRevokeAndAck(c, e.message).Done? {
        var g := RunInv(c0, events[..n]);
        RevokeReports(c, g, e.message, reported);
      } else {
        if !(e.Receive? && e.message.RevokeAndAck?) { OtherEventsKeepMarks(c, e); } else { KeepsPointwise(c, c, c.htlcs); }
        assert React(c, e).forwardable == [] && reported + [] == reported;
        forall k | 0 <= k < |reported| ensures IdAccounted(React(c, e).chan, reported[k].id) {
          assert IdAccounted(c, reported[k].id);
          AccountedKept(c, React(c, e).chan, reported[k].id);
        }
      }
    }
  }

  /** Over a whole run against any peer, no inbound HTLC is handed to the node
      layer twice. */
  lemma HandedOverAtMostOnce(c0: Chan, events: seq<Event>, i: nat, j: nat)
    requires Fresh(c0) && i < j < |Reported(c0, events)|
    ensures Reported(c0, events)[i].id != Reported(c0, events)[j].id
  {
    ReportedAccounted(c0, events);
  }
}
