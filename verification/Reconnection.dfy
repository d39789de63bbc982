/**
 * A disconnection with nothing left to sign. Everything the channel then knows
 * is again what its logs describe, without the updates the peer had not signed
 * for, so that every property of a channel's runs goes on holding after it.
 */
module Reconnection {
  import opened Wrappers
  import opened Channel
  import opened Sums
  import opened Ledger
  import opened LedgerFacts
  import opened LedgerUpdates
  import opened LedgerCommits
  import opened ChannelRuns
  import opened Rollback
  import opened Limits
  import opened Disconnection

  /** Nothing to sign, and no unsigned add of the peer with the data of a signed one. */
  predicate Calm(c: Chan) {
    && !c.dirty
    && forall i | 0 <= i < |c.htlcs| && !c.htlcs[i].outbound && c.htlcs[i].phaseHolder.Pending? :: !InOurCurrent(c, c.htlcs[i])
  }

  lemma CalmClean(c: Chan, g: History, i: nat)
    requires Inv(c, g) && Calm(c) && i < |c.htlcs|
    ensures Clean(c, c.htlcs[i]) && Counted(c, g) && InRange(g, c.htlcs[i])
    ensures c.htlcs[i].outbound ==> AddSigned(g, c.htlcs[i])
  {
    PlacedAt(c, g, i);
    InvCounts(c, g);
    hide Inv, InOurCurrent;
    PlacedClean(c, g, c.htlcs[i]);
  }

  lemma PlacedClean(c: Chan, g: History, x: Htlc)
    requires Counted(c, g) && Placed(c, g, x) && !c.dirty
    requires !x.outbound && x.phaseHolder.Pending? ==> !InOurCurrent(c, x)
    ensures Clean(c, x)
    ensures x.outbound ==> AddSigned(g, x)
  {
  }

  /** With nothing left to sign only unsigned adds that look like signed ones are mistaken. */
  lemma CalmIsClean(c0: Chan, events: seq<Event>)
    requires Fresh(c0) && Calm(Run(c0, events))
    ensures CleanBreak(Run(c0, events))
  {
    var g := RunBounded(c0, events);
    hide Run, Fresh, Inv, Bounded, Calm, Clean;
    var c := Run(c0, events);
    forall i | 0 <= i < |c.htlcs| ensures Clean(c, c.htlcs[i]) {
      CalmClean(c, g, i);
    }
    CalmFees(c, g);
  }

  lemma CalmFees(c: Chan, g: History)
    requires Inv(c, g) && Calm(c)
    ensures c.role.Opener? && !c.awaitingRaa ==> c.feerateHolder == c.feerateCounterparty
  {
    hide Indexed, Recorded, Metered, Solvent, Stored;
  }

  // ------------------------------------------------------ the parts of the invariant

  lemma SignedShorter(c: Chan, g: History)
    requires Counted(c, g)
    ensures var t := SignedOnly(g);
            && Extends(t, g) && |t.sent| == g.ownSigned && |t.recv| == g.peerLocked
            && t.ownLocked == g.ownLocked && t.ownAcked == g.ownAcked && t.ownSigned == g.ownSigned
            && t.peerFinal == g.peerFinal && t.peerSigned == g.peerSigned && t.peerLocked == g.peerLocked
  {
  }

  lemma SignedIndexed(c: Chan, g: History)
    requires Counted(c, g) && Indexed(g) && InSequence(g.outIx) && InSequence(g.inIx)
    ensures Indexed(SignedOnly(g))
  {
    hide InSequence;
    var t := SignedOnly(g);
    CutIndex(g.outIx, g.sent, g.recv, g.ownLocked, g.ownSigned, g.peerLocked);
    CutIndex(g.inIx, g.recv, g.sent, g.peerFinal, g.peerLocked, g.ownSigned);
  }

  lemma CutIndex(ixs: seq<Ix>, adds: seq<Update>, rems: seq<Update>, final: nat, a: nat, b: nat)
    requires IndexAgrees(ixs, adds, rems, final) && InSequence(ixs) && final <= a <= |adds| && b <= |rems|
    ensures IndexAgrees(CutTable(ixs, a, b), adds[..a], rems[..b], final)
  {
    CountBelowIs(ixs, a);
    hide InSequence;
    var cut := CutTable(ixs, a, b);
    forall id | 0 <= id < |cut| ensures AddAgrees(cut[id], id, adds[..a]) && RemAgrees(cut[id], id, adds[..a], rems[..b], final) {
      assert AddAgrees(ixs[id], id, adds) && RemAgrees(ixs[id], id, adds, rems, final);
    }
    forall i | 0 <= i < b && rems[i].Remove? ensures rems[i].id < |cut| && cut[rems[i].id].rem == Some(i) {
      assert RemAgrees(ixs[rems[i].id], rems[i].id, adds, rems, final);
    }
  }

  lemma SignedSolvent(c: Chan, g: History)
    requires Counted(c, g) && Solvent(g)
    ensures Solvent(SignedOnly(g))
  {
    var t := SignedOnly(g);
    SignedShorter(c, g);
    forall a | 0 <= a <= |t.sent| ensures OwnSolventAt(t, a) {
      assert OwnSolventAt(g, a);
      assert SentLevelAt(t, a) == SentLevelAt(g, a) <= g.peerLocked;
      OwnBalanceExtends(t, g, a, SentLevelAt(t, a));
    }
    forall b | 0 <= b <= |t.recv| ensures PeerSolventAt(t, b) {
      assert PeerSolventAt(g, b);
      assert RecvLevelAt(t, b) == RecvLevelAt(g, b) <= g.ownAcked;
      OwnBalanceExtends(t, g, RecvLevelAt(t, b), b);
    }
  }

  lemma ReflectsSigned(v: Commitment, role: Role, c: Chan, g: History, holderSide: bool, a: nat, b: nat)
    requires Counted(c, g) && a <= g.ownSigned && b <= g.peerLocked && Reflects(v, role, g, holderSide, a, b)
    ensures Reflects(v, role, SignedOnly(g), holderSide, a, b)
  {
    SignedShorter(c, g);
    hide SignedOnly;
    var t := SignedOnly(g);
    OwnBalanceExtends(t, g, a, b);
    FeeExtends(role, t, g, a, b);
    forall out ensures Reading(OutputMeter(out, holderSide), t, a, b) == v.htlcs[out] {
      ReadingExtends(OutputMeter(out, holderSide), t, g, a, b);
    }
  }

  /** What a kept HTLC adds to a meter is what it added; a forgotten one added nothing. */
  lemma KeptShare(c: Chan, g: History, x: Htlc, mt: Meter, a: nat, b: nat)
    requires Counted(c, g) && Placed(c, g, x) && InTables(g, x) && Clean(c, x)
    requires a <= g.ownSigned && b <= g.peerLocked
    ensures var v := Judged(c, x);
            (if v.kept.Some? then Share(mt, SignedOnly(g), v.kept.value, a, b) else 0) == Share(mt, g, x, a, b)
  {
    hide CutTable;
  }

  /** Every listed HTLC is in its place, and clean. */
  ghost predicate AllPlaced(c: Chan, g: History)
    requires Counted(c, g)
  {
    forall i | 0 <= i < |c.htlcs| :: Placed(c, g, c.htlcs[i]) && InTables(g, c.htlcs[i]) && Clean(c, c.htlcs[i])
  }

  lemma RetainedSnoc(c: Chan, n: nat)
    requires n < |c.htlcs|
    ensures var v := Judged(c, c.htlcs[n]);
            Retained(c, c.htlcs[..n + 1]) == Retained(c, c.htlcs[..n]) + if v.kept.Some? then [v.kept.value] else []
  {
    hide Judged;
    assert c.htlcs[..n + 1][..n] == c.htlcs[..n];
  }

  lemma KeptSumStep(c: Chan, g: History, mt: Meter, a: nat, b: nat, n: nat)
    requires Counted(c, g) && n < |c.htlcs| && a <= g.ownSigned && b <= g.peerLocked
    requires Placed(c, g, c.htlcs[n]) && InTables(g, c.htlcs[n]) && Clean(c, c.htlcs[n])
    ensures ListSum(mt, SignedOnly(g), Retained(c, c.htlcs[..n + 1]), a, b) - ListSum(mt, SignedOnly(g), Retained(c, c.htlcs[..n]), a, b)
            == ListSum(mt, g, c.htlcs[..n + 1], a, b) - ListSum(mt, g, c.htlcs[..n], a, b)
  {
    KeptShare(c, g, c.htlcs[n], mt, a, b);
    var t := SignedOnly(g);
    hide Judged, Share, Placed, Clean, Retained, ListSum, Counted, InTables, SignedOnly;
    ListSumSnoc(mt, g, c.htlcs, n, a, b);
    RetainedSnoc(c, n);
    var before, kept := Retained(c, c.htlcs[..n]), Retained(c, c.htlcs[..n + 1]);
    if |kept| > |before| {
      assert kept[..|before|] == before && kept[..|before| + 1] == kept;
      ListSumSnoc(mt, t, kept, |before|, a, b);
    } else {
      assert kept == before;
    }
  }

  lemma {:induction false} KeptSum(c: Chan, g: History, mt: Meter, a: nat, b: nat, n: nat)
    requires Counted(c, g) && AllPlaced(c, g) && n <= |c.htlcs|
    requires a <= g.ownSigned && b <= g.peerLocked
    ensures ListSum(mt, SignedOnly(g), Retained(c, c.htlcs[..n]), a, b) == ListSum(mt, g, c.htlcs[..n], a, b)
    decreases n
  {
    if n > 0 {
      hide Placed, Clean, Retained, ListSum, Counted, InTables, SignedOnly;
      KeptSum(c, g, mt, a, b, n - 1);
      KeptSumStep(c, g, mt, a, b, n - 1);
    }
  }

  lemma SignedMetered(c: Chan, g: History)
    requires Counted(c, g) && AllPlaced(c, g) && Metered(c, g)
    ensures Metered(OnDisconnect(c), SignedOnly(g))
  {
    hide AllPlaced, Retained;
    var d, t := OnDisconnect(c), SignedOnly(g);
    SignedShorter(c, g);
    forall mt: Meter, a: nat, b: nat ensures MeterAgrees(d, t, mt, a, b) {
      if g.ownLocked <= a <= |t.sent| && g.peerFinal <= b <= |t.recv| {
        assert MeterAgrees(c, g, mt, a, b);
        KeptSum(c, g, mt, a, b, |c.htlcs|);
        assert c.htlcs[..|c.htlcs|] == c.htlcs;
        ReadingExtends(mt, t, g, a, b);
      }
    }
  }

  lemma KeptSnapshot(c: Chan, g: History, x: Htlc)
    requires Counted(c, g) && Placed(c, g, x) && InTables(g, x) && Clean(c, x)
    requires c.pending.Some? && Judged(c, x).kept.Some?
    ensures SnapshotAgrees(c.pending.value, SignedOnly(g), Judged(c, x).kept.value)
  {
    hide CutTable;
  }

  lemma SnapshotsKept(c: Chan, g: History)
    requires Counted(c, g) && AllPlaced(c, g) && c.pending.Some?
    ensures var d := OnDisconnect(c);
            forall i | 0 <= i < |d.htlcs| :: SnapshotAgrees(c.pending.value, SignedOnly(g), d.htlcs[i])
  {
    hide Judged, Placed, Clean, SnapshotAgrees;
    var d := OnDisconnect(c);
    assert c.htlcs[..|c.htlcs|] == c.htlcs;
    forall k | 0 <= k < |d.htlcs| ensures SnapshotAgrees(c.pending.value, SignedOnly(g), d.htlcs[k]) {
      KeptFrom(c, |c.htlcs|, d.htlcs[k]);
      var i: nat :| i < |c.htlcs| && From(c, d.htlcs[k], i);
      KeptSnapshot(c, g, c.htlcs[i]);
    }
  }

  /** What the snapshot names was added by signed updates. */
  lemma KeysSigned(c: Chan, g: History)
    requires Counted(c, g) && Indexed(g) && Recorded(c, g) && AllPlaced(c, g) && c.pending.Some?
    requires InSequence(g.outIx) && InSequence(g.inIx) && KeysKnown(c.pending.value, g)
    ensures KeysKnown(c.pending.value, SignedOnly(g))
  {
    hide Clean;
    CountBelowIs(g.outIx, g.ownSigned);
    CountBelowIs(g.inIx, g.peerLocked);
    var p := c.pending.value;
    forall k | k in p.included + p.removed ensures k.id < if k.outbound then |SignedOnly(g).outIx| else |SignedOnly(g).inIx| {
      KeySigned(c, g, k);
    }
    assert forall k | k in p.included :: k in p.included + p.removed;
    assert forall k | k in p.removed :: k in p.included + p.removed;
  }

  lemma KeySigned(c: Chan, g: History, k: Key)
    requires Counted(c, g) && Indexed(g) && Recorded(c, g) && AllPlaced(c, g) && c.pending.Some?
    requires k in c.pending.value.included + c.pending.value.removed
    requires k.id < if k.outbound then |g.outIx| else |g.inIx|
    ensures if k.outbound then g.outIx[k.id].add < g.ownSigned else g.inIx[k.id].add < g.peerLocked
  {
    hide Clean, RecordAgrees, InOrder;
    var found := Find(c.htlcs, k.outbound, k.id);
    if k.outbound {
      assert RemAgrees(g.outIx[k.id], k.id, g.sent, g.recv, g.ownLocked);
      assert OutGone(g, g.outIx[k.id]) || found.Some?;
    } else {
      assert RemAgrees(g.inIx[k.id], k.id, g.recv, g.sent, g.peerFinal);
      assert InGone(g, g.inIx[k.id]) || found.Some?;
    }
    if found.Some? {
      assert Placed(c, g, c.htlcs[found.value]);
    }
  }

  lemma SignedStored(c: Chan, g: History)
    requires Counted(c, g) && Indexed(g) && Recorded(c, g) && AllPlaced(c, g) && Stored(c, g)
    requires InSequence(g.outIx) && InSequence(g.inIx)
    ensures Stored(OnDisconnect(c), SignedOnly(g))
  {
    hide AllPlaced, Indexed, Recorded, Reflects, KeysKnown, SnapshotAgrees, InSequence;
    SignedShorter(c, g);
    ReflectsSigned(c.currentHolder.value, c.role, c, g, true, g.ownLocked, g.peerLocked);
    ReflectsSigned(c.currentCounterparty.value, c.role, c, g, false, g.ownAcked, g.peerFinal);
    if c.pending.Some? {
      ReflectsSigned(c.pending.value.info, c.role, c, g, false, g.ownSigned, g.peerSigned);
      KeysSigned(c, g);
      SnapshotsKept(c, g);
    }
  }

  lemma SignedFees(c: Chan, g: History)
    requires Counted(c, g) && FeesAgree(c, g) && !c.dirty
    ensures Counted(OnDisconnect(c), SignedOnly(g)) ==> FeesAgree(OnDisconnect(c), SignedOnly(g))
  {
    var t := SignedOnly(g);
    LastFeePrefix(t.sent, g.sent, g.ownAcked, g.initialFeerate);
    LastFeePrefix(t.sent, g.sent, g.ownSigned, g.initialFeerate);
    LastFeePrefix(t.recv, g.recv, g.peerLocked, g.initialFeerate);
    LastFeePrefix(t.recv, g.recv, g.peerSigned, g.initialFeerate);
    if c.pendingFeeAck.None? { LastFeeSkip(g.recv, g.peerLocked, |g.recv|, g.initialFeerate); }
  }

  // ---------------------------------------------------------------- the theorem

  lemma CalmPlaced(c: Chan, g: History)
    requires Inv(c, g) && Calm(c) && InSequence(g.outIx) && InSequence(g.inIx)
    ensures Counted(c, g) && AllPlaced(c, g)
    ensures forall i | 0 <= i < |c.htlcs| && c.htlcs[i].outbound :: InRange(g, c.htlcs[i]) && AddSigned(g, c.htlcs[i])
  {
    InvCounts(c, g);
    hide Inv, Calm, Clean, Placed, InSequence, InTables;
    forall i | 0 <= i < |c.htlcs|
      ensures Placed(c, g, c.htlcs[i]) && InTables(g, c.htlcs[i]) && Clean(c, c.htlcs[i])
      ensures c.htlcs[i].outbound ==> AddSigned(g, c.htlcs[i])
    {
      PlacedAt(c, g, i);
      CalmClean(c, g, i);
      TablesAgree(c, g, c.htlcs[i]);
    }
  }

  lemma CalmCounted(c: Chan, g: History)
    requires Counted(c, g) && !c.dirty
    requires c.nextHolderId == |SignedOnly(g).outIx| && OnDisconnect(c).nextCounterpartyId == |SignedOnly(g).inIx|
    ensures Counted(OnDisconnect(c), SignedOnly(g))
  {
    hide Retained, NextExpected, Requeued, CutTable;
  }

  lemma CalmForgets(c: Chan, g: History)
    requires Inv(c, g) && Calm(c) && Bounded(c.params, g)
    ensures Counted(c, g) && Forgotten(OnDisconnect(c), SignedOnly(g))
  {
    hide Inv, Forgotten, Clean, Bounded;
    forall i | 0 <= i < |c.htlcs| ensures Clean(c, c.htlcs[i]) {
      CalmClean(c, g, i);
    }
    CalmFees(c, g);
    ForgetsAt(c, g);
  }

  /** The state after a calm break is the one that the logs, without what was unsigned, describe. */
  lemma CalmKeeps(c: Chan, g: History)
    requires Inv(c, g) && Calm(c) && Bounded(c.params, g)
    ensures Inv(OnDisconnect(c), SignedOnly(g))
  {
    CalmForgets(c, g);
    InvAll(c, g);
    hide Inv, Calm, InSequence, Recorded, Indexed, Metered, Solvent, FeesAgree, Stored, LiveWithin, StakesKept;
    hide AllPlaced, OnDisconnect, SignedOnly;
    CalmPlaced(c, g);
    CalmCounted(c, g);
    SignedIndexed(c, g);
    SignedMetered(c, g);
    SignedSolvent(c, g);
    SignedFees(c, g);
    SignedStored(c, g);
    InvFrom(OnDisconnect(c), SignedOnly(g));
  }

  lemma InvAll(c: Chan, g: History)
    requires Inv(c, g)
    ensures Counted(c, g) && Indexed(g) && Recorded(c, g) && Metered(c, g) && Solvent(g) && FeesAgree(c, g) && Stored(c, g)
  {
  }

  lemma InvFrom(c: Chan, g: History)
    requires Counted(c, g) && Indexed(g) && Recorded(c, g) && Metered(c, g) && Solvent(g) && FeesAgree(c, g) && Stored(c, g)
    ensures Inv(c, g)
  {
  }

  lemma {:induction false} RunOn(c: Chan, g0: History, events: seq<Event>) returns (g: History)
    requires Inv(c, g0)
    ensures Inv(Run(c, events), g) && g.initial == g0.initial
    decreases |events|
  {
    if events == [] {
      g := g0;
    } else {
      hide React, Inv;
      var n := |events| - 1;
      g := RunOn(c, g0, events[..n]);
      g := ReactKeeps(Run(c, events[..n]), g, events[n]);
    }
  }

  /**
   * Money is conserved across a calm break, whatever happens before and after it: against any
   * peer, either side's next commitment still accounts for all of the channel's money.
   */
  lemma ConservedAcrossBreak(c0: Chan, events: seq<Event>, more: seq<Event>, holderSide: bool)
    requires Fresh(c0) && Calm(Run(c0, events))
    ensures var c := Run(OnDisconnect(Run(c0, events)), more);
            && BalancesFor(c, holderSide).holder + BalancesFor(c, holderSide).counterparty +
               IncludedAmount(c.htlcs, holderSide) == c0.base.holder + c0.base.counterparty
            && c.base.holder + c.base.counterparty == c0.base.holder + c0.base.counterparty
  {
    var g := RunBounded(c0, events);
    hide Run, Fresh, Inv, Bounded, Calm, OnDisconnect;
    var b := Run(c0, events);
    CalmKeeps(b, g);
    var g' := RunOn(OnDisconnect(b), SignedOnly(g), more);
    ConservedAt(Run(OnDisconnect(b), more), g', holderSide);
  }

  lemma ConservedAt(c: Chan, g: History, holderSide: bool)
    requires Inv(c, g)
    ensures BalancesFor(c, holderSide).holder + BalancesFor(c, holderSide).counterparty +
            IncludedAmount(c.htlcs, holderSide) == g.initial.holder + g.initial.counterparty
    ensures c.base.holder + c.base.counterparty == g.initial.holder + g.initial.counterparty
  {
    InvAll(c, g);
    hide Inv, Recorded, Indexed, Solvent, FeesAgree, Stored;
    NeverSaturates(c, g, holderSide, |c.htlcs|);
    assert c.htlcs[..|c.htlcs|] == c.htlcs;
    ExactPlusEscrow(c.base, c.htlcs, holderSide);
    BaseConserved(c, g);
  }
}
