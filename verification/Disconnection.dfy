/**
 * What rolling back at a disconnection achieves. Its purpose is to leave the
 * state in which the updates no signed commitment covers were never made; it
 * does so exactly under a condition the state itself shows, and honest parties
 * fail each other on reconnecting when it does not.
 */
module Disconnection {
  import opened Wrappers
  import opened Channel
  import opened Ledger
  import opened LedgerUpdates
  import opened LedgerCommits
  import opened ChannelRuns
  import opened Rollback
  import opened Limits

  // --------------------------------------------- the logs without what was unsigned

  /** How many entries, the first ones, were added below `limit`. */
  function CountBelow(ixs: seq<Ix>, limit: nat): (n: nat)
    ensures n <= |ixs|
  {
    if ixs == [] then 0
    else CountBelow(ixs[..|ixs| - 1], limit) + if ixs[|ixs| - 1].add < limit then 1 else 0
  }

  lemma {:induction false} AllBelow(ixs: seq<Ix>, n: nat, limit: nat)
    requires n <= |ixs| && forall id | 0 <= id < n :: ixs[id].add < limit
    ensures CountBelow(ixs[..n], limit) == n
  {
    if n > 0 {
      AllBelow(ixs, n - 1, limit);
      assert ixs[..n][..n - 1] == ixs[..n - 1];
    }
  }

  lemma {:induction false} CountBelowIs(ixs: seq<Ix>, limit: nat)
    requires InSequence(ixs)
    ensures forall id | 0 <= id < |ixs| :: id < CountBelow(ixs, limit) <==> ixs[id].add < limit
    decreases |ixs|
  {
    if ixs != [] {
      var n := |ixs| - 1;
      CountBelowIs(ixs[..n], limit);
      forall id | 0 <= id < |ixs| ensures id < CountBelow(ixs, limit) <==> ixs[id].add < limit {
        if id < n { assert ixs[..n][id] == ixs[id]; }
        if ixs[n].add < limit {
          AllBelow(ixs, n, limit);
        }
      }
    }
  }

  function CutIx(ix: Ix, rems: nat): Ix {
    Ix(ix.add, if ix.rem.Some? && ix.rem.value < rems then ix.rem else None)
  }

  function CutTable(ixs: seq<Ix>, adds: nat, rems: nat): (cut: seq<Ix>)
    ensures |cut| == CountBelow(ixs, adds)
    ensures forall id | 0 <= id < |cut| :: cut[id] == CutIx(ixs[id], rems)
  {
    seq(CountBelow(ixs, adds), id requires 0 <= id < |ixs| => CutIx(ixs[id], rems))
  }

  /** The history in which what we had not signed for, and what the peer had not signed for,
      was never sent. */
  function SignedOnly(g: History): History
    requires g.ownSigned <= |g.sent| && g.peerLocked <= |g.recv|
    requires |g.sentLevel| == |g.sentSeen| == |g.sent| && |g.recvLevel| == |g.recv|
  {
    g.(sent := g.sent[..g.ownSigned], recv := g.recv[..g.peerLocked],
       sentLevel := g.sentLevel[..g.ownSigned], sentSeen := g.sentSeen[..g.ownSigned],
       recvLevel := g.recvLevel[..g.peerLocked],
       outIx := CutTable(g.outIx, g.ownSigned, g.peerLocked), inIx := CutTable(g.inIx, g.peerLocked, g.ownSigned))
  }

  /** Ids, listed HTLCs and fee rates are those of the logs `t`. */
  ghost predicate Forgotten(d: Chan, t: History)
    requires t.ownAcked <= |t.sent| && t.peerLocked <= |t.recv|
  {
    && d.nextHolderId == |t.outIx| && d.nextCounterpartyId == |t.inIx|
    && Recorded(d, t)
    && d.feerateHolder == FeeAt(d.role, t, t.ownAcked, |t.recv|)
    && d.feerateCounterparty == FeeAt(d.role, t, |t.sent|, t.peerLocked)
  }

  // ------------------------------------------------------------- the condition

  /** This HTLC comes to nothing at a disconnection or stays as it was signed: an add or a removal that
      the peer's next commitment needs is in the one in flight, and an unsigned add is not mistaken
      for a signed one with the same data. */
  predicate Clean(c: Chan, h: Htlc) {
    && (h.phaseCounterparty.Pending? ==> KeyOf(h) in InFlight(c))
    && (h.outbound && h.phaseCounterparty.Removing? ==> KeyOf(h) in InFlightRemoved(c))
    && (!h.outbound && h.phaseHolder.Pending? ==> !InOurCurrent(c, h))
  }

  /** Nothing of that kind, and no fee rate of ours that we have not signed for. */
  predicate CleanBreak(c: Chan) {
    && (forall i | 0 <= i < |c.htlcs| :: Clean(c, c.htlcs[i]))
    && (c.role.Opener? && !c.awaitingRaa ==> c.feerateHolder == c.feerateCounterparty)
  }

  // ------------------------------------------------------------------ one HTLC

  /** The facts about one listed HTLC that its verdict rests on. */
  ghost predicate Placed(c: Chan, g: History, x: Htlc) {
    && g.ownLocked <= g.ownAcked <= g.ownSigned <= |g.sent| && g.peerFinal <= g.peerSigned <= g.peerLocked <= |g.recv|
    && RecordAgrees(g, x)
    && var ix := IxOf(g, x);
       && (x.outbound && ix.rem.Some? ==> ix.add < g.ownLocked)
       && (!x.outbound && ix.rem.Some? ==> ix.add < g.peerFinal)
       && (KeyOf(x) in InFlight(c) <==> KeyPending(g, x))
       && (KeyOf(x) in InFlightRemoved(c) <==> KeyRemoving(g, x))
  }

  /** Where its add and removal are among the signed updates. */
  predicate AddSigned(g: History, x: Htlc)
    requires InRange(g, x)
  {
    IxOf(g, x).add < if x.outbound then g.ownSigned else g.peerLocked
  }

  ghost predicate InTables(g: History, x: Htlc)
    requires InRange(g, x) && |g.sentLevel| == |g.sentSeen| == |g.sent| && |g.recvLevel| == |g.recv|
    requires g.ownSigned <= |g.sent| && g.peerLocked <= |g.recv|
  {
    InRange(SignedOnly(g), x) <==> AddSigned(g, x)
  }

  lemma OwnVerdict(c: Chan, g: History, x: Htlc)
    requires Placed(c, g, x) && x.outbound
    requires |g.sentLevel| == |g.sentSeen| == |g.sent| && |g.recvLevel| == |g.recv| && InTables(g, x)
    ensures var v := Judged(c, x);
            && (v.kept.None? <==> !AddSigned(g, x))
            && (v.kept.Some? ==> v.kept.value.outbound && v.kept.value.id == x.id)
            && (v.kept.Some? && Clean(c, x) ==> RecordAgrees(SignedOnly(g), v.kept.value))
            && (v.kept.Some? && !Clean(c, x) ==> !RecordAgrees(SignedOnly(g), v.kept.value))
            && (v.kept.None? ==> !Clean(c, x))
  {
    hide CutTable;
  }

  lemma PeerVerdict(c: Chan, g: History, x: Htlc)
    requires Placed(c, g, x) && !x.outbound
    requires |g.sentLevel| == |g.sentSeen| == |g.sent| && |g.recvLevel| == |g.recv| && InTables(g, x)
    ensures var v := Judged(c, x);
            && (AddSigned(g, x) ==> v.kept.Some?)
            && (v.kept.Some? ==> !v.kept.value.outbound && v.kept.value.id == x.id)
            && (v.kept.Some? && Clean(c, x) ==> AddSigned(g, x) && RecordAgrees(SignedOnly(g), v.kept.value))
            && (v.kept.Some? && !Clean(c, x) ==> !RecordAgrees(SignedOnly(g), v.kept.value))
            && (v.kept.None? ==> Clean(c, x))
  {
    hide CutTable;
  }

  // ------------------------------------------------------------------ the list

  lemma PlacedAt(c: Chan, g: History, i: nat)
    requires Inv(c, g) && i < |c.htlcs|
    ensures Placed(c, g, c.htlcs[i])
  {
    InvParts(c, g);
    var x := c.htlcs[i];
    assert RecordAgrees(g, x);
    if x.outbound {
      assert RemAgrees(g.outIx[x.id], x.id, g.sent, g.recv, g.ownLocked);
    } else {
      assert RemAgrees(g.inIx[x.id], x.id, g.recv, g.sent, g.peerFinal);
    }
    if c.pending.Some? {
      assert SnapshotAgrees(c.pending.value, g, x);
    }
  }

  lemma TablesAgree(c: Chan, g: History, x: Htlc)
    requires Counted(c, g) && InSequence(g.outIx) && InSequence(g.inIx) && InRange(g, x)
    ensures InTables(g, x)
  {
    CountBelowIs(g.outIx, g.ownSigned);
    CountBelowIs(g.inIx, g.peerLocked);
  }

  /** What a verdict must say of an HTLC. */
  ghost predicate Judges(c: Chan, g: History, x: Htlc)
    requires Counted(c, g) && InRange(g, x)
  {
    var v := Judged(c, x);
    && (AddSigned(g, x) ==> v.kept.Some?)
    && (v.kept.Some? ==> v.kept.value.outbound == x.outbound && v.kept.value.id == x.id)
    && (v.kept.Some? ==> (Clean(c, x) <==> RecordAgrees(SignedOnly(g), v.kept.value)))
    && (v.kept.None? ==> (Clean(c, x) <==> !x.outbound))
    && (Clean(c, x) && v.kept.Some? ==> AddSigned(g, x))
  }

  lemma JudgedAt(c: Chan, g: History, i: nat)
    requires Inv(c, g) && InSequence(g.outIx) && InSequence(g.inIx) && i < |c.htlcs|
    ensures Counted(c, g) && InRange(g, c.htlcs[i]) && Judges(c, g, c.htlcs[i])
  {
    PlacedAt(c, g, i);
    InvCounts(c, g);
    hide Inv, Judged, Clean, CutTable, InSequence;
    TablesAgree(c, g, c.htlcs[i]);
    if c.htlcs[i].outbound { OwnVerdict(c, g, c.htlcs[i]); } else { PeerVerdict(c, g, c.htlcs[i]); }
  }

  /** Every listed HTLC is judged so. */
  ghost predicate AllJudged(c: Chan, g: History)
    requires Counted(c, g)
  {
    forall i | 0 <= i < |c.htlcs| :: InRange(g, c.htlcs[i]) && Judges(c, g, c.htlcs[i])
  }

  /** Where a kept HTLC was listed. */
  ghost predicate From(c: Chan, y: Htlc, i: nat) {
    i < |c.htlcs| && Judged(c, c.htlcs[i]).kept == Some(y)
  }

  lemma {:induction false} KeptFrom(c: Chan, n: nat, y: Htlc)
    requires n <= |c.htlcs|
    ensures y in Retained(c, c.htlcs[..n]) <==> exists i: nat :: i < n && From(c, y, i)
    decreases n
  {
    hide Judged;
    if n > 0 {
      KeptFrom(c, n - 1, y);
      assert c.htlcs[..n][..n - 1] == c.htlcs[..n - 1];
      if y in Retained(c, c.htlcs[..n - 1]) {
        var i: nat :| i < n - 1 && From(c, y, i);
        assert i < n && From(c, y, i);
      } else if y in Retained(c, c.htlcs[..n]) {
        assert From(c, y, n - 1);
      }
    }
  }

  lemma {:induction false} KeptInOrder(c: Chan, g: History, n: nat)
    requires Counted(c, g) && AllJudged(c, g) && n <= |c.htlcs|
    requires PairwiseInOrder(g, c.htlcs)
    ensures PairwiseInOrder(SignedOnly(g), Retained(c, c.htlcs[..n]))
    decreases n
  {
    hide Judged, InOrder, RecordAgrees, Clean;
    if n > 0 {
      KeptInOrder(c, g, n - 1);
      assert c.htlcs[..n][..n - 1] == c.htlcs[..n - 1];
      var before, kept := Retained(c, c.htlcs[..n - 1]), Retained(c, c.htlcs[..n]);
      var v := Judged(c, c.htlcs[n - 1]);
      assert kept == before + if v.kept.Some? then [v.kept.value] else [];
      forall i, j | 0 <= i < j < |kept| ensures InOrder(SignedOnly(g), kept[i], kept[j]) {
        if j == |before| {
          KeptFrom(c, n - 1, before[i]);
          var k: nat :| k < n - 1 && From(c, before[i], k);
          assert InOrder(g, c.htlcs[k], c.htlcs[n - 1]);
          OrderKept(c, g, c.htlcs[k], c.htlcs[n - 1], kept[i], kept[j]);
        } else {
          assert j < |before| && kept[i] == before[i] && kept[j] == before[j];
        }
      }
    }
  }

  lemma OrderKept(c: Chan, g: History, x: Htlc, y: Htlc, x': Htlc, y': Htlc)
    requires Counted(c, g) && InOrder(g, x, y) && InRange(g, x) && InRange(g, y)
    requires x'.outbound == x.outbound && x'.id == x.id && y'.outbound == y.outbound && y'.id == y.id
    ensures InOrder(SignedOnly(g), x', y')
  {
    hide CutTable;
  }

  lemma StillListed(c: Chan, g: History, id: nat, outbound: bool)
    requires Counted(c, g) && AllJudged(c, g)
    requires Find(c.htlcs, outbound, id).Some? && AddSigned(g, c.htlcs[Find(c.htlcs, outbound, id).value])
    ensures Find(Retained(c, c.htlcs), outbound, id).Some?
  {
    hide Judged, Clean, RecordAgrees;
    var i := Find(c.htlcs, outbound, id).value;
    assert Judges(c, g, c.htlcs[i]);
    var y := Judged(c, c.htlcs[i]).kept.value;
    KeptFrom(c, |c.htlcs|, y);
    assert c.htlcs[..|c.htlcs|] == c.htlcs;
    assert From(c, y, i);
  }

  lemma RecordedAfter(c: Chan, g: History)
    requires Counted(c, g) && Recorded(c, g) && AllJudged(c, g) && InSequence(g.outIx) && InSequence(g.inIx)
    ensures var d := OnDisconnect(c);
            Recorded(d, SignedOnly(g)) <==> forall i | 0 <= i < |d.htlcs| :: RecordAgrees(SignedOnly(g), d.htlcs[i])
  {
    hide Judged, RecordAgrees, Clean, InOrder, InSequence, Judges;
    var d := OnDisconnect(c);
    KeptInOrder(c, g, |c.htlcs|);
    assert c.htlcs[..|c.htlcs|] == c.htlcs;
    assert PairwiseInOrder(SignedOnly(g), d.htlcs);
    forall id | 0 <= id < |SignedOnly(g).outIx| ensures OutGone(SignedOnly(g), SignedOnly(g).outIx[id]) || Find(d.htlcs, true, id).Some? {
      ListedAfter(c, g, id, true);
    }
    forall id | 0 <= id < |SignedOnly(g).inIx| ensures InGone(SignedOnly(g), SignedOnly(g).inIx[id]) || Find(d.htlcs, false, id).Some? {
      ListedAfter(c, g, id, false);
    }
  }

  lemma ListedAfter(c: Chan, g: History, id: nat, outbound: bool)
    requires Counted(c, g) && Recorded(c, g) && AllJudged(c, g) && InSequence(g.outIx) && InSequence(g.inIx)
    requires id < if outbound then |SignedOnly(g).outIx| else |SignedOnly(g).inIx|
    ensures outbound ==> OutGone(SignedOnly(g), SignedOnly(g).outIx[id]) || Find(Retained(c, c.htlcs), true, id).Some?
    ensures !outbound ==> InGone(SignedOnly(g), SignedOnly(g).inIx[id]) || Find(Retained(c, c.htlcs), false, id).Some?
  {
    hide Judged, RecordAgrees, Clean, InOrder, Judges;
    CountBelowIs(g.outIx, g.ownSigned);
    CountBelowIs(g.inIx, g.peerLocked);
    assert outbound ==> OutGone(g, g.outIx[id]) || Find(c.htlcs, true, id).Some?;
    assert !outbound ==> InGone(g, g.inIx[id]) || Find(c.htlcs, false, id).Some?;
    if Find(c.htlcs, outbound, id).Some? {
      StillListed(c, g, id, outbound);
    }
  }

  // -------------------------------------------------------------------- the ids

  lemma {:induction false} LowestForgotten(c: Chan, n: nat, next: nat)
    requires n <= |c.htlcs|
    ensures var r := NextExpected(c, c.htlcs[..n], next);
            && r <= next
            && (forall i | 0 <= i < n && !c.htlcs[i].outbound && Judged(c, c.htlcs[i]).kept.None? :: r <= c.htlcs[i].id)
            && (r == next || exists i | 0 <= i < n ::
                  !c.htlcs[i].outbound && Judged(c, c.htlcs[i]).kept.None? && r == c.htlcs[i].id)
    decreases n
  {
    hide Judged;
    if n > 0 {
      LowestForgotten(c, n - 1, next);
      assert c.htlcs[..n][..n - 1] == c.htlcs[..n - 1];
    }
  }

  /** The first unsigned HTLC of the peer is forgotten. */
  lemma FirstUnsigned(c: Chan, g: History)
    requires Counted(c, g) && Recorded(c, g) && Indexed(g) && AllJudged(c, g) && InSequence(g.inIx)
    requires forall i | 0 <= i < |c.htlcs| :: Clean(c, c.htlcs[i])
    requires CountBelow(g.inIx, g.peerLocked) < |g.inIx|
    ensures var x := Find(c.htlcs, false, CountBelow(g.inIx, g.peerLocked));
            x.Some? && Judged(c, c.htlcs[x.value]).kept.None?
  {
    hide Judged, RecordAgrees, Clean, InOrder;
    var m := CountBelow(g.inIx, g.peerLocked);
    CountBelowIs(g.inIx, g.peerLocked);
    assert RemAgrees(g.inIx[m], m, g.recv, g.sent, g.peerFinal);
    assert InGone(g, g.inIx[m]) || Find(c.htlcs, false, m).Some?;
    assert Judges(c, g, c.htlcs[Find(c.htlcs, false, m).value]);
  }

  lemma PeerIdsAfter(c: Chan, g: History)
    requires Counted(c, g) && Recorded(c, g) && Indexed(g) && AllJudged(c, g) && InSequence(g.inIx)
    requires forall i | 0 <= i < |c.htlcs| :: Clean(c, c.htlcs[i])
    ensures OnDisconnect(c).nextCounterpartyId == |SignedOnly(g).inIx|
  {
    hide Judged, RecordAgrees, Clean, InOrder, Recorded, Indexed;
    var r, m := NextExpected(c, c.htlcs, c.nextCounterpartyId), CountBelow(g.inIx, g.peerLocked);
    CountBelowIs(g.inIx, g.peerLocked);
    LowestForgotten(c, |c.htlcs|, c.nextCounterpartyId);
    assert c.htlcs[..|c.htlcs|] == c.htlcs;
    if m < |g.inIx| { FirstUnsigned(c, g); }
    if r < |g.inIx| {
      var i :| 0 <= i < |c.htlcs| && !c.htlcs[i].outbound && Judged(c, c.htlcs[i]).kept.None? && r == c.htlcs[i].id;
      assert Judges(c, g, c.htlcs[i]);
    }
  }

  lemma OwnIdsAfter(c: Chan, g: History)
    requires Counted(c, g) && Recorded(c, g) && Indexed(g) && AllJudged(c, g) && InSequence(g.outIx)
    ensures c.nextHolderId == |SignedOnly(g).outIx| <==>
            forall i | 0 <= i < |c.htlcs| && c.htlcs[i].outbound :: AddSigned(g, c.htlcs[i])
  {
    hide Judged, RecordAgrees, Clean, InOrder, Judges;
    CountBelowIs(g.outIx, g.ownSigned);
    var m := CountBelow(g.outIx, g.ownSigned);
    if m < |g.outIx| {
      assert RemAgrees(g.outIx[m], m, g.sent, g.recv, g.ownLocked);
      assert OutGone(g, g.outIx[m]) || Find(c.htlcs, true, m).Some?;
      assert !AddSigned(g, c.htlcs[Find(c.htlcs, true, m).value]);
    } else {
      forall i | 0 <= i < |c.htlcs| && c.htlcs[i].outbound ensures AddSigned(g, c.htlcs[i]) {
        assert InRange(g, c.htlcs[i]);
      }
    }
  }

  // ------------------------------------------------------------------ fee rates

  lemma FeesAfter(c: Chan, g: History)
    requires Counted(c, g) && FeesAgree(c, g)
    ensures var (d, t) := (OnDisconnect(c), SignedOnly(g));
            (d.feerateHolder == FeeAt(d.role, t, t.ownAcked, |t.recv|)
             && d.feerateCounterparty == FeeAt(d.role, t, |t.sent|, t.peerLocked)) <==>
            (c.role.Opener? && !c.awaitingRaa ==> c.feerateHolder == c.feerateCounterparty)
  {
    var t := SignedOnly(g);
    LastFeePrefix(t.sent, g.sent, g.ownAcked, g.initialFeerate);
    LastFeePrefix(t.sent, g.sent, g.ownSigned, g.initialFeerate);
    LastFeePrefix(t.recv, g.recv, g.peerLocked, g.initialFeerate);
    if c.pendingFeeAck.None? { LastFeeSkip(g.recv, g.peerLocked, |g.recv|, g.initialFeerate); }
  }

  // ---------------------------------------------------------------- the theorem

  lemma KeptAll(c: Chan, g: History)
    requires Counted(c, g) && AllJudged(c, g)
    ensures var d := OnDisconnect(c);
            (forall i | 0 <= i < |d.htlcs| :: RecordAgrees(SignedOnly(g), d.htlcs[i])) <==>
            (forall i | 0 <= i < |c.htlcs| && Judged(c, c.htlcs[i]).kept.Some? :: Clean(c, c.htlcs[i]))
  {
    hide Judged, RecordAgrees, Clean;
    var d := OnDisconnect(c);
    assert c.htlcs[..|c.htlcs|] == c.htlcs;
    if forall i | 0 <= i < |d.htlcs| :: RecordAgrees(SignedOnly(g), d.htlcs[i]) {
      forall i | 0 <= i < |c.htlcs| && Judged(c, c.htlcs[i]).kept.Some? ensures Clean(c, c.htlcs[i]) {
        var y := Judged(c, c.htlcs[i]).kept.value;
        assert From(c, y, i);
        KeptFrom(c, |c.htlcs|, y);
        assert Judges(c, g, c.htlcs[i]);
      }
    }
    if forall i | 0 <= i < |c.htlcs| && Judged(c, c.htlcs[i]).kept.Some? :: Clean(c, c.htlcs[i]) {
      forall k | 0 <= k < |d.htlcs| ensures RecordAgrees(SignedOnly(g), d.htlcs[k]) {
        KeptFrom(c, |c.htlcs|, d.htlcs[k]);
        var i: nat :| i < |c.htlcs| && From(c, d.htlcs[k], i);
        assert Judges(c, g, c.htlcs[i]);
      }
    }
  }

  /** All HTLCs are clean exactly when those kept are and every add of ours was signed. */
  lemma AllClean(c: Chan, g: History)
    requires Counted(c, g) && AllJudged(c, g)
    ensures (forall i | 0 <= i < |c.htlcs| :: Clean(c, c.htlcs[i])) <==>
            && (forall i | 0 <= i < |c.htlcs| && Judged(c, c.htlcs[i]).kept.Some? :: Clean(c, c.htlcs[i]))
            && (forall i | 0 <= i < |c.htlcs| && c.htlcs[i].outbound :: AddSigned(g, c.htlcs[i]))
  {
    hide Judged, RecordAgrees, Clean;
    if forall i | 0 <= i < |c.htlcs| :: Clean(c, c.htlcs[i]) {
      forall i | 0 <= i < |c.htlcs| && c.htlcs[i].outbound ensures AddSigned(g, c.htlcs[i]) {
        assert Judges(c, g, c.htlcs[i]);
      }
    }
  }

  /**
   * In every state reachable against any peer: a disconnection leaves ids, HTLCs and fee rates as
   * if nothing unsigned had ever been sent, by either party, exactly when the break is clean.
   */
  lemma ForgetsExactlyWhen(c0: Chan, events: seq<Event>) returns (g: History)
    requires Fresh(c0)
    ensures Inv(Run(c0, events), g) && Counted(Run(c0, events), g)
    ensures Forgotten(OnDisconnect(Run(c0, events)), SignedOnly(g)) <==> CleanBreak(Run(c0, events))
  {
    g := RunBounded(c0, events);
    hide Run, Inv, Fresh, Forgotten, CleanBreak;
    ForgetsAt(Run(c0, events), g);
  }

  lemma ForgetsAt(c: Chan, g: History)
    requires Inv(c, g) && Bounded(c.params, g)
    ensures Counted(c, g) && (Forgotten(OnDisconnect(c), SignedOnly(g)) <==> CleanBreak(c))
  {
    InvParts(c, g);
    hide Inv, Judges, Judged, Clean, RecordAgrees, Recorded, Indexed, FeesAgree, Stored, InSequence;
    hide LiveWithin, StakesKept, Retained, NextExpected;
    forall i | 0 <= i < |c.htlcs| ensures InRange(g, c.htlcs[i]) && Judges(c, g, c.htlcs[i]) {
      JudgedAt(c, g, i);
    }
    assert AllJudged(c, g);
    AllClean(c, g);
    KeptAll(c, g);
    RecordedAfter(c, g);
    OwnIdsAfter(c, g);
    FeesAfter(c, g);
    if forall i | 0 <= i < |c.htlcs| :: Clean(c, c.htlcs[i]) { PeerIdsAfter(c, g); }
  }
}
