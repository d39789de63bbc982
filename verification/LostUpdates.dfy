/**
 * What rolling back gets wrong: an update of ours that was sent and not signed
 * fails the channel of an honest peer after reconnecting, a malformed failure is
 * not issued again, and a settlement can be reported twice.
 */
module LostUpdates {
  import opened Wrappers
  import opened Channel
  import opened Ledger
  import opened ChannelRuns
  import opened Sources
  import opened HoldingCell
  import opened Rollback
  import opened Pair
  import opened Dance

  // ------------------------------------------------------- honest parties fail

  /** The peer after the break, whether or not `m` had reached it. */
  function Rejoined(y: Chan, m: Message, reached: bool): Chan {
    OnDisconnect(if reached then Deliver(y, m).chan else y)
  }

  /** A list of one HTLC that is forgotten. */
  lemma OnlyForgotten(c: Chan, h: Htlc, next: nat)
    requires Judged(c, h).kept.None?
    ensures Retained(c, [h]) == [] && Requeued(c, [h]) == Judged(c, h).requeued
    ensures NextExpected(c, [h], next) == if !h.outbound && h.id < next then h.id else next
  {
    hide Judged;
    assert [h][..0] == [];
  }

  /** An update of the peer's that was not signed leaves no trace at the break. */
  lemma NoTrace(y: Chan, m: Message, reached: bool)
    requires Fresh(y) && (m.UpdateAddHtlc? || m.UpdateFee?)
    ensures Rejoined(y, m, reached) == y
  {
    hide InboundAddAllowed;
    if m.UpdateAddHtlc? && OnUpdateAdd(y, m).Done? {
      var d := OnUpdateAdd(y, m).chan;
      var h := d.htlcs[0];
      assert d.htlcs == [h];
      assert !InOurCurrent(d, h);
      OnlyForgotten(d, h, d.nextCounterpartyId);
    }
  }

  /**
   * From every initial pair: an HTLC is offered and the connection drops before it is signed,
   * whether or not the peer had received it. Nothing had been committed, so nothing is sent
   * again; the next HTLC offered carries an id the peer does not expect and fails its channel.
   */
  lemma ForgottenAddFails(
    s0: Sys, amount: nat, paymentHash: Bytes, cltvExpiry: nat, onion: Bytes, source: Source, reached: bool)
    returns (x: Chan, m: Message, m': Message)
    requires Initial(s0) && s0.a.state.Normal? && !s0.a.shutdownSent && !s0.a.shutdownReceived
    requires OutboundAddAllowed(s0.a, amount, cltvExpiry)
    ensures SendAdd(s0.a, amount, paymentHash, cltvExpiry, onion, source) == Done(x, Some(m))
    ensures var again := SendAdd(OnDisconnect(x), amount, paymentHash, cltvExpiry, onion, source);
            again.Done? && again.value == Some(m')
    ensures OnUpdateAdd(Rejoined(s0.b, m, reached), m') == Failed(Close)
  {
    hide Fresh;
    FreshLists(s0);
    var o := SendAdd(s0.a, amount, paymentHash, cltvExpiry, onion, source);
    x, m := o.chan, o.value.value;
    NoTrace(s0.b, m, reached);
    var h := x.htlcs[0];
    assert x.htlcs == [h];
    OnlyForgotten(x, h, x.nextCounterpartyId);
    var x' := OnDisconnect(x);
    assert x'.htlcs == [] && x'.nextHolderId == 1;
    assert OutboundAddAllowed(x', amount, cltvExpiry);
    m' := SendAdd(x', amount, paymentHash, cltvExpiry, onion, source).value.value;
  }

  lemma FreshLists(s0: Sys)
    requires Initial(s0)
    ensures Fresh(s0.a) && Fresh(s0.b) && s0.a.htlcs == [] && s0.a.nextHolderId == 0 && s0.b.nextCounterpartyId == 0
    ensures !s0.a.awaitingRaa && s0.a.pending.None? && s0.a.pendingFeeAck.None?
    ensures s0.b.holderNumber == 0 && s0.b.feerateHolder == s0.a.feerateHolder == s0.a.feerateCounterparty
    ensures s0.a.nextPoint.Some?
  {
  }

  /**
   * From every initial pair: the opener announces another fee rate and the connection drops
   * before it is signed. It is not forgotten, the peer forgets it, and the next commitment
   * signed fails the peer's channel.
   */
  lemma ForgottenFeeFails(s0: Sys, feerate: nat, reached: bool) returns (x: Chan, m: Message, cs: Message)
    requires Initial(s0) && s0.a.role.Opener? && s0.a.state.Normal?
    requires feerate >= FEERATE_FLOOR && feerate != s0.a.feerateHolder
    ensures SendUpdateFee(s0.a, feerate) == Done(x, m)
    ensures var signed := SendCommitmentSigned(OnDisconnect(x)); signed.Done? && signed.value == cs
    ensures OnCommitmentSigned(Rejoined(s0.b, m, reached), cs) == Failed(Close)
  {
    hide Fresh;
    FreshLists(s0);
    x, m := SendUpdateFee(s0.a, feerate).chan, UpdateFee(feerate);
    NoTrace(s0.b, m, reached);
    var signed := SendCommitmentSigned(OnDisconnect(x));
    cs := signed.value;
    assert cs.signed.feerate == feerate;
  }

  // --------------------------------------------------------- a removal forgotten

  /** An unsigned removal of ours is parked again exactly when it is not a malformed failure; the
      HTLC is open again either way. */
  lemma RemovalParkedExactlyWhen(c0: Chan, events: seq<Event>, id: nat, res: Resolution, i: nat)
    requires Fresh(c0) && !Run(c0, events).awaitingRaa && SendRemove(Run(c0, events), id, res).Done?
    requires Find(Run(c0, events).htlcs, false, id) == Some(i)
    ensures var c := Run(c0, events);
            var d := SendRemove(c, id, res).chan;
            && i < |c.htlcs| && Judged(d, d.htlcs[i]).kept == Some(c.htlcs[i])
            && Judged(d, d.htlcs[i]).requeued == if res.FailMalformed? then [] else [HoldRemove(id, res)]
  {
    hide Run, Inv, Fresh;
    var c := Run(c0, events);
    var g := RunInv(c0, events);
    InvCounts(c, g);
  }

  // -------------------------------------------------------- where the sources are

  /** Its settlement was reported when the removal arrived, and now it is open again. */
  function ReopenedBy(c: Chan, x: Htlc): multiset<Source> {
    if x.outbound && x.resolution.Some? && x.source.Some? && (UnsignedRemoval(c, x) || x.phaseHolder.Removing?)
    then multiset{x.source.value} else multiset{}
  }

  function Reopened(c: Chan, htlcs: seq<Htlc>): multiset<Source> {
    if htlcs == [] then multiset{}
    else
      var n := |htlcs| - 1;
      Reopened(c, htlcs[..n]) + ReopenedBy(c, htlcs[n])
  }

  lemma CatSnoc<T>(a: seq<T>, b: seq<T>)
    requires b != []
    ensures a + b == (a + b[..|b| - 1]) + [b[|b| - 1]] && b == b[..|b| - 1] + [b[|b| - 1]]
  {
  }

  lemma {:induction false} ParkedCat(a: seq<HoldingOp>, b: seq<HoldingOp>)
    ensures Parked(a + b) == Parked(a) + Parked(b)
    decreases |b|
  {
    if b == [] {
      assert a + b == a;
      ParkedNone();
    } else {
      hide Parked, ParkedBy;
      var init, last := b[..|b| - 1], b[|b| - 1];
      ParkedCat(a, init);
      CatSnoc(a, b);
      ParkedSnoc(a + init, last);
      ParkedSnoc(init, last);
      Assoc(Parked(a), Parked(init), ParkedBy(last));
    }
  }

  /** An unsigned add of ours is unresolved and has its source. */
  predicate Plausible(x: Htlc) {
    x.outbound && x.phaseCounterparty.Pending? ==> x.resolution.None? && x.source.Some?
  }

  /** What a verdict leaves in hand. */
  function LeftInHand(v: Verdict): multiset<Source> {
    (if v.kept.Some? then CarriedBy(v.kept.value) else multiset{}) + Parked(v.requeued)
  }

  lemma ParkedNone()
    ensures Parked([]) == multiset{}
  {
  }

  lemma ParkedOne(op: HoldingOp)
    ensures Parked([op]) == ParkedBy(op)
  {
    assert [op][..0] == [];
  }

  /** What the verdict on an HTLC of ours comes to, apart from its phases. */
  lemma OwnJudged(c: Chan, x: Htlc)
    requires Plausible(x) && x.outbound
    ensures var v := Judged(c, x);
            && (v.kept.None? ==>
                  x.resolution.None? && x.source.Some? &&
                  v.requeued == [HoldAdd(x.amount, x.paymentHash, x.cltvExpiry, x.onion, x.source.value)])
            && (v.kept.Some? ==>
                  && v.requeued == [] && v.kept.value.outbound && v.kept.value.source == x.source
                  && (v.kept.value.resolution.None? <==>
                      x.resolution.None? || UnsignedRemoval(c, x) || x.phaseHolder.Removing?))
  {
  }

  lemma OwnAcrossBreak(c: Chan, x: Htlc)
    requires Plausible(x) && x.outbound
    ensures LeftInHand(Judged(c, x)) == CarriedBy(x) + ReopenedBy(c, x)
  {
    OwnJudged(c, x);
    hide Parked, Judged, UnsignedRemoval;
    var v := Judged(c, x);
    if v.kept.None? {
      ParkedOne(v.requeued[0]);
    } else {
      ParkedNone();
    }
  }

  lemma PeerAcrossBreak(c: Chan, x: Htlc)
    requires !x.outbound
    ensures LeftInHand(Judged(c, x)) == CarriedBy(x) + ReopenedBy(c, x)
  {
    hide Parked;
    var v := Judged(c, x);
    if v.requeued != [] {
      ParkedOne(v.requeued[0]);
      assert v.requeued == [v.requeued[0]];
    } else {
      ParkedNone();
    }
  }

  lemma {:induction false} ListAcrossBreak(c: Chan, htlcs: seq<Htlc>)
    requires forall i | 0 <= i < |htlcs| :: Plausible(htlcs[i])
    ensures Carried(Retained(c, htlcs)) + Parked(Requeued(c, htlcs)) == Carried(htlcs) + Reopened(c, htlcs)
    decreases |htlcs|
  {
    if htlcs != [] {
      hide Judged, CarriedBy, ReopenedBy, Plausible, Parked;
      var n := |htlcs| - 1;
      var v := Judged(c, htlcs[n]);
      ListAcrossBreak(c, htlcs[..n]);
      if htlcs[n].outbound { OwnAcrossBreak(c, htlcs[n]); } else { PeerAcrossBreak(c, htlcs[n]); }
      ParkedCat(Requeued(c, htlcs[..n]), v.requeued);
      KeptCarries(c, htlcs);
      hide Retained, Requeued, Carried, Reopened;
      Regroup(Carried(Retained(c, htlcs[..n])), Parked(Requeued(c, htlcs[..n])),
              if v.kept.Some? then CarriedBy(v.kept.value) else multiset{}, Parked(v.requeued));
      Regroup(Carried(htlcs[..n]), Reopened(c, htlcs[..n]), CarriedBy(htlcs[n]), ReopenedBy(c, htlcs[n]));
    }
  }

  lemma KeptCarries(c: Chan, htlcs: seq<Htlc>)
    requires htlcs != []
    ensures var n := |htlcs| - 1;
            var v := Judged(c, htlcs[n]);
            && Carried(Retained(c, htlcs)) ==
               Carried(Retained(c, htlcs[..n])) + (if v.kept.Some? then CarriedBy(v.kept.value) else multiset{})
            && Requeued(c, htlcs) == Requeued(c, htlcs[..n]) + v.requeued
            && Carried(htlcs) == Carried(htlcs[..n]) + CarriedBy(htlcs[n])
            && Reopened(c, htlcs) == Reopened(c, htlcs[..n]) + ReopenedBy(c, htlcs[n])
  {
    hide Judged, CarriedBy, ReopenedBy;
    var n := |htlcs| - 1;
    var v := Judged(c, htlcs[n]);
    if v.kept.Some? {
      CarriedSnoc(Retained(c, htlcs[..n]), v.kept.value);
    } else {
      assert Retained(c, htlcs) == Retained(c, htlcs[..n]);
    }
  }

  lemma Regroup(a: multiset<Source>, b: multiset<Source>, x: multiset<Source>, y: multiset<Source>)
    ensures (a + x) + (b + y) == (a + b) + (x + y)
  {
  }

  /**
   * No source is lost at a break: those in hand are still in hand, parked or carried, and
   * besides them the sources of HTLCs whose removal, reported as settled, is taken back and
   * will be reported again.
   */
  lemma SourcesAcrossBreak(c0: Chan, events: seq<Event>)
    requires Fresh(c0)
    ensures var c := Run(c0, events);
            InHand(OnDisconnect(c)) == InHand(c) + Reopened(c, c.htlcs)
  {
    hide Run, Inv, Fresh;
    var c := Run(c0, events);
    var g := RunInv(c0, events);
    forall i | 0 <= i < |c.htlcs| ensures Plausible(c.htlcs[i]) { PlausibleAt(c, g, i); }
    ListAcrossBreak(c, c.htlcs);
    ParkedCat(Requeued(c, c.htlcs), c.holdingCell);
    Shift(Carried(Retained(c, c.htlcs)), Parked(Requeued(c, c.htlcs)), Parked(c.holdingCell),
          Carried(c.htlcs), Reopened(c, c.htlcs));
  }

  lemma Shift(a: multiset<Source>, b: multiset<Source>, p: multiset<Source>, x: multiset<Source>, y: multiset<Source>)
    requires a + b == x + y
    ensures a + (b + p) == (x + p) + y
  {
    assert a + (b + p) == (a + b) + p == (x + y) + p;
  }

  lemma PlausibleAt(c: Chan, g: History, i: nat)
    requires Inv(c, g) && i < |c.htlcs|
    ensures Plausible(c.htlcs[i])
  {
    InvParts(c, g);
    var x := c.htlcs[i];
    assert RecordAgrees(g, x);
    if x.outbound { assert RemAgrees(g.outIx[x.id], x.id, g.sent, g.recv, g.ownLocked); }
  }
}
