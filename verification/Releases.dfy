/**
 * What a channel stores before it releases anything, over runs against an
 * arbitrary peer: our stored commitment is always the last one verified, each
 * revocation leaves only when the next commitment is stored, and for every
 * revoked commitment of the peer we hold the secret behind its point.
 */
module Releases {
  import opened Wrappers
  import opened Channel
  import opened ChannelRuns
  import Ledger
  import Shachain

  // ------------------------------------------------------- what an event moves

  /** Our side's commitment is the same. */
  ghost predicate SameHolder(c: Chan, d: Chan) {
    d.holderNumber == c.holderNumber && d.currentHolder == c.currentHolder
  }

  /** The peer's current commitment, its points and its released secrets are the same. */
  ghost predicate SamePeer(c: Chan, d: Chan) {
    && d.counterpartyNumber == c.counterpartyNumber && d.currentCounterparty == c.currentCounterparty
    && d.currentPoint == c.currentPoint && d.nextPoint == c.nextPoint && d.secrets == c.secrets
  }

  /** What the two parties agreed on at the opening. */
  ghost predicate SameTerms(c: Chan, d: Chan) {
    d.crypto == c.crypto && d.seed == c.seed && d.role == c.role && d.params == c.params
  }

  ghost predicate OnlyUpdates(ms: seq<Message>) {
    forall i | 0 <= i < |ms| :: ms[i].UpdateAddHtlc? || ms[i].UpdateRemoveHtlc? || ms[i].UpdateFee?
  }

  /** Nothing but updates: no commitment moves on either side, none is signed. */
  ghost predicate Untouched(c: Chan, d: Chan, ms: seq<Message>) {
    SameHolder(c, d) && SamePeer(c, d) && SameTerms(c, d) && d.pending == c.pending && OnlyUpdates(ms)
  }

  lemma SendAddTouches(c: Chan, amount: nat, paymentHash: Bytes, cltvExpiry: nat, onion: Bytes, source: Source)
    ensures var o := SendAdd(c, amount, paymentHash, cltvExpiry, onion, source);
            o.Done? ==> Untouched(c, o.chan, Optional(o.value))
  {
    hide OutboundAddAllowed;
  }

  lemma SendRemoveTouches(c: Chan, id: nat, res: Resolution)
    ensures var o := SendRemove(c, id, res); o.Done? ==> Untouched(c, o.chan, Optional(o.value))
  {
    hide Find, Irrevocable;
  }

  lemma {:induction false} FlushTouches(c: Chan, ops: seq<HoldingOp>)
    ensures Untouched(c, Flush(c, ops).chan, Flush(c, ops).messages)
    decreases |ops|
  {
    if ops != [] {
      hide SendAdd, SendRemove;
      var n := |ops| - 1;
      FlushTouches(c, ops[..n]);
      match ops[n]
      case HoldAdd(amount, paymentHash, cltvExpiry, onion, source) =>
        SendAddTouches(Flush(c, ops[..n]).chan, amount, paymentHash, cltvExpiry, onion, source);
      case HoldRemove(id, res) => SendRemoveTouches(Flush(c, ops[..n]).chan, id, res);
    }
  }

  lemma UpdatesTouch(c: Chan, m: Message)
    requires m.UpdateAddHtlc? || m.UpdateRemoveHtlc? || m.UpdateFee?
    ensures Untouched(c, Deliver(c, m).chan, Deliver(c, m).out)
  {
    hide InboundAddAllowed, Find, Irrevocable, PreimageMatches, CodeLacksBadOnion;
    match m
    case UpdateAddHtlc(_, _, _, _, _) =>
    case UpdateRemoveHtlc(_, _) =>
    case UpdateFee(_) =>
  }

  // --------------------------------------------------------------- commitment_signed

  /** The condition on which a commitment_signed is accepted: it signs, to the last
      field, the commitment we build from our own state. */
  predicate Verifies(c: Chan, m: Message) {
    m.CommitmentSigned? && Operational(c) && c.holderNumber + 2 <= Shachain.MAX_INDEX &&
    m.signed == HolderCommitmentAt(c, c.holderNumber + 1)
  }

  /** Accepting it stores it and only then releases the one before; refusing it
      changes nothing. */
  lemma CommitmentStored(c: Chan, m: Message)
    requires m.CommitmentSigned?
    ensures var r := Deliver(c, m);
            && SamePeer(c, r.chan) && SameTerms(c, r.chan) && r.chan.pending == c.pending
            && (Verifies(c, m) ==>
                  && r.chan.holderNumber == c.holderNumber + 1 && r.chan.currentHolder == Some(m.signed)
                  && r.out == [RevokeAndAck(SecretAt(c.crypto, c.seed, c.holderNumber),
                                            PointAt(c.crypto, c.seed, c.holderNumber + 2))])
            && (!Verifies(c, m) ==> r.chan == c && r.out == [])
  {
    hide LockAll, Kept, BakedBalances, AnyAcknowledged, SecretAt, PointAt, HolderCommitmentAt;
  }

  // ------------------------------------------------------------------ revoke_and_ack

  /** The condition on which a revocation is accepted: the secret opens the point of the
      commitment it revokes and derives every secret released before. */
  predicate Opens(c: Chan, m: Message) {
    && m.RevokeAndAck? && c.awaitingRaa && c.pending.Some? && c.currentPoint.Some?
    && c.counterpartyNumber <= Shachain.MAX_INDEX
    && c.crypto.pointOf(m.secret) == c.currentPoint.value
    && Shachain.InsertInto(c.crypto.sha, c.secrets, Shachain.IndexForCommitment(c.counterpartyNumber), m.secret).Some?
  }

  lemma RevokeMoves(c: Chan, m: Message)
    requires m.RevokeAndAck?
    ensures Revoke(c, m).Done? <==> Opens(c, m)
    ensures Opens(c, m) ==>
              var d := Revoke(c, m).chan;
              && d.counterpartyNumber == c.counterpartyNumber + 1 && d.currentCounterparty == Some(c.pending.value.info)
              && d.currentPoint == c.nextPoint && d.nextPoint == Some(m.nextPoint) && d.pending.None?
              && Some(d.secrets) == Shachain.InsertInto(c.crypto.sha, c.secrets,
                                                        Shachain.IndexForCommitment(c.counterpartyNumber), m.secret)
              && SameHolder(c, d) && SameTerms(c, d)
  {
    hide Kept, BakedBalances, ApplyIncluded, ApplyRemoved, Shachain.InsertInto;
  }

  /** A revocation with the commitment that may follow it at once. */
  ghost predicate Rotated(c: Chan, m: Message, r: Reaction)
    requires Opens(c, m)
  {
    var d := r.chan;
    && d.counterpartyNumber == c.counterpartyNumber + 1 && d.currentCounterparty == Some(c.pending.value.info)
    && d.currentPoint == c.nextPoint && d.nextPoint == Some(m.nextPoint)
    && Some(d.secrets) == Shachain.InsertInto(c.crypto.sha, c.secrets,
                                              Shachain.IndexForCommitment(c.counterpartyNumber), m.secret)
    && SameHolder(c, d) && SameTerms(c, d) && Revocations(r.out) == [] && Signs(d, r.out)
  }

  /** At most one commitment is signed, for the peer's next number and point, and it is
      the pending one. */
  ghost predicate Signs(d: Chan, ms: seq<Message>) {
    if d.pending.None? then Signatures(ms) == []
    else
      && Signatures(ms) == [d.pending.value.info]
      && d.nextPoint == Some(d.pending.value.info.point) && d.pending.value.info.number == d.counterpartyNumber + 1
  }

  lemma SignMoves(c: Chan)
    requires SendCommitmentSigned(c).Done?
    ensures var o := SendCommitmentSigned(c);
            && SameHolder(c, o.chan) && SamePeer(c, o.chan) && SameTerms(c, o.chan) && !c.awaitingRaa
            && o.chan.pending.Some? && o.value == CommitmentSigned(o.chan.pending.value.info)
            && c.nextPoint == Some(o.chan.pending.value.info.point)
            && o.chan.pending.value.info.number == c.counterpartyNumber + 1
  {
    hide KeysIn, BalancesFor, OutputsOf;
  }

  lemma RevocationMoves(c: Chan, m: Message)
    requires m.RevokeAndAck?
    ensures Opens(c, m) ==> Rotated(c, m, Deliver(c, m))
    ensures !Opens(c, m) ==> Deliver(c, m) == Plain(c, [])
  {
    RevokeMoves(c, m);
    if Opens(c, m) {
      RevocationRotates(c, m);
    }
  }

  lemma RevocationRotates(c: Chan, m: Message)
    requires Opens(c, m) && Revoke(c, m).Done?
    ensures Rotated(c, m, Deliver(c, m))
  {
    RevokeMoves(c, m);
    hide Revoke, Flush, MarkProcessed, CollectForwardable, CanSendCommitment, SendCommitmentSigned, Opens;
    hide Shachain.InsertInto;
    var c1 := Revoke(c, m).chan;
    var c2 := c1.(htlcs := MarkProcessed(c1.htlcs), holdingCell := []);
    FlushTouches(c2, c1.holdingCell);
    var f := Flush(c2, c1.holdingCell);
    NoneIn(f.messages);
    if CanSendCommitment(f.chan) {
      CanSend(f.chan);
      SignMoves(f.chan);
      var cs := SendCommitmentSigned(f.chan).value;
      FilterCat(f.messages, [cs]);
      OneSignature(cs);
    }
  }

  lemma CanSend(c: Chan)
    requires CanSendCommitment(c)
    ensures SendCommitmentSigned(c).Done?
  {
    hide KeysIn, CounterpartyCommitmentAt;
  }

  // ---------------------------------------------------------- messages of a run

  /** Everything sent during a run, in order. */
  function Messages(c: Chan, events: seq<Event>): seq<Message> {
    if events == [] then []
    else
      var n := |events| - 1;
      Messages(c, events[..n]) + React(Run(c, events[..n]), events[n]).out
  }

  function Revocations(ms: seq<Message>): seq<Message> {
    if ms == [] then []
    else
      var n := |ms| - 1;
      Revocations(ms[..n]) + if ms[n].RevokeAndAck? then [ms[n]] else []
  }

  /** The commitments signed, in order. */
  function Signatures(ms: seq<Message>): seq<Commitment> {
    if ms == [] then []
    else
      var n := |ms| - 1;
      Signatures(ms[..n]) + if ms[n].CommitmentSigned? then [ms[n].signed] else []
  }

  lemma FilterSnoc(a: seq<Message>, m: Message)
    ensures Revocations(a + [m]) == Revocations(a) + if m.RevokeAndAck? then [m] else []
    ensures Signatures(a + [m]) == Signatures(a) + if m.CommitmentSigned? then [m.signed] else []
  {
    assert (a + [m])[..|a|] == a;
  }

  lemma Reassociate<T>(a: seq<T>, b: seq<T>, c: seq<T>)
    ensures a + (b + c) == (a + b) + c
  {
  }

  lemma {:induction false} FilterCat(a: seq<Message>, b: seq<Message>)
    ensures Revocations(a + b) == Revocations(a) + Revocations(b)
    ensures Signatures(a + b) == Signatures(a) + Signatures(b)
    decreases |b|
  {
    if b == [] {
      assert a + b == a;
    } else {
      hide Revocations, Signatures;
      var n := |b| - 1;
      var last := b[n];
      FilterCat(a, b[..n]);
      FilterSnoc(a + b[..n], last);
      FilterSnoc(b[..n], last);
      assert b == b[..n] + [last];
      Reassociate(a, b[..n], [last]);
      Reassociate(Revocations(a), Revocations(b[..n]), if last.RevokeAndAck? then [last] else []);
      Reassociate(Signatures(a), Signatures(b[..n]), if last.CommitmentSigned? then [last.signed] else []);
    }
  }

  lemma {:induction false} NoneIn(ms: seq<Message>)
    requires OnlyUpdates(ms)
    ensures Revocations(ms) == [] && Signatures(ms) == []
  {
    if ms != [] {
      NoneIn(ms[..|ms| - 1]);
    }
  }

  lemma OneSignature(m: Message)
    requires m.CommitmentSigned?
    ensures Signatures([m]) == [m.signed] && Revocations([m]) == []
  {
    assert [m][..0] == [];
  }

  lemma OneRevocation(m: Message)
    requires m.RevokeAndAck?
    ensures Revocations([m]) == [m] && Signatures([m]) == []
  {
    assert [m][..0] == [];
  }

  // ------------------------------------------------------------------- one event

  /** Any event but an accepted commitment_signed leaves our stored commitment alone
      and releases no revocation. */
  ghost predicate HolderStep(c: Chan, e: Event, r: Reaction) {
    if e.Receive? && Verifies(c, e.message) then
      && r.chan.holderNumber == c.holderNumber + 1 && r.chan.currentHolder == Some(e.message.signed)
      && Revocations(r.out) == [RevokeAndAck(SecretAt(c.crypto, c.seed, c.holderNumber),
                                             PointAt(c.crypto, c.seed, c.holderNumber + 2))]
    else SameHolder(c, r.chan) && Revocations(r.out) == []
  }

  /** Any event but an accepted revocation leaves the peer's stored commitment, its points
      and its secrets alone, and signs at most the one commitment that becomes pending. */
  ghost predicate PeerStep(c: Chan, e: Event, r: Reaction) {
    if e.Receive? && Opens(c, e.message) then Rotated(c, e.message, r)
    else
      && SamePeer(c, r.chan)
      && if r.chan.pending == c.pending then Signatures(r.out) == [] else c.pending.None? && Signs(r.chan, r.out)
  }

  lemma CommandsKeep(c: Chan, e: Event)
    requires !e.Receive?
    ensures SameTerms(c, React(c, e).chan) && SamePeer(c, React(c, e).chan)
  {
    hide SendAdd, SendRemove, SendCommitmentSigned;
    match e
    case LocalAdd(amount, paymentHash, cltvExpiry, onion, source) =>
      SendAddTouches(c, amount, paymentHash, cltvExpiry, onion, source);
    case LocalRemove(id, res) => SendRemoveTouches(c, id, res);
    case LocalFee(_) =>
    case LocalSign => if SendCommitmentSigned(c).Done? { SignMoves(c); }
  }

  /** Updates of ours, or nothing. */
  lemma NothingMoves(c: Chan, e: Event, r: Reaction)
    requires !e.Receive? && SameHolder(c, r.chan) && SamePeer(c, r.chan) && r.chan.pending == c.pending && OnlyUpdates(r.out)
    ensures HolderStep(c, e, r) && PeerStep(c, e, r)
  {
    NoneIn(r.out);
  }

  lemma SigningMoves(c: Chan, e: Event)
    requires e.LocalSign? && SendCommitmentSigned(c).Done? && (c.pending.Some? ==> c.awaitingRaa)
    ensures HolderStep(c, e, React(c, e)) && PeerStep(c, e, React(c, e))
  {
    hide SendCommitmentSigned;
    SignMoves(c);
    OneSignature(SendCommitmentSigned(c).value);
  }

  lemma CommandMoves(c: Chan, e: Event)
    requires !e.Receive? && (c.pending.Some? ==> c.awaitingRaa)
    ensures HolderStep(c, e, React(c, e)) && PeerStep(c, e, React(c, e))
  {
    hide SendAdd, SendRemove, SendCommitmentSigned, HolderStep, PeerStep;
    match e
    case LocalAdd(amount, paymentHash, cltvExpiry, onion, source) =>
      SendAddTouches(c, amount, paymentHash, cltvExpiry, onion, source);
      NothingMoves(c, e, React(c, e));
    case LocalRemove(id, res) =>
      SendRemoveTouches(c, id, res);
      NothingMoves(c, e, React(c, e));
    case LocalFee(_) => NothingMoves(c, e, React(c, e));
    case LocalSign =>
      if SendCommitmentSigned(c).Done? { SigningMoves(c, e); } else { NothingMoves(c, e, React(c, e)); }
  }

  lemma MessageMoves(c: Chan, m: Message)
    ensures var r := React(c, Receive(m));
            SameTerms(c, r.chan) && HolderStep(c, Receive(m), r) && PeerStep(c, Receive(m), r)
  {
    hide HolderStep, PeerStep, SameTerms, Deliver;
    if m.CommitmentSigned? {
      SignatureMoves(c, m);
    } else if m.RevokeAndAck? {
      SecretMoves(c, m);
    } else {
      UpdateMoves(c, m);
    }
  }

  lemma SignatureMoves(c: Chan, m: Message)
    requires m.CommitmentSigned?
    ensures var r := Deliver(c, m); SameTerms(c, r.chan) && HolderStep(c, Receive(m), r) && PeerStep(c, Receive(m), r)
  {
    hide Verifies, Opens, Deliver, SecretAt, PointAt, Rotated;
    OnlyForItsKind(c, m);
    CommitmentStored(c, m);
    if Verifies(c, m) { OneRevocation(Deliver(c, m).out[0]); }
  }

  lemma SecretMoves(c: Chan, m: Message)
    requires m.RevokeAndAck?
    ensures var r := Deliver(c, m); SameTerms(c, r.chan) && HolderStep(c, Receive(m), r) && PeerStep(c, Receive(m), r)
  {
    hide Verifies, Opens, Deliver, Shachain.InsertInto, Signs;
    OnlyForItsKind(c, m);
    RevocationMoves(c, m);
  }

  lemma UpdateMoves(c: Chan, m: Message)
    requires !m.CommitmentSigned? && !m.RevokeAndAck?
    ensures var r := Deliver(c, m); SameTerms(c, r.chan) && HolderStep(c, Receive(m), r) && PeerStep(c, Receive(m), r)
  {
    hide Verifies, Opens, Deliver, Rotated;
    OnlyForItsKind(c, m);
    UpdatesTouch(c, m);
    NoneIn(Deliver(c, m).out);
  }

  lemma OnlyForItsKind(c: Chan, m: Message)
    ensures Verifies(c, m) ==> m.CommitmentSigned? && c.holderNumber + 2 <= Shachain.MAX_INDEX
    ensures Opens(c, m) ==> m.RevokeAndAck? && c.pending.Some? && c.counterpartyNumber <= Shachain.MAX_INDEX
  {
  }

  // ---------------------------------------------------------------- our own side

  /** A commitment on our own terms: our dust limit, the delay the peer imposes, fees paid
      by the opener, our point for its number. */
  ghost predicate OwnTerms(c: Chan, v: Commitment) {
    && v.number == c.holderNumber <= Shachain.MAX_INDEX && v.point == PointAt(c.crypto, c.seed, v.number)
    && v.broadcasterPaysFee == c.role.Opener?
    && v.dustLimit == c.params.holderDustLimitSat && v.delay == c.params.counterpartySelectedDelay
  }

  /** The revocation of our commitment `n`. */
  ghost predicate IsRelease(c: Chan, m: Message, n: nat) {
    n + 2 <= Shachain.MAX_INDEX && m == RevokeAndAck(SecretAt(c.crypto, c.seed, n), PointAt(c.crypto, c.seed, n + 2))
  }

  /** The commitment stored is ours for the current number, and the revocations sent are,
      in order, those of every number below it. */
  ghost predicate HolderCustody(c0: Chan, c: Chan, sent: seq<Message>) {
    && SameTerms(c0, c)
    && c.currentHolder.Some? && OwnTerms(c, c.currentHolder.value)
    && c.holderNumber == c0.holderNumber + |sent|
    && forall k | 0 <= k < |sent| :: IsRelease(c, sent[k], c0.holderNumber + k)
  }

  lemma HolderCustodyStep(c0: Chan, c: Chan, e: Event, sent: seq<Message>)
    requires HolderCustody(c0, c, sent) && HolderStep(c, e, React(c, e)) && SameTerms(c, React(c, e).chan)
    ensures HolderCustody(c0, React(c, e).chan, sent + Revocations(React(c, e).out))
  {
    hide React, Revocations, SecretAt, PointAt;
    var released := Revocations(React(c, e).out);
    if e.Receive? && Verifies(c, e.message) {
      BuiltOnOwnTerms(c);
      assert (sent + released)[|sent|] == released[0];
    } else {
      assert sent + released == sent;
    }
  }

  lemma BuiltOnOwnTerms(c: Chan)
    requires c.holderNumber + 1 <= Shachain.MAX_INDEX
    ensures OwnTerms(c.(holderNumber := c.holderNumber + 1), HolderCommitmentAt(c, c.holderNumber + 1))
  {
    hide BalancesFor, OutputsOf, PointAt;
  }

  lemma EventMoves(c0: Chan, events: seq<Event>, e: Event)
    requires Fresh(c0)
    ensures var c := Run(c0, events);
            var r := React(c, e);
            SameTerms(c, r.chan) && HolderStep(c, e, r) && PeerStep(c, e, r)
  {
    hide React, HolderStep, PeerStep, Fresh;
    var c := Run(c0, events);
    if e.Receive? {
      MessageMoves(c, e.message);
    } else {
      PendingAwaited(c0, events);
      CommandsKeep(c, e);
      CommandMoves(c, e);
    }
  }

  lemma PendingAwaited(c0: Chan, events: seq<Event>)
    requires Fresh(c0)
    ensures var c := Run(c0, events); c.pending.Some? <==> c.awaitingRaa
  {
    hide Ledger.Inv, Run;
    var g := RunInv(c0, events);
    Ledger.InvCounts(Run(c0, events), g);
  }

  lemma RunSnoc(c0: Chan, events: seq<Event>)
    requires events != []
    ensures var n := |events| - 1;
            var c := Run(c0, events[..n]);
            && Run(c0, events) == React(c, events[n]).chan
            && Revocations(Messages(c0, events)) ==
               Revocations(Messages(c0, events[..n])) + Revocations(React(c, events[n]).out)
            && Signatures(Messages(c0, events)) ==
               Signatures(Messages(c0, events[..n])) + Signatures(React(c, events[n]).out)
  {
    hide React, Revocations, Signatures;
    var n := |events| - 1;
    FilterCat(Messages(c0, events[..n]), React(Run(c0, events[..n]), events[n]).out);
  }

  /**
   * No revocation leaves before its successor is stored. At every moment of a run the
   * revocations sent so far are exactly those of the numbers below the stored commitment's,
   * each once and in order, and a commitment is always stored.
   */
  lemma {:induction false} RevokedOnlyOnceReplaced(c0: Chan, events: seq<Event>)
    requires Fresh(c0)
    ensures HolderCustody(c0, Run(c0, events), Revocations(Messages(c0, events)))
    decreases |events|
  {
    if events == [] {
      FreshCustody(c0);
    } else {
      hide Fresh, React, HolderCustody, HolderStep, PeerStep, Revocations, Signatures, Messages, Run;
      var n := |events| - 1;
      RevokedOnlyOnceReplaced(c0, events[..n]);
      EventMoves(c0, events[..n], events[n]);
      RunSnoc(c0, events);
      HolderCustodyStep(c0, Run(c0, events[..n]), events[n], Revocations(Messages(c0, events[..n])));
    }
  }

  lemma FreshCustody(c0: Chan)
    requires Fresh(c0)
    ensures HolderCustody(c0, Run(c0, []), Revocations(Messages(c0, [])))
  {
    hide BalancesFor, OutputsOf, PointAt, CounterpartyCommitmentAt;
  }

  /** Our commitment number moves exactly when a commitment_signed arrives that signs what
      we build ourselves, and what it signs is then stored. */
  lemma HolderMovesExactlyWhen(c0: Chan, events: seq<Event>, e: Event)
    requires Fresh(c0)
    ensures var c := Run(c0, events);
            var d := React(c, e).chan;
            && (d.holderNumber != c.holderNumber <==>
                  && e.Receive? && e.message.CommitmentSigned? && Operational(c)
                  && c.holderNumber + 2 <= Shachain.MAX_INDEX
                  && e.message.signed == HolderCommitmentAt(c, c.holderNumber + 1))
            && (d.holderNumber != c.holderNumber ==>
                  d.holderNumber == c.holderNumber + 1 && d.currentHolder == Some(e.message.signed))
            && (d.holderNumber == c.holderNumber ==> d.currentHolder == c.currentHolder)
  {
    hide React, Fresh, Run, HolderCommitmentAt, Operational, PeerStep;
    EventMoves(c0, events, e);
  }

  /** Event `j` was the last accepted commitment_signed, or there was none. */
  ghost predicate LastVerified(c0: Chan, events: seq<Event>, j: nat) {
    && j <= |events|
    && (j == 0 ==> SameHolder(c0, Run(c0, events)))
    && (j > 0 ==>
          var before := Run(c0, events[..j - 1]);
          && events[j - 1].Receive? && Verifies(before, events[j - 1].message)
          && Run(c0, events).holderNumber == before.holderNumber + 1
          && Run(c0, events).currentHolder == Some(events[j - 1].message.signed))
  }

  lemma VerifiedNow(c0: Chan, events: seq<Event>)
    requires Fresh(c0) && events != []
    requires var e := events[|events| - 1]; e.Receive? && Verifies(Run(c0, events[..|events| - 1]), e.message)
    ensures LastVerified(c0, events, |events|)
  {
    hide React, Fresh, PeerStep, Verifies;
    EventMoves(c0, events[..|events| - 1], events[|events| - 1]);
    OnlyForItsKind(Run(c0, events[..|events| - 1]), events[|events| - 1].message);
  }

  lemma VerifiedBefore(c0: Chan, events: seq<Event>, j: nat)
    requires Fresh(c0) && events != [] && LastVerified(c0, events[..|events| - 1], j)
    requires var e := events[|events| - 1]; !(e.Receive? && Verifies(Run(c0, events[..|events| - 1]), e.message))
    ensures LastVerified(c0, events, j)
  {
    hide React, Fresh, PeerStep, Verifies;
    var n := |events| - 1;
    EventMoves(c0, events[..n], events[n]);
    assert Run(c0, events) == React(Run(c0, events[..n]), events[n]).chan;
    hide Run;
    if j > 0 {
      assert events[..n][..j - 1] == events[..j - 1];
      OnlyForItsKind(Run(c0, events[..j - 1]), events[j - 1].message);
    }
  }

  /** What is stored is what was verified last: a commitment_signed for exactly the
      commitment we had built, or the one stored at funding. */
  lemma {:induction false} StoredWasVerified(c0: Chan, events: seq<Event>) returns (j: nat)
    requires Fresh(c0)
    ensures j <= |events| && LastVerified(c0, events, j)
    decreases |events|
  {
    j := 0;
    if events != [] {
      hide LastVerified, Run, Verifies;
      var n := |events| - 1;
      if events[n].Receive? && Verifies(Run(c0, events[..n]), events[n].message) {
        VerifiedNow(c0, events);
        j := |events|;
      } else {
        j := StoredWasVerified(c0, events[..n]);
        VerifiedBefore(c0, events, j);
      }
    }
  }

  // ------------------------------------------------------------------ the peer's side

  /** `all` are the first commitment of the peer and every one we signed since, `secrets`
      what it has released. */
  ghost predicate PeerCustody(c: Chan, all: seq<Commitment>, secrets: seq<Bytes>) {
    && |secrets| == c.counterpartyNumber <= Shachain.MAX_INDEX + 1
    && Shachain.InsertRun(c.crypto.sha, secrets) == Some(c.secrets)
    && |all| == c.counterpartyNumber + 1 + (if c.pending.Some? then 1 else 0)
    && (forall k | 0 <= k < |all| :: all[k].number == k)
    && c.currentCounterparty == Some(all[c.counterpartyNumber])
    && c.currentPoint == Some(all[c.counterpartyNumber].point)
    && (c.pending.Some? ==>
          c.pending.value.info == all[c.counterpartyNumber + 1] &&
          c.nextPoint == Some(all[c.counterpartyNumber + 1].point))
    && forall k | 0 <= k < c.counterpartyNumber :: c.crypto.pointOf(secrets[k]) == all[k].point
  }

  lemma PeerCustodyRotates(c: Chan, m: Message, r: Reaction, all: seq<Commitment>, secrets: seq<Bytes>)
    requires PeerCustody(c, all, secrets) && Opens(c, m) && Rotated(c, m, r)
    ensures PeerCustody(r.chan, all + Signatures(r.out), secrets + [m.secret])
  {
    hide Shachain.InsertInto, Signatures, Revocations;
    assert (secrets + [m.secret])[..|secrets|] == secrets;
  }

  lemma PeerCustodyStep(c: Chan, e: Event, r: Reaction, all: seq<Commitment>, secrets: seq<Bytes>)
    returns (secrets': seq<Bytes>)
    requires PeerCustody(c, all, secrets) && PeerStep(c, e, r) && SameTerms(c, r.chan)
    ensures PeerCustody(r.chan, all + Signatures(r.out), secrets')
  {
    hide Shachain.InsertInto, Shachain.InsertRun, Signatures, Revocations, Opens, Rotated;
    if e.Receive? && Opens(c, e.message) {
      assert e.message.RevokeAndAck? by { OnlyForItsKind(c, e.message); }
      PeerCustodyRotates(c, e.message, r, all, secrets);
      secrets' := secrets + [e.message.secret];
    } else {
      secrets' := secrets;
      if r.chan.pending == c.pending { assert all + Signatures(r.out) == all; }
    }
  }

  function Signed(c0: Chan, events: seq<Event>): seq<Commitment>
    requires c0.currentCounterparty.Some?
  {
    [c0.currentCounterparty.value] + Signatures(Messages(c0, events))
  }

  lemma SignedSnoc(c0: Chan, events: seq<Event>)
    requires events != [] && c0.currentCounterparty.Some?
    ensures var n := |events| - 1;
            Signed(c0, events) == Signed(c0, events[..n]) + Signatures(React(Run(c0, events[..n]), events[n]).out)
  {
    hide React, Run, Signatures, Messages;
    RunSnoc(c0, events);
    var n := |events| - 1;
    Reassociate([c0.currentCounterparty.value], Signatures(Messages(c0, events[..n])),
                Signatures(React(Run(c0, events[..n]), events[n]).out));
  }

  lemma {:induction false} RunPeerCustody(c0: Chan, events: seq<Event>) returns (secrets: seq<Bytes>)
    requires Fresh(c0) && c0.counterpartyNumber == 0 && c0.secrets == Shachain.EmptySlots()
    ensures PeerCustody(Run(c0, events), Signed(c0, events), secrets)
    decreases |events|
  {
    if events == [] {
      secrets := [];
      FreshPeerCustody(c0);
    } else {
      hide Fresh, React, PeerCustody, HolderStep, PeerStep, Revocations, Signatures, Messages, Run, Signed;
      var n := |events| - 1;
      secrets := RunPeerCustody(c0, events[..n]);
      EventMoves(c0, events[..n], events[n]);
      RunSnoc(c0, events);
      var r := React(Run(c0, events[..n]), events[n]);
      SignedSnoc(c0, events);
      secrets := PeerCustodyStep(Run(c0, events[..n]), events[n], r, Signed(c0, events[..n]), secrets);
    }
  }

  lemma FreshPeerCustody(c0: Chan)
    requires Fresh(c0) && c0.counterpartyNumber == 0 && c0.secrets == Shachain.EmptySlots()
    ensures PeerCustody(Run(c0, []), Signed(c0, []), [])
  {
    hide BalancesFor, OutputsOf, PointAt, HolderCommitmentAt;
  }

  /**
   * Every revoked commitment can be answered. The commitments we signed are numbered in
   * order; the stored one is the last the peer has revoked up to; and for each one before
   * it the store gives the secret that opens its point, whatever the peer sent.
   */
  lemma RevokedCanBeOpened(c0: Chan, events: seq<Event>, k: nat)
    requires Fresh(c0) && c0.counterpartyNumber == 0 && c0.secrets == Shachain.EmptySlots()
    requires k <= Run(c0, events).counterpartyNumber
    ensures var c := Run(c0, events);
            var all := Signed(c0, events);
            && k <= c.counterpartyNumber < |all| && c.counterpartyNumber <= Shachain.MAX_INDEX + 1 && all[k].number == k
            && c.currentCounterparty == Some(all[c.counterpartyNumber])
            && (k < c.counterpartyNumber ==>
                  var s := Shachain.Lookup(c.crypto.sha, c.secrets, Shachain.IndexForCommitment(k));
                  s.Some? && c.crypto.pointOf(s.value) == all[k].point)
  {
    hide Fresh, Run, Signed, Shachain.Lookup, Shachain.InsertRun;
    var secrets := RunPeerCustody(c0, events);
    if k < Run(c0, events).counterpartyNumber {
      Shachain.StoreRefinesFullMap(Run(c0, events).crypto.sha, secrets, Shachain.IndexForCommitment(k));
    }
  }
}
