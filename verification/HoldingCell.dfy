/**
 * What becomes of the operations parked while a commitment is in flight, and of
 * every payment the node layer entrusts to the channel: nothing is lost and
 * nothing happens twice, whatever the peer does.
 */
module HoldingCell {
  import opened Wrappers
  import opened Channel
  import opened Ledger
  import opened LedgerUpdates
  import opened LedgerCommits
  import opened ChannelRuns
  import opened Releases

  // ------------------------------------------------------- one parked operation

  datatype Fate = Issued(message: Message) | GivenUp(source: Source) | Dropped

  /** An add is possible now. */
  predicate AddFits(c: Chan, amount: nat, cltvExpiry: nat) {
    c.state.Normal? && !c.shutdownSent && !c.shutdownReceived && OutboundAddAllowed(c, amount, cltvExpiry)
  }

  /** HTLC `i` is the peer's HTLC `id`, is locked on both sides and may be removed with `res`. */
  predicate Removable(c: Chan, i: nat, id: nat, res: Resolution) {
    && i < |c.htlcs| && Find(c.htlcs, false, id) == Some(i) && Irrevocable(c.htlcs[i])
    && PreimageMatches(c, res, c.htlcs[i].paymentHash)
  }

  /** The turn of one parked operation: from `c` to `d`. */
  ghost predicate Turn(c: Chan, op: HoldingOp, fate: Fate, d: Chan) {
    match op
    case HoldAdd(amount, paymentHash, cltvExpiry, onion, source) =>
      if AddFits(c, amount, cltvExpiry) then
        && fate == Issued(UpdateAddHtlc(c.nextHolderId, amount, paymentHash, cltvExpiry, onion))
        && d == c.(nextHolderId := c.nextHolderId + 1, dirty := true, htlcs := c.htlcs +
             [Htlc(true, c.nextHolderId, amount, paymentHash, cltvExpiry, onion, Some(source), None, NotYet, Pending, false)])
      else fate == GivenUp(source) && d == c
    case HoldRemove(id, res) =>
      if exists i: nat :: Removable(c, i, id, res) then
        fate == Issued(UpdateRemoveHtlc(id, res)) &&
        exists i: nat :: Removable(c, i, id, res) && d == c.(dirty := true,
          htlcs := c.htlcs[i := c.htlcs[i].(resolution := Some(res), phaseCounterparty := Removing)])
      else fate == Dropped && d == c
  }

  /** Each operation has its turn, in order. */
  ghost predicate Turns(ops: seq<HoldingOp>, fates: seq<Fate>, states: seq<Chan>) {
    && |fates| == |ops| && |states| == |ops| + 1
    && forall k | 0 <= k < |ops| :: Turn(states[k], ops[k], fates[k], states[k + 1])
  }

  function IssuedBy(fates: seq<Fate>): seq<Message> {
    if fates == [] then []
    else
      var n := |fates| - 1;
      IssuedBy(fates[..n]) + if fates[n].Issued? then [fates[n].message] else []
  }

  function GivenUpBy(fates: seq<Fate>): seq<Source> {
    if fates == [] then []
    else
      var n := |fates| - 1;
      GivenUpBy(fates[..n]) + if fates[n].GivenUp? then [fates[n].source] else []
  }

  lemma FatesSnoc(fates: seq<Fate>, fate: Fate)
    ensures IssuedBy(fates + [fate]) == IssuedBy(fates) + if fate.Issued? then [fate.message] else []
    ensures GivenUpBy(fates + [fate]) == GivenUpBy(fates) + if fate.GivenUp? then [fate.source] else []
  {
    assert (fates + [fate])[..|fates|] == fates;
  }

  /** Re-issuing one operation with no commitment in flight gives it its turn. */
  lemma FlushTurn(c: Chan, ops: seq<HoldingOp>) returns (fate: Fate)
    requires ops != [] && !Flush(c, ops[..|ops| - 1]).chan.awaitingRaa
    ensures var f := Flush(c, ops[..|ops| - 1]);
            var f' := Flush(c, ops);
            && Turn(f.chan, ops[|ops| - 1], fate, f'.chan) && !f'.chan.awaitingRaa
            && f'.messages == f.messages + (if fate.Issued? then [fate.message] else [])
            && f'.failedAdds == f.failedAdds + (if fate.GivenUp? then [fate.source] else [])
  {
    hide OutboundAddAllowed, Irrevocable, PreimageMatches;
    var n := |ops| - 1;
    var d := Flush(c, ops[..n]).chan;
    match ops[n]
    case HoldAdd(amount, paymentHash, cltvExpiry, onion, source) =>
      fate := if AddFits(d, amount, cltvExpiry)
              then Issued(UpdateAddHtlc(d.nextHolderId, amount, paymentHash, cltvExpiry, onion)) else GivenUp(source);
    case HoldRemove(id, res) =>
      var found := Find(d.htlcs, false, id);
      if found.Some? && Removable(d, found.value, id, res) {
        fate := Issued(UpdateRemoveHtlc(id, res));
      } else {
        fate := Dropped;
        assert !exists i: nat :: Removable(d, i, id, res);
      }
  }

  lemma {:induction false} FlushTurns(c: Chan, ops: seq<HoldingOp>) returns (fates: seq<Fate>, states: seq<Chan>)
    requires !c.awaitingRaa
    ensures Turns(ops, fates, states) && states[0] == c && states[|ops|] == Flush(c, ops).chan
    ensures !Flush(c, ops).chan.awaitingRaa
    ensures Flush(c, ops).messages == IssuedBy(fates) && Flush(c, ops).failedAdds == GivenUpBy(fates)
    decreases |ops|
  {
    if ops == [] {
      fates, states := [], [c];
    } else {
      var n := |ops| - 1;
      fates, states := FlushTurns(c, ops[..n]);
      var fate := FlushTurn(c, ops);
      hide Flush, Turn;
      var f := fates;
      var s := states;
      fates, states := f + [fate], s + [Flush(c, ops).chan];
      FatesSnoc(f, fate);
      forall k | 0 <= k < |ops| ensures Turn(states[k], ops[k], fates[k], states[k + 1]) {
        if k < n {
          assert Turn(s[k], ops[..n][k], f[k], s[k + 1]);
        }
      }
    }
  }

  /** A flush never parks an operation again: the holding cell it started with
      is the one it ends with, and no commitment comes to be in flight. */
  lemma {:induction false} FlushNeverParks(c: Chan, ops: seq<HoldingOp>)
    requires !c.awaitingRaa
    ensures !Flush(c, ops).chan.awaitingRaa && Flush(c, ops).chan.holdingCell == c.holdingCell
    decreases |ops|
  {
    hide OutboundAddAllowed, Find, Irrevocable, PreimageMatches;
    if ops != [] {
      FlushNeverParks(c, ops[..|ops| - 1]);
    }
  }

  /**
   * Nothing parked is lost. When a revocation is accepted every operation in the holding
   * cell has its turn, in order, starting from the state the revocation left: an add is
   * issued with its own data or its source is given up, exactly once and according to
   * whether it fits at that moment; a removal is issued or its HTLC could not be removed.
   * The messages sent are the issued ones and at most one commitment after them.
   */
  lemma NothingParkedIsLost(c: Chan, m: Message) returns (fates: seq<Fate>, states: seq<Chan>)
    requires m.RevokeAndAck? && OnRevokeAndAck(c, m).Done?
    ensures Revoke(c, m).Done?
    ensures var c1 := Revoke(c, m).chan;
            var out := OnRevokeAndAck(c, m).value;
            && Turns(c.holdingCell, fates, states)
            && states[0] == c1.(htlcs := MarkProcessed(c1.htlcs), holdingCell := [])
            && out.failedAdds == GivenUpBy(fates)
            && IssuedBy(fates) <= out.messages
            && (out.messages == IssuedBy(fates) ==> OnRevokeAndAck(c, m).chan == states[|c.holdingCell|])
            && (out.messages != IssuedBy(fates) ==>
                  var cs := SendCommitmentSigned(states[|c.holdingCell|]);
                  cs.Done? && OnRevokeAndAck(c, m).chan == cs.chan && out.messages == IssuedBy(fates) + [cs.value])
            && OnRevokeAndAck(c, m).chan.holdingCell == []
  {
    RevokeCell(c, m);
    hide Revoke, MarkProcessed, CollectForwardable, SendCommitmentSigned, CanSendCommitment, Turns;
    var c1 := Revoke(c, m).chan;
    var c2 := c1.(htlcs := MarkProcessed(c1.htlcs), holdingCell := []);
    fates, states := FlushTurns(c2, c1.holdingCell);
    FlushNeverParks(c2, c1.holdingCell);
    var f := Flush(c2, c1.holdingCell);
    hide Flush;
    if CanSendCommitment(f.chan) {
      SignKeepsCell(f.chan);
    }
  }

  lemma RevokeCell(c: Chan, m: Message)
    requires m.RevokeAndAck? && OnRevokeAndAck(c, m).Done?
    ensures Revoke(c, m).Done? && Revoke(c, m).chan.holdingCell == c.holdingCell && !Revoke(c, m).chan.awaitingRaa
  {
    hide ApplyIncluded, ApplyRemoved, Kept, BakedBalances, Flush, SendCommitmentSigned;
  }

  lemma SignKeepsCell(c: Chan)
    ensures SendCommitmentSigned(c).Done? ==> SendCommitmentSigned(c).chan.holdingCell == c.holdingCell
  {
    hide KeysIn, CounterpartyCommitmentAt;
  }
}
