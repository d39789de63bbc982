/**
 * What a channel does when the transport drops: updates that no signed
 * commitment covers are taken back, our own to be issued again.
 */
module Rollback {
  import opened Wrappers
  import opened Channel

  /** What happens to one HTLC: it stays, perhaps changed, or is forgotten. */
  datatype Verdict = Verdict(kept: Option<Htlc>, requeued: seq<HoldingOp>)

  function InFlight(c: Chan): seq<Key> {
    if c.pending.Some? then c.pending.value.included else []
  }

  function InFlightRemoved(c: Chan): seq<Key> {
    if c.pending.Some? then c.pending.value.removed else []
  }

  function KeyOf(h: Htlc): Key {
    Key(h.outbound, h.id)
  }

  /** Our current commitment has an HTLC with this one's data. */
  predicate InOurCurrent(c: Chan, h: Htlc) {
    c.currentHolder.Some? && OutputOf(h, true) in c.currentHolder.value.htlcs
  }

  function AddAgain(h: Htlc): seq<HoldingOp> {
    if h.source.Some? then [HoldAdd(h.amount, h.paymentHash, h.cltvExpiry, h.onion, h.source.value)] else []
  }

  /** A malformed failure is not issued again. */
  function RemoveAgain(h: Htlc): seq<HoldingOp> {
    if h.resolution.Some? && !h.resolution.value.FailMalformed? then [HoldRemove(h.id, h.resolution.value)] else []
  }

  function Unacknowledged(c: Chan, h: Htlc): Htlc {
    if !h.outbound && h.phaseCounterparty.Pending? && KeyOf(h) !in InFlight(c)
    then h.(phaseCounterparty := NotYet) else h
  }

  predicate UnsignedRemoval(c: Chan, h: Htlc) {
    h.phaseCounterparty.Removing? && KeyOf(h) !in InFlightRemoved(c)
  }

  function Unremoved(c: Chan, h: Htlc): Htlc {
    if !UnsignedRemoval(c, h) then h
    else if h.outbound then h.(resolution := None, phaseCounterparty := Committed, phaseHolder := Committed)
    else h.(resolution := None, phaseCounterparty := Committed)
  }

  function Judged(c: Chan, h: Htlc): Verdict {
    if h.outbound && h.phaseCounterparty.Pending? && KeyOf(h) !in InFlight(c) then Verdict(None, AddAgain(h))
    else
      var h1 := Unacknowledged(c, h);
      var h2 := Unremoved(c, h1);
      var again := if !h.outbound && UnsignedRemoval(c, h1) then RemoveAgain(h1) else [];
      if !h.outbound && h2.phaseHolder.Pending? && !InOurCurrent(c, h2) then Verdict(None, again)
      else if h.outbound && h2.phaseHolder.Removing?
      then Verdict(Some(h2.(resolution := None, phaseHolder := Committed)), again)
      else Verdict(Some(h2), again)
  }

  function Retained(c: Chan, htlcs: seq<Htlc>): seq<Htlc> {
    if htlcs == [] then []
    else
      var n := |htlcs| - 1;
      var v := Judged(c, htlcs[n]);
      Retained(c, htlcs[..n]) + if v.kept.Some? then [v.kept.value] else []
  }

  function Requeued(c: Chan, htlcs: seq<Htlc>): seq<HoldingOp> {
    if htlcs == [] then []
    else
      var n := |htlcs| - 1;
      Requeued(c, htlcs[..n]) + Judged(c, htlcs[n]).requeued
  }

  /** The lowest id of a forgotten HTLC of the peer, or `next`. */
  function NextExpected(c: Chan, htlcs: seq<Htlc>, next: nat): nat {
    if htlcs == [] then next
    else
      var n := |htlcs| - 1;
      var before := NextExpected(c, htlcs[..n], next);
      if !htlcs[n].outbound && Judged(c, htlcs[n]).kept.None? && htlcs[n].id < before then htlcs[n].id else before
  }

  function OnDisconnect(c: Chan): Chan {
    c.(htlcs := Retained(c, c.htlcs),
       nextCounterpartyId := NextExpected(c, c.htlcs, c.nextCounterpartyId),
       holdingCell := Requeued(c, c.htlcs) + c.holdingCell,
       pendingFeeAck := None,
       feerateHolder := if c.pendingFeeAck.Some? then c.feerateCounterparty else c.feerateHolder)
  }
}
