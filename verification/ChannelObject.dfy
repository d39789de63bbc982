/**
 * The channel as the object the source updates in place. Every method is
 * proved to have the result and the new state of the function of the same name
 * in `Channel`, over which the theorems about runs are stated; on an error the
 * state is left as it was.
 */
module ChannelObject {
  import opened Wrappers
  import opened Channel
  import Rollback
  import Shachain

  /** The result and state change of a method are those of its specification. */
  ghost predicate Implements<T(!new)>(spec: Outcome<T>, was: Chan, now: Chan, r: Result<T, ChannelError>) {
    match spec
    case Done(c, v) => r == Ok(v) && now == c
    case Failed(e) => r == Err(e) && now == was
  }

  lemma PrefixStep<T>(s: seq<T>, i: nat)
    requires i < |s|
    ensures s[..i + 1] == s[..i] + [s[i]]
    ensures s[..i + 1][..i] == s[..i]
  {
  }

  lemma Whole<T>(s: seq<T>)
    ensures s[..|s|] == s
  {
  }

  lemma LiveNone(outbound: bool)
    ensures LiveCount([], outbound) == 0 && LiveAmount([], outbound) == 0
  {
  }

  lemma LiveStep(htlcs: seq<Htlc>, i: nat, outbound: bool)
    requires i < |htlcs|
    ensures var live := htlcs[i].outbound == outbound && htlcs[i].resolution.None?;
            && LiveCount(htlcs[..i + 1], outbound) == LiveCount(htlcs[..i], outbound) + (if live then 1 else 0)
            && LiveAmount(htlcs[..i + 1], outbound)
               == LiveAmount(htlcs[..i], outbound) + (if live then htlcs[i].amount else 0)
  {
    PrefixStep(htlcs, i);
  }

  class Endpoint {
    const crypto: Crypto
    const seed: Bytes
    const role: Role
    const params: Params
    var state: State
    var shutdownSent: bool
    var shutdownReceived: bool
    var feerateHolder: nat
    var feerateCounterparty: nat
    var pendingFeeAck: Option<nat>
    var toHolder: nat
    var toCounterparty: nat
    var dirty: bool
    var htlcs: seq<Htlc>
    var nextHolderId: nat
    var nextCounterpartyId: nat
    var holderNumber: nat
    var counterpartyNumber: nat
    var currentPoint: Option<Bytes>
    var nextPoint: Option<Bytes>
    const secrets: Shachain.SecretStore
    var currentHolder: Option<Commitment>
    var currentCounterparty: Option<Commitment>
    var pending: Option<PendingCommitment>
    var awaitingRaa: bool
    var holdingCell: seq<HoldingOp>

    ghost predicate Valid()
      reads this, secrets
    {
      secrets.Valid()
    }

    ghost function Snapshot(): Chan
      requires Valid()
      reads this, secrets, secrets.known
    {
      Chan(crypto, seed, role, state, params, shutdownSent, shutdownReceived,
           feerateHolder, feerateCounterparty, pendingFeeAck, Balances(toHolder, toCounterparty),
           dirty, htlcs, nextHolderId, nextCounterpartyId, holderNumber, counterpartyNumber,
           currentPoint, nextPoint, secrets.Contents(), currentHolder, currentCounterparty,
           pending, awaitingRaa, holdingCell)
    }

    /** A channel before any revocation. */
    constructor (c: Chan)
      requires c.secrets == Shachain.EmptySlots()
      ensures Valid() && fresh(secrets) && fresh(secrets.known)
      ensures Snapshot() == c
    {
      crypto, seed, role, params := c.crypto, c.seed, c.role, c.params;
      state, shutdownSent, shutdownReceived := c.state, c.shutdownSent, c.shutdownReceived;
      feerateHolder, feerateCounterparty, pendingFeeAck := c.feerateHolder, c.feerateCounterparty, c.pendingFeeAck;
      toHolder, toCounterparty, dirty := c.base.holder, c.base.counterparty, c.dirty;
      htlcs, nextHolderId, nextCounterpartyId := c.htlcs, c.nextHolderId, c.nextCounterpartyId;
      holderNumber, counterpartyNumber := c.holderNumber, c.counterpartyNumber;
      currentPoint, nextPoint := c.currentPoint, c.nextPoint;
      currentHolder, currentCounterparty := c.currentHolder, c.currentCounterparty;
      pending, awaitingRaa, holdingCell := c.pending, c.awaitingRaa, c.holdingCell;
      secrets := new Shachain.SecretStore();
    }

    // ------------------------------------------------------------- reading

    method Balance(holderSide: bool) returns (forHolder: nat, forCounterparty: nat)
      requires Valid()
      ensures Balances(forHolder, forCounterparty) == BalancesFor(Snapshot(), holderSide)
    {
      forHolder, forCounterparty := toHolder, toCounterparty;
      ghost var base := Balances(toHolder, toCounterparty);
      for i := 0 to |htlcs|
        invariant Balances(forHolder, forCounterparty) == BalancesOf(base, htlcs[..i], holderSide)
      {
        PrefixStep(htlcs, i);
        var h := htlcs[i];
        var phase := if holderSide then h.phaseHolder else h.phaseCounterparty;
        if phase.Included() {
          if h.outbound {
            forHolder := SaturatingSub(forHolder, h.amount);
          } else {
            forCounterparty := SaturatingSub(forCounterparty, h.amount);
          }
        } else if phase.Credited() && h.resolution.Some? && h.resolution.value.Fulfill? {
          if h.outbound {
            forHolder := SaturatingSub(forHolder, h.amount);
            forCounterparty := forCounterparty + h.amount;
          } else {
            forCounterparty := SaturatingSub(forCounterparty, h.amount);
            forHolder := forHolder + h.amount;
          }
        }
      }
      Whole(htlcs);
    }

    /** The unresolved HTLCs one side offered: how many, and their total. */
    method Live(outbound: bool) returns (count: nat, amount: nat)
      ensures count == LiveCount(htlcs, outbound) && amount == LiveAmount(htlcs, outbound)
    {
      hide LiveCount, LiveAmount;
      count, amount := 0, 0;
      LiveNone(outbound);
      for i := 0 to |htlcs|
        invariant count == LiveCount(htlcs[..i], outbound) && amount == LiveAmount(htlcs[..i], outbound)
      {
        LiveStep(htlcs, i, outbound);
        if htlcs[i].outbound == outbound && htlcs[i].resolution.None? {
          count, amount := count + 1, amount + htlcs[i].amount;
        }
      }
      Whole(htlcs);
    }

    method CountIncluded(holderSide: bool) returns (count: nat)
      ensures count == IncludedCount(htlcs, holderSide)
    {
      count := 0;
      for i := 0 to |htlcs|
        invariant count == IncludedCount(htlcs[..i], holderSide)
      {
        PrefixStep(htlcs, i);
        if htlcs[i].PhaseOn(holderSide).Included() {
          count := count + 1;
        }
      }
      Whole(htlcs);
    }

    method Outputs(holderSide: bool) returns (outputs: multiset<HtlcOutput>)
      ensures outputs == OutputsOf(htlcs, holderSide)
    {
      outputs := multiset{};
      for i := 0 to |htlcs|
        invariant outputs == OutputsOf(htlcs[..i], holderSide)
      {
        PrefixStep(htlcs, i);
        if htlcs[i].PhaseOn(holderSide).Included() {
          outputs := outputs + multiset{OutputOf(htlcs[i], holderSide)};
        }
      }
      Whole(htlcs);
    }

    method BuildHolderCommitment(number: nat) returns (built: Commitment)
      requires Valid() && number <= Shachain.MAX_INDEX
      ensures built == HolderCommitmentAt(Snapshot(), number)
    {
      hide BalancesOf, OutputsOf, PointAt;
      var forHolder, forCounterparty := Balance(true);
      var outputs := Outputs(true);
      built := Commitment(number, PointAt(crypto, seed, number), role.Opener?, feerateHolder,
                          params.holderDustLimitSat, params.counterpartySelectedDelay,
                          forHolder, forCounterparty, outputs);
    }

    method BuildCounterpartyCommitment(number: nat, point: Bytes) returns (built: Commitment)
      requires Valid()
      ensures built == CounterpartyCommitmentAt(Snapshot(), number, point)
    {
      hide BalancesOf, OutputsOf;
      var forHolder, forCounterparty := Balance(false);
      var outputs := Outputs(false);
      built := Commitment(number, point, role.Accepter?, feerateCounterparty,
                          params.counterpartyDustLimitSat, params.holderSelectedDelay,
                          forCounterparty, forHolder, outputs);
    }

    method IndexOf(outbound: bool, id: nat) returns (r: Option<nat>)
      ensures r == Find(htlcs, outbound, id)
    {
      for i := 0 to |htlcs|
        invariant FindFrom(htlcs, outbound, id, i) == Find(htlcs, outbound, id)
      {
        if htlcs[i].outbound == outbound && htlcs[i].id == id {
          return Some(i);
        }
      }
      return None;
    }

    method ValidateOutboundAdd(amount: nat, cltvExpiry: nat) returns (ok: bool)
      requires Valid()
      ensures ok <==> OutboundAddAllowed(Snapshot(), amount, cltvExpiry)
    {
      if amount == 0 || amount < params.counterpartyHtlcMinimum || cltvExpiry >= CLTV_LIMIT {
        return false;
      }
      var count, inFlight := Live(true);
      if count % 0x1_0000 >= params.counterpartyMaxAccepted || inFlight + amount > params.counterpartyMaxInFlight {
        return false;
      }
      var forHolder, _ := Balance(false);
      var needed := amount + params.counterpartySelectedReserveSat * 1000;
      if role.Opener? {
        var untrimmed := CountIncluded(false);
        needed := needed + CommitmentFee(feerateCounterparty, untrimmed + 2) * 1000;
      }
      return forHolder >= needed;
    }

    method ValidateInboundAdd(amount: nat, cltvExpiry: nat) returns (ok: bool)
      requires Valid()
      ensures ok <==> InboundAddAllowed(Snapshot(), amount, cltvExpiry)
    {
      if amount == 0 || amount < params.holderHtlcMinimum || cltvExpiry >= CLTV_LIMIT {
        return false;
      }
      var count, inFlight := Live(false);
      if count % 0x1_0000 >= params.holderMaxAccepted || inFlight + amount > params.holderMaxInFlight {
        return false;
      }
      var _, forCounterparty := Balance(true);
      var needed := amount + params.holderSelectedReserveSat * 1000;
      if role.Accepter? {
        var untrimmed := CountIncluded(true);
        needed := needed + CommitmentFee(feerateHolder, untrimmed + 1) * 1000;
      }
      return forCounterparty >= needed;
    }

    // ----------------------------------------------------- sending updates

    method SendAddHtlc(amount: nat, paymentHash: Bytes, cltvExpiry: nat, onion: Bytes, source: Source)
      returns (r: Result<Option<Message>, ChannelError>)
      requires Valid()
      modifies this
      ensures Valid()
      ensures Implements(SendAdd(old(Snapshot()), amount, paymentHash, cltvExpiry, onion, source),
                         old(Snapshot()), Snapshot(), r)
    {
      if !state.Normal? || shutdownSent || shutdownReceived {
        return Err(Ignore);
      }
      hide OutboundAddAllowed;
      if awaitingRaa {
        Park(HoldAdd(amount, paymentHash, cltvExpiry, onion, source));
        return Ok(None);
      }
      var ok := ValidateOutboundAdd(amount, cltvExpiry);
      if !ok {
        return Err(Ignore);
      }
      var id := nextHolderId;
      OfferListed(Htlc(true, id, amount, paymentHash, cltvExpiry, onion, Some(source), None, NotYet, Pending, false));
      return Ok(Some(UpdateAddHtlc(id, amount, paymentHash, cltvExpiry, onion)));
    }

    method OfferListed(h: Htlc)
      requires Valid()
      modifies this
      ensures Valid()
      ensures Snapshot() == old(Snapshot()).(nextHolderId := old(nextHolderId) + 1, htlcs := old(htlcs) + [h], dirty := true)
    {
      Offer(h);
    }

    method Park(op: HoldingOp)
      modifies this`holdingCell
      ensures holdingCell == old(holdingCell) + [op]
    {
      holdingCell := holdingCell + [op];
    }

    method Offer(h: Htlc)
      modifies this`nextHolderId, this`htlcs, this`dirty
      ensures nextHolderId == old(nextHolderId) + 1 && htlcs == old(htlcs) + [h] && dirty
    {
      nextHolderId := nextHolderId + 1;
      htlcs := htlcs + [h];
      dirty := true;
    }

    method SendRemoveHtlc(id: nat, res: Resolution) returns (r: Result<Option<Message>, ChannelError>)
      requires Valid()
      modifies this
      ensures Valid()
      ensures Implements(SendRemove(old(Snapshot()), id, res), old(Snapshot()), Snapshot(), r)
    {
      if awaitingRaa {
        Park(HoldRemove(id, res));
        return Ok(None);
      }
      var found := IndexOf(false, id);
      if found.None? {
        return Err(InvalidState);
      }
      var x := found.value;
      var h := htlcs[x];
      if h.resolution.Some? || !h.phaseHolder.Committed? || !h.phaseCounterparty.Committed? {
        return Err(InvalidState);
      }
      if res.Fulfill? && crypto.sha(res.preimage) != h.paymentHash {
        return Err(InvalidState);
      }
      Resolve(x, res);
      return Ok(Some(UpdateRemoveHtlc(id, res)));
    }

    method Resolve(x: nat, res: Resolution)
      requires x < |htlcs|
      modifies this`htlcs, this`dirty
      ensures htlcs == old(htlcs)[x := old(htlcs)[x].(resolution := Some(res), phaseCounterparty := Removing)]
      ensures dirty
    {
      htlcs := htlcs[x := htlcs[x].(resolution := Some(res))];
      htlcs := htlcs[x := htlcs[x].(phaseCounterparty := Removing)];
      dirty := true;
    }

    method SendFeeUpdate(feerate: nat) returns (r: Result<Message, ChannelError>)
      requires Valid()
      modifies this
      ensures Valid()
      ensures Implements(SendUpdateFee(old(Snapshot()), feerate), old(Snapshot()), Snapshot(), r)
    {
      if !role.Opener? {
        return Err(InvalidState);
      }
      if !state.Normal? || awaitingRaa || feerate < FEERATE_FLOOR {
        return Err(Ignore);
      }
      feerateCounterparty := feerate;
      dirty := true;
      return Ok(UpdateFee(feerate));
    }

    // --------------------------------------------------- receiving updates

    method ReceiveAddHtlc(m: Message) returns (r: Result<(), ChannelError>)
      requires Valid() && m.UpdateAddHtlc?
      modifies this
      ensures Valid()
      ensures Implements(OnUpdateAdd(old(Snapshot()), m), old(Snapshot()), Snapshot(), r)
    {
      if !state.Normal? || shutdownSent || shutdownReceived || m.id != nextCounterpartyId {
        return Err(Close);
      }
      var ok := ValidateInboundAdd(m.amount, m.cltvExpiry);
      if !ok {
        return Err(Close);
      }
      nextCounterpartyId := nextCounterpartyId + 1;
      htlcs := htlcs + [Htlc(false, m.id, m.amount, m.paymentHash, m.cltvExpiry, m.onion, None, None,
                             Pending, NotYet, false)];
      return Ok(());
    }

    method ReceiveRemoveHtlc(m: Message) returns (r: Result<Settlement, ChannelError>)
      requires Valid() && m.UpdateRemoveHtlc?
      modifies this
      ensures Valid()
      ensures Implements(OnUpdateRemove(old(Snapshot()), m), old(Snapshot()), Snapshot(), r)
    {
      if CodeLacksBadOnion(m.resolution) {
        return Err(Close);
      }
      var found := IndexOf(true, m.id);
      if found.None? {
        return Err(Close);
      }
      var x := found.value;
      var h := htlcs[x];
      if h.resolution.Some? || !h.phaseHolder.Committed? || !h.phaseCounterparty.Committed? {
        return Err(Close);
      }
      if m.resolution.Fulfill? && crypto.sha(m.resolution.preimage) != h.paymentHash {
        return Err(Close);
      }
      htlcs := htlcs[x := htlcs[x].(resolution := Some(m.resolution))];
      htlcs := htlcs[x := htlcs[x].(phaseHolder := Removing)];
      return Ok(Settlement(h.source, h.amount));
    }

    method ReceiveFeeUpdate(m: Message) returns (r: Result<(), ChannelError>)
      requires Valid() && m.UpdateFee?
      modifies this
      ensures Valid()
      ensures Implements(OnUpdateFee(old(Snapshot()), m), old(Snapshot()), Snapshot(), r)
    {
      if role.Opener? || m.feerate < FEERATE_FLOOR || m.feerate > FEERATE_CEILING {
        return Err(Close);
      }
      feerateHolder := m.feerate;
      pendingFeeAck := Some(m.feerate);
      return Ok(());
    }

    // --------------------------------------------------- commitment_signed

    method CounterpartyKeys(phase: Phase) returns (keys: seq<Key>)
      ensures keys == KeysIn(htlcs, phase)
    {
      keys := [];
      for i := 0 to |htlcs|
        invariant keys == KeysIn(htlcs[..i], phase)
      {
        PrefixStep(htlcs, i);
        if htlcs[i].phaseCounterparty == phase {
          keys := keys + [Key(htlcs[i].outbound, htlcs[i].id)];
        }
      }
      Whole(htlcs);
    }

    method SignCounterpartyCommitment() returns (r: Result<Message, ChannelError>)
      requires Valid()
      modifies this`pending, this`awaitingRaa, this`dirty
      ensures Valid()
      ensures Implements(SendCommitmentSigned(old(Snapshot())), old(Snapshot()), Snapshot(), r)
    {
      hide CounterpartyCommitmentAt, KeysIn;
      if awaitingRaa || !dirty || nextPoint.None? {
        return Err(InvalidState);
      }
      var info := BuildCounterpartyCommitment(counterpartyNumber + 1, nextPoint.value);
      var included := CounterpartyKeys(Pending);
      var removed := CounterpartyKeys(Removing);
      var feeUpdate := if feerateHolder != feerateCounterparty && role.Opener?
                       then Some(feerateCounterparty) else None;
      AwaitRevocation(PendingCommitment(info, included, removed, feeUpdate));
      return Ok(CommitmentSigned(info));
    }

    method AwaitRevocation(p: PendingCommitment)
      requires Valid()
      modifies this`pending, this`awaitingRaa, this`dirty
      ensures Valid()
      ensures Snapshot() == old(Snapshot()).(pending := Some(p), awaitingRaa := true, dirty := false)
    {
      Await(p);
    }

    method Await(p: PendingCommitment)
      modifies this`pending, this`awaitingRaa, this`dirty
      ensures pending == Some(p) && awaitingRaa && !dirty
    {
      pending := Some(p);
      awaitingRaa := true;
      dirty := false;
    }

    /** Drop the HTLCs gone from both commitments, baking in what they moved. */
    method GcHtlcs()
      modifies this`htlcs, this`toHolder, this`toCounterparty
      ensures htlcs == Kept(old(htlcs))
      ensures Balances(toHolder, toCounterparty) == BakedBalances(old(Balances(toHolder, toCounterparty)), old(htlcs))
    {
      var forHolder: nat, forCounterparty: nat := toHolder, toCounterparty;
      var all, kept := htlcs, [];
      ghost var base := Balances(toHolder, toCounterparty);
      for i := 0 to |all|
        modifies {}
        invariant kept == Kept(all[..i])
        invariant Balances(forHolder, forCounterparty) == BakedBalances(base, all[..i])
      {
        PrefixStep(all, i);
        var h := all[i];
        if h.phaseHolder.Gone? && h.phaseCounterparty.Gone? {
          if h.resolution.Some? && h.resolution.value.Fulfill? {
            if h.outbound {
              forHolder, forCounterparty := SaturatingSub(forHolder, h.amount), forCounterparty + h.amount;
            } else {
              forHolder, forCounterparty := forHolder + h.amount, SaturatingSub(forCounterparty, h.amount);
            }
          }
        } else {
          kept := kept + [h];
        }
      }
      Whole(all);
      htlcs, toHolder, toCounterparty := kept, forHolder, forCounterparty;
    }

    /** Two passes over the HTLCs: lock our side in, then acknowledge theirs. */
    method LockHolderSide() returns (acknowledged: bool)
      modifies this`htlcs
      ensures htlcs == LockAll(old(htlcs))
      ensures acknowledged <==> AnyAcknowledged(old(htlcs))
    {
      ghost var was := htlcs;
      for i := 0 to |htlcs|
        modifies this`htlcs
        invariant |htlcs| == |was|
        invariant forall j | 0 <= j < i :: htlcs[j] == Locked(was[j])
        invariant forall j | i <= j < |was| :: htlcs[j] == was[j]
      {
        match htlcs[i].phaseHolder
        case Pending => htlcs := htlcs[i := htlcs[i].(phaseHolder := Committed)];
        case Removing => htlcs := htlcs[i := htlcs[i].(phaseHolder := Phase.Gone)];
        case _ =>
      }
      acknowledged := false;
      for i := 0 to |htlcs|
        modifies this`htlcs
        invariant |htlcs| == |was|
        invariant forall j | 0 <= j < i :: htlcs[j] == Acknowledged(Locked(was[j]))
        invariant forall j | i <= j < |was| :: htlcs[j] == Locked(was[j])
        invariant acknowledged <==> exists j | 0 <= j < i :: AcksAdd(Locked(was[j])) || AcksRemoval(Locked(was[j]))
      {
        var h := htlcs[i];
        if !h.outbound && h.phaseCounterparty.NotYet? && h.phaseHolder.Committed? {
          htlcs := htlcs[i := h.(phaseCounterparty := Pending)];
          acknowledged := true;
        }
        if h.outbound && h.resolution.Some? && h.phaseHolder.Gone? && h.phaseCounterparty.Committed? {
          htlcs := htlcs[i := h.(phaseCounterparty := Removing)];
          acknowledged := true;
        }
      }
    }

    /** Our new commitment replaces the old one, what it covers is acknowledged, and
        what is gone on both sides is dropped. */
    method Install(built: Commitment, number: nat)
      modifies this`currentHolder, this`holderNumber, this`htlcs, this`feerateCounterparty,
        this`pendingFeeAck, this`dirty, this`toHolder, this`toCounterparty
      ensures currentHolder == Some(built) && holderNumber == number
      ensures htlcs == Kept(LockAll(old(htlcs)))
      ensures Balances(toHolder, toCounterparty)
              == BakedBalances(old(Balances(toHolder, toCounterparty)), LockAll(old(htlcs)))
      ensures feerateCounterparty ==
                if old(pendingFeeAck).Some? then old(pendingFeeAck).value else old(feerateCounterparty)
      ensures pendingFeeAck == None
      ensures dirty == (old(dirty) || AnyAcknowledged(old(htlcs)) || old(pendingFeeAck).Some?)
    {
      hide LockAll, AnyAcknowledged, Kept, BakedBalances;
      currentHolder := Some(built);
      holderNumber := number;
      var changed := LockHolderSide();
      if pendingFeeAck.Some? {
        feerateCounterparty := pendingFeeAck.value;
        pendingFeeAck := None;
        changed := true;
      }
      if changed {
        dirty := true;
      }
      GcHtlcs();
    }

    /** `Install`, as a change of the whole state. */
    method LockIn(built: Commitment, number: nat)
      requires Valid()
      modifies this
      ensures Valid()
      ensures Snapshot() == Gc(old(Snapshot()).(
                currentHolder := Some(built), holderNumber := number, htlcs := LockAll(old(htlcs)),
                feerateCounterparty := if old(pendingFeeAck).Some? then old(pendingFeeAck).value else old(feerateCounterparty),
                pendingFeeAck := None,
                dirty := old(dirty) || AnyAcknowledged(old(htlcs)) || old(pendingFeeAck).Some?))
    {
      hide LockAll, AnyAcknowledged, Kept, BakedBalances;
      Install(built, number);
    }

    method ReceiveCommitmentSigned(m: Message) returns (r: Result<Message, ChannelError>)
      requires Valid() && m.CommitmentSigned?
      modifies this
      ensures Valid()
      ensures Implements(OnCommitmentSigned(old(Snapshot()), m), old(Snapshot()), Snapshot(), r)
    {
      hide HolderCommitmentAt, Gc, LockAll, AnyAcknowledged, SecretAt, PointAt;
      if !state.Normal? && !state.ShuttingDown? {
        return Err(Close);
      }
      var number := holderNumber + 1;
      if number > Shachain.MAX_INDEX {
        return Err(Exhausted);
      }
      var built := BuildHolderCommitment(number);
      if m.signed != built {
        return Err(Close);
      }
      if number + 1 > Shachain.MAX_INDEX {
        return Err(Exhausted);
      }
      LockIn(built, number);
      return Ok(RevokeAndAck(SecretAt(crypto, seed, number - 1), PointAt(crypto, seed, number + 1)));
    }

    // ------------------------------------------------------ revoke_and_ack

    method ApplySnapshot(included: seq<Key>, removed: seq<Key>)
      modifies this`htlcs
      ensures htlcs == ApplyRemoved(ApplyIncluded(old(htlcs), included), removed)
    {
      ghost var was := htlcs;
      for i := 0 to |included|
        modifies this`htlcs
        invariant htlcs == ApplyIncluded(was, included[..i])
      {
        PrefixStep(included, i);
        var key := included[i];
        var found := IndexOf(key.outbound, key.id);
        if found.Some? {
          var x := found.value;
          if htlcs[x].phaseCounterparty.Pending? {
            htlcs := htlcs[x := htlcs[x].(phaseCounterparty := Committed)];
          }
          if key.outbound && htlcs[x].phaseHolder.NotYet? {
            htlcs := htlcs[x := htlcs[x].(phaseHolder := Pending)];
          }
        }
      }
      Whole(included);
      ghost var mid := htlcs;
      for i := 0 to |removed|
        modifies this`htlcs
        invariant htlcs == ApplyRemoved(mid, removed[..i])
      {
        PrefixStep(removed, i);
        var key := removed[i];
        var found := IndexOf(key.outbound, key.id);
        if found.Some? {
          var x := found.value;
          if htlcs[x].phaseCounterparty.Removing? {
            htlcs := htlcs[x := htlcs[x].(phaseCounterparty := Phase.Gone)];
          }
          if !key.outbound && htlcs[x].phaseHolder.Committed? {
            htlcs := htlcs[x := htlcs[x].(phaseHolder := Removing)];
          }
        }
      }
      Whole(removed);
    }

    method CollectReady() returns (out: seq<Forwardable>)
      modifies this`htlcs
      ensures htlcs == MarkProcessed(old(htlcs))
      ensures out == CollectForwardable(old(htlcs))
    {
      ghost var was := htlcs;
      out := [];
      for i := 0 to |htlcs|
        modifies this`htlcs
        invariant |htlcs| == |was|
        invariant forall j | 0 <= j < i ::
                    htlcs[j] == if ReadyToForward(was[j]) then was[j].(processed := true) else was[j]
        invariant forall j | i <= j < |was| :: htlcs[j] == was[j]
        invariant out == CollectForwardable(was[..i])
      {
        PrefixStep(was, i);
        var h := htlcs[i];
        if !h.outbound && !h.processed && h.resolution.None? && h.phaseHolder.Committed? && h.phaseCounterparty.Committed? {
          htlcs := htlcs[i := h.(processed := true)];
          out := out + [Forwardable(h.id, h.amount, h.paymentHash, h.cltvExpiry, h.onion)];
        }
      }
      Whole(was);
    }

    /** Their pending commitment becomes the current one, its transitions apply, and
        what is gone on both sides is dropped. */
    method Advance(p: PendingCommitment, point: Bytes)
      modifies this`pending, this`counterpartyNumber, this`currentPoint, this`nextPoint,
        this`currentCounterparty, this`awaitingRaa, this`htlcs, this`feerateHolder, this`toHolder, this`toCounterparty
      ensures pending == None && counterpartyNumber == old(counterpartyNumber) + 1
      ensures currentPoint == old(nextPoint) && nextPoint == Some(point)
      ensures currentCounterparty == Some(p.info) && !awaitingRaa
      ensures htlcs == Kept(ApplyRemoved(ApplyIncluded(old(htlcs), p.included), p.removed))
      ensures Balances(toHolder, toCounterparty) ==
              BakedBalances(old(Balances(toHolder, toCounterparty)),
                            ApplyRemoved(ApplyIncluded(old(htlcs), p.included), p.removed))
      ensures feerateHolder == if p.feeUpdate.Some? then p.feeUpdate.value else old(feerateHolder)
    {
      hide ApplyIncluded, ApplyRemoved, Kept, BakedBalances;
      pending := None;
      counterpartyNumber := counterpartyNumber + 1;
      currentPoint := nextPoint;
      nextPoint := Some(point);
      currentCounterparty := Some(p.info);
      awaitingRaa := false;
      ApplySnapshot(p.included, p.removed);
      if p.feeUpdate.Some? {
        feerateHolder := p.feeUpdate.value;
      }
      GcHtlcs();
    }

    /** `Advance`, as a change of the whole state. */
    method Adopt(p: PendingCommitment, point: Bytes)
      requires Valid()
      modifies this
      ensures Valid()
      ensures Snapshot() == Gc(old(Snapshot()).(
                pending := None, counterpartyNumber := old(counterpartyNumber) + 1,
                currentPoint := old(nextPoint), nextPoint := Some(point),
                currentCounterparty := Some(p.info), awaitingRaa := false,
                htlcs := ApplyRemoved(ApplyIncluded(old(htlcs), p.included), p.removed),
                feerateHolder := if p.feeUpdate.Some? then p.feeUpdate.value else old(feerateHolder)))
    {
      hide ApplyIncluded, ApplyRemoved, Kept, BakedBalances;
      Advance(p, point);
    }

    /** The checks on the secret, the new numbers and points, and the snapshot. */
    method AcceptRevocation(m: Message) returns (r: Result<(), ChannelError>)
      requires Valid() && m.RevokeAndAck?
      modifies this, secrets.known
      ensures Valid()
      ensures Implements(Revoke(old(Snapshot()), m), old(Snapshot()), Snapshot(), r)
    {
      hide Gc, ApplyIncluded, ApplyRemoved, Shachain.InsertInto;
      if !awaitingRaa || pending.None? || currentPoint.None? {
        return Err(Close);
      }
      if crypto.pointOf(m.secret) != currentPoint.value {
        return Err(Close);
      }
      if counterpartyNumber > Shachain.MAX_INDEX {
        return Err(Exhausted);
      }
      var ok := secrets.Insert(crypto.sha, Shachain.IndexForCommitment(counterpartyNumber), m.secret);
      if !ok {
        return Err(Close);
      }
      var p := pending.value;
      Adopt(p, m.nextPoint);
      return Ok(());
    }

    method FlushHoldingCell(ops: seq<HoldingOp>) returns (messages: seq<Message>, failedAdds: seq<Source>)
      requires Valid()
      modifies this
      ensures Valid()
      ensures Flushed(Snapshot(), messages, failedAdds) == Flush(old(Snapshot()), ops)
    {
      messages, failedAdds := [], [];
      for i := 0 to |ops|
        invariant Valid() && secrets.known[..] == old(secrets.known[..])
        invariant Flushed(Snapshot(), messages, failedAdds) == Flush(old(Snapshot()), ops[..i])
      {
        PrefixStep(ops, i);
        match ops[i]
        case HoldAdd(amount, paymentHash, cltvExpiry, onion, source) =>
          var r := SendAddHtlc(amount, paymentHash, cltvExpiry, onion, source);
          if r.Ok? && r.value.Some? {
            messages := messages + [r.value.value];
          } else if r.Err? {
            failedAdds := failedAdds + [source];
          }
        case HoldRemove(id, res) =>
          var r := SendRemoveHtlc(id, res);
          if r.Ok? && r.value.Some? {
            messages := messages + [r.value.value];
          }
      }
      Whole(ops);
    }

    /** Report what became irrevocable and empty the holding cell. */
    method HandOver() returns (forwardable: seq<Forwardable>, ops: seq<HoldingOp>)
      modifies this`htlcs, this`holdingCell
      ensures htlcs == MarkProcessed(old(htlcs)) && holdingCell == []
      ensures forwardable == CollectForwardable(old(htlcs)) && ops == old(holdingCell)
    {
      forwardable := CollectReady();
      ops := holdingCell;
      holdingCell := [];
    }

    method HandOverAll() returns (forwardable: seq<Forwardable>, ops: seq<HoldingOp>)
      requires Valid()
      modifies this
      ensures Valid()
      ensures Snapshot() == old(Snapshot()).(htlcs := MarkProcessed(old(htlcs)), holdingCell := [])
      ensures forwardable == CollectForwardable(old(htlcs)) && ops == old(holdingCell)
    {
      hide MarkProcessed, CollectForwardable;
      forwardable, ops := HandOver();
    }

    /** Sign if the flush left something to sign. */
    method SignIfNeeded() returns (signed: Option<Message>)
      requires Valid()
      modifies this
      ensures Valid()
      ensures var c := old(Snapshot());
              if CanSendCommitment(c)
              then signed.Some? && SendCommitmentSigned(c) == Done(Snapshot(), signed.value)
              else signed.None? && Snapshot() == c
    {
      hide CounterpartyCommitmentAt, KeysIn;
      signed := None;
      if dirty && !awaitingRaa && nextPoint.Some? && (state.Normal? || state.ShuttingDown?) {
        var cs := SignCounterpartyCommitment();
        signed := Some(cs.value);
      }
    }

    method ReceiveRevokeAndAck(m: Message) returns (r: Result<RaaOutcome, ChannelError>)
      requires Valid() && m.RevokeAndAck?
      modifies this, secrets.known
      ensures Valid()
      ensures Implements(OnRevokeAndAck(old(Snapshot()), m), old(Snapshot()), Snapshot(), r)
    {
      hide Revoke, Flush, MarkProcessed, CollectForwardable, SendCommitmentSigned, CanSendCommitment, Snapshot;
      var accepted := AcceptRevocation(m);
      if accepted.Err? {
        return Err(accepted.error);
      }
      SnapshotFields();
      var forwardable, ops := HandOverAll();
      var messages, failedAdds := FlushHoldingCell(ops);
      var signed := SignIfNeeded();
      if signed.Some? {
        messages := messages + [signed.value];
      }
      return Ok(RaaOutcome(messages, forwardable, failedAdds));
    }

    /** What becomes of one HTLC when the transport drops. */
    method RollBack(was: Htlc) returns (kept: Option<Htlc>, again: seq<HoldingOp>)
      requires Valid()
      ensures Rollback.Verdict(kept, again) == Rollback.Judged(Snapshot(), was)
    {
      var h := was;
      var key := Key(h.outbound, h.id);
      var snapshotted := pending.Some? && key in pending.value.included;
      var removalSnapshotted := pending.Some? && key in pending.value.removed;
      again := [];
      if h.phaseCounterparty.Pending? && h.outbound && !snapshotted {
        if h.source.Some? {
          again := [HoldAdd(h.amount, h.paymentHash, h.cltvExpiry, h.onion, h.source.value)];
        }
        return None, again;
      }
      if h.phaseCounterparty.Pending? && !h.outbound && !snapshotted {
        h := h.(phaseCounterparty := NotYet);
      }
      if h.phaseCounterparty.Removing? && !removalSnapshotted {
        if h.outbound {
          h := h.(resolution := None, phaseCounterparty := Committed, phaseHolder := Committed);
        } else {
          if h.resolution.Some? && !h.resolution.value.FailMalformed? {
            again := [HoldRemove(h.id, h.resolution.value)];
          }
          h := h.(resolution := None, phaseCounterparty := Committed);
        }
      }
      if !h.outbound && h.phaseHolder.Pending? {
        var output := HtlcOutput(false, h.amount, h.cltvExpiry, h.paymentHash);
        if currentHolder.None? || output !in currentHolder.value.htlcs {
          return None, again;
        }
      }
      if h.outbound && h.phaseHolder.Removing? {
        h := h.(resolution := None, phaseHolder := Committed);
      }
      return Some(h), again;
    }

    /** The pass over the HTLCs: those that stay, the operations to issue again, and the id
        the peer's next HTLC must have. */
    method RollBackAll() returns (kept: seq<Htlc>, requeue: seq<HoldingOp>, next: nat)
      requires Valid()
      ensures kept == Rollback.Retained(Snapshot(), htlcs) && requeue == Rollback.Requeued(Snapshot(), htlcs)
      ensures next == Rollback.NextExpected(Snapshot(), htlcs, nextCounterpartyId)
    {
      hide Rollback.Judged;
      kept, requeue, next := [], [], nextCounterpartyId;
      for i := 0 to |htlcs|
        invariant kept == Rollback.Retained(Snapshot(), htlcs[..i])
        invariant requeue == Rollback.Requeued(Snapshot(), htlcs[..i])
        invariant next == Rollback.NextExpected(Snapshot(), htlcs[..i], nextCounterpartyId)
      {
        PrefixStep(htlcs, i);
        var h := htlcs[i];
        var stays, again := RollBack(h);
        requeue := requeue + again;
        if stays.Some? {
          kept := kept + [stays.value];
        } else if !h.outbound && h.id < next {
          next := h.id;
        }
      }
      Whole(htlcs);
    }

    /** A fee update the peer did not sign for is forgotten. */
    method ForgetFee()
      requires Valid()
      modifies this`pendingFeeAck, this`feerateHolder
      ensures Valid()
      ensures var c := old(Snapshot());
              Snapshot() == c.(pendingFeeAck := None,
                feerateHolder := if c.pendingFeeAck.Some? then c.feerateCounterparty else c.feerateHolder)
    {
      if pendingFeeAck.Some? {
        pendingFeeAck, feerateHolder := None, feerateCounterparty;
      }
    }

    /** The transport dropped: take back what was not signed. */
    method Disconnect()
      requires Valid()
      modifies this`htlcs, this`nextCounterpartyId, this`holdingCell, this`pendingFeeAck, this`feerateHolder
      ensures Valid()
      ensures Snapshot() == Rollback.OnDisconnect(old(Snapshot()))
    {
      hide Rollback.Retained, Rollback.Requeued, Rollback.NextExpected;
      var kept, requeue, next := RollBackAll();
      htlcs, nextCounterpartyId, holdingCell := kept, next, requeue + holdingCell;
      ForgetFee();
    }

    lemma SnapshotFields()
      requires Valid()
      ensures Snapshot().htlcs == htlcs && Snapshot().holdingCell == holdingCell
    {
    }
  }
}
