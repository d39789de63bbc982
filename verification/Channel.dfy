/**
 * One channel's state and the operations of the commitment dance, as pure
 * functions on the state. `ChannelObject` holds the in-place form, proved
 * against these.
 *
 * A signature is modelled as the commitment it signs, so verification is
 * equality of commitments; hashes and the secret-to-point map are arbitrary
 * functions.
 */
module Channel {
  import opened Wrappers
  import Shachain

  type Bytes = seq<bv8>
  type Source = nat

  const COMMITMENT_TX_BASE_WEIGHT: nat := 724
  const COMMITMENT_TX_WEIGHT_PER_HTLC: nat := 172
  const FEERATE_FLOOR: nat := 253
  const FEERATE_CEILING: nat := 10_000_000
  const CLTV_LIMIT: nat := 500_000_000
  const BADONION: nat := 0x8000

  /** Arbitrary hash and secret-to-point functions. */
  datatype Crypto = Crypto(sha: Bytes -> Bytes, pointOf: Bytes -> Bytes)

  datatype ChannelError = Close | Ignore | InvalidState
    | Exhausted  // a commitment number outside the 48-bit index space

  datatype Role = Opener | Accepter

  datatype State =
    | OpenSent | AcceptSent | FundingCreatedSent | AwaitingChannelReady
    | Normal | ShuttingDown | NegotiatingClose | Closed

  datatype Phase = NotYet | Pending | Committed | Removing | Gone {
    predicate Included() { Pending? || Committed? }
    predicate Credited() { Removing? || Gone? }
  }

  datatype Resolution =
    | Fulfill(preimage: Bytes)
    | Fail(reason: Bytes)
    | FailMalformed(shaOfOnion: Bytes, code: nat)

  datatype Htlc = Htlc(
    outbound: bool, id: nat, amount: nat, paymentHash: Bytes, cltvExpiry: nat, onion: Bytes,
    source: Option<Source>, resolution: Option<Resolution>,
    phaseHolder: Phase, phaseCounterparty: Phase, processed: bool)
  {
    function PhaseOn(holderSide: bool): Phase {
      if holderSide then phaseHolder else phaseCounterparty
    }
  }

  datatype Key = Key(outbound: bool, id: nat)

  /** An HTLC output of one commitment; `offered` from its broadcaster's view. */
  datatype HtlcOutput = HtlcOutput(offered: bool, amount: nat, cltvExpiry: nat, paymentHash: Bytes)

  /** What a commitment transaction is built from. */
  datatype Commitment = Commitment(
    number: nat, point: Bytes, broadcasterPaysFee: bool, feerate: nat, dustLimit: nat, delay: nat,
    toBroadcaster: nat, toCountersignatory: nat, htlcs: multiset<HtlcOutput>)

  datatype PendingCommitment = PendingCommitment(
    info: Commitment, included: seq<Key>, removed: seq<Key>, feeUpdate: Option<nat>)

  datatype HoldingOp =
    | HoldAdd(amount: nat, paymentHash: Bytes, cltvExpiry: nat, onion: Bytes, source: Source)
    | HoldRemove(id: nat, resolution: Resolution)

  datatype Message =
    | UpdateAddHtlc(id: nat, amount: nat, paymentHash: Bytes, cltvExpiry: nat, onion: Bytes)
    | UpdateRemoveHtlc(id: nat, resolution: Resolution)  // update_fulfill / fail / fail_malformed
    | UpdateFee(feerate: nat)
    | CommitmentSigned(signed: Commitment)
    | RevokeAndAck(secret: Bytes, nextPoint: Bytes)

  type U16 = x: int | 0 <= x < 0x1_0000

  /** Fields named by who chose the value. */
  datatype Params = Params(
    holderDustLimitSat: nat, counterpartyDustLimitSat: nat,
    holderSelectedReserveSat: nat, counterpartySelectedReserveSat: nat,
    counterpartyMaxInFlight: nat, holderMaxInFlight: nat,
    counterpartyHtlcMinimum: nat, holderHtlcMinimum: nat,
    counterpartyMaxAccepted: U16, holderMaxAccepted: U16,
    holderSelectedDelay: nat, counterpartySelectedDelay: nat)

  datatype Balances = Balances(holder: nat, counterparty: nat)

  datatype Chan = Chan(
    crypto: Crypto, seed: Bytes,
    role: Role, state: State, params: Params,
    shutdownSent: bool, shutdownReceived: bool,
    feerateHolder: nat, feerateCounterparty: nat, pendingFeeAck: Option<nat>,
    base: Balances,
    dirty: bool,
    htlcs: seq<Htlc>, nextHolderId: nat, nextCounterpartyId: nat,
    holderNumber: nat, counterpartyNumber: nat,
    currentPoint: Option<Bytes>, nextPoint: Option<Bytes>,
    secrets: Shachain.Slots,
    currentHolder: Option<Commitment>, currentCounterparty: Option<Commitment>,
    pending: Option<PendingCommitment>, awaitingRaa: bool,
    holdingCell: seq<HoldingOp>)

  datatype Outcome<+T> = Done(chan: Chan, value: T) | Failed(error: ChannelError)

  datatype Forwardable = Forwardable(id: nat, amount: nat, paymentHash: Bytes, cltvExpiry: nat, onion: Bytes)

  datatype RaaOutcome = RaaOutcome(
    messages: seq<Message>, forwardable: seq<Forwardable>, failedAdds: seq<Source>)

  function Optional(m: Option<Message>): seq<Message> {
    if m.Some? then [m.value] else []
  }

  datatype Settlement = Settlement(source: Option<Source>, amount: nat)

  // ------------------------------------------------------------- arithmetic

  function SaturatingSub(a: nat, b: nat): nat {
    if a < b then 0 else a - b
  }

  function FeeForWeight(feerate: nat, weight: nat): nat {
    feerate * weight / 1000
  }

  function CommitmentFee(feerate: nat, htlcs: nat): nat {
    FeeForWeight(feerate, COMMITMENT_TX_BASE_WEIGHT + COMMITMENT_TX_WEIGHT_PER_HTLC * htlcs)
  }

  // ---------------------------------------------------------------- balances

  function ApplyBalance(h: Htlc, phase: Phase, b: Balances): Balances {
    if phase.Included() then
      if h.outbound then b.(holder := SaturatingSub(b.holder, h.amount))
      else b.(counterparty := SaturatingSub(b.counterparty, h.amount))
    else if phase.Credited() && h.resolution.Some? && h.resolution.value.Fulfill? then
      if h.outbound then Balances(SaturatingSub(b.holder, h.amount), b.counterparty + h.amount)
      else Balances(b.holder + h.amount, SaturatingSub(b.counterparty, h.amount))
    else b
  }

  /** The effective balances of one side's next commitment. */
  function BalancesOf(b: Balances, htlcs: seq<Htlc>, holderSide: bool): Balances {
    if htlcs == [] then b
    else
      var n := |htlcs| - 1;
      ApplyBalance(htlcs[n], htlcs[n].PhaseOn(holderSide), BalancesOf(b, htlcs[..n], holderSide))
  }

  function BalancesFor(c: Chan, holderSide: bool): Balances {
    BalancesOf(c.base, c.htlcs, holderSide)
  }

  predicate IsGone(h: Htlc) {
    h.phaseHolder.Gone? && h.phaseCounterparty.Gone?
  }

  function Kept(htlcs: seq<Htlc>): seq<Htlc> {
    if htlcs == [] then []
    else
      var n := |htlcs| - 1;
      if IsGone(htlcs[n]) then Kept(htlcs[..n]) else Kept(htlcs[..n]) + [htlcs[n]]
  }

  function BakedBalances(b: Balances, htlcs: seq<Htlc>): Balances {
    if htlcs == [] then b
    else
      var n := |htlcs| - 1;
      var prev := BakedBalances(b, htlcs[..n]);
      if IsGone(htlcs[n]) then ApplyBalance(htlcs[n], Gone, prev) else prev
  }

  function Gc(c: Chan): Chan {
    c.(htlcs := Kept(c.htlcs), base := BakedBalances(c.base, c.htlcs))
  }

  function LiveCount(htlcs: seq<Htlc>, outbound: bool): nat {
    if htlcs == [] then 0
    else
      var n := |htlcs| - 1;
      LiveCount(htlcs[..n], outbound) +
      if htlcs[n].outbound == outbound && htlcs[n].resolution.None? then 1 else 0
  }

  function LiveAmount(htlcs: seq<Htlc>, outbound: bool): nat {
    if htlcs == [] then 0
    else
      var n := |htlcs| - 1;
      LiveAmount(htlcs[..n], outbound) +
      if htlcs[n].outbound == outbound && htlcs[n].resolution.None? then htlcs[n].amount else 0
  }

  function IncludedCount(htlcs: seq<Htlc>, holderSide: bool): nat {
    if htlcs == [] then 0
    else
      var n := |htlcs| - 1;
      IncludedCount(htlcs[..n], holderSide) + if htlcs[n].PhaseOn(holderSide).Included() then 1 else 0
  }

  // ------------------------------------------------------- commitment views

  function OutputOf(h: Htlc, holderSide: bool): HtlcOutput {
    HtlcOutput(if holderSide then h.outbound else !h.outbound, h.amount, h.cltvExpiry, h.paymentHash)
  }

  function OutputsOf(htlcs: seq<Htlc>, holderSide: bool): multiset<HtlcOutput> {
    if htlcs == [] then multiset{}
    else
      var n := |htlcs| - 1;
      OutputsOf(htlcs[..n], holderSide) +
      if htlcs[n].PhaseOn(holderSide).Included() then multiset{OutputOf(htlcs[n], holderSide)} else multiset{}
  }

  /** The signer's secret for its own commitment `number`. */
  function SecretAt(crypto: Crypto, seed: Bytes, number: nat): Bytes
    requires number <= Shachain.MAX_INDEX
  {
    Shachain.GenerateFromSeed(crypto.sha, seed, Shachain.IndexForCommitment(number))
  }

  function PointAt(crypto: Crypto, seed: Bytes, number: nat): Bytes
    requires number <= Shachain.MAX_INDEX
  {
    crypto.pointOf(SecretAt(crypto, seed, number))
  }

  function HolderCommitmentAt(c: Chan, number: nat): Commitment
    requires number <= Shachain.MAX_INDEX
  {
    var b := BalancesFor(c, true);
    Commitment(number, PointAt(c.crypto, c.seed, number), c.role.Opener?, c.feerateHolder,
               c.params.holderDustLimitSat, c.params.counterpartySelectedDelay,
               b.holder, b.counterparty, OutputsOf(c.htlcs, true))
  }

  function CounterpartyCommitmentAt(c: Chan, number: nat, point: Bytes): Commitment {
    var b := BalancesFor(c, false);
    Commitment(number, point, c.role.Accepter?, c.feerateCounterparty,
               c.params.counterpartyDustLimitSat, c.params.holderSelectedDelay,
               b.counterparty, b.holder, OutputsOf(c.htlcs, false))
  }

  /** `balance` covers `amount`, the reserve and, if its owner pays the fees,
      a commitment with `htlcs` HTLC outputs. */
  predicate Affordable(balance: int, amount: nat, reserveSat: nat, paysFee: bool, feerate: nat, htlcs: nat) {
    balance >= amount + reserveSat * 1000 + (if paysFee then CommitmentFee(feerate, htlcs) * 1000 else 0)
  }

  // --------------------------------------------------------- sending updates

  predicate OutboundAddAllowed(c: Chan, amount: nat, cltvExpiry: nat) {
    && amount != 0
    && amount >= c.params.counterpartyHtlcMinimum
    && cltvExpiry < CLTV_LIMIT
    && LiveCount(c.htlcs, true) % 0x1_0000 < c.params.counterpartyMaxAccepted
    && LiveAmount(c.htlcs, true) + amount <= c.params.counterpartyMaxInFlight
    && Affordable(BalancesFor(c, false).holder, amount, c.params.counterpartySelectedReserveSat,
                  c.role.Opener?, c.feerateCounterparty, IncludedCount(c.htlcs, false) + 2)
  }

  function SendAdd(c: Chan, amount: nat, paymentHash: Bytes, cltvExpiry: nat, onion: Bytes, source: Source)
    : Outcome<Option<Message>>
  {
    if !c.state.Normal? || c.shutdownSent || c.shutdownReceived then Failed(Ignore)
    else if c.awaitingRaa then
      Done(c.(holdingCell := c.holdingCell + [HoldAdd(amount, paymentHash, cltvExpiry, onion, source)]), None)
    else if !OutboundAddAllowed(c, amount, cltvExpiry) then Failed(Ignore)
    else
      var id := c.nextHolderId;
      var h := Htlc(true, id, amount, paymentHash, cltvExpiry, onion, Some(source), None, NotYet, Pending, false);
      Done(c.(nextHolderId := id + 1, htlcs := c.htlcs + [h], dirty := true),
           Some(UpdateAddHtlc(id, amount, paymentHash, cltvExpiry, onion)))
  }

  function FindFrom(htlcs: seq<Htlc>, outbound: bool, id: nat, i: nat): (r: Option<nat>)
    requires i <= |htlcs|
    ensures r.Some? ==> i <= r.value < |htlcs| && htlcs[r.value].outbound == outbound && htlcs[r.value].id == id
    ensures r.Some? ==> forall x | i <= x < r.value :: !(htlcs[x].outbound == outbound && htlcs[x].id == id)
    ensures r.None? ==> forall x | i <= x < |htlcs| :: !(htlcs[x].outbound == outbound && htlcs[x].id == id)
    decreases |htlcs| - i
  {
    if i == |htlcs| then None
    else if htlcs[i].outbound == outbound && htlcs[i].id == id then Some(i)
    else FindFrom(htlcs, outbound, id, i + 1)
  }

  /** The first entry with this key, as the source's `find`. */
  function Find(htlcs: seq<Htlc>, outbound: bool, id: nat): (r: Option<nat>)
    ensures r.Some? ==> r.value < |htlcs| && htlcs[r.value].outbound == outbound && htlcs[r.value].id == id
    ensures r.Some? ==> forall x | 0 <= x < r.value :: !(htlcs[x].outbound == outbound && htlcs[x].id == id)
    ensures r.None? ==> forall x | 0 <= x < |htlcs| :: !(htlcs[x].outbound == outbound && htlcs[x].id == id)
  {
    FindFrom(htlcs, outbound, id, 0)
  }

  /** Unresolved and locked on both sides. */
  predicate Irrevocable(h: Htlc) {
    h.resolution.None? && h.phaseHolder.Committed? && h.phaseCounterparty.Committed?
  }

  predicate PreimageMatches(c: Chan, res: Resolution, paymentHash: Bytes) {
    res.Fulfill? ==> c.crypto.sha(res.preimage) == paymentHash
  }

  /** send_fulfill_htlc, send_fail_htlc and send_fail_malformed_htlc. */
  function SendRemove(c: Chan, id: nat, res: Resolution): Outcome<Option<Message>> {
    if c.awaitingRaa then Done(c.(holdingCell := c.holdingCell + [HoldRemove(id, res)]), None)
    else
      match Find(c.htlcs, false, id)
      case None => Failed(InvalidState)
      case Some(x) =>
        var h := c.htlcs[x];
        if !Irrevocable(h) || !PreimageMatches(c, res, h.paymentHash) then Failed(InvalidState)
        else
          Done(c.(htlcs := c.htlcs[x := h.(resolution := Some(res), phaseCounterparty := Removing)], dirty := true),
               Some(UpdateRemoveHtlc(id, res)))
  }

  function SendUpdateFee(c: Chan, feerate: nat): Outcome<Message> {
    if !c.role.Opener? then Failed(InvalidState)
    else if !c.state.Normal? || c.awaitingRaa || feerate < FEERATE_FLOOR then Failed(Ignore)
    else Done(c.(feerateCounterparty := feerate, dirty := true), UpdateFee(feerate))
  }

  // ------------------------------------------------------- receiving updates

  predicate InboundAddAllowed(c: Chan, amount: nat, cltvExpiry: nat) {
    && amount != 0
    && amount >= c.params.holderHtlcMinimum
    && cltvExpiry < CLTV_LIMIT
    && LiveCount(c.htlcs, false) % 0x1_0000 < c.params.holderMaxAccepted
    && LiveAmount(c.htlcs, false) + amount <= c.params.holderMaxInFlight
    && Affordable(BalancesFor(c, true).counterparty, amount, c.params.holderSelectedReserveSat,
                  c.role.Accepter?, c.feerateHolder, IncludedCount(c.htlcs, true) + 1)
  }

  function OnUpdateAdd(c: Chan, m: Message): Outcome<()>
    requires m.UpdateAddHtlc?
  {
    if !c.state.Normal? || c.shutdownSent || c.shutdownReceived then Failed(Close)
    else if m.id != c.nextCounterpartyId then Failed(Close)
    else if !InboundAddAllowed(c, m.amount, m.cltvExpiry) then Failed(Close)
    else
      var h := Htlc(false, m.id, m.amount, m.paymentHash, m.cltvExpiry, m.onion, None, None, Pending, NotYet, false);
      Done(c.(nextCounterpartyId := c.nextCounterpartyId + 1, htlcs := c.htlcs + [h]), ())
  }

  predicate CodeLacksBadOnion(res: Resolution) {
    res.FailMalformed? && (res.code / BADONION) % 2 == 0
  }

  /** on_update_fulfill_htlc, on_update_fail_htlc and on_update_fail_malformed_htlc. */
  function OnUpdateRemove(c: Chan, m: Message): Outcome<Settlement>
    requires m.UpdateRemoveHtlc?
  {
    if CodeLacksBadOnion(m.resolution) then Failed(Close)
    else
      match Find(c.htlcs, true, m.id)
      case None => Failed(Close)
      case Some(x) =>
        var h := c.htlcs[x];
        if !Irrevocable(h) || !PreimageMatches(c, m.resolution, h.paymentHash) then Failed(Close)
        else
          Done(c.(htlcs := c.htlcs[x := h.(resolution := Some(m.resolution), phaseHolder := Removing)]),
               Settlement(h.source, h.amount))
  }

  function OnUpdateFee(c: Chan, m: Message): Outcome<()>
    requires m.UpdateFee?
  {
    if c.role.Opener? || m.feerate < FEERATE_FLOOR || m.feerate > FEERATE_CEILING then Failed(Close)
    else Done(c.(feerateHolder := m.feerate, pendingFeeAck := Some(m.feerate)), ())
  }

  // ------------------------------------------------------- commitment_signed

  predicate Operational(c: Chan) {
    c.state.Normal? || c.state.ShuttingDown?
  }

  predicate CanSendCommitment(c: Chan) {
    c.dirty && !c.awaitingRaa && c.nextPoint.Some? && Operational(c)
  }

  function KeysIn(htlcs: seq<Htlc>, phase: Phase): seq<Key> {
    if htlcs == [] then []
    else
      var n := |htlcs| - 1;
      KeysIn(htlcs[..n], phase) +
      if htlcs[n].phaseCounterparty == phase then [Key(htlcs[n].outbound, htlcs[n].id)] else []
  }

  function SendCommitmentSigned(c: Chan): Outcome<Message> {
    if c.awaitingRaa || !c.dirty || c.nextPoint.None? then Failed(InvalidState)
    else
      var info := CounterpartyCommitmentAt(c, c.counterpartyNumber + 1, c.nextPoint.value);
      var feeUpdate := if c.feerateHolder != c.feerateCounterparty && c.role.Opener?
                       then Some(c.feerateCounterparty) else None;
      var p := PendingCommitment(info, KeysIn(c.htlcs, Pending), KeysIn(c.htlcs, Removing), feeUpdate);
      Done(c.(pending := Some(p), awaitingRaa := true, dirty := false), CommitmentSigned(info))
  }

  /** The new commitment of ours is locked in. */
  function Locked(h: Htlc): Htlc {
    match h.phaseHolder
    case Pending => h.(phaseHolder := Committed)
    case Removing => h.(phaseHolder := Gone)
    case _ => h
  }

  /** Their add, now in our commitment, may enter theirs. */
  predicate AcksAdd(h: Htlc) {
    !h.outbound && h.phaseCounterparty.NotYet? && h.phaseHolder.Committed?
  }

  /** Their removal of an HTLC of ours, acknowledged. */
  predicate AcksRemoval(h: Htlc) {
    h.outbound && h.resolution.Some? && h.phaseHolder.Gone? && h.phaseCounterparty.Committed?
  }

  function Acknowledged(h: Htlc): Htlc {
    if AcksAdd(h) then h.(phaseCounterparty := Pending)
    else if AcksRemoval(h) then h.(phaseCounterparty := Removing)
    else h
  }

  function LockAll(htlcs: seq<Htlc>): (r: seq<Htlc>)
    ensures |r| == |htlcs|
    ensures forall i | 0 <= i < |r| :: r[i] == Acknowledged(Locked(htlcs[i]))
  {
    if htlcs == [] then [] else LockAll(htlcs[..|htlcs| - 1]) + [Acknowledged(Locked(htlcs[|htlcs| - 1]))]
  }

  predicate AnyAcknowledged(htlcs: seq<Htlc>) {
    exists i | 0 <= i < |htlcs| :: AcksAdd(Locked(htlcs[i])) || AcksRemoval(Locked(htlcs[i]))
  }

  function OnCommitmentSigned(c: Chan, m: Message): Outcome<Message>
    requires m.CommitmentSigned?
  {
    var number := c.holderNumber + 1;
    if !Operational(c) then Failed(Close)
    else if number > Shachain.MAX_INDEX then Failed(Exhausted)
    else if m.signed != HolderCommitmentAt(c, number) then Failed(Close)
    else if number + 1 > Shachain.MAX_INDEX then Failed(Exhausted)
    else
      var c1 := c.(
        currentHolder := Some(m.signed), holderNumber := number, htlcs := LockAll(c.htlcs),
        feerateCounterparty := if c.pendingFeeAck.Some? then c.pendingFeeAck.value else c.feerateCounterparty,
        pendingFeeAck := None,
        dirty := c.dirty || AnyAcknowledged(c.htlcs) || c.pendingFeeAck.Some?);
      Done(Gc(c1), RevokeAndAck(SecretAt(c.crypto, c.seed, number - 1), PointAt(c.crypto, c.seed, number + 1)))
  }

  // ---------------------------------------------------------- revoke_and_ack

  function IncludedOnRaa(h: Htlc): Htlc {
    var h1 := if h.phaseCounterparty.Pending? then h.(phaseCounterparty := Committed) else h;
    if h1.outbound && h1.phaseHolder.NotYet? then h1.(phaseHolder := Pending) else h1
  }

  function RemovedOnRaa(h: Htlc): Htlc {
    var h1 := if h.phaseCounterparty.Removing? then h.(phaseCounterparty := Gone) else h;
    if !h1.outbound && h1.phaseHolder.Committed? then h1.(phaseHolder := Removing) else h1
  }

  function ApplyIncluded(htlcs: seq<Htlc>, keys: seq<Key>): (r: seq<Htlc>)
    ensures |r| == |htlcs|
  {
    if keys == [] then htlcs
    else
      var n := |keys| - 1;
      var prev := ApplyIncluded(htlcs, keys[..n]);
      match Find(prev, keys[n].outbound, keys[n].id)
      case None => prev
      case Some(x) => prev[x := IncludedOnRaa(prev[x])]
  }

  function ApplyRemoved(htlcs: seq<Htlc>, keys: seq<Key>): (r: seq<Htlc>)
    ensures |r| == |htlcs|
  {
    if keys == [] then htlcs
    else
      var n := |keys| - 1;
      var prev := ApplyRemoved(htlcs, keys[..n]);
      match Find(prev, keys[n].outbound, keys[n].id)
      case None => prev
      case Some(x) => prev[x := RemovedOnRaa(prev[x])]
  }

  predicate ReadyToForward(h: Htlc) {
    !h.outbound && !h.processed && Irrevocable(h)
  }

  function MarkProcessed(htlcs: seq<Htlc>): (r: seq<Htlc>)
    ensures |r| == |htlcs|
    ensures forall i | 0 <= i < |r| ::
              r[i] == if ReadyToForward(htlcs[i]) then htlcs[i].(processed := true) else htlcs[i]
  {
    if htlcs == [] then []
    else
      var h := htlcs[|htlcs| - 1];
      MarkProcessed(htlcs[..|htlcs| - 1]) + [if ReadyToForward(h) then h.(processed := true) else h]
  }

  function AsForwardable(h: Htlc): Forwardable {
    Forwardable(h.id, h.amount, h.paymentHash, h.cltvExpiry, h.onion)
  }

  function CollectForwardable(htlcs: seq<Htlc>): seq<Forwardable> {
    if htlcs == [] then []
    else
      var h := htlcs[|htlcs| - 1];
      CollectForwardable(htlcs[..|htlcs| - 1]) + if ReadyToForward(h) then [AsForwardable(h)] else []
  }

  /** The revocation itself: everything up to and including garbage collection. */
  function Revoke(c: Chan, m: Message): Outcome<()>
    requires m.RevokeAndAck?
  {
    if !c.awaitingRaa || c.pending.None? || c.currentPoint.None? then Failed(Close)
    else if c.crypto.pointOf(m.secret) != c.currentPoint.value then Failed(Close)
    else if c.counterpartyNumber > Shachain.MAX_INDEX then Failed(Exhausted)
    else
      match Shachain.InsertInto(c.crypto.sha, c.secrets, Shachain.IndexForCommitment(c.counterpartyNumber), m.secret)
      case None => Failed(Close)
      case Some(secrets) =>
        var p := c.pending.value;
        var c1 := c.(
          pending := None, secrets := secrets,
          counterpartyNumber := c.counterpartyNumber + 1,
          currentPoint := c.nextPoint, nextPoint := Some(m.nextPoint),
          currentCounterparty := Some(p.info), awaitingRaa := false,
          htlcs := ApplyRemoved(ApplyIncluded(c.htlcs, p.included), p.removed),
          feerateHolder := if p.feeUpdate.Some? then p.feeUpdate.value else c.feerateHolder);
        Done(Gc(c1), ())
  }

  datatype Flushed = Flushed(chan: Chan, messages: seq<Message>, failedAdds: seq<Source>)

  /** Re-issue the parked operations, in order. A parked add that no longer
      fits is reported; a parked removal that no longer applies is dropped. */
  function Flush(c: Chan, ops: seq<HoldingOp>): Flushed {
    if ops == [] then Flushed(c, [], [])
    else
      var n := |ops| - 1;
      var f := Flush(c, ops[..n]);
      match ops[n]
      case HoldAdd(amount, paymentHash, cltvExpiry, onion, source) =>
        (match SendAdd(f.chan, amount, paymentHash, cltvExpiry, onion, source)
         case Done(c1, Some(m)) => Flushed(c1, f.messages + [m], f.failedAdds)
         case Done(c1, None) => Flushed(c1, f.messages, f.failedAdds)
         case Failed(_) => f.(failedAdds := f.failedAdds + [source]))
      case HoldRemove(id, res) =>
        (match SendRemove(f.chan, id, res)
         case Done(c1, Some(m)) => Flushed(c1, f.messages + [m], f.failedAdds)
         case Done(c1, None) => Flushed(c1, f.messages, f.failedAdds)
         case Failed(_) => f)
  }

  function OnRevokeAndAck(c: Chan, m: Message): Outcome<RaaOutcome>
    requires m.RevokeAndAck?
  {
    match Revoke(c, m)
    case Failed(e) => Failed(e)
    case Done(c1, _) =>
      var forwardable := CollectForwardable(c1.htlcs);
      var c2 := c1.(htlcs := MarkProcessed(c1.htlcs), holdingCell := []);
      var f := Flush(c2, c1.holdingCell);
      if !CanSendCommitment(f.chan) then Done(f.chan, RaaOutcome(f.messages, forwardable, f.failedAdds))
      else
        match SendCommitmentSigned(f.chan)
        case Done(c3, cs) => Done(c3, RaaOutcome(f.messages + [cs], forwardable, f.failedAdds))
        case Failed(e) => Failed(e)
  }
}
