# keraunos, modelled and proved in Dafny

keraunos is a Lightning engine without I/O: deterministic state machines for
channels, onions, routing and the encrypted transport. This project models its
hard parts and proves what each of them is for. `dafny verify dfyconfig.toml`
checks all of it.

## What is modelled

**The commitment dance** (`src/channel/dance.rs`, `src/channel/mod.rs`).
`Channel` holds the operations as functions on a channel's state, and
`ChannelObject.Endpoint` is the object the source updates in place, each method
proved to do what its function says and to leave the state alone on an error.
The theorems are about whole runs. `ChannelRuns` and `HandOver` run one channel
against any peer, honest or not. `Pair`, `PairDelivery`, `PairSteps` and `Dance`
run two honest channels joined by two FIFO queues, with local commands and
deliveries in any order; `Drain` and `Settlement` show that such a pair can always
come to rest, `HonestFailures` exhibits the runs in which it fails, and
`HandOverOnce` completes `HandOver` from "at most once" to "exactly once, at once".
Four more follow one channel against any peer: `Releases` (what is stored before
anything is released), `HoldingCell` (what becomes of parked operations), `Sources`
(where every payment entrusted to the channel is) and `Limits` (what the checks on
new HTLCs and fee rates achieve).
The proofs rest on one idea (`Ledger`): every update a
side has sent or received sits in a log, eight counters say how far each
commitment has got, the two phases of every HTLC are a closed formula of its log
positions and those counters, and every quantity the code adds up over its list
equals a reading of log prefixes. Two parties then agree because both read the
same prefixes. The logs exist only in the proofs; the theorems speak of the code's
own state.

**The secret store** (`src/shachain.rs`): 49 slots against the full map of up to
2^48 secrets, for an arbitrary hash and a peer that may lie. `Recognition` follows
the store through whole channel runs up to the chain monitor's verdict on a
broadcast commitment.

**The payment onion** (`src/onion/mod.rs`), with key streams, MAC and group as
arbitrary functions, down to the bytes on the wire (`Onion`), and what happens when
somebody alters it on the way (`Tampering`).

**The router** (`src/router/mod.rs`): the backward search as a transition system
(`Router`), what holds over its runs and of its routes (`Routing`), the loop
that runs it (`FindRoute`), and the network graph it reads (`src/graph/mod.rs`,
`Gossip`), as channel announcements and updates build it.

**Poly1305** (`src/crypto/poly1305.rs`) in machine integers against section 2.5 of
RFC 8439.

**The transport** (`src/noise/mod.rs`, `src/node/peer.rs`; `Noise`, `Peer`, and
`Integrity` for a network that may change the bytes), **reconnection**
(`src/channel/reestablish.rs`: the numbers and secrets exchanged in `Reestablish`; the
rollback of unsigned updates in `Rollback`, when it is right in `Disconnection`, what
then goes on holding in `Reconnection`, what it loses in `LostUpdates`), **cooperative close**
(`src/channel/close.rs`), **commitment construction** (`src/commitment/mod.rs`) and
**bech32** (`src/invoice/bech32.rs`; `Bech32`, `BitGroups`, `Bech32Exact`).

A signature is modelled as what it signs, so verifying is comparing. Because
`CommitmentTx.OrderOfHtlcsIrrelevant` shows that a built commitment depends only on
the multiset of its HTLCs, comparing commitments by that multiset is enough.

## Findings about the code

- `peel_with_secret` allows a declared payload of up to 1268 bytes, but its buffer
  has room for the next hop's area only up to 1265: an authenticated packet that
  declares 1266 to 1268 bytes and is not for us slices past the end of the buffer.
  `Onion.AnOverrunningPacket` gives one for every key stream, MAC, shared secret,
  ephemeral key and associated data, `Onion.OverrunsExactlyWhen` the exact condition;
  no packet built by `construct` meets it.
- While the connection lasts, two honest channels can fail each other in exactly two
  ways (`Dance.NoHonestFailure`): a fee rate above 10,000,000 or a malformed-failure code
  without the BADONION bit, neither of which the sending side checks
  (`HonestFailures.FeeAboveCeilingFails` and `HonestFailures.UnflaggedRemovalFails`
  are the runs, from every initial state); and running out of the 2^48 commitment
  numbers.
- `closing_fee_bounds` clamps between limits that may be out of order, which panics:
  exactly when the target is under 127 per kiloweight or the funder holds under 180
  satoshis (`Closing.ClampableExactlyWhen`). `Closing.ClampPanicsExactlyWhen` says
  which calls reach it; a fee already agreed on or a bad signature does not.
- Each party drops closing outputs below its own dust limit, raised to 546, so two
  honest parties whose dust limits differ above 546 can build different closing
  transactions for one fee and refuse each other's signature. They build the same one
  exactly when neither the funder's rest nor the other balance lies between the two
  limits (`Closing.SameTx`); an offer that misses this fails the talks
  (`Closing.DifferentDustFails`), and such parties exist
  (`Closing.DifferentDustExists`: limits 546 and 1000, a balance of 800 satoshis).
- `on_disconnect` is meant to leave the state in which the updates that no signed
  commitment covers were never made. It does so exactly when every HTLC the peer's next
  commitment needs is in the commitment in flight, no unsigned add of the peer has the
  data of an HTLC in our own commitment, and the opener has no fee rate it has not signed
  for (`Disconnection.ForgetsExactlyWhen`). Otherwise honest parties can fail each other:
  an unsigned add keeps its id, which the peer then does not expect
  (`LostUpdates.ForgottenAddFails`), and an unsigned fee rate is kept, which the peer does
  not know (`LostUpdates.ForgottenFeeFails`), from every initial pair. Besides, a
  malformed failure is not issued again (`LostUpdates.RemovalParkedExactlyWhen`), and a
  removal taken back after its settlement was reported can be reported twice
  (`LostUpdates.SourcesAcrossBreak`).

## Model

| member | source | states |
|---|---|---|
| Shachain.DeriveSecret | src/shachain.rs:23-32 | the bit loop computes the tree derivation `Derive` |
| Shachain.DeriveThrough | src/shachain.rs:23-32 | deriving in two stages through an intermediate index is deriving directly |
| Shachain.SecretStore.constructor | src/shachain.rs:64-66 | an empty store |
| Shachain.SecretStore.Insert | src/shachain.rs:79-91 | accepts exactly when every lower slot re-derives, then overwrites one slot; a refusal changes nothing |
| Shachain.SecretStore.SecretFor | src/shachain.rs:93-103 | the first covering slot's derivation, or nothing |
| Shachain.InsertRepresents | src/shachain.rs:79-91 | an accepted insert keeps: minimal index per slot, every covered index derives to the accepted secret, every revealed index covered |
| Shachain.StoreRefinesFullMap | src/shachain.rs:79-103 | for any hash and any peer, after an accepted descending run the store returns exactly the accepted secret of every revealed index and nothing for the others |
| Shachain.HonestInsertAccepted | src/shachain.rs:79-91 | an honest peer's next secret is accepted |
| Shachain.HonestRunAccepted | src/shachain.rs:35-37 | all 2^48 secrets of an honest peer are accepted in order |
| Shachain.PersistenceRoundTrip | src/shachain.rs:110-121 | restoring the saved entries gives the same store, for any accepted run |
| ChannelObject.Endpoint.Balance | src/channel/mod.rs:889-898 | the balance loop computes `BalancesFor` |
| ChannelObject.Endpoint.GcHtlcs | src/channel/mod.rs:900-915 | drops exactly the HTLCs gone on both sides and bakes their effect into the base |
| ChannelObject.Endpoint.BuildHolderCommitment | src/channel/mod.rs:917-949 | our next commitment's parameters and HTLC multiset |
| ChannelObject.Endpoint.BuildCounterpartyCommitment | src/channel/mod.rs:952-984 | their next commitment's parameters and HTLC multiset |
| ChannelObject.Endpoint.ValidateOutboundAdd | src/channel/dance.rs:107-160 | decides `OutboundAddAllowed`: limits, in-flight total, affordability with headroom of two |
| ChannelObject.Endpoint.ValidateInboundAdd | src/channel/dance.rs:282-323 | decides `InboundAddAllowed`: the receiver's limits and affordability |
| ChannelObject.Endpoint.SendAddHtlc | src/channel/dance.rs:55-105 | new state and result are those of `SendAdd`; errors change nothing |
| ChannelObject.Endpoint.SendRemoveHtlc | src/channel/dance.rs:163-242 | fulfil, fail and fail-malformed as `SendRemove` |
| ChannelObject.Endpoint.SendFeeUpdate | src/channel/dance.rs:245-265 | as `SendUpdateFee` |
| ChannelObject.Endpoint.ReceiveAddHtlc | src/channel/dance.rs:269-340 | as `OnUpdateAdd`, every refusal included |
| ChannelObject.Endpoint.ReceiveRemoveHtlc | src/channel/dance.rs:344-405 | as `OnUpdateRemove`, with the source and amount to settle |
| ChannelObject.Endpoint.ReceiveFeeUpdate | src/channel/dance.rs:409-422 | as `OnUpdateFee` |
| ChannelObject.Endpoint.SignCounterpartyCommitment | src/channel/dance.rs:439-503 | as `SendCommitmentSigned`: the signed view and the snapshot of what it covers |
| ChannelObject.Endpoint.LockHolderSide | src/channel/dance.rs:564-592 | the two passes over the HTLCs lock and acknowledge each of them, and report whether any was acknowledged |
| ChannelObject.Endpoint.ReceiveCommitmentSigned | src/channel/dance.rs:507-610 | as `OnCommitmentSigned` |
| ChannelObject.Endpoint.ApplySnapshot | src/channel/dance.rs:645-667 | applies the snapshotted transitions key by key |
| ChannelObject.Endpoint.AcceptRevocation | src/channel/dance.rs:614-671 | as `Revoke`: point and chain checks, new numbers and points, snapshot applied |
| ChannelObject.Endpoint.CollectReady | src/channel/dance.rs:735-753 | reports and marks exactly the unprocessed irrevocable inbound HTLCs |
| ChannelObject.Endpoint.FlushHoldingCell | src/channel/dance.rs:676-724 | re-issues parked operations in order, reporting adds that no longer fit |
| ChannelObject.Endpoint.ReceiveRevokeAndAck | src/channel/dance.rs:614-729 | as `OnRevokeAndAck` |
| ChannelObject.Endpoint.RollBack | src/channel/reestablish.rs:36-110 | what becomes of one HTLC when the transport drops, as `Judged` |
| ChannelObject.Endpoint.Disconnect | src/channel/reestablish.rs:24-117 | as `OnDisconnect`: the pass over the HTLCs, the operations put before the parked ones, the expected id and the fee rate |
| ChannelRuns.Conservation | src/channel/mod.rs:218-243 | in every state reachable against any peer, balances plus included HTLCs are the funding on either side, the base sums to it, and no saturating subtraction saturates on any prefix of the list |
| ChannelRuns.NeverSaturates | src/channel/mod.rs:889-898 | the saturating sum over any prefix of the list equals the exact one |
| LedgerFacts.PeerNeverLowers | src/channel/dance.rs:139-158 | the peer's updates never lower our balance |
| LedgerFacts.ExactLive | src/channel/dance.rs:121-135 | the live HTLC count and amount the limits use equal readings of the logs |
| LedgerCommits.SignKeeps | src/channel/dance.rs:439-503 | signing keeps the ledger invariant |
| LedgerCommits.LockKeeps | src/channel/dance.rs:507-600 | locking in and acknowledging keep it, with garbage collection |
| LedgerCommits.RevokeKeeps | src/channel/dance.rs:639-671 | the revocation keeps it, with garbage collection |
| HandOver.PhasesOnChain | src/channel/mod.rs:165-193 | every listed HTLC is at one of the five listed stages of its lifecycle, resolved exactly from the removal on |
| HandOver.PhasesAdvance | src/channel/dance.rs:564-592 | one event moves an HTLC forward or not at all, never changes its data or resolution, and drops it only from the last stage |
| HandOver.HandedOverIsIrrevocable | src/channel/dance.rs:735-753 | against any peer, a reported HTLC is in our stored commitment and in theirs, both of which there are, with no other commitment outstanding |
| HandOver.HandedOverAtMostOnce | src/channel/dance.rs:735-753 | over a whole run against any peer no inbound HTLC is reported twice |
| HandOverOnce.HandedOverExactlyOnce | src/channel/dance.rs:735-753 | against any peer, a listed inbound HTLC that is or was locked in on both commitments has been reported exactly once with its own data, and one that is not has not been |
| HandOverOnce.HandedOverAtOnce | src/channel/dance.rs:735-753 | the event that locks it in on both is the one that reports it |
| PairDelivery.SignedAgrees | src/channel/dance.rs:507-517 | the signer's view is the receiver's, whatever crossed |
| PairDelivery.AddAccepted | src/channel/dance.rs:269-323 | the sender's limits imply the receiver's: id, counts, in-flight total, affordability |
| PairDelivery.RemoveAccepted | src/channel/dance.rs:387-405 | an honest removal targets an HTLC locked on both sides |
| PairDelivery.FeeAccepted | src/channel/dance.rs:409-422 | an honest fee update is refused exactly above the ceiling |
| PairDelivery.RevocationAccepted | src/channel/dance.rs:614-643 | an honest revocation passes the point and the chain check |
| Dance.MirrorAgreement | src/channel/dance.rs:507-550 | in every run of two honest channels a delivered commitment_signed carries exactly the commitment its receiver builds |
| Dance.NoHonestFailure | src/channel/dance.rs:269-323 | delivery fails if and only if the message was one the sender's embedder should not have asked for or the numbers are exhausted |
| HoldingCell.FlushNeverParks | src/channel/dance.rs:676-724 | a flush never parks an operation again |
| Dance.QuiescentConvergence | src/channel/dance.rs:427-435 | with empty queues and nothing dirty or in flight both hold the same HTLCs, all locked, with swapped balances, equal fee rates and matching numbers |
| Dance.HandOverOnBothSides | src/channel/dance.rs:735-753 | between honest parties a reported HTLC is, at that moment, in the commitment each of them has stored as its own and in the one each has stored for the other |
| Releases.CommitmentStored | src/channel/dance.rs:507-610 | a commitment_signed is accepted exactly when it signs, to the last field, what we build ourselves; it is then stored and the secret of the one before and the point of the one after the next are released; otherwise nothing changes and nothing is sent |
| Releases.HolderMovesExactlyWhen | src/channel/dance.rs:507-560 | in every state reachable against any peer our commitment number moves exactly then, by one, and what is stored changes only then |
| Releases.RevokedOnlyOnceReplaced | src/channel/dance.rs:553-610 | over every run against any peer: a commitment of ours is always stored, on our own terms and for the current number, and the revocations sent are exactly those of the numbers below it, each once, in order, with the right secret and point |
| Releases.StoredWasVerified | src/channel/dance.rs:507-560 | over every run what is stored as ours is what was verified last, or the commitment stored at funding |
| Releases.RevocationMoves | src/channel/dance.rs:614-671 | a revoke_and_ack is accepted exactly when its secret opens the point and derives every earlier secret; it then makes the pending commitment current, moves the points up and is followed by at most one new commitment, for the next number and point |
| Releases.RevokedCanBeOpened | src/channel/dance.rs:614-643 | over every run against any peer the commitments signed are numbered in order, the stored one is the last the peer has moved to, and for each one before it the store gives the secret that opens its point |
| Releases.BuiltOnOwnTerms | src/channel/mod.rs:917-949 | what we build for ourselves has our point, our dust limit, the delay the peer imposes and the opener paying |
| HoldingCell.NothingParkedIsLost | src/channel/dance.rs:676-724 | when a revocation is accepted every parked operation has its turn, in order: an add is issued with its own data or its source reported failed, exactly once and according to whether it fits; a removal is issued or its HTLC could not be removed; nothing else is sent but at most one commitment after them |
| Sources.SourcesConserved | src/channel/dance.rs:676-724 | over every run against any peer, counted with multiplicity, the sources of all adds accepted are those parked, those carried by unresolved HTLCs and those reported failed or settled |
| Sources.SettledExactlyWhen | src/channel/dance.rs:344-405 | a removal from any peer is accepted exactly when it names an unresolved HTLC of ours locked on both sides, with its preimage or a flagged code where one is due; the settlement is that HTLC's own source and amount |
| Sources.FulfilledOnlyWithPreimage | src/channel/dance.rs:163-181 | over every run no HTLC of either direction is fulfilled with anything but a preimage of its own hash |
| Limits.LimitsHold | src/channel/dance.rs:269-323 | in every state reachable against any peer the live HTLCs of either direction are within their receiver's limits in number and value, every listed HTLC has an amount and expiry its receiver accepts, and fee rates stay above the floor and, when the peer sets them, below the ceiling |
| Limits.StakesHold | src/channel/dance.rs:300-323 | in every state reachable against any peer, each party's balance in the other's next commitment is at least its reserve, or what it started with if that was less |
| Limits.AddAcceptedExactlyWhen | src/channel/dance.rs:269-340 | an add from any peer is accepted, and listed with its own data, exactly when adds are allowed, the id is the next one, the limits have room for it and, with it in our commitment, the peer still has its reserve and the fees it pays |
| Limits.AddSentExactlyWhen | src/channel/dance.rs:55-160 | an add of ours is parked exactly while a commitment is in flight, and otherwise sent and listed exactly when the peer's limits have room and we keep our reserve and the fees of one HTLC more |
| Settlement.NeverStuck | src/channel/dance.rs:427-435 | no deadlock: from every reachable pair state some finite run of deliveries and signatures reaches the quiescent state, or a delivery that must fail |
| Settlement.AlwaysSettles | src/channel/dance.rs:614-729 | after commands a peer can accept, fewer than a third of the 2^48 numbers, such a run reaches the quiescent state and both parties have converged |
| HonestFailures.InitialExists | src/channel/mod.rs:218-243 | for every hash, point map and seeds there is an initial pair, and it allows an HTLC |
| HonestFailures.FeeAboveCeilingFails | src/channel/dance.rs:245-265 | from every initial pair, any fee rate above the ceiling is sent and fails the receiver's channel |
| HonestFailures.UnflaggedRemovalFails | src/channel/dance.rs:203-225 | from every initial pair and with any HTLC it allows: a run locks it in, fails it without the BADONION bit, and the removal fails the offerer's channel |
| BigSize.RoundTrip | src/wire/bigsize.rs:6-50 | reading undoes writing for every u64, whatever follows |
| BigSize.Canonical | src/wire/bigsize.rs:24-50 | only the shortest form is read |
| BigSize.BigEndianDigits | src/wire/bigsize.rs:6-22 | the bytes of a number are its digits to the base 256, most significant first |
| Onion.ParseSerialize | src/onion/mod.rs:55-79 | a packet survives the wire exactly when version, length and point are right |
| Onion.SharedSecretsForPath | src/onion/mod.rs:97-113 | the blinding loop computes every hop's secret |
| Onion.MakeFiller | src/onion/mod.rs:134-148 | the in-place XOR loop computes the accumulated filler |
| Onion.Construct | src/onion/mod.rs:122-196 | the packet built is the one meant for the first hop |
| Onion.PeelWithSecret | src/onion/mod.rs:219-279 | the peeling loop computes `Peel`, its errors included |
| Tampering.OpensOnlyAuthentic | src/onion/mod.rs:219-232 | InvalidVersion exactly when the version is not 0, InvalidHmac exactly when it is 0 and the packet's MAC is not the MAC, under the mu key, of payload area and associated data; nothing else is ever opened |
| Tampering.OpensWhatWasSealed | src/onion/mod.rs:233-279 | what is opened is the beginning of the decrypted area: the payload in its only length encoding and the next MAC; a zero MAC ends the route, otherwise the next packet is what follows, with the blinded key |
| Tampering.DecryptedIs | src/onion/mod.rs:233-242 | the decrypted area is the payload area under the stream of the hop's rho key, and behind it the bare stream |
| Tampering.TamperingStopsThere | src/onion/mod.rs:219-279 | if an attacker changes what some hop is handed, bytes or associated data, so that it does not authenticate there, exactly the payloads of the hops before it are delivered, whatever happens after |
| Tampering.ParsesExactly | src/onion/mod.rs:55-79 | the bytes accepted as a packet are exactly the serialized packets of version 0 with a valid point |
| Tampering.WireLayout | src/onion/mod.rs:45-53 | where the fields are on the wire |
| Onion.TailIsFiller | src/onion/mod.rs:134-188 | the end of every layer is the filler accumulated so far |
| Onion.NextRecovered | src/onion/mod.rs:234-279 | after shift, zero-extension and XOR a hop holds exactly the next hop's area |
| Onion.EveryHopPeels | src/onion/mod.rs:208-279 | for any payloads that fit, each hop with its own key passes the MAC, gets its payload and hands on the packet meant for the next; payloads under two bytes are refused, a zero MAC ends the route |
| Onion.Delivered | src/onion/mod.rs:122-279 | bytes on the wire from hop to hop deliver every payload to its hop, if all have two bytes and no inner MAC is zero |
| Onion.OverrunsExactlyWhen | src/onion/mod.rs:243-270 | an authenticated packet overruns the buffer if and only if it declares over 1265 bytes and is not final |
| Onion.AnOverrunningPacket | src/onion/mod.rs:243-270 | for every suite, secret, ephemeral key and associated data an authenticated packet that does |
| Gossip.NetworkGraph.ApplyChannelAnnouncement | src/graph/mod.rs:114-149 | the new graph and the refusal are those of `Apply` and `Refused` |
| Gossip.NetworkGraph.ApplyChannelUpdate | src/graph/mod.rs:151-187 | the same for channel updates |
| Gossip.GossipWellFormed | src/graph/mod.rs:114-149 | whatever is heard, every channel joins two different nodes in order and is listed at exactly those |
| Gossip.ChannelsExactly | src/graph/mod.rs:114-149 | whatever is heard, a channel is in the graph exactly when an announcement on our chain with its nodes in order was signed by both nodes and both funding keys; its ends and capacity are those of the first such one |
| Gossip.PoliciesAreNewest | src/graph/mod.rs:151-187 | whatever is heard, in any order, each stored policy is the newest one that the node it leaves from signed since the channel was announced |
| Gossip.EdgesIntoExactly | src/graph/mod.rs:203-229 | in every graph gossip can build, the edges into a node are exactly those of the announced channels between it and the node they come from, enabled, with the capacity and the policy announced by that node |
| Gossip.EdgesAreGossiped | src/graph/mod.rs:203-229 | in any graph an edge carries the policy of the node it comes from |
| Gossip.HintsIntoExactly | src/router/mod.rs:175-201 | the hint edges are exactly the hops of the hints, each on its own terms towards the next hop's node or the payee |
| Router.InitialInv | src/router/mod.rs:163-173 | the search starts in its invariant |
| Router.RelaxKeeps | src/router/mod.rs:249-301 | relaxing an edge keeps it and never touches a settled node |
| Router.OfferKeeps | src/router/mod.rs:213-239 | offering a first hop keeps it and changes the payer only |
| Router.PopKeeps | src/router/mod.rs:203-302 | a whole pop keeps the invariant, settles its node and leaves settled states alone |
| Routing.PopsNonDecreasing | src/router/mod.rs:203-211 | pops come in order of cost over any run |
| Routing.SettledForever | src/router/mod.rs:204-208 | a node's state is final once popped at its own cost |
| Routing.ExpandedOnce | src/router/mod.rs:204-208 | no node is expanded twice |
| Routing.TableRelaxed | src/router/mod.rs:249-301 | the relaxation inequality holds on every feasible edge into an expanded node, and for our own channels |
| Routing.TableRoutesValid | src/router/mod.rs:304-328 | a route read off the table is loop-free, within max_hops, starts on a channel of ours that can pay, delivers exactly amount and expiry, and every hop is paid exactly the fee and delta it announced for its own direction, within its limits and capacity |
| Routing.RouteCost | src/router/mod.rs:286-301 | the cost held for a route is the amount delivered plus, for every hop after the first, the fee paid and the scorer's penalty for the channel taken at the amount it carries, up to the largest 64-bit number |
| Routing.FeeExact | src/graph/mod.rs:43-48 | a fee is the base plus the rate in millionths, rounded down |
| Routing.NoPathExhausted | src/router/mod.rs:203-302 | when the search ends without a route, what it reached is closed backwards over every announced or hinted channel that can carry the amount, within the hop limit and at no more than its price, and no node reached is a peer we can start with |
| Routing.DirectPeerFound | src/router/mod.rs:213-239 | a payee that is a peer with enough of our balance is always reached |
| Routing.HopAccepts | src/node/mod.rs:1531-1546 | a hop applying the policy it announced, or was hinted with, accepts exactly from the route's amount and expiry upwards |
| Routing.PaymentArrives | src/node/mod.rs:665-686 | with the payloads the payer writes, every hop forwards and the payee receives exactly the requested amount and expiry |
| FindRoute.RelaxOne | src/router/mod.rs:249-301 | one turn of the relaxation loop |
| FindRoute.Expand | src/router/mod.rs:213-302 | first hop and relaxation loop compute the transition |
| FindRoute.PopProgresses | src/router/mod.rs:203-302 | every pop settles a node or shortens the heap: the search ends |
| FindRoute.Walk | src/router/mod.rs:304-328 | the cursor loop ends, returns the table's route and never LimitExceeded |
| FindRoute.Find | src/router/mod.rs:132-328 | for any graph, hints and scorer the search ends and returns a valid route, or NoPath; on a graph built by gossip NoPath only when what it reached is exhausted; a reachable direct peer is always found; to oneself always NoPath |
| Poly1305.ClampExact | src/crypto/poly1305.rs:13-25 | the masked limbs hold the clamped key |
| Poly1305.BlockExact | src/crypto/poly1305.rs:49-60 | the limbs of a block hold its sixteen bytes and the bit above |
| Poly1305.Multiply | src/crypto/poly1305.rs:62-68 | no u32 or u64 overflow; the five sums equal the product modulo 2^130-5 |
| Poly1305.Carry | src/crypto/poly1305.rs:70-90 | no overflow; limb bounds restored, value kept modulo 2^130-5 |
| Poly1305.Block | src/crypto/poly1305.rs:49-91 | one block multiplies and adds modulo 2^130-5 |
| Poly1305.FullCarry | src/crypto/poly1305.rs:102-119 | the last carry cannot overflow the second limb; all limbs under 26 bits |
| Poly1305.FinalSubtraction | src/crypto/poly1305.rs:121-143 | the unique residue below 2^130-5 |
| Poly1305.Words | src/crypto/poly1305.rs:145-149 | repacking is the value modulo 2^128 |
| Poly1305.AddPad | src/crypto/poly1305.rs:151-161 | word-wise addition modulo 2^128 |
| Poly1305.Authenticator.Update | src/crypto/poly1305.rs:27-47 | absorbs exactly the bytes passed, buffered or not |
| Poly1305.Authenticator.Finalize | src/crypto/poly1305.rs:93-168 | the tag of section 2.5 of RFC 8439 over everything absorbed |
| Poly1305.Authenticate | src/crypto/poly1305.rs:170-174 | the same tag for any cutting of the message into updates |
| Noise.UsesAreDistinct | src/noise/mod.rs:267-280 | use i takes nonce i mod 1000 of key epoch i / 1000 |
| Noise.NoUseTwice | src/noise/mod.rs:267-280 | two different uses differ in epoch or nonce |
| Noise.FramesAreUses | src/noise/mod.rs:303-313 | after n frames a direction has made exactly 2n uses |
| Noise.FrameUses | src/noise/mod.rs:303-313 | frame n is sealed with uses 2n and 2n + 1, across key rotations |
| Noise.Transport.EncryptMessage | src/noise/mod.rs:303-313 | one frame and two cipher uses, or MessageTooLong and nothing |
| Noise.Transport.ReadInput | src/noise/mod.rs:316-318 | appends to the buffer |
| Noise.Transport.TakeMessage | src/noise/mod.rs:321-343 | as `NextMessage`: a message, waiting with the length kept, or a bad tag |
| Noise.FeedConcat | src/noise/mod.rs:321-343 | for any bytes two deliveries equal one |
| Noise.Delivery | src/noise/mod.rs:303-343 | any messages, any cutting of the stream: exactly those messages in order, and the receiver ends in the sender's key and nonce |
| Integrity.DeliversOnlyAPrefix | src/noise/mod.rs:316-343 | if nobody but the sender can make a ciphertext that opens, then whatever bytes arrive, the messages delivered are the first ones sent: none forged, dropped, repeated or reordered |
| Integrity.ConnectionDeliversOnlyAPrefix | src/node/peer.rs:74-153 | the same for any reads of a connection that is up |
| Integrity.DialDelivers | src/node/peer.rs:84-143 | however the stream is cut, a dialler that is answered honestly sends its last act and delivers exactly the messages sent after the handshake |
| Integrity.AcceptDelivers | src/node/peer.rs:84-143 | the same for a listener, which learns who dialled |
| Peer.InputConcat | src/node/peer.rs:74-153 | in every state, handshake included, two reads equal one, failures too |
| Peer.AnyReads | src/node/peer.rs:74-153 | any sequence of reads equals one read of their concatenation |
| Peer.Connection.Advance | src/node/peer.rs:84-143 | one turn of the handshake loop |
| Peer.Connection.Read | src/node/peer.rs:74-153 | the whole input method as `Input` |
| Reestablish.LastSecretKnown | src/channel/reestablish.rs:119-137 | the secret presented is the one its owner released last |
| Reestablish.Answer | src/channel/reestablish.rs:139-187 | the answer is accepted and resends exactly what the numbers say was not received |
| Reestablish.ResendsExactlyTheLost | src/channel/reestablish.rs:148-187 | what is resent is exactly what disconnections destroyed |
| Reestablish.NeverRejected | src/channel/reestablish.rs:139-187 | over every run with any disconnections honest peers report no data loss and no ancient number, and every secret proof checks |
| Reestablish.RetransmitsInEveryRun | src/channel/reestablish.rs:287-294 | the same for every reachable state about to read a re-establishment |
| Reestablish.ReestablishedExactlyWhen | src/channel/reestablish.rs:139-187 | for any message: accepted exactly when the peer is at most one revocation and one commitment in flight behind, ahead in neither, and presents the right secret; resent is exactly what it is behind by, the revocation first |
| Reestablish.RefusedExactlyWhen | src/channel/reestablish.rs:148-187 | which refusal, for any message |
| Disconnection.ForgetsExactlyWhen | src/channel/reestablish.rs:20-117 | in every state reachable against any peer, a disconnection leaves ids, HTLCs and fee rates as if nothing unsigned had been sent by either party, if and only if the break is clean |
| Reconnection.CalmIsClean | src/channel/reestablish.rs:24-117 | with nothing left to sign the break is clean, unless an unsigned add of the peer has the data of an HTLC in our commitment |
| Reconnection.CalmKeeps | src/channel/reestablish.rs:24-117 | after such a break the state is again the one its logs describe, without what was unsigned: phases, balances, fee rates, limits, snapshots and stored commitments |
| Reconnection.ConservedAcrossBreak | src/channel/reestablish.rs:24-117 | so money is conserved whatever happens before and after it, against any peer |
| LostUpdates.ForgottenAddFails | src/channel/reestablish.rs:41-50 | from every initial pair: an add not signed before the connection dropped, received or not, makes the next add fail the peer's channel |
| LostUpdates.ForgottenFeeFails | src/channel/reestablish.rs:113-116 | from every initial pair: a fee rate not signed before the connection dropped makes the next commitment fail the peer's channel |
| LostUpdates.RemovalParkedExactlyWhen | src/channel/reestablish.rs:59-75 | an unsigned removal of ours is issued again exactly when it is not a malformed failure; the HTLC is open again either way |
| LostUpdates.SourcesAcrossBreak | src/channel/reestablish.rs:24-112 | after any run no source in hand is lost at a break, and besides them exactly those of removals taken back, already reported as settled, are in hand again |
| TxOutputs.ByValueThenScript | src/commitment/mod.rs:296-301 | the output order is by value, then by script |
| TxOutputs.Transitive | src/commitment/mod.rs:296-301 | the output order is transitive |
| TxOutputs.Antisymmetric | src/commitment/mod.rs:296-301 | and antisymmetric, so sorting has one result |
| Closing.SameTx | src/channel/close.rs:98-135 | both ends build the same closing transaction for a fee if and only if no output lies between their dust limits |
| Closing.PaysEachItsOwn | src/commitment/mod.rs:424-455 | the closing transaction pays each party's own script its balance in satoshis, less the fee for the funder only, exactly when that is at least the larger of the dust limit and 546, and nobody else |
| Closing.ClosingConserves | src/channel/close.rs:117-131 | with both outputs kept and a fee the funder can pay, outputs and fee add up to the two balances |
| Closing.EqualDustKeepsSame | src/channel/close.rs:121 | with the same dust limit, or none above 546, no output lies between them |
| Closing.DifferentDustFails | src/channel/close.rs:121 | an opening offer at which the two ends keep different outputs fails the talks |
| Closing.DifferentDustExists | src/channel/close.rs:121 | honest parties that make such an offer exist |
| Closing.ClosesOnlyOnSigned | src/channel/close.rs:194-319 | a side closes only on the transaction the peer's message signed, at that message's fee, and only once; a message that signs anything else is refused |
| Closing.ClosesInsideRanges | src/channel/close.rs:194-281 | with ranges it closes only inside both, or on what it had itself proposed |
| Closing.Negotiator.MaybeSend | src/channel/close.rs:167-192 | the funder's first offer within its own limits, nothing, or the panic |
| Closing.Negotiator.Receive | src/channel/close.rs:194-319 | every branch of the answer as `OnClosingSigned`, the panic included; an error never closes |
| Closing.ClampableExactlyWhen | src/channel/close.rs:84-96 | the fee limits are in order exactly from a target of 127 up and, for the funder, 180 satoshis of balance |
| Closing.ClampPanicsExactlyWhen | src/channel/close.rs:194-319 | which openings and which received messages reach the panic |
| Closing.RangedCloseAgrees | src/channel/close.rs:167-281 | with fee ranges, when the two ends keep the same outputs, both close on one transaction within both ranges after the offer and at most two more messages, and it pays each party its own |
| Closing.GapShrinks | src/channel/close.rs:284-294 | a range-less proposal lies strictly between the last two and halves their distance |
| Closing.FirstAnswer | src/channel/close.rs:284-319 | the first range-less answer is our own fee |
| Closing.RangelessCloseAgrees | src/channel/close.rs:284-319 | without ranges, proposals at most 2^k apart end within k + 2 deliveries, both closed on one fee between them |
| Closing.RangelessTalksAgree | src/channel/close.rs:284-319 | the same from the first range-less offer, within k + 3 deliveries, between the offer and the answerer's own fee, on a transaction that pays each party its own |
| CommitmentTx.OrderOfHtlcsIrrelevant | src/commitment/mod.rs:228-316 | permuting the HTLCs leaves outputs, fee and the output-order sequence of HTLC (value, script, expiry) unchanged |
| CommitmentTx.NeverOverspends | src/commitment/mod.rs:239-292 | outputs never sum above balances plus HTLC amounts |
| CommitmentTx.PaysEachItsOwn | src/commitment/mod.rs:239-292 | the outputs are the broadcaster's balance to its delayed script, the other party's to its own, the fee out of the balance of the one that pays fees, each if not dust, and the untrimmed HTLCs |
| CommitmentTx.TrimmedExactlyWhen | src/commitment/mod.rs:190-226 | an HTLC has no output exactly when what its second stage leaves is dust |
| CommitmentTx.FeeExact | src/commitment/mod.rs:228-250 | the fee is the weight at the fee rate, rounded down |
| CommitmentTx.CommitmentConserves | src/commitment/mod.rs:239-292 | when the payer can pay the fee, outputs, fee and what is too small for an output add up to the balances and HTLCs |
| CommitmentBuild.Build | src/commitment/mod.rs:228-342 | sorted outputs; each untrimmed HTLC has one distinct index that points at its output, a trimmed one none; signing order follows output order; balance indices point at their outputs |
| CommitmentBuild.FieldsCarry | src/commitment/mod.rs:229-329 | lock time and sequence carry 24 bits each of the obscured number |
| Recognition.NumberRoundTrip | src/chain/monitor.rs:128-135 | every 48-bit number survives hiding and reading back |
| Recognition.RevokedRecognised | src/chain/monitor.rs:113-144 | a non-current commitment is revoked exactly below the number of released secrets |
| Recognition.RevocationRecognition | src/chain/monitor.rs:113-144 | after any channel run against any peer, exactly below the counterparty's current number |
| Recognition.ClassifiesExactly | src/chain/monitor.rs:113-144 | for any transaction: nothing unless it spends the funding output; ours or the peer's current one by id; a cooperative close by its shape; otherwise revoked or unknown |
| Recognition.CommitmentTxVerdict | src/chain/monitor.rs:113-144 | the answer for the transaction of a commitment, by id and then by whether the store covers its number |
| Recognition.MonitorKnowsThemAll | src/chain/monitor.rs:113-144 | after any channel run against any peer: the commitment stored as ours is classified as ours, the peer's current one as current, and every earlier one we signed as revoked, with its number and the secret that opens its point |
| Bech32.StepLinear | src/invoice/bech32.rs:29-42 | a checksum step is linear over exclusive or |
| Bech32.ChecksumVerifies | src/invoice/bech32.rs:57-73 | appending the checksum brings the residue to 1 |
| Bech32.ComputePolymod | src/invoice/bech32.rs:29-42 | the loop computes `Polymod` |
| Bech32.EncodeString | src/invoice/bech32.rs:57-73 | the loop computes `Encode` |
| Bech32.DecodeString | src/invoice/bech32.rs:76-100 | the loop computes `Decode`, errors included |
| Bech32.RoundTrip | src/invoice/bech32.rs:57-100 | for every 5-bit data and prefix without capitals decoding undoes encoding, and an empty prefix is refused |
| Bech32.CapitalsRefused | src/invoice/bech32.rs:76-84 | a prefix with capitals never comes back |
| Bech32Exact.ChecksumUnique | src/invoice/bech32.rs:57-73 | six symbols bring the residue to 1 only if they are the checksum |
| Bech32Exact.DecodesExactly | src/invoice/bech32.rs:76-100 | the strings accepted are exactly the encodings with a non-empty prefix, all in one case |
| Bech32Exact.KnownString | src/invoice/bech32.rs:29-73 | the shortest valid string of BIP-173 |
| BitGroups.ConvertBits | src/invoice/bech32.rs:103-127 | for widths whose sum is at most 33 and groups of at most 8 bits, the same bits regrouped despite the unmasked 32-bit accumulator; refused exactly when a value is too wide or, unpadded, what is left is long or not zero |
| BitGroups.BytesRoundTrip | src/invoice/bech32.rs:103-127 | strict 5 to 8 undoes padded 8 to 5 for every byte string |

## Left out

- Amounts, fees, expiries and counters are natural numbers: u64 and u32 overflow is modelled only where the source truncates or saturates (HTLC counts to 16 bits, router costs, saturating balances, the bit accumulator) and in Poly1305, which is in machine integers throughout.
- Hashes, key streams, MAC, AEAD, ECDSA and secp256k1: arbitrary functions with only the laws stated (ECDH commutes, a sealed message opens, a signature is what it signs).
- Error texts; a panic of the fee clamp or the onion slice is an error of its own, a panic on a missing pending commitment or point is modelled as failing the channel, and a commitment number past 2^48 as `Exhausted`.
- The three kinds of HTLC removal are one operation with a resolution, as their code differs only in the resolution and the BADONION check.
- Channel opening, `shutdown` and adds that cross it: the dance starts in Normal with nothing pending, and the closing talks start from a quiescent pair.
- Sending the updates of a lost commitment again and signing it again (src/channel/reestablish.rs:192-286): reconnection resends the two messages that carry numbers and secrets.
- Reestablish.Receive: takes a commitment_signed as its number and checks a revocation against the secret chain only, so it does not tell whether the contents of a commitment signed before a revocation still fit when, as the source does, the revocation is sent again first.
- `Dance`: the two-party theorems assume no disconnection and no shutdown; agreement does not survive every disconnection (see the findings).
- The script exchange and readiness test of the closing talks (src/channel/close.rs:20-81): both sides are ready.
- Onion.Construct: requires payloads that fit and one per hop, which the source asserts.
- A blinded key of zero or a blinding factor above the curve order, which the source treats as impossible.
- The order in which equal-cost heap entries are popped, which is left open; the hint table is a lookup over the hints.
- Optimality of routes in the amount paid, and a lower limit on forwarded amounts: fees depend on amounts while the search orders by cost, and htlc_minimum is tested on the incoming amount.
- BitGroups.ConvertBits: promises nothing for other widths, on which the accumulator or the output byte loses bits; the loop is modelled for every width its shifts allow.
- Closing.RangedCloseAgrees: for ends that keep the same outputs at every fee up to the offerer's largest, without which agreement is false (see the findings).
- Closing.RangelessTalksAgree: the same, for fees both sides can pay and limits in order.
- Gossip: a signature is an arbitrary relation between messages and keys, and a node is its key, ordered as its bytes; node announcements are not part of it.
- Settlement.AlwaysSettles: bounds the number of steps, because every commitment uses a number and they run out.
- Handshake acts of the transport: arbitrary functions; only how their bytes are collected is modelled.
- Peer.Connection: owns its transport as a value.
- Script templates, sighashes, weights beyond the two fee formulas, sweeps and justice transactions, error-return onions, node announcements, invoices other than bech32, persistence other than the secret store, and the node's own bookkeeping.
