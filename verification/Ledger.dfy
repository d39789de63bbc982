/**
 * The reference account of a channel: two append-only logs of updates, one per
 * direction, and how much of each log either party has signed, acknowledged or
 * locked. BOLT 2 says a commitment is determined by which updates it covers;
 * here the phases, balances, fee rate and HTLC outputs the code keeps are shown
 * to be functions of the two logs.
 *
 * A `History` is a proof device. No operation of `Channel` reads it.
 */
module Ledger {
  import opened Wrappers
  import opened Channel
  import opened Sums

  datatype Data = Data(amount: nat, cltvExpiry: nat, paymentHash: Bytes, onion: Bytes)

  datatype Update =
    | Add(id: nat, data: Data)
    | Remove(id: nat, data: Data, resolution: Resolution)
    | Fee(feerate: nat)

  /** Where an HTLC's add stands in its offerer's log, and its removal, if any,
      in the other. */
  datatype Ix = Ix(add: nat, rem: Option<nat>)

  /**
   * `sent` and `recv` are our log and the peer's. Counters into `sent`:
   *   ownLocked <= ownAcked <= ownSigned <= |sent|
   * (covered by a commitment of ours / revoked-to by the peer / covered by our
   * last commitment_signed). Counters into `recv`:
   *   peerFinal <= peerSigned <= peerLocked <= |recv|
   * (irrevocable on the peer's side / covered by our last commitment_signed /
   * covered by our latest commitment).
   */
  datatype History = History(
    sent: seq<Update>, recv: seq<Update>,
    outIx: seq<Ix>, inIx: seq<Ix>,
    ownLocked: nat, ownAcked: nat, ownSigned: nat,
    peerFinal: nat, peerSigned: nat, peerLocked: nat,
    sentLevel: seq<nat>,  // peerLocked when each update was sent
    sentSeen: seq<nat>,   // |recv| when each update was sent
    recvLevel: seq<nat>,  // ownAcked when each update was received
    settled: seq<Htlc>,
    initial: Balances, initialFeerate: nat)

  function DataOf(x: Htlc): Data {
    Data(x.amount, x.cltvExpiry, x.paymentHash, x.onion)
  }

  // --------------------------------------------------------------- meters

  /** A quantity that each HTLC contributes to: one amount while it is in
      escrow, another once it is resolved. The flag says "offered by us". */
  datatype Meter = Meter(escrow: (bool, Data) -> int, credit: (bool, Data, Resolution) -> int)

  function Neg(x: int): int { -x }

  function HolderMeter(): Meter {
    Meter((o: bool, d: Data) => if o then Neg(d.amount) else 0,
          (o: bool, d: Data, r: Resolution) => if !r.Fulfill? then 0 else if o then Neg(d.amount) else d.amount)
  }

  function CounterpartyMeter(): Meter {
    Mirror(HolderMeter())
  }

  function CountMeter(): Meter {
    Meter((o: bool, d: Data) => 1, (o: bool, d: Data, r: Resolution) => 0)
  }

  function LiveCountMeter(outbound: bool): Meter {
    Meter((o: bool, d: Data) => if o == outbound then 1 else 0, (o: bool, d: Data, r: Resolution) => 0)
  }

  function LiveAmountMeter(outbound: bool): Meter {
    Meter((o: bool, d: Data) => if o == outbound then d.amount else 0, (o: bool, d: Data, r: Resolution) => 0)
  }

  function OutputFor(o: bool, d: Data, holderSide: bool): HtlcOutput {
    HtlcOutput(o == holderSide, d.amount, d.cltvExpiry, d.paymentHash)
  }

  /** Multiplicity of one output in a commitment. */
  function OutputMeter(out: HtlcOutput, holderSide: bool): Meter {
    Meter((o: bool, d: Data) => if OutputFor(o, d, holderSide) == out then 1 else 0,
          (o: bool, d: Data, r: Resolution) => 0)
  }

  /** The same quantity seen by the other party. */
  function Mirror(mt: Meter): Meter {
    Meter((o: bool, d: Data) => mt.escrow(!o, d), (o: bool, d: Data, r: Resolution) => mt.credit(!o, d, r))
  }

  /** What one logged update adds to the meter. */
  function Delta(mt: Meter, u: Update, own: bool): int {
    match u
    case Add(_, d) => mt.escrow(own, d)
    case Remove(_, d, r) => mt.credit(!own, d, r) - mt.escrow(!own, d)
    case Fee(_) => 0
  }

  function LogSum(mt: Meter, log: seq<Update>, n: nat, own: bool): int
    requires n <= |log|
  {
    if n == 0 then 0 else LogSum(mt, log, n - 1, own) + Delta(mt, log[n - 1], own)
  }

  /** The meter's reading in the commitment that covers the first `a` of our
      updates and the first `b` of the peer's. */
  function Reading(mt: Meter, g: History, a: nat, b: nat): int
    requires a <= |g.sent| && b <= |g.recv|
  {
    LogSum(mt, g.sent, a, true) + LogSum(mt, g.recv, b, false)
  }

  function OwnBalance(g: History, a: nat, b: nat): int
    requires a <= |g.sent| && b <= |g.recv|
  {
    g.initial.holder + Reading(HolderMeter(), g, a, b)
  }

  function PeerBalance(g: History, a: nat, b: nat): int
    requires a <= |g.sent| && b <= |g.recv|
  {
    g.initial.counterparty + Reading(CounterpartyMeter(), g, a, b)
  }

  function LastFee(log: seq<Update>, n: nat, initial: nat): nat
    requires n <= |log|
  {
    if n == 0 then initial
    else if log[n - 1].Fee? then log[n - 1].feerate
    else LastFee(log, n - 1, initial)
  }

  /** The opener's log carries the fee updates. */
  function FeeAt(role: Role, g: History, a: nat, b: nat): nat
    requires a <= |g.sent| && b <= |g.recv|
  {
    if role.Opener? then LastFee(g.sent, a, g.initialFeerate) else LastFee(g.recv, b, g.initialFeerate)
  }

  // ------------------------------------------- what the code's list adds up to

  predicate InRange(g: History, x: Htlc) {
    if x.outbound then x.id < |g.outIx| else x.id < |g.inIx|
  }

  function IxOf(g: History, x: Htlc): Ix
    requires InRange(g, x)
  {
    if x.outbound then g.outIx[x.id] else g.inIx[x.id]
  }

  /** What a listed HTLC adds to the meter in the commitment covering `a`, `b`. */
  function Share(mt: Meter, g: History, x: Htlc, a: nat, b: nat): int {
    if !InRange(g, x) then 0
    else
      var ix := IxOf(g, x);
      var (adds, rems) := if x.outbound then (a, b) else (b, a);
      if ix.add >= adds then 0
      else if ix.rem.Some? && ix.rem.value < rems then CreditOf(mt, x)
      else mt.escrow(x.outbound, DataOf(x))
  }

  function CreditOf(mt: Meter, x: Htlc): int {
    if x.resolution.Some? then mt.credit(x.outbound, DataOf(x), x.resolution.value) else 0
  }

  function ListSum(mt: Meter, g: History, htlcs: seq<Htlc>, a: nat, b: nat): int {
    Sum((x: Htlc) => Share(mt, g, x, a, b), htlcs)
  }

  function SettledSum(mt: Meter, settled: seq<Htlc>): int {
    Sum((x: Htlc) => CreditOf(mt, x), settled)
  }

  // ------------------------------------------------------ phases from counters

  function HolderPhase(g: History, x: Htlc): Phase
    requires InRange(g, x)
  {
    var ix := IxOf(g, x);
    if x.outbound then
      if ix.rem.Some? then (if ix.rem.value < g.peerLocked then Gone else Removing)
      else if ix.add < g.ownLocked then Committed
      else if ix.add < g.ownAcked then Pending
      else NotYet
    else
      if ix.rem.Some? && ix.rem.value < g.ownLocked then Gone
      else if ix.rem.Some? && ix.rem.value < g.ownAcked then Removing
      else if ix.add < g.peerLocked then Committed
      else Pending
  }

  function CounterpartyPhase(g: History, x: Htlc): Phase
    requires InRange(g, x)
  {
    var ix := IxOf(g, x);
    if x.outbound then
      if ix.rem.Some? && ix.rem.value < g.peerFinal then Gone
      else if ix.rem.Some? && ix.rem.value < g.peerLocked then Removing
      else if ix.add < g.ownAcked then Committed
      else Pending
    else
      if ix.rem.Some? then (if ix.rem.value < g.ownAcked then Gone else Removing)
      else if ix.add < g.peerFinal then Committed
      else if ix.add < g.peerLocked then Pending
      else NotYet
  }

  predicate OutGone(g: History, ix: Ix) {
    ix.rem.Some? && ix.rem.value < g.peerFinal
  }

  predicate InGone(g: History, ix: Ix) {
    ix.rem.Some? && ix.rem.value < g.ownLocked
  }

  // ---------------------------------------------------------- the invariant

  ghost predicate Counted(c: Chan, g: History) {
    && g.ownLocked <= g.ownAcked <= g.ownSigned <= |g.sent|
    && g.peerFinal <= g.peerSigned <= g.peerLocked <= |g.recv|
    && (!c.awaitingRaa ==> g.ownAcked == g.ownSigned && g.peerFinal == g.peerSigned)
    && (c.awaitingRaa ==> g.ownSigned == |g.sent|)
    && c.awaitingRaa == c.pending.Some?
    && (c.dirty <==> g.ownSigned < |g.sent| || g.peerSigned < g.peerLocked)
    && |g.outIx| == c.nextHolderId && |g.inIx| == c.nextCounterpartyId
    && |g.sentLevel| == |g.sentSeen| == |g.sent| && |g.recvLevel| == |g.recv|
  }

  /** One direction's index table agrees with the two logs: `adds` holds the
      adds, `rems` the removals, which concern adds below `final` only. */
  ghost predicate IndexAgrees(ixs: seq<Ix>, adds: seq<Update>, rems: seq<Update>, final: nat) {
    && (forall id | 0 <= id < |ixs| :: AddAgrees(ixs[id], id, adds))
    && (forall id | 0 <= id < |ixs| :: RemAgrees(ixs[id], id, adds, rems, final))
    && (forall i | 0 <= i < |adds| :: adds[i].Add? ==> adds[i].id < |ixs| && ixs[adds[i].id].add == i)
    && (forall i | 0 <= i < |rems| :: rems[i].Remove? ==> rems[i].id < |ixs| && ixs[rems[i].id].rem == Some(i))
  }

  ghost predicate AddAgrees(ix: Ix, id: nat, adds: seq<Update>) {
    ix.add < |adds| && adds[ix.add].Add? && adds[ix.add].id == id
  }

  ghost predicate RemAgrees(ix: Ix, id: nat, adds: seq<Update>, rems: seq<Update>, final: nat) {
    ix.rem.Some? ==>
      && ix.add < final && ix.add < |adds| && adds[ix.add].Add?
      && ix.rem.value < |rems| && rems[ix.rem.value].Remove? && rems[ix.rem.value].id == id
      && rems[ix.rem.value].data == adds[ix.add].data
  }

  ghost predicate Indexed(g: History) {
    && IndexAgrees(g.outIx, g.sent, g.recv, g.ownLocked)
    && IndexAgrees(g.inIx, g.recv, g.sent, g.peerFinal)
  }

  /** A listed HTLC says what the logs say about it. */
  ghost predicate RecordAgrees(g: History, x: Htlc) {
    && InRange(g, x)
    && var ix := IxOf(g, x);
       var (adds, rems) := if x.outbound then (g.sent, g.recv) else (g.recv, g.sent);
       && ix.add < |adds| && adds[ix.add].Add? && adds[ix.add].data == DataOf(x)
       && x.phaseHolder == HolderPhase(g, x)
       && x.phaseCounterparty == CounterpartyPhase(g, x)
       && (ix.rem.None? ==> x.resolution.None?)
       && (ix.rem.Some? ==> ix.rem.value < |rems| && rems[ix.rem.value].Remove? &&
                            x.resolution == Some(rems[ix.rem.value].resolution))
       && !IsGone(x)
       && (x.outbound ==> x.source.Some?)
  }

  /** List order follows time: nothing listed after an add was removed before it. */
  ghost predicate InOrder(g: History, x: Htlc, y: Htlc) {
    InRange(g, x) && InRange(g, y) ==>
      && (x.outbound == y.outbound ==> x.id < y.id)
      && (x.outbound != y.outbound && IxOf(g, y).rem.Some? ==> IxOf(g, x).add < IxOf(g, y).rem.value)
  }

  ghost predicate Recorded(c: Chan, g: History) {
    && (forall i | 0 <= i < |c.htlcs| :: RecordAgrees(g, c.htlcs[i]))
    && (forall i, j | 0 <= i < j < |c.htlcs| :: InOrder(g, c.htlcs[i], c.htlcs[j]))
    && (forall id | 0 <= id < |g.outIx| :: OutGone(g, g.outIx[id]) || Find(c.htlcs, true, id).Some?)
    && (forall id | 0 <= id < |g.inIx| :: InGone(g, g.inIx[id]) || Find(c.htlcs, false, id).Some?)
  }

  /** The list and the settled HTLCs together read what the logs read. */
  ghost predicate MeterAgrees(c: Chan, g: History, mt: Meter, a: nat, b: nat) {
    g.ownLocked <= a <= |g.sent| && g.peerFinal <= b <= |g.recv| ==>
      SettledSum(mt, g.settled) + ListSum(mt, g, c.htlcs, a, b) == Reading(mt, g, a, b)
  }

  ghost predicate Metered(c: Chan, g: History) {
    && (forall mt, a, b :: MeterAgrees(c, g, mt, a, b))
    && c.base.holder == g.initial.holder + SettledSum(HolderMeter(), g.settled)
    && c.base.counterparty == g.initial.counterparty + SettledSum(CounterpartyMeter(), g.settled)
  }

  function SentLevelAt(g: History, a: nat): nat
    requires a <= |g.sentLevel|
  {
    if a == 0 then 0 else g.sentLevel[a - 1]
  }

  function RecvLevelAt(g: History, b: nat): nat
    requires b <= |g.recvLevel|
  {
    if b == 0 then 0 else g.recvLevel[b - 1]
  }

  ghost predicate OwnSolventAt(g: History, a: nat) {
    a <= |g.sent| && a <= |g.sentLevel| && SentLevelAt(g, a) <= |g.recv| && OwnBalance(g, a, SentLevelAt(g, a)) >= 0
  }

  ghost predicate PeerSolventAt(g: History, b: nat) {
    b <= |g.recv| && b <= |g.recvLevel| && RecvLevelAt(g, b) <= |g.sent| && PeerBalance(g, RecvLevelAt(g, b), b) >= 0
  }

  /** Levels only rise, and no update was issued that its issuer could not
      afford at the level it then knew. */
  ghost predicate Solvent(g: History) {
    && |g.sentLevel| == |g.sent| && |g.recvLevel| == |g.recv|
    && (forall i, j | 0 <= i <= j < |g.sentLevel| :: g.sentLevel[i] <= g.sentLevel[j])
    && (forall i, j | 0 <= i <= j < |g.recvLevel| :: g.recvLevel[i] <= g.recvLevel[j])
    && (forall i | 0 <= i < |g.sentLevel| :: g.sentLevel[i] <= g.peerLocked)
    && (forall i | 0 <= i < |g.recvLevel| :: g.recvLevel[i] <= g.ownAcked)
    && (forall a | 0 <= a <= |g.sent| :: OwnSolventAt(g, a))
    && (forall b | 0 <= b <= |g.recv| :: PeerSolventAt(g, b))
  }

  ghost predicate FeesAgree(c: Chan, g: History)
    requires Counted(c, g)
  {
    && c.feerateHolder == FeeAt(c.role, g, g.ownAcked, |g.recv|)
    && c.feerateCounterparty == FeeAt(c.role, g, |g.sent|, g.peerLocked)
    && (c.role.Opener? ==> c.pendingFeeAck.None? && forall i | 0 <= i < |g.recv| :: !g.recv[i].Fee?)
    && (c.role.Accepter? ==> forall i | 0 <= i < |g.sent| :: !g.sent[i].Fee?)
    && (c.pendingFeeAck.Some? ==> c.pendingFeeAck.value == c.feerateHolder && g.peerLocked < |g.recv|)
    && (c.pendingFeeAck.None? ==> forall i | g.peerLocked <= i < |g.recv| :: !g.recv[i].Fee?)
    && (c.pending.Some? ==>
          FeeAt(c.role, g, g.ownSigned, g.peerSigned) ==
          if c.role.Accepter? then LastFee(g.recv, g.peerSigned, g.initialFeerate)
          else if c.pending.value.feeUpdate.Some? then c.pending.value.feeUpdate.value else c.feerateHolder)
    && (c.pending.Some? && c.role.Accepter? ==> c.pending.value.feeUpdate.None?)
  }

  /** A commitment says what the logs say about the updates it covers. */
  ghost predicate Reflects(v: Commitment, role: Role, g: History, holderSide: bool, a: nat, b: nat) {
    && a <= |g.sent| && b <= |g.recv|
    && (if holderSide then v.toBroadcaster else v.toCountersignatory) == OwnBalance(g, a, b)
    && (if holderSide then v.toCountersignatory else v.toBroadcaster) == PeerBalance(g, a, b)
    && v.feerate == FeeAt(role, g, a, b)
    && forall out :: v.htlcs[out] == Reading(OutputMeter(out, holderSide), g, a, b)
  }

  ghost predicate KeyPending(g: History, x: Htlc)
    requires InRange(g, x)
  {
    var ix := IxOf(g, x);
    if x.outbound then g.ownAcked <= ix.add < g.ownSigned else g.peerFinal <= ix.add < g.peerSigned
  }

  ghost predicate KeyRemoving(g: History, x: Htlc)
    requires InRange(g, x)
  {
    var ix := IxOf(g, x);
    ix.rem.Some? &&
    if x.outbound then g.peerFinal <= ix.rem.value < g.peerSigned else g.ownAcked <= ix.rem.value < g.ownSigned
  }

  ghost predicate SnapshotAgrees(p: PendingCommitment, g: History, x: Htlc) {
    InRange(g, x) ==>
      && (Key(x.outbound, x.id) in p.included <==> KeyPending(g, x))
      && (Key(x.outbound, x.id) in p.removed <==> KeyRemoving(g, x))
  }

  /** A snapshot names only HTLCs that exist. */
  ghost predicate KeysKnown(p: PendingCommitment, g: History) {
    && (forall k | k in p.included :: k.id < if k.outbound then |g.outIx| else |g.inIx|)
    && (forall k | k in p.removed :: k.id < if k.outbound then |g.outIx| else |g.inIx|)
  }

  ghost predicate Stored(c: Chan, g: History)
  {
    && (c.pending.Some? ==>
          && KeysKnown(c.pending.value, g)
          && Reflects(c.pending.value.info, c.role, g, false, g.ownSigned, g.peerSigned)
          && forall i | 0 <= i < |c.htlcs| :: SnapshotAgrees(c.pending.value, g, c.htlcs[i]))
    && c.currentHolder.Some? && Reflects(c.currentHolder.value, c.role, g, true, g.ownLocked, g.peerLocked)
    && c.currentCounterparty.Some? && Reflects(c.currentCounterparty.value, c.role, g, false, g.ownAcked, g.peerFinal)
  }

  /** The state of a channel is the one its logs describe. */
  ghost predicate Inv(c: Chan, g: History) {
    && Counted(c, g)
    && Indexed(g)
    && Recorded(c, g)
    && Metered(c, g)
    && Solvent(g)
    && FeesAgree(c, g)
    && Stored(c, g)
  }

  lemma InvCounts(c: Chan, g: History)
    requires Inv(c, g)
    ensures Counted(c, g)
  {
  }

  lemma InvMeters(c: Chan, g: History)
    requires Inv(c, g)
    ensures Counted(c, g) && forall mt, a, b :: MeterAgrees(c, g, mt, a, b)
  {
    hide Indexed, Recorded, FeesAgree, Solvent, Stored, MeterAgrees;
  }

  lemma InvParts(c: Chan, g: History)
    requires Inv(c, g)
    ensures Counted(c, g) && Indexed(g) && Recorded(c, g) && FeesAgree(c, g) && Stored(c, g)
  {
    hide Counted, Indexed, Recorded, FeesAgree, Metered, Solvent, Stored;
  }

  // ------------------------------------------------------- history of each step

  function NewOut(g: History, u: Update): History {
    g.(sent := g.sent + [u], sentLevel := g.sentLevel + [g.peerLocked], sentSeen := g.sentSeen + [|g.recv|])
  }

  function NewIn(g: History, u: Update): History {
    g.(recv := g.recv + [u], recvLevel := g.recvLevel + [g.ownAcked])
  }

  function AfterSendAdd(g: History, d: Data): History {
    NewOut(g, Add(|g.outIx|, d)).(outIx := g.outIx + [Ix(|g.sent|, None)])
  }

  function AfterRecvAdd(g: History, d: Data): History {
    NewIn(g, Add(|g.inIx|, d)).(inIx := g.inIx + [Ix(|g.recv|, None)])
  }

  function AfterSendRemove(g: History, id: nat, d: Data, res: Resolution): History
    requires id < |g.inIx|
  {
    NewOut(g, Remove(id, d, res)).(inIx := g.inIx[id := g.inIx[id].(rem := Some(|g.sent|))])
  }

  function AfterRecvRemove(g: History, id: nat, d: Data, res: Resolution): History
    requires id < |g.outIx|
  {
    NewIn(g, Remove(id, d, res)).(outIx := g.outIx[id := g.outIx[id].(rem := Some(|g.recv|))])
  }

  function AfterSign(g: History): History {
    g.(ownSigned := |g.sent|, peerSigned := g.peerLocked)
  }

  function GoneOf(htlcs: seq<Htlc>): seq<Htlc> {
    if htlcs == [] then []
    else
      var n := |htlcs| - 1;
      GoneOf(htlcs[..n]) + if IsGone(htlcs[n]) then [htlcs[n]] else []
  }

  /** `marked` is the list just before garbage collection. */
  function AfterLock(g: History, marked: seq<Htlc>): History {
    g.(ownLocked := g.ownAcked, peerLocked := |g.recv|, settled := g.settled + GoneOf(marked))
  }

  function AfterRevoke(g: History, marked: seq<Htlc>): History {
    g.(ownAcked := g.ownSigned, peerFinal := g.peerSigned, settled := g.settled + GoneOf(marked))
  }
}
