/**
 * Two channels joined by two FIFO queues: the honest runs of the commitment
 * dance. `Pair` defines the system and the invariant that ties the parties'
 * histories to the messages between them.
 */
module Pair {
  import opened Wrappers
  import opened Channel
  import opened Ledger
  import opened LedgerUpdates
  import Shachain

  // --------------------------------------------------------------- the system

  datatype Action =
    | DoAdd(amount: nat, paymentHash: Bytes, cltvExpiry: nat, onion: Bytes, source: Source)
    | DoRemove(id: nat, resolution: Resolution)
    | DoFee(feerate: nat)
    | DoSign
    | DoReceive

  /** What an action did: moved on (with the remaining inbox and the messages
      sent), was refused without effect, or failed the channel. */
  datatype Effect = Moved(chan: Chan, inbox: seq<Message>, out: seq<Message>) | Refused | Broken(error: ChannelError)

  function Handle(c: Chan, m: Message, rest: seq<Message>): Effect {
    match m
    case UpdateAddHtlc(_, _, _, _, _) =>
      (match OnUpdateAdd(c, m) case Done(c1, _) => Moved(c1, rest, []) case Failed(e) => Broken(e))
    case UpdateRemoveHtlc(_, _) =>
      (match OnUpdateRemove(c, m) case Done(c1, _) => Moved(c1, rest, []) case Failed(e) => Broken(e))
    case UpdateFee(_) =>
      (match OnUpdateFee(c, m) case Done(c1, _) => Moved(c1, rest, []) case Failed(e) => Broken(e))
    case CommitmentSigned(_) =>
      (match OnCommitmentSigned(c, m) case Done(c1, raa) => Moved(c1, rest, [raa]) case Failed(e) => Broken(e))
    case RevokeAndAck(_, _) =>
      (match OnRevokeAndAck(c, m) case Done(c1, out) => Moved(c1, rest, out.messages) case Failed(e) => Broken(e))
  }

  function Act(c: Chan, inbox: seq<Message>, act: Action): Effect {
    match act
    case DoAdd(amount, paymentHash, cltvExpiry, onion, source) =>
      (match SendAdd(c, amount, paymentHash, cltvExpiry, onion, source)
       case Done(c1, m) => Moved(c1, inbox, Optional(m))
       case Failed(_) => Refused)
    case DoRemove(id, res) =>
      (match SendRemove(c, id, res)
       case Done(c1, m) => Moved(c1, inbox, Optional(m))
       case Failed(_) => Refused)
    case DoFee(feerate) =>
      (match SendUpdateFee(c, feerate)
       case Done(c1, m) => Moved(c1, inbox, [m])
       case Failed(_) => Refused)
    case DoSign =>
      (match SendCommitmentSigned(c)
       case Done(c1, m) => Moved(c1, inbox, [m])
       case Failed(_) => Refused)
    case DoReceive => if inbox == [] then Refused else Handle(c, inbox[0], inbox[1..])
  }

  datatype Sys = Sys(a: Chan, b: Chan, ab: seq<Message>, ba: seq<Message>)

  datatype Step = Step(byA: bool, act: Action)

  /** None once a channel has failed. */
  function Next(s: Sys, st: Step): Option<Sys> {
    if st.byA then
      match Act(s.a, s.ba, st.act)
      case Moved(a, ba, out) => Some(Sys(a, s.b, s.ab + out, ba))
      case Refused => Some(s)
      case Broken(_) => None
    else
      match Act(s.b, s.ab, st.act)
      case Moved(b, ab, out) => Some(Sys(s.a, b, ab, s.ba + out))
      case Refused => Some(s)
      case Broken(_) => None
  }

  function RunPair(s: Sys, steps: seq<Step>): Option<Sys> {
    if steps == [] then Some(s)
    else
      match RunPair(s, steps[..|steps| - 1])
      case None => None
      case Some(s1) => Next(s1, steps[|steps| - 1])
  }

  // ------------------------------------------------------------ what they share

  ghost predicate MirrorParams(p: Params, q: Params) {
    && q.holderDustLimitSat == p.counterpartyDustLimitSat
    && q.holderSelectedReserveSat == p.counterpartySelectedReserveSat
    && q.holderMaxInFlight == p.counterpartyMaxInFlight
    && q.holderHtlcMinimum == p.counterpartyHtlcMinimum
    && q.holderMaxAccepted == p.counterpartyMaxAccepted
    && q.holderSelectedDelay == p.counterpartySelectedDelay
  }

  /** Constant through every run. */
  ghost predicate Partners(x: Chan, y: Chan) {
    && y.crypto == x.crypto && y.role != x.role
    && MirrorParams(x.params, y.params) && MirrorParams(y.params, x.params)
    && x.state.Normal? && !x.shutdownSent && !x.shutdownReceived
    && y.state.Normal? && !y.shutdownSent && !y.shutdownReceived
  }

  // ------------------------------------------------------------------ queues

  predicate HasCs(q: seq<Message>) {
    q != [] && (q[0].CommitmentSigned? || HasCs(q[1..]))
  }

  predicate HasRaa(q: seq<Message>) {
    q != [] && (q[0].RevokeAndAck? || HasRaa(q[1..]))
  }

  predicate IsUpdate(m: Message) {
    !m.CommitmentSigned? && !m.RevokeAndAck?
  }

  /** The wire message of a logged update. */
  predicate Fits(m: Message, u: Update) {
    match u
    case Add(id, d) =>
      m.UpdateAddHtlc? && m.id == id && Data(m.amount, m.cltvExpiry, m.paymentHash, m.onion) == d
    case Remove(id, _, res) => m == UpdateRemoveHtlc(id, res)
    case Fee(f) => m == UpdateFee(f)
  }

  /** The revocation of the commitment before `n`. */
  predicate IsRevocation(m: Message, crypto: Crypto, seed: Bytes, n: nat) {
    1 <= n && n + 1 <= Shachain.MAX_INDEX &&
    m == RevokeAndAck(SecretAt(crypto, seed, n - 1), PointAt(crypto, seed, n + 1))
  }

  /**
   * The queue `q` from `x`, seen by a receiver that has received `r` of `x`'s
   * updates and knows `k` of its own to be acknowledged: each update is the
   * next one of `x`'s log, sent at the acknowledgement level the receiver will
   * then know; a commitment_signed covers exactly what has been delivered by
   * then; a revoke_and_ack raises the level to `ack`; and when all is
   * delivered, the receiver has everything `x` sent.
   */
  ghost predicate QueueOk(q: seq<Message>, x: Chan, gx: History, r: nat, k: nat, ack: nat)
    decreases |q|
  {
    if q == [] then r == |gx.sent| && k == gx.peerLocked
    else if q[0].CommitmentSigned? then
      && !HasCs(q[1..])
      && x.pending.Some? && q[0].signed == x.pending.value.info
      && r == gx.ownSigned && k == gx.peerSigned
      && QueueOk(q[1..], x, gx, r, k, ack)
    else if q[0].RevokeAndAck? then
      && !HasRaa(q[1..])
      && IsRevocation(q[0], x.crypto, x.seed, x.holderNumber)
      && QueueOk(q[1..], x, gx, r, ack, ack)
    else
      && r < |gx.sent| && r < |gx.sentLevel|
      && Fits(q[0], gx.sent[r]) && gx.sentLevel[r] == k
      && QueueOk(q[1..], x, gx, r + 1, k, ack)
  }

  lemma {:induction false} HasAppend(q: seq<Message>, m: Message)
    ensures HasCs(q + [m]) == (HasCs(q) || m.CommitmentSigned?)
    ensures HasRaa(q + [m]) == (HasRaa(q) || m.RevokeAndAck?)
    decreases |q|
  {
    if q == [] {
      assert q + [m] == [m];
    } else {
      HasAppend(q[1..], m);
      assert (q + [m])[1..] == q[1..] + [m];
    }
  }

  /** What the queue predicate reads of its sender, apart from the tail end. */
  ghost predicate SameSender(q: seq<Message>, x: Chan, gx: History, x': Chan, gx': History) {
    && gx.sent <= gx'.sent && gx.sentLevel <= gx'.sentLevel
    && x'.crypto == x.crypto && x'.seed == x.seed
    && (HasRaa(q) ==> x'.holderNumber == x.holderNumber)
    && (HasCs(q) ==> x'.pending == x.pending && gx'.ownSigned == gx.ownSigned && gx'.peerSigned == gx.peerSigned)
  }

  lemma {:induction false} QueueStable(q: seq<Message>, x: Chan, gx: History, x': Chan, gx': History,
                                      r: nat, k: nat, ack: nat, ack': nat)
    requires QueueOk(q, x, gx, r, k, ack) && SameSender(q, x, gx, x', gx')
    requires |gx'.sent| == |gx.sent| && gx'.peerLocked == gx.peerLocked
    requires HasRaa(q) ==> ack' == ack
    ensures QueueOk(q, x', gx', r, k, ack')
    decreases |q|
  {
    if q != [] {
      var tail := q[1..];
      if q[0].CommitmentSigned? {
        QueueStable(tail, x, gx, x', gx', r, k, ack, ack');
      } else if q[0].RevokeAndAck? {
        QueueStable(tail, x, gx, x', gx', r, ack, ack, ack');
      } else {
        QueueStable(tail, x, gx, x', gx', r + 1, k, ack, ack');
      }
    }
  }

  /** Sending an update appends it to the log and to the queue. */
  lemma {:induction false} PushUpdate(q: seq<Message>, m: Message, u: Update, x: Chan, gx: History, x': Chan, gx': History,
                                     r: nat, k: nat, ack: nat)
    requires QueueOk(q, x, gx, r, k, ack) && SameSender(q, x, gx, x', gx')
    requires |gx.sentLevel| == |gx.sent|
    requires gx'.sent == gx.sent + [u] && gx'.sentLevel == gx.sentLevel + [gx.peerLocked]
    requires gx'.peerLocked == gx.peerLocked && IsUpdate(m) && Fits(m, u)
    ensures QueueOk(q + [m], x', gx', r, k, ack)
    decreases |q|
  {
    assert q != [] ==> (q + [m])[1..] == q[1..] + [m];
    if q == [] {
      assert q + [m] == [m] && [m][1..] == [];
      assert QueueOk([], x', gx', r + 1, k, ack);
    } else if q[0].CommitmentSigned? {
      HasAppend(q[1..], m);
      PushUpdate(q[1..], m, u, x, gx, x', gx', r, k, ack);
    } else if q[0].RevokeAndAck? {
      HasAppend(q[1..], m);
      PushUpdate(q[1..], m, u, x, gx, x', gx', r, ack, ack);
    } else {
      PushUpdate(q[1..], m, u, x, gx, x', gx', r + 1, k, ack);
    }
  }

  lemma {:induction false} PushSigned(q: seq<Message>, m: Message, x: Chan, gx: History, x': Chan, gx': History,
                                     r: nat, k: nat, ack: nat)
    requires QueueOk(q, x, gx, r, k, ack) && !HasCs(q) && SameSender(q, x, gx, x', gx')
    requires gx'.sent == gx.sent && gx'.peerLocked == gx.peerLocked
    requires gx'.ownSigned == |gx.sent| && gx'.peerSigned == gx.peerLocked
    requires x'.pending.Some? && m == CommitmentSigned(x'.pending.value.info)
    ensures QueueOk(q + [m], x', gx', r, k, ack)
    decreases |q|
  {
    assert q != [] ==> (q + [m])[1..] == q[1..] + [m];
    if q == [] {
      assert q + [m] == [m] && [m][1..] == [];
      assert QueueOk([], x', gx', r, k, ack);
    } else if q[0].RevokeAndAck? {
      HasAppend(q[1..], m);
      PushSigned(q[1..], m, x, gx, x', gx', r, ack, ack);
    } else {
      PushSigned(q[1..], m, x, gx, x', gx', r + 1, k, ack);
    }
  }

  lemma {:induction false} PushRevocation(q: seq<Message>, m: Message, x: Chan, gx: History, x': Chan, gx': History,
                                         r: nat, k: nat, ack: nat, ack': nat)
    requires QueueOk(q, x, gx, r, k, ack) && !HasRaa(q) && SameSender(q, x, gx, x', gx')
    requires gx'.sent == gx.sent && gx'.peerLocked == ack'
    requires m.RevokeAndAck? && IsRevocation(m, x'.crypto, x'.seed, x'.holderNumber)
    ensures QueueOk(q + [m], x', gx', r, k, ack')
    decreases |q|
  {
    assert q != [] ==> (q + [m])[1..] == q[1..] + [m];
    if q == [] {
      assert q + [m] == [m] && [m][1..] == [];
      assert QueueOk([], x', gx', r, ack', ack');
    } else if q[0].CommitmentSigned? {
      HasAppend(q[1..], m);
      PushRevocation(q[1..], m, x, gx, x', gx', r, k, ack, ack');
    } else {
      PushRevocation(q[1..], m, x, gx, x', gx', r + 1, k, ack, ack');
    }
  }

  // ------------------------------------------------------ each sender is honest

  /** What the sender checked when it sent update `i` of its log. */
  ghost predicate SentAllowed(x: Chan, g: History, i: nat) {
    && i < |g.sent| && i < |g.sentLevel| && i < |g.sentSeen|
    && g.sentLevel[i] <= |g.recv| && g.sentSeen[i] <= |g.recv|
    && match g.sent[i]
       case Add(_, d) =>
         && d.amount != 0 && d.amount >= x.params.counterpartyHtlcMinimum && d.cltvExpiry < CLTV_LIMIT
         && Reading(LiveCountMeter(true), g, i, g.sentSeen[i]) < x.params.counterpartyMaxAccepted
         && Reading(LiveAmountMeter(true), g, i, g.sentSeen[i]) + d.amount <= x.params.counterpartyMaxInFlight
         && var count := Reading(CountMeter(), g, i, g.sentLevel[i]);
            && count >= 0
            && Affordable(OwnBalance(g, i, g.sentLevel[i]), d.amount, x.params.counterpartySelectedReserveSat,
                          x.role.Opener?, FeeAt(x.role, g, i, g.sentLevel[i]), count + 2)
       case Remove(_, d, res) => res.Fulfill? ==> x.crypto.sha(res.preimage) == d.paymentHash
       case Fee(f) => f >= FEERATE_FLOOR
  }

  /** The commitment in flight carries the right number, point and parameters. */
  ghost predicate PendingMeta(x: Chan) {
    x.pending.Some? ==>
      var v := x.pending.value.info;
      && x.nextPoint.Some?
      && v.number == x.counterpartyNumber + 1 && v.point == x.nextPoint.value
      && v.broadcasterPaysFee == x.role.Accepter?
      && v.dustLimit == x.params.counterpartyDustLimitSat && v.delay == x.params.holderSelectedDelay
  }

  ghost predicate Ordered(ixs: seq<Ix>) {
    forall i, j | 0 <= i < j < |ixs| :: ixs[i].add < ixs[j].add
  }

  ghost predicate HonestSender(x: Chan, g: History) {
    && (forall i | 0 <= i < |g.sent| :: SentAllowed(x, g, i))
    && Reading(LiveCountMeter(true), g, |g.sent|, |g.recv|) <= x.params.counterpartyMaxAccepted
    && Ordered(g.outIx)
    && PendingMeta(x)
  }

  // -------------------------------------------------------------- one direction

  /** The traffic from `x` to `y` in `xy`, given the traffic back in `yx`. */
  ghost predicate Flow(x: Chan, gx: History, y: Chan, gy: History, xy: seq<Message>, yx: seq<Message>) {
    && gy.recv <= gx.sent
    && gy.ownAcked <= |gy.sent|
    && QueueOk(xy, x, gx, |gy.recv|, gy.ownAcked, gy.ownSigned)
    && (x.awaitingRaa <==> HasCs(xy) || HasRaa(yx))
    && !(HasCs(xy) && HasRaa(yx))
    && gy.peerLocked == (if HasRaa(yx) then gx.ownSigned else gx.ownAcked)
    && gy.ownLocked == (if HasRaa(yx) then gx.peerSigned else gx.peerFinal)
    && y.holderNumber == x.counterpartyNumber + (if HasRaa(yx) then 1 else 0)
    && gy.initial == Balances(gx.initial.counterparty, gx.initial.holder)
    && gy.initialFeerate == gx.initialFeerate
  }

  /** What `x` knows of `y`'s per-commitment secrets. */
  ghost predicate Keys(x: Chan, y: Chan) {
    && y.holderNumber + 1 <= Shachain.MAX_INDEX && x.counterpartyNumber <= y.holderNumber
    && x.currentPoint == Some(PointAt(y.crypto, y.seed, x.counterpartyNumber))
    && x.nextPoint == Some(PointAt(y.crypto, y.seed, x.counterpartyNumber + 1))
    && Shachain.Represents(x.crypto.sha, x.secrets, Shachain.HonestSecrets(x.crypto.sha, y.seed, x.counterpartyNumber))
  }

  ghost predicate PairInv(x: Chan, gx: History, y: Chan, gy: History, xy: seq<Message>, yx: seq<Message>) {
    && Inv(x, gx) && Inv(y, gy)
    && HonestSender(x, gx) && HonestSender(y, gy)
    && Partners(x, y)
    && Flow(x, gx, y, gy, xy, yx) && Flow(y, gy, x, gx, yx, xy)
    && Keys(x, y) && Keys(y, x)
  }
}
