/**
 * No deadlock: from every reachable state of two honest parties, delivering what is
 * queued and signing what is dirty ends, and ends in the quiescent state unless the
 * head of a queue is a message its receiver must refuse.
 */
module Drain {
  import opened Wrappers
  import opened Channel
  import opened Ledger
  import opened ChannelRuns
  import opened Pair
  import opened PairSteps
  import opened Dance
  import Shachain

  // ------------------------------------------------------------- the measure

  /** Deliveries a queue still takes, counting the answer to a commitment. */
  function Weight(q: seq<Message>): nat {
    if q == [] then 0 else Weight(q[..|q| - 1]) + if q[|q| - 1].CommitmentSigned? then 2 else 1
  }

  lemma WeightSnoc(q: seq<Message>, m: Message)
    ensures Weight(q + [m]) == Weight(q) + if m.CommitmentSigned? then 2 else 1
  {
    assert (q + [m])[..|q|] == q;
  }

  lemma {:induction false} WeightHead(q: seq<Message>)
    requires q != []
    ensures Weight(q) == Weight(q[1..]) + if q[0].CommitmentSigned? then 2 else 1
  {
    var n := |q| - 1;
    if n > 0 {
      WeightHead(q[..n]);
      assert q[..n][1..] == q[1..][..n - 1];
    }
  }

  lemma {:induction false} HasCsCat(q: seq<Message>, r: seq<Message>)
    ensures HasCs(q + r) <==> HasCs(q) || HasCs(r)
  {
    if q == [] {
      assert q + r == r;
    } else {
      assert (q + r)[1..] == q[1..] + r;
      HasCsCat(q[1..], r);
    }
  }

  /** Updates that some commitment has yet to cover, parked ones included. Every
      signature lowers it and nothing but a command raises it. */
  function Debt(x: Chan, gx: History, y: Chan, gy: History): int {
    2 * (|gx.sent| + |gy.sent| + |x.holdingCell| + |y.holdingCell|) - SignedSum(gx) - SignedSum(gy)
  }

  lemma DebtNonNegative(x: Chan, gx: History, y: Chan, gy: History, xy: seq<Message>, yx: seq<Message>)
    requires PairInv(x, gx, y, gy, xy, yx)
    ensures Debt(x, gx, y, gy) >= 0
  {
    hide Inv, QueueOk, HonestSender, Keys, Partners;
    InvCounts(x, gx);
    InvCounts(y, gy);
  }

  // ---------------------------------------------------------- one delivery

  /** A delivery leaves less to do: fewer operations parked, or a signature more,
      or a lighter pair of queues. */
  ghost predicate Lighter(x: Chan, e: Effect, xy: seq<Message>, yx: seq<Message>)
    requires e.Moved?
  {
    && |e.chan.holdingCell| <= |x.holdingCell|
    && (|e.chan.holdingCell| == |x.holdingCell| && !HasCs(e.out) ==>
          Weight(xy + e.out) + Weight(e.inbox) < Weight(xy) + Weight(yx))
  }

  lemma UpdateLightens(x: Chan, xy: seq<Message>, yx: seq<Message>)
    requires yx != [] && IsUpdate(yx[0]) && Act(x, yx, DoReceive).Moved?
    ensures Lighter(x, Act(x, yx, DoReceive), xy, yx)
    ensures Act(x, yx, DoReceive).chan.holderNumber == x.holderNumber
    ensures Act(x, yx, DoReceive).out == [] && Act(x, yx, DoReceive).chan.holdingCell == x.holdingCell
  {
    hide InboundAddAllowed, Find, Weight;
    WeightHead(yx);
    assert xy + [] == xy;
  }

  lemma SignedLightens(x: Chan, xy: seq<Message>, yx: seq<Message>)
    requires yx != [] && yx[0].CommitmentSigned? && Act(x, yx, DoReceive).Moved?
    ensures Lighter(x, Act(x, yx, DoReceive), xy, yx)
    ensures Act(x, yx, DoReceive).chan.holderNumber == x.holderNumber + 1
    ensures var e := Act(x, yx, DoReceive);
            |e.out| == 1 && e.out[0].RevokeAndAck? && e.chan.holdingCell == x.holdingCell
  {
    hide OnCommitmentSigned, Weight;
    WeightHead(yx);
    LockKeepsCell(x, yx[0]);
    LockWire(x, yx[0]);
    WeightSnoc(xy, OnCommitmentSigned(x, yx[0]).value);
  }

  lemma {:induction false} FlushKeepsNumber(c: Chan, ops: seq<HoldingOp>)
    ensures Flush(c, ops).chan.holderNumber == c.holderNumber
    decreases |ops|
  {
    if ops != [] {
      hide OutboundAddAllowed, Find;
      FlushKeepsNumber(c, ops[..|ops| - 1]);
    }
  }

  lemma RevocationKeepsNumber(x: Chan, m: Message)
    requires m.RevokeAndAck? && Revoke(x, m).Done? && OnRevokeAndAck(x, m).Done?
    ensures OnRevokeAndAck(x, m).chan.holderNumber == x.holderNumber
  {
    hide Revoke, Flush, MarkProcessed, CollectForwardable, CounterpartyCommitmentAt, KeysIn;
    var x1 := Revoke(x, m).chan;
    RevokeWire(x, m);
    FlushKeepsNumber(x1.(htlcs := MarkProcessed(x1.htlcs), holdingCell := []), x1.holdingCell);
  }

  lemma RevocationLightens(x: Chan, xy: seq<Message>, yx: seq<Message>)
    requires yx != [] && yx[0].RevokeAndAck? && Act(x, yx, DoReceive).Moved?
    ensures Lighter(x, Act(x, yx, DoReceive), xy, yx)
    ensures Act(x, yx, DoReceive).chan.holderNumber == x.holderNumber
    ensures Act(x, yx, DoReceive).chan.holdingCell == []
  {
    hide OnRevokeAndAck, Revoke, Weight;
    WeightHead(yx);
    RevokeDone(x, yx[0]);
    RevocationShape(x, yx[0]);
    RevocationKeepsNumber(x, yx[0]);
    assert xy + [] == xy;
  }

  lemma DeliveryLightens(x: Chan, xy: seq<Message>, yx: seq<Message>)
    requires yx != [] && Act(x, yx, DoReceive).Moved?
    ensures var e := Act(x, yx, DoReceive);
            && Lighter(x, e, xy, yx) && e.inbox == yx[1..]
            && e.chan.holderNumber == x.holderNumber + if yx[0].CommitmentSigned? then 1 else 0
  {
    hide OnUpdateAdd, OnUpdateRemove, OnUpdateFee, OnCommitmentSigned, OnRevokeAndAck, Lighter;
    if yx[0].CommitmentSigned? {
      SignedLightens(x, xy, yx);
    } else if yx[0].RevokeAndAck? {
      RevocationLightens(x, xy, yx);
    } else {
      UpdateLightens(x, xy, yx);
    }
  }

  // ------------------------------------------------------------- politeness

  predicate PoliteOp(op: HoldingOp) {
    op.HoldRemove? ==> !CodeLacksBadOnion(op.resolution)
  }

  predicate PoliteOps(ops: seq<HoldingOp>) {
    forall i | 0 <= i < |ops| :: PoliteOp(ops[i])
  }

  predicate PoliteQueue(q: seq<Message>) {
    forall i | 0 <= i < |q| :: !Unacceptable(q[i])
  }

  /** Nothing unacceptable is on its way or parked. */
  predicate Polite(s: Sys) {
    PoliteQueue(s.ab) && PoliteQueue(s.ba) && PoliteOps(s.a.holdingCell) && PoliteOps(s.b.holdingCell)
  }

  lemma {:induction false} FlushPolite(c: Chan, ops: seq<HoldingOp>)
    requires PoliteOps(ops)
    ensures PoliteQueue(Flush(c, ops).messages)
    decreases |ops|
  {
    if ops != [] {
      hide OutboundAddAllowed, Find, CodeLacksBadOnion;
      FlushPolite(c, ops[..|ops| - 1]);
      assert PoliteOp(ops[|ops| - 1]);
    }
  }

  lemma RevocationPolite(x: Chan, m: Message)
    requires m.RevokeAndAck? && Revoke(x, m).Done? && OnRevokeAndAck(x, m).Done? && PoliteOps(x.holdingCell)
    ensures PoliteQueue(OnRevokeAndAck(x, m).value.messages)
  {
    RevokeKeepsCell(x, m);
    hide Revoke, Flush, MarkProcessed, CollectForwardable, CounterpartyCommitmentAt, KeysIn, CodeLacksBadOnion;
    var x1 := Revoke(x, m).chan;
    FlushPolite(x1.(htlcs := MarkProcessed(x1.htlcs), holdingCell := []), x1.holdingCell);
  }

  lemma DeliveryPolite(x: Chan, xy: seq<Message>, yx: seq<Message>)
    requires yx != [] && Act(x, yx, DoReceive).Moved? && PoliteOps(x.holdingCell)
    ensures PoliteQueue(Act(x, yx, DoReceive).out) && PoliteOps(Act(x, yx, DoReceive).chan.holdingCell)
  {
    hide OnUpdateAdd, OnUpdateRemove, OnUpdateFee, OnCommitmentSigned, OnRevokeAndAck, Revoke, CodeLacksBadOnion;
    if yx[0].CommitmentSigned? {
      SignedLightens(x, xy, yx);
    } else if yx[0].RevokeAndAck? {
      RevocationLightens(x, xy, yx);
      RevokeDone(x, yx[0]);
      RevocationPolite(x, yx[0]);
    } else {
      UpdateLightens(x, xy, yx);
    }
  }

  // --------------------------------------------------------------- one move

  function Pending(q: seq<Message>): nat {
    if HasCs(q) then 1 else 0
  }

  /** Enough commitment numbers for everything still to be signed. */
  predicate Room(x: Chan, gx: History, y: Chan, gy: History, xy: seq<Message>, yx: seq<Message>) {
    && x.holderNumber + Debt(x, gx, y, gy) + Pending(yx) + 1 <= Shachain.MAX_INDEX
    && y.holderNumber + Debt(x, gx, y, gy) + Pending(xy) + 1 <= Shachain.MAX_INDEX
  }

  /** `x` moved: the measure fell, and what held of numbers and logs still does. */
  ghost predicate Settling(x: Chan, gx: History, y: Chan, gy: History, xy: seq<Message>, yx: seq<Message>,
                           e: Effect, gx': History)
    requires e.Moved?
  {
    && PairInv(e.chan, gx', y, gy, xy + e.out, e.inbox)
    && gx.sent <= gx'.sent && |gx'.sent| + |e.chan.holdingCell| <= |gx.sent| + |x.holdingCell|
    && Debt(e.chan, gx', y, gy) <= Debt(x, gx, y, gy)
    && |e.chan.holdingCell| <= |x.holdingCell|
    && (Debt(e.chan, gx', y, gy) == Debt(x, gx, y, gy) && |e.chan.holdingCell| == |x.holdingCell| ==>
          Weight(xy + e.out) + Weight(e.inbox) < Weight(xy) + Weight(yx))
    && (Room(x, gx, y, gy, xy, yx) ==> Room(e.chan, gx', y, gy, xy + e.out, e.inbox))
    && (PoliteOps(x.holdingCell) ==> PoliteQueue(e.out) && PoliteOps(e.chan.holdingCell))
  }

  lemma SpendsLowersDebt(x: Chan, gx: History, y: Chan, gy: History, e: Effect, gx': History)
    requires e.Moved? && Spends(x, gx, e, gx', 0)
    ensures Debt(e.chan, gx', y, gy) + Pending(e.out) <= Debt(x, gx, y, gy)
  {
  }

  /** Only one commitment per direction is ever in flight. */
  lemma OneCommitment(x: Chan, gx: History, y: Chan, gy: History, xy: seq<Message>, yx: seq<Message>, raa: Message)
    requires PairInv(x, gx, y, gy, xy + [raa], yx) && raa.RevokeAndAck?
    ensures !HasCs(yx)
  {
    hide Inv, QueueOk, HonestSender, Keys, Partners;
    HasAppend(xy, raa);
  }

  lemma RoomKept(x: Chan, gx: History, y: Chan, gy: History, xy: seq<Message>, yx: seq<Message>, e: Effect, gx': History)
    requires yx != [] && e.Moved? && e == Act(x, yx, DoReceive) && e.inbox == yx[1..]
    requires e.chan.holderNumber == x.holderNumber + if yx[0].CommitmentSigned? then 1 else 0
    requires Debt(e.chan, gx', y, gy) + Pending(e.out) <= Debt(x, gx, y, gy)
    requires yx[0].CommitmentSigned? ==> !HasCs(yx[1..])
    ensures Room(x, gx, y, gy, xy, yx) ==> Room(e.chan, gx', y, gy, xy + e.out, e.inbox)
  {
    hide Act, Debt;
    HasCsCat(xy, e.out);
  }

  lemma XDelivers(x: Chan, gx: History, y: Chan, gy: History, xy: seq<Message>, yx: seq<Message>)
    returns (gx': History)
    requires PairInv(x, gx, y, gy, xy, yx) && yx != []
    requires !Unacceptable(yx[0]) && !OutOfNumbers(x, yx[0])
    ensures Act(x, yx, DoReceive).Moved? && Settling(x, gx, y, gy, xy, yx, Act(x, yx, DoReceive), gx')
  {
    hide PairInv, Unacceptable, OutOfNumbers, Handle, Room, Debt, Weight, PoliteOps, PoliteQueue;
    Symmetric(x, gx, y, gy, xy, yx);
    DeliveryOutcome(y, gy, x, gx, yx, xy);
    gx' := XActs(x, gx, y, gy, xy, yx, DoReceive);
    var e := Act(x, yx, DoReceive);
    DeliveryLightens(x, xy, yx);
    SpendsLowersDebt(x, gx, y, gy, e, gx');
    if yx[0].CommitmentSigned? {
      SignedLightens(x, xy, yx);
      assert e.out == [e.out[0]];
      OneCommitment(e.chan, gx', y, gy, xy, e.inbox, e.out[0]);
    }
    RoomKept(x, gx, y, gy, xy, yx, e, gx');
    if PoliteOps(x.holdingCell) {
      DeliveryPolite(x, xy, yx);
    }
  }

  lemma CanSign(x: Chan, gx: History, y: Chan, gy: History)
    requires PairInv(x, gx, y, gy, [], []) && x.dirty
    ensures SendCommitmentSigned(x).Done?
  {
    hide Inv, QueueOk, HonestSender;
  }

  lemma XSignsOff(x: Chan, gx: History, y: Chan, gy: History) returns (gx': History)
    requires PairInv(x, gx, y, gy, [], []) && x.dirty
    ensures Act(x, [], DoSign).Moved? && Settling(x, gx, y, gy, [], [], Act(x, [], DoSign), gx')
  {
    hide PairInv, Debt, Weight, PoliteOps, CounterpartyCommitmentAt, KeysIn;
    CanSign(x, gx, y, gy);
    gx' := XActs(x, gx, y, gy, [], [], DoSign);
    var e := Act(x, [], DoSign);
    OneMessage(e.out[0]);
    SpendsLowersDebt(x, gx, y, gy, e, gx');
    assert [] + e.out == e.out;
  }

  // ---------------------------------------------------------- the whole drain

  predicate Quiescent(s: Sys) {
    s.ab == [] && s.ba == [] && Quiet(s.a) && Quiet(s.b)
  }

  /** The next delivery to this party fails its channel. */
  predicate Blocked(s: Sys, isA: bool) {
    Inbox(s, isA) != [] && (Unacceptable(Inbox(s, isA)[0]) || OutOfNumbers(Party(s, isA), Inbox(s, isA)[0]))
  }

  predicate IsDraining(steps: seq<Step>) {
    forall i | 0 <= i < |steps| :: steps[i].act.DoReceive? || steps[i].act.DoSign?
  }

  ghost predicate SysRoom(s: Sys, ga: History, gb: History) {
    Room(s.a, ga, s.b, gb, s.ab, s.ba)
  }

  lemma RoomSwap(x: Chan, gx: History, y: Chan, gy: History, xy: seq<Message>, yx: seq<Message>)
    ensures Room(x, gx, y, gy, xy, yx) <==> Room(y, gy, x, gx, yx, xy)
    ensures Debt(x, gx, y, gy) == Debt(y, gy, x, gx)
  {
  }

  /** One step of a drain: the measure falls and everything carried along holds. */
  ghost predicate Drained(s: Sys, ga: History, gb: History, t: Sys, ga': History, gb': History) {
    && PairInv(t.a, ga', t.b, gb', t.ab, t.ba)
    && ga.sent <= ga'.sent && gb.sent <= gb'.sent
    && |ga'.sent| + |t.a.holdingCell| <= |ga.sent| + |s.a.holdingCell|
    && |gb'.sent| + |t.b.holdingCell| <= |gb.sent| + |s.b.holdingCell|
    && (SysRoom(s, ga, gb) ==> SysRoom(t, ga', gb'))
    && (Polite(s) ==> Polite(t))
  }

  function Cells(s: Sys): nat {
    |s.a.holdingCell| + |s.b.holdingCell|
  }

  ghost predicate Less(s: Sys, ga: History, gb: History, t: Sys, ga': History, gb': History) {
    var (d, d') := (Debt(s.a, ga, s.b, gb), Debt(t.a, ga', t.b, gb'));
    || d' < d
    || (d' == d && Cells(t) < Cells(s))
    || (d' == d && Cells(t) == Cells(s) && Weight(t.ab) + Weight(t.ba) < Weight(s.ab) + Weight(s.ba))
  }

  lemma PoliteCat(q: seq<Message>, r: seq<Message>)
    ensures PoliteQueue(q) && PoliteQueue(r) ==> PoliteQueue(q + r)
    ensures q != [] && PoliteQueue(q) ==> PoliteQueue(q[1..])
  {
  }

  lemma AMoves(s: Sys, ga: History, gb: History, act: Action, ga': History)
    requires (act == DoReceive && s.ba != []) || (act == DoSign && s.ab == [] && s.ba == [])
    requires var e := Act(s.a, s.ba, act);
             && e.Moved? && Settling(s.a, ga, s.b, gb, s.ab, s.ba, e, ga')
             && (e.inbox == s.ba || (s.ba != [] && e.inbox == s.ba[1..]))
    ensures var t := Next(s, Step(true, act));
            t.Some? && Drained(s, ga, gb, t.value, ga', gb) && Less(s, ga, gb, t.value, ga', gb)
  {
    hide PairInv, Act, Debt, Weight, PoliteQueue, PoliteOps, Room;
    var e := Act(s.a, s.ba, act);
    PoliteCat(s.ab, e.out);
    PoliteCat(s.ba, []);
  }

  lemma BMoves(s: Sys, ga: History, gb: History, act: Action, gb': History)
    requires (act == DoReceive && s.ab != []) || (act == DoSign && s.ab == [] && s.ba == [])
    requires var e := Act(s.b, s.ab, act);
             && e.Moved? && Settling(s.b, gb, s.a, ga, s.ba, s.ab, e, gb')
             && (e.inbox == s.ab || (s.ab != [] && e.inbox == s.ab[1..]))
    ensures var t := Next(s, Step(false, act));
            t.Some? && Drained(s, ga, gb, t.value, ga, gb') && Less(s, ga, gb, t.value, ga, gb')
  {
    hide PairInv, Act, Debt, Weight, PoliteQueue, PoliteOps, Room;
    var e := Act(s.b, s.ab, act);
    PoliteCat(s.ba, e.out);
    PoliteCat(s.ab, []);
    Symmetric(e.chan, gb', s.a, ga, s.ba + e.out, e.inbox);
    RoomSwap(s.a, ga, s.b, gb, s.ab, s.ba);
    RoomSwap(s.a, ga, e.chan, gb', e.inbox, s.ba + e.out);
  }

  /** One more step, unless the state is quiescent or blocked. */
  lemma DrainStep(s: Sys, ga: History, gb: History) returns (st: Step, ga': History, gb': History)
    requires PairInv(s.a, ga, s.b, gb, s.ab, s.ba)
    requires !Quiescent(s) && !Blocked(s, true) && !Blocked(s, false)
    ensures IsDraining([st]) && Next(s, st).Some?
    ensures Drained(s, ga, gb, Next(s, st).value, ga', gb') && Less(s, ga, gb, Next(s, st).value, ga', gb')
  {
    hide PairInv, Settling, Drained, Less, Unacceptable, OutOfNumbers, Next, Handle;
    ga', gb' := ga, gb;
    Symmetric(s.a, ga, s.b, gb, s.ab, s.ba);
    if s.ba != [] {
      ga' := XDelivers(s.a, ga, s.b, gb, s.ab, s.ba);
      DeliveryLightens(s.a, s.ab, s.ba);
      AMoves(s, ga, gb, DoReceive, ga');
      st := Step(true, DoReceive);
    } else if s.ab != [] {
      gb' := XDelivers(s.b, gb, s.a, ga, s.ba, s.ab);
      DeliveryLightens(s.b, s.ba, s.ab);
      BMoves(s, ga, gb, DoReceive, gb');
      st := Step(false, DoReceive);
    } else {
      NotAwaiting(s.a, ga, s.b, gb);
      NotAwaiting(s.b, gb, s.a, ga);
      if s.a.dirty {
        ga' := XSignsOff(s.a, ga, s.b, gb);
        AMoves(s, ga, gb, DoSign, ga');
        st := Step(true, DoSign);
      } else {
        gb' := XSignsOff(s.b, gb, s.a, ga);
        BMoves(s, ga, gb, DoSign, gb');
        st := Step(false, DoSign);
      }
    }
  }

  lemma NotAwaiting(x: Chan, gx: History, y: Chan, gy: History)
    requires PairInv(x, gx, y, gy, [], [])
    ensures !x.awaitingRaa
  {
    hide Inv, QueueOk, HonestSender, Keys, Partners;
  }
}
