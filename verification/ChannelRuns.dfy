/**
 * Runs of one channel against an arbitrary peer: any sequence of local
 * commands and of peer messages, none of them assumed honest.
 */
module ChannelRuns {
  import opened Wrappers
  import opened Channel
  import opened Ledger
  import opened LedgerFacts
  import opened LedgerUpdates
  import opened LedgerCommits
  import opened Sums
  import Shachain

  datatype Event =
    | LocalAdd(amount: nat, paymentHash: Bytes, cltvExpiry: nat, onion: Bytes, source: Source)
    | LocalRemove(id: nat, resolution: Resolution)
    | LocalFee(feerate: nat)
    | LocalSign
    | Receive(message: Message)

  /** What one event does: the messages it sends, what it hands to the node layer,
      the parked adds it reports failed and the settlements it reports. */
  datatype Reaction = Reaction(
    chan: Chan, out: seq<Message>, forwardable: seq<Forwardable>, failedAdds: seq<Source>, settled: seq<Settlement>)

  function Plain(c: Chan, out: seq<Message>): Reaction {
    Reaction(c, out, [], [], [])
  }

  /** A peer message; a refused one leaves the channel as it was. */
  function Deliver(c: Chan, m: Message): Reaction {
    match m
    case UpdateAddHtlc(_, _, _, _, _) =>
      (match OnUpdateAdd(c, m) case Done(c1, _) => Plain(c1, []) case Failed(_) => Plain(c, []))
    case UpdateRemoveHtlc(_, _) =>
      (match OnUpdateRemove(c, m) case Done(c1, s) => Reaction(c1, [], [], [], [s]) case Failed(_) => Plain(c, []))
    case UpdateFee(_) =>
      (match OnUpdateFee(c, m) case Done(c1, _) => Plain(c1, []) case Failed(_) => Plain(c, []))
    case CommitmentSigned(_) =>
      (match OnCommitmentSigned(c, m) case Done(c1, raa) => Plain(c1, [raa]) case Failed(_) => Plain(c, []))
    case RevokeAndAck(_, _) =>
      match OnRevokeAndAck(c, m)
      case Done(c1, out) => Reaction(c1, out.messages, out.forwardable, out.failedAdds, [])
      case Failed(_) => Plain(c, [])
  }

  function React(c: Chan, e: Event): Reaction {
    match e
    case LocalAdd(amount, paymentHash, cltvExpiry, onion, source) =>
      (match SendAdd(c, amount, paymentHash, cltvExpiry, onion, source)
       case Done(c1, m) => Plain(c1, Optional(m)) case Failed(_) => Plain(c, []))
    case LocalRemove(id, res) =>
      (match SendRemove(c, id, res) case Done(c1, m) => Plain(c1, Optional(m)) case Failed(_) => Plain(c, []))
    case LocalFee(feerate) =>
      (match SendUpdateFee(c, feerate) case Done(c1, m) => Plain(c1, [m]) case Failed(_) => Plain(c, []))
    case LocalSign =>
      (match SendCommitmentSigned(c) case Done(c1, m) => Plain(c1, [m]) case Failed(_) => Plain(c, []))
    case Receive(m) => Deliver(c, m)
  }

  function Run(c: Chan, events: seq<Event>): Chan {
    if events == [] then c else React(Run(c, events[..|events| - 1]), events[|events| - 1]).chan
  }

  /** Everything handed to the node layer during a run, in order. */
  function Reported(c: Chan, events: seq<Event>): seq<Forwardable> {
    if events == [] then []
    else
      var n := |events| - 1;
      Reported(c, events[..n]) + React(Run(c, events[..n]), events[n]).forwardable
  }

  /** A channel that has just become usable: nothing listed, nothing in flight,
      and each side's first commitment stored as it was built at funding. */
  ghost predicate Fresh(c: Chan) {
    && c.htlcs == [] && c.nextHolderId == 0 && c.nextCounterpartyId == 0
    && !c.dirty && !c.awaitingRaa && c.pending.None? && c.holdingCell == []
    && c.feerateHolder == c.feerateCounterparty && c.pendingFeeAck.None?
    && c.holderNumber <= Shachain.MAX_INDEX && c.currentPoint.Some?
    && c.currentHolder == Some(HolderCommitmentAt(c, c.holderNumber))
    && c.currentCounterparty == Some(CounterpartyCommitmentAt(c, c.counterpartyNumber, c.currentPoint.value))
  }

  function FreshHistory(c: Chan): History {
    History([], [], [], [], 0, 0, 0, 0, 0, 0, [], [], [], [], c.base, c.feerateHolder)
  }

  lemma FreshInv(c: Chan)
    requires Fresh(c)
    ensures Inv(c, FreshHistory(c))
  {
    var g := FreshHistory(c);
    assert OwnSolventAt(g, 0) && PeerSolventAt(g, 0);
  }

  /** How far one event may move a history: logs and tables only grow, counters
      only rise, and nothing becomes final in the event that locked it. */
  ghost predicate Advances(g: History, g': History) {
    && Extends(g, g')
    && g.ownLocked <= g'.ownLocked <= g.ownAcked <= g'.ownAcked
    && g.peerFinal <= g'.peerFinal <= g.peerLocked <= g'.peerLocked
    && TableGrows(g.outIx, g'.outIx) && TableGrows(g.inIx, g'.inIx)
  }

  ghost predicate TableGrows(ixs: seq<Ix>, ixs': seq<Ix>) {
    && |ixs| <= |ixs'|
    && forall id | 0 <= id < |ixs| ::
         ixs'[id].add == ixs[id].add && (ixs[id].rem.Some? ==> ixs'[id].rem == ixs[id].rem)
  }

  /** An update grows a log and a table and moves no counter. */
  ghost predicate Grows(g: History, g': History) {
    && Extends(g, g') && TableGrows(g.outIx, g'.outIx) && TableGrows(g.inIx, g'.inIx)
    && g'.ownLocked == g.ownLocked && g'.ownAcked == g.ownAcked
    && g'.peerFinal == g.peerFinal && g'.peerLocked == g.peerLocked
  }

  lemma GrowsTrans(g: History, g1: History, g2: History)
    requires Grows(g, g1) && Grows(g1, g2)
    ensures Grows(g, g2)
  {
  }

  lemma GrowsAdvances(c: Chan, g: History, g': History)
    requires Counted(c, g) && Grows(g, g')
    ensures Advances(g, g')
  {
  }

  // ----------------------------------------------------- the steps, one by one

  lemma SendAddStep(c: Chan, g: History, amount: nat, paymentHash: Bytes, cltvExpiry: nat, onion: Bytes, source: Source)
    returns (g': History)
    requires Inv(c, g) && SendAdd(c, amount, paymentHash, cltvExpiry, onion, source).Done?
    ensures Inv(SendAdd(c, amount, paymentHash, cltvExpiry, onion, source).chan, g')
    ensures g' == if c.awaitingRaa then g else AfterSendAdd(g, Data(amount, cltvExpiry, paymentHash, onion))
    ensures Grows(g, g')
  {
    hide Inv;
    InvCounts(c, g);
    var c' := SendAdd(c, amount, paymentHash, cltvExpiry, onion, source).chan;
    if c.awaitingRaa {
      g' := g;
      SameList(c, g, c');
    } else {
      var x := c'.htlcs[|c.htlcs|];
      assert PushedOut(c, c', x);
      SendAddKeeps(c, g, c', x);
      g' := AfterSendAdd(g, DataOf(x));
    }
  }

  /** The invariant does not see the holding cell. */
  lemma SameList(c: Chan, g: History, c': Chan)
    requires Inv(c, g) && c' == c.(holdingCell := c'.holdingCell)
    ensures Inv(c', g)
  {
    forall mt: Meter, a: nat, b: nat ensures MeterAgrees(c', g, mt, a, b) {
      assert MeterAgrees(c, g, mt, a, b);
    }
  }

  lemma SendRemoveStep(c: Chan, g: History, id: nat, res: Resolution) returns (g': History)
    requires Inv(c, g) && SendRemove(c, id, res).Done?
    ensures Inv(SendRemove(c, id, res).chan, g') && Grows(g, g')
    ensures c.awaitingRaa ==> g' == g
    ensures !c.awaitingRaa ==>
              && Find(c.htlcs, false, id).Some? && id < |g.inIx|
              && g' == AfterSendRemove(g, id, DataOf(c.htlcs[Find(c.htlcs, false, id).value]), res)
  {
    hide Inv, Touched, Indexed, Recorded;
    InvParts(c, g);
    var c' := SendRemove(c, id, res).chan;
    if c.awaitingRaa {
      g' := g;
      SameList(c, g, c');
    } else {
      var i := Find(c.htlcs, false, id).value;
      assert ResolvedIn(c, c', i, res);
      SendRemoveTouches(c, g, c', i, res);
      SendRemoveKeeps(c, g, c', i, res);
      g' := AfterSendRemove(g, id, DataOf(c.htlcs[i]), res);
    }
  }

  lemma RecvAddStep(c: Chan, g: History, m: Message) returns (g': History)
    requires Inv(c, g) && m.UpdateAddHtlc? && OnUpdateAdd(c, m).Done?
    ensures Inv(OnUpdateAdd(c, m).chan, g')
    ensures g' == AfterRecvAdd(g, Data(m.amount, m.cltvExpiry, m.paymentHash, m.onion))
    ensures Grows(g, g')
  {
    hide Inv;
    InvCounts(c, g);
    var c' := OnUpdateAdd(c, m).chan;
    var x := c'.htlcs[|c.htlcs|];
    assert PushedIn(c, c', x);
    RecvAddKeeps(c, g, c', x);
    g' := AfterRecvAdd(g, DataOf(x));
  }

  lemma RecvRemoveStep(c: Chan, g: History, m: Message) returns (g': History)
    requires Inv(c, g) && m.UpdateRemoveHtlc? && OnUpdateRemove(c, m).Done?
    ensures Inv(OnUpdateRemove(c, m).chan, g') && Grows(g, g')
    ensures Find(c.htlcs, true, m.id).Some? && m.id < |g.outIx|
    ensures g' == AfterRecvRemove(g, m.id, DataOf(c.htlcs[Find(c.htlcs, true, m.id).value]), m.resolution)
  {
    hide Inv, Touched, Indexed, Recorded;
    InvParts(c, g);
    var c' := OnUpdateRemove(c, m).chan;
    var i := Find(c.htlcs, true, m.id).value;
    assert ResolvedOut(c, c', i, m.resolution);
    RecvRemoveTouches(c, g, c', i, m.resolution);
    RecvRemoveKeeps(c, g, c', i, m.resolution);
    g' := AfterRecvRemove(g, m.id, DataOf(c.htlcs[i]), m.resolution);
  }

  /** Re-issuing one parked operation. */
  lemma FlushOneStep(c: Chan, g: History, op: HoldingOp) returns (g': History)
    requires Inv(c, g) && !c.awaitingRaa
    ensures Inv(Flush(c, [op]).chan, g') && !Flush(c, [op]).chan.awaitingRaa && Grows(g, g')
  {
    hide Inv, OutboundAddAllowed;
    g' := g;
    assert Flush(c, [op][..0]) == Flushed(c, [], []);
    match op
    case HoldAdd(amount, paymentHash, cltvExpiry, onion, source) =>
      if SendAdd(c, amount, paymentHash, cltvExpiry, onion, source).Done? {
        g' := SendAddStep(c, g, amount, paymentHash, cltvExpiry, onion, source);
      }
    case HoldRemove(id, res) =>
      if SendRemove(c, id, res).Done? {
        g' := SendRemoveStep(c, g, id, res);
      }
  }

  lemma FlushSnoc(c: Chan, ops: seq<HoldingOp>)
    requires ops != []
    ensures var n := |ops| - 1;
            Flush(c, ops).chan == Flush(Flush(c, ops[..n]).chan, [ops[n]]).chan
    ensures var n := |ops| - 1;
            Flush(c, ops).messages == Flush(c, ops[..n]).messages + Flush(Flush(c, ops[..n]).chan, [ops[n]]).messages
  {
    var n := |ops| - 1;
    var c1 := Flush(c, ops[..n]).chan;
    assert [ops[n]][..0] == [];
    assert Flush(c1, [ops[n]][..0]) == Flushed(c1, [], []);
  }

  lemma {:induction false} FlushStep(c: Chan, g: History, ops: seq<HoldingOp>) returns (g': History)
    requires Inv(c, g) && !c.awaitingRaa
    ensures Inv(Flush(c, ops).chan, g') && !Flush(c, ops).chan.awaitingRaa && Grows(g, g')
    decreases |ops|
  {
    g' := g;
    if ops != [] {
      var n := |ops| - 1;
      var g1 := FlushStep(c, g, ops[..n]);
      g' := FlushOneStep(Flush(c, ops[..n]).chan, g1, ops[n]);
      FlushSnoc(c, ops);
      GrowsTrans(g, g1, g');
    }
  }

  lemma RevokeStep(c: Chan, g: History, m: Message) returns (g': History)
    requires Inv(c, g) && m.RevokeAndAck? && OnRevokeAndAck(c, m).Done?
    ensures Inv(OnRevokeAndAck(c, m).chan, g') && Advances(g, g')
  {
    var c1 := Revoke(c, m).chan;
    RevokeKeeps(c, g, m);
    var g1 := AfterRevoke(g, RaaMarked(c));
    MarkProcessedKeeps(c1, g1, []);
    var c2 := c1.(htlcs := MarkProcessed(c1.htlcs), holdingCell := []);
    g' := FlushStep(c2, g1, c1.holdingCell);
    var f := Flush(c2, c1.holdingCell);
    if CanSendCommitment(f.chan) {
      SignKeeps(f.chan, g');
      g' := AfterSign(g');
    }
  }

  lemma LockStep(c: Chan, g: History, m: Message) returns (g': History)
    requires Inv(c, g) && m.CommitmentSigned? && OnCommitmentSigned(c, m).Done?
    ensures Inv(OnCommitmentSigned(c, m).chan, g') && Advances(g, g')
    ensures g' == AfterLock(g, LockAll(c.htlcs))
  {
    LockKeeps(c, g, m);
    g' := AfterLock(g, LockAll(c.htlcs));
  }

  lemma FeeStep(c: Chan, g: History, own: bool, feerate: nat) returns (g': History)
    requires Inv(c, g) && (own ==> !c.awaitingRaa && c.role.Opener?) && (!own ==> c.role.Accepter?)
    ensures own ==> Inv(c.(feerateCounterparty := feerate, dirty := true), g')
    ensures !own ==> Inv(c.(feerateHolder := feerate, pendingFeeAck := Some(feerate)), g')
    ensures g' == (if own then NewOut(g, Fee(feerate)) else NewIn(g, Fee(feerate))) && Grows(g, g')
  {
    if own {
      SendFeeKeeps(c, g, feerate);
      g' := NewOut(g, Fee(feerate));
    } else {
      RecvFeeKeeps(c, g, feerate);
      g' := NewIn(g, Fee(feerate));
    }
  }

  lemma DeliverUpdateKeeps(c: Chan, g: History, m: Message) returns (g': History)
    requires Inv(c, g) && (m.UpdateAddHtlc? || m.UpdateRemoveHtlc? || m.UpdateFee?)
    ensures Inv(Deliver(c, m).chan, g') && Grows(g, g')
  {
    hide Inv, InboundAddAllowed;
    g' := g;
    match m
    case UpdateAddHtlc(_, _, _, _, _) =>
      if OnUpdateAdd(c, m).Done? { g' := RecvAddStep(c, g, m); }
    case UpdateRemoveHtlc(_, _) =>
      if OnUpdateRemove(c, m).Done? { g' := RecvRemoveStep(c, g, m); }
    case UpdateFee(feerate) =>
      if OnUpdateFee(c, m).Done? { g' := FeeStep(c, g, false, feerate); }
  }

  lemma DeliverCommitKeeps(c: Chan, g: History, m: Message) returns (g': History)
    requires Inv(c, g) && (m.CommitmentSigned? || m.RevokeAndAck?)
    ensures Inv(Deliver(c, m).chan, g') && Advances(g, g')
  {
    hide Inv, OnCommitmentSigned, OnRevokeAndAck;
    InvCounts(c, g);
    g' := g;
    if m.CommitmentSigned? && OnCommitmentSigned(c, m).Done? { g' := LockStep(c, g, m); }
    if m.RevokeAndAck? && OnRevokeAndAck(c, m).Done? { g' := RevokeStep(c, g, m); }
  }

  lemma DeliverKeeps(c: Chan, g: History, m: Message) returns (g': History)
    requires Inv(c, g)
    ensures Inv(Deliver(c, m).chan, g') && Advances(g, g')
  {
    if m.CommitmentSigned? || m.RevokeAndAck? {
      g' := DeliverCommitKeeps(c, g, m);
    } else {
      g' := DeliverUpdateKeeps(c, g, m);
      GrowsAdvances(c, g, g');
    }
  }

  lemma ReactKeeps(c: Chan, g: History, e: Event) returns (g': History)
    requires Inv(c, g)
    ensures Inv(React(c, e).chan, g') && Advances(g, g')
  {
    hide Inv, Grows, SendAdd, SendRemove, Deliver;
    InvCounts(c, g);
    g' := g;
    match e
    case LocalAdd(amount, paymentHash, cltvExpiry, onion, source) =>
      if SendAdd(c, amount, paymentHash, cltvExpiry, onion, source).Done? {
        g' := SendAddStep(c, g, amount, paymentHash, cltvExpiry, onion, source);
        GrowsAdvances(c, g, g');
      }
    case LocalRemove(id, res) =>
      if SendRemove(c, id, res).Done? { g' := SendRemoveStep(c, g, id, res); GrowsAdvances(c, g, g'); }
    case LocalFee(feerate) =>
      if SendUpdateFee(c, feerate).Done? { g' := FeeStep(c, g, true, feerate); GrowsAdvances(c, g, g'); }
    case LocalSign =>
      if SendCommitmentSigned(c).Done? { SignKeeps(c, g); g' := AfterSign(g); }
    case Receive(m) => g' := DeliverKeeps(c, g, m);
  }

  /** Every reachable state is one the ledger describes. */
  lemma {:induction false} RunInv(c: Chan, events: seq<Event>) returns (g: History)
    requires Fresh(c)
    ensures Inv(Run(c, events), g) && g.initial == c.base
    decreases |events|
  {
    if events == [] {
      FreshInv(c);
      g := FreshHistory(c);
    } else {
      var n := |events| - 1;
      g := RunInv(c, events[..n]);
      g := ReactKeeps(Run(c, events[..n]), g, events[n]);
    }
  }

  // ------------------------------------------------------------ conservation

  /** `apply_balance` over the integers, with nothing to saturate. */
  datatype Amounts = Amounts(holder: int, counterparty: int)

  function ExactApply(x: Htlc, phase: Phase, b: Amounts): Amounts {
    if phase.Included() then
      if x.outbound then b.(holder := b.holder - x.amount) else b.(counterparty := b.counterparty - x.amount)
    else if phase.Credited() && x.resolution.Some? && x.resolution.value.Fulfill? then
      if x.outbound then Amounts(b.holder - x.amount, b.counterparty + x.amount)
      else Amounts(b.holder + x.amount, b.counterparty - x.amount)
    else b
  }

  function ExactBalancesOf(b: Balances, htlcs: seq<Htlc>, holderSide: bool): Amounts {
    if htlcs == [] then Amounts(b.holder, b.counterparty)
    else
      var n := |htlcs| - 1;
      ExactApply(htlcs[n], htlcs[n].PhaseOn(holderSide), ExactBalancesOf(b, htlcs[..n], holderSide))
  }

  function IncludedAmount(htlcs: seq<Htlc>, holderSide: bool): nat {
    if htlcs == [] then 0
    else
      var n := |htlcs| - 1;
      IncludedAmount(htlcs[..n], holderSide) + if htlcs[n].PhaseOn(holderSide).Included() then htlcs[n].amount else 0
  }

  lemma {:induction false} ExactPlusEscrow(b: Balances, htlcs: seq<Htlc>, holderSide: bool)
    ensures var e := ExactBalancesOf(b, htlcs, holderSide);
            e.holder + e.counterparty + IncludedAmount(htlcs, holderSide) == b.holder + b.counterparty
    decreases |htlcs|
  {
    if htlcs != [] { ExactPlusEscrow(b, htlcs[..|htlcs| - 1], holderSide); }
  }

  lemma ExactApplyShare(x: Htlc, phase: Phase, e: Amounts, own: int, peer: int)
    requires phase.NotYet? ==> own == 0 && peer == 0
    requires phase.Included() ==>
               own == HolderMeter().escrow(x.outbound, DataOf(x)) && peer == CounterpartyMeter().escrow(x.outbound, DataOf(x))
    requires phase.Credited() ==>
               && x.resolution.Some?
               && own == HolderMeter().credit(x.outbound, DataOf(x), x.resolution.value)
               && peer == CounterpartyMeter().credit(x.outbound, DataOf(x), x.resolution.value)
    ensures ExactApply(x, phase, e) == Amounts(e.holder + own, e.counterparty + peer)
  {
  }

  lemma {:induction false} ExactIsSum(c: Chan, g: History, holderSide: bool, n: nat)
    requires Inv(c, g) && n <= |c.htlcs|
    ensures var (a, b) := (OwnLimit(g, holderSide), PeerLimit(g, holderSide));
            var e := ExactBalancesOf(c.base, c.htlcs[..n], holderSide);
            && e.holder == c.base.holder + ListSum(HolderMeter(), g, c.htlcs[..n], a, b)
            && e.counterparty == c.base.counterparty + ListSum(CounterpartyMeter(), g, c.htlcs[..n], a, b)
    decreases n
  {
    if n > 0 {
      ExactIsSum(c, g, holderSide, n - 1);
      assert c.htlcs[..n][..n - 1] == c.htlcs[..n - 1];
      var a, b := OwnLimit(g, holderSide), PeerLimit(g, holderSide);
      ListSumSnoc(HolderMeter(), g, c.htlcs, n - 1, a, b);
      ListSumSnoc(CounterpartyMeter(), g, c.htlcs, n - 1, a, b);
      PhaseShare(c, g, n - 1, holderSide, HolderMeter());
      PhaseShare(c, g, n - 1, holderSide, CounterpartyMeter());
      var x := c.htlcs[n - 1];
      ExactApplyShare(x, x.PhaseOn(holderSide), ExactBalancesOf(c.base, c.htlcs[..n - 1], holderSide),
                      Share(HolderMeter(), g, x, a, b), Share(CounterpartyMeter(), g, x, a, b));
    }
  }

  lemma NeverSaturates(c: Chan, g: History, holderSide: bool, n: nat)
    requires Inv(c, g) && n <= |c.htlcs|
    ensures var e := ExactBalancesOf(c.base, c.htlcs[..n], holderSide);
            BalancesOf(c.base, c.htlcs[..n], holderSide).holder == e.holder &&
            BalancesOf(c.base, c.htlcs[..n], holderSide).counterparty == e.counterparty
  {
    ExactPrefix(c, g, holderSide, n);
    ExactIsSum(c, g, holderSide, n);
  }

  lemma {:induction false} SettledConserves(settled: seq<Htlc>)
    ensures SettledSum(HolderMeter(), settled) + SettledSum(CounterpartyMeter(), settled) == 0
    decreases |settled|
  {
    if settled != [] { SettledConserves(settled[..|settled| - 1]); }
  }

  lemma BaseConserved(c: Chan, g: History)
    requires Metered(c, g)
    ensures c.base.holder + c.base.counterparty == g.initial.holder + g.initial.counterparty
  {
    SettledConserves(g.settled);
  }

  /**
   * Conservation, in every state reachable against any peer: either side's
   * next commitment accounts for all of the channel's money, the base balances
   * do too, and no saturating subtraction ever saturates, whatever prefix of
   * the list has been added up.
   */
  lemma Conservation(c0: Chan, events: seq<Event>, holderSide: bool, n: nat)
    requires Fresh(c0)
    requires n <= |Run(c0, events).htlcs|
    ensures var c := Run(c0, events);
            && BalancesFor(c, holderSide).holder + BalancesFor(c, holderSide).counterparty +
               IncludedAmount(c.htlcs, holderSide) == c0.base.holder + c0.base.counterparty
            && c.base.holder + c.base.counterparty == c0.base.holder + c0.base.counterparty
            && BalancesOf(c.base, c.htlcs[..n], holderSide).holder ==
               ExactBalancesOf(c.base, c.htlcs[..n], holderSide).holder
            && BalancesOf(c.base, c.htlcs[..n], holderSide).counterparty ==
               ExactBalancesOf(c.base, c.htlcs[..n], holderSide).counterparty
  {
    var c := Run(c0, events);
    var g := RunInv(c0, events);
    NeverSaturates(c, g, holderSide, n);
    NeverSaturates(c, g, holderSide, |c.htlcs|);
    assert c.htlcs[..|c.htlcs|] == c.htlcs;
    ExactPlusEscrow(c.base, c.htlcs, holderSide);
    BaseConserved(c, g);
  }
}
