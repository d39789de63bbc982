/**
 * Every payment the node layer entrusts to a channel is, at each moment of a run
 * against any peer, in exactly one place: parked, carried by an unresolved HTLC,
 * reported failed, or settled.
 */
module Sources {
  import opened Wrappers
  import opened Channel
  import opened Ledger
  import opened LedgerUpdates
  import opened LedgerCommits
  import opened ChannelRuns
  import opened HoldingCell

  // ------------------------------------------------------------ where they are

  /** The sources of our unresolved HTLCs. */
  function Carried(htlcs: seq<Htlc>): multiset<Source> {
    if htlcs == [] then multiset{}
    else
      var n := |htlcs| - 1;
      Carried(htlcs[..n]) + CarriedBy(htlcs[n])
  }

  function CarriedBy(x: Htlc): multiset<Source> {
    if x.outbound && x.resolution.None? && x.source.Some? then multiset{x.source.value} else multiset{}
  }

  /** The sources of the parked adds. */
  function Parked(ops: seq<HoldingOp>): multiset<Source> {
    if ops == [] then multiset{}
    else
      var n := |ops| - 1;
      Parked(ops[..n]) + ParkedBy(ops[n])
  }

  function ParkedBy(op: HoldingOp): multiset<Source> {
    if op.HoldAdd? then multiset{op.source} else multiset{}
  }

  /** What the channel still has to do. */
  function InHand(c: Chan): multiset<Source> {
    Carried(c.htlcs) + Parked(c.holdingCell)
  }

  /** What one event takes on. */
  function Entrusted(c: Chan, e: Event): multiset<Source> {
    if e.LocalAdd? && SendAdd(c, e.amount, e.paymentHash, e.cltvExpiry, e.onion, e.source).Done?
    then multiset{e.source} else multiset{}
  }

  /** What one event reports back. */
  function ReportedBack(r: Reaction): multiset<Source> {
    multiset(r.failedAdds) + SettledSources(r.settled)
  }

  function SettledSources(settled: seq<Settlement>): multiset<Source> {
    if settled == [] then multiset{}
    else
      var n := |settled| - 1;
      SettledSources(settled[..n]) + if settled[n].source.Some? then multiset{settled[n].source.value} else multiset{}
  }

  function AllEntrusted(c: Chan, events: seq<Event>): multiset<Source> {
    if events == [] then multiset{}
    else
      var n := |events| - 1;
      AllEntrusted(c, events[..n]) + Entrusted(Run(c, events[..n]), events[n])
  }

  function AllReportedBack(c: Chan, events: seq<Event>): multiset<Source> {
    if events == [] then multiset{}
    else
      var n := |events| - 1;
      AllReportedBack(c, events[..n]) + ReportedBack(React(Run(c, events[..n]), events[n]))
  }

  // ----------------------------------------------------------------- the lists

  lemma Swap(a: multiset<Source>, b: multiset<Source>, c: multiset<Source>)
    ensures (a + b) + c == (a + c) + b
  {
  }

  lemma Assoc(a: multiset<Source>, b: multiset<Source>, x: multiset<Source>)
    ensures (a + b) + x == a + (b + x)
  {
  }

  /** What moves from one place to another on one side moves on the other. */
  lemma Exchange(x: multiset<Source>, out: multiset<Source>, y: multiset<Source>, taken: multiset<Source>,
                 before: multiset<Source>)
    requires y + out == x + taken
    ensures (x + before) + taken == y + (before + out)
  {
    Swap(x, before, taken);
    Swap(y, out, before);
    assert (y + before) + out == y + (before + out);
  }

  lemma CarriedSnoc(htlcs: seq<Htlc>, x: Htlc)
    ensures Carried(htlcs + [x]) == Carried(htlcs) + CarriedBy(x)
  {
    assert (htlcs + [x])[..|htlcs|] == htlcs;
  }

  lemma ParkedSnoc(ops: seq<HoldingOp>, op: HoldingOp)
    ensures Parked(ops + [op]) == Parked(ops) + ParkedBy(op)
  {
    assert (ops + [op])[..|ops|] == ops;
  }

  lemma {:induction false} CarriedPointwise(a: seq<Htlc>, b: seq<Htlc>)
    requires |a| == |b| && forall i | 0 <= i < |a| :: CarriedBy(a[i]) == CarriedBy(b[i])
    ensures Carried(a) == Carried(b)
    decreases |a|
  {
    hide CarriedBy;
    if a != [] {
      CarriedPointwise(a[..|a| - 1], b[..|a| - 1]);
    }
  }

  /** Changing one HTLC changes only what it carries. */
  lemma {:induction false} CarriedUpdate(a: seq<Htlc>, i: nat, y: Htlc)
    requires i < |a|
    ensures Carried(a[i := y]) + CarriedBy(a[i]) == Carried(a) + CarriedBy(y)
    decreases |a|
  {
    hide CarriedBy;
    var n := |a| - 1;
    if i < n {
      CarriedUpdate(a[..n], i, y);
      assert a[i := y][..n] == a[..n][i := y] && a[..n][i] == a[i];
      Swap(Carried(a[..n][i := y]), CarriedBy(a[n]), CarriedBy(a[i]));
      Swap(Carried(a[..n]), CarriedBy(y), CarriedBy(a[n]));
    } else {
      assert a[i := y][..n] == a[..n];
      Swap(Carried(a[..n]), CarriedBy(y), CarriedBy(a[i]));
    }
  }

  lemma {:induction false} CarriedKept(a: seq<Htlc>)
    requires forall x | x in a && IsGone(x) :: x.resolution.Some?
    ensures Carried(Kept(a)) == Carried(a)
    decreases |a|
  {
    if a != [] {
      var n := |a| - 1;
      CarriedKept(a[..n]);
      if !IsGone(a[n]) { CarriedSnoc(Kept(a[..n]), a[n]); }
    }
  }

  /** Phases and marks carry nothing. */
  lemma MarkingCarries(c: Chan, g: History, marked: seq<Htlc>, g': History)
    requires Marking(c, g, marked, g')
    ensures Carried(Kept(marked)) == Carried(c.htlcs)
  {
    hide IsGone, Kept;
    GoneResolved(c, g, marked, g');
    CarriedKept(marked);
    forall i | 0 <= i < |marked| ensures CarriedBy(c.htlcs[i]) == CarriedBy(marked[i]) {
      assert SameShares(c.htlcs[i], marked[i]);
    }
    CarriedPointwise(c.htlcs, marked);
  }

  // ----------------------------------------------------------------- the events

  lemma SendAddEntrusts(c: Chan, amount: nat, paymentHash: Bytes, cltvExpiry: nat, onion: Bytes, source: Source)
    ensures var o := SendAdd(c, amount, paymentHash, cltvExpiry, onion, source);
            o.Done? ==> InHand(o.chan) == InHand(c) + multiset{source}
  {
    hide OutboundAddAllowed, Carried, Parked;
    var o := SendAdd(c, amount, paymentHash, cltvExpiry, onion, source);
    if o.Done? {
      if c.awaitingRaa {
        ParkedSnoc(c.holdingCell, HoldAdd(amount, paymentHash, cltvExpiry, onion, source));
      } else {
        CarriedSnoc(c.htlcs, o.chan.htlcs[|c.htlcs|]);
      }
    }
  }

  lemma SendRemoveEntrusts(c: Chan, id: nat, res: Resolution)
    ensures var o := SendRemove(c, id, res); o.Done? ==> InHand(o.chan) == InHand(c)
  {
    hide Carried, Parked, Irrevocable, PreimageMatches;
    var o := SendRemove(c, id, res);
    if o.Done? {
      if c.awaitingRaa {
        ParkedSnoc(c.holdingCell, HoldRemove(id, res));
      } else {
        var i := Find(c.htlcs, false, id).value;
        var y := c.htlcs[i].(resolution := Some(res), phaseCounterparty := Removing);
        CarriedUpdate(c.htlcs, i, y);
        assert Carried(c.htlcs[i := y]) == Carried(c.htlcs[i := y]) + multiset{} == Carried(c.htlcs) + multiset{} == Carried(c.htlcs);
        assert o.chan.htlcs == c.htlcs[i := y];
      }
    }
  }

  lemma TurnAccounts(c: Chan, op: HoldingOp, fate: Fate, d: Chan)
    requires Turn(c, op, fate, d)
    ensures Carried(d.htlcs) + (if fate.GivenUp? then multiset{fate.source} else multiset{}) ==
            Carried(c.htlcs) + ParkedBy(op)
  {
    hide Carried, AddFits, Irrevocable, PreimageMatches;
    match op
    case HoldAdd(amount, paymentHash, cltvExpiry, onion, source) =>
      if AddFits(c, amount, cltvExpiry) { CarriedSnoc(c.htlcs, d.htlcs[|c.htlcs|]); }
    case HoldRemove(id, res) =>
      if i: nat :| Removable(c, i, id, res) && d == c.(dirty := true,
          htlcs := c.htlcs[i := c.htlcs[i].(resolution := Some(res), phaseCounterparty := Removing)]) {
        RemovalCarries(c, i, id, res, d.htlcs);
      }
  }

  lemma RemovalCarries(c: Chan, i: nat, id: nat, res: Resolution, htlcs: seq<Htlc>)
    requires Removable(c, i, id, res)
    requires htlcs == c.htlcs[i := c.htlcs[i].(resolution := Some(res), phaseCounterparty := Removing)]
    ensures Carried(htlcs) == Carried(c.htlcs)
  {
    hide Carried, Irrevocable, PreimageMatches;
    CarriedUpdate(c.htlcs, i, htlcs[i]);
    assert CarriedBy(htlcs[i]) == CarriedBy(c.htlcs[i]) == multiset{};
    assert Carried(htlcs) + multiset{} == Carried(htlcs) && Carried(c.htlcs) + multiset{} == Carried(c.htlcs);
  }

  /** Over a flush every parked source is carried or given up. */
  lemma {:induction false} TurnsAccount(ops: seq<HoldingOp>, fates: seq<Fate>, states: seq<Chan>)
    requires Turns(ops, fates, states)
    ensures Carried(states[|ops|].htlcs) + multiset(GivenUpBy(fates)) == Carried(states[0].htlcs) + Parked(ops)
    decreases |ops|
  {
    hide Carried, Turn;
    if ops == [] {
      assert GivenUpBy(fates) == [];
    } else {
      var n := |ops| - 1;
      EarlierTurns(ops, fates, states);
      TurnsAccount(ops[..n], fates[..n], states[..n + 1]);
      TurnAccounts(states[n], ops[n], fates[n], states[n + 1]);
      LastGivenUp(fates);
      hide GivenUpBy, Parked, ParkedBy, Turns;
      LastParked(ops);
      var given := if fates[n].GivenUp? then multiset{fates[n].source} else multiset{};
      var before := multiset(GivenUpBy(fates[..n]));
      Exchange(Carried(states[n].htlcs), given, Carried(states[n + 1].htlcs), ParkedBy(ops[n]), before);
      Assoc(Carried(states[0].htlcs), Parked(ops[..n]), ParkedBy(ops[n]));
    }
  }

  lemma EarlierTurns(ops: seq<HoldingOp>, fates: seq<Fate>, states: seq<Chan>)
    requires Turns(ops, fates, states) && ops != []
    ensures var n := |ops| - 1; Turns(ops[..n], fates[..n], states[..n + 1])
    ensures var n := |ops| - 1; Turn(states[n], ops[n], fates[n], states[n + 1])
  {
    hide Turn;
    var n := |ops| - 1;
    forall k | 0 <= k < n ensures Turn(states[..n + 1][k], ops[..n][k], fates[..n][k], states[..n + 1][k + 1]) {
      assert Turn(states[k], ops[k], fates[k], states[k + 1]);
    }
  }

  lemma LastGivenUp(fates: seq<Fate>)
    requires fates != []
    ensures var n := |fates| - 1;
            multiset(GivenUpBy(fates)) ==
            multiset(GivenUpBy(fates[..n])) + if fates[n].GivenUp? then multiset{fates[n].source} else multiset{}
  {
  }

  lemma LastParked(ops: seq<HoldingOp>)
    requires ops != []
    ensures Parked(ops) == Parked(ops[..|ops| - 1]) + ParkedBy(ops[|ops| - 1])
  {
  }

  lemma RevocationAccounts(c: Chan, g: History, m: Message)
    requires Inv(c, g) && m.RevokeAndAck? && OnRevokeAndAck(c, m).Done?
    ensures InHand(OnRevokeAndAck(c, m).chan) + multiset(OnRevokeAndAck(c, m).value.failedAdds) == InHand(c)
  {
    hide Inv, Carried, Parked, OnRevokeAndAck, MarkProcessed, Turn, SendCommitmentSigned;
    var fates, states := NothingParkedIsLost(c, m);
    TurnsAccount(c.holdingCell, fates, states);
    var c1 := Revoke(c, m).chan;
    RevokedCarries(c, g, m);
    MarksCarry(c1.htlcs);
    var last := states[|c.holdingCell|];
    SignCarries(last);
    assert Parked([]) == multiset{} by { NothingParked(); }
  }

  lemma NothingParked()
    ensures Parked([]) == multiset{}
  {
  }

  lemma SignCarries(c: Chan)
    ensures SendCommitmentSigned(c).Done? ==> SendCommitmentSigned(c).chan.htlcs == c.htlcs
  {
    hide KeysIn, CounterpartyCommitmentAt;
  }

  lemma MarksCarry(htlcs: seq<Htlc>)
    ensures Carried(MarkProcessed(htlcs)) == Carried(htlcs)
  {
    hide MarkProcessed;
    CarriedPointwise(MarkProcessed(htlcs), htlcs);
  }

  lemma RevokedCarries(c: Chan, g: History, m: Message)
    requires Inv(c, g) && m.RevokeAndAck? && Revoke(c, m).Done?
    ensures Carried(Revoke(c, m).chan.htlcs) == Carried(c.htlcs)
  {
    hide Inv, Carried, ApplyIncluded, ApplyRemoved, Kept, BakedBalances, Marking, Stored, Recorded, Indexed;
    InvParts(c, g);
    RevokeMarking(c, g);
    MarkingCarries(c, g, RaaMarked(c), AfterRevoke(g, RaaMarked(c)));
  }

  lemma LockedCarries(c: Chan, g: History, m: Message)
    requires Inv(c, g) && m.CommitmentSigned? && OnCommitmentSigned(c, m).Done?
    ensures InHand(OnCommitmentSigned(c, m).chan) == InHand(c)
  {
    hide Inv, Carried, LockAll, Kept, BakedBalances, AnyAcknowledged, HolderCommitmentAt, Marking, Stored, Recorded, Indexed;
    InvParts(c, g);
    LockMarking(c, g);
    MarkingCarries(c, g, LockAll(c.htlcs), AfterLock(g, LockAll(c.htlcs)));
  }

  /** A settlement reports the source of exactly one HTLC, which then carries it no more. */
  lemma SettlesOne(c: Chan, g: History, m: Message)
    requires Inv(c, g) && m.UpdateRemoveHtlc? && OnUpdateRemove(c, m).Done?
    ensures var o := OnUpdateRemove(c, m);
            o.value.source.Some? && InHand(o.chan) + multiset{o.value.source.value} == InHand(c)
  {
    hide Inv, Carried, Parked, PreimageMatches, CodeLacksBadOnion, RecordAgrees, Recorded, Indexed, Stored, FeesAgree;
    InvParts(c, g);
    var i := Find(c.htlcs, true, m.id).value;
    Listed(c, g, i);
    var x := c.htlcs[i];
    var y := x.(resolution := Some(m.resolution), phaseHolder := Removing);
    CarriedUpdate(c.htlcs, i, y);
    assert Carried(c.htlcs[i := y]) + multiset{x.source.value} == Carried(c.htlcs) + multiset{} == Carried(c.htlcs);
    Swap(Carried(c.htlcs[i := y]), Parked(c.holdingCell), multiset{x.source.value});
  }

  lemma Listed(c: Chan, g: History, i: nat)
    requires Recorded(c, g) && i < |c.htlcs|
    ensures c.htlcs[i].outbound ==> c.htlcs[i].source.Some?
  {
    assert RecordAgrees(g, c.htlcs[i]);
  }

  lemma OneSettled(s: Settlement)
    requires s.source.Some?
    ensures SettledSources([s]) == multiset{s.source.value}
  {
    assert [s][..0] == [];
  }

  lemma DeliverAccounts(c: Chan, g: History, m: Message)
    requires Inv(c, g)
    ensures InHand(Deliver(c, m).chan) + ReportedBack(Deliver(c, m)) == InHand(c)
  {
    if m.CommitmentSigned? || m.RevokeAndAck? {
      CommitmentAccounts(c, g, m);
    } else {
      UpdateAccounts(c, g, m);
    }
  }

  lemma UpdateAccounts(c: Chan, g: History, m: Message)
    requires Inv(c, g) && !m.CommitmentSigned? && !m.RevokeAndAck?
    ensures InHand(Deliver(c, m).chan) + ReportedBack(Deliver(c, m)) == InHand(c)
  {
    hide Inv, Carried, Parked, OnUpdateRemove, InboundAddAllowed;
    if m.UpdateAddHtlc? {
      if OnUpdateAdd(c, m).Done? { CarriedSnoc(c.htlcs, OnUpdateAdd(c, m).chan.htlcs[|c.htlcs|]); }
    } else if m.UpdateRemoveHtlc? && OnUpdateRemove(c, m).Done? {
      hide InHand;
      SettlesOne(c, g, m);
      OneSettled(OnUpdateRemove(c, m).value);
    }
  }

  lemma CommitmentAccounts(c: Chan, g: History, m: Message)
    requires Inv(c, g) && (m.CommitmentSigned? || m.RevokeAndAck?)
    ensures InHand(Deliver(c, m).chan) + ReportedBack(Deliver(c, m)) == InHand(c)
  {
    hide Inv, InHand, OnRevokeAndAck, OnCommitmentSigned;
    if m.CommitmentSigned? {
      if OnCommitmentSigned(c, m).Done? { LockedCarries(c, g, m); }
    } else if OnRevokeAndAck(c, m).Done? {
      RevocationAccounts(c, g, m);
    }
  }

  lemma EventAccounts(c: Chan, g: History, e: Event)
    requires Inv(c, g)
    ensures InHand(React(c, e).chan) + ReportedBack(React(c, e)) == InHand(c) + Entrusted(c, e)
  {
    hide Inv, InHand, SendAdd, SendRemove, Deliver;
    match e
    case LocalAdd(amount, paymentHash, cltvExpiry, onion, source) =>
      SendAddEntrusts(c, amount, paymentHash, cltvExpiry, onion, source);
    case LocalRemove(id, res) => SendRemoveEntrusts(c, id, res);
    case LocalFee(feerate) => FeeInHand(c, feerate);
    case LocalSign => SignInHand(c);
    case Receive(m) => DeliverAccounts(c, g, m);
  }

  lemma FeeInHand(c: Chan, feerate: nat)
    ensures SendUpdateFee(c, feerate).Done? ==> InHand(SendUpdateFee(c, feerate).chan) == InHand(c)
  {
  }

  lemma SignInHand(c: Chan)
    ensures SendCommitmentSigned(c).Done? ==> InHand(SendCommitmentSigned(c).chan) == InHand(c)
  {
    hide Carried, Parked;
    SignCarries(c);
    SignKeepsCell(c);
  }

  /**
   * Every source is in exactly one place. Counted with multiplicity, the sources of all adds
   * accepted so far are those in hand - parked, or carried by an unresolved HTLC of ours -
   * and those reported back, as failed on a flush or as settled.
   */
  lemma {:induction false} SourcesConserved(c0: Chan, events: seq<Event>)
    requires Fresh(c0)
    ensures AllEntrusted(c0, events) == InHand(Run(c0, events)) + AllReportedBack(c0, events)
    decreases |events|
  {
    if events != [] {
      hide Fresh, React, InHand, Entrusted, ReportedBack;
      var n := |events| - 1;
      SourcesConserved(c0, events[..n]);
      var g := RunInv(c0, events[..n]);
      hide Inv;
      var c := Run(c0, events[..n]);
      var r := React(c, events[n]);
      EventAccounts(c, g, events[n]);
      Exchange(InHand(c), ReportedBack(r), InHand(r.chan), Entrusted(c, events[n]), AllReportedBack(c0, events[..n]));
    } else {
      assert InHand(c0) == multiset{};
    }
  }

  // ------------------------------------------------------- what settles a source

  /** The peer's removal `m` applies to our HTLC `i`: unresolved, locked on both sides, and
      paid for if it claims the payment. */
  predicate Settles(c: Chan, i: nat, m: Message)
    requires m.UpdateRemoveHtlc?
  {
    && i < |c.htlcs| && c.htlcs[i].outbound && c.htlcs[i].id == m.id && c.htlcs[i].resolution.None?
    && c.htlcs[i].phaseHolder.Committed? && c.htlcs[i].phaseCounterparty.Committed?
    && (m.resolution.Fulfill? ==> c.crypto.sha(m.resolution.preimage) == c.htlcs[i].paymentHash)
    && (m.resolution.FailMalformed? ==> m.resolution.code / BADONION % 2 == 1)
  }

  /** A removal from any peer is accepted exactly when it applies to one of our HTLCs; it then
      resolves that one, and the settlement is that one's own source and amount. */
  lemma SettledExactlyWhen(c0: Chan, events: seq<Event>, m: Message, i: nat)
    requires Fresh(c0) && m.UpdateRemoveHtlc?
    ensures var c := Run(c0, events); OnUpdateRemove(c, m).Done? <==> exists j: nat :: Settles(c, j, m)
    ensures var c := Run(c0, events);
            Settles(c, i, m) ==>
              && React(c, Receive(m)).settled == [Settlement(c.htlcs[i].source, c.htlcs[i].amount)]
              && React(c, Receive(m)).chan ==
                 c.(htlcs := c.htlcs[i := c.htlcs[i].(resolution := Some(m.resolution), phaseHolder := Removing)])
    ensures var c := Run(c0, events);
            !OnUpdateRemove(c, m).Done? ==> React(c, Receive(m)) == Plain(c, [])
  {
    hide Run, Inv, Fresh, Recorded, Indexed, Stored, FeesAgree;
    var c := Run(c0, events);
    var g := RunInv(c0, events);
    InvParts(c, g);
    var found := Find(c.htlcs, true, m.id);
    if OnUpdateRemove(c, m).Done? { assert Settles(c, found.value, m); }
    forall j: nat | Settles(c, j, m) ensures found == Some(j) {
      UniqueKeys(c, g, found.value, j);
    }
  }

  /** Claimed payments are paid for. */
  ghost predicate Earned(c: Chan) {
    forall x | x in c.htlcs :: EarnedBy(c.crypto, x)
  }

  ghost predicate EarnedBy(crypto: Crypto, x: Htlc) {
    x.resolution.Some? && x.resolution.value.Fulfill? ==> crypto.sha(x.resolution.value.preimage) == x.paymentHash
  }

  lemma EarnedMarked(c: Chan, g: History, marked: seq<Htlc>, g': History, d: Chan)
    requires Earned(c) && Marking(c, g, marked, g') && d.crypto == c.crypto && d.htlcs == Kept(marked)
    ensures Earned(d)
  {
    hide IsGone, Kept;
    forall y | y in d.htlcs ensures EarnedBy(d.crypto, y) {
      KeptMember(marked, y);
      var i :| 0 <= i < |marked| && marked[i] == y;
      assert SameShares(c.htlcs[i], marked[i]) && EarnedBy(c.crypto, c.htlcs[i]);
    }
  }

  lemma SendAddEarned(c: Chan, amount: nat, paymentHash: Bytes, cltvExpiry: nat, onion: Bytes, source: Source)
    requires Earned(c)
    ensures var o := SendAdd(c, amount, paymentHash, cltvExpiry, onion, source); o.Done? ==> Earned(o.chan)
  {
    hide OutboundAddAllowed;
  }

  lemma SendRemoveEarned(c: Chan, id: nat, res: Resolution)
    requires Earned(c)
    ensures var o := SendRemove(c, id, res); o.Done? ==> Earned(o.chan)
  {
    hide Irrevocable;
    var o := SendRemove(c, id, res);
    if o.Done? && !c.awaitingRaa {
      var i := Find(c.htlcs, false, id).value;
      forall y | y in o.chan.htlcs ensures EarnedBy(c.crypto, y) || y in c.htlcs {
        var j :| 0 <= j < |o.chan.htlcs| && o.chan.htlcs[j] == y;
        if j != i { assert c.htlcs[j] == y; }
      }
    }
  }

  lemma TurnEarned(c: Chan, op: HoldingOp, fate: Fate, d: Chan)
    requires Earned(c) && Turn(c, op, fate, d)
    ensures Earned(d)
  {
    hide AddFits, Irrevocable, Find;
  }

  lemma {:induction false} TurnsEarned(ops: seq<HoldingOp>, fates: seq<Fate>, states: seq<Chan>, k: nat)
    requires Turns(ops, fates, states) && Earned(states[0]) && k <= |ops|
    ensures Earned(states[k])
    decreases k
  {
    hide Turn, Earned;
    if k > 0 {
      TurnsEarned(ops, fates, states, k - 1);
      assert Turn(states[k - 1], ops[k - 1], fates[k - 1], states[k]);
      TurnEarned(states[k - 1], ops[k - 1], fates[k - 1], states[k]);
    }
  }

  lemma MarksEarned(c: Chan)
    requires Earned(c)
    ensures Earned(c.(htlcs := MarkProcessed(c.htlcs), holdingCell := []))
  {
    hide MarkProcessed;
    forall y | y in MarkProcessed(c.htlcs) ensures EarnedBy(c.crypto, y) {
      var i :| 0 <= i < |c.htlcs| && MarkProcessed(c.htlcs)[i] == y;
      assert c.htlcs[i] in c.htlcs;
    }
  }

  lemma RevocationEarned(c: Chan, g: History, m: Message)
    requires Inv(c, g) && Earned(c) && m.RevokeAndAck? && OnRevokeAndAck(c, m).Done?
    ensures Earned(OnRevokeAndAck(c, m).chan)
  {
    hide Inv, OnRevokeAndAck, Revoke, MarkProcessed, Turn, SendCommitmentSigned, Earned;
    var fates, states := NothingParkedIsLost(c, m);
    RevokedEarned(c, g, m);
    MarksEarned(Revoke(c, m).chan);
    TurnsEarned(c.holdingCell, fates, states, |c.holdingCell|);
    var last := states[|c.holdingCell|];
    SignSameList(last);
    EarnedSame(last, if SendCommitmentSigned(last).Done? then SendCommitmentSigned(last).chan else last);
  }

  lemma SignSameList(c: Chan)
    ensures SendCommitmentSigned(c).Done? ==>
              SendCommitmentSigned(c).chan.htlcs == c.htlcs && SendCommitmentSigned(c).chan.crypto == c.crypto
  {
    hide KeysIn, CounterpartyCommitmentAt;
  }

  lemma RevokedEarned(c: Chan, g: History, m: Message)
    requires Inv(c, g) && Earned(c) && m.RevokeAndAck? && Revoke(c, m).Done?
    ensures Earned(Revoke(c, m).chan)
  {
    hide Inv, Earned, ApplyIncluded, ApplyRemoved, Kept, BakedBalances, Marking, Stored, Recorded, Indexed;
    InvParts(c, g);
    RevokeMarking(c, g);
    EarnedMarked(c, g, RaaMarked(c), AfterRevoke(g, RaaMarked(c)), Revoke(c, m).chan);
  }

  lemma LockedEarned(c: Chan, g: History, m: Message)
    requires Inv(c, g) && Earned(c) && m.CommitmentSigned? && OnCommitmentSigned(c, m).Done?
    ensures Earned(OnCommitmentSigned(c, m).chan)
  {
    hide Inv, Earned, LockAll, Kept, BakedBalances, AnyAcknowledged, HolderCommitmentAt, Marking, Stored, Recorded, Indexed;
    InvParts(c, g);
    LockMarking(c, g);
    EarnedMarked(c, g, LockAll(c.htlcs), AfterLock(g, LockAll(c.htlcs)), OnCommitmentSigned(c, m).chan);
  }

  lemma UpdateEarned(c: Chan, m: Message)
    requires Earned(c) && !m.CommitmentSigned? && !m.RevokeAndAck?
    ensures Earned(Deliver(c, m).chan)
  {
    hide InboundAddAllowed, Irrevocable, CodeLacksBadOnion;
    if m.UpdateRemoveHtlc? && OnUpdateRemove(c, m).Done? {
      var d := OnUpdateRemove(c, m).chan;
      var i := Find(c.htlcs, true, m.id).value;
      forall y | y in d.htlcs ensures EarnedBy(c.crypto, y) {
        var j :| 0 <= j < |d.htlcs| && d.htlcs[j] == y;
        if j != i { assert c.htlcs[j] == y; }
      }
    }
  }

  lemma EventEarned(c: Chan, g: History, e: Event)
    requires Inv(c, g) && Earned(c)
    ensures Earned(React(c, e).chan)
  {
    hide Inv, Earned, SendAdd, SendRemove, OnRevokeAndAck, OnCommitmentSigned, OnUpdateAdd, OnUpdateRemove;
    hide SendCommitmentSigned;
    match e
    case LocalAdd(amount, paymentHash, cltvExpiry, onion, source) =>
      SendAddEarned(c, amount, paymentHash, cltvExpiry, onion, source);
    case LocalRemove(id, res) => SendRemoveEarned(c, id, res);
    case LocalFee(feerate) => EarnedSame(c, React(c, e).chan);
    case LocalSign =>
      SignSameList(c);
      EarnedSame(c, React(c, e).chan);
    case Receive(m) =>
      if m.CommitmentSigned? {
        if OnCommitmentSigned(c, m).Done? { LockedEarned(c, g, m); }
      } else if m.RevokeAndAck? {
        if OnRevokeAndAck(c, m).Done? { RevocationEarned(c, g, m); }
      } else {
        UpdateEarned(c, m);
      }
  }

  lemma EarnedSame(c: Chan, d: Chan)
    requires Earned(c) && d.htlcs == c.htlcs && d.crypto == c.crypto
    ensures Earned(d)
  {
  }

  /** Over a run against any peer, no listed HTLC of either direction is fulfilled with anything
      but a preimage of its own payment hash. */
  lemma FulfilledOnlyWithPreimage(c0: Chan, events: seq<Event>)
    requires Fresh(c0)
    ensures var c := Run(c0, events);
            forall i | 0 <= i < |c.htlcs| && c.htlcs[i].resolution.Some? && c.htlcs[i].resolution.value.Fulfill? ::
              c.crypto.sha(c.htlcs[i].resolution.value.preimage) == c.htlcs[i].paymentHash
  {
    RunEarned(c0, events);
    var c := Run(c0, events);
    hide Run;
    forall i | 0 <= i < |c.htlcs| && c.htlcs[i].resolution.Some? && c.htlcs[i].resolution.value.Fulfill?
      ensures c.crypto.sha(c.htlcs[i].resolution.value.preimage) == c.htlcs[i].paymentHash
    {
      assert EarnedBy(c.crypto, c.htlcs[i]);
    }
  }

  lemma {:induction false} RunEarned(c0: Chan, events: seq<Event>)
    requires Fresh(c0)
    ensures Earned(Run(c0, events))
    decreases |events|
  {
    if events != [] {
      hide Fresh, React, Earned, Inv;
      var n := |events| - 1;
      RunEarned(c0, events[..n]);
      var g := RunInv(c0, events[..n]);
      EventEarned(Run(c0, events[..n]), g, events[n]);
    }
  }
}
