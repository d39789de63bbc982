/**
 * Exactly once: against any peer, an inbound HTLC is handed to the node layer in the
 * very event that locks it in on both sides, and in no other.
 */
module HandOverOnce {
  import opened Wrappers
  import opened Channel
  import opened Ledger
  import opened LedgerUpdates
  import opened LedgerCommits
  import opened ChannelRuns
  import opened HandOver

  /** Locked in on both commitments, now or earlier. */
  predicate Late(x: Htlc) {
    Stage(x).Some? && Stage(x).value >= 2
  }

  /** A listed inbound HTLC is marked exactly when it is or was locked in, and then
      it has been reported. */
  ghost predicate ToldOne(x: Htlc, reported: seq<Forwardable>) {
    x.outbound || ((x.processed <==> Late(x)) && (x.processed ==> AsForwardable(x) in reported))
  }

  ghost predicate Told(c: Chan, reported: seq<Forwardable>) {
    forall i | 0 <= i < |c.htlcs| :: ToldOne(c.htlcs[i], reported)
  }

  // --------------------------------------------------- events that report nothing

  /** `y` is `x` with nothing changed that matters here. */
  predicate Like(x: Htlc, y: Htlc) {
    && y.outbound == x.outbound
    && (x.outbound || (y.processed == x.processed && (Late(y) <==> Late(x)) && AsForwardable(y) == AsForwardable(x)))
  }

  predicate Unheard(y: Htlc) {
    y.outbound || (!y.processed && !Late(y))
  }

  ghost predicate Derived(htlcs: seq<Htlc>, y: Htlc) {
    Unheard(y) || exists i | 0 <= i < |htlcs| :: Like(htlcs[i], y)
  }

  /** Every entry after is new and not locked in, or like one before. */
  ghost predicate Carries(htlcs: seq<Htlc>, htlcs': seq<Htlc>) {
    forall j | 0 <= j < |htlcs'| :: Derived(htlcs, htlcs'[j])
  }

  lemma ToldCarried(c: Chan, c': Chan, reported: seq<Forwardable>)
    requires Told(c, reported) && Carries(c.htlcs, c'.htlcs)
    ensures Told(c', reported)
  {
    hide Stage;
    forall j | 0 <= j < |c'.htlcs|
      ensures ToldOne(c'.htlcs[j], reported)
    {
      var y := c'.htlcs[j];
      assert Derived(c.htlcs, y);
      if !Unheard(y) {
        var i :| 0 <= i < |c.htlcs| && Like(c.htlcs[i], y);
        assert ToldOne(c.htlcs[i], reported);
      }
    }
  }

  lemma CarriesSame(htlcs: seq<Htlc>)
    ensures Carries(htlcs, htlcs)
  {
    hide Stage;
    forall j | 0 <= j < |htlcs|
      ensures Derived(htlcs, htlcs[j])
    {
      assert Like(htlcs[j], htlcs[j]);
    }
  }

  lemma CarriesAppend(htlcs: seq<Htlc>, x: Htlc)
    requires Unheard(x)
    ensures Carries(htlcs, htlcs + [x])
  {
    hide Stage;
    forall j | 0 <= j < |htlcs + [x]|
      ensures Derived(htlcs, (htlcs + [x])[j])
    {
      if j < |htlcs| {
        assert Like(htlcs[j], (htlcs + [x])[j]);
      }
    }
  }

  lemma CarriesUpdate(htlcs: seq<Htlc>, i: nat, y: Htlc)
    requires i < |htlcs| && Like(htlcs[i], y)
    ensures Carries(htlcs, htlcs[i := y])
  {
    hide Stage;
    var after := htlcs[i := y];
    forall j | 0 <= j < |after|
      ensures Derived(htlcs, after[j])
    {
      if j != i {
        assert Like(htlcs[j], after[j]);
      }
    }
  }

  lemma CarriesTrans(a: seq<Htlc>, b: seq<Htlc>, c: seq<Htlc>)
    requires Carries(a, b) && Carries(b, c)
    ensures Carries(a, c)
  {
    hide Stage;
    forall j | 0 <= j < |c|
      ensures Derived(a, c[j])
    {
      assert Derived(b, c[j]);
      if !Unheard(c[j]) {
        var i :| 0 <= i < |b| && Like(b[i], c[j]);
        assert Derived(a, b[i]);
        if !Unheard(b[i]) {
          var k :| 0 <= k < |a| && Like(a[k], b[i]);
          assert Like(a[k], c[j]);
        }
      }
    }
  }

  lemma SendAddCarries(c: Chan, amount: nat, paymentHash: Bytes, cltvExpiry: nat, onion: Bytes, source: Source)
    ensures var o := SendAdd(c, amount, paymentHash, cltvExpiry, onion, source);
            o.Done? ==> Carries(c.htlcs, o.chan.htlcs)
  {
    hide OutboundAddAllowed, Carries;
    var o := SendAdd(c, amount, paymentHash, cltvExpiry, onion, source);
    CarriesSame(c.htlcs);
    if o.Done? && !c.awaitingRaa {
      CarriesAppend(c.htlcs, o.chan.htlcs[|c.htlcs|]);
    }
  }

  lemma SendRemoveCarries(c: Chan, id: nat, res: Resolution)
    ensures var o := SendRemove(c, id, res); o.Done? ==> Carries(c.htlcs, o.chan.htlcs)
  {
    hide Carries;
    var o := SendRemove(c, id, res);
    CarriesSame(c.htlcs);
    if o.Done? && !c.awaitingRaa {
      var i := Find(c.htlcs, false, id).value;
      CarriesUpdate(c.htlcs, i, o.chan.htlcs[i]);
    }
  }

  lemma {:induction false} FlushCarries(c: Chan, ops: seq<HoldingOp>)
    ensures Carries(c.htlcs, Flush(c, ops).chan.htlcs)
    decreases |ops|
  {
    hide Carries, SendAdd, SendRemove;
    if ops == [] {
      CarriesSame(c.htlcs);
    } else {
      var n := |ops| - 1;
      FlushCarries(c, ops[..n]);
      var f := Flush(c, ops[..n]);
      match ops[n]
      case HoldAdd(amount, paymentHash, cltvExpiry, onion, source) =>
        SendAddCarries(f.chan, amount, paymentHash, cltvExpiry, onion, source);
        if SendAdd(f.chan, amount, paymentHash, cltvExpiry, onion, source).Done? {
          CarriesTrans(c.htlcs, f.chan.htlcs, SendAdd(f.chan, amount, paymentHash, cltvExpiry, onion, source).chan.htlcs);
        }
      case HoldRemove(id, res) =>
        SendRemoveCarries(f.chan, id, res);
        if SendRemove(f.chan, id, res).Done? {
          CarriesTrans(c.htlcs, f.chan.htlcs, SendRemove(f.chan, id, res).chan.htlcs);
        }
    }
  }

  /** Locking our side in takes an inbound HTLC at most to the stage before. */
  lemma LockLike(x: Htlc)
    requires Stage(x).Some? && !IsGone(Acknowledged(Locked(x)))
    ensures Like(x, Acknowledged(Locked(x)))
  {
  }

  lemma LockCarries(c: Chan, g: History)
    requires Inv(c, g)
    ensures Carries(c.htlcs, Kept(LockAll(c.htlcs)))
  {
    hide Inv, Stage, Like, LockAll, Kept;
    var marked := LockAll(c.htlcs);
    forall j | 0 <= j < |Kept(marked)|
      ensures Derived(c.htlcs, Kept(marked)[j])
    {
      KeptMember(marked, Kept(marked)[j]);
      var i :| 0 <= i < |marked| && marked[i] == Kept(marked)[j];
      KeptNotGone(marked, j);
      ListedOnChain(c, g, i);
      LockLike(c.htlcs[i]);
    }
  }

  lemma {:induction false} KeptNotGone(htlcs: seq<Htlc>, j: nat)
    requires j < |Kept(htlcs)|
    ensures !IsGone(Kept(htlcs)[j])
  {
    if htlcs != [] {
      var n := |htlcs| - 1;
      if j < |Kept(htlcs[..n])| {
        KeptNotGone(htlcs[..n], j);
      }
    }
  }

  lemma PeerMessageCarries(c: Chan, g: History, m: Message)
    requires Inv(c, g) && !m.RevokeAndAck?
    ensures Carries(c.htlcs, Deliver(c, m).chan.htlcs)
  {
    hide Inv, InboundAddAllowed, Carries, LockAll, Kept, AnyAcknowledged, HolderCommitmentAt, BakedBalances;
    var c' := Deliver(c, m).chan;
    CarriesSame(c.htlcs);
    match m
    case UpdateAddHtlc(_, _, _, _, _) =>
      if OnUpdateAdd(c, m).Done? { CarriesAppend(c.htlcs, c'.htlcs[|c.htlcs|]); }
    case UpdateRemoveHtlc(_, _) =>
      if OnUpdateRemove(c, m).Done? {
        var i := Find(c.htlcs, true, m.id).value;
        CarriesUpdate(c.htlcs, i, c'.htlcs[i]);
      }
    case UpdateFee(_) =>
    case CommitmentSigned(_) =>
      if OnCommitmentSigned(c, m).Done? { LockCarries(c, g); }
  }

  lemma OthersCarry(c: Chan, g: History, e: Event)
    requires Inv(c, g) && !(e.Receive? && e.message.RevokeAndAck?)
    ensures Carries(c.htlcs, React(c, e).chan.htlcs) && React(c, e).forwardable == []
  {
    hide Inv, Carries, SendAdd, SendRemove, CounterpartyCommitmentAt, KeysIn;
    CarriesSame(c.htlcs);
    match e
    case LocalAdd(amount, paymentHash, cltvExpiry, onion, source) =>
      SendAddCarries(c, amount, paymentHash, cltvExpiry, onion, source);
    case LocalRemove(id, res) => SendRemoveCarries(c, id, res);
    case LocalFee(_) =>
    case LocalSign =>
    case Receive(m) => PeerMessageCarries(c, g, m);
  }

  // ------------------------------------------------------------ the revocation

  /** `y` is `x` further along, with its data, resolution and mark. */
  ghost predicate Further(x: Htlc, y: Htlc) {
    && y.outbound == x.outbound && y.processed == x.processed && y.resolution == x.resolution
    && AsForwardable(y) == AsForwardable(x)
    && Stage(x).Some? && Stage(y).Some? && Stage(x).value <= Stage(y).value
    && (Stage(x).value >= 3 <==> x.resolution.Some?) && (Stage(y).value >= 3 <==> y.resolution.Some?)
  }

  ghost predicate FurtherIn(htlcs: seq<Htlc>, y: Htlc) {
    exists i | 0 <= i < |htlcs| :: Further(htlcs[i], y)
  }

  lemma RaaMarkKeeps(p: PendingCommitment, x: Htlc)
    ensures var y := RaaMark(p, x);
            && y.outbound == x.outbound && y.id == x.id && y.processed == x.processed && y.resolution == x.resolution
            && AsForwardable(y) == AsForwardable(x)
  {
  }

  lemma RevokeAdvances(c: Chan, g: History, marked: seq<Htlc>)
    requires Counted(c, g)
    ensures Advances(g, AfterRevoke(g, marked))
  {
  }

  lemma RevokedList(c: Chan, m: Message)
    requires m.RevokeAndAck? && Revoke(c, m).Done?
    ensures c.pending.Some? && Revoke(c, m).chan.htlcs == Kept(RaaMarked(c))
  {
    hide ApplyIncluded, ApplyRemoved, Kept, BakedBalances;
  }

  lemma RevokeFurther(c: Chan, g: History, m: Message, j: nat)
    requires Inv(c, g) && m.RevokeAndAck? && Revoke(c, m).Done? && j < |Revoke(c, m).chan.htlcs|
    ensures FurtherIn(c.htlcs, Revoke(c, m).chan.htlcs[j])
  {
    hide Inv, Revoke, Stage, RaaMarked, Kept, Indexed, Recorded, Counted, RaaMark, Advances;
    RevokedList(c, m);
    var c1, marked := Revoke(c, m).chan, RaaMarked(c);
    var g1 := AfterRevoke(g, marked);
    RevokeKeeps(c, g, m);
    var y := c1.htlcs[j];
    KeptMember(marked, y);
    var i :| 0 <= i < |marked| && marked[i] == y;
    InvParts(c, g);
    InvParts(c1, g1);
    MarkedSize(c, g);
    RaaPointwise(c, g, i);
    RaaMarkKeeps(c.pending.value, c.htlcs[i]);
    RevokeAdvances(c, g, marked);
    RecordAt(c, g, i);
    RecordAt(c1, g1, j);
    ListedOnChain(c, g, i);
    ListedOnChain(c1, g1, j);
    RecordAdvances(c, g, c1, g1, c.htlcs[i], y);
    assert Further(c.htlcs[i], y);
  }

  lemma MarkedSize(c: Chan, g: History)
    requires c.pending.Some?
    ensures |RaaMarked(c)| == |c.htlcs|
  {
  }

  lemma RecordAt(c: Chan, g: History, i: nat)
    requires Recorded(c, g) && i < |c.htlcs|
    ensures RecordAgrees(g, c.htlcs[i])
  {
  }

  lemma {:induction false} Collected(htlcs: seq<Htlc>, i: nat)
    requires i < |htlcs| && ReadyToForward(htlcs[i])
    ensures AsForwardable(htlcs[i]) in CollectForwardable(htlcs)
  {
    var n := |htlcs| - 1;
    if i < n {
      Collected(htlcs[..n], i);
    }
  }

  /** One entry across the revocation: reported now, or as before. */
  lemma EntryTold(x: Htlc, y: Htlc, reported: seq<Forwardable>, more: seq<Forwardable>)
    requires Further(x, y) && ToldOne(x, reported)
    requires ReadyToForward(y) ==> AsForwardable(y) in more
    ensures ToldOne(if ReadyToForward(y) then y.(processed := true) else y, reported + more)
  {
  }

  lemma RevokeTells(c: Chan, g: History, m: Message, reported: seq<Forwardable>)
    requires Inv(c, g) && m.RevokeAndAck? && Revoke(c, m).Done? && Told(c, reported)
    ensures var c1 := Revoke(c, m).chan;
            Told(c1.(htlcs := MarkProcessed(c1.htlcs), holdingCell := []), reported + CollectForwardable(c1.htlcs))
  {
    hide Inv, Revoke, ToldOne, Further, ReadyToForward, CollectForwardable;
    var c1 := Revoke(c, m).chan;
    var fwd := CollectForwardable(c1.htlcs);
    forall j | 0 <= j < |c1.htlcs|
      ensures ToldOne(MarkProcessed(c1.htlcs)[j], reported + fwd)
    {
      RevokeFurther(c, g, m, j);
      var y := c1.htlcs[j];
      var i :| 0 <= i < |c.htlcs| && Further(c.htlcs[i], y);
      if ReadyToForward(y) {
        Collected(c1.htlcs, j);
      }
      EntryTold(c.htlcs[i], y, reported, fwd);
    }
  }

  lemma RevocationTells(c: Chan, g: History, m: Message, reported: seq<Forwardable>)
    requires Inv(c, g) && m.RevokeAndAck? && OnRevokeAndAck(c, m).Done? && Told(c, reported)
    ensures Told(OnRevokeAndAck(c, m).chan, reported + OnRevokeAndAck(c, m).value.forwardable)
  {
    hide Inv, Revoke, Told, MarkProcessed, CollectForwardable, Flush, CounterpartyCommitmentAt, KeysIn, Carries;
    var c1 := Revoke(c, m).chan;
    RevokeTells(c, g, m, reported);
    var c2 := c1.(htlcs := MarkProcessed(c1.htlcs), holdingCell := []);
    FlushCarries(c2, c1.holdingCell);
    ToldCarried(c2, OnRevokeAndAck(c, m).chan, reported + CollectForwardable(c1.htlcs));
  }

  // ------------------------------------------------------------- whole runs

  lemma {:induction false} RunTold(c0: Chan, events: seq<Event>)
    requires Fresh(c0)
    ensures Told(Run(c0, events), Reported(c0, events))
    decreases |events|
  {
    hide Inv, Told, OnRevokeAndAck, React, Carries;
    if events == [] {
      FreshTold(c0);
    } else {
      var n := |events| - 1;
      RunTold(c0, events[..n]);
      var g := RunInv(c0, events[..n]);
      var c, reported, e := Run(c0, events[..n]), Reported(c0, events[..n]), events[n];
      if e.Receive? && e.message.RevokeAndAck? {
        RevocationReacts(c, e.message);
        if OnRevokeAndAck(c, e.message).Done? {
          RevocationTells(c, g, e.message, reported);
        } else {
          assert reported + [] == reported;
        }
      } else {
        OthersCarry(c, g, e);
        ToldCarried(c, React(c, e).chan, reported);
        assert reported + [] == reported;
      }
    }
  }

  lemma FreshTold(c0: Chan)
    requires Fresh(c0)
    ensures Told(c0, [])
  {
  }

  lemma RevocationReacts(c: Chan, m: Message)
    requires m.RevokeAndAck?
    ensures React(c, Receive(m)) ==
            if OnRevokeAndAck(c, m).Done?
            then var out := OnRevokeAndAck(c, m).value;
                 Reaction(OnRevokeAndAck(c, m).chan, out.messages, out.forwardable, out.failedAdds, [])
            else Plain(c, [])
  {
    hide OnRevokeAndAck;
  }

  /**
   * Over a whole run against any peer, a listed inbound HTLC that is or was locked in
   * on both commitments has been handed over exactly once, and one that is not yet
   * locked in has not been.
   */
  lemma HandedOverExactlyOnce(c0: Chan, events: seq<Event>, i: nat)
    requires Fresh(c0) && i < |Run(c0, events).htlcs| && !Run(c0, events).htlcs[i].outbound
    ensures var x := Run(c0, events).htlcs[i];
            var reported := Reported(c0, events);
            && (Late(x) ==> exists k | 0 <= k < |reported| ::
                  reported[k] == AsForwardable(x) && forall l | 0 <= l < |reported| && reported[l].id == x.id :: l == k)
            && (!Late(x) ==> forall l | 0 <= l < |reported| :: reported[l].id != x.id)
  {
    hide Run, Reported, Stage, Fresh;
    RunTold(c0, events);
    ReportedAccounted(c0, events);
    var x, reported := Run(c0, events).htlcs[i], Reported(c0, events);
    assert ToldOne(x, reported);
    if Late(x) {
      var k :| 0 <= k < |reported| && reported[k] == AsForwardable(x);
      forall l | 0 <= l < |reported| && reported[l].id == x.id
        ensures l == k
      {
        OneReport(reported, l, k);
      }
    } else {
      forall l | 0 <= l < |reported|
        ensures reported[l].id != x.id
      {
        assert IdAccounted(Run(c0, events), reported[l].id);
      }
    }
  }

  lemma OneReport(reported: seq<Forwardable>, l: nat, k: nat)
    requires DistinctIds(reported) && l < |reported| && k < |reported| && reported[l].id == reported[k].id
    ensures l == k
  {
  }

  /** It is handed over in the event that locks it in. */
  lemma HandedOverAtOnce(c0: Chan, events: seq<Event>, e: Event, i: nat, j: nat)
    requires Fresh(c0) && i < |Run(c0, events).htlcs| && j < |React(Run(c0, events), e).chan.htlcs|
    requires var x := Run(c0, events).htlcs[i];
             var y := React(Run(c0, events), e).chan.htlcs[j];
             !x.outbound && !y.outbound && y.id == x.id && !Late(x) && Late(y)
    ensures AsForwardable(React(Run(c0, events), e).chan.htlcs[j]) in React(Run(c0, events), e).forwardable
  {
    hide React, Stage, Fresh, Run, Reported;
    RunSnoc(c0, events, e);
    var x, y := Run(c0, events).htlcs[i], React(Run(c0, events), e).chan.htlcs[j];
    var before := Reported(c0, events);
    HandedOverExactlyOnce(c0, events, i);
    RunTold(c0, events + [e]);
    assert ToldOne(Run(c0, events + [e]).htlcs[j], Reported(c0, events + [e]));
    forall k | 0 <= k < |before|
      ensures before[k] != AsForwardable(y)
    {
      assert before[k].id != x.id;
    }
  }

  lemma RunSnoc(c0: Chan, events: seq<Event>, e: Event)
    ensures Run(c0, events + [e]) == React(Run(c0, events), e).chan
    ensures Reported(c0, events + [e]) == Reported(c0, events) + React(Run(c0, events), e).forwardable
  {
    hide React;
    assert (events + [e])[..|events|] == events;
  }
}
