/** Sending or receiving one update keeps the ledger invariant, whatever the peer does. */
module LedgerUpdates {
  import opened Wrappers
  import opened Channel
  import opened Ledger
  import opened LedgerFacts
  import opened Sums

  // ------------------------------------------------------------ growing logs

  ghost predicate Extends(g: History, g': History) {
    g.sent <= g'.sent && g.recv <= g'.recv && g'.initial == g.initial && g'.initialFeerate == g.initialFeerate
  }

  lemma {:induction false} LogSumPrefix(mt: Meter, log: seq<Update>, log': seq<Update>, n: nat, own: bool)
    requires log <= log' && n <= |log|
    ensures LogSum(mt, log', n, own) == LogSum(mt, log, n, own)
    decreases n
  {
    if n > 0 { LogSumPrefix(mt, log, log', n - 1, own); }
  }

  lemma {:induction false} LastFeePrefix(log: seq<Update>, log': seq<Update>, n: nat, initial: nat)
    requires log <= log' && n <= |log|
    ensures LastFee(log', n, initial) == LastFee(log, n, initial)
    decreases n
  {
    if n > 0 { LastFeePrefix(log, log', n - 1, initial); }
  }

  /** Fee updates are the only entries that move the fee rate. */
  lemma {:induction false} LastFeeSkip(log: seq<Update>, n: nat, n': nat, initial: nat)
    requires n <= n' <= |log|
    requires forall i | n <= i < n' :: !log[i].Fee?
    ensures LastFee(log, n', initial) == LastFee(log, n, initial)
    decreases n'
  {
    if n < n' { LastFeeSkip(log, n, n' - 1, initial); }
  }

  lemma ReadingExtends(mt: Meter, g: History, g': History, a: nat, b: nat)
    requires Extends(g, g') && a <= |g.sent| && b <= |g.recv|
    ensures Reading(mt, g', a, b) == Reading(mt, g, a, b)
  {
    LogSumPrefix(mt, g.sent, g'.sent, a, true);
    LogSumPrefix(mt, g.recv, g'.recv, b, false);
  }

  lemma FeeExtends(role: Role, g: History, g': History, a: nat, b: nat)
    requires Extends(g, g') && a <= |g.sent| && b <= |g.recv|
    ensures FeeAt(role, g', a, b) == FeeAt(role, g, a, b)
  {
    LastFeePrefix(g.sent, g'.sent, a, g.initialFeerate);
    LastFeePrefix(g.recv, g'.recv, b, g.initialFeerate);
  }

  lemma ReflectsExtends(v: Commitment, role: Role, g: History, g': History, holderSide: bool, a: nat, b: nat)
    requires Extends(g, g') && Reflects(v, role, g, holderSide, a, b)
    ensures Reflects(v, role, g', holderSide, a, b)
  {
    ReadingExtends(HolderMeter(), g, g', a, b);
    ReadingExtends(CounterpartyMeter(), g, g', a, b);
    FeeExtends(role, g, g', a, b);
    forall out ensures Reading(OutputMeter(out, holderSide), g', a, b) == v.htlcs[out] {
      ReadingExtends(OutputMeter(out, holderSide), g, g', a, b);
    }
  }

  lemma OwnBalanceExtends(g: History, g': History, a: nat, b: nat)
    requires Extends(g, g') && a <= |g.sent| && b <= |g.recv|
    ensures OwnBalance(g', a, b) == OwnBalance(g, a, b)
    ensures PeerBalance(g', a, b) == PeerBalance(g, a, b)
  {
    ReadingExtends(HolderMeter(), g, g', a, b);
    ReadingExtends(CounterpartyMeter(), g, g', a, b);
  }

  lemma SolventAfterSend(g: History, g': History, u: Update)
    requires Solvent(g) && g.peerLocked <= |g.recv| && g.ownAcked <= |g.sent|
    requires g'.sent == g.sent + [u] && g'.recv == g.recv && g'.initial == g.initial
    requires g'.initialFeerate == g.initialFeerate
    requires g'.sentLevel == g.sentLevel + [g.peerLocked] && g'.recvLevel == g.recvLevel
    requires g'.peerLocked == g.peerLocked && g'.ownAcked == g.ownAcked
    requires OwnBalance(g, |g.sent|, g.peerLocked) + Delta(HolderMeter(), u, true) >= 0
    ensures Solvent(g')
  {
    assert Extends(g, g');
    forall a | 0 <= a <= |g'.sent| ensures OwnSolventAt(g', a) {
      if a <= |g.sent| {
        assert OwnSolventAt(g, a);
        OwnBalanceExtends(g, g', a, SentLevelAt(g, a));
      } else {
        OwnBalanceExtends(g, g', |g.sent|, g.peerLocked);
      }
    }
    forall b | 0 <= b <= |g'.recv| ensures PeerSolventAt(g', b) {
      assert PeerSolventAt(g, b);
      OwnBalanceExtends(g, g', RecvLevelAt(g, b), b);
    }
  }

  lemma SolventAfterRecv(g: History, g': History, u: Update)
    requires Solvent(g) && g.peerLocked <= |g.recv| && g.ownAcked <= |g.sent|
    requires g'.recv == g.recv + [u] && g'.sent == g.sent && g'.initial == g.initial
    requires g'.initialFeerate == g.initialFeerate
    requires g'.recvLevel == g.recvLevel + [g.ownAcked] && g'.sentLevel == g.sentLevel
    requires g'.peerLocked == g.peerLocked && g'.ownAcked == g.ownAcked
    requires PeerBalance(g, g.ownAcked, |g.recv|) + Delta(CounterpartyMeter(), u, false) >= 0
    ensures Solvent(g')
  {
    assert Extends(g, g');
    forall b | 0 <= b <= |g'.recv| ensures PeerSolventAt(g', b) {
      if b <= |g.recv| {
        assert PeerSolventAt(g, b);
        OwnBalanceExtends(g, g', RecvLevelAt(g, b), b);
      } else {
        OwnBalanceExtends(g, g', g.ownAcked, |g.recv|);
      }
    }
    forall a | 0 <= a <= |g'.sent| ensures OwnSolventAt(g', a) {
      assert OwnSolventAt(g, a);
      OwnBalanceExtends(g, g', a, SentLevelAt(g, a));
    }
  }

  // ---------------------------------------------------------- finding entries

  lemma FindAppend(htlcs: seq<Htlc>, x: Htlc, outbound: bool, id: nat)
    requires Find(htlcs, outbound, id).Some? || (x.outbound == outbound && x.id == id)
    ensures Find(htlcs + [x], outbound, id).Some?
  {
    var r := Find(htlcs, outbound, id);
    if r.Some? {
      assert (htlcs + [x])[r.value] == htlcs[r.value];
    } else {
      assert (htlcs + [x])[|htlcs|] == x;
    }
  }

  lemma FindSameKeys(htlcs: seq<Htlc>, htlcs': seq<Htlc>, outbound: bool, id: nat)
    requires |htlcs'| == |htlcs|
    requires forall i | 0 <= i < |htlcs| :: htlcs'[i].outbound == htlcs[i].outbound && htlcs'[i].id == htlcs[i].id
    requires Find(htlcs, outbound, id).Some?
    ensures Find(htlcs', outbound, id).Some?
  {
    var r := Find(htlcs, outbound, id);
    assert htlcs'[r.value].outbound == outbound;
  }

  // ------------------------------------------------------ we offer an HTLC

  ghost predicate PushedOut(c: Chan, c': Chan, x: Htlc) {
    && x.outbound && x.id == c.nextHolderId && x.resolution.None? && x.source.Some?
    && x.phaseHolder.NotYet? && x.phaseCounterparty.Pending?
    && c' == c.(nextHolderId := c.nextHolderId + 1, htlcs := c.htlcs + [x], dirty := true)
  }

  /** An update that does not touch `x` leaves its record in agreement. */
  lemma RecordExtends(g: History, g': History, x: Htlc)
    requires RecordAgrees(g, x) && Extends(g, g') && SameCounters(g, g')
    requires InRange(g', x) && IxOf(g', x) == IxOf(g, x)
    ensures RecordAgrees(g', x)
  {
  }

  lemma InOrderExtends(g: History, g': History, x: Htlc, y: Htlc)
    requires InRange(g, x) && InRange(g, y) && InOrder(g, x, y)
    requires InRange(g', x) && IxOf(g', x) == IxOf(g, x)
    requires InRange(g', y) && IxOf(g', y) == IxOf(g, y)
    ensures InOrder(g', x, y)
  {
  }

  /** The share of an untouched HTLC depends on old entries only, so limits
      past the old logs may be clipped to them. */
  lemma ShareExtends(mt: Meter, g: History, g': History, x: Htlc, a: nat, b: nat)
    requires Indexed(g) && RecordAgrees(g, x)
    requires InRange(g', x) && IxOf(g', x) == IxOf(g, x)
    ensures var a0 := if a <= |g.sent| then a else |g.sent|;
            var b0 := if b <= |g.recv| then b else |g.recv|;
            Share(mt, g', x, a, b) == Share(mt, g, x, a0, b0)
  {
    OldIndexBelow(g, x);
  }

  lemma SendAddIndexed(g: History, d: Data)
    requires Indexed(g)
    ensures Indexed(AfterSendAdd(g, d))
  {
    var g' := AfterSendAdd(g, d);
    IndexAppend(g.outIx, g.sent, g.recv, g.ownLocked, d);
    IndexIgnoresAdd(g.inIx, g.recv, g.sent, g.peerFinal, Add(|g.outIx|, d));
  }

  /** A new add extends its own direction's table ... */
  lemma IndexAppend(ixs: seq<Ix>, adds: seq<Update>, rems: seq<Update>, final: nat, d: Data)
    requires IndexAgrees(ixs, adds, rems, final)
    ensures IndexAgrees(ixs + [Ix(|adds|, None)], adds + [Add(|ixs|, d)], rems, final)
  {
    var ixs', adds' := ixs + [Ix(|adds|, None)], adds + [Add(|ixs|, d)];
    forall id | 0 <= id < |ixs'| ensures AddAgrees(ixs'[id], id, adds') && RemAgrees(ixs'[id], id, adds', rems, final) {
      if id < |ixs| { assert AddAgrees(ixs[id], id, adds) && RemAgrees(ixs[id], id, adds, rems, final); }
    }
  }

  /** ... and means nothing to the other one. */
  lemma IndexIgnoresAdd(ixs: seq<Ix>, adds: seq<Update>, rems: seq<Update>, final: nat, u: Update)
    requires IndexAgrees(ixs, adds, rems, final) && !u.Remove?
    ensures IndexAgrees(ixs, adds, rems + [u], final)
  {
    forall id | 0 <= id < |ixs| ensures RemAgrees(ixs[id], id, adds, rems + [u], final) {
      assert RemAgrees(ixs[id], id, adds, rems, final);
    }
  }

  lemma SendAddRecorded(c: Chan, g: History, c': Chan, x: Htlc)
    requires Counted(c, g) && Indexed(g) && Recorded(c, g)
    requires PushedOut(c, c', x)
    ensures Recorded(c', AfterSendAdd(g, DataOf(x)))
  {
    var g' := AfterSendAdd(g, DataOf(x));
    assert g'.outIx[x.id] == Ix(|g.sent|, None);
    forall i | 0 <= i < |c'.htlcs| ensures RecordAgrees(g', c'.htlcs[i]) {
      if i < |c.htlcs| { assert RecordAgrees(g, c.htlcs[i]); RecordExtends(g, g', c.htlcs[i]); }
    }
    forall i, j | 0 <= i < j < |c'.htlcs| ensures InOrder(g', c'.htlcs[i], c'.htlcs[j]) {
      assert RecordAgrees(g, c.htlcs[i]);
      if j < |c.htlcs| {
        assert RecordAgrees(g, c.htlcs[j]);
        InOrderExtends(g, g', c.htlcs[i], c.htlcs[j]);
      }
    }
    AppendComplete(c, g, c'.htlcs, g', x);
  }

  /** Appending keeps every listed id findable. */
  lemma AppendComplete(c: Chan, g: History, htlcs': seq<Htlc>, g': History, x: Htlc)
    requires Recorded(c, g) && htlcs' == c.htlcs + [x] && SameCounters(g, g')
    requires g.outIx <= g'.outIx && g.inIx <= g'.inIx
    requires |g'.outIx| == |g.outIx| || (x.outbound && x.id == |g.outIx| && |g'.outIx| == |g.outIx| + 1)
    requires |g'.inIx| == |g.inIx| || (!x.outbound && x.id == |g.inIx| && |g'.inIx| == |g.inIx| + 1)
    ensures forall id | 0 <= id < |g'.outIx| :: OutGone(g', g'.outIx[id]) || Find(htlcs', true, id).Some?
    ensures forall id | 0 <= id < |g'.inIx| :: InGone(g', g'.inIx[id]) || Find(htlcs', false, id).Some?
  {
    forall id | 0 <= id < |g'.outIx| ensures OutGone(g', g'.outIx[id]) || Find(htlcs', true, id).Some? {
      if id < |g.outIx| { assert OutGone(g, g.outIx[id]) || Find(c.htlcs, true, id).Some?; }
      if !OutGone(g', g'.outIx[id]) { FindAppend(c.htlcs, x, true, id); }
    }
    forall id | 0 <= id < |g'.inIx| ensures InGone(g', g'.inIx[id]) || Find(htlcs', false, id).Some? {
      if id < |g.inIx| { assert InGone(g, g.inIx[id]) || Find(c.htlcs, false, id).Some?; }
      if !InGone(g', g'.inIx[id]) { FindAppend(c.htlcs, x, false, id); }
    }
  }

  lemma SendAddMeter(c: Chan, g: History, c': Chan, x: Htlc, mt: Meter, a: nat, b: nat)
    requires Counted(c, g) && Indexed(g) && Recorded(c, g)
    requires g.ownLocked <= a <= |g.sent| + 1 && g.peerFinal <= b <= |g.recv|
    requires MeterAgrees(c, g, mt, if a <= |g.sent| then a else |g.sent|, b)
    requires PushedOut(c, c', x)
    ensures MeterAgrees(c', AfterSendAdd(g, DataOf(x)), mt, a, b)
  {
    var g' := AfterSendAdd(g, DataOf(x));
    var a0 := if a <= |g.sent| then a else |g.sent|;
    ListUntouched(mt, c, g, g', a, b);
    SumSnoc((y: Htlc) => Share(mt, g', y, a, b), c.htlcs, x);
    assert Share(mt, g', x, a, b) == if a <= |g.sent| then 0 else mt.escrow(true, DataOf(x));
    ReadingAfterSend(mt, g, g', Add(x.id, DataOf(x)), a, b);
  }

  lemma ReadingAfterSend(mt: Meter, g: History, g': History, u: Update, a: nat, b: nat)
    requires g'.sent == g.sent + [u] && g'.recv == g.recv && a <= |g'.sent| && b <= |g.recv|
    ensures Reading(mt, g', a, b) ==
            if a <= |g.sent| then Reading(mt, g, a, b)
            else Reading(mt, g, |g.sent|, b) + Delta(mt, u, true)
  {
    var a0 := if a <= |g.sent| then a else |g.sent|;
    LogSumPrefix(mt, g.sent, g'.sent, a0, true);
  }

  lemma ReadingAfterRecv(mt: Meter, g: History, g': History, u: Update, a: nat, b: nat)
    requires g'.recv == g.recv + [u] && g'.sent == g.sent && b <= |g'.recv| && a <= |g.sent|
    ensures Reading(mt, g', a, b) ==
            if b <= |g.recv| then Reading(mt, g, a, b)
            else Reading(mt, g, a, |g.recv|) + Delta(mt, u, false)
  {
    var b0 := if b <= |g.recv| then b else |g.recv|;
    LogSumPrefix(mt, g.recv, g'.recv, b0, false);
  }

  /** A step that touches no listed HTLC leaves the list's sum alone. */
  lemma ListUntouched(mt: Meter, c: Chan, g: History, g': History, a: nat, b: nat)
    requires Indexed(g) && Recorded(c, g)
    requires g.outIx <= g'.outIx && g.inIx <= g'.inIx
    ensures var a0 := if a <= |g.sent| then a else |g.sent|;
            var b0 := if b <= |g.recv| then b else |g.recv|;
            ListSum(mt, g', c.htlcs, a, b) == ListSum(mt, g, c.htlcs, a0, b0)
  {
    var a0 := if a <= |g.sent| then a else |g.sent|;
    var b0 := if b <= |g.recv| then b else |g.recv|;
    var f := (y: Htlc) => Share(mt, g, y, a0, b0);
    var f' := (y: Htlc) => Share(mt, g', y, a, b);
    forall i | 0 <= i < |c.htlcs| ensures f'(c.htlcs[i]) == f(c.htlcs[i]) {
      assert RecordAgrees(g, c.htlcs[i]);
      ShareExtends(mt, g, g', c.htlcs[i], a, b);
    }
    SumCong(f', c.htlcs, f, c.htlcs);
  }

  /** Indices recorded so far lie inside the logs. */
  lemma OldIndexBelow(g: History, y: Htlc)
    requires Indexed(g) && InRange(g, y)
    ensures var ix := IxOf(g, y);
            var (adds, rems) := if y.outbound then (g.sent, g.recv) else (g.recv, g.sent);
            && ix.add < |adds| && (ix.rem.Some? ==> ix.rem.value < |rems|)
            && (ix.rem.Some? ==> if y.outbound then ix.add < g.ownLocked else ix.add < g.peerFinal)
  {
    if y.outbound {
      assert AddAgrees(g.outIx[y.id], y.id, g.sent);
      assert RemAgrees(g.outIx[y.id], y.id, g.sent, g.recv, g.ownLocked);
    } else {
      assert AddAgrees(g.inIx[y.id], y.id, g.recv);
      assert RemAgrees(g.inIx[y.id], y.id, g.recv, g.sent, g.peerFinal);
    }
  }

  /** What every update leaves alone besides the list and the logs. */
  ghost predicate SameCounters(g: History, g': History) {
    && g'.ownLocked == g.ownLocked && g'.ownAcked == g.ownAcked && g'.ownSigned == g.ownSigned
    && g'.peerFinal == g.peerFinal && g'.peerSigned == g.peerSigned && g'.peerLocked == g.peerLocked
    && g'.settled == g.settled
  }

  /** Stored commitments and the snapshot survive an update. */
  lemma StoredSurvives(c: Chan, g: History, c': Chan, g': History)
    requires Counted(c, g) && Stored(c, g) && Extends(g, g') && SameCounters(g, g')
    requires c'.pending == c.pending && c'.currentHolder == c.currentHolder
    requires c'.currentCounterparty == c.currentCounterparty && c'.role == c.role
    requires c.pending.Some? ==>
               forall i | 0 <= i < |c'.htlcs| :: SnapshotAgrees(c.pending.value, g', c'.htlcs[i])
    requires |g.outIx| <= |g'.outIx| && |g.inIx| <= |g'.inIx|
    ensures Stored(c', g')
  {
    if c.pending.Some? {
      ReflectsExtends(c.pending.value.info, c.role, g, g', false, g.ownSigned, g.peerSigned);
    }
    ReflectsExtends(c.currentHolder.value, c.role, g, g', true, g.ownLocked, g.peerLocked);
    ReflectsExtends(c.currentCounterparty.value, c.role, g, g', false, g.ownAcked, g.peerFinal);
  }

  /** ... and so do the fee rates, when the update is not a fee update. */
  lemma FeesSurvive(c: Chan, g: History, c': Chan, g': History)
    requires Counted(c, g) && Counted(c', g') && FeesAgree(c, g) && Extends(g, g') && SameCounters(g, g')
    requires c'.feerateHolder == c.feerateHolder && c'.feerateCounterparty == c.feerateCounterparty
    requires c'.pendingFeeAck == c.pendingFeeAck && c'.pending == c.pending && c'.role == c.role
    requires |g'.sent| <= |g.sent| + 1 && |g'.recv| <= |g.recv| + 1
    requires |g'.sent| > |g.sent| ==> !g'.sent[|g.sent|].Fee?
    requires |g'.recv| > |g.recv| ==> !g'.recv[|g.recv|].Fee?
    ensures FeesAgree(c', g')
  {
    var init := g.initialFeerate;
    LastFeePrefix(g.sent, g'.sent, g.ownAcked, init);
    LastFeePrefix(g.sent, g'.sent, g.ownSigned, init);
    LastFeePrefix(g.sent, g'.sent, |g.sent|, init);
    LastFeePrefix(g.recv, g'.recv, g.peerLocked, init);
    LastFeePrefix(g.recv, g'.recv, g.peerSigned, init);
    LastFeePrefix(g.recv, g'.recv, |g.recv|, init);
    LastFeeSkip(g'.sent, |g.sent|, |g'.sent|, init);
    LastFeeSkip(g'.recv, |g.recv|, |g'.recv|, init);
  }

  lemma SendAddKeeps(c: Chan, g: History, c': Chan, x: Htlc)
    requires Inv(c, g) && !c.awaitingRaa
    requires PushedOut(c, c', x)
    requires BalancesFor(c, false).holder >= x.amount
    ensures Inv(c', AfterSendAdd(g, DataOf(x)))
  {
    hide Recorded, Indexed;
    var g' := AfterSendAdd(g, DataOf(x));
    SendAddIndexed(g, DataOf(x));
    SendAddRecorded(c, g, c', x);
    forall mt: Meter, a: nat, b: nat ensures MeterAgrees(c', g', mt, a, b) {
      if g'.ownLocked <= a <= |g'.sent| && g'.peerFinal <= b <= |g'.recv| {
        SendAddMeter(c, g, c', x, mt, a, b);
      }
    }
    ExactBalances(c, g, false);
    SolventAfterSend(g, g', Add(x.id, DataOf(x)));
    StoredSurvives(c, g, c', g');
    FeesSurvive(c, g, c', g');
  }

  // --------------------------------------------------- the peer offers an HTLC

  ghost predicate PushedIn(c: Chan, c': Chan, x: Htlc) {
    && !x.outbound && x.id == c.nextCounterpartyId && x.resolution.None?
    && x.phaseHolder.Pending? && x.phaseCounterparty.NotYet?
    && c' == c.(nextCounterpartyId := c.nextCounterpartyId + 1, htlcs := c.htlcs + [x])
  }

  lemma RecvAddIndexed(g: History, d: Data)
    requires Indexed(g)
    ensures Indexed(AfterRecvAdd(g, d))
  {
    IndexAppend(g.inIx, g.recv, g.sent, g.peerFinal, d);
    IndexIgnoresAdd(g.outIx, g.sent, g.recv, g.ownLocked, Add(|g.inIx|, d));
  }

  lemma RecvAddRecorded(c: Chan, g: History, c': Chan, x: Htlc)
    requires Counted(c, g) && Indexed(g) && Recorded(c, g)
    requires PushedIn(c, c', x)
    ensures Recorded(c', AfterRecvAdd(g, DataOf(x)))
  {
    var g' := AfterRecvAdd(g, DataOf(x));
    assert g'.inIx[x.id] == Ix(|g.recv|, None);
    forall i | 0 <= i < |c'.htlcs| ensures RecordAgrees(g', c'.htlcs[i]) {
      if i < |c.htlcs| { assert RecordAgrees(g, c.htlcs[i]); RecordExtends(g, g', c.htlcs[i]); }
    }
    forall i, j | 0 <= i < j < |c'.htlcs| ensures InOrder(g', c'.htlcs[i], c'.htlcs[j]) {
      assert RecordAgrees(g, c.htlcs[i]);
      if j < |c.htlcs| {
        assert RecordAgrees(g, c.htlcs[j]);
        InOrderExtends(g, g', c.htlcs[i], c.htlcs[j]);
      }
    }
    AppendComplete(c, g, c'.htlcs, g', x);
  }

  lemma RecvAddMeter(c: Chan, g: History, c': Chan, x: Htlc, mt: Meter, a: nat, b: nat)
    requires Counted(c, g) && Indexed(g) && Recorded(c, g)
    requires g.ownLocked <= a <= |g.sent| && g.peerFinal <= b <= |g.recv| + 1
    requires MeterAgrees(c, g, mt, a, if b <= |g.recv| then b else |g.recv|)
    requires PushedIn(c, c', x)
    ensures MeterAgrees(c', AfterRecvAdd(g, DataOf(x)), mt, a, b)
  {
    var g' := AfterRecvAdd(g, DataOf(x));
    ListUntouched(mt, c, g, g', a, b);
    SumSnoc((y: Htlc) => Share(mt, g', y, a, b), c.htlcs, x);
    assert Share(mt, g', x, a, b) == if b <= |g.recv| then 0 else mt.escrow(false, DataOf(x));
    ReadingAfterRecv(mt, g, g', Add(x.id, DataOf(x)), a, b);
  }

  lemma RecvAddSnapshot(c: Chan, g: History, c': Chan, x: Htlc)
    requires Counted(c, g) && Stored(c, g) && PushedIn(c, c', x) && c.pending.Some?
    ensures var g' := AfterRecvAdd(g, DataOf(x));
            forall i | 0 <= i < |c'.htlcs| :: SnapshotAgrees(c.pending.value, g', c'.htlcs[i])
  {
    var g' := AfterRecvAdd(g, DataOf(x));
    forall i | 0 <= i < |c'.htlcs| ensures SnapshotAgrees(c.pending.value, g', c'.htlcs[i]) {
      if i < |c.htlcs| { assert SnapshotAgrees(c.pending.value, g, c.htlcs[i]); }
    }
  }

  lemma RecvAddKeeps(c: Chan, g: History, c': Chan, x: Htlc)
    requires Inv(c, g)
    requires PushedIn(c, c', x)
    requires BalancesFor(c, true).counterparty >= x.amount
    ensures Inv(c', AfterRecvAdd(g, DataOf(x)))
  {
    hide Recorded, Indexed, Stored;
    var g' := AfterRecvAdd(g, DataOf(x));
    RecvAddIndexed(g, DataOf(x));
    RecvAddRecorded(c, g, c', x);
    forall mt: Meter, a: nat, b: nat ensures MeterAgrees(c', g', mt, a, b) {
      if g'.ownLocked <= a <= |g'.sent| && g'.peerFinal <= b <= |g'.recv| {
        RecvAddMeter(c, g, c', x, mt, a, b);
      }
    }
    ExactBalances(c, g, true);
    SolventAfterRecv(g, g', Add(x.id, DataOf(x)));
    if c.pending.Some? { RecvAddSnapshot(c, g, c', x); }
    StoredSurvives(c, g, c', g');
    FeesSurvive(c, g, c', g');
  }

  // ------------------------------------------------------------- removals

  /** A removal at position `i`: only that entry's resolution and phases, and
      its index, change. */
  ghost predicate Touched(c: Chan, g: History, c': Chan, g': History, i: nat, outbound: bool) {
    && i < |c.htlcs| && c.htlcs[i].outbound == outbound
    && |c'.htlcs| == |c.htlcs|
    && (forall j | 0 <= j < |c.htlcs| && j != i :: c'.htlcs[j] == c.htlcs[j])
    && c'.htlcs[i].outbound == outbound && c'.htlcs[i].id == c.htlcs[i].id
    && DataOf(c'.htlcs[i]) == DataOf(c.htlcs[i])
    && (if outbound
        then c.htlcs[i].id < |g.outIx| && g'.inIx == g.inIx && |g'.outIx| == |g.outIx| &&
             forall id | 0 <= id < |g.outIx| && id != c.htlcs[i].id :: g'.outIx[id] == g.outIx[id]
        else c.htlcs[i].id < |g.inIx| && g'.outIx == g.outIx && |g'.inIx| == |g.inIx| &&
             forall id | 0 <= id < |g.inIx| && id != c.htlcs[i].id :: g'.inIx[id] == g.inIx[id])
  }

  lemma OthersUntouched(c: Chan, g: History, c': Chan, g': History, i: nat, outbound: bool, j: nat)
    requires Recorded(c, g) && Touched(c, g, c', g', i, outbound) && j < |c.htlcs| && j != i
    ensures InRange(g, c.htlcs[j]) && InRange(g', c.htlcs[j]) && IxOf(g', c.htlcs[j]) == IxOf(g, c.htlcs[j])
  {
    assert RecordAgrees(g, c.htlcs[i]) && RecordAgrees(g, c.htlcs[j]);
    if i < j { assert InOrder(g, c.htlcs[i], c.htlcs[j]); } else { assert InOrder(g, c.htlcs[j], c.htlcs[i]); }
  }

  lemma RemoveRecorded(c: Chan, g: History, c': Chan, g': History, i: nat, outbound: bool)
    requires Counted(c, g) && Indexed(g) && Recorded(c, g) && Touched(c, g, c', g', i, outbound)
    requires Extends(g, g') && SameCounters(g, g')
    requires RecordAgrees(g', c'.htlcs[i])
    requires IxOf(g', c'.htlcs[i]).rem == Some(if outbound then |g.recv| else |g.sent|)
    requires IxOf(g', c'.htlcs[i]).add == IxOf(g, c.htlcs[i]).add
    requires !OutGone(g, IxOf(g, c.htlcs[i])) && !InGone(g, IxOf(g, c.htlcs[i]))
    ensures Recorded(c', g')
  {
    forall j | 0 <= j < |c'.htlcs| ensures RecordAgrees(g', c'.htlcs[j]) {
      if j != i {
        assert RecordAgrees(g, c.htlcs[j]);
        OthersUntouched(c, g, c', g', i, outbound, j);
        RecordExtends(g, g', c.htlcs[j]);
      }
    }
    forall j, k | 0 <= j < k < |c'.htlcs| ensures InOrder(g', c'.htlcs[j], c'.htlcs[k]) {
      RemoveInOrder(c, g, c', g', i, outbound, j, k);
    }
    RemoveComplete(c, g, c', g', i, outbound);
  }

  lemma RemoveInOrder(c: Chan, g: History, c': Chan, g': History, i: nat, outbound: bool, j: nat, k: nat)
    requires Indexed(g) && Recorded(c, g) && Touched(c, g, c', g', i, outbound) && j < k < |c'.htlcs|
    requires InRange(g', c'.htlcs[i])
    requires IxOf(g', c'.htlcs[i]).rem == Some(if outbound then |g.recv| else |g.sent|)
    requires IxOf(g', c'.htlcs[i]).add == IxOf(g, c.htlcs[i]).add
    ensures InOrder(g', c'.htlcs[j], c'.htlcs[k])
  {
    assert RecordAgrees(g, c.htlcs[j]) && RecordAgrees(g, c.htlcs[k]);
    assert InOrder(g, c.htlcs[j], c.htlcs[k]);
    OldIndexBelow(g, c.htlcs[j]);
    if j != i { OthersUntouched(c, g, c', g', i, outbound, j); }
    if k != i { OthersUntouched(c, g, c', g', i, outbound, k); }
  }

  lemma RemoveComplete(c: Chan, g: History, c': Chan, g': History, i: nat, outbound: bool)
    requires Counted(c, g) && Recorded(c, g) && Touched(c, g, c', g', i, outbound) && SameCounters(g, g')
    ensures forall id | 0 <= id < |g'.outIx| :: OutGone(g', g'.outIx[id]) || Find(c'.htlcs, true, id).Some?
    ensures forall id | 0 <= id < |g'.inIx| :: InGone(g', g'.inIx[id]) || Find(c'.htlcs, false, id).Some?
  {
    forall id | 0 <= id < |g'.outIx| ensures OutGone(g', g'.outIx[id]) || Find(c'.htlcs, true, id).Some? {
      if outbound && id == c.htlcs[i].id {
        assert c'.htlcs[i].outbound && c'.htlcs[i].id == id;
      } else {
        assert OutGone(g, g.outIx[id]) || Find(c.htlcs, true, id).Some?;
        if Find(c.htlcs, true, id).Some? { FindSameKeys(c.htlcs, c'.htlcs, true, id); }
      }
    }
    forall id | 0 <= id < |g'.inIx| ensures InGone(g', g'.inIx[id]) || Find(c'.htlcs, false, id).Some? {
      if !outbound && id == c.htlcs[i].id {
        assert !c'.htlcs[i].outbound && c'.htlcs[i].id == id;
      } else {
        assert InGone(g, g.inIx[id]) || Find(c.htlcs, false, id).Some?;
        if Find(c.htlcs, false, id).Some? { FindSameKeys(c.htlcs, c'.htlcs, false, id); }
      }
    }
  }

  /** The list's sum moves by what the touched HTLC's share moves. */
  lemma RemoveListSum(mt: Meter, c: Chan, g: History, c': Chan, g': History, i: nat, outbound: bool, a: nat, b: nat)
    requires Indexed(g) && Recorded(c, g) && Touched(c, g, c', g', i, outbound)
    ensures var a0 := if a <= |g.sent| then a else |g.sent|;
            var b0 := if b <= |g.recv| then b else |g.recv|;
            ListSum(mt, g', c'.htlcs, a, b) ==
            ListSum(mt, g, c.htlcs, a0, b0) - Share(mt, g, c.htlcs[i], a0, b0) + Share(mt, g', c'.htlcs[i], a, b)
  {
    var a0 := if a <= |g.sent| then a else |g.sent|;
    var b0 := if b <= |g.recv| then b else |g.recv|;
    var f := (y: Htlc) => Share(mt, g, y, a0, b0);
    var f' := (y: Htlc) => Share(mt, g', y, a, b);
    hide Indexed, Recorded, Sum, Share;
    SplitAt(f, c.htlcs, i);
    SplitAt(f', c'.htlcs, i);
    forall j | 0 <= j < |c.htlcs| && j != i ensures f'(c'.htlcs[j]) == f(c.htlcs[j]) {
      OtherShare(mt, c, g, c', g', i, outbound, j, a, b);
    }
    SumsElsewhere(f', c'.htlcs, f, c.htlcs, i);
  }

  lemma SumsElsewhere<T>(f': T -> int, s': seq<T>, f: T -> int, s: seq<T>, i: nat)
    requires i < |s| == |s'| && forall j | 0 <= j < |s| && j != i :: f'(s'[j]) == f(s[j])
    ensures Sum(f', s'[..i]) == Sum(f, s[..i]) && Sum(f', s'[i + 1..]) == Sum(f, s[i + 1..])
  {
    SumCong(f', s'[..i], f, s[..i]);
    SumCong(f', s'[i + 1..], f, s[i + 1..]);
  }

  lemma OtherShare(
    mt: Meter, c: Chan, g: History, c': Chan, g': History, i: nat, outbound: bool, j: nat, a: nat, b: nat)
    requires Indexed(g) && Recorded(c, g) && Touched(c, g, c', g', i, outbound) && j < |c.htlcs| && j != i
    ensures j < |c'.htlcs| && Share(mt, g', c'.htlcs[j], a, b) ==
            Share(mt, g, c.htlcs[j], if a <= |g.sent| then a else |g.sent|, if b <= |g.recv| then b else |g.recv|)
  {
    assert RecordAgrees(g, c.htlcs[j]);
    hide Recorded;
    OthersUntouched(c, g, c', g', i, outbound, j);
    ShareExtends(mt, g, g', c.htlcs[j], a, b);
  }

  lemma SplitAt<T>(f: T -> int, s: seq<T>, i: nat)
    requires i < |s|
    ensures Sum(f, s) == Sum(f, s[..i]) + f(s[i]) + Sum(f, s[i + 1..])
  {
    assert s == (s[..i] + [s[i]]) + s[i + 1..];
    SumSnoc(f, s[..i], s[i]);
    SumCat(f, s[..i] + [s[i]], s[i + 1..]);
  }

  lemma IndexRemoved(ixs: seq<Ix>, adds: seq<Update>, rems: seq<Update>, final: nat, id: nat, u: Update)
    requires IndexAgrees(ixs, adds, rems, final) && id < |ixs| && ixs[id].rem.None? && ixs[id].add < final
    requires u.Remove? && u.id == id && u.data == adds[ixs[id].add].data
    ensures IndexAgrees(ixs[id := ixs[id].(rem := Some(|rems|))], adds, rems + [u], final)
  {
    var ixs' := ixs[id := ixs[id].(rem := Some(|rems|))];
    forall x | 0 <= x < |ixs'| ensures AddAgrees(ixs'[x], x, adds) && RemAgrees(ixs'[x], x, adds, rems + [u], final) {
      assert AddAgrees(ixs[x], x, adds) && RemAgrees(ixs[x], x, adds, rems, final);
    }
  }

  lemma IndexIgnoresRemove(ixs: seq<Ix>, adds: seq<Update>, rems: seq<Update>, final: nat, u: Update)
    requires IndexAgrees(ixs, adds, rems, final) && !u.Add?
    ensures IndexAgrees(ixs, adds + [u], rems, final)
  {
    forall x | 0 <= x < |ixs| ensures AddAgrees(ixs[x], x, adds + [u]) && RemAgrees(ixs[x], x, adds + [u], rems, final) {
      assert AddAgrees(ixs[x], x, adds) && RemAgrees(ixs[x], x, adds, rems, final);
    }
  }

  // ----------------------------------------------------- we resolve an HTLC

  ghost predicate ResolvedIn(c: Chan, c': Chan, i: nat, res: Resolution) {
    && i < |c.htlcs| && !c.htlcs[i].outbound && Irrevocable(c.htlcs[i])
    && c' == c.(htlcs := c.htlcs[i := c.htlcs[i].(resolution := Some(res), phaseCounterparty := Removing)], dirty := true)
  }

  lemma SendRemoveTouches(c: Chan, g: History, c': Chan, i: nat, res: Resolution)
    requires Counted(c, g) && Indexed(g) && Recorded(c, g) && ResolvedIn(c, c', i, res)
    ensures var x := c.htlcs[i];
            && InRange(g, x) && x.id < |g.inIx| && g.inIx[x.id].rem.None? && g.inIx[x.id].add < g.peerFinal
            && var g' := AfterSendRemove(g, x.id, DataOf(x), res);
               && Touched(c, g, c', g', i, false) && Extends(g, g') && SameCounters(g, g')
               && Indexed(g') && RecordAgrees(g', c'.htlcs[i])
  {
    var x := c.htlcs[i];
    assert RecordAgrees(g, x);
    var g' := AfterSendRemove(g, x.id, DataOf(x), res);
    IndexRemoved(g.inIx, g.recv, g.sent, g.peerFinal, x.id, Remove(x.id, DataOf(x), res));
    IndexIgnoresRemove(g.outIx, g.sent, g.recv, g.ownLocked, Remove(x.id, DataOf(x), res));
  }

  lemma SendRemoveMeter(c: Chan, g: History, c': Chan, i: nat, res: Resolution, mt: Meter, a: nat, b: nat)
    requires Counted(c, g) && Indexed(g) && Recorded(c, g) && ResolvedIn(c, c', i, res)
    requires g.ownLocked <= a <= |g.sent| + 1 && g.peerFinal <= b <= |g.recv|
    requires MeterAgrees(c, g, mt, if a <= |g.sent| then a else |g.sent|, b)
    requires c.htlcs[i].id < |g.inIx|
    ensures MeterAgrees(c', AfterSendRemove(g, c.htlcs[i].id, DataOf(c.htlcs[i]), res), mt, a, b)
  {
    var x := c.htlcs[i];
    SendRemoveTouches(c, g, c', i, res);
    var g' := AfterSendRemove(g, x.id, DataOf(x), res);
    var a0 := if a <= |g.sent| then a else |g.sent|;
    RemoveListSum(mt, c, g, c', g', i, false, a, b);
    assert Share(mt, g, x, a0, b) == mt.escrow(false, DataOf(x));
    assert Share(mt, g', c'.htlcs[i], a, b) ==
           if a <= |g.sent| then mt.escrow(false, DataOf(x)) else mt.credit(false, DataOf(x), res);
    ReadingAfterSend(mt, g, g', Remove(x.id, DataOf(x), res), a, b);
  }

  lemma SendRemoveKeeps(c: Chan, g: History, c': Chan, i: nat, res: Resolution)
    requires Inv(c, g) && !c.awaitingRaa && ResolvedIn(c, c', i, res)
    ensures c.htlcs[i].id < |g.inIx|
    ensures Inv(c', AfterSendRemove(g, c.htlcs[i].id, DataOf(c.htlcs[i]), res))
  {
    hide Recorded, Indexed, Stored;
    var x := c.htlcs[i];
    SendRemoveTouches(c, g, c', i, res);
    var g' := AfterSendRemove(g, x.id, DataOf(x), res);
    RemoveRecorded(c, g, c', g', i, false);
    forall mt: Meter, a: nat, b: nat ensures MeterAgrees(c', g', mt, a, b) {
      if g'.ownLocked <= a <= |g'.sent| && g'.peerFinal <= b <= |g'.recv| {
        SendRemoveMeter(c, g, c', i, res, mt, a, b);
      }
    }
    LimitsInRange(c, g, false);
    OwnNonNegative(g, |g.sent|, g.peerLocked);
    SolventAfterSend(g, g', Remove(x.id, DataOf(x), res));
    StoredSurvives(c, g, c', g');
    FeesSurvive(c, g, c', g');
  }

  // ----------------------------------------------- the peer resolves an HTLC

  ghost predicate ResolvedOut(c: Chan, c': Chan, i: nat, res: Resolution) {
    && i < |c.htlcs| && c.htlcs[i].outbound && Irrevocable(c.htlcs[i])
    && c' == c.(htlcs := c.htlcs[i := c.htlcs[i].(resolution := Some(res), phaseHolder := Removing)])
  }

  lemma RecvRemoveTouches(c: Chan, g: History, c': Chan, i: nat, res: Resolution)
    requires Counted(c, g) && Indexed(g) && Recorded(c, g) && ResolvedOut(c, c', i, res)
    ensures var x := c.htlcs[i];
            && InRange(g, x) && x.id < |g.outIx| && g.outIx[x.id].rem.None? && g.outIx[x.id].add < g.ownLocked
            && var g' := AfterRecvRemove(g, x.id, DataOf(x), res);
               && Touched(c, g, c', g', i, true) && Extends(g, g') && SameCounters(g, g')
               && Indexed(g') && RecordAgrees(g', c'.htlcs[i])
  {
    var x := c.htlcs[i];
    assert RecordAgrees(g, x);
    var g' := AfterRecvRemove(g, x.id, DataOf(x), res);
    IndexRemoved(g.outIx, g.sent, g.recv, g.ownLocked, x.id, Remove(x.id, DataOf(x), res));
    IndexIgnoresRemove(g.inIx, g.recv, g.sent, g.peerFinal, Remove(x.id, DataOf(x), res));
  }

  lemma RecvRemoveMeter(c: Chan, g: History, c': Chan, i: nat, res: Resolution, mt: Meter, a: nat, b: nat)
    requires Counted(c, g) && Indexed(g) && Recorded(c, g) && ResolvedOut(c, c', i, res)
    requires g.ownLocked <= a <= |g.sent| && g.peerFinal <= b <= |g.recv| + 1
    requires MeterAgrees(c, g, mt, a, if b <= |g.recv| then b else |g.recv|)
    requires c.htlcs[i].id < |g.outIx|
    ensures MeterAgrees(c', AfterRecvRemove(g, c.htlcs[i].id, DataOf(c.htlcs[i]), res), mt, a, b)
  {
    var x := c.htlcs[i];
    RecvRemoveTouches(c, g, c', i, res);
    var g' := AfterRecvRemove(g, x.id, DataOf(x), res);
    var b0 := if b <= |g.recv| then b else |g.recv|;
    RemoveListSum(mt, c, g, c', g', i, true, a, b);
    assert Share(mt, g, x, a, b0) == mt.escrow(true, DataOf(x));
    assert Share(mt, g', c'.htlcs[i], a, b) ==
           if b <= |g.recv| then mt.escrow(true, DataOf(x)) else mt.credit(true, DataOf(x), res);
    ReadingAfterRecv(mt, g, g', Remove(x.id, DataOf(x), res), a, b);
  }

  lemma UntouchedSnapshot(p: PendingCommitment, g: History, g': History, x: Htlc)
    requires SnapshotAgrees(p, g, x) && SameCounters(g, g')
    requires InRange(g, x) && InRange(g', x) && IxOf(g', x) == IxOf(g, x)
    ensures SnapshotAgrees(p, g', x)
  {
  }

  /** The newly removed HTLC keeps its keys. */
  lemma NewRemovalUnsigned(c: Chan, g: History, x: Htlc, p: PendingCommitment, y: Htlc, res: Resolution)
    requires Counted(c, g) && x.outbound && y.outbound && y.id == x.id < |g.outIx| && g.outIx[x.id].rem.None?
    requires SnapshotAgrees(p, g, x)
    ensures SnapshotAgrees(p, AfterRecvRemove(g, x.id, DataOf(x), res), y)
  {
  }

  lemma RecvRemoveSnapshot(c: Chan, g: History, c': Chan, i: nat, res: Resolution)
    requires Counted(c, g) && Indexed(g) && Recorded(c, g) && Stored(c, g)
    requires ResolvedOut(c, c', i, res) && c.pending.Some? && c.htlcs[i].id < |g.outIx|
    ensures var g' := AfterRecvRemove(g, c.htlcs[i].id, DataOf(c.htlcs[i]), res);
            forall j | 0 <= j < |c'.htlcs| :: SnapshotAgrees(c.pending.value, g', c'.htlcs[j])
  {
    RecvRemoveTouches(c, g, c', i, res);
    hide Indexed, Recorded, SnapshotAgrees, Extends;
    var g' := AfterRecvRemove(g, c.htlcs[i].id, DataOf(c.htlcs[i]), res);
    forall j | 0 <= j < |c'.htlcs| ensures SnapshotAgrees(c.pending.value, g', c'.htlcs[j]) {
      assert SnapshotAgrees(c.pending.value, g, c.htlcs[j]);
      if j != i {
        OthersUntouched(c, g, c', g', i, true, j);
        UntouchedSnapshot(c.pending.value, g, g', c.htlcs[j]);
      } else {
        NewRemovalUnsigned(c, g, c.htlcs[i], c.pending.value, c'.htlcs[i], res);
      }
    }
  }

  lemma RecvRemoveKeeps(c: Chan, g: History, c': Chan, i: nat, res: Resolution)
    requires Inv(c, g) && ResolvedOut(c, c', i, res)
    ensures c.htlcs[i].id < |g.outIx|
    ensures Inv(c', AfterRecvRemove(g, c.htlcs[i].id, DataOf(c.htlcs[i]), res))
  {
    hide Recorded, Indexed, Stored, Touched;
    var x := c.htlcs[i];
    RecvRemoveTouches(c, g, c', i, res);
    var g' := AfterRecvRemove(g, x.id, DataOf(x), res);
    RemoveRecorded(c, g, c', g', i, true);
    forall mt: Meter, a: nat, b: nat ensures MeterAgrees(c', g', mt, a, b) {
      if g'.ownLocked <= a <= |g'.sent| && g'.peerFinal <= b <= |g'.recv| {
        RecvRemoveMeter(c, g, c', i, res, mt, a, b);
      }
    }
    LimitsInRange(c, g, true);
    PeerNonNegative(g, g.ownAcked, |g.recv|);
    SolventAfterRecv(g, g', Remove(x.id, DataOf(x), res));
    if c.pending.Some? { RecvRemoveSnapshot(c, g, c', i, res); }
    StoredSurvives(c, g, c', g');
    FeesSurvive(c, g, c', g');
  }

  // ------------------------------------------------------------ fee updates

  lemma FeeUntouched(c: Chan, g: History, c': Chan, g': History)
    requires Counted(c, g) && Recorded(c, g) && SameCounters(g, g') && Extends(g, g') && c'.htlcs == c.htlcs
    requires g'.outIx == g.outIx && g'.inIx == g.inIx
    ensures Recorded(c', g')
  {
    forall i | 0 <= i < |c.htlcs| ensures RecordAgrees(g', c.htlcs[i]) {
      assert RecordAgrees(g, c.htlcs[i]);
      RecordExtends(g, g', c.htlcs[i]);
    }
    forall i, j | 0 <= i < j < |c.htlcs| ensures InOrder(g', c.htlcs[i], c.htlcs[j]) {
      assert InOrder(g, c.htlcs[i], c.htlcs[j]);
    }
    forall id | 0 <= id < |g'.outIx| ensures OutGone(g', g'.outIx[id]) || Find(c.htlcs, true, id).Some? {
      assert OutGone(g, g.outIx[id]) || Find(c.htlcs, true, id).Some?;
    }
    forall id | 0 <= id < |g'.inIx| ensures InGone(g', g'.inIx[id]) || Find(c.htlcs, false, id).Some? {
      assert InGone(g, g.inIx[id]) || Find(c.htlcs, false, id).Some?;
    }
  }

  lemma FeeMeter(c: Chan, g: History, c': Chan, own: bool, rate: nat, mt: Meter, a: nat, b: nat)
    requires Counted(c, g) && Indexed(g) && Recorded(c, g) && c'.htlcs == c.htlcs
    requires g.ownLocked <= a <= |g.sent| + (if own then 1 else 0) && g.peerFinal <= b <= |g.recv| + (if own then 0 else 1)
    requires MeterAgrees(c, g, mt, if a <= |g.sent| then a else |g.sent|, if b <= |g.recv| then b else |g.recv|)
    ensures MeterAgrees(c', if own then NewOut(g, Fee(rate)) else NewIn(g, Fee(rate)), mt, a, b)
  {
    var g' := if own then NewOut(g, Fee(rate)) else NewIn(g, Fee(rate));
    ListUntouched(mt, c, g, g', a, b);
    if own { ReadingAfterSend(mt, g, g', Fee(rate), a, b); } else { ReadingAfterRecv(mt, g, g', Fee(rate), a, b); }
  }

  lemma FeeMetered(c: Chan, g: History, c': Chan, own: bool, rate: nat)
    requires Counted(c, g) && Indexed(g) && Recorded(c, g) && Metered(c, g)
    requires c'.htlcs == c.htlcs && c'.base == c.base
    ensures Metered(c', if own then NewOut(g, Fee(rate)) else NewIn(g, Fee(rate)))
  {
    hide Recorded, Indexed;
    var g' := if own then NewOut(g, Fee(rate)) else NewIn(g, Fee(rate));
    forall mt: Meter, a: nat, b: nat ensures MeterAgrees(c', g', mt, a, b) {
      if g'.ownLocked <= a <= |g'.sent| && g'.peerFinal <= b <= |g'.recv| {
        assert MeterAgrees(c, g, mt, if a <= |g.sent| then a else |g.sent|, if b <= |g.recv| then b else |g.recv|);
        FeeMeter(c, g, c', own, rate, mt, a, b);
      }
    }
  }

  lemma FeesAfterSend(c: Chan, g: History, rate: nat)
    requires Counted(c, g) && FeesAgree(c, g) && !c.awaitingRaa && c.role.Opener?
    requires Counted(c.(feerateCounterparty := rate, dirty := true), NewOut(g, Fee(rate)))
    ensures FeesAgree(c.(feerateCounterparty := rate, dirty := true), NewOut(g, Fee(rate)))
  {
    LastFeePrefix(g.sent, NewOut(g, Fee(rate)).sent, g.ownAcked, g.initialFeerate);
  }

  lemma FeesAfterRecv(c: Chan, g: History, rate: nat)
    requires Counted(c, g) && FeesAgree(c, g) && c.role.Accepter?
    requires Counted(c.(feerateHolder := rate, pendingFeeAck := Some(rate)), NewIn(g, Fee(rate)))
    ensures FeesAgree(c.(feerateHolder := rate, pendingFeeAck := Some(rate)), NewIn(g, Fee(rate)))
  {
    LastFeePrefix(g.recv, NewIn(g, Fee(rate)).recv, g.peerLocked, g.initialFeerate);
    LastFeePrefix(g.recv, NewIn(g, Fee(rate)).recv, g.peerSigned, g.initialFeerate);
  }

  lemma FeeStored(c: Chan, g: History, c': Chan, g': History)
    requires Counted(c, g) && Stored(c, g) && Extends(g, g') && SameCounters(g, g')
    requires c'.pending == c.pending && c'.currentHolder == c.currentHolder && c'.htlcs == c.htlcs
    requires c'.currentCounterparty == c.currentCounterparty && c'.role == c.role
    requires g'.outIx == g.outIx && g'.inIx == g.inIx
    ensures Stored(c', g')
  {
    if c.pending.Some? {
      forall i | 0 <= i < |c.htlcs| ensures SnapshotAgrees(c.pending.value, g', c.htlcs[i]) {
        assert SnapshotAgrees(c.pending.value, g, c.htlcs[i]);
      }
    }
    StoredSurvives(c, g, c', g');
  }

  lemma SendFeeKeeps(c: Chan, g: History, rate: nat)
    requires Inv(c, g) && !c.awaitingRaa && c.role.Opener?
    ensures Inv(c.(feerateCounterparty := rate, dirty := true), NewOut(g, Fee(rate)))
  {
    hide Recorded, Stored, FeesAgree, Metered;
    var c' := c.(feerateCounterparty := rate, dirty := true);
    var g' := NewOut(g, Fee(rate));
    IndexIgnoresRemove(g.outIx, g.sent, g.recv, g.ownLocked, Fee(rate));
    IndexIgnoresAdd(g.inIx, g.recv, g.sent, g.peerFinal, Fee(rate));
    FeeUntouched(c, g, c', g');
    FeeMetered(c, g, c', true, rate);
    LimitsInRange(c, g, false);
    OwnNonNegative(g, |g.sent|, g.peerLocked);
    SolventAfterSend(g, g', Fee(rate));
    FeeStored(c, g, c', g');
    FeesAfterSend(c, g, rate);
  }

  lemma RecvFeeKeeps(c: Chan, g: History, rate: nat)
    requires Inv(c, g) && c.role.Accepter?
    ensures Inv(c.(feerateHolder := rate, pendingFeeAck := Some(rate)), NewIn(g, Fee(rate)))
  {
    hide Recorded, Stored, FeesAgree, Metered;
    var c' := c.(feerateHolder := rate, pendingFeeAck := Some(rate));
    var g' := NewIn(g, Fee(rate));
    IndexIgnoresAdd(g.outIx, g.sent, g.recv, g.ownLocked, Fee(rate));
    IndexIgnoresRemove(g.inIx, g.recv, g.sent, g.peerFinal, Fee(rate));
    FeeUntouched(c, g, c', g');
    FeeMetered(c, g, c', false, rate);
    LimitsInRange(c, g, true);
    PeerNonNegative(g, g.ownAcked, |g.recv|);
    SolventAfterRecv(g, g', Fee(rate));
    FeeStored(c, g, c', g');
    FeesAfterRecv(c, g, rate);
  }
}
