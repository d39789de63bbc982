/**
 * The two ways honest parties fail each other, reached by runs from a fresh pair:
 * a fee rate above the ceiling, and a malformed-onion code without its flag bit.
 * Neither is checked by the side that sends it.
 */
module HonestFailures {
  import opened Wrappers
  import opened Channel
  import opened Ledger
  import opened ChannelRuns
  import opened Pair
  import opened Dance
  import opened Drain
  import opened Settlement
  import Shachain

  // ----------------------------------------------------------- a fresh pair

  function Opened(crypto: Crypto, seed: Bytes, peerSeed: Bytes, role: Role, base: Balances): Chan {
    var c := Unfunded(crypto, seed, peerSeed, role, base);
    c.(currentHolder := Some(HolderCommitmentAt(c, 0)),
       currentCounterparty := Some(CounterpartyCommitmentAt(c, 0, PointAt(crypto, peerSeed, 0))))
  }

  function Unfunded(crypto: Crypto, seed: Bytes, peerSeed: Bytes, role: Role, base: Balances): Chan {
    Chan(crypto, seed, role, Normal,
         Params(354, 354, 1000, 1000, 1_000_000_000, 1_000_000_000, 1, 1, 483, 483, 144, 144),
         false, false, 253, 253, None, base, false, [], 0, 0, 0, 0,
         Some(PointAt(crypto, peerSeed, 0)), Some(PointAt(crypto, peerSeed, 1)), Shachain.EmptySlots(),
         None, None, None, false, [])
  }

  /** The initial states the two-party theorems start from exist for every hash, point
      map and seeds, and allow an HTLC. */
  lemma InitialExists(crypto: Crypto, seedA: Bytes, seedB: Bytes) returns (s: Sys)
    ensures Initial(s) && s.a.crypto == crypto && s.a.seed == seedA && s.b.seed == seedB
    ensures s.a.role.Opener? && OutboundAddAllowed(s.a, 1_000_000, 500)
  {
    hide PointAt;
    s := Sys(Opened(crypto, seedA, seedB, Opener, Balances(1_000_000_000, 0)),
             Opened(crypto, seedB, seedA, Accepter, Balances(0, 1_000_000_000)), [], []);
  }

  // ---------------------------------------------------- a fee above the ceiling

  lemma FeeSent(s0: Sys, feerate: nat)
    requires Initial(s0) && s0.a.role.Opener? && feerate > FEERATE_CEILING
    ensures Next(s0, Step(true, DoFee(feerate))).Some?
    ensures Next(s0, Step(true, DoFee(feerate))).value.ab == [UpdateFee(feerate)]
  {
    assert [] + [UpdateFee(feerate)] == [UpdateFee(feerate)];
  }

  /** In every initial state, any fee rate above the ceiling is sent and then fails
      the receiver's channel. */
  lemma FeeAboveCeilingFails(s0: Sys, feerate: nat)
    requires Initial(s0) && s0.a.role.Opener? && feerate > FEERATE_CEILING
    ensures RunPair(s0, [Step(true, DoFee(feerate))]).Some?
    ensures RunPair(s0, [Step(true, DoFee(feerate)), Step(false, DoReceive)]) == None
  {
    hide Initial, Handle;
    var first, second := Step(true, DoFee(feerate)), Step(false, DoReceive);
    FeeSent(s0, feerate);
    RunOne(s0, first);
    NoHonestFailure(s0, [first], false);
    RunOne(RunPair(s0, [first]).value, second);
    RunCat(s0, [first], [second]);
    assert [first] + [second] == [first, second];
  }

  // ------------------------------------------------------- an unflagged removal

  lemma AddSent(s0: Sys, add: Action)
    requires Initial(s0) && add.DoAdd? && OutboundAddAllowed(s0.a, add.amount, add.cltvExpiry)
    ensures RunPair(s0, [Step(true, add)]).Some? && RunPair(s0, [Step(true, add)]).value.a.nextHolderId == 1
  {
    hide OutboundAddAllowed;
    RunOne(s0, Step(true, add));
  }

  /** A log of one update in which HTLC 0 was added holds just that. */
  lemma OnlyAdd(c: Chan, g: History, sent: seq<Update>)
    requires Inv(c, g) && c.nextHolderId == 1 && g.sent <= sent && |sent| <= 1
    ensures |sent| == 1 && sent[0].Add? && sent[0].id == 0
  {
    hide Inv, Recorded, FeesAgree, Stored, RemAgrees;
    InvParts(c, g);
    assert AddAgrees(g.outIx[0], 0, g.sent);
  }

  /** Once the pair is quiet, the peer holds that HTLC, locked and unresolved. */
  lemma PeerHoldsIt(x: Chan, gx: History, y: Chan, gy: History) returns (i: nat)
    requires PairInv(x, gx, y, gy, [], []) && Quiet(x) && Quiet(y)
    requires |gx.sent| == 1 && gx.sent[0].Add? && gx.sent[0].id == 0 && gy.sent == []
    ensures Find(y.htlcs, false, 0) == Some(i) && i < |y.htlcs| && Irrevocable(y.htlcs[i])
  {
    hide PairInv;
    QuietCounters(x, gx, y, gy);
    Symmetric(x, gx, y, gy, [], []);
    QuietCounters(y, gy, x, gx);
    PairParts(x, gx, y, gy, [], []);
    InvParts(y, gy);
    assert 0 < |gy.inIx| && gy.inIx[0].rem.None? by {
      assert gy.recv[0].Add? && gy.recv[0].id == 0;
      assert RemAgrees(gy.inIx[0], 0, gy.recv, gy.sent, gy.peerFinal);
    }
    assert InGone(gy, gy.inIx[0]) || Find(y.htlcs, false, 0).Some?;
    i := Find(y.htlcs, false, 0).value;
    QuietHtlc(y, gy, i);
  }

  const UNFLAGGED: Resolution := FailMalformed([], 0)

  lemma RemovalSent(t: Sys, i: nat)
    requires t.ba == [] && !t.b.awaitingRaa
    requires Find(t.b.htlcs, false, 0) == Some(i) && i < |t.b.htlcs| && Irrevocable(t.b.htlcs[i])
    ensures Next(t, Step(false, DoRemove(0, UNFLAGGED))).Some?
    ensures Next(t, Step(false, DoRemove(0, UNFLAGGED))).value.ba == [UpdateRemoveHtlc(0, UNFLAGGED)]
    ensures Unacceptable(UpdateRemoveHtlc(0, UNFLAGGED))
  {
    hide Find;
    assert [] + [UpdateRemoveHtlc(0, UNFLAGGED)] == [UpdateRemoveHtlc(0, UNFLAGGED)];
  }

  /**
   * From every initial state and with any HTLC it allows: lock the HTLC in on both
   * sides, let the receiver fail it with a code that lacks the flag bit, and the
   * removal fails the channel of the party that offered it.
   */
  lemma UnflaggedRemovalFails(s0: Sys, add: Action) returns (steps: seq<Step>)
    requires Initial(s0) && add.DoAdd? && OutboundAddAllowed(s0.a, add.amount, add.cltvExpiry)
    ensures RunPair(s0, steps).Some?
    ensures RunPair(s0, steps + [Step(true, DoReceive)]) == None
  {
    hide Initial, Handle, PairInv, Inv, OutboundAddAllowed, Next, Unacceptable, Irrevocable, Find;
    var first, removal, receive := Step(true, add), Step(false, DoRemove(0, UNFLAGGED)), Step(true, DoReceive);
    AddSent(s0, add);
    var more, t, ga, gb, ga0 := SettlesWith(s0, [first]);
    assert [first][..0] == [];
    assert Commands([first], true) == 1 && Commands([first], false) == 0;
    OnlyAdd(RunPair(s0, [first]).value.a, ga0, ga.sent);
    var i := PeerHoldsIt(t.a, ga, t.b, gb);
    RemovalSent(t, i);
    RunOne(t, removal);
    RunCat(s0, [first] + more, [removal]);
    steps := [first] + more + [removal];
    NoHonestFailure(s0, steps, true);
    var u := RunPair(s0, steps).value;
    RunOne(u, receive);
    NextBroken(u);
    RunCat(s0, steps, [receive]);
  }

  lemma NextBroken(u: Sys)
    requires Act(u.a, u.ba, DoReceive).Broken?
    ensures Next(u, Step(true, DoReceive)) == None
  {
  }
}
