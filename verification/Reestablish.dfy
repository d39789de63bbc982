/**
 * Reconnection at the level of commitment numbers (BOLT 2, "Message
 * Retransmission"): two honest peers, any number of disconnections that drop
 * everything in flight, also in the middle of an earlier re-establishment.
 *
 * A `commitment_signed` is its commitment number; updates are not modelled.
 */
module Reestablish {
  import opened Wrappers
  import opened Shachain

  type Bytes = seq<bv8>

  datatype Side = Side(
    seed: Bytes, holder: nat, counterparty: nat, awaitingRaa: bool, secrets: Slots, reestablishing: bool)

  datatype Msg =
    | CommitmentSigned(number: nat)
    | RevokeAndAck(secret: Bytes)
    | ChannelReestablish(nextCommitment: nat, nextRevocation: nat, lastSecret: Bytes)

  datatype Failure =
    | DataLoss | AncientRevocation | AncientCommitment | WrongSecret | UnexpectedCommitment | UnexpectedRevocation

  datatype Reaction = Accepted(side: Side, replies: seq<Msg>) | Rejected(failure: Failure)

  function Zeros(): Bytes {
    seq(32, _ => 0)
  }

  function SecretOf(sha: Hash, seed: Bytes, n: nat): Bytes
    requires n <= MAX_INDEX
  {
    GenerateFromSeed(sha, seed, IndexForCommitment(n))
  }

  /** Numbers the 48-bit index space can hold. */
  predicate InRange(s: Side) {
    s.holder <= MAX_INDEX && s.counterparty <= MAX_INDEX
  }

  // ----------------------------------------------------- the two operations

  function MakeReestablish(sha: Hash, s: Side): Msg
    requires InRange(s)
  {
    ChannelReestablish(s.holder + 1, s.counterparty,
      if s.counterparty == 0 then Zeros()
      else
        match Lookup(sha, s.secrets, IndexForCommitment(s.counterparty - 1))
        case Some(secret) => secret
        case None => Zeros())
  }

  function SaturatingSub(a: nat, b: nat): nat {
    if a < b then 0 else a - b
  }

  function OnReestablish(sha: Hash, s: Side, m: Msg): Reaction
    requires InRange(s) && m.ChannelReestablish?
  {
    var lostRaa := m.nextRevocation == SaturatingSub(s.holder, 1) && s.holder > 0;
    if !lostRaa && m.nextRevocation > s.holder then Rejected(DataLoss)
    else if !lostRaa && m.nextRevocation != s.holder then Rejected(AncientRevocation)
    else if m.lastSecret != (if m.nextRevocation > 0 then SecretOf(sha, s.seed, m.nextRevocation - 1) else Zeros())
    then Rejected(WrongSecret)
    else
      var raa := if lostRaa then [RevokeAndAck(SecretOf(sha, s.seed, s.holder - 1))] else [];
      var lastSent := s.counterparty + if s.awaitingRaa then 1 else 0;
      var resumed := s.(reestablishing := false);
      if m.nextCommitment == lastSent && s.awaitingRaa then
        Accepted(resumed, raa + [CommitmentSigned(s.counterparty + 1)])
      else if m.nextCommitment == lastSent + 1 then Accepted(resumed, raa)
      else if m.nextCommitment > lastSent + 1 then Rejected(DataLoss)
      else Rejected(AncientCommitment)
  }

  // ------------------------------------------------------- from any peer

  /** The secret that proves how far the peer has followed our revocations. */
  function ProofDue(sha: Hash, s: Side, nextRevocation: nat): Bytes
    requires nextRevocation <= MAX_INDEX + 1
  {
    if nextRevocation == 0 then Zeros() else SecretOf(sha, s.seed, nextRevocation - 1)
  }

  /** A re-establishment is accepted exactly when the peer is at most one revocation and one
      commitment behind, the latter only if one is in flight, ahead in neither, and proves it;
      it is answered with exactly what it is behind by, the revocation first. */
  lemma ReestablishedExactlyWhen(sha: Hash, s: Side, m: Msg)
    requires InRange(s) && m.ChannelReestablish?
    ensures var r := OnReestablish(sha, s, m);
            var sent := s.counterparty + if s.awaitingRaa then 1 else 0;
            var behindRevocation := m.nextRevocation + 1 == s.holder;
            var behindCommitment := s.awaitingRaa && m.nextCommitment == sent;
            && (r.Accepted? <==>
                  && (m.nextRevocation == s.holder || behindRevocation)
                  && m.lastSecret == ProofDue(sha, s, m.nextRevocation)
                  && (m.nextCommitment == sent + 1 || behindCommitment))
            && (r.Accepted? ==>
                  && r.side == s.(reestablishing := false)
                  && r.replies == (if behindRevocation then [RevokeAndAck(SecretOf(sha, s.seed, s.holder - 1))] else [])
                                  + (if behindCommitment then [CommitmentSigned(s.counterparty + 1)] else []))
  {
    hide SecretOf;
    assert [RevokeAndAck(Zeros())] + [] == [RevokeAndAck(Zeros())];
  }

  /** Which refusal: lost data of ours if the peer is ahead, an ancient one if it is too far behind,
      and a wrong secret before anything is said about commitments. */
  lemma RefusedExactlyWhen(sha: Hash, s: Side, m: Msg)
    requires InRange(s) && m.ChannelReestablish?
    ensures var r := OnReestablish(sha, s, m);
            var sent := s.counterparty + if s.awaitingRaa then 1 else 0;
            var follows := m.nextRevocation == s.holder || m.nextRevocation + 1 == s.holder;
            var proves := follows && m.lastSecret == ProofDue(sha, s, m.nextRevocation);
            && (r == Rejected(DataLoss) <==> m.nextRevocation > s.holder || (proves && m.nextCommitment > sent + 1))
            && (r == Rejected(AncientRevocation) <==> m.nextRevocation + 1 < s.holder)
            && (r == Rejected(WrongSecret) <==> follows && !proves)
            && (r == Rejected(AncientCommitment) <==>
                  proves && m.nextCommitment <= sent && !(s.awaitingRaa && m.nextCommitment == sent))
  {
    hide SecretOf;
  }

  /** The dance's own reactions, as far as the numbers go. */
  function Receive(sha: Hash, s: Side, m: Msg): Reaction
    requires InRange(s)
  {
    match m
    case CommitmentSigned(n) =>
      if n == s.holder + 1 then Accepted(s.(holder := n), [RevokeAndAck(SecretOf(sha, s.seed, s.holder))])
      else Rejected(UnexpectedCommitment)
    case RevokeAndAck(secret) =>
      if !s.awaitingRaa then Rejected(UnexpectedRevocation)
      else
        (match InsertInto(sha, s.secrets, IndexForCommitment(s.counterparty), secret)
         case None => Rejected(UnexpectedRevocation)
         case Some(secrets) =>
           Accepted(s.(counterparty := s.counterparty + 1, awaitingRaa := false, secrets := secrets), []))
    case ChannelReestablish(_, _, _) => OnReestablish(sha, s, m)
  }

  // ------------------------------------------------------------- the system

  /** Two peers, the messages on their way from each, and those each has sent
      that a disconnection has destroyed and it has not sent again. */
  datatype Link = Link(
    x: Side, y: Side, xy: seq<Msg>, yx: seq<Msg>, lostX: multiset<Msg>, lostY: multiset<Msg>)
  {
    function Swapped(): Link {
      Link(y, x, yx, xy, lostY, lostX)
    }
  }

  /** For `x`; a swapped step is the same for `y`. */
  datatype Op = Sign | Deliver | Reconnect

  datatype Step = Step(op: Op, swapped: bool)

  /** The messages of the dance, without re-establishment. */
  function Payload(q: seq<Msg>): multiset<Msg> {
    if q == [] then multiset{}
    else Payload(q[..|q| - 1]) + if q[|q| - 1].ChannelReestablish? then multiset{} else multiset{q[|q| - 1]}
  }

  predicate CanSign(l: Link) {
    !l.x.reestablishing && !l.x.awaitingRaa && l.x.counterparty < MAX_INDEX
  }

  /** `None` when a peer rejects what it received. */
  function Next(sha: Hash, l: Link, op: Op): Option<Link>
    requires InRange(l.x) && InRange(l.y)
  {
    match op
    case Sign =>
      if !CanSign(l) then Some(l)
      else Some(l.(x := l.x.(awaitingRaa := true), xy := l.xy + [CommitmentSigned(l.x.counterparty + 1)]))
    case Deliver =>
      if l.xy == [] then Some(l)
      else
        (match Receive(sha, l.y, l.xy[0])
         case Rejected(_) => None
         case Accepted(y, replies) =>
           Some(l.(y := y, xy := l.xy[1..], yx := l.yx + replies,
                   lostY := if l.xy[0].ChannelReestablish? then l.lostY - multiset(replies) else l.lostY)))
    case Reconnect =>
      Some(Link(l.x.(reestablishing := true), l.y.(reestablishing := true),
                [MakeReestablish(sha, l.x)], [MakeReestablish(sha, l.y)],
                l.lostX + Payload(l.xy), l.lostY + Payload(l.yx)))
  }

  function Take(sha: Hash, l: Link, s: Step): Option<Link>
    requires InRange(l.x) && InRange(l.y)
  {
    if s.swapped then
      match Next(sha, l.Swapped(), s.op)
      case None => None
      case Some(t) => Some(t.Swapped())
    else Next(sha, l, s.op)
  }

  ghost predicate Start(l: Link) {
    && l.x.holder == l.x.counterparty == l.y.holder == l.y.counterparty == 0
    && !l.x.awaitingRaa && !l.y.awaitingRaa && !l.x.reestablishing && !l.y.reestablishing
    && l.x.secrets == EmptySlots() && l.y.secrets == EmptySlots()
    && l.xy == [] && l.yx == [] && l.lostX == multiset{} && l.lostY == multiset{}
  }

  // ---------------------------------------------------------- the invariant

  /** `y`'s commitments as `x` has signed them, and the secrets `x` holds for them. */
  ghost predicate Numbers(sha: Hash, x: Side, y: Side) {
    && x.counterparty <= MAX_INDEX && (x.awaitingRaa ==> x.counterparty < MAX_INDEX)
    && (y.holder == x.counterparty || (x.awaitingRaa && y.holder == x.counterparty + 1))
    && Represents(sha, x.secrets, HonestSecrets(sha, y.seed, x.counterparty))
  }

  /** The commitment `x` has signed and `y` has not received. */
  ghost function OwedCommitment(x: Side, y: Side): multiset<Msg> {
    if x.awaitingRaa && y.holder == x.counterparty then multiset{CommitmentSigned(x.counterparty + 1)} else multiset{}
  }

  /** The revocation `x` has sent and `y` has not received. */
  ghost function OwedRevocation(sha: Hash, x: Side, y: Side): multiset<Msg>
    requires y.counterparty <= MAX_INDEX
  {
    if y.awaitingRaa && x.holder == y.counterparty + 1
    then multiset{RevokeAndAck(SecretOf(sha, x.seed, y.counterparty))} else multiset{}
  }

  ghost function Owed(sha: Hash, x: Side, y: Side): multiset<Msg>
    requires y.counterparty <= MAX_INDEX
  {
    OwedCommitment(x, y) + OwedRevocation(sha, x, y)
  }

  /** A re-establishment not yet read is at the head of the queue and still says
      what its sender would say now; until it is read, its reader has sent only
      its own. What a disconnection destroyed is only outstanding until then. */
  ghost predicate Resuming(sha: Hash, l: Link)
    requires InRange(l.x)
  {
    && (l.y.reestablishing ==>
          && l.xy != [] && l.xy[0] == MakeReestablish(sha, l.x)
          && (forall i | 0 < i < |l.xy| :: !l.xy[i].ChannelReestablish?)
          && (forall i | 0 <= i < |l.yx| :: l.yx[i].ChannelReestablish?)
          && |l.yx| == if l.x.reestablishing then 1 else 0)
    && (!l.y.reestablishing ==>
          && (forall i | 0 <= i < |l.xy| :: !l.xy[i].ChannelReestablish?)
          && l.lostY == multiset{})
    && (l.x.reestablishing && l.y.reestablishing ==> |l.xy| == 1)
  }

  /** Nothing `x` sent is unaccounted for: it is on its way or known to be lost. */
  ghost predicate Accounted(sha: Hash, l: Link)
    requires InRange(l.y)
  {
    Payload(l.xy) + l.lostX == Owed(sha, l.x, l.y)
  }

  ghost predicate Half(sha: Hash, l: Link)
    requires InRange(l.x) && InRange(l.y)
  {
    Numbers(sha, l.x, l.y) && Accounted(sha, l) && Resuming(sha, l)
  }

  ghost predicate Inv(sha: Hash, l: Link) {
    InRange(l.x) && InRange(l.y) && Half(sha, l) && Half(sha, l.Swapped())
  }

  lemma PayloadSnoc(q: seq<Msg>, m: Msg)
    ensures Payload(q + [m]) == Payload(q) + if m.ChannelReestablish? then multiset{} else multiset{m}
  {
    assert (q + [m])[..|q|] == q;
  }

  lemma Ends<T>(q: seq<T>)
    requires |q| > 1
    ensures q == q[..|q| - 1] + [q[|q| - 1]] && q[1..] == q[..|q| - 1][1..] + [q[|q| - 1]]
  {
  }

  lemma SwapLast(a: multiset<Msg>, b: multiset<Msg>, c: multiset<Msg>)
    ensures (a + b) + c == (a + c) + b
  {
  }

  function Carries(m: Msg): multiset<Msg> {
    if m.ChannelReestablish? then multiset{} else multiset{m}
  }

  lemma {:induction false} PayloadHead(q: seq<Msg>)
    requires q != []
    ensures Payload(q) == Payload(q[1..]) + if q[0].ChannelReestablish? then multiset{} else multiset{q[0]}
  {
    if |q| > 1 {
      hide Payload;
      var init, last := q[..|q| - 1], q[|q| - 1];
      PayloadHead(init);
      Ends(q);
      PayloadSnoc(init, last);
      PayloadSnoc(init[1..], last);
      SwapLast(Payload(init[1..]), Carries(q[0]), Carries(last));
    }
  }

  lemma {:induction false} PayloadCat(q: seq<Msg>, r: seq<Msg>)
    requires forall i | 0 <= i < |r| :: !r[i].ChannelReestablish?
    ensures Payload(q + r) == Payload(q) + multiset(r)
  {
    hide Payload;
    if r == [] {
      assert q + r == q;
    } else {
      var n := |r| - 1;
      PayloadCat(q, r[..n]);
      assert q + r == (q + r[..n]) + [r[n]];
      PayloadSnoc(q + r[..n], r[n]);
      assert r == r[..n] + [r[n]];
    }
  }

  lemma {:induction false} NoPayload(q: seq<Msg>)
    requires forall i | 0 <= i < |q| :: q[i].ChannelReestablish?
    ensures Payload(q) == multiset{}
  {
    if q != [] {
      NoPayload(q[..|q| - 1]);
    }
  }

  lemma {:induction false} InPayload(q: seq<Msg>, i: nat)
    requires i < |q| && !q[i].ChannelReestablish?
    ensures q[i] in Payload(q)
  {
    var n := |q| - 1;
    if i < n {
      InPayload(q[..n], i);
    }
  }

  lemma StartInv(sha: Hash, l: Link)
    requires Start(l)
    ensures Inv(sha, l)
  {
    StartRepresents(sha, l.x.seed);
    StartRepresents(sha, l.y.seed);
  }

  lemma StartRepresents(sha: Hash, seed: Bytes)
    ensures Represents(sha, EmptySlots(), HonestSecrets(sha, seed, 0))
  {
    RunRepresents(sha, []);
    assert HonestSecrets(sha, seed, 0) == [];
  }

  // ------------------------------------------------------ each step keeps it

  /** The two halves of a link after a step, from their parts. */
  lemma Assemble(sha: Hash, t: Link)
    requires InRange(t.x) && InRange(t.y)
    requires Numbers(sha, t.x, t.y) && Numbers(sha, t.y, t.x)
    requires Accounted(sha, t) && Accounted(sha, t.Swapped())
    requires Resuming(sha, t) && Resuming(sha, t.Swapped())
    ensures Inv(sha, t)
  {
    hide Numbers, Accounted, Resuming;
  }

  lemma SignKeeps(sha: Hash, l: Link)
    requires Inv(sha, l) && CanSign(l)
    ensures Inv(sha, Next(sha, l, Sign).value)
  {
    hide Represents, Payload, SecretOf, MakeReestablish;
    var t := Next(sha, l, Sign).value;
    var cs := CommitmentSigned(l.x.counterparty + 1);
    PayloadSnoc(l.xy, cs);
    SameReestablish(sha, l.x, t.x);
    SignOwes(sha, l.x, l.y);
    ResumingSnoc(sha, l, t, cs);
    hide Owed, Resuming;
    Assemble(sha, t);
  }

  lemma SignOwes(sha: Hash, x: Side, y: Side)
    requires InRange(x) && InRange(y) && y.holder == x.counterparty && !x.awaitingRaa
    ensures var signed := x.(awaitingRaa := true);
            && Owed(sha, signed, y) == Owed(sha, x, y) + multiset{CommitmentSigned(x.counterparty + 1)}
            && Owed(sha, y, signed) == Owed(sha, y, x)
  {
    hide SecretOf;
  }

  lemma CommitmentOwes(sha: Hash, x: Side, y: Side)
    requires InRange(x) && y.holder < MAX_INDEX && y.counterparty <= MAX_INDEX
    requires x.awaitingRaa && y.holder == x.counterparty
    ensures var moved := y.(holder := y.holder + 1);
            && Owed(sha, x, y) == Owed(sha, x, moved) + multiset{CommitmentSigned(x.counterparty + 1)}
            && Owed(sha, moved, x) == Owed(sha, y, x) + multiset{RevokeAndAck(SecretOf(sha, y.seed, y.holder))}
  {
    hide SecretOf;
    var moved := y.(holder := y.holder + 1);
    var none: multiset<Msg> := multiset{};
    assert OwedCommitment(x, moved) == none && OwedRevocation(sha, y, x) == none;
    assert OwedRevocation(sha, x, moved) == OwedRevocation(sha, x, y);
    assert OwedCommitment(moved, x) == OwedCommitment(y, x);
  }

  lemma RevocationOwes(sha: Hash, x: Side, y: Side, secrets: Slots)
    requires InRange(x) && y.holder <= MAX_INDEX && y.counterparty < MAX_INDEX
    requires y.awaitingRaa && x.holder == y.counterparty + 1
    ensures var moved := y.(counterparty := y.counterparty + 1, awaitingRaa := false, secrets := secrets);
            && Owed(sha, x, y) == Owed(sha, x, moved) + multiset{RevokeAndAck(SecretOf(sha, x.seed, y.counterparty))}
            && Owed(sha, moved, x) == Owed(sha, y, x)
  {
    hide SecretOf;
  }

  lemma Cancel(a: multiset<Msg>, b: multiset<Msg>, c: multiset<Msg>, m: Msg)
    requires (a + multiset{m}) + c == b + multiset{m}
    ensures a + c == b
  {
    assert b == (b + multiset{m}) - multiset{m};
    assert a + c == ((a + multiset{m}) + c) - multiset{m};
  }

  /** Something new, not a re-establishment, from a peer that has resumed. */
  lemma ResumingSnoc(sha: Hash, l: Link, t: Link, m: Msg)
    requires InRange(l.x) && InRange(l.y) && InRange(t.x) && InRange(t.y)
    requires Resuming(sha, l) && Resuming(sha, l.Swapped())
    requires !l.x.reestablishing && !m.ChannelReestablish?
    requires t == l.(x := t.x, xy := l.xy + [m]) && !t.x.reestablishing
    requires MakeReestablish(sha, t.x) == MakeReestablish(sha, l.x)
    ensures Resuming(sha, t) && Resuming(sha, t.Swapped())
  {
    hide MakeReestablish;
  }

  /** A queued `commitment_signed` is the one its receiver expects. */
  lemma CommitmentExpected(sha: Hash, l: Link)
    requires Inv(sha, l) && l.xy != [] && l.xy[0].CommitmentSigned?
    ensures l.x.awaitingRaa && l.y.holder == l.x.counterparty && l.xy[0].number == l.x.counterparty + 1
    ensures !l.y.reestablishing
  {
    hide Represents, Payload, SecretOf, MakeReestablish;
    MakesReestablish(sha, l.x);
    InPayload(l.xy, 0);
    assert l.xy[0] in Owed(sha, l.x, l.y);
  }

  lemma DeliverCommitment(sha: Hash, l: Link)
    requires Inv(sha, l) && l.xy != [] && l.xy[0].CommitmentSigned?
    ensures Next(sha, l, Deliver).Some? && Inv(sha, Next(sha, l, Deliver).value)
  {
    hide Represents, Payload, SecretOf, MakeReestablish, Owed, Resuming;
    CommitmentExpected(sha, l);
    var t := Next(sha, l, Deliver).value;
    var raa := RevokeAndAck(SecretOf(sha, l.y.seed, l.y.holder));
    PayloadHead(l.xy);
    PayloadSnoc(l.yx, raa);
    CommitmentOwes(sha, l.x, l.y);
    Cancel(Payload(t.xy), Owed(sha, t.x, t.y), l.lostX, l.xy[0]);
    ResumingExchange(sha, l, t, [raa]);
    Assemble(sha, t);
  }

  /** A message other than a re-establishment was read and answered. */
  lemma ResumingExchange(sha: Hash, l: Link, t: Link, replies: seq<Msg>)
    requires InRange(l.x) && InRange(l.y) && InRange(t.x) && InRange(t.y)
    requires Resuming(sha, l) && Resuming(sha, l.Swapped())
    requires l.xy != [] && !l.xy[0].ChannelReestablish? && !l.y.reestablishing
    requires forall i | 0 <= i < |replies| :: !replies[i].ChannelReestablish?
    requires t == l.(y := t.y, xy := l.xy[1..], yx := l.yx + replies) && !t.y.reestablishing
    ensures Resuming(sha, t) && Resuming(sha, t.Swapped())
  {
    hide MakeReestablish;
    assert !l.x.reestablishing;
  }

  /** A queued `revoke_and_ack` carries the secret its receiver expects. */
  lemma RevocationExpected(sha: Hash, l: Link)
    requires Inv(sha, l) && l.xy != [] && l.xy[0].RevokeAndAck?
    ensures l.y.awaitingRaa && l.x.holder == l.y.counterparty + 1
    ensures l.xy[0].secret == SecretOf(sha, l.x.seed, l.y.counterparty)
    ensures !l.y.reestablishing
  {
    hide Represents, Payload, SecretOf, MakeReestablish;
    MakesReestablish(sha, l.x);
    InPayload(l.xy, 0);
    assert l.xy[0] in Owed(sha, l.x, l.y);
  }

  lemma SecretStored(sha: Hash, seed: Bytes, known: Slots, n: nat)
    requires n < MAX_INDEX && Represents(sha, known, HonestSecrets(sha, seed, n))
    ensures var r := InsertInto(sha, known, IndexForCommitment(n), SecretOf(sha, seed, n));
            r.Some? && Represents(sha, r.value, HonestSecrets(sha, seed, n + 1))
  {
    hide InsertInto, Represents;
    HonestInsertAccepted(sha, seed, known, n);
    InsertRepresents(sha, known, HonestSecrets(sha, seed, n), SecretOf(sha, seed, n));
    assert HonestSecrets(sha, seed, n) + [SecretOf(sha, seed, n)] == HonestSecrets(sha, seed, n + 1);
  }

  lemma DeliverRevocation(sha: Hash, l: Link)
    requires Inv(sha, l) && l.xy != [] && l.xy[0].RevokeAndAck?
    ensures Next(sha, l, Deliver).Some? && Inv(sha, Next(sha, l, Deliver).value)
  {
    hide Represents, Payload, SecretOf, InsertInto, MakeReestablish, Owed, Resuming;
    RevocationExpected(sha, l);
    SecretStored(sha, l.x.seed, l.y.secrets, l.y.counterparty);
    var t := Next(sha, l, Deliver).value;
    PayloadHead(l.xy);
    assert l.yx + [] == l.yx;
    RevocationOwes(sha, l.x, l.y, t.y.secrets);
    Cancel(Payload(t.xy), Owed(sha, t.x, t.y), l.lostX, l.xy[0]);
    ResumingExchange(sha, l, t, []);
    Assemble(sha, t);
  }

  /** The last secret presented is the one its owner released. */
  lemma LastSecretKnown(sha: Hash, x: Side, y: Side)
    requires InRange(x) && Numbers(sha, x, y)
    ensures MakeReestablish(sha, x).lastSecret ==
            if x.counterparty > 0 then SecretOf(sha, y.seed, x.counterparty - 1) else Zeros()
  {
    if x.counterparty > 0 {
      var secrets := HonestSecrets(sha, y.seed, x.counterparty);
      var i := IndexForCommitment(x.counterparty - 1);
      LookupFirst(sha, x.secrets, secrets, i, 0);
      assert IsCovered(x.secrets, i);
    }
  }

  function AnswerRaa(sha: Hash, x: Side, y: Side): seq<Msg>
    requires InRange(y)
  {
    if y.holder == x.counterparty + 1 then [RevokeAndAck(SecretOf(sha, y.seed, y.holder - 1))] else []
  }

  function AnswerCommitment(x: Side, y: Side): seq<Msg> {
    if y.awaitingRaa && x.holder == y.counterparty then [CommitmentSigned(y.counterparty + 1)] else []
  }

  lemma AnswerIs(sha: Hash, x: Side, y: Side)
    requires InRange(x) && InRange(y) && Numbers(sha, x, y) && Numbers(sha, y, x)
    ensures OnReestablish(sha, y, MakeReestablish(sha, x)) ==
            Accepted(y.(reestablishing := false), AnswerRaa(sha, x, y) + AnswerCommitment(x, y))
  {
    hide Represents, SecretOf, Lookup, MakeReestablish;
    LastSecretKnown(sha, x, y);
    ReestablishNumbers(sha, x);
    assert AnswerRaa(sha, x, y) + [] == AnswerRaa(sha, x, y);
  }

  /** Whom the numbers say a message was lost on, and the code's answer. */
  lemma Answer(sha: Hash, x: Side, y: Side)
    requires InRange(x) && InRange(y) && Numbers(sha, x, y) && Numbers(sha, y, x)
    ensures var r := OnReestablish(sha, y, MakeReestablish(sha, x));
            && r.Accepted? && r.side == y.(reestablishing := false)
            && multiset(r.replies) == Owed(sha, y, x)
            && forall i | 0 <= i < |r.replies| :: !r.replies[i].ChannelReestablish?
  {
    hide Represents, SecretOf, MakeReestablish, OnReestablish;
    AnswerIs(sha, x, y);
    var raa, cs := AnswerRaa(sha, x, y), AnswerCommitment(x, y);
    assert multiset(raa) == OwedRevocation(sha, y, x);
    assert multiset(cs) == OwedCommitment(y, x);
    assert multiset(raa + cs) == multiset(raa) + multiset(cs);
  }

  /**
   * Re-establishment between honest peers always succeeds, and what is sent
   * again is exactly what the disconnections destroyed.
   */
  lemma ResendsExactlyTheLost(sha: Hash, l: Link)
    requires Inv(sha, l) && l.y.reestablishing
    ensures l.xy != [] && l.xy[0].ChannelReestablish?
    ensures var r := Receive(sha, l.y, l.xy[0]);
            && r.Accepted? && r.side == l.y.(reestablishing := false)
            && multiset(r.replies) == l.lostY
            && forall i | 0 <= i < |r.replies| :: !r.replies[i].ChannelReestablish?
  {
    hide Numbers, Payload, Owed, MakeReestablish, OnReestablish;
    MakesReestablish(sha, l.x);
    Answer(sha, l.x, l.y);
    NoPayload(l.yx);
    assert l.lostY == Owed(sha, l.y, l.x);
  }

  /** The link after a re-establishment is read. */
  ghost function Answered(l: Link, replies: seq<Msg>): Link
    requires l.xy != []
  {
    l.(y := l.y.(reestablishing := false), xy := l.xy[1..], yx := l.yx + replies, lostY := multiset{})
  }

  lemma AccountedRead(sha: Hash, l: Link, replies: seq<Msg>)
    requires InRange(l.x) && InRange(l.y) && l.xy != [] && l.xy[0].ChannelReestablish?
    requires Accounted(sha, l) && Accounted(sha, l.Swapped())
    requires multiset(replies) == l.lostY && forall i | 0 <= i < |replies| :: !replies[i].ChannelReestablish?
    ensures var t := Answered(l, replies); Accounted(sha, t) && Accounted(sha, t.Swapped())
  {
    hide Payload, Owed;
    var t := Answered(l, replies);
    PayloadHead(l.xy);
    PayloadCat(l.yx, replies);
    OwedSame(sha, l.x, l.y, t.y);
  }

  lemma DeliverReestablish(sha: Hash, l: Link)
    requires Inv(sha, l) && l.xy != [] && l.xy[0].ChannelReestablish?
    ensures Next(sha, l, Deliver).Some? && Inv(sha, Next(sha, l, Deliver).value)
  {
    hide Represents, Payload, Owed, MakeReestablish, OnReestablish;
    assert l.y.reestablishing;
    ResendsExactlyTheLost(sha, l);
    hide Accounted, Resuming;
    var replies := Receive(sha, l.y, l.xy[0]).replies;
    var t := Answered(l, replies);
    assert Next(sha, l, Deliver) == Some(t);
    hide Next, Receive;
    SameReestablish(sha, l.y, t.y);
    AccountedRead(sha, l, replies);
    ResumingRead(sha, l, t, replies);
    Assemble(sha, t);
  }

  lemma OwedSame(sha: Hash, x: Side, y: Side, z: Side)
    requires InRange(x) && InRange(y) && z == y.(reestablishing := z.reestablishing)
    ensures Owed(sha, x, z) == Owed(sha, x, y) && Owed(sha, z, x) == Owed(sha, y, x)
  {
  }

  lemma ResumingRead(sha: Hash, l: Link, t: Link, replies: seq<Msg>)
    requires InRange(l.x) && InRange(l.y)
    requires Resuming(sha, l) && Resuming(sha, l.Swapped())
    requires l.y.reestablishing && l.xy != []
    requires forall i | 0 <= i < |replies| :: !replies[i].ChannelReestablish?
    requires t == l.(y := l.y.(reestablishing := false), xy := l.xy[1..], yx := l.yx + replies, lostY := multiset{})
    requires MakeReestablish(sha, t.y) == MakeReestablish(sha, l.y)
    ensures Resuming(sha, t) && Resuming(sha, t.Swapped())
  {
    hide MakeReestablish;
  }

  lemma SameReestablish(sha: Hash, s: Side, t: Side)
    requires InRange(s) && t == s.(reestablishing := t.reestablishing, awaitingRaa := t.awaitingRaa)
    ensures MakeReestablish(sha, t) == MakeReestablish(sha, s)
  {
  }

  lemma ReconnectKeeps(sha: Hash, l: Link)
    requires Inv(sha, l)
    ensures Inv(sha, Next(sha, l, Reconnect).value)
  {
    hide Represents, Payload, Owed, MakeReestablish;
    var t := Next(sha, l, Reconnect).value;
    SameReestablish(sha, l.x, t.x);
    SameReestablish(sha, l.y, t.y);
    MakesReestablish(sha, l.x);
    MakesReestablish(sha, l.y);
    NoPayload(t.xy);
    NoPayload(t.yx);
    OwedSame(sha, l.x, l.y, t.y);
    OwedSame(sha, t.y, l.x, t.x);
    Assemble(sha, t);
  }

  lemma ReestablishNumbers(sha: Hash, s: Side)
    requires InRange(s)
    ensures var m := MakeReestablish(sha, s);
            m.ChannelReestablish? && m.nextCommitment == s.holder + 1 && m.nextRevocation == s.counterparty
  {
  }

  lemma MakesReestablish(sha: Hash, s: Side)
    requires InRange(s)
    ensures MakeReestablish(sha, s).ChannelReestablish?
  {
  }

  // ------------------------------------------------------------- whole runs

  lemma SwapInv(sha: Hash, l: Link)
    ensures Inv(sha, l) <==> Inv(sha, l.Swapped())
  {
    assert l.Swapped().Swapped() == l;
  }

  lemma NextKeeps(sha: Hash, l: Link, op: Op)
    requires Inv(sha, l)
    ensures Next(sha, l, op).Some? && Inv(sha, Next(sha, l, op).value)
  {
    hide Half;
    match op
    case Sign =>
      if CanSign(l) {
        SignKeeps(sha, l);
      }
    case Deliver =>
      if l.xy != [] {
        match l.xy[0]
        case CommitmentSigned(_) => DeliverCommitment(sha, l);
        case RevokeAndAck(_) => DeliverRevocation(sha, l);
        case ChannelReestablish(_, _, _) => DeliverReestablish(sha, l);
      }
    case Reconnect =>
      ReconnectKeeps(sha, l);
  }

  /** The state after the steps; `None` once a peer has rejected something. */
  ghost function Run(sha: Hash, l: Link, steps: seq<Step>): Option<Link>
  {
    if steps == [] then Some(l)
    else
      var n := |steps| - 1;
      match Run(sha, l, steps[..n])
      case None => None
      case Some(t) => if InRange(t.x) && InRange(t.y) then Take(sha, t, steps[n]) else None
  }

  /**
   * In every run from a fresh channel, whatever the sends, deliveries and
   * disconnections, nothing is ever rejected: no data loss is reported, no
   * number is ancient, every secret proof checks.
   */
  lemma {:induction false} NeverRejected(sha: Hash, l: Link, steps: seq<Step>)
    requires Start(l)
    ensures Run(sha, l, steps).Some? && Inv(sha, Run(sha, l, steps).value)
  {
    hide Next, Half;
    if steps == [] {
      StartInv(sha, l);
    } else {
      var n := |steps| - 1;
      NeverRejected(sha, l, steps[..n]);
      var t := Run(sha, l, steps[..n]).value;
      if steps[n].swapped {
        SwapInv(sha, t);
        NextKeeps(sha, t.Swapped(), steps[n].op);
        SwapInv(sha, Next(sha, t.Swapped(), steps[n].op).value);
      } else {
        NextKeeps(sha, t, steps[n].op);
      }
    }
  }

  /** In every such run, a peer about to read a re-establishment will send again
      exactly what it had lost. */
  lemma RetransmitsInEveryRun(sha: Hash, l: Link, steps: seq<Step>)
    requires Start(l) && Run(sha, l, steps).Some?
    requires Run(sha, l, steps).value.y.reestablishing
    ensures var t := Run(sha, l, steps).value;
            && InRange(t.y) && t.xy != []
            && Receive(sha, t.y, t.xy[0]).Accepted?
            && multiset(Receive(sha, t.y, t.xy[0]).replies) == t.lostY
  {
    NeverRejected(sha, l, steps);
    ResendsExactlyTheLost(sha, Run(sha, l, steps).value);
  }
}
