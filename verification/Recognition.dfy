/**
 * Recognising a revoked commitment on chain: the obscured number is read back
 * from the transaction and looked up in the secrets the peer has released over
 * the whole life of the channel.
 */
module Recognition {
  import opened Wrappers
  import opened Powers
  import opened Bits
  import opened CommitmentBuild
  import CommitmentTx
  import TxOutputs
  import Channel
  import ChannelRuns
  import Releases
  import Shachain

  type TxId = seq<bv8>

  datatype TxIn = TxIn(funding: bool, sequence: nat)

  /** `funding` marks the input that spends our funding output. */
  datatype Tx = Tx(version: nat, lockTime: nat, inputs: seq<TxIn>, outputs: seq<TxOutputs.TxOut>)

  datatype FundingSpend =
    | HolderCommitment | CounterpartyCurrent | CooperativeClose
    | CounterpartyRevoked(number: nat) | UnknownCommitment

  datatype Monitor = Monitor(
    sha: Shachain.Hash, txid: Tx -> TxId, obscureFactor: nat, secrets: Shachain.Slots,
    holder: Option<TxId>, counterparty: Option<TxId>)

  function FundingInput(inputs: seq<TxIn>): Option<TxIn> {
    if inputs == [] then None
    else if inputs[0].funding then Some(inputs[0])
    else FundingInput(inputs[1..])
  }

  predicate CommitmentShape(tx: Tx, input: TxIn) {
    tx.lockTime / BYTES3 == 0x20 && input.sequence / BYTES3 == 0x80 && tx.version == 2
  }

  /** The number hidden in the two fields. */
  function HiddenNumber(m: Monitor, tx: Tx, input: TxIn): nat {
    Xor(Or(And(tx.lockTime, 0xff_ffff), And(input.sequence, 0xff_ffff) * BYTES3), m.obscureFactor)
  }

  function Classify(m: Monitor, tx: Tx): Option<FundingSpend> {
    match FundingInput(tx.inputs)
    case None => None
    case Some(input) =>
      if m.holder == Some(m.txid(tx)) then Some(HolderCommitment)
      else if m.counterparty == Some(m.txid(tx)) then Some(CounterpartyCurrent)
      else if !CommitmentShape(tx, input) then Some(CooperativeClose)
      else
        var number := HiddenNumber(m, tx, input);
        if number <= Shachain.MAX_INDEX &&
           Shachain.Lookup(m.sha, m.secrets, Shachain.IndexForCommitment(number)).Some?
        then Some(CounterpartyRevoked(number))
        else Some(UnknownCommitment)
  }

  /** The transaction for commitment `number`. */
  function CommitmentTxOf(number: nat, obscureFactor: nat, outputs: seq<TxOutputs.TxOut>): Tx {
    var obscured := Xor(number, obscureFactor);
    Tx(2, LockTimeFor(obscured), [TxIn(true, SequenceFor(obscured))], outputs)
  }

  lemma FieldBounds()
    ensures Pow2(48) == BYTES3 * BYTES3 == Shachain.MAX_INDEX + 1
  {
    Shachain.Pow48();
  }

  /** Every 48-bit number survives being hidden and read back. */
  lemma NumberRoundTrip(m: Monitor, number: nat, outputs: seq<TxOutputs.TxOut>)
    requires number <= Shachain.MAX_INDEX && m.obscureFactor <= Shachain.MAX_INDEX
    ensures var tx := CommitmentTxOf(number, m.obscureFactor, outputs);
            && FundingInput(tx.inputs) == Some(tx.inputs[0])
            && CommitmentShape(tx, tx.inputs[0]) && HiddenNumber(m, tx, tx.inputs[0]) == number
  {
    hide Xor, Or, And, Pow2;
    FieldBounds();
    var obscured := Xor(number, m.obscureFactor);
    XorBelow(number, m.obscureFactor, 48);
    FieldsCarry(obscured);
    var low, high := obscured % BYTES3, obscured / BYTES3;
    QuotientRemainder(0x2000_0000 + low, BYTES3, low, 0x20);
    QuotientRemainder(0x8000_0000 + high, BYTES3, high, 0x80);
    Mask24(0x2000_0000 + low);
    Mask24(0x8000_0000 + high);
    Constants();
    OrDisjoint(low, high, 24);
    XorTwice(number, m.obscureFactor);
  }

  /** What is revoked is exactly what the peer has released secrets for. */
  lemma RevokedRecognised(m: Monitor, secrets: seq<Shachain.Secret>, number: nat, outputs: seq<TxOutputs.TxOut>)
    requires |secrets| <= Shachain.MAX_INDEX + 1 && Shachain.InsertRun(m.sha, secrets) == Some(m.secrets)
    requires number <= Shachain.MAX_INDEX && m.obscureFactor <= Shachain.MAX_INDEX
    requires var id := m.txid(CommitmentTxOf(number, m.obscureFactor, outputs));
             m.holder != Some(id) && m.counterparty != Some(id)
    ensures Classify(m, CommitmentTxOf(number, m.obscureFactor, outputs)) ==
            Some(if number < |secrets| then CounterpartyRevoked(number) else UnknownCommitment)
  {
    hide CommitmentTxOf, CommitmentShape, HiddenNumber, Shachain.Lookup, Shachain.InsertRun;
    NumberRoundTrip(m, number, outputs);
    Shachain.StoreRefinesFullMap(m.sha, secrets, Shachain.IndexForCommitment(number));
  }

  // -------------------------------------------------------- over whole runs

  /** The store holds one secret per revoked commitment, in order. */
  ghost predicate Follows(c: Channel.Chan, secrets: seq<Shachain.Secret>) {
    && |secrets| == c.counterpartyNumber <= Shachain.MAX_INDEX + 1
    && Shachain.InsertRun(c.crypto.sha, secrets) == Some(c.secrets)
  }

  ghost predicate SameSecrets(c: Channel.Chan, d: Channel.Chan) {
    d.crypto == c.crypto && d.secrets == c.secrets && d.counterpartyNumber == c.counterpartyNumber
  }

  lemma OthersKeepSecrets(c: Channel.Chan, e: ChannelRuns.Event)
    requires !(e.Receive? && e.message.RevokeAndAck?)
    ensures SameSecrets(c, ChannelRuns.React(c, e).chan)
  {
    hide ChannelRuns.React, Releases.HolderStep;
    if e.Receive? {
      Releases.MessageMoves(c, e.message);
      Releases.OnlyForItsKind(c, e.message);
    } else {
      Releases.CommandsKeep(c, e);
    }
  }

  lemma RevocationAddsSecret(c: Channel.Chan, m: Channel.Message)
    requires m.RevokeAndAck?
    ensures var d := ChannelRuns.React(c, ChannelRuns.Receive(m)).chan;
            || SameSecrets(c, d)
            || (&& c.counterpartyNumber <= Shachain.MAX_INDEX
                && d.crypto == c.crypto && d.counterpartyNumber == c.counterpartyNumber + 1
                && Shachain.InsertInto(c.crypto.sha, c.secrets, Shachain.IndexForCommitment(c.counterpartyNumber), m.secret)
                   == Some(d.secrets))
  {
    hide ChannelRuns.React, Releases.HolderStep, Shachain.InsertInto;
    Releases.MessageMoves(c, m);
    if !Releases.Opens(c, m) { Releases.RevocationMoves(c, m); }
  }

  lemma {:induction false} RunFollows(c0: Channel.Chan, events: seq<ChannelRuns.Event>)
    returns (secrets: seq<Shachain.Secret>)
    requires c0.counterpartyNumber == 0 && c0.secrets == Shachain.EmptySlots()
    ensures Follows(ChannelRuns.Run(c0, events), secrets) && ChannelRuns.Run(c0, events).crypto == c0.crypto
  {
    hide ChannelRuns.React, Shachain.InsertInto;
    if events == [] {
      secrets := [];
    } else {
      var n := |events| - 1;
      secrets := RunFollows(c0, events[..n]);
      var c := ChannelRuns.Run(c0, events[..n]);
      var e := events[n];
      if e.Receive? && e.message.RevokeAndAck? {
        RevocationAddsSecret(c, e.message);
        if !SameSecrets(c, ChannelRuns.React(c, e).chan) {
          assert (secrets + [e.message.secret])[..|secrets|] == secrets;
          secrets := secrets + [e.message.secret];
        }
      } else {
        OthersKeepSecrets(c, e);
      }
    }
  }

  /**
   * After any run of a channel against any peer, a commitment with number `n`
   * that is not one of the two current ones is classified as revoked exactly
   * when `n` is below the counterparty's current number.
   */
  lemma RevocationRecognition(
    c0: Channel.Chan, events: seq<ChannelRuns.Event>, m: Monitor, number: nat, outputs: seq<TxOutputs.TxOut>)
    requires c0.counterpartyNumber == 0 && c0.secrets == Shachain.EmptySlots()
    requires m.sha == c0.crypto.sha && m.secrets == ChannelRuns.Run(c0, events).secrets
    requires number <= Shachain.MAX_INDEX && m.obscureFactor <= Shachain.MAX_INDEX
    requires var id := m.txid(CommitmentTxOf(number, m.obscureFactor, outputs));
             m.holder != Some(id) && m.counterparty != Some(id)
    ensures Classify(m, CommitmentTxOf(number, m.obscureFactor, outputs)) ==
            Some(if number < ChannelRuns.Run(c0, events).counterpartyNumber
                 then CounterpartyRevoked(number) else UnknownCommitment)
  {
    hide Classify, CommitmentTxOf, ChannelRuns.Run, Shachain.InsertRun;
    var secrets := RunFollows(c0, events);
    RevokedRecognised(m, secrets, number, outputs);
  }

  // ---------------------------------------------------- what each answer means

  /** The verdicts in order: one of the two current commitments by its id, a cooperative close by
      its shape, and otherwise a commitment, revoked or unknown by its hidden number. */
  lemma ClassifiesExactly(m: Monitor, tx: Tx)
    ensures var r := Classify(m, tx);
            var input := FundingInput(tx.inputs);
            var holder, peer := m.holder == Some(m.txid(tx)), m.counterparty == Some(m.txid(tx));
            var shaped := input.Some? && tx.version == 2 && tx.lockTime / 0x100_0000 == 0x20
                          && input.value.sequence / 0x100_0000 == 0x80;
            && (r == None <==> forall i | 0 <= i < |tx.inputs| :: !tx.inputs[i].funding)
            && (r == Some(HolderCommitment) <==> input.Some? && holder)
            && (r == Some(CounterpartyCurrent) <==> input.Some? && !holder && peer)
            && (r == Some(CooperativeClose) <==> input.Some? && !holder && !peer && !shaped)
            && (r.Some? && (r.value.CounterpartyRevoked? || r.value.UnknownCommitment?) <==>
                  input.Some? && !holder && !peer && shaped)
  {
    hide HiddenNumber, Shachain.Lookup;
    FundingFound(tx.inputs);
  }

  lemma {:induction false} FundingFound(inputs: seq<TxIn>)
    ensures FundingInput(inputs).None? <==> forall i | 0 <= i < |inputs| :: !inputs[i].funding
    ensures FundingInput(inputs).Some? ==> FundingInput(inputs).value in inputs && FundingInput(inputs).value.funding
  {
    if inputs != [] {
      FundingFound(inputs[1..]);
      assert inputs == [inputs[0]] + inputs[1..];
    }
  }

  /** The transaction of a commitment, with whatever outputs are built for it. */
  function TxFor(v: Channel.Commitment, obscureFactor: nat, outputs: Channel.Commitment -> seq<TxOutputs.TxOut>): Tx {
    CommitmentTxOf(v.number, obscureFactor, outputs(v))
  }

  /** The monitor of a channel: its secrets and its two stored commitments. */
  function MonitorOf(c: Channel.Chan, txid: Tx -> TxId, obscureFactor: nat,
                     outputs: Channel.Commitment -> seq<TxOutputs.TxOut>): Monitor {
    Monitor(c.crypto.sha, txid, obscureFactor, c.secrets,
            if c.currentHolder.Some? then Some(txid(TxFor(c.currentHolder.value, obscureFactor, outputs))) else None,
            if c.currentCounterparty.Some? then Some(txid(TxFor(c.currentCounterparty.value, obscureFactor, outputs)))
            else None)
  }

  /** The answers for the transaction of a commitment. */
  lemma CommitmentTxVerdict(m: Monitor, number: nat, outputs: seq<TxOutputs.TxOut>)
    requires number <= Shachain.MAX_INDEX && m.obscureFactor <= Shachain.MAX_INDEX
    ensures var tx := CommitmentTxOf(number, m.obscureFactor, outputs);
            Classify(m, tx) == Some(
              if m.holder == Some(m.txid(tx)) then HolderCommitment
              else if m.counterparty == Some(m.txid(tx)) then CounterpartyCurrent
              else if Shachain.Lookup(m.sha, m.secrets, Shachain.IndexForCommitment(number)).Some?
              then CounterpartyRevoked(number) else UnknownCommitment)
  {
    hide CommitmentTxOf, CommitmentShape, HiddenNumber, Shachain.Lookup;
    NumberRoundTrip(m, number, outputs);
  }

  /** The transaction of any commitment spends the funding output. */
  lemma CurrentVerdict(m: Monitor, number: nat, outputs: seq<TxOutputs.TxOut>)
    ensures var tx := CommitmentTxOf(number, m.obscureFactor, outputs);
            && (m.holder == Some(m.txid(tx)) ==> Classify(m, tx) == Some(HolderCommitment))
            && (m.holder != Some(m.txid(tx)) && m.counterparty == Some(m.txid(tx)) ==>
                  Classify(m, tx) == Some(CounterpartyCurrent))
  {
    hide LockTimeFor, SequenceFor, Xor;
  }

  /**
   * What the monitor of a channel says of every commitment there ever was, after any run against
   * any peer: ours is ours, the peer's current one is current, and every earlier one of the
   * peer's, unless it has the id of a current one, is revoked, with its number, and the secret
   * that opens its point is there.
   */
  lemma MonitorKnowsThemAll(
    c0: Channel.Chan, events: seq<ChannelRuns.Event>, txid: Tx -> TxId, obscureFactor: nat,
    outputs: Channel.Commitment -> seq<TxOutputs.TxOut>, k: nat)
    requires ChannelRuns.Fresh(c0) && c0.counterpartyNumber == 0 && c0.secrets == Shachain.EmptySlots()
    requires obscureFactor <= Shachain.MAX_INDEX && k < ChannelRuns.Run(c0, events).counterpartyNumber
    ensures var c := ChannelRuns.Run(c0, events);
            var m := MonitorOf(c, txid, obscureFactor, outputs);
            var old' := Releases.Signed(c0, events);
            && c.currentHolder.Some? && c.currentCounterparty.Some? && k < |old'|
            && var ours := TxFor(c.currentHolder.value, obscureFactor, outputs);
               var theirs := TxFor(c.currentCounterparty.value, obscureFactor, outputs);
               var revoked := TxFor(old'[k], obscureFactor, outputs);
               && Classify(m, ours) == Some(HolderCommitment)
               && (txid(theirs) != txid(ours) ==> Classify(m, theirs) == Some(CounterpartyCurrent))
               && (txid(revoked) !in {txid(ours), txid(theirs)} ==>
                     && Classify(m, revoked) == Some(CounterpartyRevoked(k))
                     && var s := Shachain.Lookup(c.crypto.sha, c.secrets, Shachain.IndexForCommitment(k));
                        s.Some? && c.crypto.pointOf(s.value) == old'[k].point)
  {
    hide ChannelRuns.Run, ChannelRuns.Fresh, Releases.Signed, Shachain.Lookup, Classify, CommitmentTxOf, Releases.OwnTerms;
    var c := ChannelRuns.Run(c0, events);
    Stored(c0, events);
    Releases.RevokedCanBeOpened(c0, events, k);
    var v := Releases.Signed(c0, events)[k];
    var m := MonitorOf(c, txid, obscureFactor, outputs);
    CurrentVerdict(m, c.currentHolder.value.number, outputs(c.currentHolder.value));
    CurrentVerdict(m, c.currentCounterparty.value.number, outputs(c.currentCounterparty.value));
    CommitmentTxVerdict(m, k, outputs(v));
  }

  lemma Stored(c0: Channel.Chan, events: seq<ChannelRuns.Event>)
    requires ChannelRuns.Fresh(c0)
    ensures ChannelRuns.Run(c0, events).currentHolder.Some? && c0.currentCounterparty.Some?
  {
    hide ChannelRuns.Run, Releases.OwnTerms;
    Releases.RevokedOnlyOnceReplaced(c0, events);
  }
}
