/**
 * Cooperative close: the `closing_signed` negotiation (BOLT 2, "Closing
 * Negotiation"), with fee ranges and without.
 *
 * A signature is the transaction it signs; both sides are quiescent.
 */
module Closing {
  import opened Wrappers
  import opened TxOutputs
  import opened Powers

  const CLOSING_TX_WEIGHT_BOUND: nat := 714
  const DUST_FLOOR: nat := 546
  const FEERATE_FLOOR: nat := 253
  const U64_MAX: nat := 0xffff_ffff_ffff_ffff

  type Tx = seq<TxOut>

  datatype Range = Range(min: nat, max: nat)

  datatype ClosingSigned = ClosingSigned(fee: nat, signed: Tx, range: Option<Range>)

  /** One side: its role and view of the balances (msat), the last fee it
      proposed, and the transaction it closed on. */
  datatype Closer = Closer(
    opener: bool, mine: nat, theirs: nat, myScript: Script, theirScript: Script, dustLimit: nat,
    last: Option<nat>, closed: Option<Agreement>)

  datatype Agreement = Agreement(fee: nat, tx: Tx)

  /** `ClampPanic` stands for the panic of a clamp whose limits are the wrong way round. */
  datatype CloseError =
    | NotReady | NoOutputs | InvalidSignature | NoOverlap | OutsideRange | FunderMoved | ClampPanic

  datatype Outcome = Reply(side: Closer, m: ClosingSigned) | Done(side: Closer) | Failed(error: CloseError)

  // ------------------------------------------------------------ the amounts

  function SaturatingSub(a: nat, b: nat): nat {
    if a < b then 0 else a - b
  }

  function Min(a: nat, b: nat): nat {
    if a < b then a else b
  }

  function Max(a: nat, b: nat): nat {
    if a < b then b else a
  }

  function FeeAt(feerate: nat): nat {
    feerate * CLOSING_TX_WEIGHT_BOUND / 1000
  }

  /** Our lower and upper limit. */
  function Limits(c: Closer, target: nat): Range {
    Range(FeeAt(FEERATE_FLOOR), Min(FeeAt(target) * 2, if c.opener then c.mine / 1000 else U64_MAX))
  }

  function Clamp(x: nat, lo: nat, hi: nat): (r: nat)
    requires lo <= hi
    ensures lo <= r <= hi
  {
    if x < lo then lo else if x > hi then hi else x
  }

  /** The limits are in order; the source's `clamp` panics otherwise. */
  predicate Clampable(c: Closer, target: nat) {
    Limits(c, target).min <= Limits(c, target).max
  }

  function OurFee(c: Closer, target: nat): nat
    requires Clampable(c, target)
  {
    Clamp(FeeAt(target), Limits(c, target).min, Limits(c, target).max)
  }

  // -------------------------------------------------------- the transaction

  function Sorted2(a: TxOut, b: TxOut): Tx {
    if Le(Ranked(a, 0), Ranked(b, 0)) then [a, b] else [b, a]
  }

  function BuildClosing(holder: TxOut, counterparty: TxOut, dust: nat): Tx {
    if holder.value >= dust && counterparty.value >= dust then Sorted2(holder, counterparty)
    else if holder.value >= dust then [holder]
    else if counterparty.value >= dust then [counterparty]
    else []
  }

  /** The funder pays the fee. */
  function TxAt(c: Closer, fee: nat): Tx {
    BuildClosing(
      TxOut(if c.opener then SaturatingSub(c.mine / 1000, fee) else c.mine / 1000, c.myScript),
      TxOut(if c.opener then c.theirs / 1000 else SaturatingSub(c.theirs / 1000, fee), c.theirScript),
      Max(c.dustLimit, DUST_FLOOR))
  }

  // ------------------------------------------------------- the negotiation

  function Closed(c: Closer, fee: nat): Closer {
    c.(closed := Some(Agreement(fee, TxAt(c, fee))))
  }

  /** The funder's first message. */
  function Open(c: Closer, target: nat): Outcome {
    if !c.opener || c.last.Some? || c.closed.Some? then Failed(NotReady)
    else if !Clampable(c, target) then Failed(ClampPanic)
    else
      var fee := OurFee(c, target);
      if TxAt(c, fee) == [] then Failed(NoOutputs)
      else Reply(c.(last := Some(fee)), ClosingSigned(fee, TxAt(c, fee), Some(Limits(c, target))))
  }

  /** Answer inside the overlap of both ranges. */
  function OnRanged(c: Closer, m: ClosingSigned, target: nat): Outcome
    requires Clampable(c, target) && m.range.Some?
  {
    var ours := Limits(c, target);
    var lo := Max(ours.min, m.range.value.min);
    var hi := Min(ours.max, m.range.value.max);
    if lo > hi then Failed(NoOverlap)
    else if c.opener then
      if m.fee < lo || m.fee > hi then Failed(OutsideRange)
      else Reply(Closed(c, m.fee).(last := Some(m.fee)), ClosingSigned(m.fee, TxAt(c, m.fee), Some(ours)))
    else if c.last.Some? then
      if m.fee != c.last.value then Failed(FunderMoved) else Done(Closed(c, m.fee))
    else
      var fee := Clamp(OurFee(c, target), lo, hi);
      var proposed := c.(last := Some(fee));
      if TxAt(c, fee) == [] then Failed(NoOutputs)
      else Reply(if fee == m.fee then Closed(proposed, fee) else proposed, ClosingSigned(fee, TxAt(c, fee), Some(ours)))
  }

  function AbsDiff(a: nat, b: nat): nat {
    if a < b then b - a else a - b
  }

  /** The next range-less proposal. */
  function Midway(sent: nat, received: nat): nat {
    if AbsDiff(received, sent) <= 1 then received else (received + sent) / 2
  }

  function OnRangeless(c: Closer, m: ClosingSigned, target: nat): Outcome
    requires Clampable(c, target)
  {
    var next := if c.last.None? then OurFee(c, target) else Midway(c.last.value, m.fee);
    var proposed := c.(last := Some(next));
    if TxAt(c, next) == [] then Failed(NoOutputs)
    else Reply(if next == m.fee then Closed(proposed, next) else proposed, ClosingSigned(next, TxAt(c, next), None))
  }

  function OnClosingSigned(c: Closer, m: ClosingSigned, target: nat): Outcome {
    if c.closed.Some? then Failed(NotReady)
    else if TxAt(c, m.fee) == [] then Failed(NoOutputs)
    else if m.signed != TxAt(c, m.fee) then Failed(InvalidSignature)
    else if c.last == Some(m.fee) then Done(Closed(c, m.fee))
    else if !Clampable(c, target) then Failed(ClampPanic)
    else if m.range.Some? then OnRanged(c, m, target)
    else OnRangeless(c, m, target)
  }

  predicate Within(fee: nat, r: Range) {
    r.min <= fee <= r.max
  }

  // ------------------------------------------------------------- the clamp

  /** The limits are in order exactly from a target of 127 per kiloweight up, and for
      the funder with at least 180 satoshis of balance. */
  lemma ClampableExactlyWhen(c: Closer, target: nat)
    ensures Clampable(c, target) <==> target >= 127 && (c.opener ==> c.mine >= 180_000)
  {
    assert FeeAt(FEERATE_FLOOR) == 180;
    assert FeeAt(target) >= 90 <==> target >= 127;
  }

  /** Where the panic is reached: by a funder about to open, and by a side whose
      peer sent a valid signature on a fee it had not itself proposed. */
  lemma ClampPanicsExactlyWhen(c: Closer, m: ClosingSigned, target: nat)
    ensures var low := target < 127 || (c.opener && c.mine < 180_000);
            && (Open(c, target) == Failed(ClampPanic) <==> c.opener && Fresh(c) && low)
            && (OnClosingSigned(c, m, target) == Failed(ClampPanic) <==>
                  c.closed.None? && TxAt(c, m.fee) != [] && m.signed == TxAt(c, m.fee) && c.last != Some(m.fee) && low)
  {
    hide TxAt, Clampable, OurFee, Limits;
    ClampableExactlyWhen(c, target);
  }

  // ------------------------------------------------------- against any peer

  /** A side closes only on the transaction its peer's message signed, at that message's fee, and
      only once; a message that signs anything else is refused. */
  lemma ClosesOnlyOnSigned(c: Closer, m: ClosingSigned, target: nat)
    ensures var r := OnClosingSigned(c, m, target);
            && ((r.Reply? || r.Done?) && r.side.closed.Some? ==>
                  c.closed.None? && r.side.closed == Some(Agreement(m.fee, m.signed)) && m.signed == TxAt(c, m.fee))
            && (m.signed != TxAt(c, m.fee) ==> r.Failed?)
            && (r.Done? ==> r.side.closed.Some?)
  {
    hide BuildClosing, Limits, Clampable;
  }

  /** With ranges, what a side closes on is inside the peer's range and its own, or what it had
      itself proposed. */
  lemma ClosesInsideRanges(c: Closer, m: ClosingSigned, target: nat)
    requires m.range.Some?
    ensures var r := OnClosingSigned(c, m, target);
            (r.Reply? || r.Done?) && r.side.closed.Some? ==>
              c.last == Some(m.fee) || (Within(m.fee, Limits(c, target)) && Within(m.fee, m.range.value))
  {
    hide TxAt, Limits;
  }

  // ---------------------------------------------------- two honest parties

  /** The same channel seen from its two ends, before any closing message. The dust limits
      are each side's own. */
  ghost predicate Mirrored(o: Closer, a: Closer) {
    && o.opener && !a.opener
    && o.mine == a.theirs && o.theirs == a.mine
    && o.myScript == a.theirScript && o.theirScript == a.myScript
  }

  /** An output worth keeping for this side. */
  predicate Kept(c: Closer, value: nat) {
    value >= Max(c.dustLimit, DUST_FLOOR)
  }

  /** At this fee both ends keep and drop the same outputs: neither the funder's rest nor the
      other's balance lies between the two dust limits. */
  predicate KeepSame(o: Closer, a: Closer, fee: nat) {
    && (Kept(o, SaturatingSub(o.mine / 1000, fee)) <==> Kept(a, SaturatingSub(o.mine / 1000, fee)))
    && (Kept(o, o.theirs / 1000) <==> Kept(a, o.theirs / 1000))
  }

  /** One party's output, if it is worth keeping. */
  function PaidTo(c: Closer, value: nat, script: Script): multiset<TxOut> {
    if Kept(c, value) then multiset{TxOut(value, script)} else multiset{}
  }

  /** The funder `o` is paid its balance less the fee, to its own script, the other party its whole
      balance to its own, each if worth keeping, and nobody else anything. */
  ghost predicate PaysOut(o: Closer, fee: nat, tx: Tx) {
    multiset(tx) == PaidTo(o, SaturatingSub(o.mine / 1000, fee), o.myScript) + PaidTo(o, o.theirs / 1000, o.theirScript)
  }

  function SumOf(tx: Tx): nat {
    if tx == [] then 0 else SumOf(tx[..|tx| - 1]) + tx[|tx| - 1].value
  }

  function KeptOf(x: TxOut, dust: nat): multiset<TxOut> {
    if x.value >= dust then multiset{x} else multiset{}
  }

  lemma BuildKeeps(holder: TxOut, counterparty: TxOut, dust: nat)
    ensures multiset(BuildClosing(holder, counterparty, dust)) == KeptOf(holder, dust) + KeptOf(counterparty, dust)
  {
    hide Le;
  }

  /** Who is paid what, from either end. */
  lemma PaysEachItsOwn(c: Closer, fee: nat)
    ensures c.opener ==> PaysOut(c, fee, TxAt(c, fee))
    ensures !c.opener ==>
              multiset(TxAt(c, fee)) ==
              PaidTo(c, c.mine / 1000, c.myScript) + PaidTo(c, SaturatingSub(c.theirs / 1000, fee), c.theirScript)
  {
    hide BuildClosing;
    BuildKeeps(TxOut(if c.opener then SaturatingSub(c.mine / 1000, fee) else c.mine / 1000, c.myScript),
               TxOut(if c.opener then c.theirs / 1000 else SaturatingSub(c.theirs / 1000, fee), c.theirScript),
               Max(c.dustLimit, DUST_FLOOR));
  }

  lemma SumOfTwo(a: TxOut, b: TxOut)
    ensures SumOf([a, b]) == a.value + b.value
  {
    assert [a][..0] == [];
    assert SumOf([a]) == a.value;
    assert [a, b][..1] == [a];
  }

  /** Nothing is lost or made: with both outputs kept and a fee the funder can pay, outputs and
      fee add up to the two balances in whole satoshis. */
  lemma ClosingConserves(c: Closer, fee: nat)
    requires var (funder, other) := if c.opener then (c.mine / 1000, c.theirs / 1000) else (c.theirs / 1000, c.mine / 1000);
             fee <= funder && Kept(c, funder - fee) && Kept(c, other)
    ensures SumOf(TxAt(c, fee)) + fee == c.mine / 1000 + c.theirs / 1000
  {
    hide Le, SumOf;
    var mine := TxOut(if c.opener then SaturatingSub(c.mine / 1000, fee) else c.mine / 1000, c.myScript);
    var theirs := TxOut(if c.opener then c.theirs / 1000 else SaturatingSub(c.theirs / 1000, fee), c.theirScript);
    SumOfTwo(mine, theirs);
    SumOfTwo(theirs, mine);
  }

  lemma SortedSymmetric(a: TxOut, b: TxOut)
    ensures Sorted2(a, b) == Sorted2(b, a)
  {
    Total(Ranked(a, 0), Ranked(b, 0));
    if Le(Ranked(a, 0), Ranked(b, 0)) && Le(Ranked(b, 0), Ranked(a, 0)) {
      Antisymmetric(Ranked(a, 0), Ranked(b, 0));
    }
  }

  /** Both ends build the same transaction for a fee exactly when they keep the same outputs. */
  lemma SameTx(o: Closer, a: Closer, fee: nat)
    requires Mirrored(o, a)
    ensures TxAt(o, fee) == TxAt(a, fee) <==> KeepSame(o, a, fee)
  {
    SortedSymmetric(TxOut(SaturatingSub(o.mine / 1000, fee), o.myScript), TxOut(o.theirs / 1000, o.theirScript));
  }

  /** A lower fee never empties the transaction. */
  lemma LowerFeeKeepsOutputs(c: Closer, low: nat, high: nat)
    requires low <= high && TxAt(c, high) != []
    ensures TxAt(c, low) != []
  {
  }

  ghost predicate Fresh(c: Closer) {
    c.last.None? && c.closed.None?
  }

  /** The two ends keep the same outputs at every fee up to `high`; always so when their dust
      limits are equal or both below the floor. */
  ghost predicate KeepSameUpTo(o: Closer, a: Closer, high: nat) {
    forall fee: nat | fee <= high :: KeepSame(o, a, fee)
  }

  lemma EqualDustKeepsSame(o: Closer, a: Closer, high: nat)
    requires Max(o.dustLimit, DUST_FLOOR) == Max(a.dustLimit, DUST_FLOOR)
    ensures KeepSameUpTo(o, a, high)
  {
  }

  /** With different dust limits honest parties can fail each other: an offer at which they keep
      different outputs is refused as wrongly signed, or leaves the receiver nothing to build. */
  lemma DifferentDustFails(o: Closer, a: Closer, targetO: nat, targetA: nat)
    requires Mirrored(o, a) && Fresh(o) && Fresh(a) && Open(o, targetO).Reply?
    requires !KeepSame(o, a, Open(o, targetO).m.fee)
    ensures OnClosingSigned(a, Open(o, targetO).m, targetA) in {Failed(InvalidSignature), Failed(NoOutputs)}
  {
    hide KeepSame, TxAt, Limits, OurFee, Clampable;
    SameTx(o, a, Open(o, targetO).m.fee);
  }

  /** Such parties: 546 and 1000 satoshis of dust limit, and 800 for the other party. */
  lemma DifferentDustExists()
    ensures exists o: Closer, a: Closer ::
              Mirrored(o, a) && Fresh(o) && Fresh(a) && Open(o, 253).Reply? && !KeepSame(o, a, Open(o, 253).m.fee)
  {
    var o := Closer(true, 600_000_000, 800_000, [1], [2], 546, None, None);
    var a := Closer(false, 800_000, 600_000_000, [2], [1], 1000, None, None);
    assert Limits(o, 253) == Range(180, 360) && OurFee(o, 253) == 180;
    assert Mirrored(o, a) && Fresh(o) && Fresh(a) && Open(o, 253).Reply? && !KeepSame(o, a, Open(o, 253).m.fee);
  }

  ghost predicate Agree(o: Closer, a: Closer, fee: nat) {
    && o.closed == Some(Agreement(fee, TxAt(o, fee)))
    && a.closed == Some(Agreement(fee, TxAt(o, fee)))
    && TxAt(o, fee) != []
  }

  /**
   * With fee ranges: the funder's offer and at most two more messages, and both
   * are closed on one transaction whose fee lies within both ranges.
   */
  lemma RangedCloseAgrees(o: Closer, a: Closer, targetO: nat, targetA: nat) returns (fee: nat, o': Closer, a': Closer)
    requires Mirrored(o, a) && Fresh(o) && Fresh(a)
    requires Clampable(o, targetO) && Clampable(a, targetA)
    requires TxAt(o, Limits(o, targetO).max) != [] && KeepSameUpTo(o, a, Limits(o, targetO).max)
    ensures Within(fee, Limits(o, targetO)) && Within(fee, Limits(a, targetA)) && fee <= o.mine / 1000
    ensures Agree(o', a', fee) && PaysOut(o, fee, o'.closed.value.tx)
    ensures var first := Open(o, targetO);
            && first.Reply?
            && var second := OnClosingSigned(a, first.m, targetA);
            && second.Reply?
            && var third := OnClosingSigned(first.side, second.m, targetO);
            || (third == Done(o') && second.side == a')
            || (third.Reply? && third.side == o' && OnClosingSigned(second.side, third.m, targetA) == Done(a'))
  {
    hide TxAt, FeeAt, KeepSame, PaysOut;
    var first := Open(o, targetO);
    var offer := OurFee(o, targetO);
    LowerFeeKeepsOutputs(o, offer, Limits(o, targetO).max);
    SameTx(o, a, offer);
    var lo := Max(Limits(a, targetA).min, Limits(o, targetO).min);
    var hi := Min(Limits(a, targetA).max, Limits(o, targetO).max);
    fee := Clamp(OurFee(a, targetA), lo, hi);
    PaysEachItsOwn(o, fee);
    LowerFeeKeepsOutputs(o, fee, Limits(o, targetO).max);
    SameTx(o, a, fee);
    StateFree(o, a, fee, offer);
    var second := OnClosingSigned(a, first.m, targetA);
    var third := OnClosingSigned(first.side, second.m, targetO);
    o' := third.side;
    a' := if third.Done? then second.side else OnClosingSigned(second.side, third.m, targetA).side;
  }

  /** Proposals and results do not enter the transaction. */
  lemma StateFree(o: Closer, a: Closer, fee: nat, other: nat)
    ensures forall last, closed :: TxAt(o.(last := last, closed := closed), fee) == TxAt(o, fee)
    ensures forall last, closed :: TxAt(a.(last := last, closed := closed), fee) == TxAt(a, fee)
    ensures forall last, closed :: TxAt(o.(last := last, closed := closed), other) == TxAt(o, other)
  {
  }

  // -------------------------------------------------- without fee ranges

  /** Each proposal lands strictly between the last two unless they are adjacent, and
      halves the distance between them. */
  lemma GapShrinks(sent: nat, received: nat)
    requires AbsDiff(received, sent) > 1
    ensures var next := Midway(sent, received);
            && AbsDiff(next, received) <= (AbsDiff(received, sent) + 1) / 2 < AbsDiff(received, sent)
            && Min(sent, received) < next < Max(sent, received)
  {
  }

  /** The targets of the two sides. */
  datatype Targets = Targets(funder: nat, other: nat) {
    function For(c: Closer): nat {
      if c.opener then funder else other
    }
  }

  /** `m` is on its way from `x` to `y`; `Over` once a side takes the other's offer as final. */
  datatype Talk = Talking(x: Closer, y: Closer, m: ClosingSigned) | Over(x: Closer, y: Closer) | Broken

  function Deliver(t: Talk, targets: Targets): Talk
    requires t.Talking?
  {
    match OnClosingSigned(t.y, t.m, targets.For(t.y))
    case Reply(y, m) => Talking(y, t.x, m)
    case Done(y) => Over(y, t.x)
    case Failed(_) => Broken
  }

  function Talks(t: Talk, targets: Targets, n: nat): Talk
    decreases n
  {
    if n == 0 || !t.Talking? then t
    else Talks(Deliver(t, targets), targets, n - 1)
  }

  /** `c` is the end `d` of the channel, whatever it has proposed since. */
  ghost predicate SameEnd(c: Closer, d: Closer) {
    c.(last := None, closed := None) == d.(last := None, closed := None)
  }

  ghost predicate Ends(o: Closer, a: Closer, t: Talk)
    requires t.Talking?
  {
    (SameEnd(t.x, o) && SameEnd(t.y, a)) || (SameEnd(t.x, a) && SameEnd(t.y, o))
  }

  /** An offer without a range, signed, no fee above `high`. */
  ghost predicate Offered(o: Closer, a: Closer, t: Talk, high: nat) {
    && t.Talking? && Ends(o, a, t)
    && t.m.range.None? && t.m.signed == TxAt(o, t.m.fee) && t.m.fee <= high
    && t.x.last == Some(t.m.fee) && t.y.closed.None?
  }

  /** Both have proposed. `x` is closed exactly if it accepted `y`'s last proposal. */
  ghost predicate Haggling(o: Closer, a: Closer, t: Talk, high: nat) {
    && Offered(o, a, t, high) && t.y.last.Some? && t.y.last.value <= high
    && t.x.closed == if t.y.last == Some(t.m.fee) then Some(Agreement(t.m.fee, TxAt(o, t.m.fee))) else None
  }

  ghost predicate AllClampable(o: Closer, a: Closer, targets: Targets) {
    o.opener && !a.opener && Clampable(o, targets.funder) && Clampable(a, targets.other)
  }

  lemma EndFacts(o: Closer, a: Closer, c: Closer, fee: nat, targets: Targets)
    requires Mirrored(o, a) && AllClampable(o, a, targets) && (SameEnd(c, o) || SameEnd(c, a)) && KeepSame(o, a, fee)
    ensures TxAt(c, fee) == TxAt(o, fee) && Clampable(c, targets.For(c))
  {
    SameTx(o, a, fee);
  }

  /** One delivery: done, or the gap has shrunk inside the old one. */
  lemma HaggleStep(o: Closer, a: Closer, t: Talk, targets: Targets, high: nat)
    requires Mirrored(o, a) && AllClampable(o, a, targets)
    requires Haggling(o, a, t, high) && TxAt(o, high) != [] && KeepSameUpTo(o, a, high)
    ensures var next := Deliver(t, targets);
            var mine, theirs := t.y.last.value, t.m.fee;
            && (mine == theirs ==>
                  next.Over? && next.x.closed == next.y.closed == Some(Agreement(theirs, TxAt(o, theirs))))
            && (mine != theirs ==>
                  Haggling(o, a, next, high) && next.y.last == Some(theirs) && next.m.fee == Midway(mine, theirs))
  {
    hide TxAt, Mirrored, AllClampable, Clampable, KeepSame;
    var next := Midway(t.y.last.value, t.m.fee);
    EndFacts(o, a, t.y, t.m.fee, targets);
    EndFacts(o, a, t.y, next, targets);
    EndFacts(o, a, t.y.(last := Some(next)), next, targets);
    LowerFeeKeepsOutputs(o, t.m.fee, high);
    LowerFeeKeepsOutputs(o, next, high);
  }

  ghost predicate Between(fee: nat, x: nat, y: nat) {
    Min(x, y) <= fee <= Max(x, y)
  }

  /**
   * Without fee ranges: from any two proposals at most 2^k apart the talks end
   * within k + 2 deliveries, with both closed on one transaction whose fee lies
   * between the proposals.
   */
  lemma {:induction false} RangelessCloseAgrees(o: Closer, a: Closer, t: Talk, targets: Targets, high: nat, k: nat)
    returns (n: nat, fee: nat)
    requires Mirrored(o, a) && AllClampable(o, a, targets)
    requires Haggling(o, a, t, high) && TxAt(o, high) != [] && KeepSameUpTo(o, a, high)
    requires AbsDiff(t.m.fee, t.y.last.value) <= Pow2(k)
    ensures n <= k + 2
    ensures Between(fee, t.m.fee, t.y.last.value)
    ensures Settles(Talks(t, targets, n), fee, TxAt(o, fee))
    decreases AbsDiff(t.m.fee, t.y.last.value)
  {
    hide TxAt, Mirrored, AllClampable, Clampable, Haggling, Deliver, KeepSameUpTo;
    HagglingFacts(o, a, t, high);
    HaggleStep(o, a, t, targets, high);
    var next := Deliver(t, targets);
    var mine, theirs := t.y.last.value, t.m.fee;
    if mine == theirs {
      n, fee := 1, theirs;
      assert Talks(t, targets, 1) == Talks(next, targets, 0);
    } else {
      HagglingFacts(o, a, next, high);
      if AbsDiff(theirs, mine) > 1 {
        GapShrinks(mine, theirs);
        n, fee := RangelessCloseAgrees(o, a, next, targets, high, k - 1);
      } else {
        HaggleStep(o, a, next, targets, high);
        n, fee := 1, theirs;
        assert Talks(next, targets, 1) == Talks(Deliver(next, targets), targets, 0);
      }
      n := n + 1;
    }
  }

  /** Both are closed on this transaction. */
  ghost predicate Settles(t: Talk, fee: nat, tx: Tx) {
    t.Over? && t.x.closed == t.y.closed == Some(Agreement(fee, tx))
  }

  /** The whole range-less talks, from one side's first offer: the other answers
      with its own fee, and they meet between the two. */
  lemma RangelessTalksAgree(o: Closer, a: Closer, t: Talk, targets: Targets, k: nat) returns (n: nat, fee: nat)
    requires Mirrored(o, a) && AllClampable(o, a, targets)
    requires t.Talking? && t.x.closed.None? && Fresh(t.y) && Clampable(t.y, targets.For(t.y))
    requires var own := OurFee(t.y, targets.For(t.y));
             && Offered(o, a, t, Max(own, t.m.fee)) && TxAt(o, Max(own, t.m.fee)) != []
             && KeepSameUpTo(o, a, Max(own, t.m.fee))
             && AbsDiff(own, t.m.fee) <= Pow2(k)
    ensures n <= k + 3
    ensures Between(fee, t.m.fee, OurFee(t.y, targets.For(t.y)))
    ensures Settles(Talks(t, targets, n), fee, TxAt(o, fee)) && PaysOut(o, fee, TxAt(o, fee))
  {
    hide TxAt, Mirrored, Clampable, Haggling, Offered, Deliver, OurFee, KeepSameUpTo, PaysOut;
    var own := OurFee(t.y, targets.For(t.y));
    var high := Max(own, t.m.fee);
    FirstAnswer(o, a, t, targets, high);
    var next := Deliver(t, targets);
    HagglingFacts(o, a, next, high);
    n, fee := RangelessCloseAgrees(o, a, next, targets, high, k);
    n := n + 1;
    PaysEachItsOwn(o, fee);
  }

  lemma HagglingFacts(o: Closer, a: Closer, t: Talk, high: nat)
    requires Haggling(o, a, t, high)
    ensures t.Talking? && t.y.last.Some?
  {
  }

  /** The first answer to a range-less offer: from then on both have proposed. */
  lemma FirstAnswer(o: Closer, a: Closer, t: Talk, targets: Targets, high: nat)
    requires Mirrored(o, a) && AllClampable(o, a, targets)
    requires Offered(o, a, t, high) && t.x.closed.None? && t.y.last.None? && TxAt(o, high) != []
    requires KeepSameUpTo(o, a, high)
    requires Clampable(t.y, targets.For(t.y)) && OurFee(t.y, targets.For(t.y)) <= high
    ensures var next := Deliver(t, targets);
            Haggling(o, a, next, high) && next.m.fee == OurFee(t.y, targets.For(t.y)) && next.y.last == Some(t.m.fee)
  {
    hide TxAt, Mirrored, AllClampable, Clampable, OurFee, KeepSame;
    EndFacts(o, a, t.y, t.m.fee, targets);
    var next := OurFee(t.y, targets.For(t.y));
    EndFacts(o, a, t.y, next, targets);
    EndFacts(o, a, t.y.(last := Some(next)), next, targets);
    LowerFeeKeepsOutputs(o, t.m.fee, high);
    LowerFeeKeepsOutputs(o, next, high);
  }

  // ------------------------------------------------------- the side as an object

  class Negotiator {
    const opener: bool
    const mine: nat
    const theirs: nat
    const myScript: Script
    const theirScript: Script
    const dustLimit: nat
    var last: Option<nat>
    var closed: Option<Agreement>

    constructor (c: Closer)
      ensures Side() == c
    {
      opener, mine, theirs := c.opener, c.mine, c.theirs;
      myScript, theirScript, dustLimit := c.myScript, c.theirScript, c.dustLimit;
      last, closed := c.last, c.closed;
    }

    function Side(): Closer
      reads this
    {
      Closer(opener, mine, theirs, myScript, theirScript, dustLimit, last, closed)
    }

    /** The funder's first message, or why there is none. */
    method MaybeSend(target: nat) returns (r: Result<ClosingSigned, CloseError>)
      modifies this`last
      ensures match Open(old(Side()), target)
              case Reply(c, m) => r == Ok(m) && Side() == c
              case Failed(e) => r == Err(e) && Side() == old(Side())
              case Done(_) => false
    {
      hide TxAt, FeeAt;
      if !opener || last.Some? || closed.Some? {
        return Err(NotReady);
      }
      var limits := Limits(Side(), target);
      if limits.min > limits.max {
        return Err(ClampPanic);
      }
      var fee := Clamp(FeeAt(target), limits.min, limits.max);
      var tx := TxAt(Side(), fee);
      if tx == [] {
        return Err(NoOutputs);
      }
      last := Some(fee);
      return Ok(ClosingSigned(fee, tx, Some(limits)));
    }

    /** A reply, `None` when their message was the last, or an error. Some errors
        come after the new proposal has been recorded. */
    method Receive(m: ClosingSigned, target: nat) returns (r: Result<Option<ClosingSigned>, CloseError>)
      modifies this`last, this`closed
      ensures match OnClosingSigned(old(Side()), m, target)
              case Reply(c, reply) => r == Ok(Some(reply)) && Side() == c
              case Done(c) => r == Ok(None) && Side() == c
              case Failed(e) => r == Err(e) && closed == old(closed)
    {
      hide TxAt, FeeAt;
      var tx := TxAt(Side(), m.fee);
      StateFree(Side(), Side(), m.fee, m.fee);
      if closed.Some? {
        return Err(NotReady);
      }
      if tx == [] {
        return Err(NoOutputs);
      }
      if m.signed != tx {
        return Err(InvalidSignature);
      }
      if last == Some(m.fee) {
        closed := Some(Agreement(m.fee, tx));
        return Ok(None);
      }
      var ours := Limits(Side(), target);
      if ours.min > ours.max {
        return Err(ClampPanic);
      }
      var ourFee := Clamp(FeeAt(target), ours.min, ours.max);
      var next := ourFee;
      if m.range.Some? {
        var lo, hi := Max(ours.min, m.range.value.min), Min(ours.max, m.range.value.max);
        if lo > hi {
          return Err(NoOverlap);
        }
        if opener {
          if m.fee < lo || m.fee > hi {
            return Err(OutsideRange);
          }
          next := m.fee;
        } else if last.Some? {
          return Err(FunderMoved);
        } else {
          next := Clamp(ourFee, lo, hi);
        }
      } else if last.Some? {
        next := if AbsDiff(m.fee, last.value) <= 1 then m.fee else (m.fee + last.value) / 2;
      }
      var nextTx := TxAt(Side(), next);
      StateFree(Side(), Side(), next, next);
      last := Some(next);
      if nextTx == [] {
        return Err(NoOutputs);
      }
      if next == m.fee {
        closed := Some(Agreement(next, nextTx));
      }
      return Ok(Some(ClosingSigned(next, nextTx, if m.range.Some? then Some(ours) else None)));
    }
  }
}
