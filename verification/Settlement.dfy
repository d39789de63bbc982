/**
 * Whole runs that come to rest: every reachable state of two honest parties can be
 * drained to quiescence, and the two ways in which honest parties do fail are
 * reached by runs.
 */
module Settlement {
  import opened Wrappers
  import opened Channel
  import opened Ledger
  import opened LedgerUpdates
  import opened ChannelRuns
  import opened Pair
  import opened PairSteps
  import opened Dance
  import opened Drain
  import Shachain

  // -------------------------------------------------------------- draining

  lemma {:induction false} RunCat(s: Sys, a: seq<Step>, b: seq<Step>)
    ensures RunPair(s, a + b) == if RunPair(s, a).None? then None else RunPair(RunPair(s, a).value, b)
  {
    hide Next;
    if b == [] {
      assert a + b == a;
    } else {
      var n := |b| - 1;
      RunCat(s, a, b[..n]);
      assert (a + b)[..|a| + n] == a + b[..n];
    }
  }

  lemma RunOne(s: Sys, st: Step)
    ensures RunPair(s, [st]) == Next(s, st)
  {
    assert [st][..0] == [];
    assert RunPair(s, [st][..0]) == Some(s);
  }

  lemma DrainedTrans(s: Sys, ga: History, gb: History, t: Sys, ga1: History, gb1: History,
                     u: Sys, ga2: History, gb2: History)
    requires Drained(s, ga, gb, t, ga1, gb1) && Drained(t, ga1, gb1, u, ga2, gb2)
    ensures Drained(s, ga, gb, u, ga2, gb2)
  {
    hide PairInv, SysRoom, Polite;
  }

  /** Deliver and sign until the state is quiescent or blocked: it ends. */
  lemma {:induction false} DrainAll(s: Sys, ga: History, gb: History)
    returns (more: seq<Step>, t: Sys, ga': History, gb': History)
    requires PairInv(s.a, ga, s.b, gb, s.ab, s.ba)
    ensures IsDraining(more) && RunPair(s, more) == Some(t)
    ensures Quiescent(t) || Blocked(t, true) || Blocked(t, false)
    ensures Drained(s, ga, gb, t, ga', gb')
    decreases Debt(s.a, ga, s.b, gb), Cells(s), Weight(s.ab) + Weight(s.ba)
  {
    hide PairInv, Unacceptable, OutOfNumbers, Next, Debt, SysRoom, Polite, Quiet;
    DebtNonNegative(s.a, ga, s.b, gb, s.ab, s.ba);
    if Quiescent(s) || Blocked(s, true) || Blocked(s, false) {
      more, t, ga', gb' := [], s, ga, gb;
    } else {
      var st, ga1, gb1 := DrainStep(s, ga, gb);
      var s1 := Next(s, st).value;
      DebtNonNegative(s1.a, ga1, s1.b, gb1, s1.ab, s1.ba);
      var rest;
      rest, t, ga', gb' := DrainAll(s1, ga1, gb1);
      more := [st] + rest;
      RunOne(s, st);
      RunCat(s, [st], rest);
      DrainedTrans(s, ga, gb, s1, ga1, gb1, t, ga', gb');
    }
  }

  /**
   * No deadlock, without any assumption on what was asked for: from every reachable
   * state some run of deliveries and signatures reaches the quiescent state, or one
   * in which the next delivery is of a message the receiver must refuse or past the
   * last commitment number.
   */
  lemma NeverStuck(s0: Sys, steps: seq<Step>) returns (more: seq<Step>)
    requires Initial(s0) && RunPair(s0, steps).Some?
    ensures IsDraining(more) && RunPair(s0, steps + more).Some?
    ensures var t := RunPair(s0, steps + more).value; Quiescent(t) || Blocked(t, true) || Blocked(t, false)
  {
    hide PairInv, Initial, Next, Quiescent, Blocked, Drained;
    var ga, gb := ReachableInv(s0, steps);
    var s := RunPair(s0, steps).value;
    var t, ga', gb';
    more, t, ga', gb' := DrainAll(s, ga, gb);
    RunCat(s0, steps, more);
  }

  // ------------------------------------------------- runs without rude commands

  /** A command no peer has to refuse. */
  predicate PoliteAction(act: Action) {
    && (act.DoFee? ==> act.feerate <= FEERATE_CEILING)
    && (act.DoRemove? ==> !CodeLacksBadOnion(act.resolution))
  }

  predicate PoliteSteps(steps: seq<Step>) {
    forall i | 0 <= i < |steps| :: PoliteAction(steps[i].act)
  }

  /** Commands given to one party. */
  function Commands(steps: seq<Step>, byA: bool): nat {
    if steps == [] then 0
    else
      var n := |steps| - 1;
      Commands(steps[..n], byA) + if steps[n].byA == byA && IsCommand(steps[n].act) then 1 else 0
  }

  /** What a run has used up: log entries and parked operations by commands, and
      commitment numbers by steps. */
  ghost predicate Budgeted(s: Sys, ga: History, gb: History, steps: seq<Step>) {
    && |ga.sent| + |s.a.holdingCell| <= Commands(steps, true)
    && |gb.sent| + |s.b.holdingCell| <= Commands(steps, false)
    && s.a.holderNumber <= |steps| && s.b.holderNumber <= |steps|
  }

  lemma SendKeepsNumber(x: Chan, yx: seq<Message>, act: Action)
    requires Act(x, yx, act).Moved? && !act.DoReceive?
    ensures Act(x, yx, act).chan.holderNumber == x.holderNumber && Act(x, yx, act).inbox == yx
  {
    hide OutboundAddAllowed, Find, CounterpartyCommitmentAt, KeysIn;
  }

  lemma SendPolite(x: Chan, yx: seq<Message>, act: Action)
    requires Act(x, yx, act).Moved? && !act.DoReceive? && PoliteAction(act) && PoliteOps(x.holdingCell)
    ensures PoliteQueue(Act(x, yx, act).out) && PoliteOps(Act(x, yx, act).chan.holdingCell)
  {
    hide OutboundAddAllowed, Find, CounterpartyCommitmentAt, KeysIn, CodeLacksBadOnion;
  }

  lemma ActNumber(x: Chan, yx: seq<Message>, act: Action)
    requires Act(x, yx, act).Moved?
    ensures Act(x, yx, act).chan.holderNumber <= x.holderNumber + 1
    ensures Act(x, yx, act).inbox == yx || (yx != [] && Act(x, yx, act).inbox == yx[1..])
  {
    hide Act, Lighter;
    if act.DoReceive? {
      ReceiveNonEmpty(x, yx);
      DeliveryLightens(x, [], yx);
    } else {
      SendKeepsNumber(x, yx, act);
    }
  }

  lemma ReceiveNonEmpty(x: Chan, yx: seq<Message>)
    requires Act(x, yx, DoReceive).Moved?
    ensures yx != []
  {
  }

  lemma ActPolite(x: Chan, yx: seq<Message>, act: Action)
    requires Act(x, yx, act).Moved? && PoliteAction(act) && PoliteOps(x.holdingCell)
    ensures PoliteQueue(Act(x, yx, act).out) && PoliteOps(Act(x, yx, act).chan.holdingCell)
  {
    hide Act, PoliteAction, PoliteOps, PoliteQueue;
    if act.DoReceive? {
      ReceiveNonEmpty(x, yx);
      DeliveryPolite(x, [], yx);
    } else {
      SendPolite(x, yx, act);
    }
  }

  lemma NextPolite(s: Sys, st: Step)
    requires Next(s, st).Some? && PoliteAction(st.act) && Polite(s)
    ensures Polite(Next(s, st).value)
  {
    hide Act, PoliteAction, PoliteOps, PoliteQueue;
    if st.byA && Act(s.a, s.ba, st.act).Moved? {
      ActNumber(s.a, s.ba, st.act);
      ActPolite(s.a, s.ba, st.act);
      PoliteCat(s.ab, Act(s.a, s.ba, st.act).out);
      PoliteCat(s.ba, []);
    }
    if !st.byA && Act(s.b, s.ab, st.act).Moved? {
      ActNumber(s.b, s.ab, st.act);
      ActPolite(s.b, s.ab, st.act);
      PoliteCat(s.ba, Act(s.b, s.ab, st.act).out);
      PoliteCat(s.ab, []);
    }
  }

  lemma {:induction false} RunPolite(s0: Sys, steps: seq<Step>)
    requires Initial(s0) && RunPair(s0, steps).Some? && PoliteSteps(steps)
    ensures Polite(RunPair(s0, steps).value)
  {
    if steps != [] {
      hide Next, PoliteAction, Polite, Initial;
      var n := |steps| - 1;
      RunPolite(s0, steps[..n]);
      NextPolite(RunPair(s0, steps[..n]).value, steps[n]);
    }
  }

  lemma InitialBudget(s0: Sys)
    requires Initial(s0)
    ensures Budgeted(s0, FreshHistory(s0.a), FreshHistory(s0.b), [])
  {
  }

  lemma {:induction false} RunBudget(s0: Sys, steps: seq<Step>) returns (ga: History, gb: History)
    requires Initial(s0) && RunPair(s0, steps).Some?
    ensures var s := RunPair(s0, steps).value;
            PairInv(s.a, ga, s.b, gb, s.ab, s.ba) && Budgeted(s, ga, gb, steps)
    decreases |steps|
  {
    hide PairInv, Initial, Act;
    if steps == [] {
      InitialInv(s0);
      ga, gb := FreshHistory(s0.a), FreshHistory(s0.b);
      InitialBudget(s0);
    } else {
      var n := |steps| - 1;
      ga, gb := RunBudget(s0, steps[..n]);
      var s := RunPair(s0, steps[..n]).value;
      var st := steps[n];
      if st.byA && Act(s.a, s.ba, st.act).Moved? {
        ga := XActs(s.a, ga, s.b, gb, s.ab, s.ba, st.act);
        ActNumber(s.a, s.ba, st.act);
      }
      if !st.byA && Act(s.b, s.ab, st.act).Moved? {
        Symmetric(s.a, ga, s.b, gb, s.ab, s.ba);
        gb := XActs(s.b, gb, s.a, ga, s.ba, s.ab, st.act);
        ActNumber(s.b, s.ab, st.act);
        var e := Act(s.b, s.ab, st.act);
        Symmetric(e.chan, gb, s.a, ga, s.ba + e.out, e.inbox);
      }
    }
  }

  lemma {:induction false} CommandsBound(steps: seq<Step>)
    ensures Commands(steps, true) + Commands(steps, false) <= |steps|
  {
    if steps != [] {
      CommandsBound(steps[..|steps| - 1]);
    }
  }

  lemma RoomEnough(s: Sys, ga: History, gb: History, steps: seq<Step>)
    requires Budgeted(s, ga, gb, steps) && 3 * |steps| + 2 <= Shachain.MAX_INDEX
    ensures SysRoom(s, ga, gb)
  {
    CommandsBound(steps);
  }

  lemma RoomNotShort(s: Sys, ga: History, gb: History)
    requires PairInv(s.a, ga, s.b, gb, s.ab, s.ba) && SysRoom(s, ga, gb) && Polite(s)
    ensures !Blocked(s, true) && !Blocked(s, false)
  {
    hide PairInv, Unacceptable, Debt;
    DebtNonNegative(s.a, ga, s.b, gb, s.ab, s.ba);
  }

  /**
   * Every run whose commands a peer can accept, of any length the 2^48 commitment
   * numbers allow, can be continued by deliveries and signatures alone to the
   * quiescent state, where both parties agree.
   */
  lemma AlwaysSettles(s0: Sys, steps: seq<Step>) returns (more: seq<Step>)
    requires Initial(s0) && RunPair(s0, steps).Some?
    requires PoliteSteps(steps) && 3 * |steps| + 2 <= Shachain.MAX_INDEX
    ensures IsDraining(more) && RunPair(s0, steps + more).Some?
    ensures var t := RunPair(s0, steps + more).value;
            Quiescent(t) && Converged(t.a, t.b) && Converged(t.b, t.a)
  {
    var t, ga, gb, ga0;
    more, t, ga, gb, ga0 := SettlesWith(s0, steps);
    hide Initial, Converged;
    QuiescentConvergence(s0, steps + more);
  }

  lemma PairParts(x: Chan, gx: History, y: Chan, gy: History, xy: seq<Message>, yx: seq<Message>)
    requires PairInv(x, gx, y, gy, xy, yx)
    ensures Inv(x, gx) && Inv(y, gy)
  {
    hide Inv, Flow, HonestSender, Keys, Partners;
  }

  /** The same, with the histories of the end state and our log before. */
  lemma SettlesWith(s0: Sys, steps: seq<Step>)
    returns (more: seq<Step>, t: Sys, ga: History, gb: History, ga0: History)
    requires Initial(s0) && RunPair(s0, steps).Some?
    requires PoliteSteps(steps) && 3 * |steps| + 2 <= Shachain.MAX_INDEX
    ensures IsDraining(more) && RunPair(s0, steps + more) == Some(t) && Quiescent(t)
    ensures PairInv(t.a, ga, t.b, gb, t.ab, t.ba)
    ensures Inv(RunPair(s0, steps).value.a, ga0) && ga0.sent <= ga.sent
    ensures |ga.sent| + |t.a.holdingCell| <= Commands(steps, true)
    ensures |gb.sent| + |t.b.holdingCell| <= Commands(steps, false)
  {
    hide PairInv, Initial, Next, Quiescent, Blocked, SysRoom, Polite, PoliteSteps;
    var gb0;
    ga0, gb0 := RunBudget(s0, steps);
    var s := RunPair(s0, steps).value;
    RunPolite(s0, steps);
    RoomEnough(s, ga0, gb0, steps);
    more, t, ga, gb := DrainAll(s, ga0, gb0);
    PairParts(s.a, ga0, s.b, gb0, s.ab, s.ba);
    RoomNotShort(t, ga, gb);
    RunCat(s0, steps, more);
  }
}
