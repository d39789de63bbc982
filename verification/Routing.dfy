/**
 * What the search promises: over whole runs, and about the routes it returns,
 * down to the check each forwarding node makes.
 */
module Routing {
  import opened Wrappers
  import opened Router
  import opened Gossip

  // -------------------------------------------------------------------- runs

  /** `states[i + 1]` results from popping `pops[i]` in `states[i]`. */
  ghost predicate IsRun(q: Query, states: seq<Search>, pops: seq<Entry>) {
    && |states| == |pops| + 1
    && states[0] == Initial(q)
    && forall i | 0 <= i < |pops| :: StepAt(q, states, pops, i)
  }

  ghost predicate StepAt(q: Query, states: seq<Search>, pops: seq<Entry>, i: nat)
    requires i < |pops| < |states|
  {
    && Least(states[i].heap, pops[i]) && pops[i].node in states[i].best
    && states[i + 1] == AfterPop(q, states[i], pops[i])
  }

  lemma {:induction false} RunInv(q: Query, states: seq<Search>, pops: seq<Entry>, i: nat)
    requires q.payer != q.payee && IsRun(q, states, pops) && i < |states|
    ensures Inv(q, states[i])
  {
    hide Inv, AfterPop, Initial, Least;
    if i == 0 {
      InitialInv(q);
    } else {
      RunInv(q, states, pops, i - 1);
      assert StepAt(q, states, pops, i - 1);
      PopKeeps(q, states[i - 1], pops[i - 1]);
    }
  }

  lemma StepFacts(q: Query, states: seq<Search>, pops: seq<Entry>, i: nat)
    requires q.payer != q.payee && IsRun(q, states, pops) && i < |pops|
    ensures Inv(q, states[i]) && Inv(q, states[i + 1]) && Extends(q, states[i], states[i + 1])
    ensures pops[i] in states[i].heap && Settled(q, states[i + 1], pops[i].node)
    ensures forall f | f in states[i + 1].heap :: pops[i].cost <= f.cost
  {
    hide Inv, AfterPop, Extends, Settled;
    RunInv(q, states, pops, i);
    assert StepAt(q, states, pops, i);
    PopKeeps(q, states[i], pops[i]);
  }

  /** Pops come in order of cost. */
  lemma {:induction false} PopsNonDecreasing(q: Query, states: seq<Search>, pops: seq<Entry>, i: nat, j: nat)
    requires q.payer != q.payee && IsRun(q, states, pops) && i <= j < |pops|
    ensures pops[i].cost <= pops[j].cost
    decreases j
  {
    hide Inv, Extends, Settled;
    if i < j {
      PopsNonDecreasing(q, states, pops, i, j - 1);
      StepFacts(q, states, pops, j - 1);
      StepFacts(q, states, pops, j);
    }
  }

  /** Once popped at its own cost, a node's state is final. */
  lemma {:induction false} SettledForever(q: Query, states: seq<Search>, pops: seq<Entry>, i: nat, j: nat, n: Node)
    requires q.payer != q.payee && IsRun(q, states, pops) && i <= j < |states|
    requires Settled(q, states[i], n)
    ensures Settled(q, states[j], n) && states[j].best[n] == states[i].best[n]
    decreases j
  {
    hide Inv, Settled;
    if i < j {
      SettledForever(q, states, pops, i, j - 1, n);
      StepFacts(q, states, pops, j - 1);
    }
  }

  /** The popped entry carries its node's current cost. */
  predicate Live(s: Search, e: Entry) {
    e.node in s.best && s.best[e.node].cost == e.cost
  }

  /** No node is expanded twice. */
  lemma ExpandedOnce(q: Query, states: seq<Search>, pops: seq<Entry>, i: nat, j: nat)
    requires q.payer != q.payee && IsRun(q, states, pops) && i < j < |pops|
    requires Live(states[i], pops[i]) && Live(states[j], pops[j])
    ensures pops[i].node != pops[j].node
  {
    hide Inv, Extends;
    StepFacts(q, states, pops, i);
    StepFacts(q, states, pops, j);
    SettledForever(q, states, pops, i + 1, j, pops[i].node);
  }

  /** The table at any time satisfies the relaxation inequality wherever a node
      has been expanded, and never beats the payee's own cost. */
  lemma TableRelaxed(q: Query, states: seq<Search>, pops: seq<Entry>, i: nat, n: Node, e: Edge)
    requires q.payer != q.payee && IsRun(q, states, pops) && i < |states|
    requires Settled(q, states[i], n) && states[i].best[n].hops < q.maxHops
    ensures e in q.Edges(n) && Feasible(q, states[i].best[n], e) ==>
            e.from in states[i].best && states[i].best[e.from].cost <= CostOver(q, n, states[i].best[n], e)
    ensures CanStart(q, n, states[i].best[n]) ==>
            q.payer in states[i].best && states[i].best[q.payer].cost <= states[i].best[n].cost
  {
    hide Rooted, Queued, Ordered, Settled, Feasible, CostOver, CanStart;
    RunInv(q, states, pops, i);
    assert RelaxedAt(q, states[i], n);
  }

  // -------------------------------------------------------------- the walk

  lemma NextDown(q: Query, s: Search, n: Node)
    requires Rooted(q, s) && n in s.best
    ensures s.best[n].next.None? <==> n == q.payee
    ensures n != q.payee ==>
              var hop := s.best[n].next.value;
              && hop.node in s.best && s.best[n].hops == s.best[hop.node].hops + 1
              && hop.amount == s.best[hop.node].amount && hop.cltv == s.best[hop.node].cltv
              && hop.node != q.payer && s.best[hop.node].hops < q.maxHops
    ensures n == q.payee ==> s.best[n] == Start(q)
  {
    assert Linked(q, s, n);
  }

  /** The hops from `n` on, following the table. */
  function HopsFrom(q: Query, s: Search, n: Node): (hops: seq<RouteHop>)
    requires Rooted(q, s) && n in s.best
    ensures |hops| == s.best[n].hops
    decreases s.best[n].hops
  {
    NextDown(q, s, n);
    if n == q.payee then []
    else [s.best[n].next.value] + HopsFrom(q, s, s.best[n].next.value.node)
  }

  predicate Leads(s: Search, n: Node, hop: RouteHop) {
    n in s.best && s.best[n].next == Some(hop)
  }

  lemma {:induction false} WalkFacts(q: Query, s: Search, n: Node, i: nat)
    requires Rooted(q, s) && n in s.best
    ensures i < s.best[n].hops ==>
              var hop := HopsFrom(q, s, n)[i];
              && hop.node in s.best && hop.node != q.payer
              && s.best[hop.node].hops == s.best[n].hops - 1 - i
              && hop.amount == s.best[hop.node].amount && hop.cltv == s.best[hop.node].cltv
              && Leads(s, if i == 0 then n else HopsFrom(q, s, n)[i - 1].node, hop)
    decreases s.best[n].hops
  {
    hide Rooted;
    NextDown(q, s, n);
    if n != q.payee {
      WalkFacts(q, s, s.best[n].next.value.node, if i == 0 then 0 else i - 1);
    }
  }

  /** Only the payee is zero hops away. */
  lemma ZeroHops(q: Query, s: Search, n: Node)
    requires Rooted(q, s) && n in s.best
    ensures s.best[n].hops == 0 <==> n == q.payee
  {
    NextDown(q, s, n);
  }

  function RouteOf(q: Query, s: Search): Route
    requires Rooted(q, s) && q.payer in s.best
  {
    Route(HopsFrom(q, s, q.payer), s.best[q.payer].amount, s.best[q.payer].cltv)
  }

  // ------------------------------------------------- what a route must be

  /** The terms on which `e.from` forwards to `to`: those it announced for its channel, or those
      of the invoice's hint. */
  ghost predicate OnTerms(q: Query, to: Node, e: Edge) {
    GossipedEdge(q.graph, to, e) || HintedEdge(q.hints, q.payee, to, e)
  }

  lemma EdgesOnTerms(q: Query, to: Node, e: Edge)
    requires e in q.Edges(to)
    ensures OnTerms(q, to, e)
  {
    hide GossipedEdge, HintedEdge, EdgesInto, HintsInto;
    if e in EdgesInto(q.graph, to) {
      EdgesAreGossiped(q.graph, to, e);
    } else {
      HintsIntoExactly(q.hints, q.payee, to, e);
    }
  }

  /** `h.node` is paid exactly its own announced fee and time lock to forward over `next.scid`. */
  ghost predicate ForwardedOver(q: Query, h: RouteHop, next: RouteHop, e: Edge) {
    && OnTerms(q, next.node, e) && e.scid == next.scid && e.from == h.node
    && h.amount == next.amount + e.policy.FeeFor(next.amount)
    && h.cltv == next.cltv + e.policy.cltvDelta
    && e.policy.htlcMinimum <= h.amount <= e.policy.htlcMaximum
    && (e.capacitySat.Some? ==> h.amount <= e.capacitySat.value * 1000)
  }

  ghost predicate ForwardedBy(q: Query, h: RouteHop, next: RouteHop) {
    exists e :: ForwardedOver(q, h, next, e)
  }

  ghost predicate StartsWith(q: Query, r: Route) {
    && r.hops != [] && r.firstAmount == r.hops[0].amount && r.firstCltv == r.hops[0].cltv
    && exists fh | fh in q.firstHops ::
         fh.peer == r.hops[0].node && fh.scid == r.hops[0].scid && fh.available >= r.firstAmount
  }

  ghost predicate EndsWith(q: Query, r: Route) {
    && r.hops != []
    && var last := r.hops[|r.hops| - 1];
    && last.node == q.payee && last.amount == q.amount && last.cltv == q.finalCltv
  }

  ghost predicate LoopFree(q: Query, r: Route) {
    && (forall i, j | 0 <= i < j < |r.hops| :: r.hops[i].node != r.hops[j].node)
    && (forall i | 0 <= i < |r.hops| :: r.hops[i].node != q.payer)
  }

  ghost predicate ValidRoute(q: Query, r: Route) {
    && StartsWith(q, r) && EndsWith(q, r) && LoopFree(q, r) && |r.hops| <= q.maxHops
    && forall i | 0 <= i < |r.hops| - 1 :: ForwardedBy(q, r.hops[i], r.hops[i + 1])
  }

  lemma PayerFacts(q: Query, s: Search)
    requires Rooted(q, s) && q.payer in s.best
    ensures 1 <= s.best[q.payer].hops <= q.maxHops
    ensures StartsWith(q, RouteOf(q, s))
  {
    assert Linked(q, s, q.payer);
    NextDown(q, s, q.payer);
    WalkFacts(q, s, q.payer, 0);
    var fh := q.FirstHopTo(s.best[q.payer].next.value.node).value;
    assert fh in q.firstHops;
  }

  lemma HopForwarded(q: Query, s: Search, h: RouteHop, next: RouteHop)
    requires Rooted(q, s) && h.node in s.best && h.node != q.payer && h.node != q.payee
    requires h.amount == s.best[h.node].amount && h.cltv == s.best[h.node].cltv
    requires s.best[h.node].next == Some(next)
    ensures ForwardedBy(q, h, next)
  {
    assert Linked(q, s, h.node);
    var m := next.node;
    var e :| e in q.Edges(m) && e.from == h.node && Feasible(q, s.best[m], e)
             && s.best[h.node] == StateOver(q, m, s.best[m], e);
    EdgesOnTerms(q, m, e);
    hide OnTerms;
    assert ForwardedOver(q, h, next, e);
  }

  /** Every route read off a reachable table is valid. */
  lemma TableRoutesValid(q: Query, s: Search)
    requires Rooted(q, s) && q.payer in s.best
    ensures ValidRoute(q, RouteOf(q, s))
  {
    hide Rooted, ForwardedBy, StartsWith;
    PayerFacts(q, s);
    var r := RouteOf(q, s);
    var n := s.best[q.payer].hops;
    WalkFacts(q, s, q.payer, n - 1);
    ZeroHops(q, s, r.hops[n - 1].node);
    NextDown(q, s, q.payee);
    forall i, j | 0 <= i < j < |r.hops|
      ensures r.hops[i].node != r.hops[j].node
    {
      WalkFacts(q, s, q.payer, i);
      WalkFacts(q, s, q.payer, j);
    }
    forall i | 0 <= i < |r.hops|
      ensures r.hops[i].node != q.payer
      ensures i + 1 < |r.hops| ==> ForwardedBy(q, r.hops[i], r.hops[i + 1])
    {
      WalkFacts(q, s, q.payer, i);
      if i + 1 < |r.hops| {
        WalkFacts(q, s, q.payer, i + 1);
        ZeroHops(q, s, r.hops[i].node);
        HopForwarded(q, s, r.hops[i], r.hops[i + 1]);
      }
    }
  }

  // -------------------------------------------------------------- what it costs

  /** What forwarding `amount` to `to` over `e` adds to a route's cost: the fee, and the scorer's
      penalty for the amount the channel then carries. */
  function Priced(q: Query, to: Node, e: Edge, amount: nat): nat {
    var fee := e.policy.FeeFor(amount);
    fee + q.penalty(Candidate(e, to, amount + fee))
  }

  function Capped(cost: nat): nat {
    if cost > U64_MAX then U64_MAX else cost
  }

  lemma CostIsPriced(q: Query, n: Node, state: NodeState, e: Edge)
    ensures CostOver(q, n, state, e) == Capped(state.cost + Priced(q, n, e, state.amount))
  {
  }

  /** What the hops add up to when each is entered over the edge beside it. */
  function PricedOver(q: Query, hops: seq<RouteHop>, edges: seq<Edge>): nat
    requires |hops| == |edges|
  {
    if hops == [] then 0
    else Priced(q, hops[0].node, edges[0], hops[0].amount) + PricedOver(q, hops[1..], edges[1..])
  }

  /** Each hop is entered over its edge from the one before, the first from `h`. */
  ghost predicate Chained(q: Query, h: RouteHop, hops: seq<RouteHop>, edges: seq<Edge>)
    decreases |hops|
  {
    |edges| == |hops| &&
    (hops != [] ==> ForwardedOver(q, h, hops[0], edges[0]) && Chained(q, hops[0], hops[1..], edges[1..]))
  }

  /** `h` says of its node what the table says. */
  predicate Mirrors(s: Search, h: RouteHop) {
    h.node in s.best && h.amount == s.best[h.node].amount && h.cltv == s.best[h.node].cltv
  }

  lemma EdgeTaken(q: Query, s: Search, h: RouteHop) returns (e: Edge)
    requires Rooted(q, s) && Mirrors(s, h) && h.node != q.payer && h.node != q.payee
    ensures s.best[h.node].next.Some?
    ensures var hop := s.best[h.node].next.value;
            && Mirrors(s, hop) && e in q.Edges(hop.node) && e.from == h.node && Feasible(q, s.best[hop.node], e)
            && s.best[h.node] == StateOver(q, hop.node, s.best[hop.node], e)
  {
    hide Feasible, StateOver;
    assert Linked(q, s, h.node);
    NextDown(q, s, h.node);
    var m := s.best[h.node].next.value.node;
    e :| e in q.Edges(m) && e.from == h.node && Feasible(q, s.best[m], e)
         && s.best[h.node] == StateOver(q, m, s.best[m], e);
  }

  lemma EdgePriced(q: Query, s: Search, h: RouteHop, hop: RouteHop, e: Edge)
    requires Mirrors(s, h) && Mirrors(s, hop) && s.best[h.node].next == Some(hop)
    requires e in q.Edges(hop.node) && e.from == h.node && Feasible(q, s.best[hop.node], e)
    requires s.best[h.node] == StateOver(q, hop.node, s.best[hop.node], e)
    ensures ForwardedOver(q, h, hop, e)
    ensures s.best[h.node].cost == Capped(s.best[hop.node].cost + Priced(q, hop.node, e, hop.amount))
  {
    EdgesOnTerms(q, hop.node, e);
    hide OnTerms, EdgesInto, HintsInto;
  }

  lemma {:induction false} CostFrom(q: Query, s: Search, h: RouteHop) returns (edges: seq<Edge>)
    requires Rooted(q, s) && Mirrors(s, h) && h.node != q.payer
    ensures Chained(q, h, HopsFrom(q, s, h.node), edges)
    ensures s.best[h.node].cost == Capped(q.amount + PricedOver(q, HopsFrom(q, s, h.node), edges))
    decreases s.best[h.node].hops
  {
    hide Priced, ForwardedOver, Rooted, Feasible, StateOver;
    NextDown(q, s, h.node);
    if h.node == q.payee {
      edges := [];
    } else {
      var e := EdgeTaken(q, s, h);
      var hop := s.best[h.node].next.value;
      EdgePriced(q, s, h, hop, e);
      var rest := CostFrom(q, s, hop);
      edges := [e] + rest;
      assert HopsFrom(q, s, h.node)[1..] == HopsFrom(q, s, hop.node) && edges[1..] == rest;
    }
  }

  /**
   * The cost the table holds for a route is the amount delivered plus, for every hop after the
   * first, the fee paid and the scorer's penalty for the channel the route takes; our own first
   * channel is free. It is held at the largest 64-bit number when it exceeds that.
   */
  lemma RouteCost(q: Query, s: Search) returns (edges: seq<Edge>)
    requires Rooted(q, s) && q.payer in s.best
    ensures var hops := RouteOf(q, s).hops;
            && hops != [] && Chained(q, hops[0], hops[1..], edges)
            && s.best[q.payer].cost == Capped(q.amount + PricedOver(q, hops[1..], edges))
  {
    hide PricedOver, Capped, Chained, Rooted, HopsFrom;
    PayerAsPeer(q, s);
    edges := CostFrom(q, s, s.best[q.payer].next.value);
  }

  lemma PayerAsPeer(q: Query, s: Search)
    requires Rooted(q, s) && q.payer in s.best
    ensures s.best[q.payer].next.Some?
    ensures var hop := s.best[q.payer].next.value;
            && Mirrors(s, hop) && hop.node != q.payer && s.best[q.payer].cost == s.best[hop.node].cost
            && RouteOf(q, s).hops == [hop] + HopsFrom(q, s, hop.node)
  {
    assert Linked(q, s, q.payer);
    NextDown(q, s, q.payer);
  }

  // ------------------------------------------------------------- when there is none

  /** `e` can carry what `n`'s side of it must receive: `amount` and the fee for it. */
  predicate CanCarry(e: Edge, amount: nat) {
    var total := amount + e.policy.FeeFor(amount);
    && e.policy.htlcMinimum <= total <= e.policy.htlcMaximum
    && (e.capacitySat.Some? ==> total <= e.capacitySat.value * 1000)
  }

  /** Node `n` has been reached from the payee. */
  predicate Reached(q: Query, s: Search, n: Node) {
    n in s.best && n != q.payer
  }

  /** Announced in the graph or hinted by the invoice. */
  ghost predicate Offered(q: Query, to: Node, e: Edge) {
    AnnouncedInto(q.graph, to, e) || HintedEdge(q.hints, q.payee, to, e)
  }

  lemma OfferedExactly(q: Query, to: Node, e: Edge)
    requires WellFormed(q.graph)
    ensures Offered(q, to, e) <==> e in q.Edges(to)
  {
    hide AnnouncedInto, HintedEdge, EdgesInto, HintsInto, WellFormed;
    EdgesIntoExactly(q.graph, to, e);
    HintsIntoExactly(q.hints, q.payee, to, e);
  }

  /** The reached nodes contain the payee and are closed: backwards over every announced or hinted
      channel that can carry the amount, up to the hop limit, and none of them is a peer we can
      start with. */
  ghost predicate Exhausted(q: Query, s: Search) {
    && Reached(q, s, q.payee) && s.best[q.payee].amount == q.amount && s.best[q.payee].hops == 0
    && (forall n | Reached(q, s, n) && s.best[n].hops < q.maxHops ::
          forall e | Offered(q, n, e) && e.from != q.payee && e.from != q.payer && CanCarry(e, s.best[n].amount) ::
            Reached(q, s, e.from) && s.best[e.from].cost <= Capped(s.best[n].cost + Priced(q, n, e, s.best[n].amount)))
    && (forall n | Reached(q, s, n) && s.best[n].hops < q.maxHops ::
          q.FirstHopTo(n).Some? ==> q.FirstHopTo(n).value.available < s.best[n].amount)
  }

  lemma SettledAtEnd(q: Query, s: Search, n: Node)
    requires Inv(q, s) && s.heap == multiset{} && Reached(q, s, n)
    ensures Settled(q, s, n)
  {
  }

  /** When the search ends without a route, no route of this shape was missed: it has reached
      everything it could. */
  lemma NoPathExhausted(q: Query, s: Search)
    requires WellFormed(q.graph)
    requires q.payer != q.payee && Inv(q, s) && s.heap == multiset{} && q.payer !in s.best
    ensures Exhausted(q, s)
  {
    hide Linked, Ordered, Queued, CostOver, Offered, WellFormed, EdgesInto, HintsInto, Priced, Capped;
    forall n | Reached(q, s, n) && s.best[n].hops < q.maxHops
      ensures forall e | Offered(q, n, e) && e.from != q.payee && e.from != q.payer && CanCarry(e, s.best[n].amount) ::
                Reached(q, s, e.from) && s.best[e.from].cost <= Capped(s.best[n].cost + Priced(q, n, e, s.best[n].amount))
      ensures q.FirstHopTo(n).Some? ==> q.FirstHopTo(n).value.available < s.best[n].amount
    {
      SettledAtEnd(q, s, n);
      assert RelaxedAt(q, s, n);
      forall e | Offered(q, n, e) && e.from != q.payee && e.from != q.payer && CanCarry(e, s.best[n].amount)
        ensures Reached(q, s, e.from) && s.best[e.from].cost <= Capped(s.best[n].cost + Priced(q, n, e, s.best[n].amount))
      {
        OfferedExactly(q, n, e);
        CostIsPriced(q, n, s.best[n], e);
      }
    }
  }

  /** The payee is a peer and our channel with it can carry the amount. */
  predicate PeerCanReceive(q: Query) {
    q.FirstHopTo(q.payee).Some? && q.FirstHopTo(q.payee).value.available >= q.amount
  }

  /** Such a payee is always reached. */
  lemma DirectPeerFound(q: Query, s: Search)
    requires q.payer != q.payee && Inv(q, s) && s.heap == multiset{} && q.maxHops > 0
    requires PeerCanReceive(q)
    ensures q.payer in s.best
  {
    hide Ordered, Queued;
    assert Reached(q, s, q.payee);
    SettledAtEnd(q, s, q.payee);
    assert RelaxedAt(q, s, q.payee);
  }

  // --------------------------------------------------- the forwarding check

  datatype Htlc = Htlc(amount: nat, cltv: nat)

  datatype Payload = Payload(amount: nat, cltv: nat, scid: Option<Scid>)

  datatype Verdict = Accepted | FeeInsufficient | IncorrectCltv

  /** The policy check of a forwarding node on an incoming HTLC. */
  function ForwardCheck(policy: Policy, htlc: Htlc, payload: Payload): Verdict {
    if htlc.amount < payload.amount + policy.FeeFor(payload.amount) then FeeInsufficient
    else if htlc.cltv < payload.cltv + policy.cltvDelta then IncorrectCltv
    else Accepted
  }

  /** The payload the payer writes for hop `i`: what to forward next, or what to receive. */
  function PayloadFor(r: Route, i: nat): Payload
    requires i < |r.hops|
  {
    if i + 1 < |r.hops| then
      var next := r.hops[i + 1];
      Payload(next.amount, next.cltv, Some(next.scid))
    else Payload(r.hops[i].amount, r.hops[i].cltv, None)
  }

  /** Every node applies the policy it announced for its channels, or was hinted with. */
  ghost predicate PoliciesAsSeen(q: Query, policyOf: (Node, Scid) -> Policy) {
    && (forall scid, n, p | scid in q.graph.channels && Announced(q.graph.channels[scid], n, p) :: policyOf(n, scid) == p)
    && forall j, i | 0 <= j < |q.hints| && 0 <= i < |q.hints[j]| ::
         policyOf(q.hints[j][i].src, q.hints[j][i].scid) == HintEdge(q.hints[j][i]).policy
  }

  lemma TermsApplied(q: Query, policyOf: (Node, Scid) -> Policy, to: Node, e: Edge)
    requires PoliciesAsSeen(q, policyOf) && OnTerms(q, to, e)
    ensures policyOf(e.from, e.scid) == e.policy
  {
    if HintedEdge(q.hints, q.payee, to, e) {
      var j: nat, i: nat :| HintAt(q.hints, q.payee, to, e, j, i);
      assert policyOf(q.hints[j][i].src, q.hints[j][i].scid) == HintEdge(q.hints[j][i]).policy;
    }
  }

  /** Carry an HTLC from hop `i` on: each node checks it and forwards what its
      payload says; `None` when some node refuses. */
  function Travel(policyOf: (Node, Scid) -> Policy, r: Route, i: nat, htlc: Htlc): Option<Htlc>
    requires i < |r.hops|
    decreases |r.hops| - i
  {
    var payload := PayloadFor(r, i);
    match payload.scid
    case None => Some(htlc)
    case Some(scid) =>
      if ForwardCheck(policyOf(r.hops[i].node, scid), htlc, payload).Accepted?
      then Travel(policyOf, r, i + 1, Htlc(payload.amount, payload.cltv))
      else None
  }

  /** Each hop receives just enough: exactly the accepted minimum of both amount
      and time lock. */
  lemma HopAccepts(q: Query, r: Route, i: nat, policyOf: (Node, Scid) -> Policy, htlc: Htlc)
    requires ValidRoute(q, r) && i + 1 < |r.hops| && PoliciesAsSeen(q, policyOf)
    ensures ForwardCheck(policyOf(r.hops[i].node, r.hops[i + 1].scid), htlc, PayloadFor(r, i)).Accepted?
            <==> htlc.amount >= r.hops[i].amount && htlc.cltv >= r.hops[i].cltv
  {
    assert ForwardedBy(q, r.hops[i], r.hops[i + 1]);
    var e :| ForwardedOver(q, r.hops[i], r.hops[i + 1], e);
    TermsApplied(q, policyOf, r.hops[i + 1].node, e);
  }

  /** The fee is the base and the rate in millionths, rounded down. */
  lemma FeeExact(policy: Policy, amount: nat)
    ensures var rate := policy.FeeFor(amount) - policy.feeBase;
            0 <= rate && rate * 1_000_000 <= amount * policy.feePpm < (rate + 1) * 1_000_000
  {
  }

  lemma {:induction false} TravelArrives(q: Query, r: Route, i: nat, policyOf: (Node, Scid) -> Policy)
    requires ValidRoute(q, r) && i < |r.hops| && PoliciesAsSeen(q, policyOf)
    ensures Travel(policyOf, r, i, Htlc(r.hops[i].amount, r.hops[i].cltv)) == Some(Htlc(q.amount, q.finalCltv))
    decreases |r.hops| - i
  {
    hide StartsWith, LoopFree, ForwardedBy, ForwardCheck;
    if i + 1 < |r.hops| {
      HopAccepts(q, r, i, policyOf, Htlc(r.hops[i].amount, r.hops[i].cltv));
      TravelArrives(q, r, i + 1, policyOf);
    }
  }

  /** A valid route is forwarded by every node on it and delivers exactly the
      requested amount and expiry. */
  lemma PaymentArrives(q: Query, r: Route, policyOf: (Node, Scid) -> Policy)
    requires ValidRoute(q, r) && PoliciesAsSeen(q, policyOf)
    ensures Travel(policyOf, r, 0, Htlc(r.firstAmount, r.firstCltv)) == Some(Htlc(q.amount, q.finalCltv))
  {
    TravelArrives(q, r, 0, policyOf);
  }
}
