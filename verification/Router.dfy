/**
 * Pathfinding: Dijkstra's search run backwards from the payee over the gossip
 * graph and the invoice's route hints.
 *
 * Nodes and channels are opaque identifiers, the scorer is any function, and a
 * pop may return any entry of least cost. The search is a transition system;
 * `FindRoute` is the source's loop over it.
 */
module Router {
  import opened Wrappers

  type Node = nat
  type Scid = nat

  const U64_MAX: nat := 0xffff_ffff_ffff_ffff

  type U64 = x: int | 0 <= x <= U64_MAX

  // ---------------------------------------------------------------- the graph

  datatype Policy = Policy(
    timestamp: nat, enabled: bool, cltvDelta: nat, htlcMinimum: nat, htlcMaximum: nat, feeBase: nat, feePpm: nat)
  {
    function FeeFor(amount: nat): nat {
      feeBase + amount * feePpm / 1_000_000
    }
  }

  datatype ChannelInfo = ChannelInfo(
    node1: Node, node2: Node, capacitySat: Option<nat>, oneToTwo: Option<Policy>, twoToOne: Option<Policy>)

  datatype Graph = Graph(nodes: map<Node, seq<Scid>>, channels: map<Scid, ChannelInfo>)

  /** A channel usable towards some node, with the policy of the node it comes from. */
  datatype Edge = Edge(scid: Scid, from: Node, policy: Policy, capacitySat: Option<nat>)

  datatype HintHop = HintHop(src: Node, scid: Scid, feeBase: nat, feePpm: nat, cltvDelta: nat)

  function EdgeOver(g: Graph, to: Node, scid: Scid): Option<Edge> {
    if scid !in g.channels then None
    else
      var chan := g.channels[scid];
      var from := if chan.node1 == to then chan.node2 else chan.node1;
      var policy := if chan.node1 == to then chan.twoToOne else chan.oneToTwo;
      if policy.None? || !policy.value.enabled then None
      else Some(Edge(scid, from, policy.value, chan.capacitySat))
  }

  function EdgesOver(g: Graph, to: Node, scids: seq<Scid>): seq<Edge> {
    if scids == [] then []
    else
      var n := |scids| - 1;
      EdgesOver(g, to, scids[..n]) +
      match EdgeOver(g, to, scids[n])
      case None => []
      case Some(e) => [e]
  }

  function EdgesInto(g: Graph, to: Node): seq<Edge> {
    if to in g.nodes then EdgesOver(g, to, g.nodes[to]) else []
  }

  /** The virtual edges of one hint path into `to`: each entry forwards to the
      next entry's node, the last one to the payee. */
  function HintEdges(path: seq<HintHop>, payee: Node, to: Node, i: nat): seq<Edge>
    requires i <= |path|
  {
    if i == 0 then []
    else
      var hop := path[i - 1];
      var target := if i < |path| then path[i].src else payee;
      HintEdges(path, payee, to, i - 1) +
      if target == to
      then [Edge(hop.scid, hop.src, Policy(0, true, hop.cltvDelta, 0, U64_MAX, hop.feeBase, hop.feePpm), None)]
      else []
  }

  function HintsInto(hints: seq<seq<HintHop>>, payee: Node, to: Node): seq<Edge> {
    if hints == [] then []
    else
      var n := |hints| - 1;
      HintsInto(hints[..n], payee, to) + HintEdges(hints[n], payee, to, |hints[n]|)
  }

  // ---------------------------------------------------------------- the query

  datatype FirstHop = FirstHop(peer: Node, scid: Scid, available: nat)

  datatype Candidate = Candidate(edge: Edge, to: Node, amount: nat)

  datatype Query = Query(
    graph: Graph, penalty: Candidate -> nat, payer: Node, payee: Node, amount: U64, finalCltv: nat,
    firstHops: seq<FirstHop>, hints: seq<seq<HintHop>>, maxHops: nat)
  {
    function Edges(to: Node): seq<Edge> {
      EdgesInto(graph, to) + HintsInto(hints, payee, to)
    }

    /** Our channel with `peer`: the last one listed. */
    function FirstHopTo(peer: Node): Option<FirstHop> {
      LastWithPeer(firstHops, peer)
    }
  }

  function LastWithPeer(firstHops: seq<FirstHop>, peer: Node): (r: Option<FirstHop>)
    ensures r.Some? ==> r.value in firstHops && r.value.peer == peer
  {
    if firstHops == [] then None
    else
      var n := |firstHops| - 1;
      if firstHops[n].peer == peer then Some(firstHops[n]) else LastWithPeer(firstHops[..n], peer)
  }

  datatype RouteHop = RouteHop(node: Node, scid: Scid, amount: nat, cltv: nat)

  datatype Route = Route(hops: seq<RouteHop>, firstAmount: nat, firstCltv: nat)

  datatype RouteError = NoPath | LimitExceeded

  // --------------------------------------------------------------- the search

  datatype NodeState = NodeState(amount: nat, cltv: nat, cost: nat, next: Option<RouteHop>, hops: nat)

  datatype Entry = Entry(cost: nat, node: Node)

  datatype Search = Search(best: map<Node, NodeState>, heap: multiset<Entry>)

  function SaturatingAdd(a: nat, b: nat): nat {
    if a + b > U64_MAX then U64_MAX else a + b
  }

  function Start(q: Query): NodeState {
    NodeState(q.amount, q.finalCltv, q.amount, None, 0)
  }

  function Initial(q: Query): Search {
    Search(map[q.payee := Start(q)], multiset{Entry(q.amount, q.payee)})
  }

  function HopInto(node: Node, scid: Scid, state: NodeState): RouteHop {
    RouteHop(node, scid, state.amount, state.cltv)
  }

  predicate Improves(best: map<Node, NodeState>, node: Node, cost: nat) {
    node in best ==> cost < best[node].cost
  }

  /** `node` as our direct peer: a route could start here. */
  predicate CanStart(q: Query, node: Node, state: NodeState) {
    q.FirstHopTo(node).Some? && q.FirstHopTo(node).value.available >= state.amount
  }

  function PayerState(q: Query, node: Node, state: NodeState): NodeState
    requires CanStart(q, node, state)
  {
    NodeState(state.amount, state.cltv, state.cost,
              Some(HopInto(node, q.FirstHopTo(node).value.scid, state)), state.hops + 1)
  }

  function OfferStart(q: Query, s: Search, node: Node, state: NodeState): Search {
    if CanStart(q, node, state) && Improves(s.best, q.payer, state.cost)
    then s.(best := s.best[q.payer := PayerState(q, node, state)])
    else s
  }

  function AmountIn(state: NodeState, e: Edge): nat {
    state.amount + e.policy.FeeFor(state.amount)
  }

  predicate Feasible(q: Query, state: NodeState, e: Edge) {
    && e.from != q.payee && e.from != q.payer
    && e.policy.htlcMinimum <= AmountIn(state, e) <= e.policy.htlcMaximum
    && (e.capacitySat.Some? ==> AmountIn(state, e) <= e.capacitySat.value * 1000)
  }

  function CostOver(q: Query, node: Node, state: NodeState, e: Edge): nat {
    SaturatingAdd(SaturatingAdd(state.cost, e.policy.FeeFor(state.amount)),
                  q.penalty(Candidate(e, node, AmountIn(state, e))))
  }

  function StateOver(q: Query, node: Node, state: NodeState, e: Edge): NodeState {
    NodeState(AmountIn(state, e), state.cltv + e.policy.cltvDelta, CostOver(q, node, state, e),
              Some(HopInto(node, e.scid, state)), state.hops + 1)
  }

  function Relax(q: Query, s: Search, node: Node, state: NodeState, e: Edge): Search {
    if Feasible(q, state, e) && Improves(s.best, e.from, CostOver(q, node, state, e)) then
      Search(s.best[e.from := StateOver(q, node, state, e)],
             s.heap + multiset{Entry(CostOver(q, node, state, e), e.from)})
    else s
  }

  function RelaxAll(q: Query, s: Search, node: Node, state: NodeState, edges: seq<Edge>): Search {
    if edges == [] then s
    else
      var n := |edges| - 1;
      Relax(q, RelaxAll(q, s, node, state, edges[..n]), node, state, edges[n])
  }

  /** The search after popping `e`. */
  function AfterPop(q: Query, s: Search, e: Entry): Search
    requires e.node in s.best
  {
    var rest := s.(heap := s.heap - multiset{e});
    var state := s.best[e.node];
    if state.cost < e.cost || state.hops >= q.maxHops then rest
    else RelaxAll(q, OfferStart(q, rest, e.node, state), e.node, state, q.Edges(e.node))
  }

  predicate Least(heap: multiset<Entry>, e: Entry) {
    e in heap && forall f | f in heap :: e.cost <= f.cost
  }

  // ------------------------------------------------------------ its invariant

  /** Popped at its final cost. */
  predicate Settled(q: Query, s: Search, n: Node): (r: bool)
    ensures r ==> n in s.best && n != q.payer
  {
    n in s.best && n != q.payer && Entry(s.best[n].cost, n) !in s.heap
  }

  /** `state`, for node `n`, was computed over an edge into the hop it names. */
  ghost predicate ViaEdge(q: Query, s: Search, n: Node, state: NodeState) {
    && state.next.Some?
    && var m := state.next.value.node;
    && Settled(q, s, m) && s.best[m].hops < q.maxHops
    && exists e :: e in q.Edges(m) && e.from == n && Feasible(q, s.best[m], e) && state == StateOver(q, m, s.best[m], e)
  }

  /** `state`, for the payer, was computed over a first hop. */
  ghost predicate ViaFirstHop(q: Query, s: Search, state: NodeState) {
    && state.next.Some?
    && var m := state.next.value.node;
    && Settled(q, s, m) && s.best[m].hops < q.maxHops
    && CanStart(q, m, s.best[m]) && state == PayerState(q, m, s.best[m])
  }

  ghost predicate Linked(q: Query, s: Search, n: Node)
    requires n in s.best
  {
    if n == q.payer then ViaFirstHop(q, s, s.best[n])
    else if n == q.payee then s.best[n] == Start(q)
    else ViaEdge(q, s, n, s.best[n])
  }

  /** Every live node is queued once at its own cost or settled; queued costs
      are never below the node's own. */
  ghost predicate Queued(q: Query, s: Search) {
    && (forall e | e in s.heap :: e.node in s.best && e.node != q.payer && s.best[e.node].cost <= e.cost)
    && (forall n | n in s.best :: s.heap[Entry(s.best[n].cost, n)] <= 1)
  }

  /** Nothing still queued is cheaper than a settled node. */
  ghost predicate Ordered(q: Query, s: Search) {
    forall n, e | Settled(q, s, n) && e in s.heap :: s.best[n].cost <= e.cost
  }

  /** The relaxation inequality at `n`, for the edges and for our own channel. */
  ghost predicate RelaxedAt(q: Query, s: Search, n: Node)
    requires n in s.best
  {
    && (forall e | e in q.Edges(n) && Feasible(q, s.best[n], e) ::
          e.from in s.best && s.best[e.from].cost <= CostOver(q, n, s.best[n], e))
    && (CanStart(q, n, s.best[n]) ==> q.payer in s.best && s.best[q.payer].cost <= s.best[n].cost)
  }

  ghost predicate Relaxed(q: Query, s: Search) {
    forall n | Settled(q, s, n) && s.best[n].hops < q.maxHops :: RelaxedAt(q, s, n)
  }

  /** Every state is accounted for by the payee's or by a settled one. */
  ghost predicate Rooted(q: Query, s: Search) {
    && q.payer != q.payee
    && q.payee in s.best && s.best[q.payee] == Start(q)
    && forall n | n in s.best :: s.best[n].cost <= U64_MAX && Linked(q, s, n)
  }

  ghost predicate Inv(q: Query, s: Search) {
    Rooted(q, s) && Queued(q, s) && Ordered(q, s) && Relaxed(q, s)
  }

  lemma InitialInv(q: Query)
    requires q.payer != q.payee
    ensures Inv(q, Initial(q))
  {
    var s := Initial(q);
    assert Entry(q.amount, q.payee) in s.heap;
  }

  /** `t` differs from `s` by better states for unsettled nodes only. */
  ghost predicate Extends(q: Query, s: Search, t: Search) {
    && (forall n | n in s.best :: n in t.best && t.best[n].cost <= s.best[n].cost)
    && (forall n | Settled(q, s, n) :: Settled(q, t, n) && t.best[n] == s.best[n])
  }

  lemma CostGrows(q: Query, node: Node, state: NodeState, e: Edge)
    requires state.cost <= U64_MAX
    ensures state.cost <= CostOver(q, node, state, e) <= U64_MAX
  {
  }

  // ------------------------------------------------- preservation, pop by pop

  /** While `node` is being expanded: it is settled last and not yet relaxed. */
  ghost predicate Expanding(q: Query, s: Search, node: Node) {
    && Rooted(q, s) && Queued(q, s) && Ordered(q, s)
    && Frontier(q, s, node) && RelaxedBut(q, s, node)
  }

  ghost predicate Frontier(q: Query, s: Search, node: Node) {
    && Settled(q, s, node) && s.best[node].hops < q.maxHops
    && (forall e | e in s.heap :: s.best[node].cost <= e.cost)
    && (forall n | Settled(q, s, n) :: s.best[n].cost <= s.best[node].cost)
  }

  ghost predicate RelaxedBut(q: Query, s: Search, node: Node) {
    forall n | Settled(q, s, n) && s.best[n].hops < q.maxHops && n != node :: RelaxedAt(q, s, n)
  }

  /** Better states keep the account of all others, given that the changed node's is in order. */
  lemma RootedKept(q: Query, s: Search, t: Search, changed: Node)
    requires Rooted(q, s) && Extends(q, s, t) && changed != q.payee
    requires forall n | n in t.best && n != changed :: n in s.best && t.best[n] == s.best[n]
    requires changed in t.best ==> t.best[changed].cost <= U64_MAX && Linked(q, t, changed)
    ensures Rooted(q, t)
  {
    hide Linked, Settled;
    forall n | n in t.best
      ensures Linked(q, t, n)
    {
      if n != changed {
        LinkedKept(q, s, t, n);
      }
    }
  }

  lemma RelaxedButKept(q: Query, s: Search, t: Search, node: Node)
    requires RelaxedBut(q, s, node) && Extends(q, s, t)
    requires forall n | Settled(q, t, n) :: Settled(q, s, n) || n == node
    ensures RelaxedBut(q, t, node)
  {
    hide Settled, RelaxedAt;
    forall n | Settled(q, t, n) && t.best[n].hops < q.maxHops && n != node
      ensures RelaxedAt(q, t, n)
    {
      assert Settled(q, s, n);
      RelaxedKept(q, s, t, n);
    }
  }

  /** What a node's state was computed from stays settled and unchanged. */
  lemma LinkedKept(q: Query, s: Search, t: Search, n: Node)
    requires n in s.best && n in t.best && s.best[n] == t.best[n]
    requires Linked(q, s, n)
    requires forall m | Settled(q, s, m) :: Settled(q, t, m) && t.best[m] == s.best[m]
    ensures Linked(q, t, n)
  {
    hide Feasible, StateOver, PayerState, CanStart;
  }

  /** Removing the least entry settles its node, whether or not the entry was live. */
  lemma PopSettles(q: Query, s: Search, e: Entry, t: Search)
    requires Queued(q, s) && Least(s.heap, e)
    requires t == s.(heap := s.heap - multiset{e})
    ensures Settled(q, t, e.node) && t.best[e.node].cost <= e.cost
    ensures Settled(q, s, e.node) <==> s.best[e.node].cost < e.cost
    ensures forall n | Settled(q, t, n) :: Settled(q, s, n) || n == e.node
    ensures forall n | Settled(q, s, n) :: Settled(q, t, n)
  {
    var own := Entry(s.best[e.node].cost, e.node);
    assert own in s.heap ==> own.cost >= e.cost;
    forall n | Settled(q, t, n) && n != e.node
      ensures Settled(q, s, n)
    {
      var x := Entry(s.best[n].cost, n);
      assert x != e;
      assert t.heap[x] == s.heap[x];
    }
  }

  lemma PopQueued(q: Query, s: Search, e: Entry, t: Search)
    requires Queued(q, s) && e in s.heap
    requires t == s.(heap := s.heap - multiset{e})
    ensures Queued(q, t)
  {
    forall f | f in t.heap
      ensures f in s.heap
    {
    }
    forall n | n in t.best
      ensures t.heap[Entry(t.best[n].cost, n)] <= 1
    {
      assert t.heap[Entry(t.best[n].cost, n)] <= s.heap[Entry(s.best[n].cost, n)];
    }
  }

  lemma PopOrdered(q: Query, s: Search, e: Entry, t: Search)
    requires Queued(q, s) && Ordered(q, s) && Least(s.heap, e)
    requires t == s.(heap := s.heap - multiset{e})
    ensures Ordered(q, t)
  {
    hide Settled, Queued;
    PopSettles(q, s, e, t);
    forall f | f in t.heap
      ensures f in s.heap
    {
    }
  }

  lemma PopRest(q: Query, s: Search, e: Entry, t: Search)
    requires Inv(q, s) && Least(s.heap, e)
    requires t == s.(heap := s.heap - multiset{e})
    ensures Rooted(q, t) && Queued(q, t) && Ordered(q, t) && Extends(q, s, t)
    ensures RelaxedBut(q, t, e.node)
  {
    hide Settled, Queued, Ordered, Rooted, RelaxedAt;
    PopSettles(q, s, e, t);
    PopQueued(q, s, e, t);
    PopOrdered(q, s, e, t);
    PopRooted(q, s, t);
    RelaxedButKept(q, s, t, e.node);
  }

  lemma PopRooted(q: Query, s: Search, t: Search)
    requires Rooted(q, s) && Extends(q, s, t) && t.best == s.best
    ensures Rooted(q, t)
  {
    hide Settled, Linked;
    forall n | n in t.best
      ensures Linked(q, t, n)
    {
      LinkedKept(q, s, t, n);
    }
  }

  /** A live pop of a node that may still be extended starts its expansion. */
  lemma ExpansionStarts(q: Query, s: Search, e: Entry, t: Search)
    requires Inv(q, s) && Least(s.heap, e) && s.best[e.node].cost == e.cost && s.best[e.node].hops < q.maxHops
    requires t == s.(heap := s.heap - multiset{e})
    ensures Expanding(q, t, e.node) && Extends(q, s, t)
  {
    hide Settled, Queued, Rooted, RelaxedBut, Relaxed;
    PopRest(q, s, e, t);
    PopSettles(q, s, e, t);
    forall f | f in t.heap
      ensures f in s.heap
    {
    }
    forall n | Settled(q, t, n)
      ensures t.best[n].cost <= e.cost
    {
      SettledBelow(q, s, e, n);
    }
  }

  lemma SettledBelow(q: Query, s: Search, e: Entry, n: Node)
    requires Ordered(q, s) && e in s.heap
    ensures Settled(q, s, n) ==> s.best[n].cost <= e.cost
  {
  }

  /** The relaxation inequality survives better states elsewhere. */
  lemma RelaxedKept(q: Query, s: Search, t: Search, n: Node)
    requires n in s.best && n in t.best && t.best[n] == s.best[n] && RelaxedAt(q, s, n)
    requires forall m | m in s.best :: m in t.best && t.best[m].cost <= s.best[m].cost
    ensures RelaxedAt(q, t, n)
  {
    hide Feasible, CanStart, CostOver;
  }

  /** A better state for one node that is not settled. */
  lemma BetterExtends(q: Query, s: Search, t: Search, changed: Node)
    requires forall n | n in s.best && n != changed :: n in t.best && t.best[n] == s.best[n]
    requires changed in s.best ==> changed in t.best && t.best[changed].cost <= s.best[changed].cost
    requires !Settled(q, s, changed) && forall n :: Settled(q, t, n) <==> Settled(q, s, n)
    ensures Extends(q, s, t)
  {
    hide Settled;
  }

  lemma OfferSettled(q: Query, s: Search, t: Search)
    requires t.heap == s.heap
    requires forall n | n in t.best && n != q.payer :: n in s.best && t.best[n] == s.best[n]
    requires forall n | n in s.best && n != q.payer :: n in t.best
    ensures !Settled(q, s, q.payer) && forall n :: Settled(q, t, n) <==> Settled(q, s, n)
  {
  }

  /** Offering `node` as a start changes the payer's state only. */
  lemma OfferKeeps(q: Query, s: Search, node: Node)
    requires Expanding(q, s, node)
    ensures var t := OfferStart(q, s, node, s.best[node]);
            && Expanding(q, t, node) && Extends(q, s, t) && t.best[node] == s.best[node]
            && (CanStart(q, node, t.best[node]) ==> q.payer in t.best && t.best[q.payer].cost <= t.best[node].cost)
  {
    hide Linked, RelaxedAt, CanStart, PayerState, Rooted, RelaxedBut, Settled, Queued, Ordered;
    var state := s.best[node];
    var t := OfferStart(q, s, node, state);
    if CanStart(q, node, state) && Improves(s.best, q.payer, state.cost) {
      PayerCost(q, node, state);
      OfferSettled(q, s, t);
      BetterExtends(q, s, t, q.payer);
      RootedCost(q, s, node);
      StartLinked(q, s, t, node);
      RootedKept(q, s, t, q.payer);
      RelaxedButKept(q, s, t, node);
      OfferQueued(q, s, t);
    }
  }

  /** The payer is never queued, so its state does not matter to the queue. */
  lemma OfferQueued(q: Query, s: Search, t: Search)
    requires Queued(q, s) && Ordered(q, s) && t.heap == s.heap
    requires forall n | n in t.best && n != q.payer :: n in s.best && t.best[n] == s.best[n]
    requires forall n | n in s.best && n != q.payer :: n in t.best
    ensures Queued(q, t) && Ordered(q, t)
  {
    forall n | n in t.best
      ensures t.heap[Entry(t.best[n].cost, n)] <= 1
    {
      if n == q.payer {
        assert Entry(t.best[n].cost, n) !in s.heap;
      }
    }
  }

  lemma RootedCost(q: Query, s: Search, n: Node)
    requires Rooted(q, s) && n in s.best
    ensures s.best[n].cost <= U64_MAX
    ensures n == q.payee ==> s.best[n] == Start(q)
    ensures q.payer != q.payee && q.payee in s.best && s.best[q.payee] == Start(q)
  {
  }

  lemma PayerCost(q: Query, node: Node, state: NodeState)
    requires CanStart(q, node, state)
    ensures PayerState(q, node, state).cost == state.cost
  {
  }

  lemma StartLinked(q: Query, s: Search, t: Search, node: Node)
    requires Settled(q, s, node) && s.best[node].hops < q.maxHops && s.best[node].cost <= U64_MAX
    requires CanStart(q, node, s.best[node])
    requires t == s.(best := s.best[q.payer := PayerState(q, node, s.best[node])]) && node != q.payer
    ensures Linked(q, t, q.payer) && t.best[q.payer].cost <= U64_MAX
  {
  }

  /** An edge into `node` has been relaxed. */
  ghost predicate EdgeDone(q: Query, s: Search, node: Node, e: Edge)
    requires node in s.best
  {
    Feasible(q, s.best[node], e) ==>
      e.from in s.best && s.best[e.from].cost <= CostOver(q, node, s.best[node], e)
  }

  /** Relaxing one edge: a settled node is never improved. */
  lemma RelaxKeeps(q: Query, s: Search, node: Node, e: Edge)
    requires Expanding(q, s, node) && e in q.Edges(node)
    ensures var t := Relax(q, s, node, s.best[node], e);
            && Expanding(q, t, node) && Extends(q, s, t) && t.best[node] == s.best[node]
            && EdgeDone(q, t, node, e)
  {
    hide Linked, RelaxedAt, Feasible, CostOver, StateOver, Rooted, RelaxedBut, Queued, Ordered, Settled;
    var state := s.best[node];
    var t := Relax(q, s, node, state, e);
    var cost := CostOver(q, node, state, e);
    RootedCost(q, s, node);
    CostGrows(q, node, state, e);
    StateCost(q, node, state, e);
    if Feasible(q, state, e) && Improves(s.best, e.from, cost) {
      FromElsewhere(q, state, e);
      NotYetQueued(q, s, e.from, cost);
      RelaxSettled(q, s, t, e.from, cost);
      BetterExtends(q, s, t, e.from);
      RelaxQueued(q, s, t, e.from, cost);
      RelaxOrdered(q, s, t, e.from, cost);
      EdgeLinked(q, s, t, node, e);
      RootedKept(q, s, t, e.from);
      RelaxedButKept(q, s, t, node);
    }
  }

  lemma StateCost(q: Query, node: Node, state: NodeState, e: Edge)
    ensures StateOver(q, node, state, e).cost == CostOver(q, node, state, e)
  {
  }

  lemma FromElsewhere(q: Query, state: NodeState, e: Edge)
    requires Feasible(q, state, e)
    ensures e.from != q.payee && e.from != q.payer
  {
  }

  /** An improvement is news to the queue, and its node was not settled. */
  lemma NotYetQueued(q: Query, s: Search, from: Node, cost: nat)
    requires Queued(q, s)
    requires Improves(s.best, from, cost)
    requires forall n | Settled(q, s, n) :: s.best[n].cost <= cost
    ensures Entry(cost, from) !in s.heap && !Settled(q, s, from)
  {
  }

  ghost predicate Improved(q: Query, s: Search, t: Search, from: Node, cost: nat) {
    && from != q.payer && from in t.best && t.best[from].cost == cost
    && Improves(s.best, from, cost)
    && t.best == s.best[from := t.best[from]]
    && t.heap == s.heap + multiset{Entry(cost, from)}
  }

  lemma RelaxSettled(q: Query, s: Search, t: Search, from: Node, cost: nat)
    requires Improved(q, s, t, from, cost) && !Settled(q, s, from)
    ensures forall n :: Settled(q, t, n) <==> Settled(q, s, n)
  {
    forall n
      ensures Settled(q, t, n) <==> Settled(q, s, n)
    {
      if n == from {
        assert Entry(cost, from) in t.heap;
      } else if n in s.best {
        var x := Entry(s.best[n].cost, n);
        assert t.heap[x] == s.heap[x];
      }
    }
  }

  lemma RelaxQueued(q: Query, s: Search, t: Search, from: Node, cost: nat)
    requires Queued(q, s) && Improved(q, s, t, from, cost) && Entry(cost, from) !in s.heap
    ensures Queued(q, t)
  {
    forall n | n in t.best
      ensures t.heap[Entry(t.best[n].cost, n)] <= 1
    {
      if n != from {
        assert t.heap[Entry(t.best[n].cost, n)] == s.heap[Entry(s.best[n].cost, n)];
      }
    }
    forall f | f in t.heap
      ensures f.node in t.best && f.node != q.payer && t.best[f.node].cost <= f.cost
    {
      if f != Entry(cost, from) {
        assert f in s.heap;
      }
    }
  }

  lemma RelaxOrdered(q: Query, s: Search, t: Search, from: Node, cost: nat)
    requires Ordered(q, s) && Improved(q, s, t, from, cost)
    requires forall n | Settled(q, s, n) :: s.best[n].cost <= cost
    requires forall n :: Settled(q, t, n) <==> Settled(q, s, n)
    requires !Settled(q, s, from)
    ensures Ordered(q, t)
  {
    forall n, f | Settled(q, t, n) && f in t.heap
      ensures t.best[n].cost <= f.cost
    {
      assert Settled(q, s, n);
      if f != Entry(cost, from) {
        assert f in s.heap;
      }
    }
  }

  lemma EdgeLinked(q: Query, s: Search, t: Search, node: Node, e: Edge)
    requires Settled(q, s, node) && s.best[node].hops < q.maxHops && s.best[node].cost <= U64_MAX
    requires Settled(q, t, node) && t.best[node] == s.best[node]
    requires e in q.Edges(node) && Feasible(q, s.best[node], e)
    requires e.from in t.best && t.best[e.from] == StateOver(q, node, s.best[node], e)
    ensures Linked(q, t, e.from) && t.best[e.from].cost <= U64_MAX
  {
    CostGrows(q, node, s.best[node], e);
    FromElsewhere(q, s.best[node], e);
    assert ViaEdge(q, t, e.from, t.best[e.from]) by {
      hide Feasible, CostOver;
    }
  }

  lemma ExtendsTrans(q: Query, s: Search, t: Search, u: Search)
    requires Extends(q, s, t) && Extends(q, t, u)
    ensures Extends(q, s, u)
  {
  }

  lemma {:induction false} RelaxAllKeeps(q: Query, s: Search, node: Node, edges: seq<Edge>)
    requires Expanding(q, s, node) && forall e | e in edges :: e in q.Edges(node)
    ensures var t := RelaxAll(q, s, node, s.best[node], edges);
            && Expanding(q, t, node) && Extends(q, s, t) && t.best[node] == s.best[node]
            && forall e | e in edges :: EdgeDone(q, t, node, e)
  {
    hide Rooted, Queued, Ordered, RelaxedBut, Relax, EdgeDone;
    var state := s.best[node];
    if edges != [] {
      var n := |edges| - 1;
      RelaxAllKeeps(q, s, node, edges[..n]);
      var mid := RelaxAll(q, s, node, state, edges[..n]);
      RelaxKeeps(q, mid, node, edges[n]);
      var t := Relax(q, mid, node, state, edges[n]);
      ExtendsTrans(q, s, mid, t);
      forall e | e in edges
        ensures EdgeDone(q, t, node, e)
      {
        if e != edges[n] {
          assert e in edges[..n];
          DoneKept(q, mid, t, node, e);
        }
      }
    }
  }

  lemma DoneKept(q: Query, s: Search, t: Search, node: Node, e: Edge)
    requires node in s.best && node in t.best && t.best[node] == s.best[node]
    requires Extends(q, s, t) && EdgeDone(q, s, node, e)
    ensures EdgeDone(q, t, node, e)
  {
  }

  /** Every pop keeps the invariant and leaves what is settled alone. */
  lemma PopKeeps(q: Query, s: Search, e: Entry)
    requires Inv(q, s) && Least(s.heap, e)
    ensures var t := AfterPop(q, s, e);
            && Inv(q, t) && Extends(q, s, t) && Settled(q, t, e.node)
            && (forall f | f in t.heap :: e.cost <= f.cost)
  {
    hide Settled, Queued, Ordered, Rooted, RelaxedAt, RelaxAll, OfferStart;
    QueuedCost(q, s, e);
    var rest := s.(heap := s.heap - multiset{e});
    var state := s.best[e.node];
    PopSettles(q, s, e, rest);
    PopRest(q, s, e, rest);
    forall f | f in rest.heap
      ensures f in s.heap
    {
    }
    if state.cost < e.cost {
      assert Settled(q, s, e.node);
      if state.hops < q.maxHops {
        RelaxedKept(q, s, rest, e.node);
      }
    } else if state.hops < q.maxHops {
      ExpansionStarts(q, s, e, rest);
      ExpansionKeeps(q, rest, e.node);
      ExtendsTrans(q, s, rest, AfterPop(q, s, e));
    }
  }

  lemma QueuedCost(q: Query, s: Search, e: Entry)
    requires Queued(q, s) && e in s.heap
    ensures e.node in s.best && s.best[e.node].cost <= e.cost
  {
  }

  lemma ExpansionKeeps(q: Query, s: Search, node: Node)
    requires Expanding(q, s, node)
    ensures var t := RelaxAll(q, OfferStart(q, s, node, s.best[node]), node, s.best[node], q.Edges(node));
            && Inv(q, t) && Extends(q, s, t) && Settled(q, t, node)
            && (forall f | f in t.heap :: s.best[node].cost <= f.cost)
  {
    hide Settled, Queued, Ordered, Rooted, RelaxAll, OfferStart, CanStart, Feasible, CostOver;
    var state := s.best[node];
    OfferKeeps(q, s, node);
    var mid := OfferStart(q, s, node, state);
    RelaxAllKeeps(q, mid, node, q.Edges(node));
    var t := RelaxAll(q, mid, node, state, q.Edges(node));
    ExtendsTrans(q, s, mid, t);
    assert RelaxedAt(q, t, node) by {
      forall e | e in q.Edges(node) && Feasible(q, t.best[node], e)
        ensures e.from in t.best && t.best[e.from].cost <= CostOver(q, node, t.best[node], e)
      {
        assert EdgeDone(q, t, node, e);
      }
    }
  }
}
