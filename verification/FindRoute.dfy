/** The source's search loop and walk, proved to terminate and to run the
    transition system of `Router` to an empty heap. */
module FindRoute {
  import opened Wrappers
  import opened Router
  import opened Gossip
  import opened Routing

  // ------------------------------------------------------- nodes are finite

  /** The payee and every node some edge comes from. */
  ghost function Universe(q: Query): set<Node> {
    {q.payee}
    + (set c | c in q.graph.channels.Values :: c.node1)
    + (set c | c in q.graph.channels.Values :: c.node2)
    + (set p, h | p in q.hints && h in p :: h.src)
  }

  lemma {:induction false} EdgesOverKnown(q: Query, to: Node, scids: seq<Scid>, e: Edge)
    requires e in EdgesOver(q.graph, to, scids)
    ensures e.from in Universe(q)
  {
    var n := |scids| - 1;
    if e in EdgesOver(q.graph, to, scids[..n]) {
      EdgesOverKnown(q, to, scids[..n], e);
    } else {
      assert q.graph.channels[scids[n]] in q.graph.channels.Values;
    }
  }

  lemma {:induction false} HintEdgesKnown(q: Query, path: seq<HintHop>, to: Node, i: nat, e: Edge)
    requires path in q.hints && i <= |path| && e in HintEdges(path, q.payee, to, i)
    ensures e.from in Universe(q)
  {
    if e in HintEdges(path, q.payee, to, i - 1) {
      HintEdgesKnown(q, path, to, i - 1, e);
    } else {
      assert path[i - 1] in path;
    }
  }

  lemma {:induction false} HintsKnown(q: Query, n: nat, to: Node, e: Edge)
    requires n <= |q.hints| && e in HintsInto(q.hints[..n], q.payee, to)
    ensures e.from in Universe(q)
  {
    assert q.hints[..n][..n - 1] == q.hints[..n - 1];
    if e in HintsInto(q.hints[..n - 1], q.payee, to) {
      HintsKnown(q, n - 1, to, e);
    } else {
      HintEdgesKnown(q, q.hints[n - 1], to, |q.hints[n - 1]|, e);
    }
  }

  lemma EdgesKnown(q: Query, to: Node, e: Edge)
    requires e in q.Edges(to)
    ensures e.from in Universe(q)
  {
    hide Universe;
    if e in EdgesInto(q.graph, to) {
      EdgesOverKnown(q, to, q.graph.nodes[to], e);
    } else {
      assert q.hints[..|q.hints|] == q.hints;
      HintsKnown(q, |q.hints|, to, e);
    }
  }

  lemma NodesKnown(q: Query, s: Search, n: Node)
    requires Rooted(q, s) && n in s.best && n != q.payer
    ensures n in Universe(q)
  {
    assert Linked(q, s, n);
    if n != q.payee {
      var m := s.best[n].next.value.node;
      var e :| e in q.Edges(m) && e.from == n;
      EdgesKnown(q, m, e);
    }
  }

  // -------------------------------------------------------------- termination

  ghost function Unsettled(q: Query, s: Search): set<Node> {
    set n | n in Universe(q) && !Settled(q, s, n)
  }

  lemma SubsetSmaller<T>(a: set<T>, b: set<T>)
    requires a <= b
    ensures |a| <= |b| && (|a| == |b| ==> a == b)
  {
    assert b == a + (b - a);
  }

  /** A live pop settles a node; a stale one only shortens the heap. */
  lemma PopProgresses(q: Query, s: Search, e: Entry)
    requires Inv(q, s) && Least(s.heap, e)
    ensures var t := AfterPop(q, s, e);
            || |Unsettled(q, t)| < |Unsettled(q, s)|
            || (|Unsettled(q, t)| == |Unsettled(q, s)| && |t.heap| < |s.heap|)
  {
    hide Universe, Rooted, Ordered, Relaxed, RelaxAll, OfferStart;
    QueuedCost(q, s, e);
    PopKeeps(q, s, e);
    var t := AfterPop(q, s, e);
    assert Unsettled(q, t) <= Unsettled(q, s);
    SubsetSmaller(Unsettled(q, t), Unsettled(q, s));
    if s.best[e.node].cost == e.cost {
      NodesKnown(q, s, e.node);
      assert e.node in Unsettled(q, s) && e.node !in Unsettled(q, t);
    } else {
      PopSettles(q, s, e, t);
      assert Unsettled(q, t) == Unsettled(q, s);
    }
  }

  lemma {:induction false} LeastExists(heap: multiset<Entry>)
    requires |heap| > 0
    ensures exists e :: Least(heap, e)
    decreases |heap|
  {
    var x :| x in heap;
    var rest := heap - multiset{x};
    if |rest| > 0 {
      LeastExists(rest);
      var y :| Least(rest, y);
      var e := if x.cost <= y.cost then x else y;
      forall f | f in heap
        ensures e.cost <= f.cost
      {
        if f != x {
          assert f in rest;
        }
      }
      assert Least(heap, e);
    } else {
      assert heap == multiset{x} + rest;
      assert Least(heap, x);
    }
  }

  // -------------------------------------------------- paying oneself

  /** The same search for a payer nobody knows. When payer and payee coincide
      it takes the same steps. */
  function Twin(q: Query, stranger: Node): Query {
    q.(payer := stranger, firstHops := [])
  }

  lemma {:induction false} CostAboveStart(q: Query, s: Search, n: Node)
    requires Rooted(q, s) && n in s.best
    ensures s.best[n].cost >= q.amount
    decreases s.best[n].hops
  {
    assert Linked(q, s, n);
    NextDown(q, s, n);
    if n != q.payee {
      var m := s.best[n].next.value.node;
      CostAboveStart(q, s, m);
      if n != q.payer {
        var e :| e in q.Edges(m) && s.best[n] == StateOver(q, m, s.best[m], e);
        CostGrows(q, m, s.best[m], e);
      }
    }
  }

  lemma {:induction false} TwinRelaxes(
    q: Query, w: Query, s: Search, node: Node, state: NodeState, edges: seq<Edge>)
    requires q.payer == q.payee && w == Twin(q, w.payer) && w.payer !in Universe(q)
    requires forall e | e in edges :: e in q.Edges(node)
    ensures RelaxAll(q, s, node, state, edges) == RelaxAll(w, s, node, state, edges)
  {
    if edges != [] {
      var n := |edges| - 1;
      TwinRelaxes(q, w, s, node, state, edges[..n]);
      EdgesKnown(q, node, edges[n]);
    }
  }

  lemma TwinSteps(q: Query, w: Query, s: Search, e: Entry)
    requires q.payer == q.payee && w == Twin(q, w.payer) && w.payer !in Universe(q)
    requires Inv(w, s) && Least(s.heap, e)
    ensures e.node in s.best && AfterPop(q, s, e) == AfterPop(w, s, e)
  {
    hide Ordered, Relaxed, Universe, Rooted, RelaxAll;
    QueuedCost(w, s, e);
    var state := s.best[e.node];
    CostAboveStart(w, s, e.node);
    RootedCost(w, s, e.node);
    assert q.Edges(e.node) == w.Edges(e.node);
    TwinRelaxes(q, w, s.(heap := s.heap - multiset{e}), e.node, state, q.Edges(e.node));
  }

  lemma StrangerExists(known: set<Node>)
    ensures exists n: Node :: n !in known
  {
    var bound := Bound(known);
    assert bound !in known;
  }

  ghost function Bound(known: set<Node>): (b: Node)
    ensures forall n | n in known :: n < b
  {
    if known == {} then 0
    else
      var n :| n in known;
      var rest := Bound(known - {n});
      var b := if rest <= n then n + 1 else rest;
      assert forall m | m in known :: m == n || m in known - {n};
      b
  }

  // ------------------------------------------------------- the source's loops

  /** Offer `node` as a start, then relax the edges into it one by one. */
  method Expand(q: Query, s: Search, node: Node, state: NodeState) returns (t: Search)
    ensures t == RelaxAll(q, OfferStart(q, s, node, state), node, state, q.Edges(node))
  {
    hide Feasible, CostOver, StateOver;
    var best: map<Node, NodeState>, heap := s.best, s.heap;
    var fh := q.FirstHopTo(node);
    if fh.Some? && fh.value.available >= state.amount {
      var payerState := NodeState(state.amount, state.cltv, state.cost,
                                  Some(RouteHop(node, fh.value.scid, state.amount, state.cltv)), state.hops + 1);
      if q.payer !in best || payerState.cost < best[q.payer].cost {
        best := best[q.payer := payerState];
      }
    }
    ghost var start := OfferStart(q, s, node, state);
    assert Search(best, heap) == start;
    var edges := q.Edges(node);
    for i := 0 to |edges|
      invariant Search(best, heap) == RelaxAll(q, start, node, state, edges[..i])
    {
      assert edges[..i + 1][..i] == edges[..i];
      ghost var now := Search(best, heap);
      var e := edges[i];
      best, heap := RelaxOne(q, best, heap, node, state, e);
      assert Search(best, heap) == Relax(q, now, node, state, e);
    }
    assert edges[..|edges|] == edges;
    t := Search(best, heap);
  }

  method RelaxOne(q: Query, best: map<Node, NodeState>, heap: multiset<Entry>, node: Node, state: NodeState, e: Edge)
    returns (newBest: map<Node, NodeState>, newHeap: multiset<Entry>)
    ensures Search(newBest, newHeap) == Relax(q, Search(best, heap), node, state, e)
  {
    newBest, newHeap := best, heap;
    if e.from == q.payee || e.from == q.payer {
      return;
    }
    var fee := e.policy.FeeFor(state.amount);
    var amountIn := state.amount + fee;
    if amountIn < e.policy.htlcMinimum || amountIn > e.policy.htlcMaximum {
      return;
    }
    if e.capacitySat.Some? && amountIn > e.capacitySat.value * 1000 {
      return;
    }
    var penalty := q.penalty(Candidate(e, node, amountIn));
    var newCost := SaturatingAdd(SaturatingAdd(state.cost, fee), penalty);
    if e.from !in best || newCost < best[e.from].cost {
      newBest := best[e.from := NodeState(amountIn, state.cltv + e.policy.cltvDelta, newCost,
                                          Some(RouteHop(node, e.scid, state.amount, state.cltv)), state.hops + 1)];
      newHeap := heap + multiset{Entry(newCost, e.from)};
    }
  }

  /** Follow the table from the payer. The hop limit is never hit; the payee's
      own entry leads nowhere. */
  method Walk(q: Query, s: Search) returns (r: Result<Route, RouteError>)
    requires if q.payer == q.payee then q.payer in s.best && s.best[q.payer].next.None? else Rooted(q, s)
    ensures r == if q.payer in s.best && q.payer != q.payee then Ok(RouteOf(q, s)) else Err(NoPath)
  {
    hide Rooted;
    if q.payer !in s.best {
      return Err(NoPath);
    }
    var hops: seq<RouteHop> := [];
    ghost var at := q.payer;
    if q.payer != q.payee {
      PayerFacts(q, s);
      NextDown(q, s, at);
    }
    var cursor := s.best[q.payer].next;
    while cursor.Some?
      invariant at in s.best && cursor == s.best[at].next
      invariant cursor.None? <==> q.payer == q.payee
      invariant q.payer == q.payee ==> hops == []
      invariant q.payer != q.payee ==> at != q.payee && hops + HopsFrom(q, s, at) == HopsFrom(q, s, q.payer)
      decreases s.best[at].hops
    {
      NextDown(q, s, at);
      ghost var before := hops;
      var hop := cursor.value;
      hops := hops + [hop];
      assert before + HopsFrom(q, s, at) == hops + HopsFrom(q, s, hop.node);
      if hop.node == q.payee {
        assert hops + HopsFrom(q, s, hop.node) == hops;
        break;
      }
      cursor := if hop.node in s.best then s.best[hop.node].next else None;
      if |hops| > q.maxHops {
        return Err(LimitExceeded);
      }
      at := hop.node;
      NextDown(q, s, at);
    }
    if hops == [] || hops[|hops| - 1].node != q.payee {
      return Err(NoPath);
    }
    return Ok(Route(hops, s.best[q.payer].amount, s.best[q.payer].cltv));
  }

  /** The query whose run `FindRoute` follows: its own, unless payer and payee coincide. */
  ghost predicate Follows(q: Query, w: Query) {
    && w.payer != w.payee
    && (q.payer != q.payee ==> w == q)
    && (q.payer == q.payee ==> w == Twin(q, w.payer) && w.payer !in Universe(q))
  }

  method Find(q: Query) returns (r: Result<Route, RouteError>, ghost states: seq<Search>, ghost pops: seq<Entry>)
    ensures r.Ok? ==> ValidRoute(q, r.value)
    ensures r.Err? ==> r.error == NoPath
    ensures q.payer == q.payee ==> r.Err?
    ensures r.Err? && q.payer != q.payee && WellFormed(q.graph) ==> |states| > 0 && Exhausted(q, states[|states| - 1])
    ensures q.payer != q.payee && q.maxHops > 0 && PeerCanReceive(q) ==> r.Ok?
    ensures q.payer != q.payee ==>
              && IsRun(q, states, pops)
              && var last := states[|pops|];
              && Inv(q, last) && last.heap == multiset{}
              && r == if q.payer in last.best then Ok(RouteOf(q, last)) else Err(NoPath)
  {
    hide Inv, AfterPop, ValidRoute, Universe, Least, Exhausted, WellFormed;
    StrangerExists(Universe(q));
    ghost var stranger: Node :| stranger !in Universe(q);
    ghost var w := if q.payer != q.payee then q else Twin(q, stranger);
    PayeeKnown(q);
    assert Follows(q, w);
    var s := Initial(q);
    states, pops := [s], [];
    InitialInv(w);
    while |s.heap| > 0
      invariant Follows(q, w) && Inv(w, s) && IsRun(w, states, pops) && states[|pops|] == s
      decreases |Unsettled(w, s)|, |s.heap|
    {
      LeastExists(s.heap);
      var e :| Least(s.heap, e);
      PopKeeps(w, s, e);
      PopProgresses(w, s, e);
      InvQueued(w, s, e);
      ghost var t := AfterPop(w, s, e);
      if q.payer == q.payee {
        TwinSteps(q, w, s, e);
      }
      var next := Pop(q, s, e);
      assert next == t;
      RunExtends(w, states, pops, e);
      states, pops := states + [t], pops + [e];
      s := next;
    }
    InvRooted(w, s);
    PayeeRooted(w, s);
    assert s.heap == multiset{};
    RootedCost(w, s, w.payee);
    r := Walk(q, s);
    if r.Ok? {
      TableRoutesValid(q, s);
    }
    if q.payer != q.payee {
      WhenNone(q, s);
    }
  }

  /** What the end of the search means when there is no route. */
  lemma WhenNone(q: Query, s: Search)
    requires q.payer != q.payee && Inv(q, s) && s.heap == multiset{}
    ensures q.payer !in s.best && WellFormed(q.graph) ==> Exhausted(q, s)
    ensures q.maxHops > 0 && PeerCanReceive(q) ==> q.payer in s.best
  {
    hide Inv, Exhausted, WellFormed;
    if q.payer !in s.best && WellFormed(q.graph) { NoPathExhausted(q, s); }
    if q.maxHops > 0 && PeerCanReceive(q) {
      DirectPeerFound(q, s);
    }
  }

  lemma PayeeRooted(q: Query, s: Search)
    requires Rooted(q, s)
    ensures q.payee in s.best
  {
  }

  lemma PayeeKnown(q: Query)
    ensures q.payee in Universe(q)
  {
  }

  lemma InvRooted(q: Query, s: Search)
    requires Inv(q, s)
    ensures Rooted(q, s)
  {
  }

  lemma InvQueued(q: Query, s: Search, e: Entry)
    requires Inv(q, s) && Least(s.heap, e)
    ensures e.node in s.best
  {
    QueuedCost(q, s, e);
  }

  lemma RunExtends(q: Query, states: seq<Search>, pops: seq<Entry>, e: Entry)
    requires IsRun(q, states, pops)
    requires var s := states[|pops|]; Least(s.heap, e) && e.node in s.best
    ensures IsRun(q, states + [AfterPop(q, states[|pops|], e)], pops + [e])
  {
    hide AfterPop, Initial, Least;
    var more := states + [AfterPop(q, states[|pops|], e)];
    forall i | 0 <= i < |pops| + 1
      ensures StepAt(q, more, pops + [e], i)
    {
      if i < |pops| {
        assert StepAt(q, states, pops, i);
      }
    }
  }

  /** One turn of the source's loop on the popped entry. */
  method Pop(q: Query, s: Search, e: Entry) returns (t: Search)
    requires e.node in s.best
    ensures t == AfterPop(q, s, e)
  {
    hide RelaxAll, OfferStart;
    var rest := s.(heap := s.heap - multiset{e});
    var state := s.best[e.node];
    if state.cost < e.cost {
      return rest;
    }
    if state.hops >= q.maxHops {
      return rest;
    }
    t := Expand(q, rest, e.node, state);
  }
}
