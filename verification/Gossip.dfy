/**
 * The gossip graph: how announcements and updates build it, and whose policy an
 * edge carries. A signature is an arbitrary relation between messages and keys,
 * a node identifier its key, ordered as its serialisation.
 */
module Gossip {
  import opened Wrappers
  import opened Router

  datatype Rumour =
    | Announcement(chain: nat, scid: Scid, node1: Node, node2: Node, bitcoin1: Node, bitcoin2: Node, capacitySat: Option<nat>)
    | Update(chain: nat, scid: Scid, fromNode1: bool, policy: Policy)

  datatype GossipError = BadSignature | UnknownChannel | WrongChain | Ignored

  /** What the graph checks messages against. */
  datatype Net = Net(chain: nat, signedBy: (Rumour, Node) -> bool)

  // ------------------------------------------------------------ its operations

  predicate AllSigned(net: Net, m: Rumour)
    requires m.Announcement?
  {
    && net.signedBy(m, m.node1) && net.signedBy(m, m.node2)
    && net.signedBy(m, m.bitcoin1) && net.signedBy(m, m.bitcoin2)
  }

  function Listed(nodes: map<Node, seq<Scid>>, n: Node, scid: Scid): map<Node, seq<Scid>> {
    nodes[n := (if n in nodes then nodes[n] else []) + [scid]]
  }

  function Slot(chan: ChannelInfo, fromNode1: bool): Option<Policy> {
    if fromNode1 then chan.oneToTwo else chan.twoToOne
  }

  function End(chan: ChannelInfo, first: bool): Node {
    if first then chan.node1 else chan.node2
  }

  function Refused(net: Net, g: Graph, m: Rumour): Option<GossipError> {
    if m.chain != net.chain then Some(WrongChain)
    else if m.Announcement? then
      if m.scid in g.channels then Some(Ignored)
      else if m.node1 >= m.node2 || !AllSigned(net, m) then Some(BadSignature)
      else None
    else if m.scid !in g.channels then Some(UnknownChannel)
    else
      var chan := g.channels[m.scid];
      var slot := Slot(chan, m.fromNode1);
      if !net.signedBy(m, End(chan, m.fromNode1)) then Some(BadSignature)
      else if slot.Some? && slot.value.timestamp >= m.policy.timestamp then Some(Ignored)
      else None
  }

  function Apply(net: Net, g: Graph, m: Rumour): Graph {
    if Refused(net, g, m).Some? then g
    else if m.Announcement? then
      Graph(Listed(Listed(g.nodes, m.node1, m.scid), m.node2, m.scid),
            g.channels[m.scid := ChannelInfo(m.node1, m.node2, m.capacitySat, None, None)])
    else
      var chan := g.channels[m.scid];
      g.(channels := g.channels[m.scid := if m.fromNode1 then chan.(oneToTwo := Some(m.policy))
                                          else chan.(twoToOne := Some(m.policy))])
  }

  class NetworkGraph {
    const net: Net
    var nodes: map<Node, seq<Scid>>
    var channels: map<Scid, ChannelInfo>

    function Contents(): Graph
      reads this
    {
      Graph(nodes, channels)
    }

    constructor (net: Net)
      ensures this.net == net && Contents() == Empty()
    {
      this.net := net;
      nodes, channels := map[], map[];
    }

    method ApplyChannelAnnouncement(m: Rumour) returns (r: Result<(), GossipError>)
      requires m.Announcement?
      modifies this
      ensures Contents() == Apply(net, old(Contents()), m)
      ensures r == match Refused(net, old(Contents()), m) case None => Ok(()) case Some(e) => Err(e)
    {
      if m.chain != net.chain {
        return Err(WrongChain);
      }
      if m.scid in channels {
        return Err(Ignored);
      }
      if m.node1 >= m.node2 {
        return Err(BadSignature);
      }
      if !net.signedBy(m, m.node1) || !net.signedBy(m, m.node2) || !net.signedBy(m, m.bitcoin1) || !net.signedBy(m, m.bitcoin2) {
        return Err(BadSignature);
      }
      channels := channels[m.scid := ChannelInfo(m.node1, m.node2, m.capacitySat, None, None)];
      nodes := Listed(nodes, m.node1, m.scid);
      nodes := Listed(nodes, m.node2, m.scid);
      return Ok(());
    }

    method ApplyChannelUpdate(m: Rumour) returns (r: Result<(), GossipError>)
      requires m.Update?
      modifies this
      ensures Contents() == Apply(net, old(Contents()), m)
      ensures r == match Refused(net, old(Contents()), m) case None => Ok(()) case Some(e) => Err(e)
    {
      if m.chain != net.chain {
        return Err(WrongChain);
      }
      if m.scid !in channels {
        return Err(UnknownChannel);
      }
      var chan := channels[m.scid];
      var signer := if m.fromNode1 then chan.node1 else chan.node2;
      if !net.signedBy(m, signer) {
        return Err(BadSignature);
      }
      var slot := if m.fromNode1 then chan.oneToTwo else chan.twoToOne;
      if slot.Some? && slot.value.timestamp >= m.policy.timestamp {
        return Err(Ignored);
      }
      if m.fromNode1 {
        channels := channels[m.scid := chan.(oneToTwo := Some(m.policy))];
      } else {
        channels := channels[m.scid := chan.(twoToOne := Some(m.policy))];
      }
      return Ok(());
    }
  }

  // -------------------------------------------------------------- what it holds

  function Empty(): Graph {
    Graph(map[], map[])
  }

  /** The graph after hearing `ms`, refusals included. */
  function After(net: Net, ms: seq<Rumour>): Graph {
    if ms == [] then Empty() else Apply(net, After(net, ms[..|ms| - 1]), ms[|ms| - 1])
  }

  predicate IsEnd(chan: ChannelInfo, n: Node) {
    n == chan.node1 || n == chan.node2
  }

  /** Every channel joins two different nodes and is listed at exactly those. */
  ghost predicate WellFormed(g: Graph) {
    && (forall scid | scid in g.channels :: g.channels[scid].node1 < g.channels[scid].node2)
    && forall n, scid :: ListedAt(g, n, scid) <==> scid in g.channels && IsEnd(g.channels[scid], n)
  }

  predicate ListedAt(g: Graph, n: Node, scid: Scid) {
    n in g.nodes && scid in g.nodes[n]
  }

  lemma ApplyWellFormed(net: Net, g: Graph, m: Rumour)
    requires WellFormed(g)
    ensures WellFormed(Apply(net, g, m))
  {
    hide AllSigned;
    var g' := Apply(net, g, m);
    forall n, scid
      ensures ListedAt(g', n, scid) <==> scid in g'.channels && IsEnd(g'.channels[scid], n)
    {
      assert ListedAt(g, n, scid) <==> scid in g.channels && IsEnd(g.channels[scid], n);
    }
  }

  /** Every graph gossip can build is well formed, whatever is heard. */
  lemma {:induction false} GossipWellFormed(net: Net, ms: seq<Rumour>)
    ensures WellFormed(After(net, ms))
    decreases |ms|
  {
    hide Apply;
    if ms != [] {
      GossipWellFormed(net, ms[..|ms| - 1]);
      ApplyWellFormed(net, After(net, ms[..|ms| - 1]), ms[|ms| - 1]);
    }
  }

  /** An announcement of `scid` on our chain, its nodes in order, signed by both nodes and both
      funding keys. */
  predicate Vouched(net: Net, m: Rumour, scid: Scid) {
    && m.Announcement? && m.scid == scid && m.chain == net.chain && m.node1 < m.node2
    && net.signedBy(m, m.node1) && net.signedBy(m, m.node2)
    && net.signedBy(m, m.bitcoin1) && net.signedBy(m, m.bitcoin2)
  }

  /** The first message that vouches for `scid`. */
  ghost predicate FirstVouched(net: Net, ms: seq<Rumour>, scid: Scid, i: nat) {
    && i < |ms| && Vouched(net, ms[i], scid)
    && forall j: nat | j < i :: !Vouched(net, ms[j], scid)
  }

  /** Whatever is heard, a channel is in the graph exactly when somebody vouched for it, and its
      ends and capacity are those first vouched for. */
  lemma {:induction false} ChannelsExactly(net: Net, ms: seq<Rumour>, scid: Scid)
    ensures scid in After(net, ms).channels <==> exists i: nat :: FirstVouched(net, ms, scid, i)
    ensures forall i: nat | FirstVouched(net, ms, scid, i) ::
              && scid in After(net, ms).channels
              && var chan := After(net, ms).channels[scid];
                 chan.node1 == ms[i].node1 && chan.node2 == ms[i].node2 && chan.capacitySat == ms[i].capacitySat
    decreases |ms|
  {
    if ms != [] {
      var n := |ms| - 1;
      ChannelsExactly(net, ms[..n], scid);
      ChannelMoves(net, After(net, ms[..n]), ms[n], scid);
      hide Apply, Vouched;
      forall i: nat ensures FirstVouched(net, ms, scid, i) <==>
                            FirstVouched(net, ms[..n], scid, i) ||
                            (i == n && Vouched(net, ms[n], scid) && forall j: nat | j < n :: !Vouched(net, ms[..n][j], scid))
      {
        if i < n { assert ms[..n][i] == ms[i]; }
      }
      NoneVouched(net, ms[..n], scid);
      if scid in After(net, ms[..n]).channels {
        var i: nat :| FirstVouched(net, ms[..n], scid, i);
        assert FirstVouched(net, ms, scid, i);
      } else if Vouched(net, ms[n], scid) {
        assert FirstVouched(net, ms, scid, n);
      }
    }
  }

  /** Nobody vouched, or somebody was the first. */
  lemma {:induction false} NoneVouched(net: Net, ms: seq<Rumour>, scid: Scid)
    ensures (exists i: nat :: FirstVouched(net, ms, scid, i)) || forall j: nat | j < |ms| :: !Vouched(net, ms[j], scid)
    decreases |ms|
  {
    hide Vouched;
    if ms != [] {
      var n := |ms| - 1;
      NoneVouched(net, ms[..n], scid);
      if exists i: nat :: FirstVouched(net, ms[..n], scid, i) {
        var i: nat :| FirstVouched(net, ms[..n], scid, i);
        assert FirstVouched(net, ms, scid, i);
      } else if Vouched(net, ms[n], scid) {
        assert FirstVouched(net, ms, scid, n);
      }
    }
  }

  /** One message adds the channel it vouches for, unless it is there, and moves no ends. */
  lemma ChannelMoves(net: Net, g: Graph, m: Rumour, scid: Scid)
    ensures var d := Apply(net, g, m);
            && (scid in d.channels <==> scid in g.channels || Vouched(net, m, scid))
            && (scid in g.channels ==>
                  && d.channels[scid].node1 == g.channels[scid].node1 && d.channels[scid].node2 == g.channels[scid].node2
                  && d.channels[scid].capacitySat == g.channels[scid].capacitySat)
            && (scid !in g.channels && Vouched(net, m, scid) ==>
                  d.channels[scid] == ChannelInfo(m.node1, m.node2, m.capacitySat, None, None))
  {
  }

  /** An update for this direction of a known channel, signed by the node it leaves from. */
  predicate Speaks(net: Net, g: Graph, m: Rumour, scid: Scid, fromNode1: bool) {
    && m.Update? && m.chain == net.chain && m.scid == scid && m.fromNode1 == fromNode1
    && scid in g.channels && net.signedBy(m, End(g.channels[scid], fromNode1))
  }

  ghost predicate Heard(net: Net, ms: seq<Rumour>, scid: Scid, fromNode1: bool, i: nat) {
    i < |ms| && Speaks(net, After(net, ms[..i]), ms[i], scid, fromNode1)
  }

  /** The stored policy of one direction is the newest its own end has signed. */
  ghost predicate Newest(net: Net, ms: seq<Rumour>, scid: Scid, fromNode1: bool, slot: Option<Policy>) {
    && (slot.Some? ==> exists i: nat :: Heard(net, ms, scid, fromNode1, i) && ms[i].policy == slot.value)
    && forall i: nat :: Heard(net, ms, scid, fromNode1, i) ==>
         slot.Some? && ms[i].policy.timestamp <= slot.value.timestamp
  }

  lemma HeardBefore(net: Net, ms: seq<Rumour>, scid: Scid, fromNode1: bool, i: nat)
    requires i + 1 < |ms|
    ensures Heard(net, ms, scid, fromNode1, i) <==> Heard(net, ms[..|ms| - 1], scid, fromNode1, i)
  {
    hide After;
    assert ms[..|ms| - 1][..i] == ms[..i];
  }

  /** One message moves one slot, and only a newer one of the right node. */
  lemma SlotMoves(net: Net, g: Graph, m: Rumour, scid: Scid, fromNode1: bool)
    requires scid in g.channels
    ensures scid in Apply(net, g, m).channels
    ensures var slot := Slot(g.channels[scid], fromNode1);
            Slot(Apply(net, g, m).channels[scid], fromNode1) ==
            if Speaks(net, g, m, scid, fromNode1) && (slot.Some? ==> slot.value.timestamp < m.policy.timestamp)
            then Some(m.policy) else slot
  {
    hide AllSigned;
  }

  /** Whatever was heard, in any order: each stored policy is the newest one that the node it
      leaves from has signed since the channel was announced, and there is one if any was. */
  lemma {:induction false} PoliciesAreNewest(net: Net, ms: seq<Rumour>, scid: Scid, fromNode1: bool)
    requires scid in After(net, ms).channels
    ensures Newest(net, ms, scid, fromNode1, Slot(After(net, ms).channels[scid], fromNode1))
    decreases |ms|
  {
    var n := |ms| - 1;
    var g := After(net, ms[..n]);
    if scid in g.channels {
      PoliciesAreNewest(net, ms[..n], scid, fromNode1);
      NewestSnoc(net, ms, scid, fromNode1);
    } else {
      forall i: nat ensures !Heard(net, ms, scid, fromNode1, i) {
        if i <= n { NotYetKnown(net, ms[..n], i, scid); assert ms[..n][..i] == ms[..i]; }
      }
      NewlyAnnounced(net, g, ms[n], scid, fromNode1);
    }
  }

  lemma NewlyAnnounced(net: Net, g: Graph, m: Rumour, scid: Scid, fromNode1: bool)
    requires scid !in g.channels && scid in Apply(net, g, m).channels
    ensures Slot(Apply(net, g, m).channels[scid], fromNode1) == None
  {
  }

  lemma {:induction false} NotYetKnown(net: Net, ms: seq<Rumour>, i: nat, scid: Scid)
    requires i <= |ms| && scid !in After(net, ms).channels
    ensures scid !in After(net, ms[..i]).channels
    decreases |ms|
  {
    if i < |ms| {
      var n := |ms| - 1;
      NotYetKnown(net, ms[..n], i, scid);
      assert ms[..n][..i] == ms[..i];
    } else {
      assert ms[..i] == ms;
    }
  }

  lemma HeardLast(net: Net, ms: seq<Rumour>, scid: Scid, fromNode1: bool)
    requires ms != []
    ensures var n := |ms| - 1;
            Heard(net, ms, scid, fromNode1, n) <==> Speaks(net, After(net, ms[..n]), ms[n], scid, fromNode1)
  {
    hide After, Speaks;
  }

  /** If the last message does not move the slot, what was newest still is. */
  lemma NewestKept(net: Net, ms: seq<Rumour>, scid: Scid, fromNode1: bool, slot: Option<Policy>)
    requires ms != [] && Newest(net, ms[..|ms| - 1], scid, fromNode1, slot)
    requires Heard(net, ms, scid, fromNode1, |ms| - 1) ==>
               slot.Some? && ms[|ms| - 1].policy.timestamp <= slot.value.timestamp
    ensures Newest(net, ms, scid, fromNode1, slot)
  {
    hide After, End;
    var n := |ms| - 1;
    if slot.Some? {
      var i: nat :| Heard(net, ms[..n], scid, fromNode1, i) && ms[..n][i].policy == slot.value;
      HeardBefore(net, ms, scid, fromNode1, i);
      assert Heard(net, ms, scid, fromNode1, i) && ms[i].policy == slot.value;
    }
    forall i: nat | Heard(net, ms, scid, fromNode1, i)
      ensures slot.Some? && ms[i].policy.timestamp <= slot.value.timestamp
    {
      if i < n {
        HeardBefore(net, ms, scid, fromNode1, i);
        assert ms[..n][i] == ms[i];
      }
    }
  }

  /** If the last message is newer, it is the newest. */
  lemma NewestReplaced(net: Net, ms: seq<Rumour>, scid: Scid, fromNode1: bool, slot: Option<Policy>)
    requires ms != [] && Newest(net, ms[..|ms| - 1], scid, fromNode1, slot)
    requires Heard(net, ms, scid, fromNode1, |ms| - 1) && ms[|ms| - 1].Update?
    requires slot.Some? ==> slot.value.timestamp < ms[|ms| - 1].policy.timestamp
    ensures Newest(net, ms, scid, fromNode1, Some(ms[|ms| - 1].policy))
  {
    hide After, End;
    var n := |ms| - 1;
    forall i: nat | Heard(net, ms, scid, fromNode1, i)
      ensures ms[i].policy.timestamp <= ms[n].policy.timestamp
    {
      if i < n {
        HeardBefore(net, ms, scid, fromNode1, i);
        assert ms[..n][i] == ms[i];
      }
    }
  }

  lemma NewestSnoc(net: Net, ms: seq<Rumour>, scid: Scid, fromNode1: bool)
    requires ms != [] && scid in After(net, ms[..|ms| - 1]).channels
    requires Newest(net, ms[..|ms| - 1], scid, fromNode1, Slot(After(net, ms[..|ms| - 1]).channels[scid], fromNode1))
    ensures scid in After(net, ms).channels
    ensures Newest(net, ms, scid, fromNode1, Slot(After(net, ms).channels[scid], fromNode1))
  {
    var n := |ms| - 1;
    var g := After(net, ms[..n]);
    SlotMoves(net, g, ms[n], scid, fromNode1);
    HeardLast(net, ms, scid, fromNode1);
    assert After(net, ms) == Apply(net, g, ms[n]);
    var slot := Slot(g.channels[scid], fromNode1);
    hide Apply, Slot, Newest, Heard;
    if Speaks(net, g, ms[n], scid, fromNode1) && (slot.Some? ==> slot.value.timestamp < ms[n].policy.timestamp) {
      NewestReplaced(net, ms, scid, fromNode1, slot);
    } else {
      NewestKept(net, ms, scid, fromNode1, slot);
    }
  }

  // ------------------------------------------------------------ whose policy it is

  /** `n` announced `p` as its policy for forwarding over `chan`. */
  predicate Announced(chan: ChannelInfo, n: Node, p: Policy) {
    (n == chan.node1 && chan.oneToTwo == Some(p)) || (n == chan.node2 && chan.twoToOne == Some(p))
  }

  /** An edge over an announced channel: enabled, with its capacity and the policy of the node it
      comes from, the other end of the channel. */
  predicate GossipedEdge(g: Graph, to: Node, e: Edge) {
    && e.scid in g.channels
    && var chan := g.channels[e.scid];
       && e.policy.enabled && e.capacitySat == chan.capacitySat && Announced(chan, e.from, e.policy)
       && (IsEnd(chan, to) ==> {chan.node1, chan.node2} == {to, e.from})
  }

  /** The terms of hop `i` of a hint. */
  function HintEdge(hop: HintHop): Edge {
    Edge(hop.scid, hop.src, Policy(0, true, hop.cltvDelta, 0, U64_MAX, hop.feeBase, hop.feePpm), None)
  }

  function HintTarget(path: seq<HintHop>, payee: Node, i: nat): Node {
    if i + 1 < |path| then path[i + 1].src else payee
  }

  ghost predicate HintedEdge(hints: seq<seq<HintHop>>, payee: Node, to: Node, e: Edge) {
    exists j: nat, i: nat :: HintAt(hints, payee, to, e, j, i)
  }

  predicate HintAt(hints: seq<seq<HintHop>>, payee: Node, to: Node, e: Edge, j: nat, i: nat) {
    j < |hints| && i < |hints[j]| && e == HintEdge(hints[j][i]) && HintTarget(hints[j], payee, i) == to
  }

  lemma {:induction false} EdgesOverMember(g: Graph, to: Node, scids: seq<Scid>, e: Edge)
    ensures e in EdgesOver(g, to, scids) <==> exists i | 0 <= i < |scids| :: EdgeOver(g, to, scids[i]) == Some(e)
    decreases |scids|
  {
    if scids != [] {
      hide EdgeOver;
      var n := |scids| - 1;
      EdgesOverMember(g, to, scids[..n], e);
      if i :| 0 <= i < |scids| && EdgeOver(g, to, scids[i]) == Some(e) {
        if i < n { assert EdgeOver(g, to, scids[..n][i]) == Some(e); }
      }
    }
  }

  /** In any graph at all, an edge carries the policy of the node it comes from. */
  lemma EdgesAreGossiped(g: Graph, to: Node, e: Edge)
    requires e in EdgesInto(g, to)
    ensures GossipedEdge(g, to, e)
  {
    hide EdgesOver;
    EdgesOverMember(g, to, g.nodes[to], e);
  }

  /** An announced channel joins `to` to the node the edge comes from, is enabled by that node, and
      is offered on that node's terms. */
  predicate AnnouncedInto(g: Graph, to: Node, e: Edge) {
    && e.scid in g.channels
    && var chan := g.channels[e.scid];
       && ((chan.node1 == to && chan.node2 == e.from && chan.twoToOne == Some(e.policy)) ||
           (chan.node2 == to && chan.node1 == e.from && chan.oneToTwo == Some(e.policy)))
       && e.policy.enabled && e.capacitySat == chan.capacitySat
  }

  /** In a graph built from gossip, exactly the edges of its announced channels. */
  lemma EdgesIntoExactly(g: Graph, to: Node, e: Edge)
    requires WellFormed(g)
    ensures e in EdgesInto(g, to) <==> AnnouncedInto(g, to, e)
  {
    hide EdgesOver;
    assert ListedAt(g, to, e.scid) <==> e.scid in g.channels && IsEnd(g.channels[e.scid], to);
    if to in g.nodes {
      EdgesOverMember(g, to, g.nodes[to], e);
      if e.scid in g.nodes[to] {
        var i :| 0 <= i < |g.nodes[to]| && g.nodes[to][i] == e.scid;
        assert EdgeOver(g, to, g.nodes[to][i]) == Some(e) <==> EdgeOver(g, to, e.scid) == Some(e);
      }
    }
  }

  lemma {:induction false} HintEdgesMember(path: seq<HintHop>, payee: Node, to: Node, k: nat, e: Edge)
    requires k <= |path|
    ensures e in HintEdges(path, payee, to, k) <==>
            exists i: nat | i < k :: e == HintEdge(path[i]) && HintTarget(path, payee, i) == to
    decreases k
  {
    if k > 0 {
      HintEdgesMember(path, payee, to, k - 1, e);
    }
  }

  lemma HintInLast(hints: seq<seq<HintHop>>, payee: Node, to: Node, e: Edge)
    requires hints != []
    ensures var n := |hints| - 1;
            HintedEdge(hints, payee, to, e) <==>
            HintedEdge(hints[..n], payee, to, e) || exists i: nat :: HintAt(hints, payee, to, e, n, i)
  {
    hide HintEdge, HintTarget;
    var n := |hints| - 1;
    if HintedEdge(hints[..n], payee, to, e) {
      var j: nat, i: nat :| HintAt(hints[..n], payee, to, e, j, i);
      assert HintAt(hints, payee, to, e, j, i);
    }
    if HintedEdge(hints, payee, to, e) {
      var j: nat, i: nat :| HintAt(hints, payee, to, e, j, i);
      if j < n { assert HintAt(hints[..n], payee, to, e, j, i); }
    }
  }

  /** Exactly the hint edges: each hop on its own terms, towards the next hop's node or the payee. */
  lemma {:induction false} HintsIntoExactly(hints: seq<seq<HintHop>>, payee: Node, to: Node, e: Edge)
    ensures e in HintsInto(hints, payee, to) <==> HintedEdge(hints, payee, to, e)
    decreases |hints|
  {
    if hints != [] {
      hide HintEdges, HintEdge, HintTarget, HintedEdge;
      var n := |hints| - 1;
      HintsIntoExactly(hints[..n], payee, to, e);
      HintEdgesMember(hints[n], payee, to, |hints[n]|, e);
      HintInLast(hints, payee, to, e);
      if i: nat :| i < |hints[n]| && e == HintEdge(hints[n][i]) && HintTarget(hints[n], payee, i) == to {
        assert HintAt(hints, payee, to, e, n, i);
      }
    }
  }
}
