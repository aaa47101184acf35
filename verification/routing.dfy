/** router.py's `calculate_routing_table`: a routing table rebuilt from the
    distances and predecessors of a shortest-path tree rooted at the router.
    `dijkstra_all`, which computes that tree, is not part of this model: the
    tree is an input, and every predecessor chain must end, which a rank that
    falls along every predecessor link witnesses. */
module RouteTable {
  import opened Wrappers
  import opened Graphs

  /** `(distances, predecessors)`. A node mapped to `None` in the source's
      predecessor dictionary is modelled as absent, since `get` cannot tell
      the two apart. */
  datatype Tree = Tree(dists: map<NodeId, Cost>, preds: map<NodeId, NodeId>)

  /** Following predecessors from any node strictly lowers the rank, so
      every chain ends. */
  ghost predicate Ranked(preds: map<NodeId, NodeId>, rank: map<NodeId, nat>) {
    forall v :: v in preds ==> v in rank && (preds[v] in preds ==> preds[v] in rank && rank[preds[v]] < rank[v])
  }

  /** The measure of a chain that starts at `v`. */
  ghost function Height(preds: map<NodeId, NodeId>, rank: map<NodeId, nat>, v: NodeId): nat
    requires Ranked(preds, rank)
  {
    if v in preds then rank[v] + 1 else 0
  }

  /** The inner loop of `calculate_routing_table`: walk the destination's
      predecessor chain until a node whose predecessor is `self`; `None`
      when the chain runs out first. */
  function FirstHop(preds: map<NodeId, NodeId>, self: NodeId, ghost rank: map<NodeId, nat>, v: NodeId): (h: Option<NodeId>)
    requires Ranked(preds, rank)
    ensures h.Some? ==> h.value in preds && preds[h.value] == self
    decreases Height(preds, rank, v)
  {
    if v !in preds then None
    else if preds[v] == self then Some(v)
    else FirstHop(preds, self, rank, preds[v])
  }

  /** The node `k` predecessor links above `v`, if the chain is that long. */
  function Ancestor(preds: map<NodeId, NodeId>, v: NodeId, k: nat): Option<NodeId>
    decreases k
  {
    if k == 0 then Some(v)
    else if v in preds then Ancestor(preds, preds[v], k - 1)
    else None
  }

  /** The chain from `v` passes `k` nodes whose predecessor is not `self`
      before reaching `h`, whose predecessor is `self`. */
  ghost predicate ReachesAt(preds: map<NodeId, NodeId>, self: NodeId, v: NodeId, k: nat, h: NodeId) {
    && Ancestor(preds, v, k) == Some(h)
    && h in preds && preds[h] == self
    && forall j :: 0 <= j < k ==> Passes(preds, self, Ancestor(preds, v, j))
  }

  /** A chain node the walk goes past. */
  predicate Passes(preds: map<NodeId, NodeId>, self: NodeId, a: Option<NodeId>) {
    a.Some? && a.value in preds && preds[a.value] != self
  }

  /** What the walk returns is the first node on the chain whose predecessor is `self`. */
  lemma {:induction false} FirstHopChain(preds: map<NodeId, NodeId>, self: NodeId, rank: map<NodeId, nat>, v: NodeId)
    returns (k: nat)
    requires Ranked(preds, rank) && FirstHop(preds, self, rank, v).Some?
    ensures ReachesAt(preds, self, v, k, FirstHop(preds, self, rank, v).value)
    decreases Height(preds, rank, v)
  {
    if preds[v] == self {
      k := 0;
    } else {
      var u := preds[v];
      var k' := FirstHopChain(preds, self, rank, u);
      k := k' + 1;
      forall j | 0 <= j < k
        ensures Passes(preds, self, Ancestor(preds, v, j))
      {
        if j > 0 {
          assert Ancestor(preds, v, j) == Ancestor(preds, u, j - 1);
        }
      }
    }
  }

  /** Conversely, a chain that reaches a node whose predecessor is `self`
      makes the walk return the first such node. */
  lemma {:induction false} ChainFirstHop(preds: map<NodeId, NodeId>, self: NodeId, rank: map<NodeId, nat>, v: NodeId, k: nat, h: NodeId)
    requires Ranked(preds, rank) && ReachesAt(preds, self, v, k, h)
    ensures FirstHop(preds, self, rank, v) == Some(h)
    decreases k
  {
    if k > 0 {
      assert Passes(preds, self, Ancestor(preds, v, 0));
      var u := preds[v];
      forall j | 0 <= j < k - 1
        ensures Passes(preds, self, Ancestor(preds, u, j))
      {
        assert Ancestor(preds, v, j + 1) == Ancestor(preds, u, j);
        assert Passes(preds, self, Ancestor(preds, v, j + 1));
      }
      ChainFirstHop(preds, self, rank, u, k - 1, h);
    }
  }

  /** Python truthiness of the walk's result: `None` and `""` are false. */
  predicate Truthy(h: Option<NodeId>) {
    h.Some? && h.value != ""
  }

  /** One row of the table: `{'next_hop': …, 'cost': …}`. */
  datatype Row = Row(nextHop: NodeId, cost: nat)

  /** `calculate_routing_table` in link-state mode, over the network graph `g`. */
  function RoutingTable(g: Graph, self: NodeId, t: Tree, ghost rank: map<NodeId, nat>): (table: map<NodeId, Row>)
    requires Ranked(t.preds, rank)
    ensures forall d :: d in table <==>
              && d in g && d != self
              && d in t.dists && t.dists[d].Fin?
              && Truthy(FirstHop(t.preds, self, rank, d))
    ensures forall d :: d in table ==>
              && table[d].cost == t.dists[d].value
              && table[d].nextHop != ""
              && table[d].nextHop in t.preds && t.preds[table[d].nextHop] == self
  {
    map d | d in g && d != self && d in t.dists && t.dists[d].Fin? && Truthy(FirstHop(t.preds, self, rank, d))
      :: Row(FirstHop(t.preds, self, rank, d).value, t.dists[d].value)
  }

  /** A row's next hop is the first node on the destination's chain whose
      predecessor is the router; the destination itself when it is adjacent. */
  lemma TableNextHop(g: Graph, self: NodeId, t: Tree, rank: map<NodeId, nat>, d: NodeId)
    requires Ranked(t.preds, rank) && d in RoutingTable(g, self, t, rank)
    ensures exists k :: ReachesAt(t.preds, self, d, k, RoutingTable(g, self, t, rank)[d].nextHop)
    ensures d in t.preds && t.preds[d] == self ==> RoutingTable(g, self, t, rank)[d].nextHop == d
  {
    var k := FirstHopChain(t.preds, self, rank, d);
  }

  /** A finite destination whose chain reaches the router through a non-empty
      name gets a row; one whose chain runs out gets none. */
  lemma TableRowExists(g: Graph, self: NodeId, t: Tree, rank: map<NodeId, nat>, d: NodeId, k: nat, h: NodeId)
    requires Ranked(t.preds, rank)
    requires d in g && d != self && d in t.dists && t.dists[d].Fin?
    requires ReachesAt(t.preds, self, d, k, h)
    ensures d in RoutingTable(g, self, t, rank) <==> h != ""
    ensures h != "" ==> RoutingTable(g, self, t, rank)[d] == Row(h, t.dists[d].value)
  {
    ChainFirstHop(t.preds, self, rank, d, k, h);
  }

  /** A destination whose chain never reaches a node whose predecessor is
      the router gets no row. */
  lemma TableNoChain(g: Graph, self: NodeId, t: Tree, rank: map<NodeId, nat>, d: NodeId)
    requires Ranked(t.preds, rank)
    requires forall k: nat, h :: !ReachesAt(t.preds, self, d, k, h)
    ensures d !in RoutingTable(g, self, t, rank)
  {
    if FirstHop(t.preds, self, rank, d).Some? {
      var k := FirstHopChain(t.preds, self, rank, d);
    }
  }
}
