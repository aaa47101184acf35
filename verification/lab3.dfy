/** The offline link-state simulator of lab3.py (`LinkStateRouter`): one router
    with a full copy of the topology, its own link-state database, a simulated
    flood of its advertisement, and paths and a routing table computed with the
    same Dijkstra as dijkstra.py. */
module LinkStateLab {
  import opened Wrappers
  import opened Graphs
  import opened LinkStateDb
  import opened ShortestPath

  /** `self.graph`, `self.router_id`, `self.link_state_db`, `self.seq_num`. */
  datatype Lab = Lab(graph: Graph, id: NodeId, db: Db, seqNum: nat)

  /** The router's own row of the topology exists; the constructor raises otherwise. */
  predicate Valid(r: Lab) {
    r.id in r.graph
  }

  /** The states the simulator can reach: the database holds only the
      router's own entry, current with its sequence number and neighbours. */
  predicate Current(r: Lab) {
    Valid(r) && r.db == map[r.id := Entry(r.seqNum, r.graph[r.id])]
  }

  /** `update_link_state`: refresh the router's own entry. */
  function UpdateLinkState(r: Lab): (r': Lab)
    requires Valid(r)
    ensures Valid(r') && r'.graph == r.graph && r'.id == r.id && r'.seqNum == r.seqNum
    ensures r'.db.Keys == r.db.Keys + {r.id}
    ensures r'.db[r.id] == Entry(r.seqNum, r.graph[r.id])
    ensures forall n :: n in r.db && n != r.id ==> r'.db[n] == r.db[n]
  {
    r.(db := r.db[r.id := Entry(r.seqNum, r.graph[r.id])])
  }

  /** `LinkStateRouter(graph, router_id)`: `KeyError` when the router has no
      row in the topology, otherwise a database with exactly one entry. */
  function Create(graph: Graph, id: NodeId): (r: Result<Lab, Fault>)
    ensures id !in graph <==> r == Failure(MissingNode(id))
    ensures r.Success? ==> Current(r.value) && r.value.graph == graph && r.value.id == id
    ensures r.Success? ==> r.value.seqNum == 0 && r.value.db.Keys == {id}
  {
    if id !in graph then Failure(MissingNode(id))
    else Success(UpdateLinkState(Lab(graph, id, map[], 0)))
  }

  // ---------------------------------------------------------------------------
  // flood_link_state

  /** The copies a node sends on: one to each listed neighbour except the one
      the advertisement came from (`None` for the router's own first sends,
      which skip nobody), each remembering the sender. */
  function Fanout(ns: seq<NodeId>, from: NodeId, incoming: Option<NodeId>): (out: seq<(NodeId, NodeId)>)
    ensures forall e :: e in out <==> e.1 == from && e.0 in ns && Some(e.0) != incoming
  {
    if ns == [] then []
    else (if Some(ns[0]) != incoming then [(ns[0], from)] else []) + Fanout(ns[1..], from, incoming)
  }

  /** Without repetitions, the neighbour that is skipped is skipped at most
      once, and nothing is skipped when it is not listed. */
  lemma {:induction false} FanoutSize(ns: seq<NodeId>, from: NodeId, incoming: Option<NodeId>)
    requires NoDup(ns)
    ensures |ns| - 1 <= |Fanout(ns, from, incoming)| <= |ns|
    ensures incoming.None? || incoming.value !in ns ==> |Fanout(ns, from, incoming)| == |ns|
  {
    if ns != [] {
      assert NoDup(ns[1..]);
      FanoutSize(ns[1..], from, incoming);
      if Some(ns[0]) == incoming {
        assert incoming.value !in ns[1..];
      }
    }
  }

  /** Sum of the neighbour counts of the nodes in `s`. */
  function Degrees(g: Graph, s: seq<NodeId>): nat
    requires forall v :: v in s ==> v in g
  {
    if s == [] then 0 else Degrees(g, s[..|s| - 1]) + |g[s[|s| - 1]]|
  }

  /** A queue entry `(node, incoming)` travels along an edge of the topology. */
  predicate Travels(g: Graph, e: (NodeId, NodeId)) {
    e.1 in g && e.0 in g[e.1]
  }

  /** The state of the flood after some pops: `order` lists the nodes processed so far. */
  ghost predicate FloodState(g: Graph, id: NodeId, queue: seq<(NodeId, NodeId)>, order: seq<NodeId>, packets: nat) {
    && id in g
    && NoDup(order) && (forall v :: v in order ==> v in g)
    && (forall e :: e in queue ==> Travels(g, e))
    && (forall n :: n in g[id] ==> n in order || exists e :: e in queue && e.0 == n)
    && |g[id]| <= packets <= |g[id]| + Degrees(g, order)
    && |g[id]| + Degrees(g, order) - |order| <= packets
  }

  /** Pop one entry: skip it when its node was already processed, otherwise
      process it with its neighbours listed as `ns`. */
  function Pop(queue: seq<(NodeId, NodeId)>, order: seq<NodeId>, packets: nat, ns: seq<NodeId>)
    : (seq<(NodeId, NodeId)>, seq<NodeId>, nat)
    requires queue != []
  {
    var e := queue[0];
    if e.0 in order then (queue[1..], order, packets)
    else
      var out := Fanout(ns, e.0, Some(e.1));
      (queue[1..] + out, order + [e.0], packets + |out|)
  }

  /** The nodes not processed yet: the first component of the flood's termination measure. */
  function Unvisited(g: Graph, order: seq<NodeId>): nat {
    |g.Keys - set x | x in order|
  }

  /** What `PopKeeps` asks of the listing `ns` of the popped node's neighbours. */
  ghost predicate Listed(g: Graph, queue: seq<(NodeId, NodeId)>, order: seq<NodeId>, ns: seq<NodeId>)
    requires queue != []
  {
    queue[0].0 !in order ==> queue[0].0 in g && NoDup(ns) && forall x :: x in ns <==> x in g[queue[0].0]
  }

  /** Every own neighbour stays processed or queued across a pop. */
  lemma PopCovers(g: Graph, id: NodeId, queue: seq<(NodeId, NodeId)>, order: seq<NodeId>, packets: nat, ns: seq<NodeId>)
    requires queue != [] && id in g
    requires forall n :: n in g[id] ==> n in order || exists e :: e in queue && e.0 == n
    ensures var (queue', order', _) := Pop(queue, order, packets, ns);
            forall n :: n in g[id] ==> n in order' || exists e :: e in queue' && e.0 == n
  {
    var (queue', order', _) := Pop(queue, order, packets, ns);
    forall n | n in g[id]
      ensures n in order' || exists e' :: e' in queue' && e'.0 == n
    {
      if n !in order && n != queue[0].0 {
        var e' :| e' in queue && e'.0 == n;
        var i :| 0 <= i < |queue| && queue[i] == e';
        assert queue[1..][i - 1] == e';
        assert e' in queue';
      }
    }
  }

  /** Every queued copy still travels along an edge after a pop. */
  lemma PopTravels(g: Graph, queue: seq<(NodeId, NodeId)>, order: seq<NodeId>, packets: nat, ns: seq<NodeId>)
    requires queue != [] && Listed(g, queue, order, ns)
    requires forall e :: e in queue ==> Travels(g, e)
    ensures forall e :: e in Pop(queue, order, packets, ns).0 ==> Travels(g, e)
  {
    var e := queue[0];
    forall e' | e' in Pop(queue, order, packets, ns).0
      ensures Travels(g, e')
    {
      if e' !in queue[1..] {
        assert e' in Fanout(ns, e.0, Some(e.1));
      }
    }
  }

  /** The packet bounds move with the processed nodes: a processed node adds
      between all and all but one of its neighbour count. */
  lemma PopCounts(g: Graph, id: NodeId, queue: seq<(NodeId, NodeId)>, order: seq<NodeId>, packets: nat, ns: seq<NodeId>)
    requires queue != [] && id in g && Listed(g, queue, order, ns)
    requires forall v :: v in order ==> v in g
    requires |g[id]| <= packets <= |g[id]| + Degrees(g, order)
    requires |g[id]| + Degrees(g, order) - |order| <= packets
    ensures var (_, order', packets') := Pop(queue, order, packets, ns);
            && (forall v :: v in order' ==> v in g)
            && |g[id]| <= packets' <= |g[id]| + Degrees(g, order')
            && |g[id]| + Degrees(g, order') - |order'| <= packets'
  {
    var e := queue[0];
    if e.0 !in order {
      var order' := order + [e.0];
      FanoutSize(ns, e.0, Some(e.1));
      assert order'[..|order|] == order;
      assert Degrees(g, order') == Degrees(g, order) + |g[e.0]|;
      SameKeys(ns, g[e.0].Keys);
    }
  }

  /** A pop either processes a new node or shortens the queue. */
  lemma PopProgress(g: Graph, queue: seq<(NodeId, NodeId)>, order: seq<NodeId>, packets: nat, ns: seq<NodeId>)
    requires queue != [] && Listed(g, queue, order, ns)
    ensures var (queue', order', _) := Pop(queue, order, packets, ns);
            || Unvisited(g, order') < Unvisited(g, order)
            || (Unvisited(g, order') == Unvisited(g, order) && |queue'| < |queue|)
  {
    if queue[0].0 !in order {
      Shrinks(g.Keys, order, queue[0].0);
    }
  }

  /** Popping keeps the flood state and makes progress. */
  lemma PopKeeps(g: Graph, id: NodeId, queue: seq<(NodeId, NodeId)>, order: seq<NodeId>, packets: nat, ns: seq<NodeId>)
    requires FloodState(g, id, queue, order, packets) && queue != [] && Listed(g, queue, order, ns)
    ensures var (queue', order', packets') := Pop(queue, order, packets, ns);
            && FloodState(g, id, queue', order', packets')
            && (|| Unvisited(g, order') < Unvisited(g, order)
                || (Unvisited(g, order') == Unvisited(g, order) && |queue'| < |queue|))
  {
    PopCovers(g, id, queue, order, packets, ns);
    PopTravels(g, queue, order, packets, ns);
    PopCounts(g, id, queue, order, packets, ns);
    PopProgress(g, queue, order, packets, ns);
    var e := queue[0];
    if e.0 !in order {
      assert NoDup(order + [e.0]);
    }
  }

  /** A repetition-free listing of a set has its size. */
  lemma {:induction false} SameKeys(ns: seq<NodeId>, s: set<NodeId>)
    requires NoDup(ns) && forall x :: x in ns <==> x in s
    ensures |ns| == |s|
  {
    if ns != [] {
      var h := ns[|ns| - 1];
      assert forall x :: x in ns[..|ns| - 1] <==> x in s - {h};
      SameKeys(ns[..|ns| - 1], s - {h});
    }
  }

  /** Processing a node not yet processed leaves fewer unprocessed nodes. */
  lemma Shrinks(all: set<NodeId>, order: seq<NodeId>, v: NodeId)
    requires v in all && v !in order
    ensures |all - set x | x in order + [v]| < |all - set x | x in order|
  {
    var before := all - set x | x in order;
    var after := all - set x | x in order + [v];
    assert after == before - {v};
  }

  /** The state right after the router's own sends: one copy per neighbour. */
  lemma FloodStart(g: Graph, id: NodeId, first: seq<NodeId>)
    requires id in g && NoDup(first) && forall x :: x in first <==> x in g[id]
    ensures FloodState(g, id, Fanout(first, id, None), [], |Fanout(first, id, None)|)
  {
    var queue := Fanout(first, id, None);
    FanoutSize(first, id, None);
    SameKeys(first, g[id].Keys);
    forall n | n in g[id]
      ensures exists e :: e in queue && e.0 == n
    {
      assert (n, id) in queue;
    }
  }

  /** `flood_link_state`: raise the sequence number, refresh the own entry,
      and flood the advertisement breadth-first, counting the packets. The
      state changes even when the flood then raises `KeyError` at a node with
      no row in the topology. `order` is the source's `visited` set in the
      order it was filled (keyed here by node alone, since the advertisement's
      source is always the router itself); every node is processed at most
      once. The database is not changed by the flood: the only advertisement
      travelling is the one just stored. */
  method FloodLinkState(r: Lab) returns (r': Lab, packets: Result<nat, Fault>, order: seq<NodeId>)
    requires Valid(r)
    ensures r' == UpdateLinkState(r.(seqNum := r.seqNum + 1))
    ensures Closed(r.graph) ==> packets.Success?
    ensures packets.Failure? ==> packets.error.id !in r.graph && exists u :: u in r.graph && packets.error.id in r.graph[u]
    ensures packets.Success? ==> NoDup(order) && forall v :: v in order ==> v in r.graph
    ensures packets.Success? ==> forall n :: n in r.graph[r.id] ==> n in order
    ensures packets.Success? ==> packets.value >= |r.graph[r.id]|
    ensures packets.Success? ==> |r.graph[r.id]| + Degrees(r.graph, order) - |order| <= packets.value
    ensures packets.Success? ==> packets.value <= |r.graph[r.id]| + Degrees(r.graph, order)
  {
    r' := UpdateLinkState(r.(seqNum := r.seqNum + 1));
    var g := r.graph;
    var first := Listing(g[r.id].Keys);
    FloodStart(g, r.id, first);
    var queue := Fanout(first, r.id, None);
    var count: nat := |queue|;
    order := [];
    while queue != []
      invariant FloodState(g, r.id, queue, order, count)
      decreases Unvisited(g, order), |queue|
    {
      var e := queue[0];
      var ns: seq<NodeId> := [];
      if e.0 !in order {
        if e.0 !in g {
          assert Travels(g, e);
          return r', Failure(MissingNode(e.0)), order;
        }
        // The database test of the loop body never fires: the advertisement's
        // sequence number is the one just stored for its source.
        assert !Accepts(r'.db, r.id, r'.seqNum);
        ns := Listing(g[e.0].Keys);
      }
      PopKeeps(g, r.id, queue, order, count, ns);
      ghost var measure := (Unvisited(g, order), |queue|);
      queue, order, count := Pop(queue, order, count, ns).0, Pop(queue, order, count, ns).1, Pop(queue, order, count, ns).2;
      assert Unvisited(g, order) < measure.0 || (Unvisited(g, order) == measure.0 && |queue| < measure.1);
    }
    return r', Success(count), order;
  }

  // ---------------------------------------------------------------------------
  // Paths and the routing table

  /** `build_network_graph` of a reachable state is the router's own row. */
  lemma CurrentGraph(r: Lab)
    requires Current(r)
    ensures NetworkGraph(r.db) == map[r.id := r.graph[r.id]]
  {
  }

  /** A flood keeps a reachable state reachable. */
  lemma FloodKeepsCurrent(r: Lab)
    requires Current(r)
    ensures Current(UpdateLinkState(r.(seqNum := r.seqNum + 1)))
  {
  }

  datatype PathError = KeyError(fault: Fault) | InvalidAlgorithm(name: string)

  /** `calculate_path(target, algorithm)` for the Dijkstra branch and the
      error branch; `_dijkstra` is the same text as dijkstra.py's `dijkstra`
      and is modelled by `ShortestPath.Dijkstra`. */
  method CalculatePath(r: Lab, target: NodeId, algorithm: string) returns (res: Result<(seq<NodeId>, Cost, string), PathError>)
    requires algorithm != "flooding"
    ensures algorithm != "dijkstra" <==> res == Failure(InvalidAlgorithm(algorithm))
    ensures res.Success? ==> res.value.2 == "dijkstra"
    ensures res.Success? ==> Sound(NetworkGraph(r.db), r.id, target, Route(res.value.0, res.value.1))
    ensures res.Success? && r.id in r.db && target in r.db ==>
              Optimal(NetworkGraph(r.db), r.id, target, res.value.1)
    ensures algorithm == "dijkstra" && Closed(NetworkGraph(r.db)) ==> res.Success?
    ensures algorithm == "dijkstra" && Current(r) ==>
              res == Success(if target == r.id then ([r.id], Fin(0), "dijkstra") else ([], Infinite, "dijkstra"))
  {
    var full := NetworkGraph(r.db);
    if algorithm == "dijkstra" {
      var route := Dijkstra(full, r.id, target);
      if route.Failure? {
        return Failure(KeyError(route.error));
      }
      return Success((route.value.path, route.value.cost, "dijkstra"));
    }
    return Failure(InvalidAlgorithm(algorithm));
  }

  /** One row of `get_routing_table`. */
  datatype Row = Row(nextHop: Option<NodeId>, cost: Cost, path: seq<NodeId>)

  /** The row for a computed route: the next hop is the path's second node. */
  function RowOf(route: Route): (row: Row)
    ensures row.path == route.path && row.cost == route.cost
    ensures row.nextHop.Some? <==> |route.path| > 1
    ensures row.nextHop.Some? ==> row.nextHop.value == route.path[1]
  {
    Row(if |route.path| > 1 then Some(route.path[1]) else None, route.cost, route.path)
  }

  /** The routing table the source promises: one row per other node of the
      database, holding a shortest route to it (empty and infinite when it is
      unreachable). */
  ghost predicate TableOk(r: Lab, table: map<NodeId, Row>) {
    && table.Keys == r.db.Keys - {r.id}
    && forall d :: d in table ==>
         && Sound(NetworkGraph(r.db), r.id, d, Route(table[d].path, table[d].cost))
         && Optimal(NetworkGraph(r.db), r.id, d, table[d].cost)
         && table[d].nextHop == (if |table[d].path| > 1 then Some(table[d].path[1]) else None)
  }

  /** `get_routing_table`: a Dijkstra run per destination. */
  method GetRoutingTable(r: Lab) returns (res: Result<map<NodeId, Row>, Fault>)
    ensures res.Success? && r.id in r.db ==> TableOk(r, res.value)
    ensures res.Success? ==> res.value.Keys == r.db.Keys - {r.id}
    ensures Closed(NetworkGraph(r.db)) ==> res.Success?
    ensures Current(r) ==> res == Success(map[])
  {
    var full := NetworkGraph(r.db);
    var dests := Listing(full.Keys);
    var table: map<NodeId, Row> := map[];
    var i := 0;
    while i < |dests|
      invariant 0 <= i <= |dests|
      invariant table.Keys == (set d | d in dests[..i]) - {r.id}
      invariant r.id in r.db ==> forall d :: d in table ==>
                  && Sound(full, r.id, d, Route(table[d].path, table[d].cost))
                  && Optimal(full, r.id, d, table[d].cost)
                  && table[d].nextHop == (if |table[d].path| > 1 then Some(table[d].path[1]) else None)
    {
      var d := dests[i];
      assert dests[..i + 1] == dests[..i] + [d];
      if d != r.id {
        var route := Dijkstra(full, r.id, d);
        if route.Failure? {
          return Failure(route.error);
        }
        table := table[d := RowOf(route.value)];
      }
      i := i + 1;
    }
    assert dests[..i] == dests;
    return Success(table);
  }
}
