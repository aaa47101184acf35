/** Single-pair shortest path by Dijkstra's algorithm with a lazy-deletion
    priority queue, early exit on the target and predecessor reconstruction
    (dijkstra.py `dijkstra`; lab3.py `_dijkstra` is the same text). */
module ShortestPath {
  import opened Wrappers
  import opened Graphs

  /** `(path, cost)` as returned by the source; an empty path goes with `Infinite`. */
  datatype Route = Route(path: seq<NodeId>, cost: Cost)

  /** A priority-queue entry `(distance, node)`. */
  type Entry = (nat, NodeId)

  /** No entry of `q` is below `n`. */
  predicate Low(q: set<Entry>, n: nat) {
    forall f :: f in q ==> n <= f.0
  }

  /** `e` is an entry of least distance: what `heappop` returns, up to ties. */
  predicate IsMin(q: set<Entry>, e: Entry) {
    e in q && Low(q, e.0)
  }

  /** `cost` is no greater than the weight of any walk from `start` to `target`
      (and is finite whenever such a walk exists). */
  ghost predicate Optimal(g: Graph, start: NodeId, target: NodeId, cost: Cost) {
    forall p :: IsWalk(g, p) && p[0] == start && Last(p) == target ==>
      cost.Fin? && cost.value <= Weight(g, p)
  }

  /** What a returned route promises: either nothing, or a duplicate-free walk
      from `start` to `target` whose weight is the reported cost. */
  ghost predicate Sound(g: Graph, start: NodeId, target: NodeId, r: Route) {
    && (r.path == [] <==> r.cost == Infinite)
    && (r.path != [] ==>
          && r.path[0] == start && Last(r.path) == target
          && IsWalk(g, r.path) && NoDup(r.path)
          && r.cost == Fin(Weight(g, r.path)))
  }

  // ---------------------------------------------------------------------------
  // One relaxation round: the source's `for neighbor, weight in graph[u].items()`
  // touches every neighbour once and the updates of distinct neighbours are
  // independent, so the round is one simultaneous update.

  function Improves(g: Graph, dist: map<NodeId, Cost>, u: NodeId, d: nat, x: NodeId): bool
    requires u in g
  {
    x in g[u] && x in dist && Fin(d + g[u][x]).Below(dist[x])
  }

  function RelaxDist(g: Graph, dist: map<NodeId, Cost>, u: NodeId, d: nat): (r: map<NodeId, Cost>)
    requires u in g
    ensures r.Keys == dist.Keys
  {
    map v | v in dist :: if Improves(g, dist, u, d, v) then Fin(d + g[u][v]) else dist[v]
  }

  function RelaxPrev(g: Graph, dist: map<NodeId, Cost>, prev: map<NodeId, Option<NodeId>>, u: NodeId, d: nat)
    : (r: map<NodeId, Option<NodeId>>)
    requires u in g
    ensures r.Keys == prev.Keys
  {
    map v | v in prev :: if Improves(g, dist, u, d, v) then Some(u) else prev[v]
  }

  function Pushed(g: Graph, dist: map<NodeId, Cost>, u: NodeId, d: nat): set<Entry>
    requires u in g
  {
    set x | x in g[u] && Improves(g, dist, u, d, x) :: (d + g[u][x], x)
  }

  // ---------------------------------------------------------------------------
  // Loop invariant of the main loop. `done` holds the nodes popped with a
  // current (non-stale) entry and relaxed; `order` numbers them in the order
  // they were settled. Each conjunct is a predicate of its own so that a proof
  // step can ask for just the facts it uses.

  ghost predicate Shape(g: Graph, start: NodeId, target: NodeId,
                        dist: map<NodeId, Cost>, prev: map<NodeId, Option<NodeId>>,
                        done: set<NodeId>, order: map<NodeId, nat>)
  {
    && start in g && target in g
    && dist.Keys == g.Keys && prev.Keys == g.Keys
    && done <= g.Keys && order.Keys == done && target !in done
    && dist[start] == Fin(0) && prev[start] == None
    && (forall v :: v in done ==> dist[v].Fin? && order[v] < |done|)
  }

  /** Queued entries are current or stale, never below the node's distance. */
  ghost predicate Above(g: Graph, dist: map<NodeId, Cost>, q: set<Entry>)
    requires dist.Keys == g.Keys
  {
    forall d, v :: (d, v) in q ==> v in g && dist[v].Fin? && dist[v].value <= d
  }

  /** A settled node's queued entries are all stale, and no queued entry is
      below a settled distance. */
  ghost predicate SettledFirst(g: Graph, dist: map<NodeId, Cost>, q: set<Entry>, done: set<NodeId>)
    requires dist.Keys == g.Keys && done <= g.Keys && forall v :: v in done ==> dist[v].Fin?
  {
    && (forall d, v :: (d, v) in q && v in done ==> dist[v].value < d)
    && (forall v, d, w :: v in done && (d, w) in q ==> dist[v].value <= d)
  }

  /** An unsettled node with a finite distance has its current entry queued. */
  ghost predicate Queued(g: Graph, dist: map<NodeId, Cost>, q: set<Entry>, done: set<NodeId>)
    requires dist.Keys == g.Keys
  {
    forall v :: v in g && v !in done && dist[v].Fin? ==> (dist[v].value, v) in q
  }

  /** Every out-edge of a settled node is relaxed. */
  ghost predicate Relaxed(g: Graph, dist: map<NodeId, Cost>, done: set<NodeId>)
    requires dist.Keys == g.Keys && done <= g.Keys && forall v :: v in done ==> dist[v].Fin?
  {
    forall u, x :: u in done && x in g[u] ==>
      x in g && dist[x].Fin? && dist[x].value <= dist[u].value + g[u][x]
  }

  /** Predecessor links lead to nodes settled earlier, along an edge that
      accounts exactly for the distance ... */
  ghost predicate Links(g: Graph, dist: map<NodeId, Cost>, prev: map<NodeId, Option<NodeId>>,
                        done: set<NodeId>, order: map<NodeId, nat>)
    requires dist.Keys == g.Keys && prev.Keys == g.Keys && order.Keys == done
  {
    forall v {:trigger prev[v]} :: v in g && prev[v].Some? ==> PrevOk(g, dist, done, order, v, prev[v].value)
  }

  /** ... and every node with a finite distance but the start has one. */
  ghost predicate Spans(g: Graph, start: NodeId, dist: map<NodeId, Cost>, prev: map<NodeId, Option<NodeId>>)
    requires dist.Keys == g.Keys && prev.Keys == g.Keys
  {
    forall v {:trigger prev[v]} :: v in g && v != start && dist[v].Fin? ==> prev[v].Some?
  }

  ghost predicate Tree(g: Graph, start: NodeId, dist: map<NodeId, Cost>, prev: map<NodeId, Option<NodeId>>,
                       done: set<NodeId>, order: map<NodeId, nat>)
    requires dist.Keys == g.Keys && prev.Keys == g.Keys && order.Keys == done
  {
    Links(g, dist, prev, done, order) && Spans(g, start, dist, prev)
  }

  ghost predicate PrevOk(g: Graph, dist: map<NodeId, Cost>, done: set<NodeId>, order: map<NodeId, nat>,
                         v: NodeId, u: NodeId)
    requires dist.Keys == g.Keys && order.Keys == done && v in g
  {
    && u in done && u in g && v in g[u] && dist[u].Fin?
    && dist[v] == Fin(dist[u].value + g[u][v])
    && (v in done ==> order[u] < order[v])
  }

  ghost predicate Inv(g: Graph, start: NodeId, target: NodeId,
                      dist: map<NodeId, Cost>, prev: map<NodeId, Option<NodeId>>,
                      q: set<Entry>, done: set<NodeId>, order: map<NodeId, nat>)
  {
    && Shape(g, start, target, dist, prev, done, order)
    && Above(g, dist, q)
    && SettledFirst(g, dist, q, done)
    && Queued(g, dist, q, done)
    && Relaxed(g, dist, done)
    && Tree(g, start, dist, prev, done, order)
  }

  /** Position of a node in the settling order; unsettled nodes rank last. */
  ghost function Rank(order: map<NodeId, nat>, done: set<NodeId>, v: NodeId): nat {
    if v in order then order[v] else |done|
  }

  lemma {:induction false} MinExists(q: set<Entry>)
    requires q != {}
    ensures exists e :: IsMin(q, e)
  {
    var x :| x in q;
    if q != {x} {
      MinExists(q - {x});
      var m :| IsMin(q - {x}, m);
      if x.0 <= m.0 {
        assert IsMin(q, x);
      } else {
        assert IsMin(q, m);
      }
    } else {
      assert IsMin(q, x);
    }
  }

  /** The frontier argument: a walk from a node whose distance is at most `c`
      to an unsettled node passes an unsettled node whose current entry is
      queued at most `c` plus the walk's weight. */
  lemma {:induction false} Frontier(g: Graph, dist: map<NodeId, Cost>, q: set<Entry>, done: set<NodeId>,
                                    p: seq<NodeId>, c: nat)
    requires dist.Keys == g.Keys && done <= g.Keys && forall v :: v in done ==> dist[v].Fin?
    requires Queued(g, dist, q, done) && Relaxed(g, dist, done)
    requires IsWalk(g, p) && Last(p) !in done
    requires p[0] in g && dist[p[0]].Fin? && dist[p[0]].value <= c
    ensures exists d, v :: (d, v) in q && d <= c + Weight(g, p)
  {
    if p[0] !in done {
      assert (dist[p[0]].value, p[0]) in q;
    } else {
      var w := g[p[0]][p[1]];
      assert p[1] in g[p[0]];
      Frontier(g, dist, q, done, p[1..], c + w);
    }
  }

  /** When the popped minimum is the target, its distance is optimal. */
  lemma TargetPopped(g: Graph, start: NodeId, target: NodeId,
                     dist: map<NodeId, Cost>, q: set<Entry>, done: set<NodeId>, d: nat)
    requires dist.Keys == g.Keys && done <= g.Keys && forall v :: v in done ==> dist[v].Fin?
    requires start in g && target in g && dist[start] == Fin(0) && target !in done
    requires Above(g, dist, q) && Queued(g, dist, q, done) && Relaxed(g, dist, done)
    requires IsMin(q, (d, target))
    ensures Optimal(g, start, target, dist[target])
  {
    assert dist[target].Fin? && dist[target].value <= d;
    forall p | IsWalk(g, p) && p[0] == start && Last(p) == target
      ensures dist[target].value <= Weight(g, p)
    {
      Frontier(g, dist, q, done, p, 0);
    }
  }

  /** With nothing queued, the target is unreachable. */
  lemma EmptyQueue(g: Graph, start: NodeId, target: NodeId, dist: map<NodeId, Cost>, done: set<NodeId>)
    requires dist.Keys == g.Keys && done <= g.Keys && forall v :: v in done ==> dist[v].Fin?
    requires start in g && target in g && dist[start] == Fin(0) && target !in done
    requires Queued(g, dist, {}, done) && Relaxed(g, dist, done)
    ensures Optimal(g, start, target, dist[target])
  {
    forall p | IsWalk(g, p) && p[0] == start && Last(p) == target
      ensures false
    {
      Frontier(g, dist, {}, done, p, 0);
    }
  }

  /** A queued entry is never below its node's distance. */
  lemma Current(g: Graph, dist: map<NodeId, Cost>, q: set<Entry>, d: nat, u: NodeId)
    requires dist.Keys == g.Keys && Above(g, dist, q) && (d, u) in q
    ensures u in g && dist[u].Fin? && dist[u].value <= d
  {
  }

  /** Popping a stale entry and discarding it keeps the invariant. */
  lemma StaleStep(g: Graph, start: NodeId, target: NodeId,
                  dist: map<NodeId, Cost>, prev: map<NodeId, Option<NodeId>>,
                  q: set<Entry>, done: set<NodeId>, order: map<NodeId, nat>, d: nat, u: NodeId)
    requires Inv(g, start, target, dist, prev, q, done, order)
    requires (d, u) in q && dist[u].value < d
    ensures Inv(g, start, target, dist, prev, q - {(d, u)}, done, order)
  {
  }

  /** Relaxing `u` at distance `d` leaves every settled node, `u` and the start alone. */
  ghost predicate Kept(g: Graph, start: NodeId, dist: map<NodeId, Cost>, done: set<NodeId>, d: nat, u: NodeId)
    requires u in g
  {
    && u !in done && !Improves(g, dist, u, d, start)
    && forall v :: v in done + {u} ==> !Improves(g, dist, u, d, v)
  }

  /** A settled node, or the node being settled, is never improved. */
  lemma SettledKept(g: Graph, start: NodeId, dist: map<NodeId, Cost>, q: set<Entry>, done: set<NodeId>, d: nat, u: NodeId)
    requires dist.Keys == g.Keys && done <= g.Keys && forall v :: v in done ==> dist[v].Fin?
    requires start in g && dist[start] == Fin(0)
    requires SettledFirst(g, dist, q, done)
    requires IsMin(q, (d, u)) && u in g && dist[u] == Fin(d)
    ensures Kept(g, start, dist, done, d, u)
  {
    forall v | v in done
      ensures !Improves(g, dist, u, d, v)
    {
      assert dist[v].value <= d;
    }
  }

  lemma SettleShape(g: Graph, start: NodeId, target: NodeId,
                    dist: map<NodeId, Cost>, prev: map<NodeId, Option<NodeId>>,
                    done: set<NodeId>, order: map<NodeId, nat>, d: nat, u: NodeId)
    requires Shape(g, start, target, dist, prev, done, order) && u in g && u != target && dist[u] == Fin(d)
    requires Kept(g, start, dist, done, d, u)
    ensures Shape(g, start, target, RelaxDist(g, dist, u, d), RelaxPrev(g, dist, prev, u, d),
                  done + {u}, order[u := |done|])
  {
    assert |done + {u}| == |done| + 1;
  }

  /** The entries queued when settling `u` are exactly the improved neighbours. */
  lemma PushedEntries(g: Graph, dist: map<NodeId, Cost>, d: nat, u: NodeId)
    requires dist.Keys == g.Keys && u in g
    ensures forall d', x :: (d', x) in Pushed(g, dist, u, d) <==> Improves(g, dist, u, d, x) && d' == d + g[u][x]
  {
  }

  lemma SettleAbove(g: Graph, dist: map<NodeId, Cost>, q: set<Entry>, done: set<NodeId>, d: nat, u: NodeId)
    requires dist.Keys == g.Keys && Above(g, dist, q) && u in g && dist[u] == Fin(d)
    requires forall v :: v in done + {u} ==> !Improves(g, dist, u, d, v)
    ensures Above(g, RelaxDist(g, dist, u, d), (q - {(d, u)}) + Pushed(g, dist, u, d))
  {
    PushedEntries(g, dist, d, u);
  }

  lemma SettleFirst(g: Graph, dist: map<NodeId, Cost>, q: set<Entry>, done: set<NodeId>, d: nat, u: NodeId)
    requires dist.Keys == g.Keys && done <= g.Keys && forall v :: v in done ==> dist[v].Fin?
    requires Above(g, dist, q) && SettledFirst(g, dist, q, done)
    requires IsMin(q, (d, u)) && u in g && dist[u] == Fin(d)
    requires forall v :: v in done + {u} ==> !Improves(g, dist, u, d, v)
    ensures SettledFirst(g, RelaxDist(g, dist, u, d), (q - {(d, u)}) + Pushed(g, dist, u, d), done + {u})
  {
    PushedEntries(g, dist, d, u);
    assert forall d', x :: (d', x) in (q - {(d, u)}) + Pushed(g, dist, u, d) ==> d <= d';
  }

  lemma SettleQueued(g: Graph, dist: map<NodeId, Cost>, q: set<Entry>, done: set<NodeId>, d: nat, u: NodeId)
    requires dist.Keys == g.Keys && Queued(g, dist, q, done) && u in g
    ensures Queued(g, RelaxDist(g, dist, u, d), (q - {(d, u)}) + Pushed(g, dist, u, d), done + {u})
  {
    var dist' := RelaxDist(g, dist, u, d);
    var pushed := Pushed(g, dist, u, d);
    forall v | v in g && v !in done + {u} && dist'[v].Fin?
      ensures (dist'[v].value, v) in (q - {(d, u)}) + pushed
    {
      if Improves(g, dist, u, d, v) {
        assert (d + g[u][v], v) in pushed;
      } else {
        assert (dist[v].value, v) in q;
      }
    }
  }

  lemma SettleRelaxed(g: Graph, dist: map<NodeId, Cost>, done: set<NodeId>, d: nat, u: NodeId)
    requires dist.Keys == g.Keys && done <= g.Keys && forall v :: v in done ==> dist[v].Fin?
    requires Relaxed(g, dist, done)
    requires u in g && dist[u] == Fin(d) && forall x :: x in g[u] ==> x in g
    requires forall v :: v in done + {u} ==> !Improves(g, dist, u, d, v)
    ensures Relaxed(g, RelaxDist(g, dist, u, d), done + {u})
  {
    var dist' := RelaxDist(g, dist, u, d);
    assert forall v :: v in g ==> dist'[v] == dist[v] || dist'[v].Below(dist[v]);
  }

  /** One predecessor link after relaxing `u`. */
  lemma PrevKept(g: Graph, dist: map<NodeId, Cost>, prev: map<NodeId, Option<NodeId>>,
                 done: set<NodeId>, order: map<NodeId, nat>, d: nat, u: NodeId, v: NodeId)
    requires dist.Keys == g.Keys && prev.Keys == g.Keys && order.Keys == done && done <= g.Keys
    requires u in g && u !in done && dist[u] == Fin(d) && v in g
    requires !Improves(g, dist, u, d, u) && (v in done ==> !Improves(g, dist, u, d, v))
    requires prev[v].Some? ==>
               && PrevOk(g, dist, done, order, v, prev[v].value)
               && !Improves(g, dist, u, d, prev[v].value) && order[prev[v].value] < |done|
    requires RelaxPrev(g, dist, prev, u, d)[v].Some?
    ensures PrevOk(g, RelaxDist(g, dist, u, d), done + {u}, order[u := |done|], v, RelaxPrev(g, dist, prev, u, d)[v].value)
  {
  }

  lemma SettleLinks(g: Graph, dist: map<NodeId, Cost>, prev: map<NodeId, Option<NodeId>>,
                    done: set<NodeId>, order: map<NodeId, nat>, d: nat, u: NodeId)
    requires dist.Keys == g.Keys && prev.Keys == g.Keys && order.Keys == done && done <= g.Keys
    requires Links(g, dist, prev, done, order)
    requires forall v :: v in done ==> dist[v].Fin? && order[v] < |done|
    requires u in g && u !in done && dist[u] == Fin(d) && !Improves(g, dist, u, d, u)
    requires forall v :: v in done ==> !Improves(g, dist, u, d, v)
    ensures Links(g, RelaxDist(g, dist, u, d), RelaxPrev(g, dist, prev, u, d), done + {u}, order[u := |done|])
  {
    var dist', prev' := RelaxDist(g, dist, u, d), RelaxPrev(g, dist, prev, u, d);
    forall v | v in g && prev'[v].Some?
      ensures PrevOk(g, dist', done + {u}, order[u := |done|], v, prev'[v].value)
    {
      if prev[v].Some? {
        assert PrevOk(g, dist, done, order, v, prev[v].value);
      }
      PrevKept(g, dist, prev, done, order, d, u, v);
    }
  }

  lemma SettleSpans(g: Graph, start: NodeId, dist: map<NodeId, Cost>, prev: map<NodeId, Option<NodeId>>,
                    d: nat, u: NodeId)
    requires dist.Keys == g.Keys && prev.Keys == g.Keys
    requires Spans(g, start, dist, prev) && u in g && !Improves(g, dist, u, d, start)
    ensures Spans(g, start, RelaxDist(g, dist, u, d), RelaxPrev(g, dist, prev, u, d))
  {
    var dist', prev' := RelaxDist(g, dist, u, d), RelaxPrev(g, dist, prev, u, d);
    forall v | v in g && v != start && dist'[v].Fin?
      ensures prev'[v].Some?
    {
      if !Improves(g, dist, u, d, v) {
        assert prev'[v] == prev[v] && dist'[v] == dist[v];
      }
    }
  }

  /** Settling the popped minimum `u` and relaxing its out-edges keeps the invariant. */
  lemma SettleStep(g: Graph, start: NodeId, target: NodeId,
                   dist: map<NodeId, Cost>, prev: map<NodeId, Option<NodeId>>,
                   q: set<Entry>, done: set<NodeId>, order: map<NodeId, nat>, d: nat, u: NodeId)
    requires Inv(g, start, target, dist, prev, q, done, order)
    requires IsMin(q, (d, u)) && u != target && dist[u] == Fin(d)
    requires forall x :: x in g[u] ==> x in g
    ensures u !in done
    ensures Inv(g, start, target, RelaxDist(g, dist, u, d), RelaxPrev(g, dist, prev, u, d),
                (q - {(d, u)}) + Pushed(g, dist, u, d), done + {u}, order[u := |done|])
  {
    SettledKept(g, start, dist, q, done, d, u);
    SettleShape(g, start, target, dist, prev, done, order, d, u);
    SettleAbove(g, dist, q, done, d, u);
    SettleFirst(g, dist, q, done, d, u);
    SettleQueued(g, dist, q, done, d, u);
    SettleRelaxed(g, dist, done, d, u);
    SettleLinks(g, dist, prev, done, order, d, u);
    SettleSpans(g, start, dist, prev, d, u);
  }

  lemma Shrinks(all: set<NodeId>, done: set<NodeId>, u: NodeId)
    requires u in all && u !in done
    ensures |all - (done + {u})| < |all - done|
  {
    assert all - (done + {u}) == (all - done) - {u};
  }

  /** The state the search loop leaves behind: a predecessor tree whose target
      distance is optimal. */
  ghost predicate Searched(g: Graph, start: NodeId, target: NodeId,
                           dist: map<NodeId, Cost>, prev: map<NodeId, Option<NodeId>>,
                           done: set<NodeId>, order: map<NodeId, nat>)
  {
    && Shape(g, start, target, dist, prev, done, order)
    && Tree(g, start, dist, prev, done, order)
    && Optimal(g, start, target, dist[target])
  }

  /** Distances before the search: zero at the start, unknown elsewhere. */
  function InitDist(g: Graph, start: NodeId): (dist: map<NodeId, Cost>)
    ensures dist.Keys == g.Keys
  {
    map v | v in g :: if v == start then Fin(0) else Infinite
  }

  function InitPrev(g: Graph): (prev: map<NodeId, Option<NodeId>>)
    ensures prev.Keys == g.Keys
  {
    map v | v in g :: None
  }

  lemma InitInv(g: Graph, start: NodeId, target: NodeId)
    requires start in g && target in g
    ensures Inv(g, start, target, InitDist(g, start), InitPrev(g), {(0, start)}, {}, map[])
  {
  }

  /** Pop an entry of least distance. */
  method Pop(q: set<Entry>) returns (d: nat, u: NodeId)
    requires q != {}
    ensures IsMin(q, (d, u))
  {
    MinExists(q);
    var e :| IsMin(q, e);
    d, u := e.0, e.1;
  }

  /** A neighbour of `u` that is not a node of the graph, if there is one. */
  method FindMissing(g: Graph, u: NodeId) returns (r: Option<NodeId>)
    requires u in g
    ensures r.Some? ==> r.value in g[u] && r.value !in g
    ensures r.None? ==> forall x :: x in g[u] ==> x in g
  {
    if x :| x in g[u] && x !in g {
      return Some(x);
    }
    return None;
  }

  /** The maps and queue after popping `(d, u)`: a stale entry is dropped;
      a current one settles `u` and relaxes its out-edges. */
  function After(g: Graph, dist: map<NodeId, Cost>, prev: map<NodeId, Option<NodeId>>, q: set<Entry>,
                 d: nat, u: NodeId): (r: (map<NodeId, Cost>, map<NodeId, Option<NodeId>>, set<Entry>))
    requires u in g && u in dist && dist[u].Fin?
    ensures r.0.Keys == dist.Keys && r.1.Keys == prev.Keys
  {
    if d > dist[u].value then (dist, prev, q - {(d, u)})
    else (RelaxDist(g, dist, u, d), RelaxPrev(g, dist, prev, u, d), (q - {(d, u)}) + Pushed(g, dist, u, d))
  }

  /** The settled set and settling order after popping `(d, u)`. */
  ghost function AfterDone(dist: map<NodeId, Cost>, done: set<NodeId>, order: map<NodeId, nat>, d: nat, u: NodeId)
    : (set<NodeId>, map<NodeId, nat>)
    requires u in dist && dist[u].Fin?
  {
    if d > dist[u].value then (done, order) else (done + {u}, order[u := |done|])
  }

  /** One pop that is neither the target nor a failure keeps the invariant and
      makes progress: one more node settled, or one entry fewer. */
  lemma AfterInv(g: Graph, start: NodeId, target: NodeId,
                 dist: map<NodeId, Cost>, prev: map<NodeId, Option<NodeId>>,
                 q: set<Entry>, done: set<NodeId>, order: map<NodeId, nat>, d: nat, u: NodeId)
    requires Inv(g, start, target, dist, prev, q, done, order)
    requires IsMin(q, (d, u)) && u != target && u in g && dist[u].Fin? && dist[u].value <= d
    requires d == dist[u].value ==> forall x :: x in g[u] ==> x in g
    ensures var (dist', prev', q') := After(g, dist, prev, q, d, u);
            var (done', order') := AfterDone(dist, done, order, d, u);
            && Inv(g, start, target, dist', prev', q', done', order')
            && (|g.Keys - done'| < |g.Keys - done| || (done' == done && |q'| < |q|))
  {
    if d > dist[u].value {
      StaleStep(g, start, target, dist, prev, q, done, order, d, u);
      assert |q - {(d, u)}| < |q|;
    } else {
      SettleStep(g, start, target, dist, prev, q, done, order, d, u);
      Shrinks(g.Keys, done, u);
    }
  }

  /** The relaxation loop of the source: pop a least entry, then stop at the
      target, skip a stale entry, fail on a neighbour that is not a node of the
      graph, or settle the popped node. */
  method Search(g: Graph, start: NodeId, target: NodeId)
    returns (r: Result<(map<NodeId, Cost>, map<NodeId, Option<NodeId>>), Fault>,
             ghost done: set<NodeId>, ghost order: map<NodeId, nat>)
    requires start in g && target in g
    ensures r.Success? ==> Searched(g, start, target, r.value.0, r.value.1, done, order)
    ensures Closed(g) || start == target ==> r.Success?
    ensures r.Failure? ==> r.error.id !in g && exists u :: u in g && r.error.id in g[u]
  {
    var dist, prev := InitDist(g, start), InitPrev(g);
    var q: set<Entry> := {(0, start)};
    done, order := {}, map[];
    InitInv(g, start, target);
    while q != {}
      invariant Inv(g, start, target, dist, prev, q, done, order)
      invariant start == target ==> q == {(0, start)}
      decreases |g.Keys - done|, |q|
    {
      var d, u := Pop(q);
      Current(g, dist, q, d, u);
      if u == target {
        TargetPopped(g, start, target, dist, q, done, d);
        return Success((dist, prev)), done, order;
      }
      assert start != target;
      if d == dist[u].value {
        var missing := FindMissing(g, u);
        if missing.Some? {
          return Failure(MissingNode(missing.value)), done, order;
        }
      }
      AfterInv(g, start, target, dist, prev, q, done, order, d, u);
      done, order := AfterDone(dist, done, order, d, u).0, AfterDone(dist, done, order, d, u).1;
      dist, prev, q := After(g, dist, prev, q, d, u).0, After(g, dist, prev, q, d, u).1, After(g, dist, prev, q, d, u).2;
    }
    EmptyQueue(g, start, target, dist, done);
    return Success((dist, prev)), done, order;
  }

  /** The state of the reconstruction loop: `path` is a walk to the target
      whose first node's predecessor is `node`, and ranks strictly increase
      along `path` (so it has no repeated node and the loop terminates). */
  ghost predicate Chain(g: Graph, target: NodeId, dist: map<NodeId, Cost>, prev: map<NodeId, Option<NodeId>>,
                        done: set<NodeId>, order: map<NodeId, nat>, path: seq<NodeId>, node: Option<NodeId>)
    requires dist.Keys == g.Keys && prev.Keys == g.Keys && target in g
  {
    && (node.Some? ==> node.value in g)
    && (path == [] ==> node == Some(target))
    && (path != [] ==> path[0] in g && prev[path[0]] == node && Last(path) == target && IsWalk(g, path))
    && (forall i, j :: 0 <= i < j < |path| ==> Rank(order, done, path[i]) < Rank(order, done, path[j]))
    && (node.Some? && path != [] ==> Rank(order, done, node.value) < Rank(order, done, path[0]))
    && (path != [] && dist[target].Fin? ==>
          dist[path[0]].Fin? && dist[target].value == dist[path[0]].value + Weight(g, path))
  }

  lemma ChainStep(g: Graph, target: NodeId,
                  dist: map<NodeId, Cost>, prev: map<NodeId, Option<NodeId>>,
                  done: set<NodeId>, order: map<NodeId, nat>, path: seq<NodeId>, v: NodeId)
    requires dist.Keys == g.Keys && prev.Keys == g.Keys && order.Keys == done && target in g
    requires Links(g, dist, prev, done, order) && forall u :: u in done ==> order[u] < |done|
    requires Chain(g, target, dist, prev, done, order, path, Some(v))
    ensures Chain(g, target, dist, prev, done, order, [v] + path, prev[v])
    ensures prev[v].Some? ==> Rank(order, done, prev[v].value) < Rank(order, done, v)
  {
    if path != [] {
      assert PrevOk(g, dist, done, order, path[0], v);
    }
    if prev[v].Some? {
      assert PrevOk(g, dist, done, order, v, prev[v].value);
    }
  }

  /** When the walk back stops, it either reached the start, giving a sound
      route, or the target was never reached. */
  lemma ChainEnd(g: Graph, start: NodeId, target: NodeId,
                 dist: map<NodeId, Cost>, prev: map<NodeId, Option<NodeId>>,
                 done: set<NodeId>, order: map<NodeId, nat>, path: seq<NodeId>)
    requires Searched(g, start, target, dist, prev, done, order)
    requires Chain(g, target, dist, prev, done, order, path, None)
    ensures path != []
    ensures path[0] == start ==> Sound(g, start, target, Route(path, dist[target]))
    ensures path[0] != start ==> dist[target].Infinite?
    ensures start == target ==> path == [start]
  {
    assert NoDup(path);
  }

  /** Follow predecessor links back from the target; prepending is the
      source's append-then-reverse. The result is what the source returns. */
  method Reconstruct(g: Graph, start: NodeId, target: NodeId,
                     dist: map<NodeId, Cost>, prev: map<NodeId, Option<NodeId>>,
                     ghost done: set<NodeId>, ghost order: map<NodeId, nat>)
    returns (r: Route)
    requires Searched(g, start, target, dist, prev, done, order)
    ensures Sound(g, start, target, r) && Optimal(g, start, target, r.cost)
    ensures start == target ==> r == Route([start], Fin(0))
  {
    var path: seq<NodeId> := [];
    var node: Option<NodeId> := Some(target);
    while node.Some?
      invariant Chain(g, target, dist, prev, done, order, path, node)
      decreases if node.Some? then Rank(order, done, node.value) + 1 else 0
    {
      ChainStep(g, target, dist, prev, done, order, path, node.value);
      path := [node.value] + path;
      node := prev[path[0]];
    }
    ChainEnd(g, start, target, dist, prev, done, order, path);
    if path[0] == start {
      return Route(path, dist[target]);
    }
    return Route([], Infinite);
  }

  /** `dijkstra(graph, start, target)`: a priority-queue Dijkstra that stops when
      the target is popped. The heap's tie-break on node ids is not modelled:
      any entry of least distance may be popped, and the contract holds for
      every such choice. */
  method Dijkstra(g: Graph, start: NodeId, target: NodeId) returns (r: Result<Route, Fault>)
    ensures start !in g || target !in g ==> r == Success(Route([], Infinite))
    ensures start in g && start == target ==> r == Success(Route([start], Fin(0)))
    ensures Closed(g) ==> r.Success?
    ensures r.Failure? ==> r.error.id !in g && exists u :: u in g && r.error.id in g[u]
    ensures r.Success? ==> Sound(g, start, target, r.value)
    ensures r.Success? && start in g && target in g ==> Optimal(g, start, target, r.value.cost)
  {
    if start !in g || target !in g {
      return Success(Route([], Infinite));
    }
    var searched, done, order := Search(g, start, target);
    if searched.Failure? {
      return Failure(searched.error);
    }
    var route := Reconstruct(g, start, target, searched.value.0, searched.value.1, done, order);
    return Success(route);
  }
}
