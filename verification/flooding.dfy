/** Hop-bounded flooding (flooding.py `flooding_paths`): a breadth-first
    enumeration of every non-backtracking walk from `start` that stops at the
    target or when its hop budget is spent, collecting the walks that reach the
    target and counting every packet put on the queue. */
module Flooding {
  import opened Wrappers
  import opened Graphs

  /** The node a packet at the end of `p` came from: the source's
      `incoming_node`, `None` for the first packet. */
  function Incoming(p: seq<NodeId>): Option<NodeId> {
    if |p| >= 2 then Some(p[|p| - 2]) else None
  }

  /** A popped packet is copied on: it is not at the target and has used fewer
      than `maxHops` hops. */
  predicate Forwards(target: NodeId, maxHops: int, p: seq<NodeId>)
    requires |p| > 0
  {
    Last(p) != target && |p| - 1 < maxHops
  }

  /** The copies of a packet at the end of `p`: one to each neighbour of its
      last node except the one it came from. */
  ghost function Children(g: Graph, p: seq<NodeId>): set<seq<NodeId>>
    requires |p| > 0 && Last(p) in g
  {
    set x | x in g[Last(p)] && Some(x) != Incoming(p) :: p + [x]
  }

  /** The packets enqueued while popping the packets `ps`: a copy of each
      forwarded packet to every neighbour but the one it came from. */
  ghost function Grow(g: Graph, target: NodeId, maxHops: int, ps: set<seq<NodeId>>): set<seq<NodeId>> {
    set p, x | p in ps && |p| > 0 && Forwards(target, maxHops, p)
               && Last(p) in g && x in g[Last(p)] && Some(x) != Incoming(p) :: p + [x]
  }

  /** The packets enqueued with `k` hops, as the paths they carry. */
  ghost function Walks(g: Graph, start: NodeId, target: NodeId, maxHops: int, k: nat): set<seq<NodeId>>
  {
    if k == 0 then {[start]} else Grow(g, target, maxHops, Walks(g, start, target, maxHops, k - 1))
  }

  /** Independent description of an enqueued path: it starts at `start`,
      follows edges, never steps straight back, does not pass through the
      target, and has at most `maxHops` edges (the first packet has none). */
  ghost predicate Candidate(g: Graph, start: NodeId, target: NodeId, maxHops: int, p: seq<NodeId>) {
    && |p| >= 1 && p[0] == start
    && (|p| == 1 || |p| - 1 <= maxHops)
    && (forall i :: 0 <= i < |p| - 1 ==> p[i] != target && Edge(g, p[i], p[i + 1]))
    && (forall i :: 0 <= i < |p| - 2 ==> p[i] != p[i + 2])
  }

  /** Number of packets enqueued with fewer than `k` hops. */
  ghost function Count(g: Graph, start: NodeId, target: NodeId, maxHops: int, k: nat): nat {
    if k == 0 then 0 else Count(g, start, target, maxHops, k - 1) + |Walks(g, start, target, maxHops, k - 1)|
  }

  /** Number of hop counts a packet can have: 0 up to `maxHops`. */
  function Levels(maxHops: int): nat {
    if maxHops <= 0 then 1 else maxHops + 1
  }

  /** A packet whose forwarding raises `KeyError`: it must be copied on but its
      last node is not a key of the graph. */
  ghost predicate Stuck(g: Graph, target: NodeId, maxHops: int, p: seq<NodeId>) {
    |p| > 0 && Forwards(target, maxHops, p) && Last(p) !in g
  }

  /** `q` was enqueued (with `|q| - 1` hops). */
  ghost predicate Sent(g: Graph, start: NodeId, target: NodeId, maxHops: int, q: seq<NodeId>) {
    |q| >= 1 && q in Walks(g, start, target, maxHops, |q| - 1)
  }

  // ---------------------------------------------------------------------------
  // Facts about the level sets.

  /** A grown packet extends a popped one by one allowed edge. */
  lemma GrowParent(g: Graph, target: NodeId, maxHops: int, ps: set<seq<NodeId>>, p: seq<NodeId>)
    requires p in Grow(g, target, maxHops, ps)
    ensures |p| >= 2 && p[..|p| - 1] in ps && Forwards(target, maxHops, p[..|p| - 1]) && p[|p| - 2] in g
    ensures Last(p) in g[p[|p| - 2]] && Some(Last(p)) != Incoming(p[..|p| - 1])
  {
    var p', x :| p' in ps && |p'| > 0 && Forwards(target, maxHops, p')
                 && Last(p') in g && x in g[Last(p')] && Some(x) != Incoming(p') && p == p' + [x];
    assert p[..|p| - 1] == p';
  }

  /** Every allowed one-edge extension of a popped packet is grown. */
  lemma GrowChild(g: Graph, target: NodeId, maxHops: int, ps: set<seq<NodeId>>, p: seq<NodeId>)
    requires |p| >= 2 && p[..|p| - 1] in ps && Forwards(target, maxHops, p[..|p| - 1]) && p[|p| - 2] in g
    requires Last(p) in g[p[|p| - 2]] && Some(Last(p)) != Incoming(p[..|p| - 1])
    ensures p in Grow(g, target, maxHops, ps)
  {
    assert p == p[..|p| - 1] + [Last(p)];
  }

  /** Membership in a level after the first, stated through the path's
      parent (all but its last node). */
  lemma WalksStep(g: Graph, start: NodeId, target: NodeId, maxHops: int, k: nat, p: seq<NodeId>)
    ensures p in Walks(g, start, target, maxHops, k + 1) <==>
              && |p| >= 2 && p[..|p| - 1] in Walks(g, start, target, maxHops, k)
              && Forwards(target, maxHops, p[..|p| - 1]) && p[|p| - 2] in g
              && Last(p) in g[p[|p| - 2]] && Some(Last(p)) != Incoming(p[..|p| - 1])
  {
    var ps := Walks(g, start, target, maxHops, k);
    assert Walks(g, start, target, maxHops, k + 1) == Grow(g, target, maxHops, ps);
    if p in Grow(g, target, maxHops, ps) {
      GrowParent(g, target, maxHops, ps, p);
    }
    if && |p| >= 2 && p[..|p| - 1] in ps && Forwards(target, maxHops, p[..|p| - 1]) && p[|p| - 2] in g
       && Last(p) in g[p[|p| - 2]] && Some(Last(p)) != Incoming(p[..|p| - 1]) {
      GrowChild(g, target, maxHops, ps, p);
    }
  }

  /** Nothing grows from no packets. */
  lemma GrowEmpty(g: Graph, target: NodeId, maxHops: int)
    ensures Grow(g, target, maxHops, {}) == {}
  {
  }

  lemma {:induction false} WalksShape(g: Graph, start: NodeId, target: NodeId, maxHops: int, k: nat, p: seq<NodeId>)
    requires p in Walks(g, start, target, maxHops, k)
    ensures |p| == k + 1 && p[0] == start
  {
    if k > 0 {
      WalksStep(g, start, target, maxHops, k - 1, p);
      WalksShape(g, start, target, maxHops, k - 1, p[..|p| - 1]);
    }
  }

  /** Extending a path by one edge keeps it a candidate exactly when the
      source would forward the packet along that edge. */
  lemma CandidateSnoc(g: Graph, start: NodeId, target: NodeId, maxHops: int, p: seq<NodeId>, x: NodeId)
    requires |p| >= 1
    ensures Candidate(g, start, target, maxHops, p + [x]) <==>
              && Candidate(g, start, target, maxHops, p) && Forwards(target, maxHops, p)
              && Edge(g, Last(p), x) && Some(x) != Incoming(p)
  {
    var q := p + [x];
    assert q[..|p|] == p;
    if Candidate(g, start, target, maxHops, q) {
      assert q[|p| - 1] != target && Edge(g, q[|p| - 1], q[|p|]);
      if |p| >= 2 {
        assert q[|p| - 2] != q[|p|];
      }
      forall i | 0 <= i < |p| - 1
        ensures p[i] != target && Edge(g, p[i], p[i + 1])
      {
        assert q[i] != target && Edge(g, q[i], q[i + 1]);
      }
      forall i | 0 <= i < |p| - 2
        ensures p[i] != p[i + 2]
      {
        assert q[i] != q[i + 2];
      }
    }
  }

  /** Every enqueued path is a candidate with one more node than hops. */
  lemma {:induction false} WalksSound(g: Graph, start: NodeId, target: NodeId, maxHops: int, k: nat, p: seq<NodeId>)
    requires p in Walks(g, start, target, maxHops, k)
    ensures |p| == k + 1 && Candidate(g, start, target, maxHops, p)
  {
    if k > 0 {
      WalksStep(g, start, target, maxHops, k - 1, p);
      var p' := p[..|p| - 1];
      WalksSound(g, start, target, maxHops, k - 1, p');
      assert p == p' + [Last(p)];
      CandidateSnoc(g, start, target, maxHops, p', Last(p));
    }
  }

  /** Every candidate is enqueued, at the level of its hop count. */
  lemma {:induction false} WalksComplete(g: Graph, start: NodeId, target: NodeId, maxHops: int, p: seq<NodeId>)
    requires Candidate(g, start, target, maxHops, p)
    ensures p in Walks(g, start, target, maxHops, |p| - 1)
  {
    if |p| == 1 {
      assert p == [start];
    } else {
      var p' := p[..|p| - 1];
      assert p == p' + [Last(p)];
      CandidateSnoc(g, start, target, maxHops, p', Last(p));
      WalksComplete(g, start, target, maxHops, p');
      WalksStep(g, start, target, maxHops, |p| - 2, p);
    }
  }

  /** The level sets agree with the pointwise description, in both directions. */
  lemma WalksExact(g: Graph, start: NodeId, target: NodeId, maxHops: int, k: nat, p: seq<NodeId>)
    ensures p in Walks(g, start, target, maxHops, k) <==> |p| == k + 1 && Candidate(g, start, target, maxHops, p)
  {
    if p in Walks(g, start, target, maxHops, k) {
      WalksSound(g, start, target, maxHops, k, p);
    }
    if |p| == k + 1 && Candidate(g, start, target, maxHops, p) {
      WalksComplete(g, start, target, maxHops, p);
    }
  }

  /** No packet has more than `maxHops` hops (nor any hop when `maxHops <= 0`). */
  lemma HopBound(g: Graph, start: NodeId, target: NodeId, maxHops: int, k: nat)
    requires k >= Levels(maxHops)
    ensures Walks(g, start, target, maxHops, k) == {}
  {
    forall p | p in Walks(g, start, target, maxHops, k)
      ensures false
    {
      WalksExact(g, start, target, maxHops, k, p);
    }
  }

  /** Once a level is empty, every later level is. */
  lemma {:induction false} EmptyStays(g: Graph, start: NodeId, target: NodeId, maxHops: int, k: nat, m: nat)
    requires Walks(g, start, target, maxHops, k) == {} && k <= m
    ensures Walks(g, start, target, maxHops, m) == {}
    decreases m - k
  {
    if k < m {
      GrowEmpty(g, target, maxHops);
      EmptyStays(g, start, target, maxHops, k + 1, m);
    }
  }

  /** Past the first empty level, the packet count no longer grows. */
  lemma {:induction false} CountStays(g: Graph, start: NodeId, target: NodeId, maxHops: int, k: nat, m: nat)
    requires Walks(g, start, target, maxHops, k) == {} && k <= m
    ensures Count(g, start, target, maxHops, m) == Count(g, start, target, maxHops, k)
    decreases m - k
  {
    if k < m {
      GrowEmpty(g, target, maxHops);
      CountStays(g, start, target, maxHops, k + 1, m);
    }
  }

  /** The next level, split by the popped path each entry extends. */
  lemma ChildrenLevel(g: Graph, start: NodeId, target: NodeId, maxHops: int, k: nat, p: seq<NodeId>, q: seq<NodeId>)
    requires p in Walks(g, start, target, maxHops, k) && |q| == k + 2 && q[..k + 1] == p
    ensures q in Walks(g, start, target, maxHops, k + 1) <==>
              Forwards(target, maxHops, p) && Last(p) in g && q in Children(g, p)
  {
    WalksShape(g, start, target, maxHops, k, p);
    assert q == p + [q[k + 1]];
    WalksStep(g, start, target, maxHops, k, q);
  }

  /** Paths listed in non-decreasing length. */
  predicate Sorted(paths: seq<seq<NodeId>>) {
    forall a, b :: 0 <= a < b < |paths| ==> |paths[a]| <= |paths[b]|
  }

  /** `next` holds exactly the next-level packets forwarded from the paths in `done`. */
  ghost predicate NextOk(g: Graph, start: NodeId, target: NodeId, maxHops: int, k: nat,
                         done: seq<seq<NodeId>>, next: seq<seq<NodeId>>)
  {
    && NoDup(next)
    && forall q :: q in next <==> |q| == k + 2 && q[..k + 1] in done && q in Walks(g, start, target, maxHops, k + 1)
  }

  /** `visited` holds every packet with at most `k` hops, and those in `next`. */
  ghost predicate VisitedOk(g: Graph, start: NodeId, target: NodeId, maxHops: int, k: nat,
                            visited: set<seq<NodeId>>, next: seq<seq<NodeId>>)
  {
    forall q :: q in visited <==> (Sent(g, start, target, maxHops, q) && |q| <= k + 1) || q in next
  }

  /** `paths` lists, without repetition and by length, the packets with fewer
      than `k` hops that reached the target, then those of `done` that did. */
  ghost predicate PathsOk(g: Graph, start: NodeId, target: NodeId, maxHops: int, k: nat,
                          done: seq<seq<NodeId>>, paths: seq<seq<NodeId>>)
  {
    && NoDup(paths) && Sorted(paths)
    && (forall q :: q in paths ==> 1 <= |q| <= k + 1)
    && forall q :: q in paths <==>
         |q| >= 1 && Last(q) == target && ((Sent(g, start, target, maxHops, q) && |q| <= k) || q in done)
  }

  /** The packets a popped path `p` leads to: its children when it is
      forwarded, none when it is at the target or out of hops. */
  ghost function Copies(g: Graph, target: NodeId, maxHops: int, p: seq<NodeId>): set<seq<NodeId>>
    requires |p| > 0
  {
    if Forwards(target, maxHops, p) && Last(p) in g then Children(g, p) else {}
  }

  /** `[p]` when the popped path is at the target (the source's
      `paths.append(path)`), else nothing. */
  function Hit(target: NodeId, p: seq<NodeId>): (r: seq<seq<NodeId>>)
    requires |p| > 0
    ensures forall q :: q in r <==> q == p && Last(p) == target
  {
    if Last(p) == target then [p] else []
  }

  /** The inner `for neighbor in graph[current_node]` loop for one popped path
      `p`, skipped when the packet is not forwarded. Every copy is fresh, so the
      source's `visited_paths` test always passes, and exactly the copies of
      `p` are enqueued and counted. */
  method Enqueue(g: Graph, target: NodeId, maxHops: int, p: seq<NodeId>,
                 visited: set<seq<NodeId>>, next: seq<seq<NodeId>>, packets: nat)
    returns (visited': set<seq<NodeId>>, next': seq<seq<NodeId>>, packets': nat)
    requires |p| > 0 && (Forwards(target, maxHops, p) ==> Last(p) in g) && NoDup(next)
    requires forall q :: q in next ==> q in visited
    requires forall q :: q in visited && |q| == |p| + 1 ==> q[..|p|] != p
    ensures visited' == visited + Copies(g, target, maxHops, p)
    ensures NoDup(next') && |next| <= |next'| && next'[..|next|] == next
    ensures forall q :: q in next' <==> q in next || q in Copies(g, target, maxHops, p)
    ensures packets' == packets + (|next'| - |next|)
  {
    if Forwards(target, maxHops, p) {
      visited', next', packets' := Forward(g, p, visited, next, packets);
    } else {
      visited', next', packets' := visited, next, packets;
    }
  }

  /** The inner `for neighbor in graph[current_node]` loop for one popped path
      `p`: every copy is fresh, so the source's `visited_paths` test always
      passes, and exactly the children of `p` are enqueued and counted. */
  method Forward(g: Graph, p: seq<NodeId>, visited: set<seq<NodeId>>, next: seq<seq<NodeId>>, packets: nat)
    returns (visited': set<seq<NodeId>>, next': seq<seq<NodeId>>, packets': nat)
    requires |p| > 0 && Last(p) in g && NoDup(next)
    requires forall q :: q in next ==> q in visited
    requires forall q :: q in visited && |q| == |p| + 1 ==> q[..|p|] != p
    ensures visited' == visited + Children(g, p)
    ensures NoDup(next') && |next| <= |next'| && next'[..|next|] == next
    ensures forall q :: q in next' <==> q in next || q in Children(g, p)
    ensures packets' == packets + (|next'| - |next|)
  {
    var xs := Listing(g[Last(p)].Keys);
    visited', next', packets' := visited, next, packets;
    var j := 0;
    while j < |xs|
      invariant 0 <= j <= |xs|
      invariant visited' == visited + Extend(p, xs[..j])
      invariant NoDup(next') && |next| <= |next'| && next'[..|next|] == next
      invariant forall q :: q in next' <==> q in next || q in Extend(p, xs[..j])
      invariant packets' == packets + (|next'| - |next|)
    {
      var x := xs[j];
      ExtendStep(p, xs, j);
      if Some(x) != Incoming(p) {
        var np := p + [x];
        assert np[..|p|] == p;
        if np !in visited' {
          visited' := visited' + {np};
          next' := next' + [np];
          packets' := packets' + 1;
        }
      }
      j := j + 1;
    }
    assert xs[..j] == xs;
    assert Extend(p, xs) == Children(g, p);
  }

  /** The copies of `p` along the edges to the nodes of `ys`. */
  ghost function Extend(p: seq<NodeId>, ys: seq<NodeId>): set<seq<NodeId>> {
    set x | x in ys && Some(x) != Incoming(p) :: p + [x]
  }

  /** Taking one more neighbour from a repetition-free listing adds at most
      one copy, and a new one. */
  lemma ExtendStep(p: seq<NodeId>, xs: seq<NodeId>, j: nat)
    requires j < |xs| && NoDup(xs)
    ensures Extend(p, xs[..j + 1]) ==
              Extend(p, xs[..j]) + (if Some(xs[j]) != Incoming(p) then {p + [xs[j]]} else {})
    ensures p + [xs[j]] !in Extend(p, xs[..j])
  {
    assert xs[..j + 1] == xs[..j] + [xs[j]];
    forall i | 0 <= i < j
      ensures p + [xs[i]] != p + [xs[j]]
    {
      assert (p + [xs[i]])[|p|] == xs[i];
    }
  }

  /** The loop state of `ProcessLevel` after the first `i` packets of level `k`. */
  ghost predicate LevelInv(g: Graph, start: NodeId, target: NodeId, maxHops: int, k: nat,
                           done: seq<seq<NodeId>>, paths: seq<seq<NodeId>>, next: seq<seq<NodeId>>,
                           visited: set<seq<NodeId>>, packets: nat)
  {
    && NextOk(g, start, target, maxHops, k, done, next)
    && VisitedOk(g, start, target, maxHops, k, visited, next)
    && PathsOk(g, start, target, maxHops, k, done, paths)
    && packets == Count(g, start, target, maxHops, k + 1) + |next|
    && (k >= maxHops ==> next == [])
  }

  /** The copies of a path of level `k` are the next-level packets extending it. */
  lemma CopiesLevel(g: Graph, start: NodeId, target: NodeId, maxHops: int, k: nat, p: seq<NodeId>)
    requires p in Walks(g, start, target, maxHops, k)
    ensures |p| == k + 1
    ensures forall q :: q in Copies(g, target, maxHops, p) <==>
              |q| == k + 2 && q[..k + 1] == p && q in Walks(g, start, target, maxHops, k + 1)
  {
    WalksShape(g, start, target, maxHops, k, p);
    forall q | |q| == k + 2 && q[..k + 1] == p
      ensures q in Walks(g, start, target, maxHops, k + 1) <==> q in Copies(g, target, maxHops, p)
    {
      ChildrenLevel(g, start, target, maxHops, k, p, q);
    }
    forall q | q in Copies(g, target, maxHops, p)
      ensures |q| == k + 2 && q[..k + 1] == p
    {
      var x :| x in g[Last(p)] && Some(x) != Incoming(p) && q == p + [x];
      assert q[..k + 1] == p;
    }
  }

  /** No packet already seen extends a path not yet popped. */
  lemma FreshFor(g: Graph, start: NodeId, target: NodeId, maxHops: int, k: nat,
                 done: seq<seq<NodeId>>, next: seq<seq<NodeId>>, visited: set<seq<NodeId>>, p: seq<NodeId>)
    requires NextOk(g, start, target, maxHops, k, done, next)
    requires VisitedOk(g, start, target, maxHops, k, visited, next)
    requires |p| == k + 1 && p !in done
    ensures forall q :: q in next ==> q in visited
    ensures forall q :: q in visited && |q| == |p| + 1 ==> q[..|p|] != p
  {
  }

  /** Enqueueing the copies of `p` keeps `next` exact. */
  lemma NextStep(g: Graph, start: NodeId, target: NodeId, maxHops: int, k: nat,
                 done: seq<seq<NodeId>>, next: seq<seq<NodeId>>, p: seq<NodeId>, next': seq<seq<NodeId>>)
    requires NextOk(g, start, target, maxHops, k, done, next)
    requires p in Walks(g, start, target, maxHops, k)
    requires NoDup(next') && forall q :: q in next' <==> q in next || q in Copies(g, target, maxHops, p)
    ensures NextOk(g, start, target, maxHops, k, done + [p], next')
  {
    CopiesLevel(g, start, target, maxHops, k, p);
  }

  /** Marking the copies of `p` visited keeps `visited` exact. */
  lemma VisitedStep(g: Graph, start: NodeId, target: NodeId, maxHops: int, k: nat,
                    visited: set<seq<NodeId>>, next: seq<seq<NodeId>>, copies: set<seq<NodeId>>,
                    visited': set<seq<NodeId>>, next': seq<seq<NodeId>>)
    requires VisitedOk(g, start, target, maxHops, k, visited, next)
    requires visited' == visited + copies
    requires forall q :: q in next' <==> q in next || q in copies
    ensures VisitedOk(g, start, target, maxHops, k, visited', next')
  {
  }

  /** Recording `p` when it is at the target keeps `paths` exact and sorted. */
  lemma PathsStep(g: Graph, start: NodeId, target: NodeId, maxHops: int, k: nat,
                  done: seq<seq<NodeId>>, paths: seq<seq<NodeId>>, p: seq<NodeId>)
    requires PathsOk(g, start, target, maxHops, k, done, paths)
    requires p in Walks(g, start, target, maxHops, k) && p !in done
    ensures PathsOk(g, start, target, maxHops, k, done + [p], paths + Hit(target, p))
  {
    WalksShape(g, start, target, maxHops, k, p);
    var paths' := paths + Hit(target, p);
    assert p !in paths;
    forall a, b | 0 <= a < b < |paths'|
      ensures |paths'[a]| <= |paths'[b]|
    {
      if b >= |paths| {
        assert paths'[a] in paths;
      }
    }
  }

  /** Popping the next packet of the level keeps the loop state. */
  lemma LevelStep(g: Graph, start: NodeId, target: NodeId, maxHops: int, k: nat,
                  done: seq<seq<NodeId>>, paths: seq<seq<NodeId>>, next: seq<seq<NodeId>>,
                  visited: set<seq<NodeId>>, packets: nat, p: seq<NodeId>,
                  next': seq<seq<NodeId>>, visited': set<seq<NodeId>>, packets': nat)
    requires LevelInv(g, start, target, maxHops, k, done, paths, next, visited, packets)
    requires p in Walks(g, start, target, maxHops, k) && p !in done
    requires visited' == visited + Copies(g, target, maxHops, p)
    requires NoDup(next') && forall q :: q in next' <==> q in next || q in Copies(g, target, maxHops, p)
    requires packets' == packets + (|next'| - |next|)
    ensures LevelInv(g, start, target, maxHops, k, done + [p], paths + Hit(target, p), next', visited', packets')
  {
    NextStep(g, start, target, maxHops, k, done, next, p, next');
    VisitedStep(g, start, target, maxHops, k, visited, next, Copies(g, target, maxHops, p), visited', next');
    PathsStep(g, start, target, maxHops, k, done, paths, p);
    OutOfHops(g, start, target, maxHops, k, p, next, next');
  }

  /** A level at or past the hop bound enqueues nothing. */
  lemma OutOfHops(g: Graph, start: NodeId, target: NodeId, maxHops: int, k: nat, p: seq<NodeId>,
                  next: seq<seq<NodeId>>, next': seq<seq<NodeId>>)
    requires p in Walks(g, start, target, maxHops, k) && (k >= maxHops ==> next == [])
    requires NoDup(next') && forall q :: q in next' <==> q in next || q in Copies(g, target, maxHops, p)
    ensures k >= maxHops ==> next' == []
  {
    WalksShape(g, start, target, maxHops, k, p);
    if k >= maxHops {
      SameLength(next', {});
    }
  }

  /** Two sequences without repetition and with the same elements have the same length. */
  lemma {:induction false} SameLength(s: seq<seq<NodeId>>, t: set<seq<NodeId>>)
    requires NoDup(s) && forall q :: q in s <==> q in t
    ensures |s| == |t|
  {
    if s != [] {
      var h := s[|s| - 1];
      assert forall q :: q in s[..|s| - 1] <==> q in t - {h};
      SameLength(s[..|s| - 1], t - {h});
    }
  }

  /** The loop state at the end of a level is the outer state of the next one. */
  lemma LevelDone(g: Graph, start: NodeId, target: NodeId, maxHops: int, k: nat,
                  level: seq<seq<NodeId>>, paths: seq<seq<NodeId>>, next: seq<seq<NodeId>>,
                  visited: set<seq<NodeId>>, packets: nat)
    requires forall q :: q in level <==> q in Walks(g, start, target, maxHops, k)
    requires LevelInv(g, start, target, maxHops, k, level, paths, next, visited, packets)
    ensures NoDup(next) && forall q :: q in next <==> q in Walks(g, start, target, maxHops, k + 1)
    ensures VisitedOk(g, start, target, maxHops, k + 1, visited, [])
    ensures PathsOk(g, start, target, maxHops, k + 1, [], paths)
    ensures packets == Count(g, start, target, maxHops, k + 2)
  {
    NextLevel(g, start, target, maxHops, k, level, next);
    SameLength(next, Walks(g, start, target, maxHops, k + 1));
    LevelSent(g, start, target, maxHops, k);
    LevelSent(g, start, target, maxHops, k + 1);
  }

  /** Level `k` holds exactly the packets sent with `k` hops. */
  lemma LevelSent(g: Graph, start: NodeId, target: NodeId, maxHops: int, k: nat)
    ensures forall q :: q in Walks(g, start, target, maxHops, k) <==> Sent(g, start, target, maxHops, q) && |q| == k + 1
  {
    forall q | q in Walks(g, start, target, maxHops, k)
      ensures |q| == k + 1
    {
      WalksShape(g, start, target, maxHops, k, q);
    }
  }

  /** The packets enqueued while popping a whole level are the next level. */
  lemma NextLevel(g: Graph, start: NodeId, target: NodeId, maxHops: int, k: nat,
                  level: seq<seq<NodeId>>, next: seq<seq<NodeId>>)
    requires forall q :: q in level <==> q in Walks(g, start, target, maxHops, k)
    requires NextOk(g, start, target, maxHops, k, level, next)
    ensures forall q :: q in next <==> q in Walks(g, start, target, maxHops, k + 1)
  {
    forall q | q in Walks(g, start, target, maxHops, k + 1)
      ensures |q| == k + 2 && q[..k + 1] in level
    {
      WalksShape(g, start, target, maxHops, k + 1, q);
      WalksStep(g, start, target, maxHops, k, q);
      assert q[..|q| - 1] == q[..k + 1];
    }
  }

  /** The packet of a level whose forwarding would raise `KeyError` first, if any. */
  method FirstStuck(g: Graph, target: NodeId, maxHops: int, level: seq<seq<NodeId>>) returns (r: Option<NodeId>)
    ensures r.None? <==> forall q :: q in level ==> !Stuck(g, target, maxHops, q)
    ensures r.Some? ==> exists i :: 0 <= i < |level| && Stuck(g, target, maxHops, level[i]) && Last(level[i]) == r.value
                                    && forall j :: 0 <= j < i ==> !Stuck(g, target, maxHops, level[j])
  {
    var i := 0;
    while i < |level|
      invariant 0 <= i <= |level|
      invariant forall j :: 0 <= j < i ==> !Stuck(g, target, maxHops, level[j])
    {
      var p := level[i];
      if |p| > 0 && Forwards(target, maxHops, p) && Last(p) !in g {
        assert p in level && Stuck(g, target, maxHops, p);
        return Some(Last(p));
      }
      i := i + 1;
    }
    return None;
  }

  /** The `i`-th packet of a level, not popped before. */
  lemma Pick(g: Graph, start: NodeId, target: NodeId, maxHops: int, k: nat, level: seq<seq<NodeId>>, i: nat)
    requires NoDup(level) && forall q :: q in level <==> q in Walks(g, start, target, maxHops, k)
    requires i < |level|
    ensures level[i] in Walks(g, start, target, maxHops, k) && level[i] !in level[..i]
    ensures |level[i]| == k + 1 && level[..i + 1] == level[..i] + [level[i]]
  {
    WalksShape(g, start, target, maxHops, k, level[i]);
    assert level[..i + 1] == level[..i] + [level[i]];
  }

  /** One pass of the source's `while queue` over the packets with `k` hops,
      in queue order, when none of them raises `KeyError`: it records the
      ones at the target and enqueues the next level. */
  method ProcessLevel(g: Graph, start: NodeId, target: NodeId, maxHops: int, k: nat,
                      level: seq<seq<NodeId>>, paths: seq<seq<NodeId>>, visited: set<seq<NodeId>>, packets: nat)
    returns (paths': seq<seq<NodeId>>, next: seq<seq<NodeId>>, visited': set<seq<NodeId>>, packets': nat)
    requires NoDup(level) && forall q :: q in level <==> q in Walks(g, start, target, maxHops, k)
    requires forall q :: q in level ==> !Stuck(g, target, maxHops, q)
    requires VisitedOk(g, start, target, maxHops, k, visited, [])
    requires PathsOk(g, start, target, maxHops, k, [], paths)
    requires packets == Count(g, start, target, maxHops, k + 1)
    ensures NoDup(next) && forall q :: q in next <==> q in Walks(g, start, target, maxHops, k + 1)
    ensures VisitedOk(g, start, target, maxHops, k + 1, visited', [])
    ensures PathsOk(g, start, target, maxHops, k + 1, [], paths')
    ensures packets' == Count(g, start, target, maxHops, k + 2)
  {
    paths', next, visited', packets' := paths, [], visited, packets;
    var i := 0;
    while i < |level|
      invariant 0 <= i <= |level|
      invariant LevelInv(g, start, target, maxHops, k, level[..i], paths', next, visited', packets')
    {
      var p := level[i];
      Pick(g, start, target, maxHops, k, level, i);
      FreshFor(g, start, target, maxHops, k, level[..i], next, visited', p);
      var visited2, next2, packets2 := Enqueue(g, target, maxHops, p, visited', next, packets');
      LevelStep(g, start, target, maxHops, k, level[..i], paths', next, visited', packets', p, next2, visited2, packets2);
      paths', next, visited', packets' := paths' + Hit(target, p), next2, visited2, packets2;
      i := i + 1;
    }
    assert level[..i] == level;
    LevelDone(g, start, target, maxHops, k, level, paths', next, visited', packets');
  }

  // ---------------------------------------------------------------------------
  // The whole search.

  /** What `flooding_paths` returns as paths: every candidate that ends at the
      target, each once, shorter ones first. */
  ghost predicate Found(g: Graph, start: NodeId, target: NodeId, maxHops: int, paths: seq<seq<NodeId>>) {
    && NoDup(paths) && Sorted(paths)
    && forall q :: q in paths <==> Candidate(g, start, target, maxHops, q) && Last(q) == target
  }

  /** A non-empty level only occurs below the hop bound. */
  lemma LevelBound(g: Graph, start: NodeId, target: NodeId, maxHops: int, k: nat, p: seq<NodeId>)
    requires p in Walks(g, start, target, maxHops, k)
    ensures k < Levels(maxHops)
  {
    WalksExact(g, start, target, maxHops, k, p);
  }

  /** A packet that raises `KeyError` is a candidate whose last node is named
      as a neighbour but is not a key of the graph. */
  lemma StuckWitness(g: Graph, start: NodeId, target: NodeId, maxHops: int, k: nat, p: seq<NodeId>)
    requires start in g && p in Walks(g, start, target, maxHops, k) && Stuck(g, target, maxHops, p)
    ensures Candidate(g, start, target, maxHops, p)
    ensures Last(p) !in g && exists u :: u in g && Last(p) in g[u]
  {
    WalksExact(g, start, target, maxHops, k, p);
    assert |p| >= 2;
    assert Edge(g, p[|p| - 2], p[|p| - 1]);
  }

  /** When the queue runs dry at level `k`, the packets ever sent are exactly
      the candidates, and all of them have at most `k` hops. */
  lemma SentExact(g: Graph, start: NodeId, target: NodeId, maxHops: int, k: nat, q: seq<NodeId>)
    requires Walks(g, start, target, maxHops, k) == {}
    ensures Candidate(g, start, target, maxHops, q) <==> Sent(g, start, target, maxHops, q) && |q| <= k
  {
    if |q| >= 1 {
      WalksExact(g, start, target, maxHops, |q| - 1, q);
      if |q| > k {
        EmptyStays(g, start, target, maxHops, k, |q| - 1);
      }
    }
  }

  /** When the queue runs dry, the recorded paths are all that will ever be found. */
  lemma Drained(g: Graph, start: NodeId, target: NodeId, maxHops: int, k: nat, paths: seq<seq<NodeId>>)
    requires Walks(g, start, target, maxHops, k) == {}
    requires PathsOk(g, start, target, maxHops, k, [], paths)
    ensures Found(g, start, target, maxHops, paths)
  {
    forall q
      ensures q in paths <==> Candidate(g, start, target, maxHops, q) && Last(q) == target
    {
      SentExact(g, start, target, maxHops, k, q);
    }
  }

  /** When the queue runs dry, no candidate raised `KeyError` if no sent packet did. */
  lemma DrainedSafe(g: Graph, start: NodeId, target: NodeId, maxHops: int, k: nat)
    requires Walks(g, start, target, maxHops, k) == {}
    requires forall q :: Sent(g, start, target, maxHops, q) && |q| <= k ==> !Stuck(g, target, maxHops, q)
    ensures forall q :: Candidate(g, start, target, maxHops, q) ==> !Stuck(g, target, maxHops, q)
  {
    forall q | Candidate(g, start, target, maxHops, q)
      ensures !Stuck(g, target, maxHops, q)
    {
      SentExact(g, start, target, maxHops, k, q);
    }
  }

  /** A repetition-free sequence whose only element is `x` is `[x]`. */
  lemma Single(s: seq<seq<NodeId>>, x: seq<NodeId>)
    requires NoDup(s) && x in s && forall y :: y in s ==> y == x
    ensures s == [x]
  {
    SameLength(s, {x});
    assert s[0] in s;
  }

  /** With `start == target` the only path found is `[start]`, in one packet. */
  lemma SelfFlood(g: Graph, start: NodeId, maxHops: int, paths: seq<seq<NodeId>>)
    requires Found(g, start, start, maxHops, paths)
    ensures paths == [[start]]
    ensures Count(g, start, start, maxHops, Levels(maxHops)) == 1
  {
    assert Candidate(g, start, start, maxHops, [start]);
    assert [start] in paths;
    assert forall q :: q in paths ==> q == [start];
    Single(paths, [start]);
    assert Walks(g, start, start, maxHops, 1) == {};
    CountStays(g, start, start, maxHops, 1, Levels(maxHops));
  }

  /** The state of the `while queue` loop when the packets with `k` hops are
      queued: `level` holds them in queue order, and everything with fewer
      hops has been popped without raising `KeyError`. */
  ghost predicate FloodInv(g: Graph, start: NodeId, target: NodeId, maxHops: int, k: nat,
                           level: seq<seq<NodeId>>, paths: seq<seq<NodeId>>, visited: set<seq<NodeId>>, packets: nat)
  {
    && NoDup(level) && (forall q :: q in level <==> q in Walks(g, start, target, maxHops, k))
    && VisitedOk(g, start, target, maxHops, k, visited, [])
    && PathsOk(g, start, target, maxHops, k, [], paths)
    && packets == Count(g, start, target, maxHops, k + 1)
    && forall q :: Sent(g, start, target, maxHops, q) && |q| <= k ==> !Stuck(g, target, maxHops, q)
  }

  /** The queue holds the single packet `[start]`, enqueued and visited. */
  lemma FloodInit(g: Graph, start: NodeId, target: NodeId, maxHops: int)
    ensures FloodInv(g, start, target, maxHops, 0, [[start]], [], {[start]}, 1)
  {
    assert Count(g, start, target, maxHops, 1) == 1;
    forall q | Sent(g, start, target, maxHops, q) && |q| <= 1
      ensures q == [start]
    {
    }
  }

  /** Popping a level whose packets all forward cleanly leaves none stuck up to the next level. */
  lemma RoundSafe(g: Graph, start: NodeId, target: NodeId, maxHops: int, k: nat, level: seq<seq<NodeId>>)
    requires forall q :: q in level <==> q in Walks(g, start, target, maxHops, k)
    requires forall q :: q in level ==> !Stuck(g, target, maxHops, q)
    requires forall q :: Sent(g, start, target, maxHops, q) && |q| <= k ==> !Stuck(g, target, maxHops, q)
    ensures forall q :: Sent(g, start, target, maxHops, q) && |q| <= k + 1 ==> !Stuck(g, target, maxHops, q)
  {
  }

  /** One round of the `while queue` loop: popping every packet with `k` hops. */
  method Round(g: Graph, start: NodeId, target: NodeId, maxHops: int, k: nat,
               level: seq<seq<NodeId>>, paths: seq<seq<NodeId>>, visited: set<seq<NodeId>>, packets: nat)
    returns (stuck: Option<NodeId>, level': seq<seq<NodeId>>, paths': seq<seq<NodeId>>,
             visited': set<seq<NodeId>>, packets': nat)
    requires FloodInv(g, start, target, maxHops, k, level, paths, visited, packets)
    ensures stuck.Some? ==> exists q :: Candidate(g, start, target, maxHops, q) && Stuck(g, target, maxHops, q) && Last(q) == stuck.value
    ensures stuck.None? ==> FloodInv(g, start, target, maxHops, k + 1, level', paths', visited', packets')
  {
    stuck := FirstStuck(g, target, maxHops, level);
    if stuck.Some? {
      ghost var i :| 0 <= i < |level| && Stuck(g, target, maxHops, level[i]) && Last(level[i]) == stuck.value;
      WalksExact(g, start, target, maxHops, k, level[i]);
      return stuck, level, paths, visited, packets;
    }
    paths', level', visited', packets' := ProcessLevel(g, start, target, maxHops, k, level, paths, visited, packets);
    RoundSafe(g, start, target, maxHops, k, level);
  }

  /** The `while queue` loop of `flooding_paths`, level by level. */
  method Flood(g: Graph, start: NodeId, target: NodeId, maxHops: int)
    returns (r: Result<(seq<seq<NodeId>>, nat), Fault>)
    ensures r.Failure? ==> exists q :: Candidate(g, start, target, maxHops, q) && Stuck(g, target, maxHops, q) && Last(q) == r.error.id
    ensures r.Success? ==> forall q :: Candidate(g, start, target, maxHops, q) ==> !Stuck(g, target, maxHops, q)
    ensures r.Success? ==> Found(g, start, target, maxHops, r.value.0)
    ensures r.Success? ==> r.value.1 == Count(g, start, target, maxHops, Levels(maxHops))
  {
    var level: seq<seq<NodeId>> := [[start]];
    var paths: seq<seq<NodeId>> := [];
    var visited: set<seq<NodeId>> := {[start]};
    var packets: nat := 1;
    var k: nat := 0;
    var bound := Levels(maxHops);
    FloodInit(g, start, target, maxHops);
    while level != []
      invariant k <= bound == Levels(maxHops)
      invariant FloodInv(g, start, target, maxHops, k, level, paths, visited, packets)
      decreases bound - k
    {
      LevelBound(g, start, target, maxHops, k, level[0]);
      assert k < bound;
      ghost var k0 := k;
      var stuck;
      stuck, level, paths, visited, packets := Round(g, start, target, maxHops, k, level, paths, visited, packets);
      if stuck.Some? {
        return Failure(MissingNode(stuck.value));
      }
      k := k + 1;
      assert 0 <= bound - k < bound - k0;
    }
    Finish(g, start, target, maxHops, k, paths, visited, packets);
    return Success((paths, packets));
  }

  /** When the queue runs dry, the outcome is final. */
  lemma Finish(g: Graph, start: NodeId, target: NodeId, maxHops: int, k: nat,
               paths: seq<seq<NodeId>>, visited: set<seq<NodeId>>, packets: nat)
    requires k <= Levels(maxHops) && FloodInv(g, start, target, maxHops, k, [], paths, visited, packets)
    ensures forall q :: Candidate(g, start, target, maxHops, q) ==> !Stuck(g, target, maxHops, q)
    ensures Found(g, start, target, maxHops, paths)
    ensures packets == Count(g, start, target, maxHops, Levels(maxHops))
  {
    assert Walks(g, start, target, maxHops, k) == {};
    Drained(g, start, target, maxHops, k, paths);
    DrainedSafe(g, start, target, maxHops, k);
    CountStays(g, start, target, maxHops, k, Levels(maxHops));
  }

  /** `flooding_paths(graph, start, target, max_hops)`: the paths found and
      the packet counter, or the node whose missing entry raises `KeyError`. */
  method FloodingPaths(g: Graph, start: NodeId, target: NodeId, maxHops: int)
    returns (r: Result<(seq<seq<NodeId>>, nat), Fault>)
    ensures start !in g || target !in g ==> r == Success(([], 0))
    ensures start in g && target in g ==>
              (r.Failure? <==> exists q :: Candidate(g, start, target, maxHops, q) && Stuck(g, target, maxHops, q))
    ensures r.Failure? ==> r.error.id !in g && exists u :: u in g && r.error.id in g[u]
    ensures Closed(g) ==> r.Success?
    ensures start in g && target in g && r.Success? ==>
              Found(g, start, target, maxHops, r.value.0) && r.value.1 == Count(g, start, target, maxHops, Levels(maxHops))
    ensures start in g && start == target ==> r == Success(([[start]], 1))
  {
    if start !in g || target !in g {
      return Success(([], 0));
    }
    r := Flood(g, start, target, maxHops);
    if r.Failure? {
      ghost var q :| Candidate(g, start, target, maxHops, q) && Stuck(g, target, maxHops, q) && Last(q) == r.error.id;
      assert Edge(g, q[|q| - 2], q[|q| - 1]);
    } else if start == target {
      SelfFlood(g, start, maxHops, r.value.0);
    }
  }
}
