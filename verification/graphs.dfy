/** Weighted directed graphs as the routing code sees them: a dictionary from a
    node to the dictionary of its neighbours and link costs. */
module Graphs {

  /** Router identifiers are opaque strings compared by value. */
  type NodeId = string

  /** node -> (neighbour -> non-negative link cost) */
  type Graph = map<NodeId, map<NodeId, nat>>

  /** A path cost; `Infinite` stands for Python's `float('infinity')`. */
  datatype Cost = Fin(value: nat) | Infinite {

    /** Strict `<` on extended naturals: nothing is below `Infinite` but finite costs. */
    predicate Below(other: Cost) {
      Fin? && (other.Infinite? || value < other.value)
    }
  }

  /** `v` is a neighbour of `u`, and `u` is a node of `g`. */
  predicate Edge(g: Graph, u: NodeId, v: NodeId) {
    u in g && v in g[u]
  }

  /** Every neighbour named anywhere in `g` is itself a key of `g`. */
  predicate Closed(g: Graph) {
    forall u, v :: u in g && v in g[u] ==> v in g
  }

  /** A non-empty node sequence whose consecutive nodes are edges of `g`.
      The last node need not be a key of `g`. */
  predicate IsWalk(g: Graph, p: seq<NodeId>) {
    |p| >= 1 && (|p| == 1 || (Edge(g, p[0], p[1]) && IsWalk(g, p[1..])))
  }

  /** Sum of the link costs along a walk. */
  function Weight(g: Graph, p: seq<NodeId>): nat
    requires IsWalk(g, p)
  {
    if |p| == 1 then 0 else g[p[0]][p[1]] + Weight(g, p[1..])
  }

  /** No element occurs twice. */
  predicate NoDup<T(==)>(s: seq<T>) {
    forall i, j :: 0 <= i < j < |s| ==> s[i] != s[j]
  }

  /** Python's `KeyError` on `graph[x]` for a node `x` that is not a key. */
  datatype Fault = MissingNode(id: NodeId)

  function Last(p: seq<NodeId>): NodeId
    requires |p| > 0
  {
    p[|p| - 1]
  }

  /** The recursive walk definition agrees with the pointwise one. */
  lemma {:induction false} WalkPointwise(g: Graph, p: seq<NodeId>)
    requires |p| >= 1
    ensures IsWalk(g, p) <==> forall i :: 0 <= i < |p| - 1 ==> Edge(g, p[i], p[i + 1])
  {
    if |p| > 1 {
      WalkPointwise(g, p[1..]);
    }
  }

  /** Extending a walk by one edge at its end gives a walk, one link heavier. */
  lemma {:induction false} WalkSnoc(g: Graph, p: seq<NodeId>, x: NodeId)
    requires IsWalk(g, p) && Edge(g, Last(p), x)
    ensures IsWalk(g, p + [x])
    ensures Weight(g, p + [x]) == Weight(g, p) + g[Last(p)][x]
  {
    if |p| > 1 {
      assert (p + [x])[1..] == p[1..] + [x];
      WalkSnoc(g, p[1..], x);
    }
  }

  /** Every prefix of a walk is a walk. */
  lemma {:induction false} WalkPrefix(g: Graph, p: seq<NodeId>, k: nat)
    requires IsWalk(g, p) && 1 <= k <= |p|
    ensures IsWalk(g, p[..k])
  {
    if k > 1 {
      assert p[..k][1..] == p[1..][..k - 1];
      WalkPrefix(g, p[1..], k - 1);
    }
  }

  /** Python's iteration over the keys of a dictionary: every key once, in
      an order the model leaves open. */
  method Listing<T>(s: set<T>) returns (xs: seq<T>)
    ensures NoDup(xs) && forall x :: x in xs <==> x in s
  {
    xs := [];
    var rest := s;
    while rest != {}
      invariant NoDup(xs) && rest !! set x | x in xs
      invariant forall x :: x in s <==> x in xs || x in rest
      decreases |rest|
    {
      var x :| x in rest;
      xs := xs + [x];
      rest := rest - {x};
    }
  }
}
