/** Python dictionaries keyed by node, with their insertion order: iterating
    `self.neighbors` decides who is sent to first (and so the hop count each
    copy of a broadcast carries), and iterating `self.neighbor_last_seen`
    decides the order in which dead neighbours are handled. */
module Dicts {
  import opened Graphs

  /** `keys` is the iteration order, `vals` the contents. */
  datatype Dict<V> = Dict(keys: seq<NodeId>, vals: map<NodeId, V>)

  /** The order lists every key exactly once. */
  predicate Valid<V>(d: Dict<V>) {
    NoDup(d.keys) && (forall k :: k in d.keys ==> k in d.vals) && forall k :: k in d.vals ==> k in d.keys
  }

  /** `{}` */
  function Empty<V>(): (d: Dict<V>)
    ensures Valid(d) && d.vals == map[]
  {
    Dict([], map[])
  }

  /** `d[k] = v`: an existing key keeps its place in the order, a new key goes last. */
  function Put<V>(d: Dict<V>, k: NodeId, v: V): (d': Dict<V>)
    requires Valid(d)
    ensures Valid(d')
    ensures k in d'.vals && d'.vals[k] == v
    ensures forall x :: x != k ==> (x in d'.vals <==> x in d.vals)
    ensures forall x :: x in d.vals && x != k ==> d'.vals[x] == d.vals[x]
    ensures |d'.keys| >= |d.keys| && d'.keys[..|d.keys|] == d.keys
  {
    if k in d.vals then Dict(d.keys, d.vals[k := v])
    else Dict(d.keys + [k], d.vals[k := v])
  }

  /** The sequence without any occurrence of `k`, the rest in order. */
  function Without(s: seq<NodeId>, k: NodeId): (s': seq<NodeId>)
    ensures forall x :: x in s' <==> x in s && x != k
    ensures NoDup(s) ==> NoDup(s')
    ensures |s'| <= |s|
  {
    if s == [] then []
    else if s[0] == k then Without(s[1..], k)
    else
      var rest := Without(s[1..], k);
      assert forall x :: x in rest ==> x in s[1..];
      assert NoDup(s) ==> NoDup(s[1..]) && s[0] !in s[1..];
      [s[0]] + rest
  }

  /** `del d[k]` (callers check membership first): the other keys keep their order. */
  function Remove<V>(d: Dict<V>, k: NodeId): (d': Dict<V>)
    requires Valid(d)
    ensures Valid(d')
    ensures k !in d'.vals
    ensures forall x :: x != k ==> (x in d'.vals <==> x in d.vals)
    ensures forall x :: x in d'.vals ==> d'.vals[x] == d.vals[x]
  {
    Dict(Without(d.keys, k), d.vals - {k})
  }

  /** Removing a key that is absent changes nothing. */
  lemma {:induction false} WithoutAbsent(s: seq<NodeId>, k: NodeId)
    requires k !in s
    ensures Without(s, k) == s
  {
    if s != [] {
      WithoutAbsent(s[1..], k);
      assert s == [s[0]] + s[1..];
    }
  }

  /** Removing a key keeps the relative order of the others: what is left is
      the old order with exactly that key's position cut out. */
  lemma {:induction false} WithoutCuts(s: seq<NodeId>, k: NodeId, i: nat)
    requires NoDup(s) && i < |s| && s[i] == k
    ensures Without(s, k) == s[..i] + s[i + 1..]
  {
    if i == 0 {
      assert k !in s[1..];
      WithoutAbsent(s[1..], k);
    } else {
      assert NoDup(s[1..]);
      WithoutCuts(s[1..], k, i - 1);
      assert s[1..][..i - 1] == s[1..i];
      assert s[1..][i..] == s[i + 1..];
      assert s[..i] == [s[0]] + s[1..i];
    }
  }

  /** `{n: v for n in ns}`: the first occurrence of each node fixes its place. */
  function FromList<V>(ns: seq<NodeId>, v: V): (d: Dict<V>)
    ensures Valid(d)
    ensures forall x :: x in d.vals <==> x in ns
    ensures forall x :: x in d.vals ==> d.vals[x] == v
    ensures |d.keys| <= |ns|
  {
    if ns == [] then Empty()
    else Put(FromList(ns[..|ns| - 1], v), ns[|ns| - 1], v)
  }

  /** A new key goes last. */
  lemma PutNew<V>(d: Dict<V>, k: NodeId, v: V)
    requires Valid(d) && k !in d.vals
    ensures Put(d, k, v).keys == d.keys + [k]
  {
  }

  /** Without repetitions in the list the order is the list itself. */
  lemma {:induction false} FromListOrder<V>(ns: seq<NodeId>, v: V)
    requires NoDup(ns)
    ensures FromList(ns, v).keys == ns
  {
    if ns != [] {
      var init, last := ns[..|ns| - 1], ns[|ns| - 1];
      assert NoDup(init);
      FromListOrder(init, v);
      assert last !in init;
      PutNew(FromList(init, v), last, v);
      assert init + [last] == ns;
    }
  }
}
