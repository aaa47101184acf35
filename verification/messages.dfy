/** The JSON messages routers exchange (router.py), and what the second
    `send_message` does to them: it raises the message's hop count in place
    before publishing. A send is the destination channel paired with the
    message as published. */
module Messages {
  import opened Graphs

  /** The fields the handlers read. A field the source leaves out of a kind
      of message is filled with a neutral value (`""`, `0`, `map[]`) that no
      handler of that kind reads; `hops == 0` is the source's `get('hops', 0)`. */
  datatype Message = Message(
    kind: string,
    from: NodeId,
    to: NodeId,
    hops: nat,
    seqNum: int,
    neighbors: map<NodeId, nat>,
    payload: string)

  type Send = (NodeId, Message)

  /** `send_hello`'s message. */
  function Hello(from: NodeId): Message {
    Message("hello", from, "", 0, 0, map[], "ping")
  }

  /** `send_echo`'s message. */
  function Echo(from: NodeId, to: NodeId): Message {
    Message("echo", from, to, 0, 0, map[], "echo")
  }

  /** `flood_lsa`'s link-state advertisement. */
  function Info(from: NodeId, seqNum: int, neighbors: map<NodeId, nat>): Message {
    Message("info", from, "", 0, seqNum, neighbors, "")
  }

  /** `send_data`'s message. */
  function Data(from: NodeId, to: NodeId, content: string): Message {
    Message("message", from, to, 0, 0, map[], content)
  }

  /** The message after one more hop: what `send_message` publishes and
      leaves behind in the caller's dictionary. */
  function Hop(m: Message): (m': Message)
    ensures m'.hops == m.hops + 1
    ensures m' == m.(hops := m'.hops)
  {
    m.(hops := m.hops + 1)
  }

  /** The neighbours a broadcast reaches, in iteration order. */
  function Recipients(ns: seq<NodeId>, exclude: set<NodeId>): (rs: seq<NodeId>)
    ensures forall x :: x in rs <==> x in ns && x !in exclude
    ensures |rs| <= |ns|
    ensures NoDup(ns) ==> NoDup(rs)
  {
    if ns == [] then []
    else
      var rest := Recipients(ns[1..], exclude);
      assert NoDup(ns) ==> NoDup(ns[1..]) && ns[0] !in ns[1..];
      if ns[0] in exclude then rest else [ns[0]] + rest
  }

  /** `broadcast_to_neighbors(message, exclude)`: one `send_message` per
      neighbour not excluded, all on the same dictionary. */
  function Broadcast(ns: seq<NodeId>, m: Message, exclude: set<NodeId>): (sends: seq<Send>)
    ensures forall s :: s in sends ==> s.0 in ns && s.0 !in exclude
  {
    if ns == [] then []
    else if ns[0] in exclude then Broadcast(ns[1..], m, exclude)
    else [(ns[0], Hop(m))] + Broadcast(ns[1..], Hop(m), exclude)
  }

  /** The k-th copy of a broadcast goes to the k-th recipient and carries the
      original hop count plus k + 1, because every send raises the count in
      the one shared dictionary before publishing it. */
  lemma {:induction false} BroadcastHops(ns: seq<NodeId>, m: Message, exclude: set<NodeId>)
    ensures |Broadcast(ns, m, exclude)| == |Recipients(ns, exclude)|
    ensures forall k :: 0 <= k < |Broadcast(ns, m, exclude)| ==>
              Broadcast(ns, m, exclude)[k] == (Recipients(ns, exclude)[k], m.(hops := m.hops + k + 1))
  {
    if ns != [] {
      if ns[0] in exclude {
        BroadcastHops(ns[1..], m, exclude);
      } else {
        BroadcastHops(ns[1..], Hop(m), exclude);
        var sends := Broadcast(ns, m, exclude);
        var rs := Recipients(ns, exclude);
        forall k | 0 <= k < |sends|
          ensures sends[k] == (rs[k], m.(hops := m.hops + k + 1))
        {
          if k > 0 {
            assert sends[k] == Broadcast(ns[1..], Hop(m), exclude)[k - 1];
            assert rs[k] == Recipients(ns[1..], exclude)[k - 1];
          }
        }
      }
    }
  }

  /** The message each copy carries is the original with only the hop count changed. */
  lemma BroadcastSame(ns: seq<NodeId>, m: Message, exclude: set<NodeId>, s: Send)
    requires s in Broadcast(ns, m, exclude)
    ensures s.1 == m.(hops := s.1.hops) && s.1.hops > m.hops
  {
    BroadcastHops(ns, m, exclude);
    var k :| 0 <= k < |Broadcast(ns, m, exclude)| && Broadcast(ns, m, exclude)[k] == s;
  }

  /** `_send_hello_to_neighbors`: a fresh hello for each neighbour, in order. */
  function Hellos(from: NodeId, ns: seq<NodeId>): (sends: seq<Send>)
    ensures |sends| == |ns|
    ensures forall k :: 0 <= k < |ns| ==> sends[k] == (ns[k], Hop(Hello(from)))
  {
    if ns == [] then [] else [(ns[0], Hop(Hello(from)))] + Hellos(from, ns[1..])
  }

  /** `_send_echo_to_neighbors`: a fresh echo addressed to each neighbour, in order. */
  function Echoes(from: NodeId, ns: seq<NodeId>): (sends: seq<Send>)
    ensures |sends| == |ns|
    ensures forall k :: 0 <= k < |ns| ==> sends[k] == (ns[k], Hop(Echo(from, ns[k])))
  {
    if ns == [] then [] else [(ns[0], Hop(Echo(from, ns[0])))] + Echoes(from, ns[1..])
  }
}
