/** router.py's `RouterNode` in link-state and flooding mode, as pure state
    transitions: every handler takes the router state (and the current time
    where the source reads the clock) and returns the new state with the
    messages it publishes, in order. */
module RouterNode {
  import opened Wrappers
  import opened Graphs
  import opened LinkStateDb
  import opened Dicts
  import opened Messages
  import opened RouteTable

  /** `timeout_threshold`, in seconds. */
  const TimeoutThreshold: int := 15
  /** `max_hops` for flooded data messages. */
  const MaxHops: nat := 50

  /** `algorithm`: the two values the constructor accepts. */
  datatype Mode = LinkState | Flooding

  /** The attributes the handlers read and write. `db` and `seqNum` exist
      only in link-state mode; in flooding mode they stay empty and zero. The
      routing table is not stored: every reader rebuilds it first. */
  datatype Router = Router(
    id: NodeId,
    mode: Mode,
    neighbors: Dict<nat>,
    lastSeen: Dict<int>,
    known: set<NodeId>,
    db: Db,
    seqNum: int)

  /** Both dictionaries are well formed. */
  predicate Wf(r: Router) {
    Dicts.Valid(r.neighbors) && Dicts.Valid(r.lastSeen)
  }

  /** What the constructor sets up and every handler keeps: each active
      neighbour is monitored and remembered. */
  ghost predicate Consistent(r: Router) {
    && Wf(r)
    && (forall n :: n in r.neighbors.vals ==> n in r.lastSeen.vals)
    && (forall n :: n in r.neighbors.vals ==> n in r.known)
  }

  /** In link-state mode the router's own entry is its latest advertisement
      of its current neighbours: the source stores the `self.neighbors`
      dictionary itself there, so the entry follows every change to it. */
  ghost predicate Advertised(r: Router) {
    r.mode == LinkState ==> r.id in r.db && r.db[r.id] == Entry(r.seqNum, r.neighbors.vals)
  }

  /** The router's own entry is not ahead of its sequence number. */
  ghost predicate OwnBound(r: Router) {
    r.mode == LinkState ==> r.id in r.db && r.db[r.id].seqNum <= r.seqNum
  }

  /** Only the database and the sequence number differ. */
  ghost predicate SameLinks(r: Router, r': Router) {
    && r'.id == r.id && r'.mode == r.mode
    && r'.neighbors == r.neighbors && r'.lastSeen == r.lastSeen && r'.known == r.known
  }

  // ---------------------------------------------------------------------------
  // Sending

  /** `get_known_nodes`, or `None` where it raises `AttributeError`: in
      link-state mode it reads the database, which exists only once
      `_init_link_state` has run (`dbCreated`). */
  function KnownNodes(r: Router, dbCreated: bool): (s: Option<set<NodeId>>)
    ensures s.None? <==> r.mode == LinkState && !dbCreated
    ensures s.Some? ==> forall x :: x in s.value <==> x == r.id || x in r.neighbors.vals || (r.mode == LinkState && x in r.db)
  {
    if r.mode == LinkState && !dbCreated then None
    else Some((if r.mode == LinkState then r.db.Keys else {}) + {r.id} + r.neighbors.vals.Keys)
  }

  /** What a run of `send_message` calls from `r` publishes. Each call looks
      the destination up among the known nodes, only to warn about an
      unknown one; when that lookup raises, the call's `except` swallows the
      error before `publish`, so nothing goes out. */
  function Published(r: Router, dbCreated: bool, sends: seq<Send>): (out: seq<Send>)
    ensures out == (if r.mode == LinkState && !dbCreated then [] else sends)
  {
    if KnownNodes(r, dbCreated).None? then [] else sends
  }

  /** Once the database exists, every copy of a broadcast goes to a known
      node, so the unknown-destination warning never fires for one. */
  lemma BroadcastKnown(r: Router, m: Message, exclude: set<NodeId>)
    requires Wf(r)
    ensures forall s :: s in Broadcast(r.neighbors.keys, m, exclude) ==> s.0 in KnownNodes(r, true).value
  {
  }

  // ---------------------------------------------------------------------------
  // Construction

  /** `_init_link_state`'s database before its first flood: the router's own
      entry and, for every neighbour, an entry naming the router at that
      link's cost. A neighbour equal to the router overwrites the own entry,
      as the source's loop does. */
  function InitDb(id: NodeId, nbrs: map<NodeId, nat>): (db: Db)
    ensures db.Keys == nbrs.Keys + {id}
    ensures forall n :: n in nbrs ==> db[n] == Entry(0, map[id := nbrs[n]])
    ensures id !in nbrs ==> db[id] == Entry(0, nbrs)
  {
    map n | n in nbrs.Keys + {id} :: if n in nbrs then Entry(0, map[id := nbrs[n]]) else Entry(0, nbrs)
  }

  /** `ValueError` for an unknown algorithm, raised after the hellos went out. */
  datatype CreateError = UnknownAlgorithm(name: string, sent: seq<Send>)

  /** The attributes `__init__` sets before saying hello: every listed
      neighbour active at cost 1, seen at `now` and remembered. */
  function Start(id: NodeId, neighbors: seq<NodeId>, mode: Mode, now: int): (r: Router)
    ensures Consistent(r) && r.id == id && r.mode == mode && r.db == map[] && r.seqNum == 0
    ensures forall n :: n in r.neighbors.vals <==> n in neighbors
    ensures forall n :: n in r.neighbors.vals ==> r.neighbors.vals[n] == 1 && r.lastSeen.vals[n] == now
    ensures forall n :: n in r.known <==> n in neighbors
  {
    Router(id, mode, FromList<nat>(neighbors, 1), FromList(neighbors, now), set n | n in neighbors, map[], 0)
  }

  /** `RouterNode(node_id, neighbors, redis_config, algorithm)` at time `now`.
      The hellos are sent before `_init_link_state` creates the database, so
      in link-state mode none of them is published. */
  function Create(id: NodeId, neighbors: seq<NodeId>, algorithm: string, now: int)
    : (res: Result<(Router, seq<Send>), CreateError>)
    ensures algorithm != "link_state" && algorithm != "flooding" <==> res.Failure?
    ensures res.Success? ==> Wf(res.value.0) && res.value.0.id == id
    ensures res.Success? ==> (res.value.0.mode == LinkState <==> algorithm == "link_state")
  {
    var r0 := Start(id, neighbors, if algorithm == "link_state" then LinkState else Flooding, now);
    var hellos := Published(r0, false, Hellos(id, r0.neighbors.keys));
    if algorithm == "link_state" then
      var (r, flood) := FloodLsa(r0.(db := InitDb(id, r0.neighbors.vals)));
      Success((r, hellos + flood))
    else if algorithm != "flooding" then Failure(UnknownAlgorithm(algorithm, hellos))
    else Success((r0, hellos))
  }

  /** An unknown algorithm raises, after the hellos went out. */
  lemma CreateFails(id: NodeId, neighbors: seq<NodeId>, algorithm: string, now: int)
    requires algorithm != "link_state" && algorithm != "flooding"
    ensures Create(id, neighbors, algorithm, now) == Failure(UnknownAlgorithm(algorithm, Hellos(id, FromList<nat>(neighbors, 1).keys)))
  {
  }

  /** Every router starts with each listed neighbour active at cost 1, seen
      at `now` and remembered; in flooding mode it sends exactly its hellos. */
  lemma CreateLinks(id: NodeId, neighbors: seq<NodeId>, algorithm: string, now: int)
    requires algorithm == "link_state" || algorithm == "flooding"
    ensures var (r, sends) := Create(id, neighbors, algorithm, now).value;
            && Consistent(r)
            && (forall n :: n in r.neighbors.vals <==> n in neighbors)
            && (forall n :: n in r.neighbors.vals ==> r.neighbors.vals[n] == 1 && r.lastSeen.vals[n] == now)
            && (forall n :: n in r.known <==> n in neighbors)
            && (algorithm == "flooding" ==> sends == Hellos(id, FromList<nat>(neighbors, 1).keys))
  {
  }

  /** In link-state mode the constructor publishes only its first flood. */
  lemma CreateLinkStateFlood(id: NodeId, neighbors: seq<NodeId>, now: int)
    ensures var r0 := Start(id, neighbors, LinkState, now);
            Create(id, neighbors, "link_state", now) == Success(FloodLsa(r0.(db := InitDb(id, r0.neighbors.vals))))
  {
    var r0 := Start(id, neighbors, LinkState, now);
    var flood := FloodLsa(r0.(db := InitDb(id, r0.neighbors.vals))).1;
    assert [] + flood == flood;
  }

  /** In link-state mode the constructor's first flood leaves sequence number
      1 and stores the router's own advertisement. */
  lemma CreateLinkState(id: NodeId, neighbors: seq<NodeId>, now: int)
    ensures var r := Create(id, neighbors, "link_state", now).value.0;
            Advertised(r) && r.seqNum == 1
  {
    CreateLinkStateFlood(id, neighbors, now);
  }

  /** In link-state mode the new database has an entry for the router and
      each neighbour, and each neighbour's entry names the router at cost 1. */
  lemma CreateLinkStateDb(id: NodeId, neighbors: seq<NodeId>, now: int)
    ensures var r := Create(id, neighbors, "link_state", now).value.0;
            && r.db.Keys == (set n | n in neighbors) + {id}
            && (forall n :: n in r.db && n != id ==> r.db[n] == Entry(0, map[id := 1]))
  {
    CreateLinkStateFlood(id, neighbors, now);
  }

  /** In link-state mode the constructor publishes one advertisement for each
      neighbour and nothing else: every hello was lost before the database
      existed. */
  lemma CreateLinkStateSends(id: NodeId, neighbors: seq<NodeId>, now: int)
    ensures var (r, sends) := Create(id, neighbors, "link_state", now).value;
            sends == Broadcast(r.neighbors.keys, Info(id, 1, r.neighbors.vals), {})
  {
    CreateLinkStateFlood(id, neighbors, now);
  }

  /** In flooding mode the constructor only says hello. */
  lemma CreateFlooding(id: NodeId, neighbors: seq<NodeId>, now: int)
    ensures Create(id, neighbors, "flooding", now).value.1 == Hellos(id, FromList<nat>(neighbors, 1).keys)
    ensures Create(id, neighbors, "flooding", now).value.0.db == map[]
  {
  }

  // ---------------------------------------------------------------------------
  // Link-state advertisements

  /** `flood_lsa`: in link-state mode, raise the sequence number, store the
      new advertisement as the own entry and send it to every active
      neighbour; in flooding mode, nothing. */
  function FloodLsa(r: Router): (out: (Router, seq<Send>))
    ensures r.mode == Flooding ==> out == (r, [])
    ensures SameLinks(r, out.0)
    ensures r.mode == LinkState ==>
              && out.0.seqNum == r.seqNum + 1
              && Advertised(out.0)
              && out.0.db.Keys == r.db.Keys + {r.id}
              && (forall n :: n in r.db && n != r.id ==> out.0.db[n] == r.db[n])
              && out.1 == Broadcast(r.neighbors.keys, Info(r.id, out.0.seqNum, r.neighbors.vals), {})
  {
    if r.mode != LinkState then (r, [])
    else
      var seqNum := r.seqNum + 1;
      (r.(seqNum := seqNum, db := r.db[r.id := Entry(seqNum, r.neighbors.vals)]),
       Broadcast(r.neighbors.keys, Info(r.id, seqNum, r.neighbors.vals), {}))
  }

  /** The advertisement tells the router something: it is newer than the
      stored entry of its source, or it names a node, other than the router,
      that the database lacks. */
  predicate Learns(db: Db, id: NodeId, lsa: Message) {
    Accepts(db, lsa.from, lsa.seqNum) || exists n :: n in lsa.neighbors && n != id && n !in db
  }

  /** `process_lsa`'s database: the accepted advertisement, then a
      placeholder for every newly named node other than the router. */
  function LsaDb(db: Db, id: NodeId, lsa: Message): (db': Db)
    ensures forall n :: n in db' <==> n in db || (n == lsa.from && Accepts(db, lsa.from, lsa.seqNum))
                                      || (n in lsa.neighbors && n != id)
    ensures Accepts(db, lsa.from, lsa.seqNum) ==> db'[lsa.from] == Entry(lsa.seqNum, lsa.neighbors)
    ensures !Accepts(db, lsa.from, lsa.seqNum) ==> db'[lsa.from] == db[lsa.from]
    ensures forall n :: n in db && n != lsa.from ==> db'[n] == db[n]
    ensures forall n :: n in db' && n !in db && n != lsa.from ==> db'[n] == Entry(-1, map[lsa.from := 1])
  {
    var stored := if Accepts(db, lsa.from, lsa.seqNum) then db[lsa.from := Entry(lsa.seqNum, lsa.neighbors)] else db;
    stored + map n | n in lsa.neighbors && n != id && n !in stored :: Entry(-1, map[lsa.from := 1])
  }

  /** An advertisement that teaches nothing leaves the database as it was. */
  lemma LsaDbStale(db: Db, id: NodeId, lsa: Message)
    requires !Learns(db, id, lsa)
    ensures LsaDb(db, id, lsa) == db
  {
  }

  /** `process_lsa`: store a newer advertisement, add a placeholder for every
      newly named node, and forward the advertisement to the other active
      neighbours when anything was learned. Ignored in flooding mode. */
  function ProcessLsa(r: Router, lsa: Message): (out: (Router, seq<Send>))
    ensures SameLinks(r, out.0) && out.0.seqNum == r.seqNum
    ensures r.mode == Flooding ==> out == (r, [])
    ensures r.mode == LinkState ==> out.0.db == LsaDb(r.db, r.id, lsa)
    ensures r.mode == LinkState ==>
              out.1 == if Learns(r.db, r.id, lsa) then Broadcast(r.neighbors.keys, lsa, {lsa.from}) else []
  {
    if r.mode != LinkState then (r, [])
    else if Learns(r.db, r.id, lsa) then (r.(db := LsaDb(r.db, r.id, lsa)), Broadcast(r.neighbors.keys, lsa, {lsa.from}))
    else (r.(db := LsaDb(r.db, r.id, lsa)), [])
  }

  /** A stale advertisement naming only known nodes changes nothing and is not forwarded. */
  lemma ProcessLsaStale(r: Router, lsa: Message)
    requires !Learns(r.db, r.id, lsa)
    ensures ProcessLsa(r, lsa) == (r, [])
  {
    LsaDbStale(r.db, r.id, lsa);
  }

  /** A forwarded advertisement reaches exactly the active neighbours other
      than its source, each copy one hop further than the last. */
  lemma ProcessLsaForwards(r: Router, lsa: Message)
    requires r.mode == LinkState && Learns(r.db, r.id, lsa)
    ensures var sends := ProcessLsa(r, lsa).1;
            && |sends| == |Recipients(r.neighbors.keys, {lsa.from})|
            && forall k :: 0 <= k < |sends| ==>
                 sends[k] == (Recipients(r.neighbors.keys, {lsa.from})[k], lsa.(hops := lsa.hops + k + 1))
  {
    BroadcastHops(r.neighbors.keys, lsa, {lsa.from});
  }

  /** `build_network_graph` of the router's database. */
  function Topology(r: Router): (g: Graph)
    ensures g.Keys == r.db.Keys && forall n :: n in g ==> g[n] == r.db[n].neighbors
  {
    NetworkGraph(r.db)
  }

  // ---------------------------------------------------------------------------
  // Neighbour liveness

  /** `_handle_new_neighbor`: a new neighbour gets cost 1 (a known one keeps
      its cost), is monitored from `now` and remembered; in link-state mode
      the sequence number rises twice, once for the stored entry and once
      for the flood that follows. */
  function HandleNewNeighbor(r: Router, n: NodeId, now: int): (out: (Router, seq<Send>))
    requires Wf(r)
    ensures Wf(out.0) && out.0.id == r.id && out.0.mode == r.mode && out.0.known == r.known + {n}
    ensures n in out.0.neighbors.vals && n in out.0.lastSeen.vals && out.0.lastSeen.vals[n] == now
  {
    var nbrs := if n !in r.neighbors.vals then Put(r.neighbors, n, 1) else r.neighbors;
    var r1 := r.(neighbors := nbrs, lastSeen := Put(r.lastSeen, n, now), known := r.known + {n});
    if r.mode == LinkState then
      FloodLsa(r1.(seqNum := r1.seqNum + 1, db := r1.db[r.id := Entry(r1.seqNum + 1, nbrs.vals)]))
    else (r1, [])
  }

  /** The new neighbour's cost is 1 only if it was absent; every other
      neighbour, and every other last-seen time, is untouched. */
  lemma NewNeighborLinks(r: Router, n: NodeId, now: int)
    requires Wf(r)
    ensures var r' := HandleNewNeighbor(r, n, now).0;
            && r'.neighbors.vals[n] == (if n in r.neighbors.vals then r.neighbors.vals[n] else 1)
            && (forall x :: x != n ==> (x in r'.neighbors.vals <==> x in r.neighbors.vals))
            && (forall x :: x in r.neighbors.vals && x != n ==> r'.neighbors.vals[x] == r.neighbors.vals[x])
            && (forall x :: x != n ==> (x in r'.lastSeen.vals <==> x in r.lastSeen.vals))
            && (forall x :: x in r.lastSeen.vals && x != n ==> r'.lastSeen.vals[x] == r.lastSeen.vals[x])
            && (Consistent(r) ==> Consistent(r'))
  {
  }

  /** In link-state mode the sequence number rises by two, the own entry
      advertises the new neighbour set, and that advertisement goes to every
      active neighbour, the new one included; no other entry changes. */
  lemma NewNeighborLinkState(r: Router, n: NodeId, now: int)
    requires Wf(r) && r.mode == LinkState
    ensures var (r', sends) := HandleNewNeighbor(r, n, now);
            && r'.seqNum == r.seqNum + 2 && Advertised(r')
            && r'.db.Keys == r.db.Keys + {r.id}
            && (forall x :: x in r.db && x != r.id ==> r'.db[x] == r.db[x])
            && sends == Broadcast(r'.neighbors.keys, Info(r.id, r'.seqNum, r'.neighbors.vals), {})
  {
  }

  /** In flooding mode only the neighbour bookkeeping changes. */
  lemma NewNeighborFlooding(r: Router, n: NodeId, now: int)
    requires Wf(r) && r.mode == Flooding
    ensures var (r', sends) := HandleNewNeighbor(r, n, now);
            sends == [] && r'.seqNum == r.seqNum && r'.db == r.db
  {
  }

  /** `_handle_neighbor_failure`: stop using and monitoring the neighbour but
      remember it; in link-state mode store the own entry at the current
      sequence number, raise it, and flood (two raises in all). */
  function HandleNeighborFailure(r: Router, n: NodeId): (out: (Router, seq<Send>))
    requires Wf(r)
    ensures Wf(out.0) && out.0.id == r.id && out.0.mode == r.mode && out.0.known == r.known
    ensures n !in out.0.neighbors.vals && n !in out.0.lastSeen.vals
  {
    var nbrs := if n in r.neighbors.vals then Remove(r.neighbors, n) else r.neighbors;
    var seen := if n in r.lastSeen.vals then Remove(r.lastSeen, n) else r.lastSeen;
    var r1 := r.(neighbors := nbrs, lastSeen := seen);
    if r.mode == LinkState then
      FloodLsa(r1.(db := r1.db[r.id := Entry(r1.seqNum, nbrs.vals)], seqNum := r1.seqNum + 1))
    else (r1, [])
  }

  /** Failure removes the neighbour from the active and the monitored
      neighbours and nothing else from either. */
  lemma FailureLinks(r: Router, n: NodeId)
    requires Wf(r)
    ensures var r' := HandleNeighborFailure(r, n).0;
            && (forall x :: x in r'.neighbors.vals <==> x in r.neighbors.vals && x != n)
            && (forall x :: x in r'.neighbors.vals ==> r'.neighbors.vals[x] == r.neighbors.vals[x])
            && (forall x :: x in r'.lastSeen.vals <==> x in r.lastSeen.vals && x != n)
            && (forall x :: x in r'.lastSeen.vals ==> r'.lastSeen.vals[x] == r.lastSeen.vals[x])
            && (Consistent(r) ==> Consistent(r'))
  {
  }

  /** In link-state mode failure raises the sequence number by two, even
      for a node that was not an active neighbour, and floods the new
      neighbour set; no other entry changes. */
  lemma FailureLinkState(r: Router, n: NodeId)
    requires Wf(r) && r.mode == LinkState
    ensures var (r', sends) := HandleNeighborFailure(r, n);
            && r'.seqNum == r.seqNum + 2 && Advertised(r')
            && r'.db.Keys == r.db.Keys + {r.id}
            && (forall x :: x in r.db && x != r.id ==> r'.db[x] == r.db[x])
            && sends == Broadcast(r'.neighbors.keys, Info(r.id, r'.seqNum, r'.neighbors.vals), {})
  {
  }

  /** In flooding mode only the neighbour bookkeeping changes. */
  lemma FailureFlooding(r: Router, n: NodeId)
    requires Wf(r) && r.mode == Flooding
    ensures var (r', sends) := HandleNeighborFailure(r, n);
            sends == [] && r'.seqNum == r.seqNum && r'.db == r.db
  {
  }

  /** `process_hello`: note the sender as seen now and remembered, and treat
      it as a new neighbour when it is not an active one. */
  function ProcessHello(r: Router, m: Message, now: int): (out: (Router, seq<Send>))
    requires Wf(r)
    ensures Wf(out.0) && out.0.id == r.id && out.0.mode == r.mode && out.0.known == r.known + {m.from}
    ensures m.from in out.0.neighbors.vals && m.from in out.0.lastSeen.vals && out.0.lastSeen.vals[m.from] == now
  {
    var r1 := r.(lastSeen := Put(r.lastSeen, m.from, now), known := r.known + {m.from});
    if m.from !in r.neighbors.vals then HandleNewNeighbor(r1, m.from, now) else (r1, [])
  }

  /** A hello from an active neighbour only refreshes its last-seen time. */
  lemma HelloKnown(r: Router, m: Message, now: int)
    requires Wf(r) && m.from in r.neighbors.vals
    ensures var (r', sends) := ProcessHello(r, m, now);
            && sends == [] && r'.neighbors == r.neighbors && r'.db == r.db && r'.seqNum == r.seqNum
            && (forall x :: x != m.from ==> (x in r'.lastSeen.vals <==> x in r.lastSeen.vals))
            && (Consistent(r) ==> Consistent(r'))
  {
  }

  /** A hello from anyone else is handled as a new neighbour. */
  lemma HelloNew(r: Router, m: Message, now: int)
    requires Wf(r) && m.from !in r.neighbors.vals
    ensures ProcessHello(r, m, now)
              == HandleNewNeighbor(r.(lastSeen := Put(r.lastSeen, m.from, now), known := r.known + {m.from}), m.from, now)
    ensures Consistent(r) ==> Consistent(ProcessHello(r, m, now).0)
  {
    NewNeighborLinks(r.(lastSeen := Put(r.lastSeen, m.from, now), known := r.known + {m.from}), m.from, now);
  }

  /** `process_echo`: a sender that is not an active neighbour becomes one;
      either way a hello goes back to it, last. An echo from an active
      neighbour does not refresh its last-seen time. */
  function ProcessEcho(r: Router, m: Message, now: int): (out: (Router, seq<Send>))
    requires Wf(r)
    ensures Wf(out.0) && out.0.id == r.id && out.0.mode == r.mode
    ensures m.from in out.0.neighbors.vals
    ensures |out.1| >= 1 && out.1[|out.1| - 1] == (m.from, Hop(Hello(r.id)))
  {
    var (r1, sends) := if m.from !in r.neighbors.vals then HandleNewNeighbor(r, m.from, now) else (r, []);
    (r1, sends + [(m.from, Hop(Hello(r.id)))])
  }

  /** An echo from an active neighbour changes nothing and is answered with a hello. */
  lemma EchoKnown(r: Router, m: Message, now: int)
    requires Wf(r) && m.from in r.neighbors.vals
    ensures ProcessEcho(r, m, now) == (r, [(m.from, Hop(Hello(r.id)))])
  {
    assert [] + [(m.from, Hop(Hello(r.id)))] == [(m.from, Hop(Hello(r.id)))];
  }

  /** An echo from anyone else is handled as a new neighbour, whose sends
      come before the hello. */
  lemma EchoNew(r: Router, m: Message, now: int)
    requires Wf(r) && m.from !in r.neighbors.vals
    ensures var (r', sends) := ProcessEcho(r, m, now);
            && r' == HandleNewNeighbor(r, m.from, now).0
            && sends == HandleNewNeighbor(r, m.from, now).1 + [(m.from, Hop(Hello(r.id)))]
    ensures Consistent(r) ==> Consistent(ProcessEcho(r, m, now).0)
  {
    NewNeighborLinks(r, m.from, now);
  }

  /** The neighbours `_monitor_neighbors` declares dead at `now`, in the
      order of the last-seen dictionary. */
  function Dead(r: Router, ns: seq<NodeId>, now: int): (dead: seq<NodeId>)
    requires forall x :: x in ns ==> x in r.lastSeen.vals
    ensures forall x :: x in dead <==> x in ns && now - r.lastSeen.vals[x] > TimeoutThreshold && x in r.neighbors.vals
    ensures NoDup(ns) ==> NoDup(dead)
  {
    if ns == [] then []
    else
      var rest := Dead(r, ns[1..], now);
      assert NoDup(ns) ==> NoDup(ns[1..]) && ns[0] !in ns[1..];
      if now - r.lastSeen.vals[ns[0]] > TimeoutThreshold && ns[0] in r.neighbors.vals then [ns[0]] + rest else rest
  }

  /** `_handle_neighbor_failure` for each node in turn. */
  function FailAll(r: Router, dead: seq<NodeId>): (out: (Router, seq<Send>))
    requires Wf(r)
    ensures Wf(out.0) && out.0.id == r.id && out.0.mode == r.mode && out.0.known == r.known
    decreases |dead|
  {
    if dead == [] then (r, [])
    else
      var (r1, s1) := HandleNeighborFailure(r, dead[0]);
      var (r2, s2) := FailAll(r1, dead[1..]);
      (r2, s1 + s2)
  }

  /** Handling a list of failures removes exactly the listed nodes from the
      active and the monitored neighbours, and keeps the invariant. */
  lemma {:induction false} FailAllLinks(r: Router, dead: seq<NodeId>)
    requires Wf(r)
    ensures var r' := FailAll(r, dead).0;
            && (forall x :: x in r'.neighbors.vals <==> x in r.neighbors.vals && x !in dead)
            && (forall x :: x in r'.lastSeen.vals <==> x in r.lastSeen.vals && x !in dead)
            && (forall x :: x in r'.lastSeen.vals ==> r'.lastSeen.vals[x] == r.lastSeen.vals[x])
            && (Consistent(r) ==> Consistent(r'))
    decreases |dead|
  {
    if dead != [] {
      var r1 := HandleNeighborFailure(r, dead[0]).0;
      FailureLinks(r, dead[0]);
      FailAllLinks(r1, dead[1..]);
    }
  }

  /** Each failure raises the sequence number by two in link-state mode and
      keeps the own entry advertised; in flooding mode nothing is sent. */
  lemma {:induction false} FailAllSeq(r: Router, dead: seq<NodeId>)
    requires Wf(r)
    ensures var (r', sends) := FailAll(r, dead);
            && r'.seqNum == r.seqNum + (if r.mode == LinkState then 2 * |dead| else 0)
            && (Advertised(r) ==> Advertised(r'))
            && (r.mode == Flooding ==> sends == [] && r'.db == r.db)
    decreases |dead|
  {
    if dead != [] {
      var r1 := HandleNeighborFailure(r, dead[0]).0;
      if r.mode == LinkState {
        FailureLinkState(r, dead[0]);
      } else {
        FailureFlooding(r, dead[0]);
      }
      FailAllSeq(r1, dead[1..]);
    }
  }

  /** One round of `_monitor_neighbors` at time `now`: handle every timed-out
      active neighbour, then send an echo to each neighbour still active. */
  function MonitorTick(r: Router, now: int): (out: (Router, seq<Send>))
    requires Wf(r) && forall x :: x in r.lastSeen.keys ==> x in r.lastSeen.vals
    ensures Wf(out.0) && out.0.id == r.id && out.0.mode == r.mode && out.0.known == r.known
    ensures |out.1| >= |out.0.neighbors.keys|
    ensures out.1[|out.1| - |out.0.neighbors.keys|..] == Echoes(r.id, out.0.neighbors.keys)
  {
    var dead := Dead(r, r.lastSeen.keys, now);
    var (r1, failures) := FailAll(r, dead);
    var echoes := Echoes(r.id, r1.neighbors.keys);
    assert (failures + echoes)[|failures + echoes| - |echoes|..] == echoes;
    (r1, failures + echoes)
  }

  /** A neighbour is declared dead iff it is active and has not been seen
      for longer than the timeout; the dead leave the active and monitored
      neighbours but stay remembered. */
  lemma MonitorLiveness(r: Router, now: int)
    requires Consistent(r)
    ensures var r' := MonitorTick(r, now).0;
            && Consistent(r')
            && (forall x :: x in r'.neighbors.vals <==>
                  x in r.neighbors.vals && now - r.lastSeen.vals[x] <= TimeoutThreshold)
            && (forall x :: x in r'.lastSeen.vals <==>
                  x in r.lastSeen.vals && !(x in r.neighbors.vals && now - r.lastSeen.vals[x] > TimeoutThreshold))
            && r'.known == r.known
  {
    FailAllLinks(r, Dead(r, r.lastSeen.keys, now));
  }

  /** The dead are handled one by one: in link-state mode each raises the
      sequence number by two, and the own entry stays advertised. */
  lemma MonitorSeq(r: Router, now: int)
    requires Wf(r)
    ensures var r' := MonitorTick(r, now).0;
            && r'.seqNum == r.seqNum + (if r.mode == LinkState then 2 * |Dead(r, r.lastSeen.keys, now)| else 0)
            && (Advertised(r) ==> Advertised(r'))
            && (r.mode == Flooding ==> r'.db == r.db)
  {
    FailAllSeq(r, Dead(r, r.lastSeen.keys, now));
  }

  // ---------------------------------------------------------------------------
  // Data messages

  /** `get_next_hop(destination)`, given `dijkstra_all`'s answer `t` for the
      current network graph: the next hop of the destination's row of the
      freshly built routing table; `None` in flooding mode. */
  function NextHop(r: Router, t: Tree, ghost rank: map<NodeId, nat>, dest: NodeId): (h: Option<NodeId>)
    requires Ranked(t.preds, rank)
    ensures r.mode == Flooding ==> h.None?
    ensures r.mode == LinkState ==>
              (h.Some? <==> dest in RoutingTable(Topology(r), r.id, t, rank))
    ensures h.Some? ==>
              && dest in r.db && dest != r.id && h.value != ""
              && dest in t.dists && t.dists[dest].Fin?
              && h.value in t.preds && t.preds[h.value] == r.id
  {
    if r.mode == LinkState then
      var table := RoutingTable(Topology(r), r.id, t, rank);
      if dest in table then Some(table[dest].nextHop) else None
    else None
  }

  /** `send_data(destination, content)`: in link-state mode one copy to the
      next hop, or `False` and nothing sent when there is no route; in
      flooding mode a copy to every active neighbour. */
  function SendData(r: Router, dest: NodeId, content: string, t: Tree, ghost rank: map<NodeId, nat>): (out: (bool, seq<Send>))
    requires Ranked(t.preds, rank)
    ensures !out.0 <==> r.mode == LinkState && NextHop(r, t, rank, dest).None?
    ensures !out.0 ==> out.1 == []
    ensures out.0 && r.mode == LinkState ==>
              out.1 == [(NextHop(r, t, rank, dest).value, Hop(Data(r.id, dest, content)))]
    ensures r.mode == Flooding ==> out.1 == Broadcast(r.neighbors.keys, Data(r.id, dest, content), {})
  {
    var msg := Data(r.id, dest, content);
    if r.mode == LinkState then
      var h := NextHop(r, t, rank, dest);
      if !Truthy(h) then (false, []) else (true, [(h.value, Hop(msg))])
    else (true, Broadcast(r.neighbors.keys, msg, {}))
  }

  /** `process_data_message`: deliver a message addressed to the router;
      otherwise forward it along the routing table (link-state mode), or
      flood it (flooding mode): dropped past the hop limit, sent straight to
      its destination when that is an active neighbour, and otherwise to
      every active neighbour but its original sender. */
  function ProcessData(r: Router, m: Message, t: Tree, ghost rank: map<NodeId, nat>): (sends: seq<Send>)
    requires Ranked(t.preds, rank)
    ensures m.to == r.id ==> sends == []
    ensures m.to != r.id && r.mode == LinkState ==>
              && (sends != [] <==> NextHop(r, t, rank, m.to).Some?)
              && (sends != [] ==> sends == [(NextHop(r, t, rank, m.to).value, Hop(m))])
    ensures r.mode == Flooding && m.hops > MaxHops ==> sends == []
    ensures m.to != r.id && r.mode == Flooding && m.hops <= MaxHops && m.to in r.neighbors.vals ==>
              sends == [(m.to, Hop(m))]
    ensures m.to != r.id && r.mode == Flooding && m.hops <= MaxHops && m.to !in r.neighbors.vals ==>
              sends == Broadcast(r.neighbors.keys, m, {m.from})
  {
    if m.to == r.id then []
    else if r.mode == LinkState then
      var h := NextHop(r, t, rank, m.to);
      if Truthy(h) then [(h.value, Hop(m))] else []
    else if m.hops > MaxHops then []
    else if m.to in r.neighbors.vals then [(m.to, Hop(m))]
    else Broadcast(r.neighbors.keys, m, {m.from})
  }

  /** A flooded data message that is not for a neighbour reaches every
      active neighbour except its original sender, each copy one hop further. */
  lemma DataFloods(r: Router, m: Message, t: Tree, rank: map<NodeId, nat>)
    requires Ranked(t.preds, rank)
    requires m.to != r.id && r.mode == Flooding && m.hops <= MaxHops && m.to !in r.neighbors.vals
    ensures var sends := ProcessData(r, m, t, rank);
            && |sends| == |Recipients(r.neighbors.keys, {m.from})|
            && (forall x :: x in Recipients(r.neighbors.keys, {m.from}) <==> x in r.neighbors.keys && x != m.from)
            && forall k :: 0 <= k < |sends| ==>
                 sends[k] == (Recipients(r.neighbors.keys, {m.from})[k], m.(hops := m.hops + k + 1))
  {
    BroadcastHops(r.neighbors.keys, m, {m.from});
  }

  /** `process_message`: dispatch on the message type. Data messages and
      unknown types leave the state alone. */
  function ProcessMessage(r: Router, m: Message, now: int, t: Tree, ghost rank: map<NodeId, nat>): (out: (Router, seq<Send>))
    requires Wf(r) && Ranked(t.preds, rank)
    ensures Wf(out.0) && out.0.id == r.id && out.0.mode == r.mode
    ensures m.kind !in {"info", "hello", "echo"} ==> out.0 == r
    ensures m.kind !in {"info", "message", "hello", "echo"} ==> out.1 == []
  {
    if m.kind == "info" then ProcessLsa(r, m)
    else if m.kind == "message" then (r, ProcessData(r, m, t, rank))
    else if m.kind == "hello" then ProcessHello(r, m, now)
    else if m.kind == "echo" then ProcessEcho(r, m, now)
    else (r, [])
  }

  // ---------------------------------------------------------------------------
  // Invariants across all handlers

  /** What every reachable router state satisfies. */
  ghost predicate Inv(r: Router) {
    Consistent(r) && Advertised(r)
  }

  /** An advertisement carrying the router's own name is not ahead of the
      router. One that is (a copy from an earlier run of a router with the
      same name) would be stored as the own entry and then lowered again by
      the next failure handling, which stores the own entry at the current
      sequence number. */
  predicate Honest(r: Router, m: Message) {
    m.kind == "info" && m.from == r.id ==> m.seqNum <= r.seqNum
  }

  /** `process_lsa` only adds entries and raises sequence numbers. */
  lemma LsaGrows(db: Db, id: NodeId, lsa: Message)
    ensures Grows(db, LsaDb(db, id, lsa))
  {
  }

  /** Flooding never lowers a stored sequence number while the own entry is
      not ahead of the router. */
  lemma FloodGrows(r: Router)
    requires OwnBound(r)
    ensures Grows(r.db, FloodLsa(r).0.db)
  {
  }

  /** A new neighbour raises the own entry only. */
  lemma NewNeighborGrows(r: Router, n: NodeId, now: int)
    requires Wf(r) && OwnBound(r)
    ensures Grows(r.db, HandleNewNeighbor(r, n, now).0.db)
  {
    if r.mode == LinkState {
      NewNeighborLinkState(r, n, now);
    } else {
      NewNeighborFlooding(r, n, now);
    }
  }

  /** A failure raises the own entry only. */
  lemma FailureGrows(r: Router, n: NodeId)
    requires Wf(r) && OwnBound(r)
    ensures Grows(r.db, HandleNeighborFailure(r, n).0.db)
  {
    if r.mode == LinkState {
      FailureLinkState(r, n);
    } else {
      FailureFlooding(r, n);
    }
  }

  /** A run of failures never lowers a stored sequence number. */
  lemma {:induction false} FailAllGrows(r: Router, dead: seq<NodeId>)
    requires Wf(r) && OwnBound(r)
    ensures Grows(r.db, FailAll(r, dead).0.db)
    decreases |dead|
  {
    if dead != [] {
      var r1 := HandleNeighborFailure(r, dead[0]).0;
      FailureGrows(r, dead[0]);
      if r.mode == LinkState {
        FailureLinkState(r, dead[0]);
      } else {
        FailureFlooding(r, dead[0]);
      }
      FailAllGrows(r1, dead[1..]);
      GrowsTrans(r.db, r1.db, FailAll(r1, dead[1..]).0.db);
    }
  }

  /** The constructor establishes the invariant. */
  lemma CreateInv(id: NodeId, neighbors: seq<NodeId>, algorithm: string, now: int)
    requires Create(id, neighbors, algorithm, now).Success?
    ensures Inv(Create(id, neighbors, algorithm, now).value.0)
  {
    CreateLinks(id, neighbors, algorithm, now);
    if algorithm == "link_state" {
      CreateLinkState(id, neighbors, now);
    }
  }

  /** A new neighbour keeps the invariant and only raises the database. */
  lemma NewNeighborKeeps(r: Router, n: NodeId, now: int)
    requires Inv(r)
    ensures var r' := HandleNewNeighbor(r, n, now).0;
            Inv(r') && Grows(r.db, r'.db) && r'.seqNum >= r.seqNum
  {
    NewNeighborLinks(r, n, now);
    NewNeighborGrows(r, n, now);
    if r.mode == LinkState {
      NewNeighborLinkState(r, n, now);
    } else {
      NewNeighborFlooding(r, n, now);
    }
  }

  /** `process_lsa` keeps the invariant unless the advertisement is a
      newer one in the router's own name. */
  lemma LsaKeeps(r: Router, m: Message)
    requires Inv(r) && (m.from == r.id ==> m.seqNum <= r.seqNum)
    ensures var r' := ProcessLsa(r, m).0;
            Inv(r') && Grows(r.db, r'.db) && r'.seqNum == r.seqNum
  {
    LsaGrows(r.db, r.id, m);
  }

  /** `process_hello` keeps the invariant and only raises the database. */
  lemma HelloKeeps(r: Router, m: Message, now: int)
    requires Inv(r)
    ensures var r' := ProcessHello(r, m, now).0;
            Inv(r') && Grows(r.db, r'.db) && r'.seqNum >= r.seqNum
  {
    if m.from in r.neighbors.vals {
      HelloKnown(r, m, now);
    } else {
      HelloNew(r, m, now);
      NewNeighborKeeps(r.(lastSeen := Put(r.lastSeen, m.from, now), known := r.known + {m.from}), m.from, now);
    }
  }

  /** `process_echo` keeps the invariant and only raises the database. */
  lemma EchoKeeps(r: Router, m: Message, now: int)
    requires Inv(r)
    ensures var r' := ProcessEcho(r, m, now).0;
            Inv(r') && Grows(r.db, r'.db) && r'.seqNum >= r.seqNum
  {
    if m.from in r.neighbors.vals {
      EchoKnown(r, m, now);
    } else {
      EchoNew(r, m, now);
      NewNeighborKeeps(r, m.from, now);
    }
  }

  /** Every message handler keeps the invariant, never removes a database
      entry, never lowers a stored sequence number and never lowers the
      router's own. */
  lemma MessageKeeps(r: Router, m: Message, now: int, t: Tree, rank: map<NodeId, nat>)
    requires Inv(r) && Ranked(t.preds, rank) && Honest(r, m)
    ensures var r' := ProcessMessage(r, m, now, t, rank).0;
            Inv(r') && Grows(r.db, r'.db) && r'.seqNum >= r.seqNum
  {
    if m.kind == "info" {
      LsaKeeps(r, m);
    } else if m.kind == "hello" {
      HelloKeeps(r, m, now);
    } else if m.kind == "echo" {
      EchoKeeps(r, m, now);
    }
  }

  /** A monitoring round keeps the invariant, never removes a database
      entry, never lowers a stored sequence number and never lowers the
      router's own. */
  lemma MonitorKeeps(r: Router, now: int)
    requires Inv(r)
    ensures var r' := MonitorTick(r, now).0;
            Inv(r') && Grows(r.db, r'.db) && r'.seqNum >= r.seqNum
  {
    MonitorLiveness(r, now);
    MonitorSeq(r, now);
    FailAllGrows(r, Dead(r, r.lastSeen.keys, now));
  }
}
