# Link-state and flooding routing, modelled in Dafny

This project models the routing core of a small network-routing lab:

- the single-pair shortest path of `dijkstra.py`;
- the hop-bounded flooding enumeration of `flooding.py`;
- the offline `LinkStateRouter` simulator of `lab3.py`;
- the message-driven `RouterNode` of `router.py` in link-state and flooding mode: hellos, echoes and neighbour liveness, link-state advertisements (LSAs) and their database, the routing table, and data forwarding.

Every operation is written as a pure Dafny function or method over immutable data. The source's side effects are handled this way:

- The messages the source publishes are returned as a sequence of `(channel, message)` sends, in publication order.
- The clock is a parameter `now`.
- The router's own dictionaries `neighbors` and `neighbor_last_seen` are modelled with their insertion order (`Dicts.Dict`). That order decides who hears a broadcast first, and so the hop count each copy carries. It also decides the order in which dead neighbours are handled.
- The graphs' neighbour rows are plain maps. The order in which a row is visited is left open; the lines starting `Flooding.FloodingPaths`, `LinkStateLab.FloodLinkState` and `ShortestPath.FindMissing` under "## Left out" say what that leaves unstated.

Module layout:

| file | module | models |
|---|---|---|
| wrappers.dfy | Wrappers | `Option` and `Result` |
| graphs.dfy | Graphs | graphs as nested dictionaries, walks and their weights |
| dijkstra.dfy | ShortestPath | `dijkstra` (and `LinkStateRouter._dijkstra`, which is the same text) |
| flooding.dfy | Flooding | `flooding_paths` |
| lsdb.dfy | LinkStateDb | a link-state database and `build_network_graph` |
| lab3.dfy | LinkStateLab | `LinkStateRouter` |
| dicts.dfy | Dicts | insertion-ordered dictionaries |
| messages.dfy | Messages | message kinds, `send_message`, `broadcast_to_neighbors` |
| routing.dfy | RouteTable | `calculate_routing_table` over a given shortest-path tree |
| router.dfy | RouterNode | `RouterNode` in link-state and flooding mode |

## How errors are modelled

- A `KeyError` becomes a `Failure` that names the missing node. In Dijkstra, flooding and the lab flood, this is an edge to a node that has no row of its own.
- The `ValueError` for an unknown algorithm becomes a `Failure` that carries the hellos already published.
- `send_message` swallows every exception, so a send that raises publishes nothing (`RouterNode.Published`).
  - Each send first looks its destination up with `get_known_nodes`, which in link-state mode reads the database (router.py:225, 243).
  - The constructor says hello (router.py:55) before `_init_link_state` creates that database (router.py:209).
  - So in link-state mode each hello raises `AttributeError`, which is caught at router.py:252-253 before `publish`. A router built in link-state mode publishes no hellos, only its first advertisement.
- Python's `float('infinity')` is the `Infinite` cost.

## Where the model follows the code over the documented intent

- `_handle_neighbor_failure` is not idempotent in link-state mode. Every call raises the sequence number by two and floods again, even for a node that is no longer a neighbour (`RouterNode.FailureLinkState`).
- `calculate_routing_table` treats an empty node name as "no next hop". This is because it tests the next hop's truthiness (`RouteTable.Truthy`).

## Model

| member | source | states |
|---|---|---|
| ShortestPath.Dijkstra | dijkstra.py:3-38 | a missing start or target gives `([], inf)`; start == target gives `([start], 0)`; a `KeyError` names an edge's end that has no row, and none is raised when every edge's end has a row; a returned path is a repetition-free walk from start to target whose weight is the returned cost (empty iff the cost is infinite), and that cost is no greater than the weight of any walk from start to target |
| ShortestPath.Search | dijkstra.py:14-28 | the main loop either stops with a `KeyError` at a missing node, or leaves distances, predecessors and a settled set satisfying the search invariant from which the route is read back; it cannot fail when every edge's end has a row or when start == target |
| ShortestPath.Reconstruct | dijkstra.py:30-38 | following predecessors back from the target yields a sound and optimal route; `[start]` at cost 0 when start == target |
| ShortestPath.Frontier | dijkstra.py:20-28 | every walk that leaves the settled set passes a queued entry no heavier than the walk: this is why a popped distance is final |
| ShortestPath.TargetPopped | dijkstra.py:17-18 | the early exit is sound: when the target is popped, its distance is already no greater than the weight of any walk to it |
| ShortestPath.StaleStep | dijkstra.py:20-21 | skipping a stale queue entry keeps the search invariant |
| ShortestPath.AfterInv | dijkstra.py:15-28 | one pop-and-relax round keeps the search invariant |
| ShortestPath.ChainStep | dijkstra.py:32-35 | each predecessor step goes to a node settled strictly earlier, so reconstruction ends |
| ShortestPath.ChainEnd | dijkstra.py:36-38 | a chain that reaches the start is a sound route; one that does not means the target is unreachable; start == target gives `[start]` |
| ShortestPath.FindMissing | dijkstra.py:23-25 | finds a neighbour of the popped node with no row of its own, or reports that every neighbour has a row |
| ShortestPath.Pop | dijkstra.py:15 | `heappop` returns an entry of least distance |
| Flooding.FloodingPaths | flooding.py:3-46 | a missing start or target gives `([], 0)`; start == target gives `([[start]], 1)`; otherwise a `KeyError` is raised exactly when some path the flood sends must be forwarded from a node without a row; on success the result is exactly the non-backtracking walks from start to target of at most `max_hops` hops that do not pass through the target, repetition-free and in non-decreasing length, and the counter is the number of packets ever enqueued |
| Flooding.Flood | flooding.py:23-44 | the queue loop, level by level, either raises at a stuck packet that is a real candidate path, or ends with the collected paths and the packet count |
| Flooding.Round | flooding.py:23-44 | popping one level of packets either raises at a stuck one or produces the next level and keeps the loop invariant |
| Flooding.ProcessLevel | flooding.py:34-44 | forwarding a whole level enqueues exactly the next level, extends the found paths and adds its size to the packet counter |
| Flooding.Forward | flooding.py:34-44 | forwarding one packet enqueues one fresh copy per neighbour except the one it came from, marks each as visited, and counts each |
| Flooding.Enqueue | flooding.py:25-44 | popping one packet: at the target it is recorded, past the hop limit it is dropped, otherwise its copies are enqueued |
| Flooding.FirstStuck | flooding.py:34 | finds the first packet of a level whose forwarding would raise `KeyError`, or reports that there is none |
| Flooding.WalksSound | flooding.py:23-44 | every packet enqueued with k hops carries a candidate path of k + 1 nodes: it starts at the start, follows edges, never steps straight back, and does not pass through the target |
| Flooding.WalksComplete | flooding.py:23-44 | every candidate path is enqueued |
| Flooding.WalksExact | flooding.py:23-44 | the packets enqueued with k hops are exactly the candidate paths with k + 1 nodes |
| Flooding.HopBound | flooding.py:31-32 | no packet is enqueued with more than `max_hops` hops, so the flood ends; for example, a route of three edges is not found with `max_hops = 2` |
| Flooding.SentExact | flooding.py:23-44 | once a level is empty, the packets ever sent are exactly the candidate paths |
| Flooding.SelfFlood | flooding.py:26-28 | flooding from the target to itself finds only `[start]` and sends one packet |
| Flooding.StuckWitness | flooding.py:34 | the node that raises `KeyError` is the end of an edge and has no row itself |
| Flooding.CopiesLevel | flooding.py:34-44 | a packet's copies are exactly its one-edge non-backtracking extensions in the next level |
| LinkStateDb.NetworkGraph | router.py:337-343 | the graph has one node per database entry, with that entry's neighbour costs |
| LinkStateDb.AcceptGrows | router.py:297-308 | storing an advertisement that is newer than the stored one never removes an entry or lowers a sequence number |
| LinkStateLab.Create | lab3.py:5-11 | `KeyError` iff the router has no row in the topology; otherwise sequence number 0 and a database holding only the router's own current entry |
| LinkStateLab.UpdateLinkState | lab3.py:13-17 | the own entry becomes the current sequence number and neighbours; every other entry is unchanged |
| LinkStateLab.FloodLinkState | lab3.py:19-56 | the sequence number rises by one and the own entry is refreshed; the flood reaches every neighbour of the router, processes each node at most once, counts at least one packet per neighbour and between all and all but one neighbour per processed node, and raises `KeyError` only at an edge's end without a row (never when every edge's end has one) |
| LinkStateLab.Fanout | lab3.py:51-54 | a processed node sends a copy to exactly its listed neighbours other than the one the advertisement came from, each copy remembering the sender |
| LinkStateLab.FanoutSize | lab3.py:51-54 | a processed node sends one copy per neighbour except the one the advertisement came from |
| LinkStateLab.PopKeeps | lab3.py:37-54 | each pop keeps the flood's state and either processes a new node or shortens the queue, so the flood ends |
| LinkStateLab.PopProgress | lab3.py:37-54 | each pop either processes a node not processed before or shortens the queue: the flood's termination measure falls |
| LinkStateLab.FloodStart | lab3.py:33-35 | the router's own sends put one copy on the queue for each neighbour |
| LinkStateLab.CurrentGraph | lab3.py:58-62 | in every reachable state the network graph is just the router's own row |
| LinkStateLab.FloodKeepsCurrent | lab3.py:19-21 | a flood keeps the database holding only the current own entry |
| LinkStateLab.CalculatePath | lab3.py:64-110 | an unknown algorithm is an error; with `"dijkstra"` the route over the database's graph is sound and optimal; in every reachable state it is `[self]` for the router itself and empty and infinite for any other target |
| LinkStateLab.RowOf | lab3.py:152-157 | a row's next hop is the route's second node, absent for routes of fewer than two nodes |
| LinkStateLab.GetRoutingTable | lab3.py:145-159 | one row per other node of the database, each a sound shortest route with its next hop; empty in every reachable state |
| Dicts.Put | router.py:146-150 | assignment sets one key, leaves the others, keeps an existing key's place and puts a new key last |
| Dicts.Remove | router.py:120-126 | deletion removes exactly one key and leaves the other keys and values |
| Dicts.WithoutCuts | router.py:120-126 | deletion keeps the other keys in their old order |
| Dicts.FromList | router.py:23-28 | a dictionary comprehension over a list holds exactly the listed nodes, each with the given value |
| Dicts.FromListOrder | router.py:23-28 | without repetitions, the comprehension's order is the list's |
| Messages.Recipients | router.py:255-260 | a broadcast reaches exactly the neighbours not excluded, each once |
| Messages.Hop | router.py:239 | a send raises the message's hop count by one and changes nothing else |
| Messages.BroadcastHops | router.py:233-260 | the k-th copy of a broadcast goes to the k-th recipient and carries the original hop count plus k + 1, because every send raises the count in the one shared message |
| Messages.BroadcastSame | router.py:233-260 | every copy of a broadcast is the original message with a higher hop count and nothing else changed |
| Messages.Hellos | router.py:97-100 | one hello to each neighbour, in order |
| Messages.Echoes | router.py:112-114 | one echo to each neighbour, addressed to it, in order |
| RouteTable.FirstHop | router.py:366-372 | a next hop that is found is a node whose predecessor is the router |
| RouteTable.FirstHopChain | router.py:366-372 | the next hop found is the first node on the destination's predecessor chain whose predecessor is the router |
| RouteTable.ChainFirstHop | router.py:366-372 | conversely, a chain reaching such a node makes the walk return the first one |
| RouteTable.RoutingTable | router.py:345-379 | a row exists iff the destination is another node of the graph at finite distance whose chain reaches the router through a non-empty name; each row holds that distance and a next hop whose predecessor is the router |
| RouteTable.TableNextHop | router.py:366-379 | a row's next hop lies on the destination's chain; a destination adjacent in the tree is its own next hop |
| RouteTable.TableRowExists | router.py:362-379 | a finite destination whose chain reaches the router has a row iff the hop's name is non-empty, and the row is that hop at that distance |
| RouteTable.TableNoChain | router.py:366-379 | a destination whose chain never reaches the router gets no row |
| RouterNode.InitDb | router.py:207-218 | the initial database holds the router's own entry and, for each neighbour, an entry naming the router at that link's cost |
| RouterNode.Start | router.py:10-33 | every listed neighbour is active at cost 1, seen at `now` and remembered |
| RouterNode.Create | router.py:10-62 | `ValueError` iff the algorithm is neither `link_state` nor `flooding`; the mode follows the algorithm; the new router's dictionaries are well formed |
| RouterNode.CreateFails | router.py:55-62 | an unknown algorithm raises only after the hellos went out |
| RouterNode.CreateLinks | router.py:22-55 | the new router's neighbours, last-seen times and known nodes come from the list; in flooding mode exactly one hello per neighbour is sent |
| RouterNode.CreateLinkStateFlood | router.py:55-58 | in link-state mode the constructor publishes only the first flood of `_init_link_state`: every earlier hello is lost |
| RouterNode.CreateLinkState | router.py:207-218 | in link-state mode the router starts at sequence number 1 with its own advertisement stored |
| RouterNode.CreateLinkStateDb | router.py:207-216 | in link-state mode the database has entries for the router and every neighbour, each neighbour's naming the router at cost 1 |
| RouterNode.CreateLinkStateSends | router.py:55-58 | in link-state mode the constructor sends one advertisement per neighbour and nothing else, so no hello goes out |
| RouterNode.CreateFlooding | router.py:55-62 | in flooding mode only hellos are sent and there is no database |
| RouterNode.CreateInv | router.py:10-62 | a new router satisfies the invariant: active neighbours are monitored and known, and in link-state mode the own entry advertises them |
| RouterNode.FloodLsa | router.py:263-283 | in link-state mode the sequence number rises by one, the own entry becomes the new advertisement, other entries stay, and the advertisement goes to every active neighbour; in flooding mode nothing happens |
| RouterNode.LsaDb | router.py:296-324 | only a newer advertisement replaces its source's entry; every node it names that the database lacks (other than the router) gets a placeholder; all other entries stay |
| RouterNode.LsaDbStale | router.py:297-324 | an advertisement that teaches nothing leaves the database unchanged |
| RouterNode.ProcessLsa | router.py:285-335 | the neighbours and sequence number are unchanged; the advertisement is forwarded to every active neighbour but its source iff something was learned; it is ignored in flooding mode |
| RouterNode.ProcessLsaStale | router.py:285-335 | a stale advertisement naming only known nodes changes nothing and is not forwarded |
| RouterNode.ProcessLsaForwards | router.py:326-332 | the forwarded copies reach the active neighbours other than the source in order, each one hop further than the last |
| RouterNode.LsaGrows | router.py:285-335 | `process_lsa` never removes an entry or lowers a stored sequence number |
| RouterNode.Topology | router.py:337-343 | the network graph has the database's nodes and each entry's neighbour costs |
| RouterNode.HandleNewNeighbor | router.py:141-165 | the new neighbour is active, monitored from `now` and remembered |
| RouterNode.NewNeighborLinks | router.py:141-151 | an absent neighbour gets cost 1 and a present one keeps its cost; every other neighbour and last-seen time is unchanged |
| RouterNode.NewNeighborLinkState | router.py:153-162 | in link-state mode the sequence number rises by two, the own entry advertises the new neighbour set, and that advertisement goes to every active neighbour |
| RouterNode.NewNeighborFlooding | router.py:141-165 | in flooding mode nothing is sent and the database is untouched |
| RouterNode.NewNeighborKeeps | router.py:141-165 | handling a new neighbour keeps the invariant and only raises the database |
| RouterNode.HandleNeighborFailure | router.py:116-139 | the dead neighbour is no longer active or monitored, but stays known |
| RouterNode.FailureLinks | router.py:116-126 | exactly the dead neighbour is removed; every other neighbour and last-seen time is unchanged |
| RouterNode.FailureLinkState | router.py:128-136 | in link-state mode the sequence number rises by two, even for a node that was no longer active, and the new neighbour set is flooded |
| RouterNode.FailureFlooding | router.py:116-139 | in flooding mode nothing is sent and the database is untouched |
| RouterNode.ProcessHello | router.py:193-203 | the sender is seen at `now`, remembered and active afterwards |
| RouterNode.HelloKnown | router.py:193-203 | a hello from an active neighbour only refreshes its last-seen time |
| RouterNode.HelloNew | router.py:199-203 | a hello from anyone else is handled as a new neighbour |
| RouterNode.HelloKeeps | router.py:193-203 | `process_hello` keeps the invariant and only raises the database |
| RouterNode.ProcessEcho | router.py:437-441 | the sender is active afterwards and a hello goes back to it, last |
| RouterNode.EchoKnown | router.py:437-441 | an echo from an active neighbour changes nothing and is answered with a hello |
| RouterNode.EchoNew | router.py:437-441 | an echo from anyone else is handled as a new neighbour first |
| RouterNode.EchoKeeps | router.py:437-441 | `process_echo` keeps the invariant and only raises the database |
| RouterNode.Dead | router.py:75-83 | a neighbour is declared dead iff it is active and has been silent for more than 15 seconds |
| RouterNode.FailAll | router.py:85-87 | handling the dead one by one keeps the router's identity and known nodes |
| RouterNode.FailAllLinks | router.py:85-87 | exactly the dead leave the active and monitored neighbours |
| RouterNode.FailAllSeq | router.py:85-87 | in link-state mode each dead neighbour raises the sequence number by two; in flooding mode nothing is sent |
| RouterNode.FailAllGrows | router.py:85-87 | failure handling never removes an entry or lowers a stored sequence number |
| RouterNode.MonitorTick | router.py:71-95 | one monitoring round ends with an echo to each neighbour still active |
| RouterNode.MonitorLiveness | router.py:75-87 | a neighbour stays active iff it was active and was seen within the timeout; the dead are no longer monitored but stay known |
| RouterNode.MonitorSeq | router.py:75-87 | a round raises the sequence number by two per dead neighbour in link-state mode |
| RouterNode.MonitorKeeps | router.py:71-95 | a monitoring round keeps the invariant and only raises the database |
| RouterNode.KnownNodes | router.py:220-231 | the call raises iff the router is in link-state mode and its database does not exist yet; otherwise the known nodes are the router, its active neighbours, and in link-state mode the nodes of its database |
| RouterNode.Published | router.py:233-253 | a run of sends publishes nothing when the known-node lookup raises, and everything otherwise |
| RouterNode.BroadcastKnown | router.py:242-244 | once the database exists, every broadcast goes only to known nodes, so the unknown-destination warning never fires for one |
| RouterNode.NextHop | router.py:383-388 | a next hop exists iff the destination has a row in the freshly built table; none in flooding mode; a returned hop is a tree child of the router on the way to a reachable destination |
| RouterNode.SendData | router.py:390-410 | `False` iff link-state mode has no next hop, and then nothing is sent; otherwise one copy to the next hop, or in flooding mode one copy per active neighbour |
| RouterNode.ProcessData | router.py:412-434 | a message for the router is delivered; in link-state mode it is forwarded to the next hop iff there is one; in flooding mode it is dropped past 50 hops, sent straight to the destination when that is active, and otherwise sent to every active neighbour but its sender |
| RouterNode.DataFloods | router.py:427-434 | a flooded data message reaches every active neighbour but its sender, each copy one hop further |
| RouterNode.ProcessMessage | router.py:443-456 | data messages and unknown kinds leave the state alone; unknown kinds send nothing |
| RouterNode.MessageKeeps | router.py:443-456 | every handler keeps the invariant, never removes a database entry, never lowers a stored sequence number, and never lowers the router's own number, for any message other than a newer advertisement in the router's own name |

## Left out

- Redis publishing and subscribing, the listener and monitor threads, `time.sleep`, `time.time()` and all printing. Published messages are returned as sends, and the time is a parameter.
- `dijkstra_all` (router.py:6) is not part of this model. The routing table takes its distances and predecessors as an input tree whose predecessor chains are required to end (`Ranked`).
- The routing table stored by `calculate_routing_table`, and `request_route`, which reads it: every reader in the modelled core rebuilds the table first, so it is modelled as derived.
- `_communicate_lsa`, the periodic re-flood thread. Each call is one `FloodLsa`.
- `add_static_neighbor`, `remove_neighbor`, `print_neighbor_status`, `print_routing_info`, `stop` and `listen_for_messages`: operator helpers and I/O.
- The first, shadowed `send_message` (router.py:167-180). The second definition replaces it, and only the second is modelled.
- Message timestamps, and the `KeyError` raised by a message that lacks a field: messages are modelled with every field present.
- LinkStateLab.CalculatePath: its precondition excludes the `"flooding"` branch of `calculate_path` and `_flooding` (lab3.py:70-72, 112-143). That search has no hop limit, and its `visited` set is written but never read, so it can loop forever on a cycle of three or more nodes that avoids the target. It has no contract worth stating.
- Flooding.FloodingPaths: the order in which a node's neighbour row is visited is left open. The contract fixes the set of paths found, their non-decreasing lengths and the packet count. It does not fix the order of paths of equal length (flooding.py:34). When several packets would raise, it does not fix which missing node the `KeyError` names.
- LinkStateLab.FloodLinkState: the order in which neighbour rows are visited is left open. That order decides which processed node first receives a copy from each neighbour. On a graph whose links are not all symmetric it therefore changes the packet count (lab3.py:33-54). The contract states bounds on the count rather than its exact value. It also leaves open which missing node the `KeyError` names (lab3.py:51).
- ShortestPath.FindMissing: picks any neighbour without a row of its own, not the first in the row's order (dijkstra.py:23-25). So when several are missing, the model does not say which one the `KeyError` of `ShortestPath.Dijkstra` names.
- ShortestPath.Pop: heap ties are broken by node name in the source; the model pops any entry of least distance, so each contract holds for every tie-break.
- RouterNode.MessageKeeps: does not cover an advertisement in the router's own name with a higher sequence number (`Honest`). Such a copy from an earlier run would be stored as the own entry and later lowered again.
- Distance-vector mode: no modelled file implements it. The constructor rejects every algorithm other than `link_state` and `flooding` with `ValueError`, and that rejection is modelled.
- lab3_network.py, the console scripts and the JSON file loading: socket and console plumbing.
- RouterNode.ProcessMessage: its contract states only what holds across kinds: data and unknown kinds leave the state alone, and unknown kinds send nothing. What each kind does is stated by the member for its handler.
- RouterNode.MonitorTick: is defined in both modes. The source starts the monitoring thread only in link-state mode (router.py:57-59), so in flooding mode it describes a round the source never runs.
