# Verification of the RAN placement operator

This project models, in Dafny, the parts of the OAI Kubernetes operator that decide where the pieces of a
disaggregated radio access network run, and proves what those parts promise.

An operator's user asks for a number of radio units (RUs), each on a given cluster node. For every RU the
placement algorithm looks for a chain: a path of links from the core node to the RU's node, with the
central unit (CU) on the second node of the path and the distributed unit (DU) on the first later node,
short of the RU, that has room. Nodes have memory and CPU, links have bandwidth and latency, and both are
used up as chains are placed. Two controllers turn the result into Kubernetes objects.

## Files

| file | what it holds |
|---|---|
| `Graphs.dfy` | walks, shortest walks, distance in hops |
| `MultiPathSearch.dfy` | the breadth-first search that returns several paths, as a step system |
| `SearchResults.dfy` | which results that search can have, over all orders of neighbours |
| `HarnessBfs.dfy` | the plain breadth-first search and the hop count of the measurement harness |
| `Chains.dfy` | when a chain fits, what it uses, and what is left, on values |
| `Cluster.dfy` | the mutable nodes and links, shared between both ends of an edge |
| `Dsg8.dfy` | disaggregation 8: validating candidate paths, debiting the accepted one |
| `Ledger.dfy` | the accounting of a whole placement, as a run of events |
| `Topology.dfy` | from a topology description to node and link objects |
| `Outcomes.dfy` | what becomes of one RU, and how a whole placement may end |
| `Placement.dfy` | the placement itself, over the objects |
| `Report.dfy` | the numbers the controller reports, and what they mean |
| `SplitsPlacer.dfy` | the controller of placement requests, over an API server whose calls may fail |
| `SplitController.dfy` | the controller of Splits, over an API server whose calls may fail |
| `Examples.dfy` | small networks on which the placement does what one might not expect |

The objects are classes with fields that methods update in place. Each such method is tied to a value
(`Stock`: what is left on every node and link) by the predicate `Holds`, and the theorems about whole runs
are about that value. Map iteration in the original is unordered, and is a free choice here.

## The main results

- The search returns, for every order of neighbours, all shortest paths, possibly some that are one hop
  longer, nothing else, in order of length and without repetition; and it terminates, although nodes are
  expanded again and the queue grows. The bound is exact: every simple path at most one hop from shortest is
  returned for some order (`NearShortestIsFound`), and for some order only the shortest ones are
  (`OnlyShortestFound`). So whether a longer path is returned is up to the order alone
  (`DetourDependsOnOrder`).
- Which events may follow for an RU is told from the network and the stock alone, with no mention of searches
  (`LegalIff`). The order of neighbours alone may decide whether an RU is placed: exactly if no shortest path
  is feasible but a longer one suits (`OrderDecidesIff`, and `KiteOrderDecides` for an instance).
- Checking a path and then debiting it is sound: if the check accepts, every debit succeeds and no link
  goes negative. This rests on an edge being one link object seen from both ends, on one object belonging
  to one pair of nodes, and on simple paths crossing no link twice. On a path that does, the same check
  would not be enough (`CheckMissesRepeats`).
- The check, one sweep with a running latency and a queue of requirements, decides exactly the three
  segments of the chain: each link's bandwidth, and the sum of a segment's latencies. The queue is never read
  when it is empty. Which paths pass, and which nodes have room in spite of the rounding, is stated in both
  directions (`FeasibleIff`, `HasRoomIff`).
- Over a whole placement bandwidth is conserved, link by link and in total; node resources are conserved;
  nothing goes negative. After the reservations nothing is ever refused.
- The number of allocated RUs that the controller reports is the number of chains placed plus the number of
  RUs that were skipped but came with a chain; so it is the number placed exactly if there are none of the
  latter (`ReportedIsPlacedIff`), in particular if all RUs come without chains (`FreshReportedIsPlaced`). A
  retry after a lost write can have some, even on a cluster that has not changed (`LostFinishedOvercounts`).
- From a topology description on, one method builds the objects, places a request and reports it
  (`PlaceRequest`); another is the whole reconcile pass with that placement inside (`ReconcileRequest`).
- What the plain search finds and what the multi-path search finds first have the same length, and the
  harness's hop count of a placed chain is the RU's distance or one more.
- A placement request is handled once: its state moves from empty to `Finished` or `Error` and stays;
  over all its passes no Split is overwritten or lost and no name is created twice. Whether the Splits
  agree with the placement is decided exactly by a condition that can be checked before they are created,
  and a lost status write can make them disagree. If no call fails, a pass ends in `Finished` with every RU
  stored as its event left it, or in `Error` because the reservations do not go through, or panics at an RU
  where the placement does (`ReconcileRequest`).
- A pass over a Split that does not fail leaves, for each piece, the operator's template, the values made up
  of the pods' addresses, and a deployment on the Split's node, and nothing else changed (`Reconcile`). On a
  server whose calls succeed it fails only for a missing template, a copy without data, or two pods of a piece.
- Passes over Splits converge: however they are interleaved and cut short, once each Split has had a full
  pass the store is the one clean passes would reach, with every Split served so, and a further pass writes
  nothing.

## Where the code does less than one might expect

- A path without a second node makes validation panic (`dsg8.go:43`). This happens exactly when the RU is
  on the core node (`ShortPathMeansRoot`); the outcome is `OutOfRange`, and `CorePanic` for a placement.
- A candidate is recorded even if no DU was found for it, and debiting it then panics (`dsg8.go:132`). The
  outcomes are `NilNode` and `NoDuPanic`. Call a simple path at most one hop from shortest eligible. Accepting
  a path panics exactly if it is eligible and feasible and no node strictly between the CU and the RU has
  room (`StrandsIff`), so always on fewer than four nodes. The panic is possible exactly if there is such a
  path. It is certain exactly if some shortest path is feasible and no eligible feasible path has room for a
  DU (`PanicIff`; the converse is `EventExistsIff`). On two nodes joined by one link it is certain, however
  much room there is (`NextToTheCorePanics`).
- A node may have more left than is requested and still count as full: a number of whole units must lie
  between the two (`HasRoomIff`), so a piece that asks for 150m of CPU needs more than 1000m (`PieceNeedsACpu`).
- A failed debit is not undone: a refused reservation leaves the earlier ones, and its own, in place
  (`StopsAt`), and a refused link debit leaves those before it (`Broken`).
- An RU that is skipped keeps the chain it came with, and is counted as allocated. That is harmless if RUs
  come without chains; it is not on a retry of a request whose RUs were stored but whose `Finished` was not.
- The controller's agreement between Splits and placement fails if a name is taken, by an older Split or
  by an earlier RU of the same name, for other nodes (`AgreesIffNoConflict`).

## Hypotheses

The code relies on these without checking them.

- A topology has a core node, its links end at its nodes, every node is known to Kubernetes, and no node
  has the empty name (`WellFormed`).
- Disaggregation `"1"` exists and has all three requirements; the RUs' nodes are in the topology; the RUs
  of a request are distinct objects.
- Bandwidths, latencies and requests may be anything, except where a lemma says otherwise: latencies are
  non-negative where the sweep is compared with whole segments, the request is non-negative where the
  reservations are shown to succeed, and starting amounts are non-negative where nothing goes negative.
- `resource.Quantity.Value` rounds away from zero to whole units; amounts are integers in thousandths.
- Config map data of the operator's templates does not change during passes other than by the controller
  itself, and pods are fixed.
- A failing API call may or may not have taken effect, and reads see what is stored. What is said to happen
  for sure is said of a server that is `healthy`, where no call fails.

## Model

| member | source | states |
|---|---|---|
| Topology.AddLinkWired | operator/controllers/algorithm/placement.go:69-80 | Adding a link, also between nodes that already have one or from a node to itself, keeps links undirected and a link's name joined to one unordered pair of nodes. |
| Topology.AddLinkDescribes | operator/controllers/algorithm/placement.go:69-80 | The network built so far is the description: nodes are adjacent exactly if a link handled so far joins them, and the link between them is one of those that do. |
| Topology.BuildNodes | operator/controllers/algorithm/placement.go:51-66 | One new object per described node, with allocatable resources of its own, and a core that is flagged as core. |
| Topology.BuildLinks | operator/controllers/algorithm/placement.go:68-80 | One newly made object per described link at full capacity, stored under both endpoints; the objects carry exactly the described network. |
| Topology.AttachedWiring | operator/controllers/algorithm/placement.go:77-78 | Storing a new link under both ends, in place of an older one between the same nodes if there is one, keeps every edge one registered object seen from both sides. |
| Topology.AttachLink | operator/controllers/algorithm/placement.go:77-78 | The same on the node objects, as the two assignments leave them. |
| Topology.BuildLink | operator/controllers/algorithm/placement.go:72-79 | A link object is new and holds its full capacity; all others keep theirs. |
| Placement.NewPlacementBFS | operator/controllers/algorithm/placement.go:48-84 | The construction ends with newly made objects that carry the described network and hold the topology's initial stock. |
| MultiPathSearch.StepInv | operator/controllers/algorithm/placement.go:135-152 | Every turn keeps the invariant: queued paths are simple walks in order of length, spanning two lengths, none queued twice, none more than one hop from shortest, and no shortest walk is missed. |
| MultiPathSearch.ShorterDone | operator/controllers/algorithm/placement.go:135-152 | Every shortest walk shorter than the head of the queue has been dequeued, though nodes are marked on dequeue only. |
| MultiPathSearch.Layers | operator/controllers/algorithm/placement.go:135-152 | While a path with k hops is at the head, every reachable node nearer than k is visited and no node farther than k is. |
| MultiPathSearch.StepProgress | operator/controllers/algorithm/placement.go:135-152 | Each turn uses up one of finitely many simple paths for good, so the search terminates. |
| MultiPathSearch.FinishedFinds | operator/controllers/algorithm/placement.go:129-155 | What is returned: all shortest paths, none more than one hop longer, in order of length, each once. |
| MultiPathSearch.FinishedVisits | operator/controllers/algorithm/placement.go:129-152 | At the end the visited nodes are exactly those reachable from the root. |
| MultiPathSearch.FoundIffReachable | operator/controllers/algorithm/placement.go:129-155 | Something is returned exactly if the target is reachable; the first path is shortest and all are within one hop of it. |
| SearchResults.SomeResult | operator/controllers/algorithm/placement.go:129-155 | For every graph there is a result that the search may return. |
| SearchResults.NearShortestIsFound | operator/controllers/algorithm/placement.go:129-155 | Every simple path at most one hop longer than the shortest is returned for some order of neighbours. |
| SearchResults.OnlyShortestFound | operator/controllers/algorithm/placement.go:129-155 | For some order of neighbours the shortest paths are returned and nothing else. |
| SearchResults.DetourDependsOnOrder | operator/controllers/algorithm/placement.go:146-151 | Any such path that is not shortest is returned for one order of neighbours and missed for another. |
| SearchResults.PrefixGetsThrough | operator/controllers/algorithm/placement.go:135-152 | If each prefix of such a path meets its next node first, each comes to the head of the queue before any path of its length. |
| SearchResults.NextIsFresh | operator/controllers/algorithm/placement.go:146-151 | When such a prefix is dequeued its next node has not been visited. |
| Placement.PlacementBFS.Expand | operator/controllers/algorithm/placement.go:146-151 | Queues the path's extensions by exactly its unvisited neighbours, each once, in some order. |
| Placement.PlacementBFS.Turn | operator/controllers/algorithm/placement.go:136-151 | One turn over the objects keeps the search invariant and shrinks what remains. |
| Placement.PlacementBFS.FindPathsTo | operator/controllers/algorithm/placement.go:124-155 | The search over the objects terminates with the promised result, whatever the iteration order, and what it returns is what some run of the step system returns. |
| HarnessBfs.HeadShortest | tests/utils/bfs.py:23-31 | The head of the queue is a shortest walk whenever its end has not been expanded before. |
| HarnessBfs.FindShortestPath | tests/utils/bfs.py:19-37 | Terminates with a shortest path, or with nothing exactly if there is none, on any adjacency lists; from a node without a list it finds only that node itself, and else fails. |
| HarnessBfs.SearchesAgree | tests/utils/bfs.py:19-37 | The plain search finds a path exactly if the multi-path search does, of the same length as its first one. |
| HarnessBfs.CountHops | tests/utils/bfs.py:39-50 | Counts, for each entry, distance core to CU plus CU to DU plus DU to RU; fails only if some leg has no path or starts off the graph. |
| HarnessBfs.HopsAreFewest | tests/utils/bfs.py:44-48 | The count exists exactly if some walk leads from the root by the CU and then the DU to the RU, and is the fewest hops of such a walk. |
| HarnessBfs.HopsOfChain | tests/utils/bfs.py:44-48 | A chain whose CU and DU are on its path in order counts at least the RU's distance and at most the path's hops, exactly those if the path is shortest. |
| Ledger.PlacedHops | tests/utils/splitsplacer.py:131-135 | For a placed chain the harness's count lies between the distance and the path's hops, which are the distance or one more. |
| Chains.ValueRounds | operator/controllers/utils/types.go:58-61 | Amounts are compared as whole units, rounded up if positive and down if negative. |
| Chains.HasRoomIff | operator/controllers/utils/types.go:58-61 | A node has room exactly if, of memory and of CPU, some number of whole units is at least the request and less than what is left (for a negative request: more than the request and at most what is left). |
| Examples.PieceNeedsACpu | operator/controllers/types.go:20-23 | For what a piece requests, a node has room exactly if it has more than 256Mi and more than one whole CPU left. |
| Chains.RoomLeaves | operator/controllers/utils/types.go:58-65 | A node that passes the test keeps, after the debit, strictly more than what rounding up added to the request; so it is not overdrawn. |
| Cluster.Node.AllocateResources | operator/controllers/utils/types.go:63-77 | The debit is made in any case and reported as failed exactly if memory or CPU is below zero, although the test is on rounded values. |
| Cluster.Link.AllocateResources | operator/controllers/utils/types.go:96-102 | The debit is made in any case and reported as failed exactly if there was less than required. |
| Cluster.HopLink | operator/controllers/algorithm/dsg8.go:104-107 | Each hop of a simple path leads over the one object registered under the link's name. |
| Cluster.DebitNode | operator/controllers/algorithm/dsg8.go:132-138 | Charges exactly one node of the whole stock, and refuses exactly if that overdraws it. |
| Cluster.DebitLink | operator/controllers/algorithm/dsg8.go:115 | Debits exactly the link registered under the object's name, and refuses exactly if that overdraws it. |
| Chains.LatencyOfHop | operator/controllers/algorithm/dsg8.go:109 | The running latency over one hop is that of the link between its two nodes. |
| Chains.LatencyAdds | operator/controllers/algorithm/dsg8.go:109 | The running latency from a to c is that from a to b plus that from b to c. |
| Chains.LatencyIsSum | operator/controllers/algorithm/dsg8.go:94-109 | It is the sum of the latencies of the links passed since it was reset. |
| Chains.SweepDecidesSegments | operator/controllers/algorithm/dsg8.go:94-127 | For non-negative latencies, the per-link sweep passes exactly if backhaul, midhaul and fronthaul each have their bandwidth on every link and latencies whose sum is within the bound, if there is one. |
| Chains.LinksDistinct | operator/controllers/algorithm/dsg8.go:104-107 | A simple path crosses no link twice, in either direction. |
| Chains.UsageOnce | operator/controllers/algorithm/dsg8.go:114-118 | Debiting a simple path takes from each of its links exactly its own segment's bandwidth. |
| Chains.DebitedStep | operator/controllers/algorithm/dsg8.go:114-118 | Each hop's debit changes its own link only, by its own segment's bandwidth. |
| Chains.CheckedIsPayable | operator/controllers/algorithm/dsg8.go:114-123 | If every hop passes the check, debiting them one after the other never takes a link below zero. |
| Chains.CheckMissesRepeats | operator/controllers/algorithm/dsg8.go:114-123 | On a path that crosses a link twice the check may pass and the debits still overdraw the link. |
| Chains.DebitedNonNegative | operator/controllers/algorithm/dsg8.go:114-118 | After an accepted chain has been debited no link is negative, if none was. |
| Dsg8.Marked | operator/controllers/algorithm/dsg8.go:90-98 | On a simple path exactly the root, the second node and a named DU's node are placement nodes. |
| Dsg8.ServeOrKeep | operator/controllers/algorithm/dsg8.go:87-102 | The queue is not empty when it is read, and after that each hop is judged against its own segment, with the latency counted from that segment's start. |
| Dsg8.FirstFitProperty | operator/controllers/algorithm/dsg8.go:52-61 | The DU's index is the first from the third node on, short of the last, with room; or there is none. |
| Dsg8.DuFoundIff | operator/controllers/algorithm/dsg8.go:52-64 | A recorded candidate has a DU exactly if some node strictly between CU and RU has room. |
| Dsg8.FeasibleIff | operator/controllers/algorithm/dsg8.go:37-82 | For non-negative latencies a path passes exactly if its second node has room and its three segments, parted at the CU and at the first-fit DU, meet their requirements. |
| Dsg8.Disaggregation8.DebitLink | operator/controllers/algorithm/dsg8.go:114-117 | Debiting one hop moves the objects from k hops paid to k+1 and succeeds exactly if the link stays non-negative. |
| Dsg8.Disaggregation8.SweepLink | operator/controllers/algorithm/dsg8.go:105-124 | One hop, checked or debited, continues the sweep or tells why it breaks. |
| Dsg8.Disaggregation8.Serve | operator/controllers/algorithm/dsg8.go:97-102 | What is taken from the queue at the i-th node is the requirement of the hop that follows. |
| Dsg8.Disaggregation8.SweepHop | operator/controllers/algorithm/dsg8.go:105-125 | The hop after a node, if there is one, ends the turn with everything in step, or tells why the sweep breaks. |
| Dsg8.Disaggregation8.SweepNode | operator/controllers/algorithm/dsg8.go:97-125 | One turn of the loop keeps queue, running latency and objects in step. |
| Dsg8.Disaggregation8.ValidateNetwork | operator/controllers/algorithm/dsg8.go:85-128 | In check mode true exactly if the sweep passes, and nothing changes; in allocate mode every hop is paid, or the hops before the first unpayable one and that one. |
| Dsg8.Disaggregation8.FindDu | operator/controllers/algorithm/dsg8.go:52-61 | Names the first-fit DU on the current stock, or none. |
| Dsg8.Disaggregation8.Candidates | operator/controllers/algorithm/dsg8.go:37-65 | Candidates are recorded for exactly the paths with room on their second node, under the path's index; a path without a second node panics. |
| Dsg8.Disaggregation8.FirstPassing | operator/controllers/algorithm/dsg8.go:73-82 | Whatever the order of the map, a candidate is found exactly if some path is feasible, and it is feasible. |
| Dsg8.Disaggregation8.Validate | operator/controllers/algorithm/dsg8.go:30-83 | The verdict does not depend on iteration order: accepted, with a feasible path's own candidate, exactly if some path is feasible. |
| Dsg8.Disaggregation8.ChainPays | operator/controllers/algorithm/dsg8.go:130-145 | An accepted chain with a DU can pay for the DU, then the CU, then its links. |
| Dsg8.Disaggregation8.DebitLinks | operator/controllers/algorithm/dsg8.go:142-145 | The second run of the sweep, after a check on the same bandwidths, never fails and debits the whole path. |
| Dsg8.Disaggregation8.AllocateResources | operator/controllers/algorithm/dsg8.go:130-148 | For an accepted candidate: all debits are made if it has a DU, none and a panic if it has not; never an error. |
| Placement.ShortPathMeansRoot | operator/controllers/algorithm/dsg8.go:43 | A path without a second node is among those found exactly if the RU is on the core. |
| Placement.PlacementBFS.AllocateRUsResources | operator/controllers/algorithm/placement.go:157-170 | Either every RU is reserved on its node, or the first one that overdraws its node stops it, with its own debit made. |
| Placement.PlacementBFS.FulfillRU | operator/controllers/algorithm/placement.go:117-122 | The RU's four fields become the position's. |
| Placement.PlacementBFS.Judge | operator/controllers/algorithm/placement.go:93-97 | Accepted means a path that the search found and that is feasible, with its own CU and DU; rejected means that none of the paths found is feasible; nothing changes. |
| Placement.PlacementBFS.Commit | operator/controllers/algorithm/placement.go:97-102 | An accepted chain with a DU is recorded and paid in full; without one, only the fields are filled in. |
| Placement.PlacementBFS.PlaceOne | operator/controllers/algorithm/placement.go:92-108 | All or nothing for each RU: a rejected one changes no link, node or field; no error is possible. |
| Placement.PlacementBFS.PlaceNext | operator/controllers/algorithm/placement.go:92-108 | One turn of the loop changes the fields of no other RU. |
| Placement.PlacementBFS.PlaceAll | operator/controllers/algorithm/placement.go:92-110 | The loop, from the reservations on, ends with a completed run or at the first panic. |
| Placement.PlacementBFS.Place | operator/controllers/algorithm/placement.go:86-111 | Every way it can end: a refused reservation, a completed run of legal events, or one of the two panics, with fields and stock as the events left them. |
| Outcomes.AcceptedIsPlaced | operator/controllers/algorithm/placement.go:97-102 | Paying for an acceptable path with a DU is a legal placement event. |
| Outcomes.RejectedIsSkip | operator/controllers/algorithm/placement.go:97-107 | If none of the paths found is feasible, passing the RU over is a legal event. |
| Outcomes.EveryRuDecided | operator/controllers/algorithm/placement.go:92-108 | Off the core an RU always has a legal event, or an acceptable path that ends in the panic. |
| Outcomes.MayBeFoundIff | operator/controllers/algorithm/placement.go:124-155 | The paths that a search may return are exactly the simple ones at most one hop from shortest. |
| Outcomes.MayBeRejectedIff | operator/controllers/algorithm/placement.go:93-107 | A search may return nothing feasible exactly if no shortest path is feasible, whatever longer ones are. |
| Outcomes.LegalIff | operator/controllers/algorithm/placement.go:92-108 | An RU may be skipped exactly if it is off the core and no shortest path is feasible; it may be placed exactly on a simple, near-shortest, feasible path with room for a DU between CU and RU, at the first such node. |
| Outcomes.EventExistsIff | operator/controllers/algorithm/placement.go:92-108 | It can end without a panic exactly if it is off the core with no feasible shortest path, or some near-shortest feasible path has room for a DU. |
| Outcomes.StrandsIff | operator/controllers/algorithm/dsg8.go:52-64 | Accepting a path panics exactly if the path is simple, near-shortest and feasible, with no room for a DU between CU and RU. |
| Outcomes.PanicIff | operator/controllers/algorithm/placement.go:92-102 | For an RU off the core that panic is possible exactly if there is such a path, and certain exactly if some shortest path is feasible and no near-shortest feasible path has room for a DU. |
| Outcomes.OrderDecidesIff | operator/controllers/algorithm/placement.go:92-108 | An RU may both be skipped and be placed on a path exactly if it is off the core, no shortest path is feasible, and that path is near-shortest, feasible and has room for a DU. |
| Outcomes.TurnDone | operator/controllers/algorithm/placement.go:92-108 | A turn without a panic extends the run by one legal event, with fields and stock as the event leaves them. |
| Outcomes.TurnPanics | operator/controllers/algorithm/placement.go:92-102 | A turn that does not end well is one of the two panics, never an error. |
| Examples.NextToTheCorePanics | operator/controllers/algorithm/placement.go:92-102 | With a first RU on the one neighbour of the core the placement panics for want of a DU, however much room there is. |
| Examples.DiamondPlaced | operator/controllers/algorithm/placement.go:92-102 | Where two routes part after the CU, with room and bandwidth on them, either is a legal placement. |
| Examples.KiteOrderDecides | operator/controllers/algorithm/placement.go:146-151 | Where the one shortest path is too narrow and a detour is not, the order of neighbours decides whether the RU is placed or skipped, on the same stock and with the RU reserved. |
| Ledger.PlacedIsSound | operator/controllers/algorithm/placement.go:92-102 | A placed chain has a simple linked path from core to RU, room for the CU at its second node and for the DU at the first later one that has any, and all three segments' requirements held. |
| Ledger.PlacedDistance | operator/controllers/algorithm/placement.go:92-102 | Its path has the RU's distance or one hop more, and the RU is at least two hops from the core. |
| Ledger.EventDecided | operator/controllers/algorithm/placement.go:93-107 | An RU with a feasible shortest path is placed; one on an unreachable node is skipped. |
| Ledger.BandwidthConserved | operator/controllers/algorithm/placement.go:92-108 | For every link, capacity minus available is the sum over placed chains crossing it of their segment's bandwidth. |
| Ledger.BandwidthNonNegative | operator/controllers/algorithm/placement.go:92-108 | No link is negative at any point of a run, if none was at the start. |
| Ledger.TotalUsageIsDemand | operator/controllers/algorithm/dsg8.go:94-125 | Summed over all links, a chain uses what its hops demand, hop by hop. |
| Ledger.DemandIs | operator/controllers/algorithm/dsg8.go:97-102 | That is backhaul once, midhaul j-1 times and fronthaul for the rest, with the DU at index j. |
| Ledger.TotalConserved | operator/controllers/algorithm/placement.go:92-108 | What all links together have lost over a run is the sum of the placed chains' demands. |
| Ledger.TimesIsProduct | operator/controllers/algorithm/dsg8.go:130-140 | The request taken n times over is n times the request. |
| Ledger.NodesConserved | operator/controllers/algorithm/dsg8.go:130-140 | For every node, what a run has taken is the request times the CUs and DUs placed on it. |
| Ledger.NodeBill | operator/controllers/algorithm/placement.go:87-102 | Including the reservations: the request times RUs, CUs and DUs on the node. |
| Ledger.NodesCovered | operator/controllers/algorithm/dsg8.go:130-140 | No event of a run overdraws a node. |
| Ledger.JustPlacedKeeps | operator/controllers/utils/types.go:58-65 | A node that has just taken a CU or DU, or both, keeps strictly more than rounding up added to the request. |
| Ledger.ReservationSucceedsIff | operator/controllers/algorithm/placement.go:157-170 | For a non-negative request, reserving succeeds exactly if every RU's node affords all the RUs requested on it. |
| Ledger.ReservedCovered | operator/controllers/algorithm/placement.go:157-170 | Reservations that went through overdraw no node. |
| Ledger.RunSettles | operator/controllers/algorithm/placement.go:86-111 | The final amount on every link and every node of a whole placement, reservations included. |
| Ledger.RunStaysSolvent | operator/controllers/algorithm/placement.go:86-111 | A whole placement leaves no link and no node negative, if none was. |
| Report.ObjectsSettled | operator/controllers/algorithm/placement.go:86-115 | The same amounts, as found on the node and link objects after the placement. |
| Report.ObjectsSolvent | operator/controllers/algorithm/placement.go:86-115 | No such object is negative. |
| Report.NotAllocated | operator/controllers/splitsplacer_controller.go:295-300 | The loop counts exactly the RUs whose CU node or DU node is empty. |
| Report.CompletedFields | operator/controllers/algorithm/placement.go:92-122 | After a completed placement a skipped RU has the four fields it came with, and a placed one its path, the path's second node as CU, the DU's node, and the key "1". |
| Report.CountsAdd | operator/controllers/splitsplacer_controller.go:295-302 | RUs left without a chain, chains placed, and RUs skipped that came with a chain add up to all RUs. |
| Report.NoneHeldOverIff | operator/controllers/splitsplacer_controller.go:295-302 | There are none of the last kind exactly if every RU that was skipped came without a chain. |
| Report.ReportedIsPlacedIff | operator/controllers/splitsplacer_controller.go:302 | After a completed placement the reported count is the number of chains placed exactly if every RU that was skipped came without a chain. |
| Report.FreshReportedIsPlaced | operator/controllers/splitsplacer_controller.go:302 | If every RU comes without a chain, the count reported after a completed placement is the number of chains placed. |
| Report.FinishedReports | operator/controllers/splitsplacer_controller.go:295-309 | The counts and amounts read off fields and links are those of the report, however the placement ended. |
| Examples.LostFinishedOvercounts | operator/controllers/splitsplacer_controller.go:295-302 | On an unchanged cluster, a pass that places an RU but whose `Finished` is lost may be followed by one that skips the RU, by the order of neighbours alone, and counts it. |
| Report.PlaceAndReport | operator/controllers/splitsplacer_controller.go:293-309 | The status after a completed run counts the chains placed and those skipped RUs came with, and shows each link's capacity less what the placed chains use; after a reservation that overdrew its node, the chains RUs came with and full capacities; it panics only at an RU on the core or one with an acceptable chain without a DU. The RUs' own fields are as `CompletedFields` says. |
| Report.PlaceRequest | operator/controllers/splitsplacer_controller.go:286-309 | The same from the topology on: the network is the described one and the stock the nodes' allocatable resources and the links' capacities. |
| Report.PlacementFillsIn | operator/controllers/splitsplacer_controller.go:293 | A completed placement fills in whole chains or leaves RUs as they were, which is what a pass of the request's controller may come to. |
| Report.PlacedRusAre | operator/controllers/splitsplacer_controller.go:293 | In what is stored each RU keeps its name and its node; placed, it has its path's second node as CU and the event's node as DU; skipped, it is unchanged. |
| Report.PlaceStored | operator/controllers/splitsplacer_controller.go:286-293 | Placing the stored RUs comes to chains stored so after a legal run on the described network, to an error only if the reservations do not go through, and to a panic only at an RU on the core or one with an acceptable chain without a DU. |
| Report.ReconcileRequest | operator/controllers/splitsplacer_controller.go:58-108 | A whole reconcile pass, placement included. If it completes on a request with a topology, each RU is stored as a legal run leaves it, and the Splits have the RUs' nodes exactly if there was no conflict. If no call fails it completes and the state is `Finished`, or the state is `Error` because the reservations do not go through, or it panics as the placement does. |
| SplitsPlacer.ApiServer.Create | operator/controllers/splitsplacer_controller.go:201-204 | Creates the Split or changes nothing, and never replaces one; a failing call may have done either. |
| SplitsPlacer.ApiServer.UpdateSpec | operator/controllers/splitsplacer_controller.go:98-101 | Stores the RUs or nothing; only a call that reports no failure is sure to have stored them. |
| SplitsPlacer.ApiServer.UpdateStatus | operator/controllers/splitsplacer_controller.go:110-119 | Stores the state or nothing; only a call that reports no failure is sure to have stored it. |
| SplitsPlacer.SyncSplits | operator/controllers/splitsplacer_controller.go:181-211 | Ensures the Splits of a prefix of the RUs and creates exactly the names that this needs. If it does not fail, each RU with a chain has a Split with its three nodes and the core's address exactly if there was no conflict; it does not fail unless a call does. |
| SplitsPlacer.NewSplitsAreRus | operator/controllers/splitsplacer_controller.go:213-227 | A Split that a pass creates has the name and the three nodes of an RU of the pass, and the core's address of the request. |
| SplitsPlacer.Reconcile | operator/controllers/splitsplacer_controller.go:58-108 | Whatever calls fail, a pass is one of the possible passes and leaves the store that pass stands for; if it reports no failure on a request not yet handled, it was complete, with the RUs that the placement came to. If no call fails, only a failed or panicking placement keeps it from completing, and every write is made. |
| SplitsPlacer.SplitsSafe | operator/controllers/splitsplacer_controller.go:181-211 | Over any sequence of passes no Split is lost or overwritten, and every new one has a CU and a DU node. |
| SplitsPlacer.CreatesAreNew | operator/controllers/splitsplacer_controller.go:189-205 | Within a pass no name is created twice, none that existed, and what is new is what was created. |
| SplitsPlacer.NeverCreatedTwice | operator/controllers/splitsplacer_controller.go:58-108 | The same over any sequence of passes. |
| SplitsPlacer.ReconcileRepeatedly | operator/controllers/splitsplacer_controller.go:58-108 | Any number of passes, whichever calls fail and whatever the placement comes to, is such a sequence, and the names created on the server are those it stands for. |
| SplitsPlacer.OneShot | operator/controllers/splitsplacer_controller.go:71-76 | Once the state is set nothing stored ever changes again. |
| SplitsPlacer.StateMoves | operator/controllers/splitsplacer_controller.go:78-105 | The state moves only from empty; to `Finished` exactly by a complete pass, to `Error` exactly by a failed placement or sync, whose status write is stored. |
| SplitsPlacer.AgreesIffNoConflict | operator/controllers/splitsplacer_controller.go:181-211 | Every RU with a chain ends up with a Split of exactly its nodes if and only if no older Split and no earlier RU holds its name for other nodes. |
| SplitsPlacer.FreshRequestAgrees | operator/controllers/splitsplacer_controller.go:87-105 | In particular for distinct names and no older Splits. |
| SplitsPlacer.CleanHistoryAgrees | operator/controllers/splitsplacer_controller.go:58-108 | Over any sequence of passes in which no write fails or is lost, a request with distinct new names is untouched, or in state `Error` with nothing else changed, or finished with exactly its chains as Splits; placements may fail or panic. |
| SplitsPlacer.LostFinished | operator/controllers/splitsplacer_controller.go:98-105 | If the last write of a pass is lost the request is taken up again although its RU has a chain. |
| SplitsPlacer.LostStatusDisagrees | operator/controllers/splitsplacer_controller.go:87-92 | A pass whose status write is lost leaves its Splits behind, and the next pass may finish with another placement. |
| Examples.LostStatusMovesTheDu | operator/controllers/splitsplacer_controller.go:87-92 | Both placements of such a history are runs, reservation included, on a network where two routes part after the CU. |
| SplitController.KeysApart | operator/controllers/split_controller.go:482-491 | The names of pieces are injective in Split and piece and none is a template's name. |
| SplitController.TemplatesKept | operator/controllers/split_controller.go:218-266 | No step changes what the operator's templates say, even for Splits in the operator's own namespace. |
| SplitController.HistoryAmounts | operator/controllers/split_controller.go:161-316 | After any sequence of steps the store is the initial one with each step's mark at its target, once. |
| SplitController.SameSteps | operator/controllers/split_controller.go:161-316 | Sequences that take the same steps, in any order and any number of times, end in the same store. |
| SplitController.TakenIsSettled | operator/controllers/split_controller.go:161-316 | A step that has been taken has nothing left to write. |
| SplitController.PassesConverge | operator/controllers/split_controller.go:71-102 | Interleaved passes, cut short anywhere, reach the same store as clean passes once each Split has had a full one, and a further pass writes nothing. |
| SplitController.StepsSucceedIff | operator/controllers/split_controller.go:161-316 | The steps of a pass succeed one after the other, in any order, exactly if each would on the store before the pass. |
| SplitController.PassGoesThroughIff | operator/controllers/split_controller.go:218-316 | A full pass, as a sequence of steps, meets no error and no panic of its own exactly if the three operator templates exist, each copy is absent, current or has data to write to, and no piece has two pods. |
| SplitController.HistoryServes | operator/controllers/split_controller.go:161-316 | Once all steps of a Split have been taken, among any others: each copy reads as the operator's template, each values map holds the text made of the pods' addresses, other fields of both are as they were, and each piece has a deployment, the old one or one on the Split's node. |
| SplitController.PassKeepsElsewhere | operator/controllers/split_controller.go:161-316 | A pass, however far it gets, changes none but the nine objects of its Split. |
| SplitController.StaysReady | operator/controllers/split_controller.go:71-93 | Steps of other Splits do not take away what a Split's pass needs. |
| SplitController.Attempt | operator/controllers/split_controller.go:268-313 | One resource: the step is taken as a whole or not at all, whatever call fails; if none fails it is taken unless it cannot be. |
| SplitController.SyncStage | operator/controllers/split_controller.go:161-190 | One of the three loops, in any order of pieces, takes steps of its stage until a call fails, all of them if none does. |
| SplitController.Reconcile | operator/controllers/split_controller.go:71-93 | A pass takes steps of its Split, templates before values before deployments, and changes nothing else. If it does not fail the Split is served as in `HistoryServes`; if no call fails, it fails exactly if the Split was not ready for it; if there is nothing to write it writes nothing. |
| SplitController.ReconcileAll | operator/controllers/split_controller.go:71-93 | Requests in any order, whether their passes fail or not, take the steps of such passes on the server; if no call fails and all Splits are ready, none fails. |
| SplitController.ReconcileUntilDone | operator/controllers/split_controller.go:71-93 | Once each Split asked for has had a pass that did not fail, all are served, and the server holds the store of any clean passes, in which no pass has anything to write; if no call fails and all Splits are ready, this is so after one round. |

## Left out

- Kubernetes clients, informer caches and stale reads, events, logging, JSON decoding, owner references,
  RBAC and manager setup: an abstract store and failing calls stand in their place.
- `NodeListToMap`, which takes the address of a loop variable, so that under the module's Go version all
  entries describe the same node: each node's initial resources are an input here, in objects of its own.
- The path cache, which is read but never written.
- Rounding in `float32`, and the insides of `resource.Quantity` and of the queue library: amounts are
  exact, and the queue is a sequence that must not be empty when it is read.
- Optimality: the greedy placement tries one CU and one DU per path, in the order of the request, and a
  rejected RU might fit in another order.
- Writers other than the controllers, such as users who edit Splits or delete config maps.
- The path and the disaggregation key of a stored RU: the store of the request's controller holds its nodes
  only, and `ReconcileRequest` starts the placement with those.
- What the status of a request holds besides its state after the spec has been updated: the reply to that
  update may reset the counts that `Report` describes.
- The status of a Split, the listing of pods, and the literal of a deployment beyond its name, piece,
  node and the two config maps it mounts.
- Several placement requests in one namespace at the same time.
- The replacer and the rest of the Python harness.
- Loops of the original are split up: a turn of a loop is often a method of its own (`SweepNode`, `Turn`,
  `PlaceNext`), in the same order of steps.
